/** The faculty directory: the registered users whose role is "faculty". */
module Directory {
  import opened Store

  /** `users.filter(user => user.userType === "faculty")`. */
  function FacultyOf(users: seq<User>): (r: seq<User>)
    ensures |r| <= |users|
    ensures forall u :: u in r <==> u in users && u.userType == "faculty"
  {
    if users == [] then []
    else (if users[0].userType == "faculty" then [users[0]] else []) + FacultyOf(users[1..])
  }

  /** The filter keeps stored order: filtering a concatenation filters each part. */
  lemma {:induction false} FacultyOfAppend(a: seq<User>, b: seq<User>)
    ensures FacultyOf(a + b) == FacultyOf(a) + FacultyOf(b)
  {
    if a == [] {
      assert a + b == b;
    } else {
      assert (a + b)[1..] == a[1..] + b;
      FacultyOfAppend(a[1..], b);
    }
  }

  /** With no admin among the users, the directory lists all of them, in order. */
  lemma {:induction false} FacultyOfAllFaculty(users: seq<User>)
    requires forall k :: 0 <= k < |users| ==> users[k].userType == "faculty"
    ensures FacultyOf(users) == users
  {
    if users != [] {
      FacultyOfAllFaculty(users[1..]);
    }
  }

  /** The list `FacultyListTab` shows: the faculty among the stored users, none when nothing is stored. */
  function FacultyList(store: LocalStorage): (r: seq<User>)
    reads store
    ensures store.users == None ==> r == []
    ensures forall u :: u in r <==> u in UsersOrEmpty(store.users) && u.userType == "faculty"
  {
    FacultyOf(UsersOrEmpty(store.users))
  }
}
