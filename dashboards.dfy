/**
 * The two dashboards. Each admits the session pointer only for its own role
 * and otherwise sends the browser back to the login page; both log out by
 * removing the pointer. The admin dashboard also downloads the all-faculty
 * document under a dated file name.
 */
module Dashboards {
  import opened Store
  import opened Text
  import opened Directory
  import opened ReportLayout
  import opened Accounts

  /**
   * The mount effect's gate: the stored pointer is admitted when present and
   * its `userType` is exactly the dashboard's role; otherwise nothing is.
   */
  function Admit(stored: Option<SessionUser>, role: string): (r: Option<SessionUser>)
    ensures r.Some? <==> stored.Some? && stored.value.userType == role
    ensures r.Some? ==> r == stored
  {
    if stored.None? then None
    else if stored.value.userType != role then None
    else stored
  }

  /** `All_Faculty_Reports_${new Date().toISOString().split('T')[0]}.pdf`. */
  function AllReportsFileName(isoNow: string): (r: string)
    ensures 24 <= |r|
    ensures r[..20] == "All_Faculty_Reports_" && r[|r| - 4..] == ".pdf"
    ensures var date := r[20..|r| - 4];
            && date <= isoNow && 'T' !in date
            && (|date| < |isoNow| ==> isoNow[|date|] == 'T')
  {
    var date := BeforeFirst(isoNow, 'T');
    var r := "All_Faculty_Reports_" + date + ".pdf";
    assert r[20..|r| - 4] == date;
    r
  }

  /** For an ISO timestamp `<date>T<time>` the file name carries exactly the date. */
  lemma AllReportsFileNameOfTimestamp(date: string, time: string)
    requires 'T' !in date
    ensures AllReportsFileName(date + "T" + time) == "All_Faculty_Reports_" + date + ".pdf"
  {
    BeforeFirstAt(date, 'T', time);
  }

  /** The faculty dashboard. */
  class FacultyDashboard {
    const store: LocalStorage
    var currentUser: Option<SessionUser>

    /** Before the effect runs the user state is null. */
    constructor (store: LocalStorage)
      ensures this.store == store && currentUser == None
    {
      this.store := store;
      currentUser := None;
    }

    /** The mount effect: admit a "faculty" pointer, else go to the login page with the user state untouched. */
    method CheckSession() returns (nav: Navigation)
      modifies this`currentUser
      ensures var admitted := Admit(store.currentUser, "faculty");
              && (nav == ToLogin <==> admitted.None?)
              && (admitted.None? ==> nav == ToLogin && currentUser == old(currentUser))
              && (admitted.Some? ==> nav == Stay && currentUser == admitted)
    {
      var user := store.currentUser;
      if user.None? {
        return ToLogin;
      }
      if user.value.userType != "faculty" {
        return ToLogin;
      }
      currentUser := user;
      nav := Stay;
    }

    /** `handleLogout`: the pointer is removed, nothing else in the store changes. */
    method HandleLogout() returns (nav: Navigation)
      modifies store`currentUser
      ensures store.currentUser == None && nav == ToLogin
    {
      store.currentUser := None;
      nav := ToLogin;
    }

    /** `handleDownloadReport`: only a notification; no report is produced and nothing is stored. */
    method HandleDownloadReport()
      ensures unchanged(store) && unchanged(this)
    {
    }
  }

  /** The admin dashboard. */
  class AdminDashboard {
    const store: LocalStorage
    var currentUser: Option<SessionUser>

    /** Before the effect runs the user state is null. */
    constructor (store: LocalStorage)
      ensures this.store == store && currentUser == None
    {
      this.store := store;
      currentUser := None;
    }

    /** The mount effect: admit an "admin" pointer, else go to the login page with the user state untouched. */
    method CheckSession() returns (nav: Navigation)
      modifies this`currentUser
      ensures var admitted := Admit(store.currentUser, "admin");
              && (nav == ToLogin <==> admitted.None?)
              && (admitted.None? ==> nav == ToLogin && currentUser == old(currentUser))
              && (admitted.Some? ==> nav == Stay && currentUser == admitted)
    {
      var user := store.currentUser;
      if user.None? {
        return ToLogin;
      }
      if user.value.userType != "admin" {
        return ToLogin;
      }
      currentUser := user;
      nav := Stay;
    }

    /** `handleLogout`: the pointer is removed, nothing else in the store changes. */
    method HandleLogout() returns (nav: Navigation)
      modifies store`currentUser
      ensures store.currentUser == None && nav == ToLogin
    {
      store.currentUser := None;
      nav := ToLogin;
    }

    /** `handleDownloadAllReports`: the all-faculty document of the stored users and lists, under the dated name. */
    method HandleDownloadAllReports(today: string, isoNow: string) returns (download: Download)
      ensures download.fileName == AllReportsFileName(isoNow)
      ensures download.draws == AllFacultyReports(UsersOrEmpty(store.users), store.lists, today)
    {
      var pdf := GenerateAllFacultyReports(store, today);
      download := Download(AllReportsFileName(isoNow), pdf);
    }
  }

  /**
   * A successful login lands on the dashboard of the chosen role, whose gate
   * admits the pointer just written, while the other dashboard's gate refuses it.
   */
  lemma LoginLandsOnAdmittingDashboard(current: Option<SessionUser>, email: string, password: string, role: Role, now: string)
    requires email != "" && password != ""
    ensures var r := Login(current, email, password, role, now);
            && (r.1 == ToDashboard ==> Admit(r.0, "faculty") == r.0 && Admit(r.0, "admin") == None)
            && (r.1 == ToAdmin ==> Admit(r.0, "admin") == r.0 && Admit(r.0, "faculty") == None)
            && (r.1 == ToDashboard || r.1 == ToAdmin)
  {
  }
}
