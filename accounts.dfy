/**
 * The two public pages: registration, which appends a faculty user to the
 * stored users, and login, which writes the session pointer without looking
 * at the stored users at all.
 */
module Accounts {
  import opened Store
  import opened Text

  /** Where a handler sends the browser; `Stay` is no navigation. */
  datatype Navigation = Stay | ToLogin | ToDashboard | ToAdmin

  /** The registration form's six inputs. */
  datatype RegistrationForm = RegistrationForm(
    name: string,
    email: string,
    password: string,
    department: string,
    designation: string,
    phone: string)

  /** Which input a change event comes from. */
  datatype RegistrationInput = NameInput | EmailInput | PasswordInput | DepartmentInput | DesignationInput | PhoneInput

  /** The role chosen on the login page; the select offers exactly these two. */
  datatype Role = FacultyRole | AdminRole

  /** The `userType` string stored for a role. */
  function RoleName(role: Role): string
  {
    match role
    case FacultyRole => "faculty"
    case AdminRole => "admin"
  }

  /** The "required fields" guard: name, email, password and department non-empty; designation and phone may be empty. */
  predicate RegistrationComplete(form: RegistrationForm)
  {
    form.name != "" && form.email != "" && form.password != "" && form.department != ""
  }

  /** `existingUsers.some(user => user.email === formData.email)`. */
  predicate EmailTaken(users: seq<User>, email: string)
  {
    exists k :: 0 <= k < |users| && users[k].email == email
  }

  /** No two stored users share an email. */
  predicate DistinctEmails(users: seq<User>)
  {
    forall i, j :: 0 <= i < j < |users| ==> users[i].email != users[j].email
  }

  /** `{ ...formData, id: Date.now().toString(), userType: "faculty", createdAt: new Date().toISOString() }`. */
  function NewUser(form: RegistrationForm, now: string, isoNow: string): User
  {
    User(now, form.name, form.email, form.password, form.department, form.designation, form.phone, "faculty", isoNow)
  }

  /**
   * `handleRegister` on the stored users: the stored value afterwards and the
   * navigation. Validation or a taken email leave the store as it was (the key
   * stays absent if it was); a success stores the old users plus the new one.
   */
  function Register(stored: Option<seq<User>>, form: RegistrationForm, now: string, isoNow: string)
    : (r: (Option<seq<User>>, Navigation))
    ensures r.1 == ToLogin <==> RegistrationComplete(form) && !EmailTaken(UsersOrEmpty(stored), form.email)
    ensures r.1 != ToLogin ==> r == (stored, Stay)
    ensures r.1 == ToLogin ==>
              && r.0.Some?
              && |r.0.value| == |UsersOrEmpty(stored)| + 1
              && r.0.value[..|UsersOrEmpty(stored)|] == UsersOrEmpty(stored)
              && r.0.value[|UsersOrEmpty(stored)|] == NewUser(form, now, isoNow)
  {
    if !RegistrationComplete(form) then (stored, Stay)
    else
      var existing := UsersOrEmpty(stored);
      if EmailTaken(existing, form.email) then (stored, Stay)
      else (Some(existing + [NewUser(form, now, isoNow)]), ToLogin)
  }

  /** Whatever a registration attempt does, stored emails that were pairwise distinct stay so. */
  lemma RegisterKeepsEmailsDistinct(stored: Option<seq<User>>, form: RegistrationForm, now: string, isoNow: string)
    requires DistinctEmails(UsersOrEmpty(stored))
    ensures DistinctEmails(UsersOrEmpty(Register(stored, form, now, isoNow).0))
  {
    var r := Register(stored, form, now, isoNow);
    if r.1 == ToLogin {
      var old_ := UsersOrEmpty(stored);
      var users := r.0.value;
      forall i, j | 0 <= i < j < |users| ensures users[i].email != users[j].email {
        if j == |old_| {
          assert users[i] == old_[i];
          assert users[j].email == form.email;
        } else {
          assert users[i] == old_[i] && users[j] == old_[j];
        }
      }
    }
  }

  /** A second registration with the same email is refused, whatever the other fields say. */
  lemma RegisterTwiceRefused(stored: Option<seq<User>>, form: RegistrationForm, again: RegistrationForm,
                             now: string, isoNow: string, later: string, isoLater: string)
    requires Register(stored, form, now, isoNow).1 == ToLogin
    requires again.email == form.email
    ensures Register(Register(stored, form, now, isoNow).0, again, later, isoLater).1 == Stay
  {
    var users := Register(stored, form, now, isoNow).0.value;
    assert users[|UsersOrEmpty(stored)|].email == form.email;
  }

  /** With the four required fields filled and a fresh email, empty designation and phone still register. */
  lemma OptionalFieldsNotRequired(stored: Option<seq<User>>, form: RegistrationForm, now: string, isoNow: string)
    requires form.name != "" && form.email != "" && form.password != "" && form.department != ""
    requires forall u :: u in UsersOrEmpty(stored) ==> u.email != form.email
    ensures Register(stored, form.(designation := "", phone := ""), now, isoNow).1 == ToLogin
  {
  }

  /** The registration page: its form and the store it writes to. */
  class RegisterPage {
    const store: LocalStorage
    var form: RegistrationForm

    /** The page as mounted: every input empty. */
    constructor (store: LocalStorage)
      ensures this.store == store
      ensures form == RegistrationForm("", "", "", "", "", "")
    {
      this.store := store;
      form := RegistrationForm("", "", "", "", "", "");
    }

    /** `handleInputChange(field, value)`: one input takes a new value, the others stay. */
    method HandleInputChange(input: RegistrationInput, value: string)
      modifies this`form
      ensures form == match input
                      case NameInput => old(form).(name := value)
                      case EmailInput => old(form).(email := value)
                      case PasswordInput => old(form).(password := value)
                      case DepartmentInput => old(form).(department := value)
                      case DesignationInput => old(form).(designation := value)
                      case PhoneInput => old(form).(phone := value)
    {
      match input
      case NameInput => form := form.(name := value);
      case EmailInput => form := form.(email := value);
      case PasswordInput => form := form.(password := value);
      case DepartmentInput => form := form.(department := value);
      case DesignationInput => form := form.(designation := value);
      case PhoneInput => form := form.(phone := value);
    }

    /** `handleRegister`: validate, refuse a taken email, else append a faculty user and go to the login page. */
    method HandleRegister(now: string, isoNow: string) returns (nav: Navigation)
      modifies store`users
      ensures (store.users, nav) == Register(old(store.users), form, now, isoNow)
    {
      if !RegistrationComplete(form) {
        return Stay;
      }
      var existingUsers := UsersOrEmpty(store.users);
      var userExists := EmailTaken(existingUsers, form.email);
      if userExists {
        return Stay;
      }
      store.users := Some(existingUsers + [NewUser(form, now, isoNow)]);
      nav := ToLogin;
    }
  }

  /**
   * `handleLogin` on the session pointer: empty email or password leave it as
   * it was; otherwise it becomes `{ email, userType, id: now, name }`, the name
   * being the email up to its first '@'.
   */
  function Login(current: Option<SessionUser>, email: string, password: string, role: Role, now: string)
    : (r: (Option<SessionUser>, Navigation))
    ensures email == "" || password == "" ==> r == (current, Stay)
    ensures email != "" && password != "" ==>
              && r.0.Some? && r.0.value.email == email && r.0.value.id == now
              && r.0.value.userType == RoleName(role)
              && r.0.value.name <= email && '@' !in r.0.value.name
              && ('@' !in email ==> r.0.value.name == email)
              && (|r.0.value.name| < |email| ==> email[|r.0.value.name|] == '@')
    ensures r.1 == ToAdmin <==> email != "" && password != "" && role == AdminRole
    ensures r.1 == ToDashboard <==> email != "" && password != "" && role == FacultyRole
  {
    if email == "" || password == "" then (current, Stay)
    else
      var userData := SessionUser(email, RoleName(role), now, BeforeFirst(email, '@'));
      (Some(userData), if role == AdminRole then ToAdmin else ToDashboard)
  }

  /** The login page: its inputs, the chosen role, and the store it writes to. */
  class LoginPage {
    const store: LocalStorage
    var email: string
    var password: string
    var userType: Role

    /** The page as mounted: empty inputs, role "faculty". */
    constructor (store: LocalStorage)
      ensures this.store == store
      ensures email == "" && password == "" && userType == FacultyRole
    {
      this.store := store;
      email, password, userType := "", "", FacultyRole;
    }

    /** The email input's change handler: only the email changes. */
    method SetEmail(value: string)
      modifies this`email
      ensures email == value
    {
      email := value;
    }

    /** The password input's change handler: only the password changes. */
    method SetPassword(value: string)
      modifies this`password
      ensures password == value
    {
      password := value;
    }

    /** The role buttons: a click selects that role, the inputs keep their text. */
    method SelectRole(role: Role)
      modifies this`userType
      ensures userType == role
    {
      userType := role;
    }

    /** `handleLogin`: writes only the session pointer; the stored users are neither read nor checked. */
    method HandleLogin(now: string) returns (nav: Navigation)
      modifies store`currentUser
      ensures (store.currentUser, nav) == Login(old(store.currentUser), email, password, userType, now)
      ensures store.users == old(store.users) && store.lists == old(store.lists)
    {
      if email == "" || password == "" {
        return Stay;
      }
      var userData := SessionUser(email, RoleName(userType), now, BeforeFirst(email, '@'));
      store.currentUser := Some(userData);
      if userType == AdminRole {
        nav := ToAdmin;
      } else {
        nav := ToDashboard;
      }
    }
  }
}
