/**
 * The pages driven one after another on one store, as a user of the
 * application would: register, log in, add a publication, then open the
 * admin's reports.
 */
module Scenarios {
  import opened Store
  import opened Directory
  import opened RecordLists
  import opened ActivityTabs
  import opened ReportLayout
  import opened FacultyReports
  import opened Accounts

  /**
   * On an empty store: register with `form` at time `regNow`, log in with the
   * same email and password at `loginNow`, type a publication's title,
   * authors, journal and year and submit it at `pubNow`, then mount the
   * admin's reports tab.
   *
   * Login gives the session the login timestamp as its id, not the registered
   * user's id, and the tabs key their lists by the session id. So the
   * faculty user's own tab shows the publication, but the admin's report for
   * that user counts it only when the two timestamps happen to coincide.
   */
  method RegisterLoginPublish(form: RegistrationForm, title: string, authors: string, journal: string, year: string,
                              regNow: string, isoNow: string, loginNow: string, pubNow: string)
    returns (registered: Navigation, loggedIn: Navigation, accepted: bool, shown: seq<Entry>, reports: seq<Report>)
    ensures registered == ToLogin <==> RegistrationComplete(form)
    ensures registered == ToLogin ==> loggedIn == ToDashboard
    ensures accepted <==> title != "" && authors != "" && journal != "" && year != ""
    ensures accepted ==> shown == [Entry(pubNow, TypedPublication(title, authors, journal, year))]
    ensures registered == ToLogin ==>
              && |reports| == 1
              && reports[0].member == NewUser(form, regNow, isoNow)
              && (reports[0].stats.publications == 1 <==> accepted && regNow == loginNow)
  {
    var store := new LocalStorage();
    registered, loggedIn := SignUp(store, form, regNow, isoNow, loginNow);
    accepted, shown := Publish(store, title, authors, journal, year, pubNow);
    var reportsTab := new FacultyReportsTab(store);
    reports := reportsTab.reports;
    if registered == ToLogin {
      ReportOfSoleFaculty(NewUser(form, regNow, isoNow), store.lists, loginNow,
                          Entry(pubNow, TypedPublication(title, authors, journal, year)), accepted);
    }
  }

  /** Registration then login on an empty store, with the same email and password. */
  method SignUp(store: LocalStorage, form: RegistrationForm, regNow: string, isoNow: string, loginNow: string)
    returns (registered: Navigation, loggedIn: Navigation)
    requires store.users == None && store.currentUser == None
    modifies store
    ensures registered == ToLogin <==> RegistrationComplete(form)
    ensures registered == ToLogin ==> loggedIn == ToDashboard
    ensures store.users == if registered == ToLogin then Some([NewUser(form, regNow, isoNow)]) else None
    ensures registered == ToLogin ==> store.currentUser.Some? && store.currentUser.value.id == loginNow
    ensures store.lists == old(store.lists)
  {
    var registerPage := new RegisterPage(store);
    FillRegistration(registerPage, form);
    registered := registerPage.HandleRegister(regNow, isoNow);
    assert registered == ToLogin ==> store.users.value == [] + [NewUser(form, regNow, isoNow)];
    var loginPage := new LoginPage(store);
    loginPage.SetEmail(form.email);
    loginPage.SetPassword(form.password);
    loggedIn := loginPage.HandleLogin(loginNow);
  }

  /** Typing each of the six registration inputs in turn: the page's form becomes `form`. */
  method FillRegistration(page: RegisterPage, form: RegistrationForm)
    modifies page`form
    ensures page.form == form
  {
    page.HandleInputChange(NameInput, form.name);
    page.HandleInputChange(EmailInput, form.email);
    page.HandleInputChange(PasswordInput, form.password);
    page.HandleInputChange(DepartmentInput, form.department);
    page.HandleInputChange(DesignationInput, form.designation);
    page.HandleInputChange(PhoneInput, form.phone);
  }

  /** The publication form after typing its four required inputs into a fresh form; the other inputs stay empty. */
  function TypedPublication(title: string, authors: string, journal: string, year: string): map<string, string>
  {
    EmptyForm(ActivityTabs.Publications).fields["title" := title]["authors" := authors]["journal" := journal]["year" := year]
  }

  /** The four typed inputs pass the publications tab's validation exactly when none is empty. */
  lemma TypedPublicationFilled(title: string, authors: string, journal: string, year: string)
    ensures RequiredFilled(ActivityTabs.Publications, Form(None, TypedPublication(title, authors, journal, year)))
            <==> title != "" && authors != "" && journal != "" && year != ""
  {
    var f := Form(None, TypedPublication(title, authors, journal, year));
    var required := ActivityTabs.Publications.required;
    assert required == ["title", "authors", "journal", "year"];
    assert f.fields["title"] == title && f.fields["authors"] == authors;
    assert f.fields["journal"] == journal && f.fields["year"] == year;
    if RequiredFilled(ActivityTabs.Publications, f) {
      assert Filled(f, required[0]) && Filled(f, required[1]) && Filled(f, required[2]) && Filled(f, required[3]);
    }
    if title != "" && authors != "" && journal != "" && year != "" {
      forall name | name in required ensures Filled(f, name) {
        assert name == "title" || name == "authors" || name == "journal" || name == "year";
      }
    }
  }

  /** Typing the four required inputs into the tab's freshly reset form. */
  method TypePublication(tab: ActivityTab, title: string, authors: string, journal: string, year: string)
    requires tab.schema == ActivityTabs.Publications && tab.form == EmptyForm(ActivityTabs.Publications)
    requires tab.Valid()
    modifies tab`form
    ensures tab.Valid() && tab.form == Form(None, TypedPublication(title, authors, journal, year))
  {
    tab.SetField("title", title);
    tab.SetField("authors", authors);
    tab.SetField("journal", journal);
    tab.SetField("year", year);
  }

  /** The publications tab mounted on a store with no lists, four inputs typed, and the form submitted. */
  method Publish(store: LocalStorage, title: string, authors: string, journal: string, year: string, pubNow: string)
    returns (accepted: bool, shown: seq<Entry>)
    requires store.lists == map[]
    modifies store`lists
    ensures accepted <==> title != "" && authors != "" && journal != "" && year != ""
    ensures accepted ==> shown == [Entry(pubNow, TypedPublication(title, authors, journal, year))]
    ensures store.lists == if accepted
                           then map[ListKey(PublicationsKind, SessionId(store.currentUser))
                                      := [Entry(pubNow, TypedPublication(title, authors, journal, year))]]
                           else map[]
  {
    var tab := MountPublicationsTab(store);
    TypePublication(tab, title, authors, journal, year);
    TypedPublicationFilled(title, authors, journal, year);
    accepted := tab.HandleSubmit(pubNow);
    shown := tab.records;
  }

  /**
   * With one faculty user and at most one publication stored, under the key
   * of session id `sessionId`, the admin's report counts that publication
   * exactly when the user's id is the session id.
   */
  lemma ReportOfSoleFaculty(user: User, lists: map<string, seq<Entry>>, sessionId: string, entry: Entry, stored: bool)
    requires user.userType == "faculty"
    requires lists == if stored then map[ListKey(PublicationsKind, sessionId) := [entry]] else map[]
    ensures var reports := LoadFacultyReports([user], lists);
            && |reports| == 1 && reports[0].member == user
            && (reports[0].stats.publications == 1 <==> stored && user.id == sessionId)
  {
    FacultyOfAllFaculty([user]);
    if stored && user.id != sessionId {
      ListKeyInjective(PublicationsKind, user.id, sessionId);
    }
  }
}
