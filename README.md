# Faculty appraisal system — a verified model of its core

The application is a browser-only faculty self-appraisal tool. Faculty users
register, log in and keep five lists of activities. The five lists are
publications, seminars, events, guest lectures and projects. Administrators see
the faculty directory and per-faculty counts, and download PDF reports. All
state lives in the browser's key-value store.

This project models that core in Dafny:

- **Store** (`store.dfy`): the key-value store as a class.
  - Typed fields hold the users, the session pointer and one list per activity kind and owner.
  - The list key is `"<kind>_<ownerId>"`. `ListKeyInjective` shows that different owners never share a key of the same kind.
  - A missing session pointer makes the key's owner part `"undefined"`.
  - A missing list or user key reads as an empty list.
- **Record lists** (`record_lists.dfy`): the replace-by-id (`map`) and remove-by-id (`filter`) operations of the tabs, with their algebra:
  - order is kept;
  - delete is idempotent;
  - an edit after a delete is a no-op;
  - ids stay unique, or fail to when a timestamp id collides.
- **Activity tabs** (`activity_tabs.dfy`): one `ActivityTab` class with the state and handlers shared by the five tab components.
  - A `Schema` value gives each tab its storage prefix, form fields, required fields and edit defaults.
  - The handlers are load, save, submit (create or edit), edit, delete and reset.
- **Accounts** (`accounts.dfy`): the registration page and the login page, each a class over the store with its handler.
- **Dashboards** (`dashboards.dfy`): the faculty and admin dashboards.
  - Their mount gates admit the session pointer only for their own role.
  - Logout removes the pointer.
  - The admin's all-reports download has a dated file name.
- **Directory** (`directory.dfy`): the admin's faculty list, the users filtered by role.
- **Faculty reports** (`faculty_reports.dfy`):
  - the admin's reports tab, one report per faculty user with the counts stored under that user's id;
  - the lookup by id;
  - the download of the single-faculty report.
- **Report layout** (`report_layout.dfy`): the PDF generator's cursor logic, where every drawn line is a `(page, y, line)` value.
  - The single-faculty report: a fixed header, two itemised sections with page breaks, and a footer.
  - The all-faculty roster.
  - The loops are methods proved equal to recursive specification functions. The layout is proved about those functions:
    - the numbering;
    - the page breaks;
    - the bounds on `y`;
    - page order;
    - the footer position;
    - that the summary counts come from the given stats.
- **Scenarios** (`scenarios.dfy`): the pages driven in sequence on one store.

One consequence the model makes explicit: login never looks at the stored
users. It gives the session the login timestamp as its id, and the tabs key
their lists by that id. The registration page, however, gave the user a
different id (the registration timestamp). So records a faculty user adds are
stored under a key that the admin's reports never read. The admin's count
shows them only if the two timestamps coincide (`Scenarios.RegisterLoginPublish`).

Two more behaviours of the code:

- Deleting the record being edited does not end the edit: `handleDelete` never resets `isEditing`.
- Stored text that is not valid JSON makes the page throw; this is not modelled (see below).

## Model

| member | source | states |
|---|---|---|
| Store.ListKeyInjective | src/components/faculty/PublicationsTab.tsx:42-50 | keys of one kind for two different owner ids differ, so owners never see each other's lists |
| Text.BeforeFirst | src/pages/Login.tsx:34 | `split(sep)[0]`: the result contains no separator, is a prefix of the input, is followed by the separator when shorter, and is the whole input when the separator is absent |
| Text.BeforeFirstAt | src/pages/AdminDashboard.tsx:44 | splitting `head + sep + rest` at the first `sep` gives back `head` when `head` has no `sep` |
| Text.Decimal | src/lib/pdfGenerator.ts:49-53 | a count prints as a non-empty string of digits whose decimal value is the count, a single digit exactly for counts below 10, with no leading zero from 10 up |
| RecordLists.ReplaceById | src/components/faculty/PublicationsTab.tsx:73-75 | same length; each position holds the replacement exactly when its id matches, otherwise the old record |
| RecordLists.RemoveById | src/components/faculty/PublicationsTab.tsx:98 | length drops by the number of records with the id; a record survives iff it was there and has another id; an absent id leaves the list unchanged |
| RecordLists.CountIdZero | src/components/faculty/PublicationsTab.tsx:98 | no record is removed exactly when no record carries the id |
| RecordLists.RemoveByIdAppend | src/components/faculty/PublicationsTab.tsx:98 | the filter keeps relative order: removing from `a + b` removes from each part |
| RecordLists.RemoveByIdIdempotent | src/components/faculty/PublicationsTab.tsx:97-104 | after a delete no record has the id, and deleting it again changes nothing |
| RecordLists.EditAfterDeleteIsNoOp | src/components/faculty/PublicationsTab.tsx:72-75 | an edit submitted for an id no longer in the list leaves the list unchanged; nothing is re-inserted |
| RecordLists.ReplaceKeepsIds | src/components/faculty/PublicationsTab.tsx:66-75 | an edit whose record carries the edited id keeps every position's id and keeps ids unique |
| RecordLists.RemoveKeepsUnique | src/components/faculty/PublicationsTab.tsx:98 | deleting keeps ids unique |
| RecordLists.UniqueDeleteRemovesOne | src/components/faculty/PublicationsTab.tsx:98 | with unique ids, deleting a present id removes exactly one record |
| RecordLists.CountUnique | src/components/faculty/PublicationsTab.tsx:98 | with unique ids, a present id occurs exactly once |
| RecordLists.AppendFreshKeepsUnique | src/components/faculty/PublicationsTab.tsx:66-81 | a create whose timestamp id is new keeps ids unique |
| RecordLists.AppendCollidingId | src/components/faculty/PublicationsTab.tsx:66-81 | a create whose timestamp id is already taken breaks uniqueness, and a later edit of that id replaces both records |
| ActivityTabs.EditForm | src/components/faculty/PublicationsTab.tsx:92-95 | the edit form carries the record's id and every property; the edit defaults are "" when missing or empty; nothing else is added |
| ActivityTabs.ActivityTab.constructor | src/components/faculty/PublicationsTab.tsx:36-46 | mounting gives an empty form, no edit, and the list stored under `<kind>_<session id>` (empty when absent) |
| ActivityTabs.ActivityTab.Load | src/components/faculty/PublicationsTab.tsx:40-46 | the stored list is taken when the key is present; otherwise the list stays as it was |
| ActivityTabs.ActivityTab.Save | src/components/faculty/PublicationsTab.tsx:48-52 | the whole list is written under the current session's key, and the in-memory list equals what was stored |
| ActivityTabs.ActivityTab.SetField | src/components/faculty/PublicationsTab.tsx:137 | an input's change sets one form field and nothing else |
| ActivityTabs.ActivityTab.HandleSubmit | src/components/faculty/PublicationsTab.tsx:54-90 | accepted iff every required field is filled. A rejected submit changes nothing. A create appends one record with the form's fields at the end and keeps the prefix. An edit replaces every record with the edited id by the form's fields under that id and keeps length and others; for an id no longer present the list is unchanged. Either way the new list is stored under the session key, the form is cleared and the edit ends. The same handler serves all five tabs (their lines are listed under the Mount rows) |
| ActivityTabs.ActivityTab.HandleEdit | src/components/faculty/PublicationsTab.tsx:92-95 | the record goes into the form with the tab's defaults, and the edited id becomes the record's id |
| ActivityTabs.ActivityTab.HandleDelete | src/components/faculty/PublicationsTab.tsx:97-104 | the list becomes the remove-by-id of the old list and is stored under the session key; the edit in progress and the form are untouched |
| ActivityTabs.ActivityTab.ResetForm | src/components/faculty/PublicationsTab.tsx:106-117 | every field of the tab's form is "" and no edit is in progress |
| ActivityTabs.MountPublicationsTab | src/components/faculty/PublicationsTab.tsx:36-52 | the publications tab reads and writes `publications_<session id>`, an empty list when absent, and starts with an empty form and no edit in progress |
| ActivityTabs.MountSeminarsTab | src/components/faculty/SeminarsTab.tsx:33-49 | the seminars tab reads and writes `seminars_<session id>`, an empty list when absent, and starts with an empty form and no edit in progress |
| ActivityTabs.MountEventsTab | src/components/faculty/EventsTab.tsx:38-54 | the events tab reads and writes `events_<session id>`, an empty list when absent, and starts with an empty form and no edit in progress |
| ActivityTabs.MountLecturesTab | src/components/faculty/LecturesTab.tsx:38-54 | the lectures tab reads and writes `lectures_<session id>`, an empty list when absent, and starts with an empty form and no edit in progress |
| ActivityTabs.MountProjectsTab | src/components/faculty/ProjectsTab.tsx:42-58 | the projects tab reads and writes `projects_<session id>`, an empty list when absent, and starts with an empty form and no edit in progress |
| ActivityTabs.PublicationsValidation | src/components/faculty/PublicationsTab.tsx:57-64 | the publications guard passes iff title, authors, journal and year are all non-empty |
| ActivityTabs.SeminarsValidation | src/components/faculty/SeminarsTab.tsx:54-61 | the seminars guard passes iff title, venue, date and topic are all non-empty |
| ActivityTabs.EventsValidation | src/components/faculty/EventsTab.tsx:59-66 | the events guard passes iff name, type, venue and startDate are all non-empty |
| ActivityTabs.LecturesValidation | src/components/faculty/LecturesTab.tsx:59-66 | the lectures guard passes iff title, course, semester and academicYear are all non-empty |
| ActivityTabs.ProjectsValidation | src/components/faculty/ProjectsTab.tsx:63-70 | the projects guard passes iff title, type, status and startDate are all non-empty |
| ActivityTabs.EditThenSubmit | src/components/faculty/PublicationsTab.tsx:66-95 | editing a record and submitting at once writes it back, with the defaults filled in, under its own id at every position holding that id |
| Directory.FacultyOf | src/components/admin/FacultyListTab.tsx:11 | the filter keeps exactly the users whose role is "faculty" and is never longer than the input |
| Directory.FacultyOfAppend | src/components/admin/FacultyListTab.tsx:11 | the filter keeps stored order: filtering `a + b` filters each part |
| Directory.FacultyOfAllFaculty | src/components/admin/FacultyListTab.tsx:11 | with no admins stored, the list is all users in stored order |
| Directory.FacultyList | src/components/admin/FacultyListTab.tsx:9-13 | the directory holds exactly the stored faculty users, and is empty when no users key exists; it reads the store only |
| FacultyReports.ReportsOf | src/components/admin/FacultyReportsTab.tsx:21-38 | one report per member, in order, keeping the member and pairing it with the counts stored under its id |
| FacultyReports.LoadFacultyReports | src/components/admin/FacultyReportsTab.tsx:17-41 | one report per faculty user in stored order, admins excluded, each faculty user present; each count is the length of the list under `<kind>_<id>`, 0 when absent |
| FacultyReports.FindById | src/components/admin/FacultyReportsTab.tsx:44 | nothing iff no report has the id; otherwise the first report with that id |
| FacultyReports.ReportFileName | src/components/admin/FacultyReportsTab.tsx:48 | the file name is the faculty name followed by `_Faculty_Report.pdf`, so the name can be read back from it |
| FacultyReports.ReportFileNameInjective | src/components/admin/FacultyReportsTab.tsx:48 | different names give different file names |
| FacultyReports.ReportsMatchRoster | src/lib/pdfGenerator.ts:142-147 | the tab's report of the k-th faculty user has the same member and counts as that user's row in the all-faculty roster |
| FacultyReports.FacultyReportsTab.constructor | src/components/admin/FacultyReportsTab.tsx:13-15 | mounting loads the reports from the store |
| FacultyReports.FacultyReportsTab.LoadReports | src/components/admin/FacultyReportsTab.tsx:17-41 | the reports are recomputed from the stored users and lists; only the tab's own state changes |
| FacultyReports.FacultyReportsTab.HandleDownloadReport | src/components/admin/FacultyReportsTab.tsx:43-54 | no download iff no report has the id; otherwise the single-faculty report of the first match with its counts, under the name the button passes |
| FacultyReports.DownloadCountsAgree | src/components/admin/FacultyReportsTab.tsx:43-48 | in a download from a loaded tab, the summary's publication and seminar counts equal the numbers of publications and seminars itemised |
| FacultyReports.SummaryCountsItems | src/lib/pdfGenerator.ts:49-113 | when the stats agree with the stored lists, the summary lines show the lengths of the itemised lists |
| Accounts.Register | src/pages/Register.tsx:26-70 | navigates to login iff the four required fields are filled and the email is not taken; otherwise the stored users are unchanged and there is no navigation; a success appends exactly one user, a "faculty" with a timestamp id and the form's fields, after the unchanged old users |
| Accounts.RegisterKeepsEmailsDistinct | src/pages/Register.tsx:40-62 | stored emails that were pairwise distinct stay so after any registration attempt |
| Accounts.RegisterTwiceRefused | src/pages/Register.tsx:40-50 | a second registration with an email just registered is refused |
| Accounts.OptionalFieldsNotRequired | src/pages/Register.tsx:30 | with the four required fields filled and a fresh email, empty designation and phone still register |
| Accounts.RegisterPage.constructor | src/pages/Register.tsx:11-18 | the form starts with all six inputs empty |
| Accounts.RegisterPage.HandleInputChange | src/pages/Register.tsx:22-24 | one input takes the new value, the others stay |
| Accounts.RegisterPage.HandleRegister | src/pages/Register.tsx:26-70 | the stored users and the navigation are as `Register` gives them |
| Accounts.Login | src/pages/Login.tsx:16-50 | an empty email or password leaves the pointer as it was with no navigation. Otherwise the pointer is `{email, userType, id: now, name}`, with name the email before its first '@'. The route is /admin iff the role is admin and /dashboard iff it is faculty. The stored users are not an input |
| Accounts.LoginPage.constructor | src/pages/Login.tsx:10-12 | inputs start empty and the role starts as faculty |
| Accounts.LoginPage.SetEmail | src/pages/Login.tsx:90 | the email input's change sets the email and nothing else |
| Accounts.LoginPage.SetPassword | src/pages/Login.tsx:102 | the password input's change sets the password and nothing else |
| Accounts.LoginPage.SelectRole | src/pages/Login.tsx:67-75 | a role button sets the role and nothing else |
| Accounts.LoginPage.HandleLogin | src/pages/Login.tsx:16-50 | the pointer and the navigation are as `Login` gives them; the users and the lists are unchanged |
| Dashboards.Admit | src/pages/Dashboard.tsx:19-33 | a pointer is admitted iff one is stored and its userType is exactly the dashboard's role, and then it is the stored one |
| Dashboards.FacultyDashboard.constructor | src/pages/Dashboard.tsx:15 | the user state starts null |
| Dashboards.FacultyDashboard.CheckSession | src/pages/Dashboard.tsx:19-33 | redirect to login iff no faculty pointer is stored, leaving the user state; otherwise the pointer becomes the user state |
| Dashboards.FacultyDashboard.HandleLogout | src/pages/Dashboard.tsx:35-42 | the pointer is removed and the browser goes to the login page; nothing else is written |
| Dashboards.FacultyDashboard.HandleDownloadReport | src/pages/Dashboard.tsx:44-50 | neither the store nor the page state changes |
| Dashboards.AdminDashboard.constructor | src/pages/AdminDashboard.tsx:13 | the user state starts null |
| Dashboards.AdminDashboard.CheckSession | src/pages/AdminDashboard.tsx:17-31 | redirect to login iff no admin pointer is stored, leaving the user state; otherwise the pointer becomes the user state |
| Dashboards.AdminDashboard.HandleLogout | src/pages/AdminDashboard.tsx:33-40 | the pointer is removed and the browser goes to the login page; nothing else is written |
| Dashboards.AllReportsFileName | src/pages/AdminDashboard.tsx:44 | `All_Faculty_Reports_` + date + `.pdf`, where the date is a prefix of the timestamp with no 'T', followed in it by 'T' when shorter |
| Dashboards.AllReportsFileNameOfTimestamp | src/pages/AdminDashboard.tsx:44 | for a timestamp `<date>T<time>` the file name carries exactly the date |
| Dashboards.AdminDashboard.HandleDownloadAllReports | src/pages/AdminDashboard.tsx:42-50 | the all-faculty document of the stored users and lists, under the dated name |
| Dashboards.LoginLandsOnAdmittingDashboard | src/pages/Login.tsx:30-49 | after a successful login the route leads to the dashboard whose gate admits the new pointer, and the other dashboard's gate refuses it |
| ReportLayout.LayOutItems | src/lib/pdfGenerator.ts:73-84 | the section loop produces exactly the draws and end cursor of the section specification |
| ReportLayout.DrawItem | src/lib/pdfGenerator.ts:74-83 | one record: page check against pageHeight - 40, title numbered index + 1 and two detail lines 10 apart, cursor 35 further |
| ReportLayout.LayOutPublications | src/lib/pdfGenerator.ts:65-85 | nothing for no publications; otherwise heading at the cursor and the records from 15 below |
| ReportLayout.LayOutSeminars | src/lib/pdfGenerator.ts:88-113 | nothing for no seminars; otherwise a page check, the heading 10 lower and the records 15 below it |
| ReportLayout.GenerateFacultyReport | src/lib/pdfGenerator.ts:19-121 | the document is the single-faculty report of the member, its stats and the publications and seminars stored under its id |
| ReportLayout.GenerateAllFacultyReports | src/lib/pdfGenerator.ts:123-170 | the document is the cover then the roster of the stored faculty with their stored counts |
| ReportLayout.Tally | src/lib/pdfGenerator.ts:142-147 | one row per member, in order, with the counts stored under its id |
| ReportLayout.SlotBounds | src/lib/pdfGenerator.ts:74-77 | every block starts at or above the page-check limit, and the page grows by at most one per block |
| ReportLayout.SlotPagesGrow | src/lib/pdfGenerator.ts:74-77 | later blocks never start on an earlier page |
| ReportLayout.BreakAfterBounds | src/lib/pdfGenerator.ts:89-92 | after a page check the cursor is at or above the limit, on the same or the next page |
| ReportLayout.ItemsLength | src/lib/pdfGenerator.ts:73-84 | a section's loop draws three lines per record |
| ReportLayout.ItemsEnd | src/lib/pdfGenerator.ts:73-84 | the cursor after a section is 35 below the last record's checked start, or unchanged for no records |
| ReportLayout.ItemAt | src/lib/pdfGenerator.ts:73-84 | the k-th record's three lines are drawn at the k-th block position and numbered k + 1 in list order |
| ReportLayout.ItemsPlacement | src/lib/pdfGenerator.ts:73-84 | for pageHeight ≥ 70 a section's lines are in page order, between its first and last page, at most one new page per record, and never below pageHeight - 20 |
| ReportLayout.PublicationsContents | src/lib/pdfGenerator.ts:65-85 | the publications part has a heading and three lines per record, titles numbered in order |
| ReportLayout.SeminarsContents | src/lib/pdfGenerator.ts:88-113 | the seminars part has a heading and three lines per record, titles numbered in order |
| ReportLayout.ReportFrame | src/lib/pdfGenerator.ts:24-118 | the report's size. The designation falls back to "Faculty". The five summary lines show the given stats, not the stored lists. The footer is exactly the last two lines, at pageHeight - 20 |
| ReportLayout.ReportItems | src/lib/pdfGenerator.ts:62-113 | only publications then seminars are itemised, each under its heading and numbered from 1 in list order |
| ReportLayout.HeaderPlacement | src/lib/pdfGenerator.ts:24-53 | for pageHeight ≥ 215 the header lines are all on page 1 and none is below the footer line at pageHeight - 20 |
| ReportLayout.PublicationsPlacement | src/lib/pdfGenerator.ts:62-85 | the publications part starts at page 1, stays in page order and above the footer line |
| ReportLayout.SeminarsPlacement | src/lib/pdfGenerator.ts:88-113 | the seminars part stays in page order from its start page and above the footer line |
| ReportLayout.BodyPlacement | src/lib/pdfGenerator.ts:62-113 | the two sections together stay in page order from page 1 and above the footer line |
| ReportLayout.ReportPages | src/lib/pdfGenerator.ts:19-121 | for pageHeight ≥ 240 the whole report is in page order from page 1. The footer is drawn once: its two lines are the last two draws, on the last page, no earlier draw prints a footer line, and nothing lies below it |
| ReportLayout.ItemsNoFooter | src/lib/pdfGenerator.ts:73-112 | every draw of a section's records is a numbered title or a detail line, never a footer line |
| ReportLayout.FooterDrawnOnce | src/lib/pdfGenerator.ts:62-118 | for every page height, the "Generated on" and "Faculty Report" lines are the last two draws of the report, and no earlier draw prints either |
| ReportLayout.RosterLength | src/lib/pdfGenerator.ts:142-167 | the roster draws four lines per faculty member |
| ReportLayout.MemberAt | src/lib/pdfGenerator.ts:149-166 | the k-th member block is drawn at the k-th position of a page check at 250 and steps of 55 |
| ReportLayout.RosterContents | src/lib/pdfGenerator.ts:149-166 | each member block starts at y ≤ 250 with the name numbered k + 1, then the department line, then the two count lines of its row |
| ReportLayout.CountLineReadsBack | src/lib/pdfGenerator.ts:49-53 | a summary line `${caption}: ${n}` prints the caption, ": " and then digits that read back as n, with no leading zero |
| ReportLayout.AllReportsBlock | src/lib/pdfGenerator.ts:142-166 | in the all-faculty document, block k shows faculty member k with the counts stored under its id |
| ReportLayout.AllReportsContents | src/lib/pdfGenerator.ts:123-170 | the document has 3 + 4 × faculty lines. Total Faculty is the number of users with role faculty. Each member's block starts at y ≤ 250 and shows the counts stored under the member's id |
| Scenarios.RegisterLoginPublish | src/pages/Login.tsx:30-37 | on an empty store: register by typing the six inputs, log in, type a publication's title, authors, journal and year and submit it. The submit is accepted iff none of the four is empty, and then the faculty tab shows the publication. The admin's single report counts it iff the registration and login timestamps coincide |
| Scenarios.TypedPublicationFilled | src/components/faculty/PublicationsTab.tsx:57 | a fresh publication form with title, authors, journal and year typed passes validation iff none of the four is empty |
| Scenarios.ReportOfSoleFaculty | src/components/admin/FacultyReportsTab.tsx:22-36 | with one faculty user and one list stored under a session id, the admin's count is 1 iff the user's id is that session id |

## Left out

- Rendering, styling, widgets, toasts and `src/pages/Index.tsx`: presentation only. Navigation is the `Navigation` outcome of each handler.
- JSON parsing and serialisation: the store holds parsed values. Malformed stored text, which makes the pages throw, is not modelled.
- `Date.now()`, `toISOString()` and `toLocaleDateString()`: the timestamps and date strings are parameters.
- The PDF library: x coordinates, fonts, sizes and centring are not modelled; the page height is a parameter; `doc.save` is the `Download` value.
- The page height is an integer, while the PDF library gives it in millimetres, possibly fractional. Page breaks are unaffected: for an integer `y`, `y > h - 40` holds exactly when `y > ⌊h⌋ - 40`. Only the footer's y would differ, by less than one unit.
- ReportLayout.ReportPages: stated only for page heights of at least 240. The header reaches y = 195 and the first section starts at 220, so smaller pages would overlap anyway.
- ReportLayout.GenerateFacultyReport: does not read the events, lectures and projects lists. The generator reads them but never uses them, so nothing observable is lost.
- Concurrency between tabs or browser windows: a single sequential store is modelled.
- Accounts.RegisterPage.HandleInputChange: covers only the six inputs the page binds. Arbitrary property names are not modelled.
