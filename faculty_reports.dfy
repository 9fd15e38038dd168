/**
 * The admin's "Faculty Reports" tab: one report per faculty user with the
 * counts of what is stored under that user's id, and a per-faculty download
 * of the single-faculty report.
 */
module FacultyReports {
  import opened Store
  import opened Directory
  import opened ReportLayout

  /** `{ ...member, stats }`: the member's own fields kept alongside the counts. */
  datatype Report = Report(member: User, stats: Stats)

  /** `members.map(member => ({ ...member, stats }))`, each member paired with the counts stored under its id. */
  function ReportsOf(members: seq<User>, lists: map<string, seq<Entry>>): (r: seq<Report>)
    ensures |r| == |members|
    ensures forall k :: 0 <= k < |members| ==> r[k] == Report(members[k], MemberStats(members[k], lists))
  {
    if members == [] then []
    else [Report(members[0], MemberStats(members[0], lists))] + ReportsOf(members[1..], lists)
  }

  /**
   * `loadFacultyReports`: one report per faculty user, in stored order, admins
   * left out, each count the length of the list under "<kind>_<id>" or 0.
   */
  function LoadFacultyReports(users: seq<User>, lists: map<string, seq<Entry>>): (r: seq<Report>)
    ensures |r| == |FacultyOf(users)|
    ensures forall k :: 0 <= k < |r| ==> r[k].member == FacultyOf(users)[k]
    ensures forall k :: 0 <= k < |r| ==> r[k].member in users && r[k].member.userType == "faculty"
    ensures forall u :: u in users && u.userType == "faculty" ==> exists k :: 0 <= k < |r| && r[k].member == u
    ensures forall k :: 0 <= k < |r| ==>
              var id := r[k].member.id;
              && r[k].stats.publications == |StoredList(lists, ListKey(PublicationsKind, id))|
              && r[k].stats.seminars == |StoredList(lists, ListKey(SeminarsKind, id))|
              && r[k].stats.events == |StoredList(lists, ListKey(EventsKind, id))|
              && r[k].stats.lectures == |StoredList(lists, ListKey(LecturesKind, id))|
              && r[k].stats.projects == |StoredList(lists, ListKey(ProjectsKind, id))|
  {
    var faculty := FacultyOf(users);
    var r := ReportsOf(faculty, lists);
    assert forall u :: u in faculty ==> exists k :: 0 <= k < |faculty| && faculty[k] == u;
    r
  }

  /** `reports.find(f => f.id === id)`: the first report with that id, if any. */
  function FindById(reports: seq<Report>, id: string): (r: Option<Report>)
    ensures r.None? <==> forall k :: 0 <= k < |reports| ==> reports[k].member.id != id
    ensures r.Some? ==> exists k :: 0 <= k < |reports| && reports[k] == r.value && r.value.member.id == id
                                     && forall j :: 0 <= j < k ==> reports[j].member.id != id
  {
    if reports == [] then None
    else if reports[0].member.id == id then Some(reports[0])
    else
      var rest := FindById(reports[1..], id);
      if rest.Some? then
        ghost var k :| 0 <= k < |reports[1..]| && reports[1..][k] == rest.value && rest.value.member.id == id
                       && forall j :: 0 <= j < k ==> reports[1..][j].member.id != id;
        assert reports[k + 1] == rest.value;
        assert forall j :: 0 <= j < k + 1 ==> reports[j].member.id != id by {
          forall j | 0 <= j < k + 1 ensures reports[j].member.id != id {
            if j > 0 { assert reports[j] == reports[1..][j - 1]; }
          }
        }
        rest
      else
        assert forall k :: 0 <= k < |reports| ==> reports[k].member.id != id by {
          forall k | 0 <= k < |reports| ensures reports[k].member.id != id {
            if k > 0 { assert reports[k] == reports[1..][k - 1]; }
          }
        }
        rest
  }

  /** `${facultyName}_Faculty_Report.pdf`. */
  function ReportFileName(facultyName: string): (r: string)
    ensures |r| == |facultyName| + 19
    ensures r[..|facultyName|] == facultyName
    ensures r[|facultyName|..] == "_Faculty_Report.pdf"
  {
    facultyName + "_Faculty_Report.pdf"
  }

  /** Different names never download under the same file name. */
  lemma ReportFileNameInjective(a: string, b: string)
    requires a != b
    ensures ReportFileName(a) != ReportFileName(b)
  {
    if |a| == |b| {
      assert ReportFileName(a)[..|a|] == a;
      assert ReportFileName(b)[..|b|] == b;
    } else {
      assert |ReportFileName(a)| != |ReportFileName(b)|;
    }
  }

  /** The tab's report of a member carries the same counts as that member's block in the all-faculty document. */
  lemma ReportsMatchRoster(users: seq<User>, lists: map<string, seq<Entry>>, k: nat)
    requires k < |FacultyOf(users)|
    ensures var rows := Tally(FacultyOf(users), lists);
            var r := LoadFacultyReports(users, lists);
            k < |r| && k < |rows| && r[k].member == rows[k].0 && r[k].stats == rows[k].1
  {
  }

  class FacultyReportsTab {
    const store: LocalStorage
    var reports: seq<Report>

    /** Mounting the tab runs `loadFacultyReports`. */
    constructor (store: LocalStorage)
      ensures this.store == store
      ensures reports == LoadFacultyReports(UsersOrEmpty(store.users), store.lists)
    {
      this.store := store;
      reports := [];
      new;
      LoadReports();
    }

    /** `loadFacultyReports`: reads the users and the lists; writes only the tab's own state. */
    method LoadReports()
      modifies this`reports
      ensures reports == LoadFacultyReports(UsersOrEmpty(store.users), store.lists)
    {
      reports := LoadFacultyReports(UsersOrEmpty(store.users), store.lists);
    }

    /**
     * `handleDownloadReport(facultyId, facultyName)`: nothing for an id not
     * among the reports; otherwise the single-faculty report of the first
     * match, with its stored counts, under the name given by the button.
     */
    method HandleDownloadReport(facultyId: string, facultyName: string, pageHeight: int, today: string)
      returns (download: Option<Download>)
      ensures download.None? <==> forall k :: 0 <= k < |reports| ==> reports[k].member.id != facultyId
      ensures download.Some? ==>
                var found := FindById(reports, facultyId).value;
                download.value == Download(ReportFileName(facultyName),
                                           FacultyReport(found.member, found.stats,
                                                         StoredList(store.lists, ListKey(PublicationsKind, facultyId)),
                                                         StoredList(store.lists, ListKey(SeminarsKind, facultyId)),
                                                         pageHeight, today))
    {
      var faculty := FindById(reports, facultyId);
      if faculty.None? {
        return None;
      }
      var draws := GenerateFacultyReport(faculty.value.member, faculty.value.stats, store, pageHeight, today);
      download := Some(Download(ReportFileName(facultyName), draws));
    }
  }

  /** The report a lookup in a freshly loaded tab finds: a faculty user with that id and the counts stored under it. */
  lemma FoundReport(users: seq<User>, lists: map<string, seq<Entry>>, id: string)
    requires FindById(LoadFacultyReports(users, lists), id).Some?
    ensures var found := FindById(LoadFacultyReports(users, lists), id).value;
            && found.member in FacultyOf(users) && found.member.id == id
            && found.stats.publications == |StoredList(lists, ListKey(PublicationsKind, id))|
            && found.stats.seminars == |StoredList(lists, ListKey(SeminarsKind, id))|
  {
    var reports := LoadFacultyReports(users, lists);
    var found := FindById(reports, id).value;
    var k :| 0 <= k < |reports| && reports[k] == found && found.member.id == id
             && forall j :: 0 <= j < k ==> reports[j].member.id != id;
    assert found.member == FacultyOf(users)[k];
  }

  /**
   * In a download from a freshly loaded tab, the publication and seminar counts
   * in the summary equal the number of publications and seminars itemised below
   * it, since both are read under the member's keys.
   */
  lemma DownloadCountsAgree(users: seq<User>, lists: map<string, seq<Entry>>, id: string, pageHeight: int, today: string)
    requires FindById(LoadFacultyReports(users, lists), id).Some?
    ensures var found := FindById(LoadFacultyReports(users, lists), id).value;
            var pubs := StoredList(lists, ListKey(PublicationsKind, id));
            var sems := StoredList(lists, ListKey(SeminarsKind, id));
            var d := FacultyReport(found.member, found.stats, pubs, sems, pageHeight, today);
            && |d| == 14 + SectionSize(pubs) + SectionSize(sems)
            && d[7] == Draw(1, 135, Count(Publications, |pubs|))
            && d[8] == Draw(1, 150, Count(SeminarsAttended, |sems|))
  {
    var found := FindById(LoadFacultyReports(users, lists), id).value;
    FoundReport(users, lists, id);
    SummaryCountsItems(found.member, found.stats, StoredList(lists, ListKey(PublicationsKind, id)),
                       StoredList(lists, ListKey(SeminarsKind, id)), pageHeight, today);
  }

  /** A report whose publication and seminar counts are the lengths of the itemised lists shows those lengths in its summary. */
  lemma SummaryCountsItems(f: User, stats: Stats, pubs: seq<Entry>, sems: seq<Entry>, pageHeight: int, today: string)
    requires stats.publications == |pubs| && stats.seminars == |sems|
    ensures var d := FacultyReport(f, stats, pubs, sems, pageHeight, today);
            && |d| == 14 + SectionSize(pubs) + SectionSize(sems)
            && d[7] == Draw(1, 135, Count(Publications, |pubs|))
            && d[8] == Draw(1, 150, Count(SeminarsAttended, |sems|))
  {
    ReportFrame(f, stats, pubs, sems, pageHeight, today);
    var d := FacultyReport(f, stats, pubs, sems, pageHeight, today);
    assert d[7] == d[7..12][0] && d[8] == d[7..12][1];
  }
}
