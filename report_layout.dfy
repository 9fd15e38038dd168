/**
 * The layout logic of the PDF report generator. Drawing is abstracted to the
 * sequence of `doc.text` calls, each recorded as the page it lands on, its
 * vertical position and the line it prints; `addPage` starts the next page.
 * Fonts, horizontal positions and the page width are not part of the model;
 * the page height is a parameter. A line is kept as a `Line` value, and
 * `Render` gives the exact string the template literal would produce.
 */
module ReportLayout {
  import opened Store
  import opened Text
  import opened Directory

  /** The per-kind counts the report's summary block prints. */
  datatype Stats = Stats(publications: nat, seminars: nat, events: nat, lectures: nat, projects: nat)

  /** The fixed headings the generator prints. */
  datatype Heading =
    | ReportTitle | InformationHeading | SummaryHeading | PublicationsHeading | SeminarsHeading
    | FooterTag | AllReportsTitle

  function HeadingText(h: Heading): string
  {
    match h
    case ReportTitle => "Faculty Self-Appraisal Report"
    case InformationHeading => "Faculty Information"
    case SummaryHeading => "Activity Summary"
    case PublicationsHeading => "Publications"
    case SeminarsHeading => "Seminars"
    case FooterTag => "Faculty Report"
    case AllReportsTitle => "All Faculty Reports"
  }

  /** The captions that precede a value in a printed line. */
  datatype Caption =
    | Name | Department | Designation | Email
    | Publications | SeminarsAttended | EventsOrganized | GuestLectures | Projects
    | Journal | Year | Organizer | Date
    | GeneratedOn | TotalFaculty

  function CaptionText(c: Caption): string
  {
    match c
    case Name => "Name"
    case Department => "Department"
    case Designation => "Designation"
    case Email => "Email"
    case Publications => "Publications"
    case SeminarsAttended => "Seminars Attended"
    case EventsOrganized => "Events Organized"
    case GuestLectures => "Guest Lectures"
    case Projects => "Projects"
    case Journal => "Journal"
    case Year => "Year"
    case Organizer => "Organizer"
    case Date => "Date"
    case GeneratedOn => "Generated on"
    case TotalFaculty => "Total Faculty"
  }

  /** The shapes of the lines the generator prints. */
  datatype Line =
    | Title(heading: Heading)                  // the heading's text
    | Field(caption: Caption, value: string)   // `${caption}: ${value}`
    | Count(caption: Caption, n: nat)          // `${caption}: ${n}`
    | Numbered(n: nat, s: string)              // `${n}. ${s}`
    | Detail(caption: Caption, value: string)  // `   ${caption}: ${value}`
    | ActivityCounts(st: Stats)                // `Publications: ${..}, Seminars: ${..}, Events: ${..}`
    | TeachingCounts(st: Stats)                // `Lectures: ${..}, Projects: ${..}`

  /** The string a line prints as. */
  function Render(line: Line): string
  {
    match line
    case Title(h) => HeadingText(h)
    case Field(caption, value) => CaptionText(caption) + ": " + value
    case Count(caption, n) => CaptionText(caption) + ": " + Decimal(n)
    case Numbered(n, s) => Decimal(n) + ". " + s
    case Detail(caption, value) => "   " + CaptionText(caption) + ": " + value
    case ActivityCounts(st) =>
      "Publications: " + Decimal(st.publications) + ", Seminars: " + Decimal(st.seminars) + ", Events: " + Decimal(st.events)
    case TeachingCounts(st) => "Lectures: " + Decimal(st.lectures) + ", Projects: " + Decimal(st.projects)
  }

  /**
   * A count line reads back: after its caption and ": " come digits that spell
   * the count, without a leading zero.
   */
  lemma CountLineReadsBack(c: Caption, n: nat)
    ensures var s := Render(Count(c, n));
            var p := CaptionText(c) + ": ";
            && p <= s && s[|p|..] == Decimal(n)
            && DigitsValue(s[|p|..]) == n
            && (10 <= n ==> s[|p|] != '0')
  {
  }

  /** One `doc.text` call: page (the first is 1), vertical position, line. */
  datatype Draw = Draw(page: nat, y: int, text: Line)

  /** The writer's position: current page and `currentY`. */
  datatype Cursor = Cursor(page: nat, y: int)

  /** The draws of one part of the document and the cursor after it. */
  datatype Layout = Layout(draws: seq<Draw>, end: Cursor)

  /** `downloadPDF(doc, filename)`: the document handed to the browser under a file name. */
  datatype Download = Download(fileName: string, draws: seq<Draw>)

  /** Where `currentY` restarts on a new page. */
  const TopMargin: int := 30

  /** `if (currentY > limit) { doc.addPage(); currentY = 30; }` */
  function BreakAfter(c: Cursor, limit: int): Cursor
  {
    if c.y > limit then Cursor(c.page + 1, TopMargin) else c
  }

  /** The two sections the single-faculty report itemises. */
  datatype Section = PublicationsSection | SeminarsSection

  /** A record property in a template literal: a missing one prints as "undefined". */
  function Prop(e: Entry, name: string): string
  {
    if name in e.fields then e.fields[name] else "undefined"
  }

  /** The title and the two detail lines one itemised record is drawn with. */
  function ItemLines(sec: Section, e: Entry): (string, Line, Line)
  {
    match sec
    case PublicationsSection => (Prop(e, "title"), Detail(Journal, Prop(e, "journal")), Detail(Year, Prop(e, "year")))
    case SeminarsSection => (Prop(e, "title"), Detail(Organizer, Prop(e, "organizer")), Detail(Date, Prop(e, "date")))
  }

  /** The three draws of the record numbered `n + 1`, its first line at `at`. */
  function ItemDraws(sec: Section, e: Entry, n: nat, at: Cursor): seq<Draw>
  {
    var lines := ItemLines(sec, e);
    [Draw(at.page, at.y, Numbered(n + 1, lines.0)),
     Draw(at.page, at.y + 10, lines.1),
     Draw(at.page, at.y + 20, lines.2)]
  }

  /** The `forEach` over one section's records, numbered from `n + 1`, starting from cursor `c`. */
  function Items(sec: Section, entries: seq<Entry>, n: nat, c: Cursor, pageHeight: int): Layout
    decreases |entries|
  {
    if entries == [] then Layout([], c)
    else
      var at := BreakAfter(c, pageHeight - 40);
      var rest := Items(sec, entries[1..], n + 1, Cursor(at.page, at.y + 35), pageHeight);
      Layout(ItemDraws(sec, entries[0], n, at) + rest.draws, rest.end)
  }

  /** The fixed header, identity and summary blocks on the first page. */
  function Header(f: User, stats: Stats): seq<Draw>
  {
    [Draw(1, 30, Title(ReportTitle)),
     Draw(1, 50, Title(InformationHeading)),
     Draw(1, 65, Field(Name, f.name)),
     Draw(1, 75, Field(Department, f.department)),
     Draw(1, 85, Field(Designation, if f.designation == "" then "Faculty" else f.designation)),
     Draw(1, 95, Field(Email, f.email)),
     Draw(1, 120, Title(SummaryHeading)),
     Draw(1, 135, Count(Publications, stats.publications)),
     Draw(1, 150, Count(SeminarsAttended, stats.seminars)),
     Draw(1, 165, Count(EventsOrganized, stats.events)),
     Draw(1, 180, Count(GuestLectures, stats.lectures)),
     Draw(1, 195, Count(Projects, stats.projects))]
  }

  /** The publications section: heading at the cursor, then the items 15 below, with no page check first. */
  function PublicationsPart(pubs: seq<Entry>, c: Cursor, pageHeight: int): Layout
  {
    if pubs == [] then Layout([], c)
    else
      var items := Items(PublicationsSection, pubs, 0, Cursor(c.page, c.y + 15), pageHeight);
      Layout([Draw(c.page, c.y, Title(PublicationsHeading))] + items.draws, items.end)
  }

  /** The seminars section: a page check, 10 down, the heading, then the items 15 below. */
  function SeminarsPart(sems: seq<Entry>, c: Cursor, pageHeight: int): Layout
  {
    if sems == [] then Layout([], c)
    else
      var at := BreakAfter(c, pageHeight - 40);
      var items := Items(SeminarsSection, sems, 0, Cursor(at.page, at.y + 25), pageHeight);
      Layout([Draw(at.page, at.y + 10, Title(SeminarsHeading))] + items.draws, items.end)
  }

  /** The footer: two draws on the current page, 20 above its bottom. */
  function Footer(page: nat, pageHeight: int, today: string): seq<Draw>
  {
    [Draw(page, pageHeight - 20, Field(GeneratedOn, today)), Draw(page, pageHeight - 20, Title(FooterTag))]
  }

  /** `generateFacultyReport` over the stored publications and seminars of the faculty member. */
  function FacultyReport(f: User, stats: Stats, pubs: seq<Entry>, sems: seq<Entry>, pageHeight: int, today: string): seq<Draw>
  {
    var p := PublicationsPart(pubs, Cursor(1, 220), pageHeight);
    var s := SeminarsPart(sems, p.end, pageHeight);
    Header(f, stats) + p.draws + s.draws + Footer(s.end.page, pageHeight, today)
  }

  /** Number of entries stored under a key, 0 when absent. */
  function StoredCount(lists: map<string, seq<Entry>>, key: string): nat
  {
    |StoredList(lists, key)|
  }

  /** The counts the roster prints for a member: what is stored under each activity key of their id. */
  function MemberStats(m: User, lists: map<string, seq<Entry>>): Stats
  {
    Stats(StoredCount(lists, ListKey(PublicationsKind, m.id)),
          StoredCount(lists, ListKey(SeminarsKind, m.id)),
          StoredCount(lists, ListKey(EventsKind, m.id)),
          StoredCount(lists, ListKey(LecturesKind, m.id)),
          StoredCount(lists, ListKey(ProjectsKind, m.id)))
  }

  /** Each member paired with the counts the roster prints for them, in order. */
  function Tally(members: seq<User>, lists: map<string, seq<Entry>>): (rows: seq<(User, Stats)>)
    ensures |rows| == |members|
    ensures forall k :: 0 <= k < |members| ==> rows[k] == (members[k], MemberStats(members[k], lists))
  {
    if members == [] then [] else [(members[0], MemberStats(members[0], lists))] + Tally(members[1..], lists)
  }

  /** The four draws of roster row number `n + 1`, its name line at `at`. */
  function MemberDraws(row: (User, Stats), n: nat, at: Cursor): seq<Draw>
  {
    [Draw(at.page, at.y, Numbered(n + 1, row.0.name)),
     Draw(at.page, at.y + 15, Field(Department, row.0.department)),
     Draw(at.page, at.y + 25, ActivityCounts(row.1)),
     Draw(at.page, at.y + 35, TeachingCounts(row.1))]
  }

  /** The `forEach` over the faculty roster, numbered from `n + 1`, starting from cursor `c`. */
  function Roster(rows: seq<(User, Stats)>, n: nat, c: Cursor): Layout
    decreases |rows|
  {
    if rows == [] then Layout([], c)
    else
      var at := BreakAfter(c, 250);
      var rest := Roster(rows[1..], n + 1, Cursor(at.page, at.y + 55));
      Layout(MemberDraws(rows[0], n, at) + rest.draws, rest.end)
  }

  /** The cover block of the roster document. */
  function Cover(facultyCount: nat, today: string): seq<Draw>
  {
    [Draw(1, 50, Title(AllReportsTitle)),
     Draw(1, 80, Field(GeneratedOn, today)),
     Draw(1, 100, Count(TotalFaculty, facultyCount))]
  }

  /** `generateAllFacultyReports`: the cover block, then one block per faculty user. */
  function AllFacultyReports(users: seq<User>, lists: map<string, seq<Entry>>, today: string): seq<Draw>
  {
    var faculty := FacultyOf(users);
    Cover(|faculty|, today) + Roster(Tally(faculty, lists), 0, Cursor(1, 140)).draws
  }

  // ---------------------------------------------------------------------------
  // The generator's loops.

  /** One section's `forEach`: before each record a page check, then three lines 10 apart and 15 more after. */
  method LayOutItems(sec: Section, entries: seq<Entry>, start: Cursor, pageHeight: int)
    returns (draws: seq<Draw>, end: Cursor)
    ensures Layout(draws, end) == Items(sec, entries, 0, start, pageHeight)
  {
    var page, y := start.page, start.y;
    draws := [];
    var i := 0;
    ghost var whole := Items(sec, entries, 0, start, pageHeight);
    while i < |entries|
      invariant 0 <= i <= |entries|
      invariant draws + Items(sec, entries[i..], i, Cursor(page, y), pageHeight).draws == whole.draws
      invariant Items(sec, entries[i..], i, Cursor(page, y), pageHeight).end == whole.end
    {
      ItemsStep(sec, entries, i, Cursor(page, y), pageHeight, draws, whole);
      var block, next := DrawItem(sec, entries[i], i, Cursor(page, y), pageHeight);
      draws := draws + block;
      page, y := next.page, next.y;
      i := i + 1;
    }
    assert entries[i..] == [];
    end := Cursor(page, y);
  }

  /** The body of a section's `forEach`: the page check, then three lines 10 apart and 15 more after the last. */
  method DrawItem(sec: Section, e: Entry, index: nat, c: Cursor, pageHeight: int) returns (block: seq<Draw>, next: Cursor)
    ensures var at := BreakAfter(c, pageHeight - 40);
            block == ItemDraws(sec, e, index, at) && next == Cursor(at.page, at.y + 35)
  {
    var page, y := c.page, c.y;
    if y > pageHeight - 40 {
      page := page + 1;
      y := TopMargin;
    }
    var lines := ItemLines(sec, e);
    var title := Draw(page, y, Numbered(index + 1, lines.0));
    y := y + 10;
    var detail := Draw(page, y, lines.1);
    y := y + 10;
    var more := Draw(page, y, lines.2);
    y := y + 15;
    block := [title, detail, more];
    next := Cursor(page, y);
  }

  /** One turn of a section's loop: drawing record `i` at the checked cursor and moving 35 down keeps the draws on track. */
  lemma ItemsStep(sec: Section, entries: seq<Entry>, i: nat, c: Cursor, pageHeight: int, before: seq<Draw>, whole: Layout)
    requires i < |entries|
    requires before + Items(sec, entries[i..], i, c, pageHeight).draws == whole.draws
    requires Items(sec, entries[i..], i, c, pageHeight).end == whole.end
    ensures var at := BreakAfter(c, pageHeight - 40);
            var next := Items(sec, entries[i + 1..], i + 1, Cursor(at.page, at.y + 35), pageHeight);
            && (before + ItemDraws(sec, entries[i], i, at)) + next.draws == whole.draws
            && next.end == whole.end
  {
    assert entries[i..][1..] == entries[i + 1..];
  }

  /** The publications block of `generateFacultyReport`. */
  method LayOutPublications(pubs: seq<Entry>, start: Cursor, pageHeight: int) returns (draws: seq<Draw>, end: Cursor)
    ensures Layout(draws, end) == PublicationsPart(pubs, start, pageHeight)
  {
    draws, end := [], start;
    if |pubs| > 0 {
      var items, after := LayOutItems(PublicationsSection, pubs, Cursor(start.page, start.y + 15), pageHeight);
      draws := [Draw(start.page, start.y, Title(PublicationsHeading))] + items;
      end := after;
    }
  }

  /** The seminars block of `generateFacultyReport`. */
  method LayOutSeminars(sems: seq<Entry>, start: Cursor, pageHeight: int) returns (draws: seq<Draw>, end: Cursor)
    ensures Layout(draws, end) == SeminarsPart(sems, start, pageHeight)
  {
    draws, end := [], start;
    if |sems| > 0 {
      var page, y := start.page, start.y;
      if y > pageHeight - 40 {
        page := page + 1;
        y := TopMargin;
      }
      y := y + 10;
      var heading := Draw(page, y, Title(SeminarsHeading));
      y := y + 15;
      var items, after := LayOutItems(SeminarsSection, sems, Cursor(page, y), pageHeight);
      draws := [heading] + items;
      end := after;
    }
  }

  /** `generateFacultyReport`, reading the publications and seminars stored for the member. */
  method GenerateFacultyReport(faculty: User, stats: Stats, store: LocalStorage, pageHeight: int, today: string)
    returns (draws: seq<Draw>)
    ensures draws == FacultyReport(faculty, stats,
                                   StoredList(store.lists, ListKey(PublicationsKind, faculty.id)),
                                   StoredList(store.lists, ListKey(SeminarsKind, faculty.id)),
                                   pageHeight, today)
  {
    var pubs := StoredList(store.lists, ListKey(PublicationsKind, faculty.id));
    var sems := StoredList(store.lists, ListKey(SeminarsKind, faculty.id));
    var pubDraws, afterPubs := LayOutPublications(pubs, Cursor(1, 220), pageHeight);
    var semDraws, afterSems := LayOutSeminars(sems, afterPubs, pageHeight);
    draws := Header(faculty, stats) + pubDraws + semDraws + Footer(afterSems.page, pageHeight, today);
  }

  /** One turn of the roster loop: drawing row `i` at the checked cursor and moving 55 down keeps the draws on track. */
  lemma RosterStep(rows: seq<(User, Stats)>, i: nat, c: Cursor, before: seq<Draw>, whole: seq<Draw>)
    requires i < |rows|
    requires before + Roster(rows[i..], i, c).draws == whole
    ensures var at := BreakAfter(c, 250);
            (before + MemberDraws(rows[i], i, at)) + Roster(rows[i + 1..], i + 1, Cursor(at.page, at.y + 55)).draws == whole
  {
    assert rows[i..][1..] == rows[i + 1..];
  }

  /** `generateAllFacultyReports`: the cover block, then per faculty user their counts, a page check, four lines and 55 down. */
  method GenerateAllFacultyReports(store: LocalStorage, today: string) returns (draws: seq<Draw>)
    ensures draws == AllFacultyReports(UsersOrEmpty(store.users), store.lists, today)
  {
    var faculty := FacultyOf(UsersOrEmpty(store.users));
    draws := Cover(|faculty|, today);
    ghost var rows := Tally(faculty, store.lists);
    ghost var whole := draws + Roster(rows, 0, Cursor(1, 140)).draws;
    var page, y := 1, 140;
    var i := 0;
    while i < |faculty|
      invariant 0 <= i <= |faculty|
      invariant draws + Roster(rows[i..], i, Cursor(page, y)).draws == whole
    {
      RosterStep(rows, i, Cursor(page, y), draws, whole);
      var st := MemberStats(faculty[i], store.lists);
      ghost var at := BreakAfter(Cursor(page, y), 250);
      if y > 250 {
        page := page + 1;
        y := TopMargin;
      }
      assert Cursor(page, y) == at;
      assert rows[i] == (faculty[i], st);
      draws := draws + MemberDraws((faculty[i], st), i, Cursor(page, y));
      y := y + 55;
      i := i + 1;
      assert Cursor(page, y) == Cursor(at.page, at.y + 55);
    }
    assert rows[i..] == [];
  }

  // ---------------------------------------------------------------------------
  // What the layout promises.

  /**
   * Where block `k` of a list starts when every block is preceded by a page
   * check against `limit` and the cursor moves `step` down per block: the
   * first block starts at the checked starting cursor.
   */
  function Slot(c: Cursor, limit: int, step: int, k: nat): Cursor
    decreases k
  {
    var at := BreakAfter(c, limit);
    if k == 0 then at else Slot(Cursor(at.page, at.y + step), limit, step, k - 1)
  }

  /** The pagination rule: each block starts `step` below the previous one, after the page check. */
  lemma {:induction false} SlotNext(c: Cursor, limit: int, step: int, k: nat)
    ensures Slot(c, limit, step, k + 1)
         == BreakAfter(Cursor(Slot(c, limit, step, k).page, Slot(c, limit, step, k).y + step), limit)
    decreases k
  {
    if k > 0 {
      var at := BreakAfter(c, limit);
      SlotNext(Cursor(at.page, at.y + step), limit, step, k - 1);
    }
  }

  /** No block starts below the limit, and each block adds at most one page. */
  lemma {:induction false} SlotBounds(c: Cursor, limit: int, step: int, k: nat)
    requires TopMargin <= limit
    ensures Slot(c, limit, step, k).y <= limit
    ensures c.page <= Slot(c, limit, step, k).page <= c.page + k + 1
    decreases k
  {
    if k > 0 {
      var at := BreakAfter(c, limit);
      SlotBounds(Cursor(at.page, at.y + step), limit, step, k - 1);
    }
  }

  /** Later blocks are never on earlier pages. */
  lemma {:induction false} SlotPagesGrow(c: Cursor, limit: int, step: int, j: nat, k: nat)
    requires j <= k
    ensures Slot(c, limit, step, j).page <= Slot(c, limit, step, k).page
    decreases k - j
  {
    if j < k {
      SlotPagesGrow(c, limit, step, j, k - 1);
      SlotNext(c, limit, step, k - 1);
    }
  }

  /** Position `|a| + i` of `a + b` holds `b[i]`. */
  lemma AppendAt(a: seq<Draw>, b: seq<Draw>, i: nat)
    requires i < |b|
    ensures |a + b| == |a| + |b| && (a + b)[|a| + i] == b[i]
  {
  }

  /** A slice of `a + b` past `a` is the corresponding slice of `b`; the first `|a|` draws are `a`. */
  lemma AppendSlice(a: seq<Draw>, b: seq<Draw>, i: nat, j: nat)
    requires |a| <= i <= j <= |a| + |b|
    ensures (a + b)[i..j] == b[i - |a|..j - |a|]
    ensures (a + b)[..|a|] == a
  {
  }

  /** A section draws three lines per record. */
  lemma {:induction false} ItemsLength(sec: Section, entries: seq<Entry>, n: nat, c: Cursor, pageHeight: int)
    ensures |Items(sec, entries, n, c, pageHeight).draws| == 3 * |entries|
    decreases |entries|
  {
    if entries != [] {
      var at := BreakAfter(c, pageHeight - 40);
      ItemsLength(sec, entries[1..], n + 1, Cursor(at.page, at.y + 35), pageHeight);
    }
  }

  /** A section draws three lines per record and ends 35 below the start of its last record. */
  lemma {:induction false} ItemsEnd(sec: Section, entries: seq<Entry>, n: nat, c: Cursor, pageHeight: int)
    ensures var L := Items(sec, entries, n, c, pageHeight);
            && |L.draws| == 3 * |entries|
            && (entries == [] ==> L.end == c)
            && (entries != [] ==>
                  var last := Slot(c, pageHeight - 40, 35, |entries| - 1);
                  L.end == Cursor(last.page, last.y + 35))
    decreases |entries|
  {
    if entries != [] {
      var at := BreakAfter(c, pageHeight - 40);
      ItemsEnd(sec, entries[1..], n + 1, Cursor(at.page, at.y + 35), pageHeight);
    }
  }

  /**
   * Record `k` of a section is numbered `n + k + 1` and drawn as its three
   * lines at the `k`-th slot: the records appear in order, each after the
   * page check against `pageHeight - 40`, 35 apart.
   */
  lemma {:induction false} ItemAt(sec: Section, entries: seq<Entry>, n: nat, c: Cursor, pageHeight: int, k: nat)
    requires k < |entries|
    ensures var d := Items(sec, entries, n, c, pageHeight).draws;
            && |d| == 3 * |entries|
            && d[3 * k..3 * k + 3] == ItemDraws(sec, entries[k], n + k, Slot(c, pageHeight - 40, 35, k))
    decreases k
  {
    ItemsLength(sec, entries, n, c, pageHeight);
    var at := BreakAfter(c, pageHeight - 40);
    var next := Cursor(at.page, at.y + 35);
    var head := ItemDraws(sec, entries[0], n, at);
    var rest := Items(sec, entries[1..], n + 1, next, pageHeight).draws;
    assert Items(sec, entries, n, c, pageHeight).draws == head + rest;
    if k == 0 {
      AppendSlice(head, rest, 3, 3);
    } else {
      ItemAt(sec, entries[1..], n + 1, next, pageHeight, k - 1);
      var block := ItemDraws(sec, entries[1..][k - 1], n + 1 + (k - 1), Slot(next, pageHeight - 40, 35, k - 1));
      assert block == ItemDraws(sec, entries[k], n + k, Slot(c, pageHeight - 40, 35, k)) by {
        assert entries[1..][k - 1] == entries[k];
        assert Slot(c, pageHeight - 40, 35, k) == Slot(next, pageHeight - 40, 35, k - 1);
      }
      BlockAfterHead(head, rest, k, block);
    }
  }

  /** Block `k - 1` of `rest` is block `k` of `head + rest` when `head` is one block of three. */
  lemma BlockAfterHead(head: seq<Draw>, rest: seq<Draw>, k: nat, block: seq<Draw>)
    requires |head| == 3 && 0 < k && 3 * k <= |rest|
    requires rest[3 * (k - 1)..3 * k] == block
    ensures (head + rest)[3 * k..3 * k + 3] == block
  {
    AppendSlice(head, rest, 3 * k, 3 * k + 3);
  }

  /** Every draw lies at or above `limit`. */
  predicate NotBelow(draws: seq<Draw>, limit: int)
  {
    forall i :: 0 <= i < |draws| ==> draws[i].y <= limit
  }

  /** Pages never go back: a later draw is never on an earlier page. */
  predicate PagesOrdered(draws: seq<Draw>)
  {
    forall i, j :: 0 <= i < j < |draws| ==> draws[i].page <= draws[j].page
  }

  /** Every draw lies on a page between `lo` and `hi`. */
  predicate OnPages(draws: seq<Draw>, lo: nat, hi: nat)
  {
    forall i :: 0 <= i < |draws| ==> lo <= draws[i].page <= hi
  }

  /**
   * A section only moves forward through the pages: its draws are in page
   * order, on pages from the starting one to the ending one, it adds at most
   * one page per record, and on a page taller than 70 none of its lines is
   * below `pageHeight - 20`, the line the footer is drawn on.
   */
  lemma ItemsPlacement(sec: Section, entries: seq<Entry>, n: nat, c: Cursor, pageHeight: int)
    requires 70 <= pageHeight
    ensures var L := Items(sec, entries, n, c, pageHeight);
            && PagesOrdered(L.draws)
            && OnPages(L.draws, c.page, L.end.page)
            && c.page <= L.end.page <= c.page + |entries|
            && NotBelow(L.draws, pageHeight - 20)
  {
    var L := Items(sec, entries, n, c, pageHeight);
    var limit := pageHeight - 40;
    ItemsEnd(sec, entries, n, c, pageHeight);
    if entries != [] {
      var last := |entries| - 1;
      SlotBounds(c, limit, 35, last);
      forall i | 0 <= i < |L.draws|
        ensures L.draws[i].page == Slot(c, limit, 35, i / 3).page
        ensures L.draws[i].y <= pageHeight - 20
        ensures c.page <= L.draws[i].page <= L.end.page
      {
        var k := i / 3;
        ItemAt(sec, entries, n, c, pageHeight, k);
        assert L.draws[i] == L.draws[3 * k..3 * k + 3][i - 3 * k];
        SlotBounds(c, limit, 35, k);
        SlotPagesGrow(c, limit, 35, k, last);
      }
      forall i, j | 0 <= i < j < |L.draws|
        ensures L.draws[i].page <= L.draws[j].page
      {
        SlotPagesGrow(c, limit, 35, i / 3, j / 3);
      }
    }
  }

  /** Joining two runs of draws where the second starts on the page the first ends on keeps pages in order. */
  lemma JoinPlacement(a: seq<Draw>, b: seq<Draw>, lo: nat, mid: nat, hi: nat, limit: int)
    requires lo <= mid <= hi
    requires PagesOrdered(a) && OnPages(a, lo, mid) && NotBelow(a, limit)
    requires PagesOrdered(b) && OnPages(b, mid, hi) && NotBelow(b, limit)
    ensures PagesOrdered(a + b) && OnPages(a + b, lo, hi) && NotBelow(a + b, limit)
  {
    var ab := a + b;
    forall i | 0 <= i < |ab|
      ensures lo <= ab[i].page <= hi && ab[i].y <= limit
    {
      if i < |a| {
        assert ab[i] == a[i];
      } else {
        assert ab[i] == b[i - |a|];
      }
    }
    forall i, j | 0 <= i < j < |ab|
      ensures ab[i].page <= ab[j].page
    {
      if i >= |a| {
        assert ab[i] == b[i - |a|] && ab[j] == b[j - |a|];
      } else if j >= |a| {
        assert ab[i] == a[i] && ab[j] == b[j - |a|];
      } else {
        assert ab[i] == a[i] && ab[j] == a[j];
      }
    }
  }

  /** Number of draws a section contributes: nothing when empty, else a heading and three per record. */
  function SectionSize(entries: seq<Entry>): nat
  {
    if entries == [] then 0 else 1 + 3 * |entries|
  }

  /** The publications part: its size, its heading, and its records numbered in order. */
  lemma PublicationsContents(pubs: seq<Entry>, c: Cursor, pageHeight: int)
    ensures var p := PublicationsPart(pubs, c, pageHeight);
            && |p.draws| == SectionSize(pubs)
            && (pubs != [] ==> p.draws[0].text == Title(PublicationsHeading))
            && forall k :: 0 <= k < |pubs| ==> p.draws[1 + 3 * k].text == Numbered(k + 1, Prop(pubs[k], "title"))
  {
    var p := PublicationsPart(pubs, c, pageHeight);
    var start := Cursor(c.page, c.y + 15);
    ItemsEnd(PublicationsSection, pubs, 0, start, pageHeight);
    forall k | 0 <= k < |pubs|
      ensures p.draws[1 + 3 * k].text == Numbered(k + 1, Prop(pubs[k], "title"))
    {
      var items := Items(PublicationsSection, pubs, 0, start, pageHeight).draws;
      ItemAt(PublicationsSection, pubs, 0, start, pageHeight, k);
      assert p.draws[1 + 3 * k] == items[3 * k] == items[3 * k..3 * k + 3][0];
    }
  }

  /** The seminars part: its size, its heading, and its records numbered in order. */
  lemma SeminarsContents(sems: seq<Entry>, c: Cursor, pageHeight: int)
    ensures var s := SeminarsPart(sems, c, pageHeight);
            && |s.draws| == SectionSize(sems)
            && (sems != [] ==> s.draws[0].text == Title(SeminarsHeading))
            && forall k :: 0 <= k < |sems| ==> s.draws[1 + 3 * k].text == Numbered(k + 1, Prop(sems[k], "title"))
  {
    var s := SeminarsPart(sems, c, pageHeight);
    var at := BreakAfter(c, pageHeight - 40);
    var start := Cursor(at.page, at.y + 25);
    ItemsEnd(SeminarsSection, sems, 0, start, pageHeight);
    forall k | 0 <= k < |sems|
      ensures s.draws[1 + 3 * k].text == Numbered(k + 1, Prop(sems[k], "title"))
    {
      var items := Items(SeminarsSection, sems, 0, start, pageHeight).draws;
      ItemAt(SeminarsSection, sems, 0, start, pageHeight, k);
      assert s.draws[1 + 3 * k] == items[3 * k] == items[3 * k..3 * k + 3][0];
    }
  }

  /**
   * The frame of the single-faculty report: the twelve header lines with the
   * summary taken from `stats` and the designation defaulting to "Faculty",
   * a heading and three lines per record for the publications and the
   * seminars only, and the two footer lines last, 20 above the bottom of the
   * page.
   */
  lemma ReportFrame(f: User, stats: Stats, pubs: seq<Entry>, sems: seq<Entry>, pageHeight: int, today: string)
    ensures var d := FacultyReport(f, stats, pubs, sems, pageHeight, today);
            && |d| == 14 + SectionSize(pubs) + SectionSize(sems)
            && d[4].text == Field(Designation, if f.designation == "" then "Faculty" else f.designation)
            && d[7..12] == [Draw(1, 135, Count(Publications, stats.publications)),
                            Draw(1, 150, Count(SeminarsAttended, stats.seminars)),
                            Draw(1, 165, Count(EventsOrganized, stats.events)),
                            Draw(1, 180, Count(GuestLectures, stats.lectures)),
                            Draw(1, 195, Count(Projects, stats.projects))]
            && d[|d| - 2].text == Field(GeneratedOn, today)
            && d[|d| - 1].text == Title(FooterTag)
            && d[|d| - 2].y == d[|d| - 1].y == pageHeight - 20
  {
    var p := PublicationsPart(pubs, Cursor(1, 220), pageHeight);
    var s := SeminarsPart(sems, p.end, pageHeight);
    var d := FacultyReport(f, stats, pubs, sems, pageHeight, today);
    PublicationsContents(pubs, Cursor(1, 220), pageHeight);
    SeminarsContents(sems, p.end, pageHeight);
    assert d == Header(f, stats) + p.draws + s.draws + Footer(s.end.page, pageHeight, today);
    assert d[..12] == Header(f, stats);
    assert d[7..12] == Header(f, stats)[7..12];
  }

  /** The single-faculty report lists the publications, then the seminars, each in order and numbered from 1. */
  lemma ReportItems(f: User, stats: Stats, pubs: seq<Entry>, sems: seq<Entry>, pageHeight: int, today: string)
    ensures var d := FacultyReport(f, stats, pubs, sems, pageHeight, today);
            && |d| == 14 + SectionSize(pubs) + SectionSize(sems)
            && (pubs != [] ==> d[12].text == Title(PublicationsHeading))
            && (forall k :: 0 <= k < |pubs| ==> d[13 + 3 * k].text == Numbered(k + 1, Prop(pubs[k], "title")))
            && (sems != [] ==> d[12 + SectionSize(pubs)].text == Title(SeminarsHeading))
            && (forall k :: 0 <= k < |sems| ==>
                  d[13 + SectionSize(pubs) + 3 * k].text == Numbered(k + 1, Prop(sems[k], "title")))
  {
    var p := PublicationsPart(pubs, Cursor(1, 220), pageHeight);
    var s := SeminarsPart(sems, p.end, pageHeight);
    var d := FacultyReport(f, stats, pubs, sems, pageHeight, today);
    PublicationsContents(pubs, Cursor(1, 220), pageHeight);
    SeminarsContents(sems, p.end, pageHeight);
    var body := Header(f, stats) + p.draws + s.draws;
    assert d == body + Footer(s.end.page, pageHeight, today);
    if pubs != [] {
      assert d[12] == p.draws[0];
    }
    if sems != [] {
      assert d[12 + SectionSize(pubs)] == s.draws[0];
    }
    forall k | 0 <= k < |pubs|
      ensures d[13 + 3 * k].text == Numbered(k + 1, Prop(pubs[k], "title"))
    {
      assert d[13 + 3 * k] == p.draws[1 + 3 * k];
    }
    forall k | 0 <= k < |sems|
      ensures d[13 + SectionSize(pubs) + 3 * k].text == Numbered(k + 1, Prop(sems[k], "title"))
    {
      assert d[13 + SectionSize(pubs) + 3 * k] == s.draws[1 + 3 * k];
    }
  }

  /** The publications part stays on pages 1 onwards, in page order, and above the footer's line. */
  lemma PublicationsPlacement(pubs: seq<Entry>, pageHeight: int)
    requires 240 <= pageHeight
    ensures var p := PublicationsPart(pubs, Cursor(1, 220), pageHeight);
            && 1 <= p.end.page
            && PagesOrdered(p.draws) && OnPages(p.draws, 1, p.end.page) && NotBelow(p.draws, pageHeight - 20)
  {
    var p := PublicationsPart(pubs, Cursor(1, 220), pageHeight);
    if pubs != [] {
      var items := Items(PublicationsSection, pubs, 0, Cursor(1, 235), pageHeight);
      ItemsPlacement(PublicationsSection, pubs, 0, Cursor(1, 235), pageHeight);
      JoinPlacement([Draw(1, 220, Title(PublicationsHeading))], items.draws, 1, 1, items.end.page, pageHeight - 20);
    }
  }

  /** The seminars part stays on pages from where it starts, in page order, and above the footer's line. */
  lemma SeminarsPlacement(sems: seq<Entry>, c: Cursor, pageHeight: int)
    requires 240 <= pageHeight
    ensures var s := SeminarsPart(sems, c, pageHeight);
            PagesOrdered(s.draws) && OnPages(s.draws, c.page, s.end.page) && NotBelow(s.draws, pageHeight - 20)
            && c.page <= s.end.page
  {
    if sems != [] {
      var at := BreakAfter(c, pageHeight - 40);
      var items := Items(SeminarsSection, sems, 0, Cursor(at.page, at.y + 25), pageHeight);
      BreakAfterBounds(c, pageHeight - 40);
      ItemsPlacement(SeminarsSection, sems, 0, Cursor(at.page, at.y + 25), pageHeight);
      JoinPlacement([Draw(at.page, at.y + 10, Title(SeminarsHeading))], items.draws, c.page, at.page, items.end.page, pageHeight - 20);
    }
  }

  /** The header lines are all on page 1, above `pageHeight - 20` once the page is at least 215 high. */
  lemma HeaderPlacement(f: User, stats: Stats, pageHeight: int)
    requires 215 <= pageHeight
    ensures var h := Header(f, stats);
            PagesOrdered(h) && OnPages(h, 1, 1) && NotBelow(h, pageHeight - 20)
  {
  }

  /** Header, publications and seminars together keep pages in order and stay above the footer's line. */
  lemma BodyPlacement(f: User, stats: Stats, pubs: seq<Entry>, sems: seq<Entry>, pageHeight: int)
    requires 240 <= pageHeight
    ensures var p := PublicationsPart(pubs, Cursor(1, 220), pageHeight);
            var s := SeminarsPart(sems, p.end, pageHeight);
            var body := Header(f, stats) + p.draws + s.draws;
            1 <= s.end.page && PagesOrdered(body) && OnPages(body, 1, s.end.page) && NotBelow(body, pageHeight - 20)
  {
    var p := PublicationsPart(pubs, Cursor(1, 220), pageHeight);
    var s := SeminarsPart(sems, p.end, pageHeight);
    var h := Header(f, stats);
    HeaderPlacement(f, stats, pageHeight);
    PublicationsPlacement(pubs, pageHeight);
    SeminarsPlacement(sems, p.end, pageHeight);
    JoinPlacement(h, p.draws, 1, 1, p.end.page, pageHeight - 20);
    JoinPlacement(h + p.draws, s.draws, 1, p.end.page, s.end.page, pageHeight - 20);
  }

  /**
   * The single-faculty report never goes back a page, starts on page 1 and
   * draws its footer once, on the last page it reaches, with no other line below
   * the footer's (on a page at least 240 high, which the publications
   * heading at 220 needs).
   */
  lemma ReportPages(f: User, stats: Stats, pubs: seq<Entry>, sems: seq<Entry>, pageHeight: int, today: string)
    requires 240 <= pageHeight
    ensures var d := FacultyReport(f, stats, pubs, sems, pageHeight, today);
            && 2 <= |d|
            && PagesOrdered(d)
            && OnPages(d, 1, d[|d| - 1].page)
            && d[|d| - 2].page == d[|d| - 1].page
            && NotBelow(d, d[|d| - 1].y)
            && IsFooterLine(d[|d| - 2].text) && IsFooterLine(d[|d| - 1].text)
            && NoFooterLine(d[..|d| - 2])
  {
    FooterDrawnOnce(f, stats, pubs, sems, pageHeight, today);
    var p := PublicationsPart(pubs, Cursor(1, 220), pageHeight);
    var s := SeminarsPart(sems, p.end, pageHeight);
    var body := Header(f, stats) + p.draws + s.draws;
    var foot := Footer(s.end.page, pageHeight, today);
    BodyPlacement(f, stats, pubs, sems, pageHeight);
    assert PagesOrdered(foot) && OnPages(foot, s.end.page, s.end.page) && NotBelow(foot, pageHeight - 20);
    JoinPlacement(body, foot, 1, s.end.page, s.end.page, pageHeight - 20);
    assert FacultyReport(f, stats, pubs, sems, pageHeight, today) == body + foot;
  }

  /** The two lines the footer prints: the generation date and the report tag. */
  predicate IsFooterLine(line: Line)
  {
    line == Title(FooterTag) || (line.Field? && line.caption == GeneratedOn)
  }

  /** No draw of `d` prints a footer line. */
  predicate NoFooterLine(d: seq<Draw>)
  {
    forall i :: 0 <= i < |d| ==> !IsFooterLine(d[i].text)
  }

  /** A section's records print only numbered titles and detail lines, never a footer line. */
  lemma {:induction false} ItemsNoFooter(sec: Section, entries: seq<Entry>, n: nat, c: Cursor, pageHeight: int)
    ensures NoFooterLine(Items(sec, entries, n, c, pageHeight).draws)
    decreases |entries|
  {
    if entries != [] {
      var at := BreakAfter(c, pageHeight - 40);
      var head := ItemDraws(sec, entries[0], n, at);
      var rest := Items(sec, entries[1..], n + 1, Cursor(at.page, at.y + 35), pageHeight).draws;
      ItemsNoFooter(sec, entries[1..], n + 1, Cursor(at.page, at.y + 35), pageHeight);
      var d := head + rest;
      forall i | 0 <= i < |d| ensures !IsFooterLine(d[i].text) {
        if i >= 3 {
          assert d[i] == rest[i - 3];
        }
      }
    }
  }

  /** Joining two runs without footer lines gives none. */
  lemma NoFooterJoin(a: seq<Draw>, b: seq<Draw>)
    requires NoFooterLine(a) && NoFooterLine(b)
    ensures NoFooterLine(a + b)
  {
    forall i | 0 <= i < |a + b| ensures !IsFooterLine((a + b)[i].text) {
      if i >= |a| {
        assert (a + b)[i] == b[i - |a|];
      }
    }
  }

  /** Neither section part prints a footer line. */
  lemma PartsNoFooter(pubs: seq<Entry>, sems: seq<Entry>, c: Cursor, pageHeight: int)
    ensures NoFooterLine(PublicationsPart(pubs, c, pageHeight).draws)
    ensures NoFooterLine(SeminarsPart(sems, c, pageHeight).draws)
  {
    if pubs != [] {
      var items := Items(PublicationsSection, pubs, 0, Cursor(c.page, c.y + 15), pageHeight).draws;
      ItemsNoFooter(PublicationsSection, pubs, 0, Cursor(c.page, c.y + 15), pageHeight);
      NoFooterJoin([Draw(c.page, c.y, Title(PublicationsHeading))], items);
    }
    if sems != [] {
      var at := BreakAfter(c, pageHeight - 40);
      var items := Items(SeminarsSection, sems, 0, Cursor(at.page, at.y + 25), pageHeight).draws;
      ItemsNoFooter(SeminarsSection, sems, 0, Cursor(at.page, at.y + 25), pageHeight);
      NoFooterJoin([Draw(at.page, at.y + 10, Title(SeminarsHeading))], items);
    }
  }

  /**
   * The footer is drawn once: its two lines are the last two draws of the
   * report, and no earlier draw prints either of them.
   */
  lemma FooterDrawnOnce(f: User, stats: Stats, pubs: seq<Entry>, sems: seq<Entry>, pageHeight: int, today: string)
    ensures var d := FacultyReport(f, stats, pubs, sems, pageHeight, today);
            && 2 <= |d|
            && d[|d| - 2].text == Field(GeneratedOn, today)
            && d[|d| - 1].text == Title(FooterTag)
            && NoFooterLine(d[..|d| - 2])
  {
    var p := PublicationsPart(pubs, Cursor(1, 220), pageHeight);
    var s := SeminarsPart(sems, p.end, pageHeight);
    var header := Header(f, stats);
    var d := FacultyReport(f, stats, pubs, sems, pageHeight, today);
    assert NoFooterLine(header);
    PartsNoFooter(pubs, [], Cursor(1, 220), pageHeight);
    PartsNoFooter([], sems, p.end, pageHeight);
    NoFooterJoin(header, p.draws);
    NoFooterJoin(header + p.draws, s.draws);
    assert d == (header + p.draws + s.draws) + Footer(s.end.page, pageHeight, today);
    assert d[..|d| - 2] == header + p.draws + s.draws;
  }

  /** The page check leaves the cursor at or above the limit, on the same or the next page. */
  lemma BreakAfterBounds(c: Cursor, limit: int)
    requires TopMargin <= limit
    ensures BreakAfter(c, limit).y <= limit
    ensures c.page <= BreakAfter(c, limit).page <= c.page + 1
  {
  }

  /** The roster draws four lines per row. */
  lemma {:induction false} RosterLength(rows: seq<(User, Stats)>, n: nat, c: Cursor)
    ensures |Roster(rows, n, c).draws| == 4 * |rows|
    decreases |rows|
  {
    if rows != [] {
      var at := BreakAfter(c, 250);
      RosterLength(rows[1..], n + 1, Cursor(at.page, at.y + 55));
    }
  }

  /**
   * Row `k` of the roster is numbered `n + k + 1` and drawn as its four lines
   * at the `k`-th slot: after the page check against 250, 55 below the
   * previous row.
   */
  lemma {:induction false} MemberAt(rows: seq<(User, Stats)>, n: nat, c: Cursor, k: nat)
    requires k < |rows|
    ensures var d := Roster(rows, n, c).draws;
            && |d| == 4 * |rows|
            && d[4 * k..4 * k + 4] == MemberDraws(rows[k], n + k, Slot(c, 250, 55, k))
    decreases k
  {
    RosterLength(rows, n, c);
    var at := BreakAfter(c, 250);
    var next := Cursor(at.page, at.y + 55);
    var head := MemberDraws(rows[0], n, at);
    var rest := Roster(rows[1..], n + 1, next).draws;
    assert Roster(rows, n, c).draws == head + rest;
    if k == 0 {
      AppendSlice(head, rest, 4, 4);
    } else {
      MemberAt(rows[1..], n + 1, next, k - 1);
      var block := MemberDraws(rows[1..][k - 1], n + 1 + (k - 1), Slot(next, 250, 55, k - 1));
      assert block == MemberDraws(rows[k], n + k, Slot(c, 250, 55, k)) by {
        assert rows[1..][k - 1] == rows[k];
        assert Slot(c, 250, 55, k) == Slot(next, 250, 55, k - 1);
      }
      MemberAfterHead(head, rest, k, block);
    }
  }

  /** Block `k - 1` of `rest` is block `k` of `head + rest` when `head` is one block of four. */
  lemma MemberAfterHead(head: seq<Draw>, rest: seq<Draw>, k: nat, block: seq<Draw>)
    requires |head| == 4 && 0 < k && 4 * k <= |rest|
    requires rest[4 * (k - 1)..4 * k] == block
    ensures (head + rest)[4 * k..4 * k + 4] == block
  {
    AppendSlice(head, rest, 4 * k, 4 * k + 4);
  }

  /**
   * Each roster block names its member with their number and prints their
   * counts; no block starts below 250.
   */
  lemma RosterContents(rows: seq<(User, Stats)>, c: Cursor)
    ensures var r := Roster(rows, 0, c).draws;
            && |r| == 4 * |rows|
            && forall k :: 0 <= k < |rows| ==>
                 && r[4 * k].text == Numbered(k + 1, rows[k].0.name)
                 && r[4 * k].y <= 250
                 && r[4 * k + 1].text == Field(Department, rows[k].0.department)
                 && r[4 * k + 2].text == ActivityCounts(rows[k].1)
                 && r[4 * k + 3].text == TeachingCounts(rows[k].1)
  {
    var r := Roster(rows, 0, c).draws;
    RosterLength(rows, 0, c);
    forall k | 0 <= k < |rows|
      ensures r[4 * k].text == Numbered(k + 1, rows[k].0.name)
      ensures r[4 * k].y <= 250
      ensures r[4 * k + 1].text == Field(Department, rows[k].0.department)
      ensures r[4 * k + 2].text == ActivityCounts(rows[k].1)
      ensures r[4 * k + 3].text == TeachingCounts(rows[k].1)
    {
      var block := MemberDraws(rows[k], k, Slot(c, 250, 55, k));
      MemberAt(rows, 0, c, k);
      SlotBounds(c, 250, 55, k);
      assert r[4 * k..4 * k + 4] == block;
      assert r[4 * k] == block[0] && r[4 * k + 1] == block[1] && r[4 * k + 2] == block[2] && r[4 * k + 3] == block[3];
    }
  }

  /** Block `k` of the all-faculty document: the `k`-th faculty user's name, number and stored counts, starting at or above 250. */
  lemma AllReportsBlock(users: seq<User>, lists: map<string, seq<Entry>>, today: string, k: nat)
    requires k < |FacultyOf(users)|
    ensures var faculty := FacultyOf(users);
            var d := AllFacultyReports(users, lists, today);
            && |d| == 3 + 4 * |faculty|
            && d[3 + 4 * k].text == Numbered(k + 1, faculty[k].name)
            && d[3 + 4 * k].y <= 250
            && d[5 + 4 * k].text == ActivityCounts(Tally(faculty, lists)[k].1)
            && d[6 + 4 * k].text == TeachingCounts(Tally(faculty, lists)[k].1)
  {
    var faculty := FacultyOf(users);
    var rows := Tally(faculty, lists);
    var r := Roster(rows, 0, Cursor(1, 140)).draws;
    var d := AllFacultyReports(users, lists, today);
    var cover := Cover(|faculty|, today);
    RosterContents(rows, Cursor(1, 140));
    AppendAt(cover, r, 4 * k);
    AppendAt(cover, r, 4 * k + 2);
    AppendAt(cover, r, 4 * k + 3);
    assert rows[k].0 == faculty[k];
  }

  /**
   * The all-faculty document: three cover lines with the faculty count, then
   * one block per faculty user in their stored order, naming them and
   * counting what is stored under their id; no block starts below 250.
   */
  lemma AllReportsContents(users: seq<User>, lists: map<string, seq<Entry>>, today: string)
    ensures var faculty := FacultyOf(users);
            var d := AllFacultyReports(users, lists, today);
            && |d| == 3 + 4 * |faculty|
            && d[2] == Draw(1, 100, Count(TotalFaculty, |faculty|))
            && forall k :: 0 <= k < |faculty| ==>
                 && d[3 + 4 * k].text == Numbered(k + 1, faculty[k].name)
                 && d[3 + 4 * k].y <= 250
                 && d[5 + 4 * k].text == ActivityCounts(MemberStats(faculty[k], lists))
                 && d[6 + 4 * k].text == TeachingCounts(MemberStats(faculty[k], lists))
  {
    var faculty := FacultyOf(users);
    RosterLength(Tally(faculty, lists), 0, Cursor(1, 140));
    forall k | 0 <= k < |faculty|
      ensures var d := AllFacultyReports(users, lists, today);
              && d[3 + 4 * k].text == Numbered(k + 1, faculty[k].name)
              && d[3 + 4 * k].y <= 250
              && d[5 + 4 * k].text == ActivityCounts(MemberStats(faculty[k], lists))
              && d[6 + 4 * k].text == TeachingCounts(MemberStats(faculty[k], lists))
    {
      AllReportsBlock(users, lists, today, k);
    }
  }
}
