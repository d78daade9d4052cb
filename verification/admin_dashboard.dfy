/**
 The list logic of the admin dashboard: converting stored creation times,
 filtering applications by status, the status badge style, and the CSV
 export text.
 */
module AdminDashboard {
  import opened Values

  // ---------------------------------------------------------------------
  // Creation time
  // ---------------------------------------------------------------------

  /** A stored `createdAt`: already a date (milliseconds since the epoch) or
      a document-store timestamp (whole seconds and nanoseconds). */
  datatype StoredTime = JsDate(millis: int) | Timestamp(seconds: int, nanoseconds: nat)

  /** The date a fetched application carries: a date is kept, a timestamp
      becomes `seconds * 1000` milliseconds. */
  function CreatedAtMillis(t: StoredTime): (ms: int)
    ensures t.JsDate? ==> ms == t.millis
    ensures t.Timestamp? ==> ms % 1000 == 0 && ms / 1000 == t.seconds
  {
    match t
    case JsDate(millis) => millis
    case Timestamp(seconds, _) => seconds * 1000
  }

  /** The conversion keeps the order of timestamps and ignores their
      nanoseconds. */
  lemma TimestampConversionMonotone(a: StoredTime, b: StoredTime)
    requires a.Timestamp? && b.Timestamp?
    ensures a.seconds <= b.seconds <==> CreatedAtMillis(a) <= CreatedAtMillis(b)
    ensures a.seconds == b.seconds ==> CreatedAtMillis(a) == CreatedAtMillis(b)
  {
  }

  // ---------------------------------------------------------------------
  // Filtering
  // ---------------------------------------------------------------------

  /** A fetched application as the dashboard lists it. Fields missing from
      the stored document are None. */
  datatype Application = Application(
    id: string,
    fullName: Option<string>,
    email: Option<string>,
    phone: Option<string>,
    status: Option<string>,
    monthlyIncome: Option<Number>,
    createdAt: int)

  /** The filter callback: "all" keeps everything, any other value keeps
      the applications whose status equals it. */
  predicate Shown(app: Application, filter: string)
    ensures filter == "all" ==> Shown(app, filter)
    ensures filter != "all" ==> (Shown(app, filter) <==> app.status.Some? && app.status.value == filter)
    ensures app.status.None? ==> (Shown(app, filter) <==> filter == "all")
  {
    filter == "all" || app.status == Some(filter)
  }

  /** `filteredApplications`. */
  function FilterApplications(apps: seq<Application>, filter: string): (shown: seq<Application>)
    ensures filter == "all" ==> shown == apps
    ensures |shown| <= |apps|
    ensures forall i :: 0 <= i < |shown| ==> shown[i] in apps && Shown(shown[i], filter)
    decreases |apps|
  {
    if apps == [] then []
    else (if Shown(apps[0], filter) then [apps[0]] else []) + FilterApplications(apps[1..], filter)
  }

  /** Filtering a concatenation filters each part in place, so the filter
      keeps the relative order of the applications. */
  lemma {:induction false} FilterKeepsOrder(a: seq<Application>, b: seq<Application>, filter: string)
    ensures FilterApplications(a + b, filter) == FilterApplications(a, filter) + FilterApplications(b, filter)
    decreases |a|
  {
    if a != [] {
      assert (a + b)[1..] == a[1..] + b;
      FilterKeepsOrder(a[1..], b, filter);
    } else {
      assert a + b == b;
    }
  }

  /** Every shown application appears as often as in the input, and no
      other application appears. */
  lemma {:induction false} FilterKeepsExactlyMatching(apps: seq<Application>, filter: string, x: Application)
    ensures multiset(FilterApplications(apps, filter))[x] == if Shown(x, filter) then multiset(apps)[x] else 0
    decreases |apps|
  {
    if apps != [] {
      FilterKeepsExactlyMatching(apps[1..], filter, x);
      assert apps == [apps[0]] + apps[1..];
    }
  }

  // ---------------------------------------------------------------------
  // Status badge
  // ---------------------------------------------------------------------

  const KnownStatuses := {"New", "In Review", "Approved", "Declined"}
  const DefaultStatusClass := "bg-gray-100 text-gray-800"

  /** `getStatusClass`. */
  function StatusClass(status: string): (cls: string)
    ensures cls == DefaultStatusClass <==> status !in KnownStatuses
  {
    match status
    case "New" => "bg-blue-100 text-blue-800"
    case "In Review" => "bg-yellow-100 text-yellow-800"
    case "Approved" => "bg-green-100 text-green-800"
    case "Declined" => "bg-red-100 text-red-800"
    case _ => DefaultStatusClass
  }

  /** The four known statuses get four different styles. */
  lemma StatusClassesDistinct(s: string, t: string)
    requires s in KnownStatuses && t in KnownStatuses && s != t
    ensures StatusClass(s) != StatusClass(t)
  {
  }

  // ---------------------------------------------------------------------
  // CSV export
  // ---------------------------------------------------------------------

  /** `Array.prototype.join` with a one-character separator. */
  function Join(parts: seq<string>, sep: char): string
    decreases |parts|
  {
    if |parts| == 0 then ""
    else if |parts| == 1 then parts[0]
    else parts[0] + [sep] + Join(parts[1..], sep)
  }

  /** `String.prototype.split` with a one-character separator: the pieces
      between consecutive separators. */
  function Split(s: string, sep: char): (parts: seq<string>)
    ensures |parts| >= 1
    decreases |s|
  {
    if |s| == 0 then [""]
    else
      var rest := Split(s[1..], sep);
      if s[0] == sep then [""] + rest
      else [[s[0]] + rest[0]] + rest[1..]
  }

  /** Splitting text that starts with a separator-free piece `p`. */
  lemma {:induction false} SplitAfterPiece(p: string, tail: string, sep: char)
    requires sep !in p
    ensures Split(p + tail, sep) == [p + Split(tail, sep)[0]] + Split(tail, sep)[1..]
    decreases |p|
  {
    if p != [] {
      assert (p + tail)[0] == p[0];
      assert (p + tail)[1..] == p[1..] + tail;
      SplitAfterPiece(p[1..], tail, sep);
      assert [p[0]] + (p[1..] + Split(tail, sep)[0]) == p + Split(tail, sep)[0];
    } else {
      var parts := Split(tail, sep);
      assert p + tail == tail;
      assert p + parts[0] == parts[0];
      assert parts == [parts[0]] + parts[1..];
    }
  }

  /** Joining pieces that contain no separator and splitting again gives
      the pieces back. */
  lemma {:induction false} SplitJoin(parts: seq<string>, sep: char)
    requires |parts| >= 1
    requires forall i :: 0 <= i < |parts| ==> sep !in parts[i]
    ensures Split(Join(parts, sep), sep) == parts
    decreases |parts|
  {
    if |parts| == 1 {
      SplitAfterPiece(parts[0], "", sep);
      assert Split("", sep) == [""];
      assert parts[0] + "" == parts[0];
    } else {
      var rest := Join(parts[1..], sep);
      SplitJoin(parts[1..], sep);
      assert Join(parts, sep) == parts[0] + ([sep] + rest);
      SplitAfterPiece(parts[0], [sep] + rest, sep);
      assert ([sep] + rest)[1..] == rest;
      assert Split([sep] + rest, sep) == [""] + Split(rest, sep);
      assert parts[0] + "" == parts[0];
      assert parts == [parts[0]] + parts[1..];
    }
  }

  /** Joining a first piece in front of at least one more. */
  lemma JoinCons(first: string, rest: seq<string>, sep: char)
    requires |rest| >= 1
    ensures Join([first] + rest, sep) == first + [sep] + Join(rest, sep)
  {
    assert ([first] + rest)[1..] == rest;
  }

  /** A character that is neither the separator nor in any piece is not in
      the joined text. */
  lemma {:induction false} JoinAvoids(parts: seq<string>, sep: char, c: char)
    requires c != sep
    requires forall i :: 0 <= i < |parts| ==> c !in parts[i]
    ensures c !in Join(parts, sep)
    decreases |parts|
  {
    if |parts| > 1 {
      JoinAvoids(parts[1..], sep, c);
    }
  }

  const Headers := ["ID", "Name", "Email", "Phone", "Status", "Monthly Income", "Submitted Date"]

  /** An optional string as an element of a joined array: undefined joins
      as the empty string. */
  function CellText(s: Option<string>): string
  {
    if s.Some? then s.value else ""
  }

  /** The income cell: empty when undefined, "NaN" for NaN, otherwise the
      number's text, which is a parameter of the model. */
  function IncomeCell(income: Option<Number>, numberText: real -> string): string
  {
    match income
    case None => ""
    case Some(NaN) => "NaN"
    case Some(Finite(x)) => numberText(x)
  }

  /** The cells of one exported row, in header order. The date text comes
      from the locale's formatting, a parameter of the model. */
  function Row(app: Application, numberText: real -> string, dateText: int -> string): (cells: seq<string>)
    ensures |cells| == |Headers|
  {
    [app.id, CellText(app.fullName), CellText(app.email), CellText(app.phone), CellText(app.status),
     IncomeCell(app.monthlyIncome, numberText), dateText(app.createdAt)]
  }

  /** The lines of the export before joining: the header line, then one
      line per shown application. */
  function CsvLines(shown: seq<Application>, numberText: real -> string, dateText: int -> string)
    : (lines: seq<string>)
    ensures |lines| == 1 + |shown|
    ensures lines[0] == Join(Headers, ',')
    ensures forall k :: 0 <= k < |shown| ==> lines[k + 1] == Join(Row(shown[k], numberText, dateText), ',')
  {
    [Join(Headers, ',')]
    + seq(|shown|, i requires 0 <= i < |shown| => Join(Row(shown[i], numberText, dateText), ','))
  }

  /** The text `handleExportCSV` puts in the downloaded file. */
  function CsvContent(apps: seq<Application>, filter: string, numberText: real -> string,
                      dateText: int -> string): (content: string)
    ensures var header := Join(Headers, ',');
      |header| <= |content| && content[..|header|] == header
    ensures FilterApplications(apps, filter) == [] ==> content == Join(Headers, ',')
  {
    var lines := CsvLines(FilterApplications(apps, filter), numberText, dateText);
    JoinStartsWithFirst(lines, '\n');
    Join(lines, '\n')
  }

  /** A joined text begins with its first piece. */
  lemma JoinStartsWithFirst(parts: seq<string>, sep: char)
    requires |parts| >= 1
    ensures |parts[0]| <= |Join(parts, sep)| && Join(parts, sep)[..|parts[0]|] == parts[0]
  {
  }

  /** No cell of the row contains character `c`. */
  predicate RowAvoids(app: Application, numberText: real -> string, dateText: int -> string, c: char)
  {
    forall j :: 0 <= j < |Headers| ==> c !in Row(app, numberText, dateText)[j]
  }

  /** When no cell contains a line break, the export has one header line
      followed by exactly one line per shown application, in order. */
  lemma CsvHasOneLinePerApplication(apps: seq<Application>, filter: string,
                                    numberText: real -> string, dateText: int -> string)
    requires forall i :: 0 <= i < |FilterApplications(apps, filter)| ==>
      RowAvoids(FilterApplications(apps, filter)[i], numberText, dateText, '\n')
    ensures var shown := FilterApplications(apps, filter);
      var lines := Split(CsvContent(apps, filter, numberText, dateText), '\n');
      && |lines| == 1 + |shown|
      && lines[0] == Join(Headers, ',')
      && Split(lines[0], ',') == Headers
      && forall k :: 0 <= k < |shown| ==> lines[k + 1] == Join(Row(shown[k], numberText, dateText), ',')
  {
    var shown := FilterApplications(apps, filter);
    assert forall i :: 0 <= i < |shown| ==> RowAvoids(shown[i], numberText, dateText, '\n');
    LinesHaveNoBreak(shown, numberText, dateText);
    SplitJoin(CsvLines(shown, numberText, dateText), '\n');
    HeaderHasSevenColumns();
  }

  /** The header line splits into the seven column names. */
  lemma HeaderHasSevenColumns()
    ensures Split(Join(Headers, ','), ',') == Headers && |Headers| == 7
  {
    assert forall i :: 0 <= i < |Headers| ==> ',' !in Headers[i];
    SplitJoin(Headers, ',');
  }

  /** No line of the export contains a line break of its own. */
  lemma LinesHaveNoBreak(shown: seq<Application>, numberText: real -> string, dateText: int -> string)
    requires forall i :: 0 <= i < |shown| ==> RowAvoids(shown[i], numberText, dateText, '\n')
    ensures forall i :: 0 <= i < |CsvLines(shown, numberText, dateText)| ==>
      '\n' !in CsvLines(shown, numberText, dateText)[i]
  {
    var lines := CsvLines(shown, numberText, dateText);
    forall i | 0 <= i < |lines|
      ensures '\n' !in lines[i]
    {
      if i == 0 {
        JoinAvoids(Headers, ',', '\n');
      } else {
        JoinAvoids(Row(shown[i - 1], numberText, dateText), ',', '\n');
      }
    }
  }

  /** When no cell contains a comma, a row splits back into exactly its
      seven cells. */
  lemma RowHasSevenFields(app: Application, numberText: real -> string, dateText: int -> string)
    requires RowAvoids(app, numberText, dateText, ',')
    ensures Split(Join(Row(app, numberText, dateText), ','), ',') == Row(app, numberText, dateText)
    ensures |Split(Join(Row(app, numberText, dateText), ','), ',')| == 7
  {
    SplitJoin(Row(app, numberText, dateText), ',');
  }

  /** The export does no quoting: a comma inside a name shifts the row to
      eight fields. */
  lemma CommaInNameShiftsColumns(numberText: real -> string, dateText: int -> string)
    requires ',' !in dateText(0)
    ensures var app := Application("a1", Some("Doe, Jane"), Some("j@x"), Some("1"), Some("New"),
                                   None, 0);
      |Split(Join(Row(app, numberText, dateText), ','), ',')| == 8
  {
    var app := Application("a1", Some("Doe, Jane"), Some("j@x"), Some("1"), Some("New"), None, 0);
    var date := dateText(0);
    var tail := ["j@x", "1", "New", "", date];
    var pieces := ["a1", "Doe", " Jane"] + tail;
    var cells := Row(app, numberText, dateText);
    assert cells == ["a1"] + (["Doe, Jane"] + tail);
    assert pieces == ["a1"] + (["Doe"] + ([" Jane"] + tail));
    JoinCons("Doe, Jane", tail, ',');
    JoinCons("a1", ["Doe, Jane"] + tail, ',');
    JoinCons(" Jane", tail, ',');
    JoinCons("Doe", [" Jane"] + tail, ',');
    JoinCons("a1", ["Doe"] + ([" Jane"] + tail), ',');
    assert "Doe, Jane" == "Doe" + [','] + " Jane";
    assert Join(cells, ',') == Join(pieces, ',');
    forall i | 0 <= i < |pieces|
      ensures ',' !in pieces[i]
    {
    }
    SplitJoin(pieces, ',');
  }
}
