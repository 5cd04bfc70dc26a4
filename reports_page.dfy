/** The reports page: which reports a user sees, the status filter, and
    the CSV export, both as the page builds it and with every field
    escaped. */
module ReportsPage {
  import opened Common
  import opened Seqs
  import opened Text

  /** `event_status`. */
  datatype EventStatus = Open | InReview | Validated | Closed

  /** The filter buttons: every status, or one. */
  datatype StatusFilter = AllStatuses | OnlyStatus(status: EventStatus)

  /** An `event_logs` row with the names of its area, line and machine. */
  datatype Report = Report(
    id: string,
    operatorId: string,
    description: Option<string>,
    aiClassifiedFault: Option<string>,
    status: EventStatus,
    createdAt: string,
    areaName: Option<string>,
    lineName: Option<string>,
    machineName: Option<string>)

  /** `statusConfig[status].label`. */
  function StatusLabel(s: EventStatus): (shown: string)
    ensures shown != "" && ',' !in shown && '\n' !in shown
  {
    match s
    case Open => "Abierto"
    case InReview => "En Revisión"
    case Validated => "Validado"
    case Closed => "Cerrado"
  }

  /** Different statuses are shown with different labels. */
  lemma StatusLabelInjective(s: EventStatus, t: EventStatus)
    ensures StatusLabel(s) == StatusLabel(t) <==> s == t
  {
    if s != t {
      assert StatusLabel(s)[0] != StatusLabel(t)[0] || |StatusLabel(s)| != |StatusLabel(t)|;
    }
  }

  /** The query of `loadReports`: administrators and supervisors see every
      report, anyone else only their own. */
  function VisibleReports(all: seq<Report>, userId: string, isAdmin: bool, isSupervisor: bool): (r: seq<Report>)
    ensures isAdmin || isSupervisor ==> r == all
    ensures !isAdmin && !isSupervisor ==> forall x :: x in r <==> x in all && x.operatorId == userId
  {
    if !isAdmin && !isSupervisor then Filter(all, (x: Report) => x.operatorId == userId) else all
  }

  /** `filteredReports`. */
  function FilteredReports(reports: seq<Report>, filter: StatusFilter): (r: seq<Report>)
    ensures filter.AllStatuses? ==> r == reports
    ensures filter.OnlyStatus? ==> forall x :: x in r <==> x in reports && x.status == filter.status
    ensures |r| <= |reports|
  {
    match filter
    case AllStatuses => reports
    case OnlyStatus(s) => Filter(reports, (x: Report) => x.status == s)
  }

  /** Filtering by status keeps the reports' order. */
  lemma FilteredReportsAppend(a: seq<Report>, b: seq<Report>, filter: StatusFilter)
    ensures FilteredReports(a + b, filter) == FilteredReports(a, filter) + FilteredReports(b, filter)
  {
    if filter.OnlyStatus? {
      FilterAppend(a, b, (x: Report) => x.status == filter.status);
    }
  }

  // =====================================================================
  // The export as the page builds it

  const HeaderFields: seq<string> := ["Fecha", "Área", "Línea", "Equipo", "Falla", "Descripción", "Estado"]

  /** The first line of the file, the column names joined with commas. */
  const Header := Join(HeaderFields, ",")

  /** The header line splits into the seven column names. */
  lemma HeaderColumns()
    ensures Split(Header, ',') == HeaderFields
    ensures '\n' !in Header
  {
    forall k | 0 <= k < |HeaderFields|
      ensures ',' !in HeaderFields[k] && '\n' !in HeaderFields[k]
    {
    }
    SplitJoin(HeaderFields, ',');
    JoinAvoids(HeaderFields, ",", '\n');
  }

  /** The seven values of a row: the locale date, the area, line and
      machine names and the classification (`''` when missing), the
      description with its commas turned into `;`, and the status label. */
  function FieldsAsWritten(r: Report, formatDate: string -> string): (f: seq<string>)
    ensures |f| == 7
  {
    [formatDate(r.createdAt), r.areaName.GetOr(""), r.lineName.GetOr(""), r.machineName.GetOr(""),
     r.aiClassifiedFault.GetOr(""), ReplaceChar(r.description.GetOr(""), ',', ';'), StatusLabel(r.status)]
  }

  function RowAsWritten(r: Report, formatDate: string -> string): string {
    Join(FieldsAsWritten(r, formatDate), ",")
  }

  function RowsAsWritten(fr: seq<Report>, formatDate: string -> string): (rows: seq<string>)
    ensures |rows| == |fr|
    ensures forall i :: 0 <= i < |fr| ==> rows[i] == RowAsWritten(fr[i], formatDate)
  {
    seq(|fr|, i requires 0 <= i < |fr| => RowAsWritten(fr[i], formatDate))
  }

  /** `handleExport`: the header, then one row per filtered report, joined
      with newlines. */
  function CsvAsWritten(reports: seq<Report>, filter: StatusFilter, formatDate: string -> string): string {
    Join([Header] + RowsAsWritten(FilteredReports(reports, filter), formatDate), "\n")
  }

  /** The description column never holds a comma. */
  lemma DescriptionHasNoComma(r: Report, formatDate: string -> string)
    ensures ',' !in FieldsAsWritten(r, formatDate)[5]
  {
  }

  /** A comma in the date, or in the area, line or machine name, or in the
      classification, is written as it is: the row then splits into more
      than the header's seven columns. */
  lemma RowAsWrittenShiftsColumns(r: Report, formatDate: string -> string, k: nat)
    requires k < 5 && ',' in FieldsAsWritten(r, formatDate)[k]
    ensures |Split(RowAsWritten(r, formatDate), ',')| > |HeaderFields|
  {
    var f := FieldsAsWritten(r, formatDate);
    JoinCountAtLeast(f, ',', k);
    assert "," == [','];
    SplitCount(RowAsWritten(r, formatDate), ',');
  }

  /** A line break in any field, such as the one the capture form puts
      between the description and a recognised text it could not classify,
      is written as it is: the file then has more lines than the header
      and one per report. */
  lemma CsvAsWrittenSplitsLines(reports: seq<Report>, filter: StatusFilter, formatDate: string -> string, i: nat, k: nat)
    requires i < |FilteredReports(reports, filter)| && k < 7
    requires '\n' in FieldsAsWritten(FilteredReports(reports, filter)[i], formatDate)[k]
    ensures |Split(CsvAsWritten(reports, filter, formatDate), '\n')| > 1 + |FilteredReports(reports, filter)|
  {
    var fr := FilteredReports(reports, filter);
    var rows := RowsAsWritten(fr, formatDate);
    JoinKeepsCount(FieldsAsWritten(fr[i], formatDate), ",", '\n', k);
    assert multiset(rows[i])['\n'] >= 1;
    ExtraLineBreak(Header, rows, i);
  }

  /** Whatever the reports hold, the first line of the page's file is the
      header. */
  lemma CsvAsWrittenFirstLine(reports: seq<Report>, filter: StatusFilter, formatDate: string -> string)
    ensures Split(CsvAsWritten(reports, filter, formatDate), '\n')[0] == Header
  {
    HeaderColumns();
    FirstLine(Header, RowsAsWritten(FilteredReports(reports, filter), formatDate));
  }

  /** The first piece of a newline-joined list is its first line. */
  lemma FirstLine(first: string, rest: seq<string>)
    requires '\n' !in first
    ensures Split(Join([first] + rest, "\n"), '\n')[0] == first
  {
    var s := Join([first] + rest, "\n");
    if rest != [] {
      assert ([first] + rest)[1..] == rest;
      assert s == first + "\n" + Join(rest, "\n");
      assert s[|first|] == '\n' && s[..|first|] == first;
      assert IndexOf(s, '\n') == |first|;
    } else {
      assert s == first;
    }
  }

  /** One line break inside a line adds a piece to the split. */
  lemma ExtraLineBreak(first: string, rest: seq<string>, i: nat)
    requires i < |rest| && multiset(rest[i])['\n'] >= 1
    ensures |Split(Join([first] + rest, "\n"), '\n')| > 1 + |rest|
  {
    var lines := [first] + rest;
    assert lines[i + 1] == rest[i];
    assert "\n" == ['\n'];
    JoinCountAtLeast(lines, '\n', i + 1);
    SplitCount(Join(lines, "\n"), '\n');
  }

  // =====================================================================
  // The export with every field escaped

  /** A field with its commas turned into `;` and its line breaks into
      spaces. */
  function Escape(s: string): (r: string)
    ensures |r| == |s| && ',' !in r && '\n' !in r
    ensures ',' !in s && '\n' !in s ==> r == s
  {
    ReplaceChar(ReplaceChar(s, ',', ';'), '\n', ' ')
  }

  function Fields(r: Report, formatDate: string -> string): (f: seq<string>)
    ensures |f| == 7
  {
    [Escape(formatDate(r.createdAt)), Escape(r.areaName.GetOr("")), Escape(r.lineName.GetOr("")),
     Escape(r.machineName.GetOr("")), Escape(r.aiClassifiedFault.GetOr("")),
     Escape(r.description.GetOr("")), StatusLabel(r.status)]
  }

  function Row(r: Report, formatDate: string -> string): string {
    Join(Fields(r, formatDate), ",")
  }

  function Rows(fr: seq<Report>, formatDate: string -> string): (rows: seq<string>)
    ensures |rows| == |fr|
    ensures forall i :: 0 <= i < |fr| ==> rows[i] == Row(fr[i], formatDate)
  {
    seq(|fr|, i requires 0 <= i < |fr| => Row(fr[i], formatDate))
  }

  function Csv(reports: seq<Report>, filter: StatusFilter, formatDate: string -> string): string {
    Join([Header] + Rows(FilteredReports(reports, filter), formatDate), "\n")
  }

  /** Every escaped row splits back into its seven fields. */
  lemma RowColumns(r: Report, formatDate: string -> string)
    ensures Split(Row(r, formatDate), ',') == Fields(r, formatDate)
    ensures '\n' !in Row(r, formatDate)
  {
    var f := Fields(r, formatDate);
    assert Row(r, formatDate) == Join(f, [',']);
    forall k | 0 <= k < |f| ensures ',' !in f[k] && '\n' !in f[k] {
      if k == 6 {
        assert f[k] == StatusLabel(r.status);
      }
    }
    SplitJoin(f, ',');
    JoinAvoids(f, ",", '\n');
  }

  /** The escaped file has exactly the header line and one line per
      filtered report, in order. */
  lemma CsvLines(reports: seq<Report>, filter: StatusFilter, formatDate: string -> string)
    ensures var fr := FilteredReports(reports, filter);
      var lines := Split(Csv(reports, filter, formatDate), '\n');
      && |lines| == 1 + |fr|
      && lines[0] == Header
      && forall i :: 0 <= i < |fr| ==> lines[i + 1] == Row(fr[i], formatDate)
  {
    var fr := FilteredReports(reports, filter);
    var rows := Rows(fr, formatDate);
    assert '\n' !in Header by {
      HeaderColumns();
    }
    forall k | 0 <= k < |rows|
      ensures '\n' !in rows[k]
    {
      RowColumns(fr[k], formatDate);
    }
    var lines := Split(Csv(reports, filter, formatDate), '\n');
    assert lines == [Header] + rows by {
      LinesSplit(Header, rows);
    }
  }

  /** Lines without line breaks, joined with newlines, split back apart. */
  lemma LinesSplit(first: string, rest: seq<string>)
    requires '\n' !in first
    requires forall k :: 0 <= k < |rest| ==> '\n' !in rest[k]
    ensures Split(Join([first] + rest, "\n"), '\n') == [first] + rest
  {
    var lines := [first] + rest;
    NoSeparatorInLines(first, rest, '\n');
    assert "\n" == ['\n'];
    SplitJoin(lines, '\n');
  }

  lemma NoSeparatorInLines(first: string, rest: seq<string>, sep: char)
    requires sep !in first
    requires forall k :: 0 <= k < |rest| ==> sep !in rest[k]
    ensures forall k :: 0 <= k < |[first] + rest| ==> sep !in ([first] + rest)[k]
  {
    var lines := [first] + rest;
    forall k | 0 <= k < |lines|
      ensures sep !in lines[k]
    {
      if k > 0 {
        assert lines[k] == rest[k - 1];
      }
    }
  }

  /** Where no field holds a comma or a line break the escaped export is
      the page's own. */
  lemma CsvAgreesOnPlainFields(reports: seq<Report>, filter: StatusFilter, formatDate: string -> string)
    requires forall r :: r in FilteredReports(reports, filter) ==>
      forall k :: 0 <= k < 7 ==> ',' !in FieldsAsWritten(r, formatDate)[k] && '\n' !in FieldsAsWritten(r, formatDate)[k]
    ensures Csv(reports, filter, formatDate) == CsvAsWritten(reports, filter, formatDate)
  {
    var fr := FilteredReports(reports, filter);
    var rows := Rows(fr, formatDate);
    var written := RowsAsWritten(fr, formatDate);
    forall i | 0 <= i < |fr|
      ensures rows[i] == written[i]
    {
      assert fr[i] in fr;
      RowAgreesOnPlainFields(fr[i], formatDate);
    }
    assert rows == written;
  }

  /** A row without commas or line breaks in its fields is escaped to
      itself. */
  lemma RowAgreesOnPlainFields(r: Report, formatDate: string -> string)
    requires forall k :: 0 <= k < 7 ==> ',' !in FieldsAsWritten(r, formatDate)[k] && '\n' !in FieldsAsWritten(r, formatDate)[k]
    ensures Row(r, formatDate) == RowAsWritten(r, formatDate)
  {
    var a := FieldsAsWritten(r, formatDate);
    var f := Fields(r, formatDate);
    var t := ReplaceChar(r.description.GetOr(""), ',', ';');
    assert a[5] == t && '\n' !in t;
    assert ReplaceChar(t, '\n', ' ') == t;
    forall k | 0 <= k < 7 ensures f[k] == a[k] {
      assert ',' !in a[k] && '\n' !in a[k];
    }
    assert f == a;
  }
}
