/**
 * The Bugzilla harvesting helpers: the CSV issue listing (one line per bug), the
 * listing and detail query URLs, the index name, and the cutting of the id list
 * into detail queries.
 */
module BugzillaListing {
  import opened Results
  import opened Text
  import opened Chunking

  /** The column names of a listing line, in order. */
  const ListFields: seq<string> :=
    ["bug_id", "product", "component", "assigned_to", "bug_status", "resolution", "short_desc", "changeddate"]

  /** A listing line after `,","` is collapsed to `","` and the result cut at every `,"`. */
  function ListPieces(line: string): (r: seq<string>)
    ensures |r| >= 1
  {
    Split(Replace(line, ",\",\"", "\",\""), ",\"")
  }

  /** A piece with at most one trailing `"` removed. */
  function Unquoted(item: string): (r: string)
    ensures r == item || (item == r + "\"")
  {
    if |item| >= 1 && item[|item| - 1] == '"' then item[..|item| - 1] else item
  }

  /** The value stored under a column: the unquoted piece, or for changeddate its parsed ISO date (the raw piece when it does not parse). */
  function ColumnValue(field: string, piece: string, isoDate: string -> Option<string>): string
  {
    var item := Unquoted(piece);
    if field == "changeddate" && isoDate(item).Some? then isoDate(item).value else item
  }

  /** The number of columns a line fills: one per piece, at most eight (the ninth raises and is caught). */
  function FilledColumns(line: string): (r: nat)
    ensures 1 <= r <= |ListFields|
    ensures r == |ListPieces(line)| || r == |ListFields|
    ensures r <= |ListPieces(line)|
  {
    if |ListPieces(line)| < |ListFields| then |ListPieces(line)| else |ListFields|
  }

  lemma ListFieldsDistinct()
    ensures forall i, j :: 0 <= i < j < |ListFields| ==> ListFields[i] != ListFields[j]
  {
  }

  /** No column name before column j is the name of column j. */
  lemma FieldsBeforeDiffer(j: nat)
    requires j < |ListFields|
    ensures forall i :: 0 <= i < j ==> ListFields[i] != ListFields[j]
  {
    ListFieldsDistinct();
  }

  /** The record a listing line gives: its first FilledColumns(line) pieces under the column names. */
  function ListRecord(line: string, isoDate: string -> Option<string>): map<string, string> {
    Columns(ListPieces(line), FilledColumns(line), isoDate)
  }

  /** The first n pieces stored under the first n column names, in order. */
  function Columns(pieces: seq<string>, n: nat, isoDate: string -> Option<string>): map<string, string>
    requires n <= |pieces| && n <= |ListFields|
    decreases n
  {
    if n == 0 then map[]
    else Columns(pieces, n - 1, isoDate)[ListFields[n - 1] := ColumnValue(ListFields[n - 1], pieces[n - 1], isoDate)]
  }

  /** The keys of Columns(pieces, n) are exactly the first n column names. */
  lemma {:induction false} ColumnsKeys(pieces: seq<string>, n: nat, isoDate: string -> Option<string>)
    requires n <= |pieces| && n <= |ListFields|
    ensures forall k :: k in Columns(pieces, n, isoDate) <==> k in ListFields[..n]
    decreases n
  {
    if n > 0 {
      ColumnsKeys(pieces, n - 1, isoDate);
      assert ListFields[..n] == ListFields[..n - 1] + [ListFields[n - 1]];
    }
  }

  /** Column i of Columns(pieces, n) holds the value of piece i. */
  lemma {:induction false} ColumnsValues(pieces: seq<string>, n: nat, isoDate: string -> Option<string>)
    requires n <= |pieces| && n <= |ListFields|
    ensures forall i :: 0 <= i < n ==>
      ListFields[i] in Columns(pieces, n, isoDate) &&
      Columns(pieces, n, isoDate)[ListFields[i]] == ColumnValue(ListFields[i], pieces[i], isoDate)
    decreases n
  {
    if n > 0 {
      ColumnsValues(pieces, n - 1, isoDate);
      FieldsBeforeDiffer(n - 1);
    }
  }

  lemma ColumnsStep(pieces: seq<string>, i: nat, isoDate: string -> Option<string>)
    requires i < |pieces| && i < |ListFields|
    ensures Columns(pieces, i + 1, isoDate) == Columns(pieces, i, isoDate)[ListFields[i] := ColumnValue(ListFields[i], pieces[i], isoDate)]
  {
  }

  /**
   * get_issue_from_list_line: the pieces are stored under the column names in order; the
   * loop stops at the first piece without a column, and a changeddate that does not
   * parse keeps its raw text (changeddate is the last column, so stopping there ends
   * the loop anyway); both errors are logged and swallowed.
   */
  method IssueFromListLine(line: string, isoDate: string -> Option<string>) returns (data: map<string, string>)
    ensures data == ListRecord(line, isoDate)
  {
    data := StoreColumns(ListPieces(line), isoDate);
  }

  /** The loop of get_issue_from_list_line over the pieces of the line. */
  method StoreColumns(pieces: seq<string>, isoDate: string -> Option<string>) returns (data: map<string, string>)
    ensures data == Columns(pieces, if |pieces| < |ListFields| then |pieces| else |ListFields|, isoDate)
  {
    data := map[];
    var i := 0;
    while i < |pieces|
      invariant 0 <= i <= |pieces| && i <= |ListFields|
      invariant data == Columns(pieces, i, isoDate)
    {
      if i >= |ListFields| {
        break;
      }
      var field := ListFields[i];
      var item := Unquoted(pieces[i]);
      var value := item;
      if field == "changeddate" {
        var parsed := isoDate(item);
        if parsed.Some? {
          value := parsed.value;
        }
      }
      assert value == ColumnValue(field, pieces[i], isoDate);
      ColumnsStep(pieces, i, isoDate);
      data := data[field := value];
      i := i + 1;
    }
  }

  /**
   * The record of a line: the keys are exactly the first FilledColumns(line) column names
   * (so bug_id always, changeddate only when the line has all eight pieces), each holding
   * its piece's value.
   */
  lemma ListRecordFields(line: string, isoDate: string -> Option<string>)
    ensures forall k :: k in ListRecord(line, isoDate) <==> k in ListFields[..FilledColumns(line)]
    ensures forall i :: 0 <= i < FilledColumns(line) ==>
      ListFields[i] in ListRecord(line, isoDate) &&
      ListRecord(line, isoDate)[ListFields[i]] == ColumnValue(ListFields[i], ListPieces(line)[i], isoDate)
    ensures "bug_id" in ListRecord(line, isoDate)
    ensures "changeddate" in ListRecord(line, isoDate) <==> |ListPieces(line)| >= |ListFields|
  {
    var pieces := ListPieces(line);
    var n := FilledColumns(line);
    ColumnsKeys(pieces, n, isoDate);
    ColumnsValues(pieces, n, isoDate);
    assert ListFields[..n][0] == "bug_id";
    if |pieces| >= |ListFields| {
      assert ListFields[..n][7] == "changeddate";
    } else {
      ListFieldsDistinct();
      assert ListFields[7] == "changeddate";
      assert forall k :: 0 <= k < n ==> ListFields[..n][k] != "changeddate";
    }
  }

  /** A value that a CSV column can carry unescaped: no comma and no double quote. */
  predicate PlainValue(v: string) {
    ',' !in v && '"' !in v
  }

  /** The quoted columns of a Bugzilla CSV line. */
  function Quoted(vs: seq<string>): (r: seq<string>)
    ensures |r| == |vs| && forall k :: 0 <= k < |vs| ==> r[k] == "\"" + vs[k] + "\""
  {
    seq(|vs|, k requires 0 <= k < |vs| => "\"" + vs[k] + "\"")
  }

  /** The CSV line Bugzilla writes for a bug: the id bare, the other columns in double quotes, all separated by commas. */
  function CsvLine(vals: seq<string>): string
    requires |vals| >= 1
  {
    Join([vals[0]] + Quoted(vals[1..]), ",")
  }

  /** Each value followed by its closing quote: the pieces a CSV line splits into after the first. */
  function Closed(vs: seq<string>): (r: seq<string>)
    ensures |r| == |vs| && forall k :: 0 <= k < |vs| ==> r[k] == vs[k] + "\""
  {
    seq(|vs|, k requires 0 <= k < |vs| => vs[k] + "\"")
  }

  lemma JoinQuoteFirst(first: string, rest: seq<string>, sep: string)
    ensures Join(["\"" + first] + rest, sep) == "\"" + Join([first] + rest, sep)
  {
    if rest != [] {
      assert (["\"" + first] + rest)[1..] == rest;
      assert ([first] + rest)[1..] == rest;
    }
  }

  /** Joining the bare column with quoted ones: the first separator and quote come out as `,"`. */
  lemma JoinQuotedStep(a: string, vs: seq<string>)
    requires |vs| >= 1
    ensures Join([a] + Quoted(vs), ",") == a + ",\"" + Join([vs[0] + "\""] + Quoted(vs[1..]), ",")
  {
    var a' := vs[0] + "\"";
    assert "\"" + vs[0] + "\"" == "\"" + a';
    assert Quoted(vs)[0] == "\"" + a';
    assert Quoted(vs)[1..] == Quoted(vs[1..]);
    assert Quoted(vs) == ["\"" + a'] + Quoted(vs[1..]);
    assert ([a] + Quoted(vs))[1..] == Quoted(vs);
    JoinQuoteFirst(a', Quoted(vs[1..]), ",");
    var x := Join([a'] + Quoted(vs[1..]), ",");
    assert a + "," + ("\"" + x) == a + ",\"" + x;
  }

  lemma ClosedPlain(v: string)
    requires PlainValue(v)
    ensures ',' !in v + "\""
  {
  }

  lemma ClosedCons(vs: seq<string>)
    requires |vs| >= 1
    ensures Closed(vs) == [vs[0] + "\""] + Closed(vs[1..])
  {
  }

  lemma {:induction false} SplitQuotedColumns(a: string, vs: seq<string>)
    requires ',' !in a
    requires forall k :: 0 <= k < |vs| ==> PlainValue(vs[k])
    ensures Split(Join([a] + Quoted(vs), ","), ",\"") == [a] + Closed(vs)
    decreases |vs|
  {
    if vs == [] {
      assert [a] + Quoted(vs) == [a];
      SplitWithoutFirst(a, ",\"");
    } else {
      var a' := vs[0] + "\"";
      var rest := vs[1..];
      JoinQuotedStep(a, vs);
      SplitAfterText(a, ",\"", Join([a'] + Quoted(rest), ","));
      ClosedPlain(vs[0]);
      SplitQuotedColumns(a', rest);
      ClosedCons(vs);
    }
  }

  /** In a line of plain values a comma is always followed by a quote and then not by a comma. */
  lemma NoCollapsedComma(vals: seq<string>)
    requires |vals| >= 1 && forall k :: 0 <= k < |vals| ==> PlainValue(vals[k])
    ensures !Contains(CsvLine(vals), ",\",\"")
  {
    var parts := [vals[0]] + Quoted(vals[1..]);
    var s := CsvLine(vals);
    assert s == Join(parts, ",");
    CommasQuoted(parts);
    var p := ",\",\"";
    assert p[0] == ',' && p[2] == ',';
    forall j | 0 <= j ensures !OccursAt(s, p, j) {
      if j + 4 <= |s| {
        var w := s[j..j + 4];
        assert w[0] == s[j] && w[2] == s[j + 2];
        if s[j] == ',' {
          assert s[j + 2] != ',';
        }
      }
    }
  }

  /** A join of a bare first column and quoted plain columns: each comma is followed by a quote and a non-comma. */
  lemma {:induction false} CommasQuoted(parts: seq<string>)
    requires |parts| >= 1 && ',' !in parts[0]
    requires forall k :: 1 <= k < |parts| ==> |parts[k]| >= 2 && parts[k][0] == '"' && ',' !in parts[k]
    ensures var s := Join(parts, ",");
      forall i :: 0 <= i < |s| && s[i] == ',' ==> i + 2 < |s| && s[i + 1] == '"' && s[i + 2] != ','
    decreases |parts|
  {
    if |parts| > 1 {
      var p := parts[0];
      var rest := parts[1..];
      assert forall k :: 0 <= k < |rest| ==> rest[k] == parts[k + 1];
      CommasQuoted(rest);
      var t := Join(rest, ",");
      var s := Join(parts, ",");
      assert s == p + "," + t;
      assert |t| >= 2 && t[0] == '"' && t[1] != ',' by {
        JoinHead(rest);
      }
      forall i | 0 <= i < |s| && s[i] == ',' ensures i + 2 < |s| && s[i + 1] == '"' && s[i + 2] != ',' {
        if i > |p| {
          var j := i - |p| - 1;
          assert s[i] == t[j];
          assert t[j] == ',';
          assert j + 2 < |t| && t[j + 1] == '"' && t[j + 2] != ',';
          assert s[i + 1] == t[j + 1] && s[i + 2] == t[j + 2];
        }
      }
    }
  }

  lemma JoinHead(parts: seq<string>)
    requires |parts| >= 1 && |parts[0]| >= 2
    ensures |Join(parts, ",")| >= 2 && Join(parts, ",")[..2] == parts[0][..2]
  {
  }

  /**
   * A line of plain values under the column names reads back: the first eight values
   * under the column names in order, changeddate parsed when it parses.
   */
  lemma ListLineRoundTrip(vals: seq<string>, isoDate: string -> Option<string>)
    requires 1 <= |vals| <= |ListFields|
    requires forall k :: 0 <= k < |vals| ==> PlainValue(vals[k])
    ensures forall k :: k in ListRecord(CsvLine(vals), isoDate) <==> k in ListFields[..|vals|]
    ensures forall i :: 0 <= i < |vals| ==>
      ListFields[i] in ListRecord(CsvLine(vals), isoDate) &&
      ListRecord(CsvLine(vals), isoDate)[ListFields[i]] ==
        if ListFields[i] == "changeddate" && isoDate(vals[i]).Some? then isoDate(vals[i]).value else vals[i]
  {
    var line := CsvLine(vals);
    var pieces := ListPieces(line);
    CsvLinePieces(vals);
    forall i | 0 <= i < |vals| ensures Unquoted(pieces[i]) == vals[i] {
      if i > 0 {
        assert pieces[i] == vals[i] + "\"";
        assert (vals[i] + "\"")[..|vals[i]|] == vals[i];
      }
    }
    ListRecordFields(line, isoDate);
  }

  /** A CSV line of plain values is cut into the bare id and the other values with their closing quotes. */
  lemma CsvLinePieces(vals: seq<string>)
    requires |vals| >= 1
    requires forall k :: 0 <= k < |vals| ==> PlainValue(vals[k])
    ensures ListPieces(CsvLine(vals)) == [vals[0]] + Closed(vals[1..])
  {
    var line := CsvLine(vals);
    NoCollapsedComma(vals);
    ReplaceAbsent(line, ",\",\"", "\",\"");
    assert forall k :: 0 <= k < |vals[1..]| ==> PlainValue(vals[1..][k]);
    SplitQuotedColumns(vals[0], vals[1..]);
  }

  /** One `[issue_id, change_ts]` pair of the listing. */
  datatype IssueRef = IssueRef(id: string, changeTs: string)

  /** The pair of one line: the text before its first comma, and its last comma-separated piece without surrounding quotes. */
  function LineRef(line: string): IssueRef {
    var values := Split(line, ",");
    IssueRef(values[0], StripChar(values[|values| - 1], '"'))
  }

  /** The listing lines: every line of the response after the header line. */
  function ListingLines(content: string): seq<string> {
    Split(content, "\n")[1..]
  }

  /** The loop of retrieve_issues_ids: one pair per listing line, in order. */
  method RetrieveIssuesIds(content: string) returns (ids: seq<IssueRef>)
    ensures |ids| == |ListingLines(content)|
    ensures forall k :: 0 <= k < |ids| ==> ids[k] == LineRef(ListingLines(content)[k])
  {
    var csv := ListingLines(content);
    ids := [];
    var k := 0;
    while k < |csv|
      invariant 0 <= k <= |csv|
      invariant |ids| == k
      invariant forall j :: 0 <= j < k ==> ids[j] == LineRef(csv[j])
    {
      ids := ids + [LineRef(csv[k])];
      k := k + 1;
    }
  }

  /** The pair read from a line of plain values is its id and its last value: both parsers agree. */
  lemma LineRefOfCsvLine(vals: seq<string>)
    requires |vals| >= 1 && forall k :: 0 <= k < |vals| ==> PlainValue(vals[k])
    ensures LineRef(CsvLine(vals)) == IssueRef(vals[0], vals[|vals| - 1])
  {
    CsvLineCommas(vals);
    if |vals| > 1 {
      QuotesStripped(vals[|vals| - 1]);
    } else {
      assert PlainValue(vals[0]);
      if vals[0] != [] {
        assert vals[0][0] in vals[0] && vals[0][|vals[0]| - 1] in vals[0];
      }
      StripCharKeeps(vals[0], '"');
    }
  }

  /** Cutting a CSV line of plain values at its commas gives the bare id and the quoted values. */
  lemma CsvLineCommas(vals: seq<string>)
    requires |vals| >= 1 && forall k :: 0 <= k < |vals| ==> PlainValue(vals[k])
    ensures Split(CsvLine(vals), ",") == [vals[0]] + Quoted(vals[1..])
  {
    var parts := [vals[0]] + Quoted(vals[1..]);
    forall k | 0 <= k < |parts| ensures ',' !in parts[k] {
      if k > 0 {
        assert parts[k] == "\"" + vals[k] + "\"";
      }
    }
    JoinSplit(parts, ',');
  }

  lemma QuotesStripped(v: string)
    requires '"' !in v
    ensures StripChar("\"" + v + "\"", '"') == v
  {
    var s := "\"" + v + "\"";
    assert s[1..] == v + "\"";
    if v == [] {
      assert s == "\"\"";
    } else {
      assert v[0] in v;
      assert TrimCharStart(v + "\"", '"') == v + "\"";
      assert (v + "\"")[..|v|] == v;
      assert v[|v| - 1] in v;
      assert TrimCharEnd(v, '"') == v;
    }
  }

  /** Bugzilla versions whose listing needs the old query form. */
  predicate OldVersion(version: string) {
    version == "3.2.3" || version == "3.2.2"
  }

  /**
   * get_issues_list_url. `later` parses a date, adds one second and renders it with a
   * space between day and time; it gives None when the text does not parse (the code
   * re-raises). The old query form keeps only the day, which needs a space in that text.
   */
  function IssuesListUrl(baseUrl: string, version: string, fromDate: Option<string>,
                         later: string -> Option<string>): (r: Result<string>)
    ensures fromDate.Some? && later(fromDate.value).None? ==> r.Err?
  {
    var from :- if fromDate.None? then Ok(None)
                else if later(fromDate.value).None? then Err(DateError(fromDate.value))
                else Ok(later(fromDate.value));
    var url := baseUrl + (if Contains(baseUrl, "?") then "&" else "?");
    if OldVersion(version) then
      var day :- if from.Some? && from.value != "" then
                   (match Find(from.value, " ")
                    case None => Err(ValueError)
                    case Some(i) => Ok(from.value[..i]))
                 else Ok("1970-01-01");
      Ok(url + ListQuery(version, day))
    else
      var day := if from.Some? && from.value != "" then Replace(from.value, " ", "%20") else "1970-01-01";
      Ok(url + ListQuery(version, day))
  }

  /** The text of the query string of a listing URL: the order for the version and the start day. */
  function ListQuery(version: string, day: string): string {
    (if OldVersion(version) then "order=Last+Changed&ctype=csv" else "order=changeddate&ctype=csv") + "&chfieldfrom=" + day
  }

  /** Without a start date the listing starts on 1970-01-01, after `&` when the base has a query and `?` otherwise. */
  lemma ListUrlFromEpoch(baseUrl: string, version: string, later: string -> Option<string>)
    ensures IssuesListUrl(baseUrl, version, None, later) ==
      Ok(baseUrl + (if Contains(baseUrl, "?") then "&" else "?") + ListQuery(version, "1970-01-01"))
  {
  }

  /**
   * With a start date the day is the bumped date: for the old versions its part before the
   * first space (an error when it has none), otherwise all of it with every space as %20.
   */
  lemma ListUrlFromDate(baseUrl: string, version: string, date: string, later: string -> Option<string>)
    requires later(date).Some? && later(date).value != ""
    ensures var d := later(date).value;
      var prefix := baseUrl + (if Contains(baseUrl, "?") then "&" else "?");
      && (OldVersion(version) && !Contains(d, " ") ==> IssuesListUrl(baseUrl, version, Some(date), later) == Err(ValueError))
      && (OldVersion(version) && Contains(d, " ") ==>
            IssuesListUrl(baseUrl, version, Some(date), later) == Ok(prefix + ListQuery(version, d[..Find(d, " ").value])))
      && (!OldVersion(version) ==>
            IssuesListUrl(baseUrl, version, Some(date), later) == Ok(prefix + ListQuery(version, Replace(d, " ", "%20"))))
  {
  }

  /** The start day in a listing URL never holds a space. */
  lemma ListDayHasNoSpace(date: string, version: string)
    ensures !OldVersion(version) ==> ' ' !in Replace(date, " ", "%20")
    ensures OldVersion(version) && Contains(date, " ") ==> ' ' !in date[..Find(date, " ").value]
  {
    ReplaceCharGone(date, ' ', "%20");
    if Contains(date, " ") {
      var i := Find(date, " ").value;
      forall j | 0 <= j < i ensures date[j] != ' ' {
        assert !OccursAt(date, " ", j);
        assert date[j..j + 1] == [date[j]];
      }
    }
  }

  /** The query part of a detail URL: one `id=` per id, then the format and the excluded field. */
  function InfoQuery(ids: seq<IssueRef>): (r: seq<string>)
    ensures |r| == |ids| + 2
    ensures forall k :: 0 <= k < |ids| ==> r[k] == "id=" + ids[k].id
    ensures r[|ids|] == "ctype=xml" && r[|ids| + 1] == "excludefield=attachmentdata"
  {
    seq(|ids|, k requires 0 <= k < |ids| => "id=" + ids[k].id) + ["ctype=xml", "excludefield=attachmentdata"]
  }

  /** get_issues_info_url: the detail URL asks for every id in order, `&`-separated. */
  method IssuesInfoUrl(baseUrl: string, ids: seq<IssueRef>) returns (url: string)
    ensures url == baseUrl + "show_bug.cgi?" + Join(InfoQuery(ids), "&")
  {
    url := baseUrl + "show_bug.cgi?";
    var k := 0;
    while k < |ids|
      invariant 0 <= k <= |ids|
      invariant url == baseUrl + "show_bug.cgi?" + IdParams(ids[..k])
    {
      assert ids[..k + 1] == ids[..k] + [ids[k]];
      IdParamsSnoc(ids[..k], ids[k]);
      url := url + "id=" + ids[k].id + "&";
      k := k + 1;
    }
    assert ids[..k] == ids;
    var head, p := baseUrl + "show_bug.cgi?", IdParams(ids);
    url := url + "ctype=xml";
    url := url + "&" + "excludefield=attachmentdata";
    InfoQueryJoin(ids);
    assert url == head + (p + "ctype=xml" + "&" + "excludefield=attachmentdata");
  }

  /** `id=<id>&` for each id. */
  function IdParams(ids: seq<IssueRef>): string
    decreases |ids|
  {
    if ids == [] then "" else "id=" + ids[0].id + "&" + IdParams(ids[1..])
  }

  lemma {:induction false} IdParamsSnoc(ids: seq<IssueRef>, i: IssueRef)
    ensures IdParams(ids + [i]) == IdParams(ids) + "id=" + i.id + "&"
    decreases |ids|
  {
    if ids == [] {
      assert IdParams([i]) == "id=" + i.id + "&" + IdParams([]);
    } else {
      assert (ids + [i])[1..] == ids[1..] + [i];
      IdParamsSnoc(ids[1..], i);
    }
  }

  /** One `id=` parameter per id. */
  function IdItems(ids: seq<IssueRef>): (r: seq<string>)
    ensures |r| == |ids| && forall k :: 0 <= k < |ids| ==> r[k] == "id=" + ids[k].id
  {
    seq(|ids|, k requires 0 <= k < |ids| => "id=" + ids[k].id)
  }

  /** Writing `id=<id>&` per id in front of a joined tail is joining the parameters with the tail. */
  lemma {:induction false} IdParamsJoin(ids: seq<IssueRef>, tail: seq<string>)
    requires |tail| >= 1
    ensures IdParams(ids) + Join(tail, "&") == Join(IdItems(ids) + tail, "&")
    decreases |ids|
  {
    if ids == [] {
      assert IdItems(ids) + tail == tail;
    } else {
      IdParamsJoin(ids[1..], tail);
      var x := "id=" + ids[0].id;
      var p := IdParams(ids[1..]);
      var all := IdItems(ids) + tail;
      assert all[0] == x;
      assert all[1..] == IdItems(ids[1..]) + tail;
      assert Join(all, "&") == x + "&" + Join(all[1..], "&");
      assert IdParams(ids) == x + "&" + p;
    }
  }

  lemma JoinPair(a: string, b: string, sep: string)
    ensures Join([a, b], sep) == a + sep + b
  {
    assert [a, b][1..] == [b];
  }

  lemma InfoQueryJoin(ids: seq<IssueRef>)
    ensures IdParams(ids) + "ctype=xml" + "&" + "excludefield=attachmentdata" == Join(InfoQuery(ids), "&")
  {
    var x, y := "ctype=xml", "excludefield=attachmentdata";
    assert InfoQuery(ids) == IdItems(ids) + [x, y];
    IdParamsJoin(ids, [x, y]);
    JoinPair(x, y, "&");
    var p := IdParams(ids);
    assert p + (x + "&" + y) == p + x + "&" + y;
  }

  /** When no id holds `&`, cutting the query at `&` gives back one `id=` per id, in order. */
  lemma InfoQuerySplits(ids: seq<IssueRef>)
    requires forall k :: 0 <= k < |ids| ==> '&' !in ids[k].id
    ensures Split(Join(InfoQuery(ids), "&"), "&") == InfoQuery(ids)
  {
    var q := InfoQuery(ids);
    forall k | 0 <= k < |q| ensures '&' !in q[k] {
      if k < |ids| {
        assert q[k] == "id=" + ids[k].id;
      }
    }
    JoinSplit(q, '&');
  }

  /** `s[:-1]`. */
  function DropLast(s: string): string {
    if |s| == 0 then s else s[..|s| - 1]
  }

  /**
   * get_bugzilla_index. `domain` is get_domain(url) (urlparse and urljoin, outside this
   * model). The index is the domain after its scheme, with the product of the URL when it
   * names one, every `/` as `_` and upper case letters lowered.
   */
  function BugzillaIndex(domain: string, url: string): (r: Result<string>)
    ensures r.Ok? ==> '/' !in r.value
    ensures r.Ok? ==> forall i :: 0 <= i < |r.value| ==> !('A' <= r.value[i] <= 'Z')
    ensures r.Err? <==> |Split(DropLast(domain), "://")| < 2 || (Contains(url, "product") && |Split(url, "product=")| < 2)
  {
    var hosts := Split(DropLast(domain), "://");
    if |hosts| < 2 then Err(IndexError)
    else
      var products := Split(url, "product=");
      var index :- if !Contains(url, "product") then Ok(hosts[1])
                   else if |products| < 2 then Err(IndexError)
                   else Ok(hosts[1] + "-" + products[1]);
      var flat := Replace(index, "/", "_");
      ReplaceCharGone(index, '/', "_");
      LowerKeeps(flat, '/');
      Ok(Lower(flat))
  }

  /**
   * The index itself, for a domain `<scheme>://<host>/`: the host, then, when the URL
   * names a product, `-` and the text after its first `product=` up to any further
   * `product=` (all of the rest when there is none), with every `/` as `_`, lowered.
   */
  lemma BugzillaIndexValue(scheme: string, host: string, url: string)
    requires ':' !in scheme && !Contains(host, "://")
    ensures var domain := scheme + "://" + host + "/";
      !Contains(url, "product") ==> BugzillaIndex(domain, url) == Ok(Lower(Replace(host, "/", "_")))
    ensures var domain := scheme + "://" + host + "/";
      Find(url, "product=").Some? ==>
        var tail := url[Find(url, "product=").value + 8..];
        BugzillaIndex(domain, url) == Ok(Lower(Replace(host + "-" + Split(tail, "product=")[0], "/", "_"))) &&
        (!Contains(tail, "product=") ==> BugzillaIndex(domain, url) == Ok(Lower(Replace(host + "-" + tail, "/", "_"))))
  {
    var domain := scheme + "://" + host + "/";
    assert DropLast(domain) == scheme + "://" + host;
    SplitAfterText(scheme, "://", host);
    SplitFirst(host, "://");
    assert Split(DropLast(domain), "://")[1] == host;
    if Find(url, "product=").Some? {
      var i := Find(url, "product=").value;
      assert url[i..i + 7] == url[i..i + 8][..7];
      assert OccursAt(url, "product", i);
      assert Contains(url, "product");
      var tail := url[i + 8..];
      assert Split(url, "product=") == [url[..i]] + Split(tail, "product=");
      SplitFirst(tail, "product=");
    }
  }

  lemma LowerKeeps(s: string, c: char)
    requires c !in s && !('A' <= c <= 'Z') && !('a' <= c <= 'z')
    ensures c !in Lower(s)
  {
    forall i | 0 <= i < |s| ensures Lower(s)[i] != c {
      assert Lower(s)[i] == LowerChar(s[i]);
    }
  }

  /** The id list retrieve_issues consumes in place. */
  class IdList {
    var items: seq<IssueRef>

    constructor (items: seq<IssueRef>)
      ensures this.items == items
    {
      this.items := items;
    }
  }

  function Reverse<T>(s: seq<T>): (r: seq<T>)
    ensures |r| == |s|
    decreases |s|
  {
    if s == [] then [] else Reverse(s[1..]) + [s[0]]
  }

  /**
   * The batching of retrieve_issues: the list is reversed in place and popped from its end
   * into queries of at most perQuery ids, so the queries take the ids oldest first, in
   * consecutive runs, and the caller's list ends up empty.
   */
  method RetrieveBatches(ids: IdList, perQuery: int) returns (queries: seq<seq<IssueRef>>)
    requires perQuery >= 1
    modifies ids
    ensures ids.items == []
    ensures queries == Chunks(old(ids.items), perQuery as nat)
  {
    ghost var original := ids.items;
    ids.items := Reverse(ids.items);
    queries := [];
    ghost var rest := original;
    while |ids.items| > 0
      invariant ids.items == Reverse(rest)
      invariant queries + Chunks(rest, perQuery as nat) == Chunks(original, perQuery as nat)
      decreases |ids.items|
    {
      var query := PopQuery(ids, perQuery, rest);
      ChunksHead(rest, perQuery as nat, query);
      queries := queries + [query];
      rest := rest[|query|..];
    }
    assert rest == [];
  }

  /** Popping the last of a reversed list takes the first element and leaves the rest reversed. */
  lemma ReversePop<T>(x: seq<T>)
    requires x != []
    ensures Reverse(x)[|x| - 1] == x[0] && Reverse(x)[..|x| - 1] == Reverse(x[1..])
  {
    assert Reverse(x) == Reverse(x[1..]) + [x[0]];
  }

  /**
   * The inner loop of retrieve_issues: pop ids from the end of the reversed list into one
   * query until it holds perQuery of them or the list is empty.
   */
  method PopQuery(ids: IdList, perQuery: int, ghost rest: seq<IssueRef>) returns (query: seq<IssueRef>)
    requires perQuery >= 1 && rest != [] && ids.items == Reverse(rest)
    modifies ids
    ensures |query| <= perQuery && |query| <= |rest| && query == rest[..|query|]
    ensures |query| == perQuery || query == rest
    ensures ids.items == Reverse(rest[|query|..])
  {
    query := [];
    while |query| < perQuery && |ids.items| > 0
      invariant |query| <= |rest| && query == rest[..|query|]
      invariant ids.items == Reverse(rest[|query|..])
      invariant |query| <= perQuery
      decreases |ids.items|
    {
      ReversePop(rest[|query|..]);
      var last := ids.items[|ids.items| - 1];
      ids.items := ids.items[..|ids.items| - 1];
      assert rest[|query|..][1..] == rest[|query| + 1..];
      assert rest[..|query| + 1] == rest[..|query|] + [rest[|query|]];
      query := query + [last];
    }
    if |query| < perQuery {
      assert |rest[|query|..]| == 0;
      assert query == rest;
    }
  }

  /** A query of perQuery ids taken from the front, or of all that remain, is the first chunk. */
  lemma ChunksHead<T>(rest: seq<T>, n: nat, query: seq<T>)
    requires n >= 1 && rest != []
    requires |query| == n || query == rest
    requires |query| <= n && |query| <= |rest| && query == rest[..|query|]
    ensures Chunks(rest, n) == [query] + Chunks(rest[|query|..], n)
  {
    if |rest| <= n {
      assert rest[..|rest|] == rest;
      assert query == rest;
      assert rest[|query|..] == [];
    }
  }

  /** The queries hold every id once, in the original order, each at most perQuery of them. */
  lemma QueriesCoverIds(ids: seq<IssueRef>, perQuery: nat)
    requires perQuery >= 1
    ensures Flatten(Chunks(ids, perQuery)) == ids
    ensures forall k :: 0 <= k < |Chunks(ids, perQuery)| ==> 1 <= |Chunks(ids, perQuery)[k]| <= perQuery
  {
    ChunksFlatten(ids, perQuery);
    ChunksSizes(ids, perQuery);
  }

  /** The details asked for in one iteration of the harvesting loop; `issue` and `change` fetch them. */
  predicate FetchesDetails(detail: string) {
    detail == "issue" || detail == "change"
  }

  /**
   * One iteration of the get_issues loop as written: the details are fetched through
   * retrieve_issues, which empties the list, and the cursor is then read from the list's
   * last pair, which fails.
   */
  method NextCursorAsWritten(ids: IdList, detail: string, perQuery: int) returns (r: Result<string>)
    requires perQuery >= 1
    modifies ids
    ensures FetchesDetails(detail) ==> r == Err(IndexError)
    ensures !FetchesDetails(detail) && old(ids.items) != [] ==> r == Ok(old(ids.items)[|old(ids.items)| - 1].changeTs)
  {
    if FetchesDetails(detail) {
      var queries := RetrieveBatches(ids, perQuery);
    }
    if |ids.items| == 0 {
      return Err(IndexError);
    }
    return Ok(ids.items[|ids.items| - 1].changeTs);
  }

  /** The iteration with the cursor read before the list is consumed: the date of the last listed bug, whatever the detail. */
  method NextCursor(ids: IdList, detail: string, perQuery: int) returns (r: Result<string>)
    requires perQuery >= 1
    modifies ids
    ensures old(ids.items) != [] ==> r == Ok(old(ids.items)[|old(ids.items)| - 1].changeTs)
    ensures old(ids.items) == [] ==> r == Err(IndexError)
  {
    if |ids.items| == 0 {
      return Err(IndexError);
    }
    r := Ok(ids.items[|ids.items| - 1].changeTs);
    if FetchesDetails(detail) {
      var queries := RetrieveBatches(ids, perQuery);
    }
  }
}
