/**
 * The Bugzilla activity-page parser: from the tables of a bug's "show_activity.cgi"
 * page (already extracted from the HTML) to the list of change records.
 */
module BugzillaChanges {
  import opened Results
  import opened Text

  /** A `td` cell: its content nodes, inline `a`/`span`/`i` tags already flattened to text. */
  type Cell = seq<string>

  /** A `tr`: the number of `th` cells directly under it, and its `td` cells in order. */
  datatype Row = Row(headers: nat, cells: seq<Cell>)

  /** A `table`: its `tr` rows in document order; the first one is the header row. */
  datatype Table = Table(rows: seq<Row>)

  /** One change record `{changed_by, field, removed, added, date}`. */
  datatype Change = Change(changedBy: string, field: string, removed: string, added: string, date: string)

  /** Who made a change and when (the ISO text of the parsed date). */
  datatype Stamp = Stamp(changedBy: string, date: string)

  /** The class-level value maps; both are empty in the code. */
  const StatusMap: map<string, string> := map[]
  const ResolutionMap: map<string, string> := map[]

  /** `d.get(k, k)`. */
  function Lookup(d: map<string, string>, k: string): string {
    if k in d then d[k] else k
  }

  /** The field-name map set by the constructor. */
  function FieldName(field: string): (r: string)
    ensures field == "Status" ==> r == "status"
    ensures field == "Resolution" ==> r == "resolution"
    ensures field != "Status" && field != "Resolution" ==> r == field
  {
    Lookup(map["Status" := "status", "Resolution" := "resolution"], field)
  }

  /** sanityze_change: the field renamed, both values stripped and then mapped for status or resolution. */
  function SanityzeChange(field: string, oldValue: string, newValue: string,
                          statusMap: map<string, string>, resolutionMap: map<string, string>): (string, string, string)
  {
    var f := FieldName(field);
    var o := Strip(oldValue);
    var n := Strip(newValue);
    if f == "status" then (f, Lookup(statusMap, o), Lookup(statusMap, n))
    else if f == "resolution" then (f, Lookup(resolutionMap, o), Lookup(resolutionMap, n))
    else (f, o, n)
  }

  /**
   * With the code's empty value maps, the field is only renamed (Status and Resolution to
   * lower case, every other name kept) and the values are only stripped.
   */
  lemma SanityzeWithDefaultMaps(field: string, oldValue: string, newValue: string)
    ensures var r := SanityzeChange(field, oldValue, newValue, StatusMap, ResolutionMap);
      && r.1 == Strip(oldValue) && r.2 == Strip(newValue)
      && (field == "Status" ==> r.0 == "status")
      && (field == "Resolution" ==> r.0 == "resolution")
      && (field != "Status" && field != "Resolution" ==> r.0 == field)
  {
  }

  /** Whatever the maps hold, a value whose stripped text is not mapped comes out stripped. */
  lemma SanityzeUnmapped(field: string, oldValue: string, newValue: string,
                         statusMap: map<string, string>, resolutionMap: map<string, string>)
    requires Strip(oldValue) !in statusMap && Strip(oldValue) !in resolutionMap
    ensures SanityzeChange(field, oldValue, newValue, statusMap, resolutionMap).1 == Strip(oldValue)
  {
  }

  /**
   * The text of a field-name cell. Several content nodes are joined with spaces, newlines
   * are removed and the result stripped; a single node is stripped, and newlines inside it
   * are removed only when `dropNewlines` (the five-cell rows do, the continuation rows do not).
   */
  function FieldText(cell: Cell, dropNewlines: bool): (r: Result<string>)
    ensures r.Err? <==> |cell| == 0
  {
    if |cell| > 1 then Ok(Strip(Replace(Join(cell, " "), "\n", "")))
    else if |cell| == 0 then Err(IndexError)
    else if dropNewlines then Ok(Strip(Replace(cell[0], "\n", "")))
    else Ok(Strip(cell[0]))
  }

  /**
   * The field text has no whitespace at either end, has no newline when several nodes
   * are joined or newlines are dropped, and is the stripped node otherwise.
   */
  lemma FieldTextShape(cell: Cell, dropNewlines: bool)
    requires |cell| > 0
    ensures var r := FieldText(cell, dropNewlines).value;
      && (r == [] || (!IsSpace(r[0]) && !IsSpace(r[|r| - 1])))
      && ((|cell| > 1 || dropNewlines) ==> '\n' !in r)
      && (|cell| == 1 && !dropNewlines ==> r == Strip(cell[0]))
  {
    if |cell| > 1 {
      ReplaceCharGone(Join(cell, " "), '\n', "");
      StripKeepsOut(Replace(Join(cell, " "), "\n", ""), '\n');
    } else if dropNewlines {
      ReplaceCharGone(cell[0], '\n', "");
      StripKeepsOut(Replace(cell[0], "\n", ""), '\n');
    }
  }

  /** `cols[i].contents[0].strip()`. */
  function FirstText(cells: seq<Cell>, i: nat): (r: Result<string>)
    ensures r.Ok? <==> i < |cells| && |cells[i]| > 0
    ensures r.Ok? ==> r.value == Strip(cells[i][0])
  {
    if i >= |cells| || |cells[i]| == 0 then Err(IndexError) else Ok(Strip(cells[i][0]))
  }

  /** A row with exactly five cells: who, when, what, removed, added. */
  predicate IsFullRow(row: Row) {
    |row.cells| == 5
  }

  /**
   * The actor and date of a five-cell row: the first cell's text stripped with every
   * `&#64;` made `@`, and the second cell's text parsed as a date by `isoDate`.
   */
  function RowStamp(row: Row, isoDate: string -> Option<string>): (r: Result<Stamp>)
    requires IsFullRow(row)
    ensures r.Ok? <==> |row.cells[0]| > 0 && |row.cells[1]| > 0 && isoDate(Strip(row.cells[1][0])).Some?
    ensures r.Ok? ==> r.value.changedBy == Replace(Strip(row.cells[0][0]), "&#64;", "@")
    ensures r.Ok? ==> Some(r.value.date) == isoDate(Strip(row.cells[1][0]))
  {
    var who :- FirstText(row.cells, 0);
    var when :- FirstText(row.cells, 1);
    match isoDate(when)
    case None => Err(DateError(when))
    case Some(d) => Ok(Stamp(Replace(who, "&#64;", "@"), d))
  }

  /**
   * Field, removed and added of a row, already sanitized: cells 2, 3 and 4 of a five-cell
   * row, cells 0, 1 and 2 of any other row.
   */
  function RowValues(row: Row): (r: Result<(string, string, string)>)
    ensures var base := if IsFullRow(row) then 2 else 0;
      r.Ok? <==> (base + 2 < |row.cells| && |row.cells[base]| > 0 && |row.cells[base + 1]| > 0 && |row.cells[base + 2]| > 0)
  {
    var base := if IsFullRow(row) then 2 else 0;
    if base >= |row.cells| then Err(IndexError)
    else
      var field :- FieldText(row.cells[base], IsFullRow(row));
      var removed :- FirstText(row.cells, base + 1);
      var added :- FirstText(row.cells, base + 2);
      Ok(SanityzeChange(field, removed, added, StatusMap, ResolutionMap))
  }

  /** The last five-cell row among rows 1..k, the one whose actor and date row k carries. */
  function LastFullRow(rows: seq<Row>, k: nat): (r: Option<nat>)
    requires k < |rows|
    ensures r.Some? ==> 1 <= r.value <= k && IsFullRow(rows[r.value])
    ensures r.Some? ==> forall j :: r.value < j <= k ==> !IsFullRow(rows[j])
    ensures r.None? ==> forall j :: 1 <= j <= k ==> !IsFullRow(rows[j])
    decreases k
  {
    if k == 0 then None
    else if IsFullRow(rows[k]) then Some(k)
    else LastFullRow(rows, k - 1)
  }

  /** Row k (k >= 1) parses: its cells are there, its date parses, and an actor is known for it. */
  predicate RowParses(rows: seq<Row>, k: nat, isoDate: string -> Option<string>)
    requires 1 <= k < |rows|
  {
    && RowValues(rows[k]).Ok?
    && (IsFullRow(rows[k]) ==> RowStamp(rows[k], isoDate).Ok?)
    && LastFullRow(rows, k).Some?
  }

  /** All rows after the header parse. */
  predicate RowsParse(rows: seq<Row>, isoDate: string -> Option<string>) {
    forall k :: 1 <= k < |rows| ==> RowParses(rows, k, isoDate)
  }

  /** The change row k stands for: its own values, and the stamp of the last five-cell row up to it. */
  function ChangeAt(rows: seq<Row>, k: nat, isoDate: string -> Option<string>): Change
    requires 1 <= k < |rows|
    requires forall j :: 1 <= j <= k ==> RowParses(rows, j, isoDate)
  {
    assert RowParses(rows, k, isoDate);
    var v := RowValues(rows[k]).value;
    var j := LastFullRow(rows, k).value;
    assert RowParses(rows, j, isoDate);
    var s := RowStamp(rows[j], isoDate).value;
    Change(s.changedBy, v.0, v.1, v.2, s.date)
  }

  /** A table whose header row has five `th` cells: the activity table. */
  predicate IsActivityTable(t: Table) {
    |t.rows| > 0 && t.rows[0].headers == 5
  }

  /** The table the loop stops at: the first activity table, or the last table when there is none. */
  function ChosenTable(tables: seq<Table>): (r: nat)
    requires |tables| > 0
    ensures r < |tables|
    ensures forall j :: 0 <= j < r ==> !IsActivityTable(tables[j])
    ensures IsActivityTable(tables[r]) || (r == |tables| - 1 && !IsActivityTable(tables[r]))
    decreases |tables|
  {
    if IsActivityTable(tables[0]) || |tables| == 1 then 0
    else 1 + ChosenTable(tables[1..])
  }

  /** The search reaches a table without rows (None.tr) before it stops. */
  predicate HitsEmptyTable(tables: seq<Table>)
    requires |tables| > 0
  {
    exists j :: 0 <= j <= ChosenTable(tables) && tables[j].rows == []
  }

  /**
   * One pass of the row loop: a five-cell row brings its own stamp, any other row reuses
   * the carried one; the stamp to carry on is returned with the change.
   */
  function ParseRow(row: Row, carry: Option<Stamp>, isoDate: string -> Option<string>): Result<(Change, Stamp)> {
    if IsFullRow(row) then
      var s :- RowStamp(row, isoDate);
      var v :- RowValues(row);
      Ok((Change(s.changedBy, v.0, v.1, v.2, s.date), s))
    else
      var v :- RowValues(row);
      if carry.None? then Err(UnboundName("changed_by"))
      else Ok((Change(carry.value.changedBy, v.0, v.1, v.2, carry.value.date), carry.value))
  }

  /** `carry` is the stamp of the last five-cell row among rows 1..k, or None when there is none. */
  predicate CarryMatches(rows: seq<Row>, k: nat, carry: Option<Stamp>, isoDate: string -> Option<string>)
    requires k < |rows|
  {
    match LastFullRow(rows, k)
    case None => carry.None?
    case Some(j) => carry.Some? && RowStamp(rows[j], isoDate) == Ok(carry.value)
  }

  /** The row loop's state before row k: rows 1..k-1 parsed into `changes`, and the stamp carried. */
  predicate Parsed(rows: seq<Row>, k: nat, changes: seq<Change>, carry: Option<Stamp>, isoDate: string -> Option<string>)
    requires 1 <= k <= |rows|
  {
    && (forall j :: 1 <= j < k ==> RowParses(rows, j, isoDate))
    && |changes| == k - 1
    && (forall j :: 1 <= j < k ==> changes[j - 1] == ChangeAt(rows, j, isoDate))
    && CarryMatches(rows, k - 1, carry, isoDate)
  }

  /** A pass of the loop fails exactly on a row that does not parse. */
  lemma ParseRowFails(rows: seq<Row>, k: nat, carry: Option<Stamp>, isoDate: string -> Option<string>)
    requires 1 <= k < |rows| && CarryMatches(rows, k - 1, carry, isoDate)
    ensures ParseRow(rows[k], carry, isoDate).Ok? <==> RowParses(rows, k, isoDate)
  {
    if IsFullRow(rows[k]) {
      assert LastFullRow(rows, k) == Some(k);
    } else {
      assert LastFullRow(rows, k) == LastFullRow(rows, k - 1);
    }
  }

  /** A pass that succeeds yields the change of row k and carries the stamp for rows 1..k. */
  lemma ParseRowYields(rows: seq<Row>, k: nat, carry: Option<Stamp>, isoDate: string -> Option<string>)
    requires 1 <= k < |rows| && CarryMatches(rows, k - 1, carry, isoDate)
    requires forall j :: 1 <= j <= k ==> RowParses(rows, j, isoDate)
    requires ParseRow(rows[k], carry, isoDate).Ok?
    ensures ParseRow(rows[k], carry, isoDate).value.0 == ChangeAt(rows, k, isoDate)
    ensures CarryMatches(rows, k, Some(ParseRow(rows[k], carry, isoDate).value.1), isoDate)
  {
    assert RowParses(rows, k, isoDate);
    if IsFullRow(rows[k]) {
      assert LastFullRow(rows, k) == Some(k);
    } else {
      assert LastFullRow(rows, k) == LastFullRow(rows, k - 1);
    }
  }

  /** A pass of the loop fails exactly on a row that does not parse, and otherwise keeps `Parsed`. */
  lemma ParseRowStep(rows: seq<Row>, k: nat, changes: seq<Change>, carry: Option<Stamp>, isoDate: string -> Option<string>)
    requires 1 <= k < |rows| && Parsed(rows, k, changes, carry, isoDate)
    ensures ParseRow(rows[k], carry, isoDate).Ok? <==> RowParses(rows, k, isoDate)
    ensures ParseRow(rows[k], carry, isoDate).Ok? ==>
      var p := ParseRow(rows[k], carry, isoDate).value;
      Parsed(rows, k + 1, changes + [p.0], Some(p.1), isoDate)
  {
    ParseRowFails(rows, k, carry, isoDate);
    var p := ParseRow(rows[k], carry, isoDate);
    if p.Ok? {
      assert forall j :: 1 <= j < k + 1 ==> RowParses(rows, j, isoDate);
      ParseRowYields(rows, k, carry, isoDate);
      var changes' := changes + [p.value.0];
      forall j | 1 <= j < k + 1 ensures changes'[j - 1] == ChangeAt(rows, j, isoDate) {
        if j < k {
          assert changes'[j - 1] == changes[j - 1];
        }
      }
    }
  }

  /**
   * parse_changes. No tables give no changes. Otherwise the chosen table's rows after the
   * first give one change each, in row order; each takes field, removed and added from
   * its own cells and the actor and date of the last five-cell row at or before it. A row
   * that is short of cells or content, a date that does not parse, a continuation row with
   * no earlier five-cell row, or a table without rows on the way is an error.
   */
  method ParseChanges(tables: seq<Table>, isoDate: string -> Option<string>) returns (r: Result<seq<Change>>)
    ensures tables == [] ==> r == Ok([])
    ensures tables != [] && HitsEmptyTable(tables) ==> r == Err(AttributeError)
    ensures tables != [] && !HitsEmptyTable(tables) ==>
      var rows := tables[ChosenTable(tables)].rows;
      && (r.Ok? <==> RowsParse(rows, isoDate))
      && (r.Ok? ==> |r.value| == |rows| - 1)
      && (r.Ok? ==> forall k :: 1 <= k < |rows| ==> r.value[k - 1] == ChangeAt(rows, k, isoDate))
  {
    if |tables| == 0 {
      return Ok([]);
    }
    var t := 0;
    while t < |tables| - 1 && !IsActivityTable(tables[t])
      invariant 0 <= t <= |tables| - 1
      invariant forall j :: 0 <= j < t ==> !IsActivityTable(tables[j])
      invariant ChosenTable(tables) >= t
      invariant forall j :: 0 <= j < t ==> tables[j].rows != []
      invariant ChosenTable(tables) == t + ChosenTable(tables[t..])
    {
      if tables[t].rows == [] {
        return Err(AttributeError);
      }
      assert tables[t..][1..] == tables[t + 1..];
      t := t + 1;
    }
    assert ChosenTable(tables) == t;
    if tables[t].rows == [] {
      return Err(AttributeError);
    }
    assert !HitsEmptyTable(tables);
    var rows := tables[t].rows;
    var changes: seq<Change> := [];
    var carry: Option<Stamp> := None;
    var k := 1;
    while k < |rows|
      invariant 1 <= k <= |rows|
      invariant Parsed(rows, k, changes, carry, isoDate)
    {
      var p := ParseRow(rows[k], carry, isoDate);
      ParseRowStep(rows, k, changes, carry, isoDate);
      if p.Err? {
        return Err(p.fault);
      }
      changes := changes + [p.value.0];
      carry := Some(p.value.1);
      k := k + 1;
    }
    return Ok(changes);
  }

  /**
   * The parser gives no changes exactly when there are no tables, or the chosen table
   * is reached and has nothing but its header row (an error takes precedence).
   */
  lemma {:induction false} NoChanges(tables: seq<Table>, isoDate: string -> Option<string>, r: Result<seq<Change>>)
    requires tables != [] && !HitsEmptyTable(tables)
    requires var rows := tables[ChosenTable(tables)].rows;
      && (r.Ok? <==> RowsParse(rows, isoDate))
      && (r.Ok? ==> |r.value| == |rows| - 1)
    ensures r == Ok([]) <==> |tables[ChosenTable(tables)].rows| == 1
  {
    var rows := tables[ChosenTable(tables)].rows;
    assert rows != [];
    if |rows| == 1 {
      assert RowsParse(rows, isoDate);
    }
  }

  /** A table without a five-`th` header is still parsed when it is the last one. */
  lemma LastTableFallback(tables: seq<Table>)
    requires tables != [] && forall j :: 0 <= j < |tables| ==> !IsActivityTable(tables[j])
    ensures ChosenTable(tables) == |tables| - 1
  {
  }

  /** A five-cell row that parses is its own stamp: it sets the actor and the date. */
  lemma FullRowSetsStamp(rows: seq<Row>, k: nat, isoDate: string -> Option<string>)
    requires 1 <= k < |rows| && IsFullRow(rows[k]) && RowParses(rows, k, isoDate)
    requires forall j :: 1 <= j <= k ==> RowParses(rows, j, isoDate)
    ensures ChangeAt(rows, k, isoDate).changedBy == Replace(Strip(rows[k].cells[0][0]), "&#64;", "@")
    ensures Some(ChangeAt(rows, k, isoDate).date) == isoDate(Strip(rows[k].cells[1][0]))
  {
    assert RowParses(rows, k, isoDate);
    assert LastFullRow(rows, k) == Some(k);
    var s := RowStamp(rows[k], isoDate);
    assert ChangeAt(rows, k, isoDate).changedBy == s.value.changedBy;
    assert ChangeAt(rows, k, isoDate).date == s.value.date;
  }

  /** A continuation row repeats the actor and date of the row before it. */
  lemma ContinuationCarries(rows: seq<Row>, k: nat, isoDate: string -> Option<string>)
    requires 2 <= k < |rows| && !IsFullRow(rows[k])
    requires forall j :: 1 <= j <= k ==> RowParses(rows, j, isoDate)
    ensures ChangeAt(rows, k, isoDate).changedBy == ChangeAt(rows, k - 1, isoDate).changedBy
    ensures ChangeAt(rows, k, isoDate).date == ChangeAt(rows, k - 1, isoDate).date
  {
  }
}
