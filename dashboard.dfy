/**
 * The dashboard listing and its spreadsheet export.
 *
 * Both list every project ordered by `end_date` descending with projects
 * that have no end date first. The export writes a header row and then one
 * row per project (title, company name, total estimated hours, total actual
 * hours, tag names joined by ", ") into a sheet, cell by cell.
 */
module Dashboard {

  import opened Wrappers
  import opened Models

  /**
   * The ordering `F('end_date').desc(nulls_first=True)`: may a project whose
   * end date is `a` be listed before one whose end date is `b`?
   */
  predicate ListedNoLater(a: Option<Date>, b: Option<Date>)
    ensures ListedNoLater(a, b) <==>
      a.None? || (b.Some? && (a.value == b.value || Before(b.value, a.value)))
  {
    match (a, b)
    case (None, _) => true
    case (Some(_), None) => false
    case (Some(x), Some(y)) =>
      BeforeIsStrictTotalOrder(x, y, y);
      !Before(x, y)
  }

  /** The listing order is a total preorder, so sorting by it is well defined. */
  lemma ListedNoLaterIsTotalPreorder(a: Option<Date>, b: Option<Date>, c: Option<Date>)
    ensures ListedNoLater(a, a)
    ensures ListedNoLater(a, b) || ListedNoLater(b, a)
    ensures ListedNoLater(a, b) && ListedNoLater(b, c) ==> ListedNoLater(a, c)
  {
  }

  /** The projects are in dashboard order. */
  predicate DashboardSorted(ps: seq<Project>)
    ensures |ps| <= 1 ==> DashboardSorted(ps)
    ensures DashboardSorted(ps) ==>
      forall i, j :: 0 <= i < j < |ps| && ps[j].endDate.None? ==> ps[i].endDate.None?
  {
    forall i, j :: 0 <= i < j < |ps| ==> ListedNoLater(ps[i].endDate, ps[j].endDate)
  }

  /** Number of leading projects that have no end date. */
  function LeadingUndated(ps: seq<Project>): (k: nat)
    ensures k <= |ps|
    ensures forall i :: 0 <= i < k ==> ps[i].endDate.None?
    ensures k < |ps| ==> ps[k].endDate.Some?
  {
    if ps == [] || ps[0].endDate.Some? then 0 else 1 + LeadingUndated(ps[1..])
  }

  /**
   * What the dashboard order means: first every project without an end
   * date, then every dated project, latest end date first.
   */
  lemma SortedMeansUndatedFirstThenLatest(ps: seq<Project>)
    requires DashboardSorted(ps)
    ensures var k := LeadingUndated(ps);
      && (forall i :: 0 <= i < k ==> ps[i].endDate.None?)
      && (forall i :: k <= i < |ps| ==> ps[i].endDate.Some?)
      && (forall i, j :: k <= i < j < |ps| ==> !Before(ps[i].endDate.value, ps[j].endDate.value))
  {
  }

  /** Places `p` into an ordered listing, ahead of every project it may precede. */
  function Insert(p: Project, s: seq<Project>): (r: seq<Project>)
    requires DashboardSorted(s)
    ensures DashboardSorted(r)
    ensures multiset(r) == multiset(s) + multiset{p}
  {
    if s == [] then [p]
    else if ListedNoLater(p.endDate, s[0].endDate) then
      assert forall j :: 0 < j < |[p] + s| ==> ([p] + s)[j] == s[j - 1];
      forall j | 0 <= j < |s| ensures ListedNoLater(p.endDate, s[j].endDate) {
        ListedNoLaterIsTotalPreorder(p.endDate, s[0].endDate, s[j].endDate);
      }
      [p] + s
    else
      var rest := Insert(p, s[1..]);
      ListedNoLaterIsTotalPreorder(p.endDate, s[0].endDate, p.endDate);
      assert s == [s[0]] + s[1..];
      forall j | 0 <= j < |rest| ensures ListedNoLater(s[0].endDate, rest[j].endDate) {
        assert rest[j] in multiset(rest);
        if rest[j] != p {
          assert rest[j] in multiset(s[1..]);
          var m :| 0 <= m < |s[1..]| && s[1..][m] == rest[j];
          assert s[m + 1] == rest[j];
        }
      }
      [s[0]] + rest
  }

  /** `order_by(F('end_date').desc(nulls_first=True))` over the whole table. */
  function SortForDashboard(ps: seq<Project>): (r: seq<Project>)
    ensures DashboardSorted(r)
    ensures multiset(r) == multiset(ps)
  {
    if ps == [] then []
    else
      assert ps == [ps[0]] + ps[1..];
      Insert(ps[0], SortForDashboard(ps[1..]))
  }

  /** A spreadsheet cell: text, or an exact hour amount in hundredths. */
  datatype Cell = Text(text: string) | Hours(hundredths: int)

  /** The header row. */
  const Columns: seq<Cell> :=
    [Text("Project"), Text("Company"), Text("Estimated"), Text("Actual"), Text("Tags")]

  /** Total length of some strings. */
  function TotalLength(names: seq<string>): nat
  {
    if names == [] then 0 else |names[0]| + TotalLength(names[1..])
  }

  /** `', '.join(names)`. */
  function JoinNames(names: seq<string>): (r: string)
    ensures names == [] ==> r == ""
    ensures names != [] ==> |r| == TotalLength(names) + 2 * (|names| - 1)
    ensures |names| == 1 ==> r == names[0]
  {
    if names == [] then ""
    else if |names| == 1 then names[0]
    else names[0] + ", " + JoinNames(names[1..])
  }

  /** Joining one more name adds the separator and the name at the end. */
  lemma {:induction false} JoinNamesAppend(names: seq<string>, last: string)
    requires names != []
    ensures JoinNames(names + [last]) == JoinNames(names) + ", " + last
  {
    if |names| > 1 {
      assert (names + [last])[1..] == names[1..] + [last];
      JoinNamesAppend(names[1..], last);
    } else {
      assert (names + [last])[1..] == [last];
    }
  }

  /** `tags.values_list('name', flat=True)`. */
  function TagNames(tags: seq<Tag>): (r: seq<string>)
    ensures |r| == |tags|
    ensures forall i :: 0 <= i < |tags| ==> r[i] == tags[i].name
  {
    if tags == [] then [] else [tags[0].name] + TagNames(tags[1..])
  }

  /** The export row of one project. */
  function ExportRow(p: Project): (r: seq<Cell>)
    ensures |r| == |Columns|
    ensures r[0] == Text(p.title) && r[1] == Text(p.company.name)
    ensures r[2] == Hours(SumEstimated(p, AllPhases)) && r[3] == Hours(SumActual(p, AllPhases))
    ensures r[4] == Text(JoinNames(TagNames(p.tags)))
  {
    TotalsArePhaseSums(p);
    [Text(p.title), Text(p.company.name), Hours(TotalEstimatedHours(p)),
     Hours(TotalActualHours(p)), Text(JoinNames(TagNames(p.tags)))]
  }

  /** One export row per project, in the given order. */
  function ExportRows(ps: seq<Project>): (r: seq<seq<Cell>>)
    ensures |r| == |ps|
    ensures forall i :: 0 <= i < |ps| ==> r[i] == ExportRow(ps[i])
  {
    if ps == [] then [] else [ExportRow(ps[0])] + ExportRows(ps[1..])
  }

  /**
   * The whole exported table: the header, then one row per project in
   * dashboard order (SortForDashboard is ordered and a permutation).
   */
  function ExportTable(table: seq<Project>): (r: seq<seq<Cell>>)
    ensures |r| == |table| + 1 && r[0] == Columns
    ensures forall i :: 0 <= i < |table| ==> r[i + 1] == ExportRow(SortForDashboard(table)[i])
  {
    var ordered := SortForDashboard(table);
    assert |ordered| == |multiset(ordered)| == |table|;
    [Columns] + ExportRows(ordered)
  }

  /** The sheet holds exactly the given rows: row r, column c at key (r, c). */
  ghost predicate SheetHolds(sheet: map<(int, int), Cell>, rows: seq<seq<Cell>>)
  {
    && (forall r, c :: (r, c) in sheet <==> 0 <= r < |rows| && 0 <= c < |rows[r]|)
    && (forall r, c :: (r, c) in sheet ==> sheet[(r, c)] == rows[r][c])
  }

  /** Writing the next cell of the last row extends that row by one cell. */
  lemma WriteNextCell(sheet: map<(int, int), Cell>, rows: seq<seq<Cell>>, row: seq<Cell>, v: Cell)
    requires SheetHolds(sheet, rows + [row])
    ensures SheetHolds(sheet[(|rows|, |row|) := v], rows + [row + [v]])
  {
  }

  /** A row with no cells occupies no part of the sheet. */
  lemma StartRow(sheet: map<(int, int), Cell>, rows: seq<seq<Cell>>)
    requires SheetHolds(sheet, rows)
    ensures SheetHolds(sheet, rows + [[]])
  {
  }

  /**
   * `for col_num in range(len(row)): ws.write(row_num, col_num, row[col_num])`:
   * writes one row below the rows already written.
   */
  method WriteRow(sheet: map<(int, int), Cell>, ghost written: seq<seq<Cell>>, rowNum: int, row: seq<Cell>)
    returns (sheet': map<(int, int), Cell>)
    requires rowNum == |written|
    requires SheetHolds(sheet, written)
    ensures SheetHolds(sheet', written + [row])
  {
    sheet' := sheet;
    StartRow(sheet', written);
    for col := 0 to |row|
      invariant SheetHolds(sheet', written + [row[..col]])
    {
      assert row[..col + 1] == row[..col] + [row[col]];
      WriteNextCell(sheet', written, row[..col], row[col]);
      sheet' := sheet'[(rowNum, col) := row[col]];
    }
    assert row[..|row|] == row;
  }

  /** The loop over the ordered query result that collects one row per project. */
  method CollectRows(fullData: seq<Project>) returns (data: seq<seq<Cell>>)
    ensures data == ExportRows(fullData)
  {
    data := [];
    for k := 0 to |fullData|
      invariant data == ExportRows(fullData[..k])
    {
      assert fullData[..k + 1] == fullData[..k] + [fullData[k]];
      ExportRowsAppend(fullData[..k], fullData[k]);
      data := data + [ExportRow(fullData[k])];
    }
    assert fullData[..|fullData|] == fullData;
  }

  /** The loop that writes data row k at row number k + 1, below the header. */
  method WriteDataRows(sheet: map<(int, int), Cell>, data: seq<seq<Cell>>)
    returns (sheet': map<(int, int), Cell>)
    requires SheetHolds(sheet, [Columns])
    ensures SheetHolds(sheet', [Columns] + data)
  {
    sheet' := sheet;
    var rowNum := 0;
    for k := 0 to |data|
      invariant rowNum == k
      invariant SheetHolds(sheet', [Columns] + data[..k])
    {
      assert [Columns] + data[..k + 1] == ([Columns] + data[..k]) + [data[k]];
      rowNum := rowNum + 1;
      sheet' := WriteRow(sheet', [Columns] + data[..k], rowNum, data[k]);
    }
    assert data[..|data|] == data;
  }

  /**
   * `_download_excel_data`: writes the header at row 0, builds the data rows
   * from the ordered table, then writes data row k at row k + 1. The sheet
   * is the map from (row, column) to the cell written there.
   */
  method DownloadExcelData(table: seq<Project>) returns (sheet: map<(int, int), Cell>)
    ensures SheetHolds(sheet, ExportTable(table))
  {
    sheet := WriteRow(map[], [], 0, Columns);
    var fullData := SortForDashboard(table);
    var data := CollectRows(fullData);
    sheet := WriteDataRows(sheet, data);
  }

  /** Building the rows one project at a time gives the same rows. */
  lemma ExportRowsAppend(ps: seq<Project>, p: Project)
    ensures ExportRows(ps + [p]) == ExportRows(ps) + [ExportRow(p)]
  {
  }
}
