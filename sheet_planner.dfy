/**
 * The row layout of `generate_excel_sheet` (app.py:112-200): a title row
 * merged over the six table columns, a header row, then one block of rows per
 * school day, one row per class period, with the weekday and date cells
 * merged down the block; and the print area and hidden rows and columns that
 * follow from the final row cursor.
 */
module SheetPlanner {
  import opened Wrappers
  import opened Decimal
  import opened PersianCalendar
  import opened WeekdayResolver

  const TitleRow := 1
  /** `table_start_row` (app.py:145). */
  const HeaderRow := 2
  const FirstBlockRow := 3
  const TableColumns := 6
  /** Rows from the cursor up to, not including, this one are hidden (app.py:194). */
  const RowLimit := 500
  /** Columns from 7 up to, not including, this one are hidden (app.py:192). */
  const ColumnLimit := 200

  /** The six column headers of row 2 (app.py:146). */
  const ColumnHeaders: seq<string> := ["روز هفته", "تاریخ", "زنگ", "اسامی غایبین", "اسامی و میزان تاخیر", "نام و امضای دبیر"]

  /** The period ordinals, first to fourth (app.py:161, 164). */
  const PeriodLabels: seq<string> := ["اول", "دوم", "سوم", "چهارم"]

  /** A rectangle of cells, both corners included. */
  datatype CellRange = CellRange(firstRow: int, firstColumn: int, lastRow: int, lastColumn: int)

  /** The rows (or columns) `from` to `until - 1`. */
  datatype Interval = Interval(from: int, until: int)

  /** The rows of one school day, one row per period. */
  datatype Block = Block(firstRow: int, lastRow: int, weekday: string, date: string, periods: seq<string>)

  datatype Layout = Layout(
    title: string,
    titleRange: CellRange,
    headerRow: int,
    headers: seq<string>,
    blocks: seq<Block>,
    merges: seq<CellRange>,   // every `merge_cells` call, in call order
    cursor: int,              // `current_row` after the last block
    printArea: string,
    hiddenColumns: Interval,
    hiddenRows: Interval)

  const TitleRange := CellRange(TitleRow, 1, TitleRow, TableColumns)

  /**
   * The periods of a day (app.py:159-164): the first three ordinals on
   * Monday and Wednesday, all four on any other day.
   */
  function Periods(weekday: string): (p: seq<string>)
    ensures |p| == if weekday == Monday || weekday == Wednesday then 3 else 4
    ensures p == PeriodLabels[..|p|]
  {
    if weekday in [Monday, Wednesday] then PeriodLabels[..3] else PeriodLabels
  }

  /** The number of period rows of the first `n` days. */
  function PeriodRows(days: seq<SchoolDay>, n: nat): nat
    requires n <= |days|
  {
    if n == 0 then 0 else PeriodRows(days, n - 1) + |Periods(days[n - 1].weekdayName)|
  }

  /** The block of the `k`-th day: it starts below the periods of all earlier days. */
  function BlockAt(days: seq<SchoolDay>, k: nat): Block
    requires k < |days|
  {
    var start := FirstBlockRow + PeriodRows(days, k);
    var periods := Periods(days[k].weekdayName);
    Block(start, start + |periods| - 1, days[k].weekdayName, days[k].dateLabel, periods)
  }

  /** The blocks of the first `n` days, in order. */
  function BlocksOf(days: seq<SchoolDay>, n: nat): (bs: seq<Block>)
    requires n <= |days|
    ensures |bs| == n
  {
    if n == 0 then [] else BlocksOf(days, n - 1) + [BlockAt(days, n - 1)]
  }

  /** The merge of one column of a block, over all its rows. */
  function ColumnMerge(b: Block, column: int): CellRange {
    CellRange(b.firstRow, column, b.lastRow, column)
  }

  /**
   * Every `merge_cells` call of a sheet with the given blocks, in call
   * order: the title row, then the weekday and the date column of each block.
   */
  function SheetMerges(blocks: seq<Block>): (ms: seq<CellRange>)
    ensures |ms| == 1 + 2 * |blocks|
  {
    if blocks == [] then [TitleRange]
    else
      var b := blocks[|blocks| - 1];
      SheetMerges(blocks[..|blocks| - 1]) + [ColumnMerge(b, 1), ColumnMerge(b, 2)]
  }

  /** The print area: columns A to F, rows 1 to `lastRow`. */
  function PrintArea(lastRow: nat): string {
    "A1:F" + NatToDecimal(lastRow)
  }

  /** The layout the sheet of `days` has. */
  predicate IsLayoutOf(days: seq<SchoolDay>, l: Layout)
    requires days != []
  {
    && l.title == days[0].monthName
    && l.titleRange == TitleRange
    && l.headerRow == HeaderRow
    && l.headers == ColumnHeaders
    && l.blocks == BlocksOf(days, |days|)
    && l.merges == SheetMerges(l.blocks)
    && l.cursor == FirstBlockRow + PeriodRows(days, |days|)
    && l.printArea == PrintArea(l.cursor - 1)
    && l.hiddenColumns == Interval(TableColumns + 1, ColumnLimit)
    && l.hiddenRows == Interval(l.cursor, RowLimit)
  }

  /**
   * The layout part of app.py:116-195. Empty input gives no workbook;
   * otherwise the cursor starts at row 3 and moves down by each day's
   * period count, each day's weekday and date cells being merged over the
   * rows from the cursor to the row before the next cursor.
   */
  method PlanSheet(days: seq<SchoolDay>) returns (layout: Option<Layout>)
    ensures layout.None? <==> days == []
    ensures layout.Some? ==> days != [] && IsLayoutOf(days, layout.value)
  {
    if days == [] {
      return None;
    }
    var blocks: seq<Block> := [];
    var merges: seq<CellRange> := [TitleRange];
    var currentRow := HeaderRow + 1;
    for i := 0 to |days|
      invariant currentRow == FirstBlockRow + PeriodRows(days, i)
      invariant blocks == BlocksOf(days, i)
      invariant merges == SheetMerges(blocks)
    {
      var weekday := days[i].weekdayName;
      var periods := Periods(weekday);
      var numPeriods := |periods|;
      var dayMergeStart := currentRow;
      var dayMergeEnd := currentRow + numPeriods - 1;
      merges := merges + [CellRange(dayMergeStart, 1, dayMergeEnd, 1), CellRange(dayMergeStart, 2, dayMergeEnd, 2)];
      blocks := blocks + [Block(dayMergeStart, dayMergeEnd, weekday, days[i].dateLabel, periods)];
      currentRow := currentRow + numPeriods;
    }
    layout := Some(Layout(
      days[0].monthName, TitleRange, HeaderRow, ColumnHeaders, blocks, merges, currentRow,
      PrintArea(currentRow - 1), Interval(TableColumns + 1, ColumnLimit), Interval(currentRow, RowLimit)));
  }

  // ---------------------------------------------------------------------
  // Properties of the blocks, stated on the days
  // ---------------------------------------------------------------------

  /** The `k`-th block is the block of the `k`-th day. */
  lemma {:induction false} BlocksOfIndex(days: seq<SchoolDay>, n: nat, k: nat)
    requires k < n <= |days|
    ensures BlocksOf(days, n)[k] == BlockAt(days, k)
  {
    if k < n - 1 {
      BlocksOfIndex(days, n - 1, k);
    }
  }

  /** Merge 0 is the title row; merges `2k + 1` and `2k + 2` span the weekday and the date column of block `k`. */
  lemma {:induction false} SheetMergesIndex(blocks: seq<Block>, k: nat)
    requires k < |blocks|
    ensures SheetMerges(blocks)[0] == TitleRange
    ensures SheetMerges(blocks)[1 + 2 * k] == ColumnMerge(blocks[k], 1)
    ensures SheetMerges(blocks)[2 + 2 * k] == ColumnMerge(blocks[k], 2)
  {
    var front := blocks[..|blocks| - 1];
    if k < |blocks| - 1 {
      SheetMergesIndex(front, k);
    } else if front != [] {
      SheetMergesIndex(front, 0);
    }
  }

  /** Every day has three or four period rows. */
  lemma {:induction false} PeriodRowsBounds(days: seq<SchoolDay>, n: nat)
    requires n <= |days|
    ensures 3 * n <= PeriodRows(days, n) <= 4 * n
  {
    if n > 0 {
      PeriodRowsBounds(days, n - 1);
    }
  }

  /** Each further day adds at least three rows. */
  lemma {:induction false} PeriodRowsGrow(days: seq<SchoolDay>, i: nat, j: nat)
    requires i <= j <= |days|
    ensures PeriodRows(days, i) + 3 * (j - i) <= PeriodRows(days, j)
    decreases j - i
  {
    if i < j {
      PeriodRowsGrow(days, i, j - 1);
    }
  }

  /** A day's block ends above the block of every later day. */
  lemma BlockAtInOrder(days: seq<SchoolDay>, k1: nat, k2: nat)
    requires k1 < k2 < |days|
    ensures BlockAt(days, k1).lastRow < BlockAt(days, k2).firstRow
  {
    PeriodRowsGrow(days, k1 + 1, k2);
  }

  /** Some block holds each row from the first block's start to the last block's end. */
  lemma {:induction false} BlockAtCovers(days: seq<SchoolDay>, n: nat, row: int)
    requires 0 < n <= |days|
    requires FirstBlockRow <= row < FirstBlockRow + PeriodRows(days, n)
    ensures exists k :: 0 <= k < n && BlockAt(days, k).firstRow <= row <= BlockAt(days, k).lastRow
  {
    if row < FirstBlockRow + PeriodRows(days, n - 1) {
      BlockAtCovers(days, n - 1, row);
    } else {
      assert BlockAt(days, n - 1).firstRow <= row <= BlockAt(days, n - 1).lastRow;
    }
  }

  /** A merge number after the title's is `2k + column` for a block `k` and a column 1 or 2. */
  lemma MergeNumber(m: nat) returns (k: nat, column: int)
    requires m > 0
    ensures m == 2 * k + column && (column == 1 || column == 2)
  {
    k := (m - 1) / 2;
    column := m - 2 * k;
  }

  /** Merge `m = 2k + column` of the days' sheet spans that column of block `k`. */
  lemma SheetMergeAt(days: seq<SchoolDay>, m: nat, k: nat, column: int)
    requires k < |days| && (column == 1 || column == 2) && m == 2 * k + column
    ensures SheetMerges(BlocksOf(days, |days|))[m] == ColumnMerge(BlockAt(days, k), column)
  {
    var blocks := BlocksOf(days, |days|);
    BlocksOfIndex(days, |days|, k);
    SheetMergesIndex(blocks, k);
  }

  /** No two `merge_cells` ranges of the days' sheet share a cell. */
  lemma SheetMergesDisjoint(days: seq<SchoolDay>, i: nat, j: nat)
    requires days != [] && i < j < 1 + 2 * |days|
    ensures var ms := SheetMerges(BlocksOf(days, |days|));
      !Overlaps(ms[i], ms[j])
  {
    var kj, cj := MergeNumber(j);
    SheetMergeAt(days, j, kj, cj);
    if i == 0 {
      SheetMergesIndex(BlocksOf(days, |days|), 0);
    } else {
      var ki, ci := MergeNumber(i);
      SheetMergeAt(days, i, ki, ci);
      if ki < kj {
        BlockAtInOrder(days, ki, kj);
      }
    }
  }

  // ---------------------------------------------------------------------
  // Properties of a layout
  // ---------------------------------------------------------------------

  /** The merges of a layout: the title first, then merges `2k + 1` and `2k + 2` over block `k`. */
  lemma LayoutMerges(days: seq<SchoolDay>, l: Layout, k: nat)
    requires days != [] && IsLayoutOf(days, l)
    requires k < |days|
    ensures |l.blocks| == |days| && |l.merges| == 1 + 2 * |days|
    ensures l.merges[0] == TitleRange
    ensures l.merges[1 + 2 * k] == ColumnMerge(l.blocks[k], 1)
    ensures l.merges[2 + 2 * k] == ColumnMerge(l.blocks[k], 2)
  {
    SheetMergesIndex(l.blocks, k);
  }

  /** Block `k` of the layout is the block of day `k`. */
  lemma LayoutBlock(days: seq<SchoolDay>, l: Layout, k: nat)
    requires days != [] && IsLayoutOf(days, l)
    requires k < |days|
    ensures |l.blocks| == |days| && l.blocks[k] == BlockAt(days, k)
  {
    BlocksOfIndex(days, |days|, k);
  }

  /** The table has between three and four rows per day. */
  lemma TableRowsBounds(days: seq<SchoolDay>, l: Layout)
    requires days != [] && IsLayoutOf(days, l)
    ensures 3 * |days| <= l.cursor - FirstBlockRow <= 4 * |days|
  {
    PeriodRowsBounds(days, |days|);
  }

  /**
   * The blocks follow each other without gap or overlap, in the order of the
   * days: the first starts at row 3, each spans exactly its periods, each
   * next one starts on the row after the previous one ends, and the last one
   * ends on the row before the cursor.
   */
  lemma BlocksAreContiguous(days: seq<SchoolDay>, l: Layout)
    requires days != [] && IsLayoutOf(days, l)
    ensures l.blocks[0].firstRow == FirstBlockRow
    ensures forall k :: 0 <= k < |l.blocks| ==>
      l.blocks[k].lastRow - l.blocks[k].firstRow + 1 == |l.blocks[k].periods| == |Periods(days[k].weekdayName)|
    ensures forall k :: 0 <= k < |l.blocks| - 1 ==> l.blocks[k + 1].firstRow == l.blocks[k].lastRow + 1
    ensures l.blocks[|l.blocks| - 1].lastRow == l.cursor - 1
  {
    LayoutBlock(days, l, 0);
    forall k | 0 <= k < |l.blocks|
      ensures l.blocks[k].lastRow - l.blocks[k].firstRow + 1 == |l.blocks[k].periods| == |Periods(days[k].weekdayName)|
    {
      LayoutBlock(days, l, k);
    }
    forall k | 0 <= k < |l.blocks| - 1 ensures l.blocks[k + 1].firstRow == l.blocks[k].lastRow + 1 {
      LayoutBlock(days, l, k);
      LayoutBlock(days, l, k + 1);
    }
    LayoutBlock(days, l, |days| - 1);
  }

  /** A block ends above every later block. */
  lemma BlocksInOrder(days: seq<SchoolDay>, l: Layout, k1: nat, k2: nat)
    requires days != [] && IsLayoutOf(days, l)
    requires k1 < k2 < |days|
    ensures l.blocks[k1].lastRow < l.blocks[k2].firstRow
  {
    LayoutBlock(days, l, k1);
    LayoutBlock(days, l, k2);
    BlockAtInOrder(days, k1, k2);
  }

  predicate Overlaps(a: CellRange, b: CellRange) {
    && a.firstRow <= b.lastRow && b.firstRow <= a.lastRow
    && a.firstColumn <= b.lastColumn && b.firstColumn <= a.lastColumn
  }

  /** No two merged ranges of the sheet share a cell. */
  lemma MergesAreDisjoint(days: seq<SchoolDay>, l: Layout, i: nat, j: nat)
    requires days != [] && IsLayoutOf(days, l)
    requires i < j < |l.merges|
    ensures !Overlaps(l.merges[i], l.merges[j])
  {
    SheetMergesDisjoint(days, i, j);
  }

  /** Every table row from row 3 to the last printed row belongs to a block. */
  lemma RowsAreCovered(days: seq<SchoolDay>, l: Layout, row: int)
    requires days != [] && IsLayoutOf(days, l)
    requires FirstBlockRow <= row < l.cursor
    ensures exists k :: 0 <= k < |l.blocks| && l.blocks[k].firstRow <= row <= l.blocks[k].lastRow
  {
    BlockAtCovers(days, |days|, row);
    var k :| 0 <= k < |days| && BlockAt(days, k).firstRow <= row <= BlockAt(days, k).lastRow;
    LayoutBlock(days, l, k);
  }

  /** Reads the last row back from a print area `A1:F<n>`. */
  function ParsePrintArea(area: string): Option<nat> {
    if |area| > 4 && area[..4] == "A1:F" && AllDigits(area[4..]) then Some(DigitsValue(area[4..])) else None
  }

  /**
   * The print area is `A1:F` followed by the digits of its last row, with
   * nothing after them: reading it back gives that row.
   */
  lemma PrintAreaRoundTrip(lastRow: nat)
    ensures ParsePrintArea(PrintArea(lastRow)) == Some(lastRow)
  {
    var area := PrintArea(lastRow);
    assert area[..4] == "A1:F";
    assert area[4..] == NatToDecimal(lastRow);
    DecimalRoundTrip(lastRow);
  }

  /**
   * With Saturday observed on day 3: day 3 is a Saturday, day 1 a Thursday,
   * day 5 a Monday with three periods and day 6 a Tuesday with four.
   */
  lemma SaturdayOnDayThree()
    ensures WeekdayAt(Anchor(0, 3), 1) == Thursday
    ensures WeekdayAt(Anchor(0, 3), 3) == Weekdays[0]
    ensures WeekdayAt(Anchor(0, 3), 5) == Monday && |Periods(WeekdayAt(Anchor(0, 3), 5))| == 3
    ensures WeekdayAt(Anchor(0, 3), 6) == Weekdays[3] && |Periods(WeekdayAt(Anchor(0, 3), 6))| == 4
  {
  }

  /**
   * The sheet of a resolved month: no block is a Thursday or a Friday, and a
   * block has three periods exactly on Mondays and Wednesdays, four otherwise.
   */
  lemma ResolvedSheetBlocks(fetch: Service, year: int, month: int, l: Layout, k: nat)
    requires Resolve(fetch, year, month).Success?
    requires IsLayoutOf(Resolve(fetch, year, month).value, l)
    requires k < |l.blocks|
    ensures IsSchoolWeekday(l.blocks[k].weekday)
    ensures |l.blocks[k].periods| == 3 <==> l.blocks[k].weekday in {Monday, Wednesday}
    ensures |l.blocks[k].periods| == 3 || |l.blocks[k].periods| == 4
  {
    var a := AnchorOf(fetch).anchor;
    var name := MonthName(month).value;
    var days := Resolve(fetch, year, month).value;
    assert days == MonthSchoolDays(fetch, year, month, name, a);
    LayoutBlock(days, l, k);
    MonthSchoolDaysIndex(fetch, year, month, name, a);
    MonthSchoolDaysSound(fetch, year, month, name, a, k);
    assert l.blocks[k].weekday == days[k].weekdayName;
    assert l.blocks[k].periods == Periods(days[k].weekdayName);
  }
}
