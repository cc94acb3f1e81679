/**
 * The table layout of the command-line interface (`print_table`): every
 * cell is rendered as text, each column is as wide as its widest entry but
 * at most 60 characters, data cells are cut and padded to that width, and
 * the columns are separated by two spaces. The printed lines are returned
 * instead of echoed.
 */
module Output {
  import opened Wrappers
  import opened Text
  import opened Dicts
  import opened Values

  /** Columns wider than this are cut in the data rows. */
  const MaxColumnWidth: nat := 60
  const NoResults := "  (no results)"
  const Gap := "  "
  const RuleChar: char := '─'
  const ListIndexMessage := "list index out of range"

  /**
   * One cell of `print_table`: `str(row.get(col, ""))` for a dict row, with
   * None shown as the empty string. An object row is given as the dict of its
   * attributes, under which `getattr(row, col, "")` is the same lookup.
   */
  function Cell(row: Dict<Value>, col: string): (c: string)
    ensures !HasKey(row, col) || Get(row, col) == Some(VNone) ==> c == ""
    ensures HasKey(row, col) && Get(row, col) != Some(VNone) ==> c == Str(Get(row, col).value)
  {
    var v := GetOr(row, col, VStr(""));
    if v == VNone then "" else Str(v)
  }

  /** The cells of one row, one per column. */
  function Cells(row: Dict<Value>, columns: seq<string>): (cells: seq<string>)
    ensures |cells| == |columns|
    ensures forall i :: 0 <= i < |columns| ==> cells[i] == Cell(row, columns[i])
  {
    seq(|columns|, i requires 0 <= i < |columns| => Cell(row, columns[i]))
  }

  /** The cells of every row, in order. */
  function CellRows(rows: seq<Dict<Value>>, columns: seq<string>): (strRows: seq<seq<string>>)
    ensures |strRows| == |rows|
    ensures forall r :: 0 <= r < |rows| ==> strRows[r] == Cells(rows[r], columns)
  {
    seq(|rows|, r requires 0 <= r < |rows| => Cells(rows[r], columns))
  }

  /** `col.replace("_", " ").title()` */
  function DefaultHeader(col: string): (h: string)
    ensures |h| == |col|
  {
    Title(ReplaceChar(col, '_', ' '))
  }

  /** `headers or [default header of each column]`: an absent or empty list falls back to the defaults. */
  function HeadersFor(columns: seq<string>, headers: Option<seq<string>>): (hs: seq<string>)
    ensures headers.Some? && headers.value != [] ==> hs == headers.value
    ensures !(headers.Some? && headers.value != []) ==>
              |hs| == |columns| && forall i :: 0 <= i < |columns| ==> hs[i] == DefaultHeader(columns[i])
  {
    if headers.Some? && headers.value != [] then headers.value
    else seq(|columns|, i requires 0 <= i < |columns| => DefaultHeader(columns[i]))
  }

  /**
   * The widest entry of column `i`, starting from `w0` (the header's
   * length); rows too short to have a column `i` do not count.
   */
  function Widest(w0: nat, strRows: seq<seq<string>>, i: nat): (w: nat)
    ensures w >= w0
    ensures forall r :: 0 <= r < |strRows| && i < |strRows[r]| ==> |strRows[r][i]| <= w
    ensures w == w0 || exists r :: 0 <= r < |strRows| && i < |strRows[r]| && w == |strRows[r][i]|
  {
    if strRows == [] then w0
    else
      var init := strRows[..|strRows| - 1];
      var p := Widest(w0, init, i);
      var last := strRows[|strRows| - 1];
      assert forall r :: 0 <= r < |init| ==> init[r] == strRows[r];
      if i < |last| && |last[i]| > p then |last[i]| else p
  }

  function Min(a: nat, b: nat): nat {
    if a <= b then a else b
  }

  /** The widths after the scan over the rows, before the cap. */
  function ScannedWidths(hs: seq<string>, strRows: seq<seq<string>>): (ws: seq<nat>)
    ensures |ws| == |hs|
    ensures forall i :: 0 <= i < |hs| ==> ws[i] == Widest(|hs[i]|, strRows, i)
  {
    seq(|hs|, i requires 0 <= i < |hs| => Widest(|hs[i]|, strRows, i))
  }

  /** `[min(w, 60) for w in widths]` */
  function Capped(ws: seq<nat>): (cs: seq<nat>)
    ensures |cs| == |ws|
    ensures forall i :: 0 <= i < |ws| ==> cs[i] == Min(ws[i], MaxColumnWidth)
  {
    seq(|ws|, i requires 0 <= i < |ws| => Min(ws[i], MaxColumnWidth))
  }

  /** `cell[:w]` */
  function Truncate(s: string, w: nat): (t: string)
    ensures |t| == Min(|s|, w) && t == s[..|t|]
  {
    if |s| <= w then s else s[..w]
  }

  /** One data cell as printed: cut to the column width, then padded to it. */
  function DataCell(cell: string, w: nat): (seg: string)
    ensures |seg| == w
    ensures |cell| <= w ==> seg[..|cell|] == cell && forall k :: |cell| <= k < w ==> seg[k] == ' '
    ensures |cell| > w ==> seg == cell[..w]
  {
    LJust(Truncate(cell, w), w)
  }

  function HeaderSegments(hs: seq<string>, widths: seq<nat>): (segs: seq<string>)
    requires |widths| == |hs|
    ensures |segs| == |hs|
    ensures forall i :: 0 <= i < |hs| ==> segs[i] == LJust(hs[i], widths[i])
  {
    seq(|hs|, i requires 0 <= i < |hs| => LJust(hs[i], widths[i]))
  }

  function RuleSegments(widths: seq<nat>): (segs: seq<string>)
    ensures |segs| == |widths|
    ensures forall i :: 0 <= i < |widths| ==> segs[i] == Repeat(RuleChar, widths[i])
  {
    seq(|widths|, i requires 0 <= i < |widths| => Repeat(RuleChar, widths[i]))
  }

  function DataSegments(cells: seq<string>, widths: seq<nat>): (segs: seq<string>)
    requires |cells| <= |widths|
    ensures |segs| == |cells|
    ensures forall i :: 0 <= i < |cells| ==> segs[i] == DataCell(cells[i], widths[i])
  {
    seq(|cells|, i requires 0 <= i < |cells| => DataCell(cells[i], widths[i]))
  }

  /** The header line: every header padded to its width, never cut. */
  function HeaderLine(hs: seq<string>, widths: seq<nat>): string
    requires |widths| == |hs|
  {
    Join(HeaderSegments(hs, widths), Gap)
  }

  /** The rule under the header: each column's width in '─'. */
  function RuleLine(widths: seq<nat>): string {
    Join(RuleSegments(widths), Gap)
  }

  function DataLine(cells: seq<string>, widths: seq<nat>): string
    requires |cells| <= |widths|
  {
    Join(DataSegments(cells, widths), Gap)
  }

  function DataLines(strRows: seq<seq<string>>, widths: seq<nat>): (lines: seq<string>)
    requires forall r :: 0 <= r < |strRows| ==> |strRows[r]| <= |widths|
    ensures |lines| == |strRows|
    ensures forall r :: 0 <= r < |strRows| ==> lines[r] == DataLine(strRows[r], widths)
  {
    seq(|strRows|, r requires 0 <= r < |strRows| => DataLine(strRows[r], widths))
  }

  /**
   * Everything `print_table` prints, or the `IndexError` it raises when
   * there are rows and fewer headers than columns.
   */
  function Table(rows: seq<Dict<Value>>, columns: seq<string>, headers: Option<seq<string>>): Result<seq<string>, PyError> {
    if rows == [] then Success([NoResults])
    else
      var hs := HeadersFor(columns, headers);
      if |columns| > |hs| then Failure(IndexError(ListIndexMessage))
      else
        var strRows := CellRows(rows, columns);
        var widths := Capped(ScannedWidths(hs, strRows));
        Success([HeaderLine(hs, widths), RuleLine(widths)] + DataLines(strRows, widths))
  }

  /** `print_table`: the cell loop, the in-place width scan, the cap, then one line per row. */
  method PrintTable(rows: seq<Dict<Value>>, columns: seq<string>, headers: Option<seq<string>>)
    returns (out: Result<seq<string>, PyError>)
    ensures out == Table(rows, columns, headers)
  {
    if rows == [] {
      return Success([NoResults]);
    }
    var hs := HeadersFor(columns, headers);
    var strRows := RenderCells(rows, columns);
    var scanned := ScanWidths(hs, strRows, |columns|);
    if scanned.None? {
      return Failure(IndexError(ListIndexMessage));
    }
    var widths := seq(|hs|, i requires 0 <= i < |hs| => Min(scanned.value[i], MaxColumnWidth));
    assert widths == Capped(ScannedWidths(hs, strRows));
    var lines := RenderLines(hs, strRows, widths);
    return Success(lines);
  }

  /** The loop that turns every row into its cells. */
  method RenderCells(rows: seq<Dict<Value>>, columns: seq<string>) returns (strRows: seq<seq<string>>)
    ensures strRows == CellRows(rows, columns)
  {
    strRows := [];
    var r := 0;
    while r < |rows|
      invariant 0 <= r <= |rows|
      invariant |strRows| == r
      invariant forall q :: 0 <= q < r ==> strRows[q] == Cells(rows[q], columns)
    {
      var cells := RenderRow(rows[r], columns);
      strRows := strRows + [cells];
      r := r + 1;
    }
  }

  /** The cells of one row, column by column. */
  method RenderRow(row: Dict<Value>, columns: seq<string>) returns (cells: seq<string>)
    ensures cells == Cells(row, columns)
  {
    cells := [];
    var j := 0;
    while j < |columns|
      invariant 0 <= j <= |columns|
      invariant |cells| == j
      invariant forall k :: 0 <= k < j ==> cells[k] == Cell(row, columns[k])
    {
      cells := cells + [Cell(row, columns[j])];
      j := j + 1;
    }
  }

  /**
   * The width scan, updating `widths[i]` in place cell by cell; `None`
   * when a row has a cell with no header (`widths[i]` out of range).
   */
  method ScanWidths(hs: seq<string>, strRows: seq<seq<string>>, ncols: nat) returns (ws: Option<seq<nat>>)
    requires strRows != []
    requires forall r :: 0 <= r < |strRows| ==> |strRows[r]| == ncols
    ensures ws.None? <==> ncols > |hs|
    ensures ws.Some? ==> ws.value == ScannedWidths(hs, strRows)
  {
    var widths: seq<nat> := seq(|hs|, i requires 0 <= i < |hs| => |hs[i]|);
    var r := 0;
    while r < |strRows|
      invariant 0 <= r <= |strRows|
      invariant ncols <= |hs| || r == 0
      invariant |widths| == |hs|
      invariant forall k :: 0 <= k < |hs| ==> widths[k] == Widest(|hs[k]|, strRows[..r], k)
    {
      var cells := strRows[r];
      var i := 0;
      WidestStep(hs, strRows, r);
      while i < |cells|
        invariant 0 <= i <= |cells|
        invariant |widths| == |hs|
        invariant i <= |hs|
        invariant forall k :: 0 <= k < i ==> widths[k] == Widest(|hs[k]|, strRows[..r + 1], k)
        invariant forall k :: i <= k < |hs| ==> widths[k] == Widest(|hs[k]|, strRows[..r], k)
      {
        if i >= |widths| {
          return None;
        }
        widths := widths[i := if widths[i] >= |cells[i]| then widths[i] else |cells[i]|];
        i := i + 1;
      }
      r := r + 1;
    }
    assert strRows[..r] == strRows;
    return Some(widths);
  }

  /** The header line, the rule, then one line per row of cells. */
  method RenderLines(hs: seq<string>, strRows: seq<seq<string>>, widths: seq<nat>) returns (lines: seq<string>)
    requires |widths| == |hs|
    requires forall r :: 0 <= r < |strRows| ==> |strRows[r]| <= |widths|
    ensures lines == [HeaderLine(hs, widths), RuleLine(widths)] + DataLines(strRows, widths)
  {
    lines := [HeaderLine(hs, widths), RuleLine(widths)];
    var r := 0;
    while r < |strRows|
      invariant 0 <= r <= |strRows|
      invariant |lines| == 2 + r
      invariant lines[..2] == [HeaderLine(hs, widths), RuleLine(widths)]
      invariant forall q :: 0 <= q < r ==> lines[2 + q] == DataLine(strRows[q], widths)
    {
      lines := lines + [DataLine(strRows[r], widths)];
      r := r + 1;
    }
  }

  /** Adding row `r` to the scan: a column it has grows to the row's entry if wider; the others keep their width. */
  lemma WidestStep(hs: seq<string>, strRows: seq<seq<string>>, r: nat)
    requires r < |strRows|
    ensures forall k :: 0 <= k < |hs| ==>
              Widest(|hs[k]|, strRows[..r + 1], k)
              == (if k < |strRows[r]| && |strRows[r][k]| > Widest(|hs[k]|, strRows[..r], k)
                  then |strRows[r][k]| else Widest(|hs[k]|, strRows[..r], k))
  {
    assert strRows[..r + 1][..r] == strRows[..r];
  }

  /** Joining two lists of equally many parts: pointwise longer parts give a line at least as long, strictly longer if one part is. */
  lemma {:induction false} JoinLengths(a: seq<string>, b: seq<string>, glue: string)
    requires |a| == |b|
    requires forall i :: 0 <= i < |a| ==> |a[i]| >= |b[i]|
    ensures |Join(a, glue)| >= |Join(b, glue)|
    ensures (forall i :: 0 <= i < |a| ==> |a[i]| == |b[i]|) ==> |Join(a, glue)| == |Join(b, glue)|
    ensures (exists i :: 0 <= i < |a| && |a[i]| > |b[i]|) ==> |Join(a, glue)| > |Join(b, glue)|
  {
    if |a| > 1 {
      JoinLengths(a[1..], b[1..], glue);
      if exists i :: 0 <= i < |a| && |a[i]| > |b[i]| {
        var i :| 0 <= i < |a| && |a[i]| > |b[i]|;
        if i > 0 {
          assert |a[1..][i - 1]| > |b[1..][i - 1]|;
        }
      }
      if forall i :: 0 <= i < |a| ==> |a[i]| == |b[i]| {
        assert forall i :: 0 <= i < |a| - 1 ==> |a[1..][i]| == |a[i + 1]|;
      }
    }
  }

  /** A data row with a cell for every column is exactly as long as the rule. */
  lemma DataLineAligned(cells: seq<string>, widths: seq<nat>)
    requires |cells| == |widths|
    ensures |DataLine(cells, widths)| == |RuleLine(widths)|
  {
    JoinLengths(DataSegments(cells, widths), RuleSegments(widths), Gap);
  }

  /**
   * The header line matches the rule exactly when no header is wider than
   * its column; a wider header is padded to nothing and pushes the line out.
   */
  lemma HeaderLineAligned(hs: seq<string>, widths: seq<nat>)
    requires |widths| == |hs|
    ensures |HeaderLine(hs, widths)| >= |RuleLine(widths)|
    ensures |HeaderLine(hs, widths)| == |RuleLine(widths)| <==> forall i :: 0 <= i < |hs| ==> |hs[i]| <= widths[i]
  {
    var h := HeaderSegments(hs, widths);
    var u := RuleSegments(widths);
    JoinLengths(h, u, Gap);
    if !(forall i :: 0 <= i < |hs| ==> |hs[i]| <= widths[i]) {
      var i :| 0 <= i < |hs| && |hs[i]| > widths[i];
      assert |h[i]| > |u[i]|;
    }
  }

  /**
   * The width of column `i`: never above 60, no narrower than its header or
   * any of its cells up to that cap, and always one of those lengths or the cap.
   */
  lemma ColumnWidths(hs: seq<string>, strRows: seq<seq<string>>, i: nat)
    requires i < |hs|
    ensures var w := Capped(ScannedWidths(hs, strRows))[i];
            && w <= MaxColumnWidth
            && Min(|hs[i]|, MaxColumnWidth) <= w
            && (forall r :: 0 <= r < |strRows| && i < |strRows[r]| ==> Min(|strRows[r][i]|, MaxColumnWidth) <= w)
            && (w == MaxColumnWidth || w == |hs[i]|
                || exists r :: 0 <= r < |strRows| && i < |strRows[r]| && w == |strRows[r][i]|)
  {
  }

  /**
   * The layout of a table: the header line is as long as the rule exactly
   * when no header exceeds 60 characters, and every row with a cell for
   * each column is as long as the rule.
   */
  lemma LayoutAligned(hs: seq<string>, strRows: seq<seq<string>>)
    requires forall r :: 0 <= r < |strRows| ==> |strRows[r]| == |hs|
    ensures var widths := Capped(ScannedWidths(hs, strRows));
            && (|HeaderLine(hs, widths)| == |RuleLine(widths)| <==> forall i :: 0 <= i < |hs| ==> |hs[i]| <= MaxColumnWidth)
            && forall r :: 0 <= r < |strRows| ==> |DataLine(strRows[r], widths)| == |RuleLine(widths)|
  {
    var widths := Capped(ScannedWidths(hs, strRows));
    HeaderLineAligned(hs, widths);
    forall i | 0 <= i < |hs|
      ensures |hs[i]| <= widths[i] <==> |hs[i]| <= MaxColumnWidth
    {
      ColumnWidths(hs, strRows, i);
    }
    forall r | 0 <= r < |strRows|
      ensures |DataLine(strRows[r], widths)| == |RuleLine(widths)|
    {
      DataLineAligned(strRows[r], widths);
    }
  }

  /**
   * What `print_table` prints: one "(no results)" line for no rows; an
   * `IndexError` exactly when there are rows and fewer headers than columns
   * (never with the default headers); otherwise a header, a rule and one
   * line per row, laid out as `LayoutAligned` states.
   */
  lemma TableShape(rows: seq<Dict<Value>>, columns: seq<string>, headers: Option<seq<string>>)
    ensures rows == [] ==> Table(rows, columns, headers) == Success([NoResults])
    ensures Table(rows, columns, headers).Failure? <==> rows != [] && |columns| > |HeadersFor(columns, headers)|
    ensures headers.None? ==> Table(rows, columns, headers).Success?
    ensures rows != [] && |columns| <= |HeadersFor(columns, headers)| ==>
              var hs := HeadersFor(columns, headers);
              var strRows := CellRows(rows, columns);
              var widths := Capped(ScannedWidths(hs, strRows));
              Table(rows, columns, headers) == Success([HeaderLine(hs, widths), RuleLine(widths)] + DataLines(strRows, widths))
  {
  }
}
