/** Plain-text table rendering (src/lib/output.ts). A row is an object: its
    keys in insertion order, each with a cell value. */
module Output {
  import opened Strings

  /** The cell values the commands put in table rows. */
  datatype Cell = Null | Bool(b: bool) | Int(i: int) | Text(s: string)

  type Row = seq<(string, Cell)>

  /** toText: null is empty, booleans are "true"/"false", other values their text. */
  function ToText(value: Cell): (r: string)
    ensures value == Null ==> r == ""
    ensures value.Bool? ==> r == (if value.b then "true" else "false")
    ensures value.Int? ==> r == IntToString(value.i)
    ensures value.Text? ==> r == value.s
  {
    match value
    case Null => ""
    case Bool(b) => if b then "true" else "false"
    case Int(i) => IntToString(i)
    case Text(s) => s
  }

  /** row[column]: the value of the key, or undefined (shown as Null) when absent. */
  function Lookup(row: Row, column: string): (c: Cell)
    ensures (forall k :: 0 <= k < |row| ==> row[k].0 != column) ==> c == Null
    ensures (exists k :: 0 <= k < |row| && row[k].0 == column) ==>
      exists k :: 0 <= k < |row| && row[k].0 == column && c == row[k].1
  {
    if row == [] then Null
    else if row[0].0 == column then row[0].1
    else Lookup(row[1..], column)
  }

  function CellText(row: Row, column: string): string
  {
    ToText(Lookup(row, column))
  }

  /** Object.keys of a row. */
  function Keys(row: Row): (keys: seq<string>)
    ensures |keys| == |row|
    ensures forall k :: 0 <= k < |row| ==> keys[k] == row[k].0
  {
    seq(|row|, k requires 0 <= k < |row| => row[k].0)
  }

  /** The final width of a column: the longest of its name and its cells' texts
      (accumulated row by row, as the width loop does). */
  function ColumnWidth(rows: seq<Row>, column: string): nat
  {
    if rows == [] then |column|
    else Max(ColumnWidth(rows[..|rows| - 1], column), |CellText(rows[|rows| - 1], column)|)
  }

  function Widths(rows: seq<Row>, columns: seq<string>): (ws: seq<nat>)
    ensures |ws| == |columns|
    ensures forall k :: 0 <= k < |columns| ==> ws[k] == ColumnWidth(rows, columns[k])
  {
    seq(|columns|, k requires 0 <= k < |columns| => ColumnWidth(rows, columns[k]))
  }

  function HeaderLine(columns: seq<string>, ws: seq<nat>): string
    requires |ws| == |columns|
  {
    Join("  ", seq(|columns|, k requires 0 <= k < |columns| => PadEnd(columns[k], ws[k])))
  }

  function SeparatorLine(ws: seq<nat>): string
  {
    Join("  ", seq(|ws|, k requires 0 <= k < |ws| => Repeat('-', ws[k])))
  }

  function BodyLine(row: Row, columns: seq<string>, ws: seq<nat>): string
    requires |ws| == |columns|
  {
    Join("  ", seq(|columns|, k requires 0 <= k < |columns| => PadEnd(CellText(row, columns[k]), ws[k])))
  }

  /** Header, separator and one line per row. */
  function TableLines(rows: seq<Row>): seq<string>
    requires rows != []
  {
    var columns := Keys(rows[0]);
    var ws := Widths(rows, columns);
    [HeaderLine(columns, ws), SeparatorLine(ws)]
      + seq(|rows|, i requires 0 <= i < |rows| => BodyLine(rows[i], columns, ws))
  }

  /** renderTable. */
  function RenderTableText(rows: seq<Row>): string
  {
    if rows == [] then "(no rows)" else Join("\n", TableLines(rows))
  }

  /** renderTable as the source computes it: the widths map is filled by one loop
      over the columns and then widened by a nested loop over rows and columns. */
  method RenderTable(rows: seq<Row>) returns (out: string)
    ensures out == RenderTableText(rows)
    ensures rows == [] ==> out == "(no rows)"
  {
    if |rows| == 0 {
      return "(no rows)";
    }
    var columns := Keys(rows[0]);
    var widths: map<string, nat> := map[];
    for j := 0 to |columns|
      invariant forall c :: c in columns[..j] ==> c in widths && widths[c] == ColumnWidth([], c)
    {
      widths := widths[columns[j] := |columns[j]|];
    }
    for i := 0 to |rows|
      invariant forall c :: c in columns ==> c in widths && widths[c] == ColumnWidth(rows[..i], c)
    {
      assert rows[..i + 1][..i] == rows[..i];
      for j := 0 to |columns|
        invariant forall c :: c in columns ==> c in widths
        invariant forall c :: c in columns ==>
          widths[c] == if c in columns[..j] then ColumnWidth(rows[..i + 1], c) else ColumnWidth(rows[..i], c)
      {
        var column := columns[j];
        var cell := CellText(rows[i], column);
        widths := widths[column := Max(widths[column], |cell|)];
        assert columns[..j + 1] == columns[..j] + [column];
      }
    }
    assert rows[..|rows|] == rows;
    var ws := seq(|columns|, k requires 0 <= k < |columns| => widths[columns[k]]);
    assert ws == Widths(rows, columns);
    var header := HeaderLine(columns, ws);
    var separator := SeparatorLine(ws);
    var body := seq(|rows|, i requires 0 <= i < |rows| => BodyLine(rows[i], columns, ws));
    out := Join("\n", [header, separator] + body);
  }

  // ---------------------------------------------------------------------------
  // Properties

  /** A column's width is at least its name and every cell, and equals one of them. */
  lemma {:induction false} ColumnWidthIsMax(rows: seq<Row>, column: string)
    ensures ColumnWidth(rows, column) >= |column|
    ensures forall i :: 0 <= i < |rows| ==> ColumnWidth(rows, column) >= |CellText(rows[i], column)|
    ensures ColumnWidth(rows, column) == |column|
         || exists i :: 0 <= i < |rows| && ColumnWidth(rows, column) == |CellText(rows[i], column)|
    decreases |rows|
  {
    if rows != [] {
      var init := rows[..|rows| - 1];
      ColumnWidthIsMax(init, column);
      assert forall i :: 0 <= i < |init| ==> init[i] == rows[i];
    }
  }

  /** The table has two lines more than rows: header, separator, then one line per row. */
  lemma LineCount(rows: seq<Row>)
    requires rows != []
    ensures |TableLines(rows)| == |rows| + 2
    ensures forall i :: 0 <= i < |rows| ==>
      TableLines(rows)[i + 2] == BodyLine(rows[i], Keys(rows[0]), Widths(rows, Keys(rows[0])))
  {
  }

  /** The width every line has: the column widths plus two spaces between columns. */
  function LineWidth(ws: seq<nat>): nat
  {
    if ws == [] then 0 else SumNat(ws) + 2 * (|ws| - 1)
  }

  function SumNat(ws: seq<nat>): nat
  {
    if ws == [] then 0 else ws[0] + SumNat(ws[1..])
  }

  lemma {:induction false} SumLengthsOfWidths(parts: seq<string>, ws: seq<nat>)
    requires |parts| == |ws|
    requires forall k :: 0 <= k < |ws| ==> |parts[k]| == ws[k]
    ensures SumLengths(parts) == SumNat(ws)
  {
    if parts != [] {
      SumLengthsOfWidths(parts[1..], ws[1..]);
    }
  }

  /** Joining cells padded to the widths gives a line of LineWidth characters. */
  lemma PaddedLineWidth(parts: seq<string>, ws: seq<nat>)
    requires |parts| == |ws|
    requires forall k :: 0 <= k < |ws| ==> |parts[k]| == ws[k]
    ensures |Join("  ", parts)| == LineWidth(ws)
  {
    if parts != [] {
      JoinLength("  ", parts);
      SumLengthsOfWidths(parts, ws);
    }
  }

  /** Every cell is right-padded to its column width, so all lines have the same length. */
  lemma LinesHaveEqualLength(rows: seq<Row>)
    requires rows != []
    ensures forall line :: line in TableLines(rows) ==> |line| == LineWidth(Widths(rows, Keys(rows[0])))
  {
    var columns := Keys(rows[0]);
    var ws := Widths(rows, columns);
    forall k | 0 <= k < |columns| ensures ws[k] >= |columns[k]| {
      ColumnWidthIsMax(rows, columns[k]);
    }
    PaddedLineWidth(seq(|columns|, k requires 0 <= k < |columns| => PadEnd(columns[k], ws[k])), ws);
    PaddedLineWidth(seq(|ws|, k requires 0 <= k < |ws| => Repeat('-', ws[k])), ws);
    forall i | 0 <= i < |rows| ensures |BodyLine(rows[i], columns, ws)| == LineWidth(ws) {
      forall k | 0 <= k < |columns| ensures ws[k] >= |CellText(rows[i], columns[k])| {
        ColumnWidthIsMax(rows, columns[k]);
      }
      PaddedLineWidth(seq(|columns|, k requires 0 <= k < |columns| => PadEnd(CellText(rows[i], columns[k]), ws[k])), ws);
    }
  }

  /** The separator line holds only dashes and the two-space gaps. */
  lemma SeparatorIsDashes(ws: seq<nat>)
    ensures forall c :: c in SeparatorLine(ws) ==> c == '-' || c == ' '
  {
    var parts := seq(|ws|, k requires 0 <= k < |ws| => Repeat('-', ws[k]));
    forall c | c !in "- " ensures c !in SeparatorLine(ws) {
      JoinLacks("  ", parts, c);
    }
  }

  /** When no column name or cell text contains a line break, the rendered text
      splits back into exactly the table's lines. */
  lemma RenderSplitsIntoLines(rows: seq<Row>)
    requires rows != []
    requires forall k :: 0 <= k < |rows[0]| ==> '\n' !in rows[0][k].0
    requires forall i, c :: 0 <= i < |rows| && c in Keys(rows[0]) ==> '\n' !in CellText(rows[i], c)
    ensures Split(RenderTableText(rows), '\n') == TableLines(rows)
  {
    var columns := Keys(rows[0]);
    var ws := Widths(rows, columns);
    var lines := TableLines(rows);
    forall k | 0 <= k < |columns| ensures '\n' !in PadEnd(columns[k], ws[k]) {
      PadEndLacks(columns[k], ws[k], '\n');
    }
    JoinLacks("  ", seq(|columns|, k requires 0 <= k < |columns| => PadEnd(columns[k], ws[k])), '\n');
    JoinLacks("  ", seq(|ws|, k requires 0 <= k < |ws| => Repeat('-', ws[k])), '\n');
    forall i | 0 <= i < |rows| ensures '\n' !in BodyLine(rows[i], columns, ws) {
      forall k | 0 <= k < |columns| ensures '\n' !in PadEnd(CellText(rows[i], columns[k]), ws[k]) {
        assert columns[k] in Keys(rows[0]);
        PadEndLacks(CellText(rows[i], columns[k]), ws[k], '\n');
      }
      JoinLacks("  ", seq(|columns|, k requires 0 <= k < |columns| => PadEnd(CellText(rows[i], columns[k]), ws[k])), '\n');
    }
    SplitJoin('\n', lines);
  }

  lemma PadEndLacks(s: string, width: nat, c: char)
    requires c !in s && c != ' '
    ensures c !in PadEnd(s, width)
  {
  }
}
