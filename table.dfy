/** `format_table`: a plain-text table of resolved channels, one column per
    field, each column padded to its widest cell. A cell is the row's value
    for the column's key: `""` when the key is missing, `"None"` when it holds
    `None`. The column logic is stated for any list of headers; the table the
    program prints uses `Headers`. */
module Table {
  import opened Wrappers
  import opened Strings

  type TableRow = map<string, Option<string>>

  const Headers: seq<string> := ["local_channel", "local_port", "counterparty_channel",
    "counterparty_port", "counterparty_chain_id", "connection_id", "client_id"]
  const Keys: seq<string> := ["channel_id", "port_id", "counterparty_channel_id",
    "counterparty_port_id", "counterparty_chain_id", "connection_id", "client_id"]
  const Separator: string := "  "

  /** The text of the row's value for `key`: empty when the key is
      missing, `None` when the value is null. */
  function Cell(r: TableRow, key: string): (c: string)
    ensures key !in r ==> c == ""
    ensures key in r && r[key].None? ==> c == "None"
    ensures key in r && r[key].Some? ==> c == r[key].value
  {
    if key !in r then "" else match r[key] case None => "None" case Some(s) => s
  }

  function Cells(r: TableRow): (cells: seq<string>)
    ensures |cells| == |Keys|
    ensures forall i :: 0 <= i < |Keys| ==> cells[i] == Cell(r, Keys[i])
  {
    seq(|Keys|, i requires 0 <= i < |Keys| => Cell(r, Keys[i]))
  }

  /** The length of the longest string. */
  function MaxLen(xs: seq<string>): nat {
    if xs == [] then 0
    else
      var rest := MaxLen(xs[..|xs| - 1]);
      var last := |xs[|xs| - 1]|;
      if last > rest then last else rest
  }

  /** `MaxLen` is the length of some element and no element is longer. */
  lemma {:induction false} MaxLenIsMax(xs: seq<string>)
    ensures forall i :: 0 <= i < |xs| ==> |xs[i]| <= MaxLen(xs)
    ensures xs != [] ==> exists i :: 0 <= i < |xs| && |xs[i]| == MaxLen(xs)
    ensures xs == [] ==> MaxLen(xs) == 0
  {
    if xs != [] {
      var init := xs[..|xs| - 1];
      MaxLenIsMax(init);
      assert forall i :: 0 <= i < |xs| - 1 ==> xs[i] == init[i];
      if init != [] {
        var k :| 0 <= k < |init| && |init[k]| == MaxLen(init);
        assert xs[k] == init[k];
      }
    }
  }

  /** Every row has one cell per header. */
  predicate Shaped(headers: seq<string>, table: seq<seq<string>>) {
    forall j :: 0 <= j < |table| ==> |table[j]| == |headers|
  }

  /** Cell `i` of every row, in row order. */
  function Project(table: seq<seq<string>>, i: nat): (col: seq<string>)
    requires forall j :: 0 <= j < |table| ==> i < |table[j]|
    ensures |col| == |table|
    ensures forall j :: 0 <= j < |table| ==> col[j] == table[j][i]
  {
    if table == [] then []
    else Project(table[..|table| - 1], i) + [table[|table| - 1][i]]
  }

  /** Header `i` followed by cell `i` of every row. */
  function Column(headers: seq<string>, table: seq<seq<string>>, i: nat): seq<string>
    requires Shaped(headers, table)
    requires i < |headers|
  {
    [headers[i]] + Project(table, i)
  }

  function Widths(headers: seq<string>, table: seq<seq<string>>): (widths: seq<nat>)
    requires Shaped(headers, table)
    ensures |widths| == |headers|
    ensures forall i :: 0 <= i < |headers| ==> |headers[i]| <= widths[i]
  {
    HeadersFit(headers, table);
    seq(|headers|, i requires 0 <= i < |headers| => MaxLen(Column(headers, table, i)))
  }

  lemma HeadersFit(headers: seq<string>, table: seq<seq<string>>)
    requires Shaped(headers, table)
    ensures forall i :: 0 <= i < |headers| ==> |headers[i]| <= MaxLen(Column(headers, table, i))
  {
    forall i | 0 <= i < |headers|
      ensures |headers[i]| <= MaxLen(Column(headers, table, i))
    {
      var col := Column(headers, table, i);
      MaxLenIsMax(col);
      assert col[0] == headers[i];
    }
  }

  /** Each cell left-justified to its column's width, the cells separated
      by two spaces. A line is never narrower than the columns, and is
      exactly as wide when every cell fits. */
  function FormatRow(widths: seq<nat>, row: seq<string>): (line: string)
    requires |row| == |widths|
    ensures |line| >= LineWidth(widths)
    ensures (forall i :: 0 <= i < |row| ==> |row[i]| <= widths[i]) ==> |line| == LineWidth(widths)
  {
    var cells := Padded(widths, row);
    JoinWidth(cells, widths);
    Join(Separator, cells)
  }

  /** Each cell left-justified to its column's width. */
  function Padded(widths: seq<nat>, row: seq<string>): (cells: seq<string>)
    requires |row| == |widths|
    ensures |cells| == |row|
    ensures forall i :: 0 <= i < |row| ==> cells[i] == LJust(row[i], widths[i])
  {
    seq(|row|, i requires 0 <= i < |row| => LJust(row[i], widths[i]))
  }

  /** Where column `i` starts in a line: after every earlier column's width
      and its separator. */
  function Start(widths: seq<nat>, i: nat): nat
    requires i <= |widths|
  {
    if i == 0 then 0 else widths[0] + |Separator| + Start(widths[1..], i - 1)
  }

  /** When every cell fits its column, each padded cell starts at its
      column's start. */
  lemma {:induction false} OffsetIsStart(cells: seq<string>, widths: seq<nat>, i: nat)
    requires |cells| == |widths|
    requires forall j :: 0 <= j < |cells| ==> |cells[j]| == widths[j]
    requires i <= |cells|
    ensures JoinOffset(Separator, cells, i) == Start(widths, i)
  {
    if i > 0 {
      assert forall j :: 0 <= j < |cells| - 1 ==> cells[1..][j] == cells[j + 1] && widths[1..][j] == widths[j + 1];
      OffsetIsStart(cells[1..], widths[1..], i - 1);
    }
  }

  /** When every cell fits, the line holds cell `i` left-justified at its
      column's start, the cell's own text first, and two spaces after every
      column but the last. */
  lemma RowPlacesCells(widths: seq<nat>, row: seq<string>, i: nat)
    requires |row| == |widths|
    requires Fits(widths, row)
    requires i < |row|
    ensures OccursAt(FormatRow(widths, row), Start(widths, i), LJust(row[i], widths[i]))
    ensures OccursAt(FormatRow(widths, row), Start(widths, i), row[i])
    ensures i + 1 < |row| ==> OccursAt(FormatRow(widths, row), Start(widths, i) + widths[i], Separator)
  {
    var cells := Padded(widths, row);
    var line := FormatRow(widths, row);
    assert line == Join(Separator, cells);
    assert cells[i] == LJust(row[i], widths[i]);
    OffsetIsStart(cells, widths, i);
    JoinPlacesParts(Separator, cells, i);
    OccursAtPrefix(line, Start(widths, i), cells[i], row[i]);
  }

  /** Every cell of a row fits its column's width. */
  predicate Fits(widths: seq<nat>, row: seq<string>)
    requires |row| == |widths|
  {
    forall j :: 0 <= j < |row| ==> |row[j]| <= widths[j]
  }

  /** The headers and every row fit the widths the table computes. */
  lemma TableFits(headers: seq<string>, table: seq<seq<string>>)
    requires Shaped(headers, table)
    ensures Fits(Widths(headers, table), headers)
    ensures forall j :: 0 <= j < |table| ==> Fits(Widths(headers, table), table[j])
  {
    var widths := Widths(headers, table);
    forall c | 0 <= c < |headers|
      ensures |headers[c]| <= widths[c]
      ensures forall j :: 0 <= j < |table| ==> |table[j][c]| <= widths[c]
    {
      ColumnIsTight(headers, table, c);
    }
  }

  /** In the table, the header line holds each header at the start of its
      column. */
  lemma HeaderInPlace(headers: seq<string>, table: seq<seq<string>>, i: nat)
    requires Shaped(headers, table)
    requires i < |headers|
    ensures OccursAt(LinesOf(headers, table)[0], Start(Widths(headers, table), i), headers[i])
  {
    var widths := Widths(headers, table);
    TableFits(headers, table);
    assert LinesOf(headers, table)[0] == FormatRow(widths, headers);
    RowPlacesCells(widths, headers, i);
  }

  /** In the table, the dashes line holds a run of dashes as wide as each
      column at the start of that column. */
  lemma DashesInPlace(headers: seq<string>, table: seq<seq<string>>, i: nat)
    requires Shaped(headers, table)
    requires i < |headers|
    ensures OccursAt(LinesOf(headers, table)[1], Start(Widths(headers, table), i), Repeat('-', Widths(headers, table)[i]))
  {
    var widths := Widths(headers, table);
    var dashes := Dashes(widths);
    assert LinesOf(headers, table)[1] == FormatRow(widths, dashes);
    assert Fits(widths, dashes);
    RowPlacesCells(widths, dashes, i);
  }

  /** In the table, the line of row `j` holds each of its cells at the start
      of its column. */
  lemma CellInPlace(headers: seq<string>, table: seq<seq<string>>, j: nat, i: nat)
    requires Shaped(headers, table)
    requires j < |table| && i < |headers|
    ensures OccursAt(LinesOf(headers, table)[j + 2], Start(Widths(headers, table), i), table[j][i])
  {
    var widths := Widths(headers, table);
    TableFits(headers, table);
    assert LinesOf(headers, table)[j + 2] == RowLines(widths, table)[j];
    RowPlacesCells(widths, table[j], i);
  }

  /** One run of dashes per column, as wide as the column. */
  function Dashes(widths: seq<nat>): (r: seq<string>)
    ensures |r| == |widths|
    ensures forall i :: 0 <= i < |widths| ==> r[i] == Repeat('-', widths[i])
  {
    seq(|widths|, i requires 0 <= i < |widths| => Repeat('-', widths[i]))
  }

  /** The header line, the dashes line, then one line per row. */
  function LinesOf(headers: seq<string>, table: seq<seq<string>>): seq<string>
    requires Shaped(headers, table)
  {
    LinesWith(Widths(headers, table), headers, table)
  }

  function LinesWith(widths: seq<nat>, headers: seq<string>, table: seq<seq<string>>): seq<string>
    requires Shaped(headers, table)
    requires |widths| == |headers|
  {
    [FormatRow(widths, headers), FormatRow(widths, Dashes(widths))] + RowLines(widths, table)
  }

  function RowLines(widths: seq<nat>, table: seq<seq<string>>): (lines: seq<string>)
    requires forall j :: 0 <= j < |table| ==> |table[j]| == |widths|
    ensures |lines| == |table|
    ensures forall k :: 0 <= k < |table| ==> lines[k] == FormatRow(widths, table[k])
  {
    seq(|table|, j requires 0 <= j < |table| => FormatRow(widths, table[j]))
  }

  function TableOf(rows: seq<TableRow>): (table: seq<seq<string>>)
    ensures |table| == |rows|
    ensures Shaped(Headers, table)
    ensures forall j :: 0 <= j < |rows| ==> table[j] == Cells(rows[j])
  {
    seq(|rows|, j requires 0 <= j < |rows| => Cells(rows[j]))
  }

  function TableLines(rows: seq<TableRow>): seq<string> {
    LinesOf(Headers, TableOf(rows))
  }

  method FormatTable(rows: seq<TableRow>) returns (text: string)
    ensures text == Join("\n", TableLines(rows))
  {
    var table := CellTable(rows);
    text := Render(Headers, table);
  }

  method Render(headers: seq<string>, table: seq<seq<string>>) returns (text: string)
    requires Shaped(headers, table)
    ensures text == Join("\n", LinesOf(headers, table))
  {
    var widths := ColumnWidths(headers, table);
    var lines := FormatLines(headers, table, widths);
    LinesWithElementwise(widths, headers, table, lines);
    text := Join("\n", lines);
  }

  method CellTable(rows: seq<TableRow>) returns (table: seq<seq<string>>)
    ensures table == TableOf(rows)
  {
    table := [];
    for j := 0 to |rows|
      invariant |table| == j
      invariant forall k :: 0 <= k < j ==> table[k] == Cells(rows[k])
    {
      table := table + [Cells(rows[j])];
    }
  }

  /** The width of column `i`: the longest of its header and its cells. */
  method ColumnWidth(headers: seq<string>, table: seq<seq<string>>, i: nat) returns (w: nat)
    requires Shaped(headers, table)
    requires i < |headers|
    ensures w == MaxLen(Column(headers, table, i))
  {
    ghost var seen := [headers[i]];
    w := |headers[i]|;
    MaxLenAppend([], headers[i]);
    assert seen == [] + [headers[i]];
    for j := 0 to |table|
      invariant |seen| == j + 1 && seen[0] == headers[i]
      invariant forall k :: 0 <= k < j ==> seen[k + 1] == table[k][i]
      invariant w == MaxLen(seen)
    {
      MaxLenAppend(seen, table[j][i]);
      seen := seen + [table[j][i]];
      w := if |table[j][i]| > w then |table[j][i]| else w;
    }
    ColumnElementwise(headers, table, i, seen);
  }

  lemma ColumnElementwise(headers: seq<string>, table: seq<seq<string>>, i: nat, seen: seq<string>)
    requires Shaped(headers, table)
    requires i < |headers|
    requires |seen| == |table| + 1 && seen[0] == headers[i]
    requires forall k :: 0 <= k < |table| ==> seen[k + 1] == table[k][i]
    ensures seen == Column(headers, table, i)
  {
    var col := Column(headers, table, i);
    forall k | 0 <= k < |seen|
      ensures seen[k] == col[k]
    {
      if k > 0 {
        assert seen[(k - 1) + 1] == table[k - 1][i];
      }
    }
  }

  method ColumnWidths(headers: seq<string>, table: seq<seq<string>>) returns (widths: seq<nat>)
    requires Shaped(headers, table)
    ensures widths == Widths(headers, table)
  {
    widths := [];
    for i := 0 to |headers|
      invariant |widths| == i
      invariant forall c :: 0 <= c < i ==> widths[c] == Widths(headers, table)[c]
    {
      var w := ColumnWidth(headers, table, i);
      assert w == Widths(headers, table)[i];
      widths := widths + [w];
    }
  }

  method FormatLines(headers: seq<string>, table: seq<seq<string>>, widths: seq<nat>)
    returns (lines: seq<string>)
    requires Shaped(headers, table)
    requires |widths| == |headers|
    ensures |lines| == |table| + 2
    ensures lines[0] == FormatRow(widths, headers)
    ensures lines[1] == FormatRow(widths, Dashes(widths))
    ensures forall k :: 0 <= k < |table| ==> lines[k + 2] == FormatRow(widths, table[k])
  {
    var head, rule := FormatRow(widths, headers), FormatRow(widths, Dashes(widths));
    lines := [head, rule];
    for j := 0 to |table|
      invariant |lines| == j + 2
      invariant lines[0] == head && lines[1] == rule
      invariant forall k :: 0 <= k < j ==> lines[k + 2] == FormatRow(widths, table[k])
    {
      lines := lines + [FormatRow(widths, table[j])];
    }
  }

  lemma LinesWithElementwise(widths: seq<nat>, headers: seq<string>, table: seq<seq<string>>,
                             lines: seq<string>)
    requires Shaped(headers, table)
    requires |widths| == |headers|
    requires |lines| == |table| + 2
    requires lines[0] == FormatRow(widths, headers)
    requires lines[1] == FormatRow(widths, Dashes(widths))
    requires forall k :: 0 <= k < |table| ==> lines[k + 2] == FormatRow(widths, table[k])
    ensures lines == LinesWith(widths, headers, table)
  {
    var rest := RowLines(widths, table);
    assert lines[2..] == rest by {
      forall k | 0 <= k < |rest|
        ensures lines[2..][k] == rest[k]
      {
        assert lines[k + 2] == FormatRow(widths, table[k]);
      }
    }
    assert lines == lines[..2] + lines[2..];
  }

  lemma MaxLenAppend(xs: seq<string>, x: string)
    ensures MaxLen(xs + [x]) == if |x| > MaxLen(xs) then |x| else MaxLen(xs)
  {
    assert (xs + [x])[..|xs|] == xs;
  }

  /** The length of a line whose cells are padded to `widths`, joined by the
      separator. */
  function LineWidth(widths: seq<nat>): nat {
    if widths == [] then 0
    else if |widths| == 1 then widths[0]
    else widths[0] + |Separator| + LineWidth(widths[1..])
  }

  lemma {:induction false} JoinWidth(parts: seq<string>, widths: seq<nat>)
    requires |parts| == |widths|
    ensures (forall i :: 0 <= i < |parts| ==> |parts[i]| >= widths[i]) ==> |Join(Separator, parts)| >= LineWidth(widths)
    ensures (forall i :: 0 <= i < |parts| ==> |parts[i]| == widths[i]) ==> |Join(Separator, parts)| == LineWidth(widths)
  {
    if |parts| > 1 {
      JoinWidth(parts[1..], widths[1..]);
      assert forall i :: 1 <= i < |parts| ==> parts[i] == parts[1..][i - 1] && widths[i] == widths[1..][i - 1];
    }
  }

  /** Each column is exactly as wide as its widest cell or header. */
  lemma ColumnIsTight(headers: seq<string>, table: seq<seq<string>>, i: nat)
    requires Shaped(headers, table)
    requires i < |headers|
    ensures |headers[i]| <= Widths(headers, table)[i]
    ensures forall j :: 0 <= j < |table| ==> |table[j][i]| <= Widths(headers, table)[i]
    ensures |headers[i]| == Widths(headers, table)[i] ||
      exists j :: 0 <= j < |table| && |table[j][i]| == Widths(headers, table)[i]
  {
    var col := Column(headers, table, i);
    MaxLenIsMax(col);
    assert Widths(headers, table)[i] == MaxLen(col);
    assert col[0] == headers[i];
    assert forall j :: 0 <= j < |table| ==> col[j + 1] == table[j][i];
    var k :| 0 <= k < |col| && |col[k]| == MaxLen(col);
    if k > 0 {
      assert col[k] == table[k - 1][i];
    }
  }

  /** Every line of the table, the header and dashes lines included, has the
      same length: the columns line up. */
  lemma {:induction false} AlignedLines(headers: seq<string>, table: seq<seq<string>>)
    requires Shaped(headers, table)
    ensures forall line :: line in LinesOf(headers, table) ==>
      |line| == LineWidth(Widths(headers, table))
  {
    var widths := Widths(headers, table);
    forall i | 0 <= i < |headers|
      ensures |headers[i]| <= widths[i]
      ensures forall j :: 0 <= j < |table| ==> |table[j][i]| <= widths[i]
    {
      ColumnIsTight(headers, table, i);
    }
    assert |FormatRow(widths, headers)| == LineWidth(widths);
    assert |FormatRow(widths, Dashes(widths))| == LineWidth(widths);
    forall j | 0 <= j < |table|
      ensures |FormatRow(widths, table[j])| == LineWidth(widths)
    {
    }
  }
}
