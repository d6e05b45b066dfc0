/**
 * The order summariser of the file-load handler: skip the header row, keep the
 * rows whose SKU cell (column I) is non-blank text, coerce their quantity cell
 * (column S), route each SKU by its upper-cased first character into the
 * "K/L/D" table or the "R" table, total the quantities per SKU in first-seen
 * order, and add every kept row's quantity to a grand total.
 *
 * The specification functions (`Lines`, `InGroup`, `Table`, `SummaryOf`)
 * describe the result without the loop; `Summarize` is the loop itself,
 * proved equal to `SummaryOf`, and the lemmas at the end state what the
 * tables and the total are.
 */
module Summary {
  import opened Wrappers
  import opened Cells
  import OrderedRecord
  import opened Tally

  /** Column I holds the SKU. */
  const SkuCol: nat := 8
  /** Column S holds the quantity. */
  const QtyCol: nat := 18

  /** One row of an output table: a SKU and its total quantity. */
  datatype SummaryItem = SummaryItem(sku: string, qty: int)

  /** What the handler hands to the page: the two tables and the grand total. */
  datatype Summary = Summary(group1: seq<SummaryItem>, group2: seq<SummaryItem>, grandTotal: int)

  /** A kept row, reduced to its SKU (the key) and its coerced quantity. */
  type OrderLine = Line<string>

  /** The "K/L/D" table, the "R" table, or neither. */
  datatype Group = KLD | R | Ungrouped

  // ---------------------------------------------------------------------------
  // Classification

  /** `toUpperCase` on one character, for the ASCII letters. */
  function UpperAscii(c: char): char {
    if 'a' <= c <= 'z' then (c as int - 32) as char else c
  }

  /** `sku.charAt(0).toUpperCase()` compared with "K", "L", "D", then with "R". */
  function GroupOf(sku: string): Group {
    if sku == [] then Ungrouped
    else
      var first := UpperAscii(sku[0]);
      if first == 'K' || first == 'L' || first == 'D' then KLD
      else if first == 'R' then R
      else Ungrouped
  }

  /**
   * Routing looks at the first character of the SKU as it stands, ignoring its
   * case: leading whitespace is not skipped, so " K1" is in neither table.
   */
  lemma GroupOfFirstChar(sku: string)
    ensures GroupOf(sku) == KLD <==> |sku| > 0 && sku[0] in "KLDkld"
    ensures GroupOf(sku) == R <==> |sku| > 0 && sku[0] in "Rr"
    ensures GroupOf(" K1") == Ungrouped && GroupOf("k1") == KLD && GroupOf("r2") == R
  {
  }

  // ---------------------------------------------------------------------------
  // Which rows count, and what they contribute

  /**
   * A row becomes an order line when its SKU cell is text with a character
   * that is not whitespace (`typeof sku === "string" && sku.trim()`); its
   * quantity is `Number(row[18]) || 0`.
   */
  function LineOf(row: Row): (r: Option<OrderLine>)
    ensures r.Some? <==> CellAt(row, SkuCol).Text? && !AllWhitespace(CellAt(row, SkuCol).s)
    ensures r.Some? ==> r.value.key == CellAt(row, SkuCol).s && r.value.qty == Quantity(CellAt(row, QtyCol))
  {
    match CellAt(row, SkuCol)
    case Text(s) => if Trim(s) != [] then Some(Line(s, Quantity(CellAt(row, QtyCol)))) else None
    case _ => None
  }

  /** `rows.slice(1)`: everything after the header row; nothing for an empty sheet. */
  function Body(rows: seq<Row>): seq<Row> {
    if rows == [] then [] else rows[1..]
  }

  /** The order lines of the given rows, in row order. */
  function Lines(rows: seq<Row>): seq<OrderLine>
    decreases |rows|
  {
    if rows == [] then []
    else
      var p := Lines(rows[..|rows| - 1]);
      match LineOf(rows[|rows| - 1])
      case Some(l) => p + [l]
      case None => p
  }

  /** The test that sends a SKU to group `g`. */
  function Routed(g: Group): string -> bool {
    k => GroupOf(k) == g
  }

  /** The order lines routed to group `g`, in order. */
  function InGroup(ls: seq<OrderLine>, g: Group): (r: seq<OrderLine>)
    ensures forall i :: 0 <= i < |r| ==> GroupOf(r[i].key) == g
  {
    Select(ls, Routed(g))
  }

  /** `.map(([sku, qty]) => ({ sku, qty }))` over dictionary entries. */
  function ToItems(entries: seq<(string, int)>): (items: seq<SummaryItem>)
    ensures |items| == |entries|
    ensures forall i :: 0 <= i < |items| ==> items[i].sku == entries[i].0 && items[i].qty == entries[i].1
  {
    seq(|entries|, i requires 0 <= i < |entries| => SummaryItem(entries[i].0, entries[i].1))
  }

  /** The table of group `g`: one item per distinct SKU of the group, in first-seen order, with its total. */
  function Table(ls: seq<OrderLine>, g: Group): seq<SummaryItem> {
    ToItems(Aggregate(InGroup(ls, g)))
  }

  /** The result of the file-load handler, described without its loop. */
  function SummaryOf(rows: seq<Row>): Summary {
    SummaryOfLines(Lines(Body(rows)))
  }

  /** The tables and the grand total of the given order lines. */
  function SummaryOfLines(ls: seq<OrderLine>): Summary {
    Summary(Table(ls, KLD), Table(ls, R), SumAll(ls))
  }

  /** The sum of the quantities of a table. */
  function Total(items: seq<SummaryItem>): int
    decreases |items|
  {
    if items == [] then 0 else Total(items[..|items| - 1]) + items[|items| - 1].qty
  }

  /** Some table row carries exactly this SKU string. */
  ghost predicate Lists(items: seq<SummaryItem>, k: string) {
    exists i :: 0 <= i < |items| && items[i].sku == k
  }

  // ---------------------------------------------------------------------------
  // The loop of the file-load handler

  lemma LinesSnoc(rows: seq<Row>, row: Row)
    ensures LineOf(row).Some? ==> Lines(rows + [row]) == Lines(rows) + [LineOf(row).value]
    ensures LineOf(row).None? ==> Lines(rows + [row]) == Lines(rows)
  {
    assert (rows + [row])[..|rows|] == rows;
  }

  /** The lines of the first `i + 1` rows extend the lines of the first `i` by the line of row `i`, if any. */
  lemma LinesStep(rows: seq<Row>, i: nat)
    requires i < |rows|
    ensures LineOf(rows[i]).Some? ==> Lines(rows[..i + 1]) == Lines(rows[..i]) + [LineOf(rows[i]).value]
    ensures LineOf(rows[i]).None? ==> Lines(rows[..i + 1]) == Lines(rows[..i])
  {
    assert rows[..i + 1][..i] == rows[..i];
  }

  /** The loop's state after the lines `seen`: both dictionaries and the running total. */
  ghost predicate Progress(seen: seq<OrderLine>, map1: OrderedRecord.Record<string>, map2: OrderedRecord.Record<string>, total: int) {
    && Tallies(map1, InGroup(seen, KLD))
    && Tallies(map2, InGroup(seen, R))
    && total == SumAll(seen)
  }

  /** A kept line of the "K/L/D" group updates `map1` and the total. */
  lemma ProgressKLD(seen: seq<OrderLine>, map1: OrderedRecord.Record<string>, map2: OrderedRecord.Record<string>, total: int, l: OrderLine)
    requires Progress(seen, map1, map2, total)
    requires GroupOf(l.key) == KLD
    ensures Progress(seen + [l], map1.Put(l.key, map1.Get(l.key) + l.qty), map2, total + l.qty)
  {
    SelectSnoc(seen, l, Routed(KLD));
    SelectSnoc(seen, l, Routed(R));
    SumAllSnoc(seen, l);
    TalliesPut(map1, InGroup(seen, KLD), l);
  }

  /** A kept line of the "R" group updates `map2` and the total. */
  lemma ProgressR(seen: seq<OrderLine>, map1: OrderedRecord.Record<string>, map2: OrderedRecord.Record<string>, total: int, l: OrderLine)
    requires Progress(seen, map1, map2, total)
    requires GroupOf(l.key) == R
    ensures Progress(seen + [l], map1, map2.Put(l.key, map2.Get(l.key) + l.qty), total + l.qty)
  {
    SelectSnoc(seen, l, Routed(KLD));
    SelectSnoc(seen, l, Routed(R));
    SumAllSnoc(seen, l);
    TalliesPut(map2, InGroup(seen, R), l);
  }

  /** A kept line of neither group updates only the total. */
  lemma ProgressUngrouped(seen: seq<OrderLine>, map1: OrderedRecord.Record<string>, map2: OrderedRecord.Record<string>, total: int, l: OrderLine)
    requires Progress(seen, map1, map2, total)
    requires GroupOf(l.key) == Ungrouped
    ensures Progress(seen + [l], map1, map2, total + l.qty)
  {
    SelectSnoc(seen, l, Routed(KLD));
    SelectSnoc(seen, l, Routed(R));
    SumAllSnoc(seen, l);
  }

  /**
   * The `forEach` callback for one row after the header: a row with a non-blank
   * text SKU adds its quantity to the dictionary its first character selects,
   * if any, and to the grand total; any other row changes nothing.
   */
  method AddRow(row: Row, ghost seen: seq<OrderLine>,
                map1: OrderedRecord.Record<string>, map2: OrderedRecord.Record<string>, grandTotal: int)
    returns (map1': OrderedRecord.Record<string>, map2': OrderedRecord.Record<string>, grandTotal': int, ghost seen': seq<OrderLine>)
    requires Progress(seen, map1, map2, grandTotal)
    ensures LineOf(row).None? ==> seen' == seen
    ensures LineOf(row).Some? ==> seen' == seen + [LineOf(row).value]
    ensures Progress(seen', map1', map2', grandTotal')
  {
    map1', map2', grandTotal', seen' := map1, map2, grandTotal, seen;
    var sku := CellAt(row, SkuCol);
    var qty := Quantity(CellAt(row, QtyCol));
    if sku.Text? && Trim(sku.s) != [] {
      var line := Line(sku.s, qty);
      var firstChar := UpperAscii(line.key[0]);
      if firstChar == 'K' || firstChar == 'L' || firstChar == 'D' {
        ProgressKLD(seen, map1, map2, grandTotal, line);
        map1' := map1.Put(line.key, map1.Get(line.key) + line.qty);
      } else if firstChar == 'R' {
        ProgressR(seen, map1, map2, grandTotal, line);
        map2' := map2.Put(line.key, map2.Get(line.key) + line.qty);
      } else {
        ProgressUngrouped(seen, map1, map2, grandTotal, line);
      }
      grandTotal' := grandTotal + line.qty;
      seen' := seen + [line];
    }
  }

  /**
   * The file-load handler's aggregation: `map1` and `map2` start empty, every
   * row of `rows.slice(1)` goes through the `forEach` callback, and the tables
   * are the dictionaries' entries mapped to `{ sku, qty }` records.
   */
  method Summarize(rows: seq<Row>) returns (group1: seq<SummaryItem>, group2: seq<SummaryItem>, grandTotal: int)
    ensures Summary(group1, group2, grandTotal) == SummaryOf(rows)
  {
    var body := Body(rows);
    var map1 := OrderedRecord.Empty();
    var map2 := OrderedRecord.Empty();
    grandTotal := 0;
    var i := 0;
    ghost var seen: seq<OrderLine> := [];
    TalliesEmpty<string>();
    while i < |body|
      invariant 0 <= i <= |body|
      invariant seen == Lines(body[..i])
      invariant Progress(seen, map1, map2, grandTotal)
    {
      LinesStep(body, i);
      map1, map2, grandTotal, seen := AddRow(body[i], seen, map1, map2, grandTotal);
      i := i + 1;
    }
    assert seen == Lines(body) by {
      assert body[..i] == body;
    }
    TalliesEntries(map1, InGroup(seen, KLD));
    TalliesEntries(map2, InGroup(seen, R));
    group1 := ToItems(map1.Entries());
    group2 := ToItems(map2.Entries());
  }

  // ---------------------------------------------------------------------------
  // What the tables and the total are

  /** A sheet with no rows, or with only a header, gives two empty tables and a zero total. */
  lemma EmptySheet()
    ensures SummaryOf([]) == Summary([], [], 0)
    ensures forall h :: SummaryOf([h]) == Summary([], [], 0)
  {
    assert Aggregate<string>([]) == [];
  }

  /** Only the header row is skipped: what it holds never matters. */
  lemma HeaderIgnored(header: Row, header': Row, rows: seq<Row>)
    ensures SummaryOf([header] + rows) == SummaryOf([header'] + rows)
  {
    assert ([header] + rows)[1..] == rows == ([header'] + rows)[1..];
  }

  /** The order lines of two runs of rows are the lines of the first, then those of the second. */
  lemma {:induction false} LinesAppend(a: seq<Row>, b: seq<Row>)
    ensures Lines(a + b) == Lines(a) + Lines(b)
    decreases |b|
  {
    if b == [] {
      assert a + b == a;
    } else {
      var q := b[..|b| - 1];
      var row := b[|b| - 1];
      assert a + b == (a + q) + [row];
      assert b == q + [row];
      LinesAppend(a, q);
      LinesSnoc(a + q, row);
      LinesSnoc(q, row);
      if LineOf(row).Some? {
        assert Lines(a) + Lines(q) + [LineOf(row).value] == Lines(a) + (Lines(q) + [LineOf(row).value]);
      }
    }
  }

  /**
   * A row whose SKU cell is not text, or is blank, contributes nothing: wherever
   * it stands after the header, the summary is the same without it.
   */
  lemma SkippedRowIgnored(rows: seq<Row>, i: nat, row: Row)
    requires 1 <= i <= |rows|
    requires LineOf(row).None?
    ensures SummaryOf(rows[..i] + [row] + rows[i..]) == SummaryOf(rows)
  {
    var rows' := rows[..i] + [row] + rows[i..];
    assert Body(rows') == rows[1..i] + [row] + rows[i..];
    assert Body(rows) == rows[1..i] + rows[i..];
    LinesAppend(rows[1..i] + [row], rows[i..]);
    LinesAppend(rows[1..i], [row]);
    LinesSnoc([], row);
    LinesAppend(rows[1..i], rows[i..]);
  }

  /**
   * A quantity cell that does not read as a number never rejects its row: the
   * row still counts, with quantity 0.
   */
  lemma UnreadableQuantityIsZero(row: Row)
    requires CellAt(row, SkuCol).Text? && !AllWhitespace(CellAt(row, SkuCol).s)
    requires ToNumber(CellAt(row, QtyCol)).None?
    ensures LineOf(row) == Some(Line(CellAt(row, SkuCol).s, 0))
  {
  }

  /**
   * A table lists exactly the SKUs of the kept rows that its group takes, each
   * once, and every one of them is routed to that group.
   */
  lemma TableContents(ls: seq<OrderLine>, g: Group)
    ensures forall i :: 0 <= i < |Table(ls, g)| ==> GroupOf(Table(ls, g)[i].sku) == g
    ensures forall i, j :: 0 <= i < j < |Table(ls, g)| ==> Table(ls, g)[i].sku != Table(ls, g)[j].sku
    ensures forall k :: Lists(Table(ls, g), k) <==> HasKey(ls, k) && GroupOf(k) == g
  {
    var t := Table(ls, g);
    var f := FirstSeen(InGroup(ls, g));
    forall k ensures Lists(t, k) <==> HasKey(ls, k) && GroupOf(k) == g {
      SelectHasKey(ls, Routed(g), k);
      if k in f {
        var i :| 0 <= i < |f| && f[i] == k;
        assert t[i].sku == k;
      }
    }
    forall i | 0 <= i < |t| ensures GroupOf(t[i].sku) == g {
      SelectHasKey(ls, Routed(g), t[i].sku);
    }
  }

  /** No SKU appears in both tables. */
  lemma GroupsDisjoint(ls: seq<OrderLine>, i: nat, j: nat)
    requires i < |Table(ls, KLD)| && j < |Table(ls, R)|
    ensures Table(ls, KLD)[i].sku != Table(ls, R)[j].sku
  {
    TableContents(ls, KLD);
    TableContents(ls, R);
  }

  /** Each table row's quantity is the sum over every kept row carrying exactly that SKU. */
  lemma TableQuantities(ls: seq<OrderLine>, g: Group)
    ensures forall i :: 0 <= i < |Table(ls, g)| ==> Table(ls, g)[i].qty == SumFor(ls, Table(ls, g)[i].sku)
  {
    var t := Table(ls, g);
    forall i | 0 <= i < |t| ensures t[i].qty == SumFor(ls, t[i].sku) {
      SelectHasKey(ls, Routed(g), t[i].sku);
      SelectSumFor(ls, Routed(g), t[i].sku);
    }
  }

  /** A table lists its SKUs in the order in which each first occurs among the kept rows. */
  lemma TableOrder(ls: seq<OrderLine>, g: Group, i: nat, j: nat)
    requires i < j < |Table(ls, g)|
    ensures HasKey(ls, Table(ls, g)[i].sku) && HasKey(ls, Table(ls, g)[j].sku)
    ensures FirstIndex(ls, Table(ls, g)[i].sku) < FirstIndex(ls, Table(ls, g)[j].sku)
  {
    SelectOrder(ls, Routed(g), i, j);
  }

  /** A table's quantities add up to the quantities of the rows routed to its group. */
  lemma TableTotal(ls: seq<OrderLine>, g: Group)
    ensures Total(Table(ls, g)) == SumAll(InGroup(ls, g))
  {
    ItemsTotal(Aggregate(InGroup(ls, g)));
    AggregateTotal(InGroup(ls, g));
  }

  /** Mapping entries to `{ sku, qty }` records keeps their total. */
  lemma {:induction false} ItemsTotal(e: seq<(string, int)>)
    ensures Total(ToItems(e)) == TotalOf(e)
    decreases |e|
  {
    if e != [] {
      ItemsTotal(e[..|e| - 1]);
      assert ToItems(e)[..|e| - 1] == ToItems(e[..|e| - 1]);
    }
  }

  /** Every kept line goes to exactly one of the two groups or to neither. */
  lemma {:induction false} Partition(ls: seq<OrderLine>)
    ensures SumAll(ls) == SumAll(InGroup(ls, KLD)) + SumAll(InGroup(ls, R)) + SumAll(InGroup(ls, Ungrouped))
    decreases |ls|
  {
    if ls != [] {
      var p := ls[..|ls| - 1];
      var l := ls[|ls| - 1];
      assert ls == p + [l];
      Partition(p);
      SumAllSnoc(p, l);
      SelectSnoc(p, l, Routed(KLD));
      SelectSnoc(p, l, Routed(R));
      SelectSnoc(p, l, Routed(Ungrouped));
      match GroupOf(l.key)
      case KLD => SumAllSnoc(InGroup(p, KLD), l);
      case R => SumAllSnoc(InGroup(p, R), l);
      case Ungrouped => SumAllSnoc(InGroup(p, Ungrouped), l);
    }
  }

  /**
   * The grand total is every kept row's quantity: the two tables' totals plus
   * the quantities of the rows that neither table takes.
   */
  lemma Conservation(rows: seq<Row>)
    ensures var ls := Lines(Body(rows));
            SummaryOf(rows).grandTotal == Total(SummaryOf(rows).group1) + Total(SummaryOf(rows).group2) + SumAll(InGroup(ls, Ungrouped))
  {
    var ls := Lines(Body(rows));
    Partition(ls);
    TableTotal(ls, KLD);
    TableTotal(ls, R);
  }

  // ---------------------------------------------------------------------------
  // Worked examples

  /** A sheet row with the given SKU and quantity cells and nothing else. */
  function OrderRow(sku: Cell, qty: Cell): (row: Row)
    ensures CellAt(row, SkuCol) == sku && CellAt(row, QtyCol) == qty
  {
    seq(QtyCol + 1, i => if i == SkuCol then sku else if i == QtyCol then qty else Absent)
  }

  /** A row whose SKU text starts with a non-blank character is kept with its numeric quantity. */
  lemma OrderRowKept(sku: string, n: int)
    requires sku != [] && !IsWhitespace(sku[0])
    ensures LineOf(OrderRow(Text(sku), Num(n))) == Some(Line(sku, n))
  {
  }

  /** A row whose SKU cell is empty text is skipped, whatever its quantity. */
  lemma BlankRowSkipped(n: int)
    ensures LineOf(OrderRow(Text(""), Num(n))) == None
  {
  }

  /** Four lines, the first and third of one "K/L/D" SKU, the second "R", the last of neither group. */
  ghost predicate ExampleShape(a: OrderLine, b: OrderLine, c: OrderLine, d: OrderLine) {
    && GroupOf(a.key) == KLD && GroupOf(b.key) == R && c.key == a.key && GroupOf(d.key) == Ungrouped
  }

  lemma ExampleGroups(a: OrderLine, b: OrderLine, c: OrderLine, d: OrderLine)
    requires ExampleShape(a, b, c, d)
    ensures InGroup([a, b, c, d], KLD) == [a, c]
    ensures InGroup([a, b, c, d], R) == [b]
    ensures SumAll([a, b, c, d]) == a.qty + b.qty + c.qty + d.qty
  {
    assert [a] == [] + [a];
    assert [a, b] == [a] + [b];
    assert [a, b, c] == [a, b] + [c];
    assert [a, b, c, d] == [a, b, c] + [d];
    assert [a, c] == [a] + [c];
    SumAllSnoc([], a);
    SumAllSnoc([a], b);
    SumAllSnoc([a, b], c);
    SumAllSnoc([a, b, c], d);
    SelectSnoc([], a, Routed(KLD));
    SelectSnoc([a], b, Routed(KLD));
    SelectSnoc([a, b], c, Routed(KLD));
    SelectSnoc([a, b, c], d, Routed(KLD));
    SelectSnoc([], a, Routed(R));
    SelectSnoc([a], b, Routed(R));
    SelectSnoc([a, b], c, Routed(R));
    SelectSnoc([a, b, c], d, Routed(R));
  }

  /** The summary of four lines of that shape. */
  lemma ExampleSummary(a: OrderLine, b: OrderLine, c: OrderLine, d: OrderLine)
    requires ExampleShape(a, b, c, d)
    ensures SummaryOfLines([a, b, c, d])
         == Summary([SummaryItem(a.key, a.qty + c.qty)], [SummaryItem(b.key, b.qty)], a.qty + b.qty + c.qty + d.qty)
  {
    ExampleGroups(a, b, c, d);
    AggregateSameKey(a, c);
    AggregateOne(b);
  }

  /**
   * The kept rows "K100" 5, "r200" 3, "K100" 2 and "Z900" 7, as order lines:
   * the two "K100" rows are merged, "r200" goes to the "R" table, and "Z900"
   * adds only to the grand total. A further row with a blank SKU would change
   * nothing, by `SkippedRowIgnored`.
   */
  lemma ExampleLines()
    ensures SummaryOfLines([Line("K100", 5), Line("r200", 3), Line("K100", 2), Line("Z900", 7)])
         == Summary([SummaryItem("K100", 7)], [SummaryItem("r200", 3)], 17)
  {
    var a, b, c, d := Line("K100", 5), Line("r200", 3), Line("K100", 2), Line("Z900", 7);
    assert ExampleShape(a, b, c, d);
    ExampleSummary(a, b, c, d);
  }

  /** SKUs are compared exactly: "K100" and "k100" share a table but not a row. */
  lemma ExampleCaseSensitive()
    ensures Table([Line("K100", 1), Line("k100", 2)], KLD) == [SummaryItem("K100", 1), SummaryItem("k100", 2)]
  {
    var a, b := Line("K100", 1), Line("k100", 2);
    assert "K100"[0] != "k100"[0];
    assert GroupOf(a.key) == KLD && GroupOf(b.key) == KLD;
    assert InGroup([a, b], KLD) == [a, b] by {
      assert [a] == [] + [a];
      assert [a, b] == [a] + [b];
      SelectSnoc([], a, Routed(KLD));
      SelectSnoc([a], b, Routed(KLD));
    }
    AggregateTwoKeys(a, b);
  }
}
