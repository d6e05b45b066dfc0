/**
 * The text the copy button places on the clipboard: one line
 * `"<sku> - <qty>"` per table row, joined with line feeds. Its partners are
 * `Split`, which cuts the text back into lines, and `ParseLine`, which reads
 * a line back into a table row.
 */
module Clipboard {
  import opened Wrappers
  import opened Cells
  import opened Summary

  const Newline: char := '\n'

  /** The separator between the SKU and the quantity of a line. */
  const Dash: string := " - "

  /**
   * `${item.sku} - ${item.qty}`: the SKU as it is, the separator, then the
   * quantity rendered as `Number` reads it back.
   */
  function FormatItem(item: SummaryItem): (line: string)
    ensures |line| > |item.sku| + 3
    ensures line[..|item.sku|] == item.sku && DashAt(line, |item.sku|)
    ensures forall i :: |item.sku| + 3 <= i < |line| ==> line[i] == '-' || IsDigit(line[i])
  {
    var q := IntToString(item.qty);
    var line := item.sku + Dash + q;
    var n := |item.sku|;
    assert |line| == n + 3 + |q|;
    assert line[..n] == item.sku;
    forall i | n + 3 <= i < |line| ensures line[i] == '-' || IsDigit(line[i]) {
      assert line[i] == q[i - n - 3];
    }
    line
  }

  /** `lines.join("\n")`: nothing for no lines, the line itself for one. */
  function Join(lines: seq<string>): (text: string)
    ensures lines == [] ==> text == []
    ensures |lines| == 1 ==> text == lines[0]
    decreases |lines|
  {
    if |lines| <= 1 then (if lines == [] then [] else lines[0])
    else Join(lines[..|lines| - 1]) + [Newline] + lines[|lines| - 1]
  }

  /** `text.split("\n")`: the pieces between line feeds; the empty text is one empty piece. */
  function Split(text: string): (pieces: seq<string>)
    ensures |pieces| >= 1
    decreases |text|
  {
    if text == [] then [[]]
    else
      var p := Split(text[..|text| - 1]);
      var c := text[|text| - 1];
      if c == Newline then p + [[]] else p[..|p| - 1] + [p[|p| - 1] + [c]]
  }

  /** `items.map((item) => `${item.sku} - ${item.qty}`)`: one line per row, in order. */
  function FormatAll(items: seq<SummaryItem>): (lines: seq<string>)
    ensures |lines| == |items|
    ensures forall i :: 0 <= i < |items| ==> lines[i] == FormatItem(items[i])
  {
    seq(|items|, i requires 0 <= i < |items| => FormatItem(items[i]))
  }

  /** The clipboard text for a table: empty exactly when the table is. */
  function ClipboardText(items: seq<SummaryItem>): (text: string)
    ensures text == [] <==> items == []
  {
    var lines := FormatAll(items);
    assert items != [] ==> Join(lines) != [] by {
      if items != [] {
        JoinEndsWith(lines);
      }
    }
    Join(lines)
  }

  /** Joining non-empty lines ends the text with the last line, so never with a line feed. */
  lemma {:induction false} JoinEndsWith(lines: seq<string>)
    requires lines != []
    ensures |Join(lines)| >= |lines[|lines| - 1]|
    ensures Join(lines)[|Join(lines)| - |lines[|lines| - 1]|..] == lines[|lines| - 1]
  {
  }

  /** The text has no trailing line feed: it ends with the last quantity's final digit. */
  lemma NoTrailingNewline(items: seq<SummaryItem>)
    requires items != []
    ensures var text := ClipboardText(items); IsDigit(text[|text| - 1])
  {
    var text, lines := ClipboardText(items), FormatAll(items);
    var l := lines[|lines| - 1];
    assert text[|text| - 1] == l[|l| - 1] by {
      JoinEndsWith(lines);
    }
    assert IsDigit(l[|l| - 1]) by {
      var last := items[|items| - 1];
      var q := IntToString(last.qty);
      assert l == last.sku + Dash + q;
      assert l[|l| - 1] == q[|q| - 1];
      LastCharIsDigit(last.qty);
    }
  }

  /** A rendered number ends with a digit. */
  lemma LastCharIsDigit(n: int)
    ensures var r := IntToString(n); IsDigit(r[|r| - 1])
  {
    var r := IntToString(n);
    if n < 0 {
      var d := NatToString(-n);
      assert r[|r| - 1] == d[|d| - 1];
    }
  }

  /** Splitting after a line feed starts a new piece that collects the rest. */
  lemma {:induction false} SplitAfterNewline(a: string, x: string)
    requires Newline !in x
    ensures Split(a + [Newline] + x) == Split(a) + [x]
    decreases |x|
  {
    if x == [] {
      assert (a + [Newline] + x)[..|a|] == a;
    } else {
      var x' := x[..|x| - 1];
      var c := x[|x| - 1];
      var s := a + [Newline] + x;
      assert s[..|s| - 1] == a + [Newline] + x';
      assert x' + [c] == x;
      SplitAfterNewline(a, x');
    }
  }

  /** A text without line feeds is one piece. */
  lemma {:induction false} SplitNoNewline(x: string)
    requires Newline !in x
    ensures Split(x) == [x]
    decreases |x|
  {
    if x != [] {
      var x' := x[..|x| - 1];
      SplitNoNewline(x');
      assert x' + [x[|x| - 1]] == x;
    }
  }

  /** Splitting joined lines that hold no line feed gives the lines back. */
  lemma {:induction false} SplitJoin(lines: seq<string>)
    requires lines != []
    requires forall i :: 0 <= i < |lines| ==> Newline !in lines[i]
    ensures Split(Join(lines)) == lines
    decreases |lines|
  {
    if |lines| == 1 {
      SplitNoNewline(lines[0]);
    } else {
      var p := lines[..|lines| - 1];
      SplitJoin(p);
      SplitAfterNewline(Join(p), lines[|lines| - 1]);
      assert p + [lines[|lines| - 1]] == lines;
    }
  }

  /** The separator `" - "` starts at position `i` of the line. */
  predicate DashAt(line: string, i: nat) {
    i + 3 <= |line| && line[i] == ' ' && line[i + 1] == '-' && line[i + 2] == ' '
  }

  /** The start of the last `" - "` that ends within the first `n` characters, if any. */
  function LastDashBelow(line: string, n: nat): (r: Option<nat>)
    requires n <= |line|
    ensures r.Some? ==> r.value + 3 <= n && DashAt(line, r.value)
    ensures r.Some? ==> forall j: nat :: r.value < j && j + 3 <= n ==> !DashAt(line, j)
    ensures r.None? ==> forall j: nat :: j + 3 <= n ==> !DashAt(line, j)
    decreases n
  {
    if n < 3 then None
    else if DashAt(line, n - 3) then Some(n - 3)
    else LastDashBelow(line, n - 1)
  }

  /** The start of the last `" - "` in the line, if any. */
  function LastDash(line: string): Option<nat> {
    LastDashBelow(line, |line|)
  }

  /**
   * Reads a clipboard line back: the SKU is everything before the last
   * `" - "`, the quantity what `Number` makes of the rest.
   */
  function ParseLine(line: string): Option<SummaryItem> {
    match LastDash(line)
    case None => None
    case Some(i) =>
      match ParseNumber(line[i + 3..])
      case None => None
      case Some(n) => Some(SummaryItem(line[..i], n))
  }

  /** When nothing after the separator is a space, that separator is the last one. */
  lemma LastDashOf(a: string, b: string)
    requires ' ' !in b
    ensures LastDash(a + Dash + b) == Some(|a|)
  {
    var s := a + Dash + b;
    assert DashAt(s, |a|);
    forall j: nat | |a| < j && j + 3 <= |s| ensures !DashAt(s, j) {
      assert s[j + 2] == b[j + 2 - |a| - 3];
    }
  }

  /** A line reads back as the row it was written from. */
  lemma ParseFormatted(item: SummaryItem)
    ensures ParseLine(FormatItem(item)) == Some(item)
  {
    var line, n, q := FormatItem(item), |item.sku|, IntToString(item.qty);
    assert LastDash(line) == Some(n) by {
      assert line == item.sku + Dash + q;
      LastDashOf(item.sku, q);
    }
    assert ParseNumber(line[n + 3..]) == Some(item.qty) by {
      assert line[n + 3..] == q by {
        assert line == item.sku + Dash + q;
      }
      ParseRendered(item.qty);
    }
  }

  /**
   * Whatever the table, as long as no SKU holds a line feed, the clipboard text
   * splits into one line per row, in table order, and each line reads back as
   * its row.
   */
  lemma ClipboardRoundTrip(items: seq<SummaryItem>)
    requires items != []
    requires forall i :: 0 <= i < |items| ==> Newline !in items[i].sku
    ensures |Split(ClipboardText(items))| == |items|
    ensures forall i :: 0 <= i < |items| ==> ParseLine(Split(ClipboardText(items))[i]) == Some(items[i])
  {
    var lines := FormatAll(items);
    assert Split(ClipboardText(items)) == lines by {
      forall i | 0 <= i < |lines| ensures Newline !in lines[i] {
        FormattedNoNewline(items[i]);
      }
      SplitJoin(lines);
    }
    forall i | 0 <= i < |items| ensures ParseLine(lines[i]) == Some(items[i]) {
      ParseFormatted(items[i]);
    }
  }

  /** A line holds no line feed unless its SKU does. */
  lemma FormattedNoNewline(item: SummaryItem)
    requires Newline !in item.sku
    ensures Newline !in FormatItem(item)
  {
    var line, q, n := FormatItem(item), IntToString(item.qty), |item.sku|;
    assert line == item.sku + Dash + q;
    forall i | 0 <= i < |line| ensures line[i] != Newline {
      if i < n {
        assert line[i] == item.sku[i];
      } else if i >= n + 3 {
        assert line[i] == q[i - n - 3];
      }
    }
  }
}
