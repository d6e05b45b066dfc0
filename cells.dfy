/**
 * Raw spreadsheet cells as the sheet parser hands them over, and the three
 * JavaScript conversions the order summariser applies to them: `String.prototype.trim`,
 * `Number(x)` and the rendering of a number inside a template literal.
 */
module Cells {
  import opened Wrappers

  /** One cell of a row: a text value, a numeric value, or nothing (`undefined`). */
  datatype Cell = Text(s: string) | Num(n: int) | Absent

  /** A row is positional: column 8 is the SKU, column 18 the quantity. */
  type Row = seq<Cell>

  /** `row[i]`: reading past the end of a short row gives `undefined`. */
  function CellAt(row: Row, i: nat): Cell {
    if i < |row| then row[i] else Absent
  }

  // ---------------------------------------------------------------------------
  // Whitespace and trim

  /**
   * The characters JavaScript's `trim` removes: the WhiteSpace and
   * LineTerminator code points of the ECMAScript grammar (TAB, VT, FF, SP,
   * NBSP, ZWNBSP, the Unicode space separators, LF, CR, LS, PS).
   */
  predicate IsWhitespace(c: char) {
    var k := c as int;
    k == 0x09 || k == 0x0A || k == 0x0B || k == 0x0C || k == 0x0D || k == 0x20 ||
    k == 0xA0 || k == 0x1680 || (0x2000 <= k <= 0x200A) ||
    k == 0x2028 || k == 0x2029 || k == 0x202F || k == 0x205F || k == 0x3000 || k == 0xFEFF
  }

  ghost predicate AllWhitespace(s: string) {
    forall i :: 0 <= i < |s| ==> IsWhitespace(s[i])
  }

  /** Drops the leading whitespace: what is removed is whitespace, what remains starts with none. */
  function TrimStart(s: string): (r: string)
    ensures |r| <= |s| && r == s[|s| - |r|..]
    ensures r == [] || !IsWhitespace(r[0])
    ensures forall i :: 0 <= i < |s| - |r| ==> IsWhitespace(s[i])
    decreases |s|
  {
    if |s| > 0 && IsWhitespace(s[0]) then TrimStart(s[1..]) else s
  }

  /** Drops the trailing whitespace: what is removed is whitespace, what remains ends with none. */
  function TrimEnd(s: string): (r: string)
    ensures |r| <= |s| && r == s[..|r|]
    ensures r == [] || !IsWhitespace(r[|r| - 1])
    ensures forall i :: |r| <= i < |s| ==> IsWhitespace(s[i])
    decreases |s|
  {
    if |s| > 0 && IsWhitespace(s[|s| - 1]) then TrimEnd(s[..|s| - 1]) else s
  }

  /**
   * `s.trim()`. The result is empty exactly when `s` is whitespace only;
   * otherwise it neither starts nor ends with whitespace.
   */
  function Trim(s: string): (r: string)
    ensures r == [] <==> AllWhitespace(s)
    ensures r != [] ==> !IsWhitespace(r[0]) && !IsWhitespace(r[|r| - 1])
  {
    var t := TrimStart(s);
    var r := TrimEnd(t);
    assert r == [] ==> AllWhitespace(s) by {
      if r == [] {
        forall i | 0 <= i < |s| ensures IsWhitespace(s[i]) {
          if i >= |s| - |t| {
            assert s[i] == t[i - (|s| - |t|)];
          }
        }
      }
    }
    assert r != [] ==> !IsWhitespace(r[0]) by {
      if r != [] {
        assert r[0] == t[0];
      }
    }
    r
  }

  /** A string without whitespace is its own trim. */
  lemma TrimNoWhitespace(s: string)
    requires forall i :: 0 <= i < |s| ==> !IsWhitespace(s[i])
    ensures Trim(s) == s
  {
    assert TrimStart(s) == s;
    assert TrimEnd(s) == s;
  }

  // ---------------------------------------------------------------------------
  // Number(x) on integer literals

  predicate IsDigit(c: char) {
    '0' <= c <= '9'
  }

  predicate AllDigits(s: string) {
    forall i :: 0 <= i < |s| ==> IsDigit(s[i])
  }

  function DigitValue(c: char): (d: nat)
    requires IsDigit(c)
    ensures d < 10
  {
    c as int - '0' as int
  }

  function DigitChar(d: nat): (c: char)
    requires d < 10
    ensures IsDigit(c) && DigitValue(c) == d
  {
    ('0' as int + d) as char
  }

  /** The value of a run of decimal digits, most significant first. */
  function DigitsValue(s: string): nat
    requires AllDigits(s)
    decreases |s|
  {
    if s == [] then 0 else 10 * DigitsValue(s[..|s| - 1]) + DigitValue(s[|s| - 1])
  }

  /**
   * `Number(text)` for text that spells an integer: surrounding whitespace is
   * ignored, blank text reads as 0, an optional sign precedes one or more
   * decimal digits. `None` stands for `NaN`.
   */
  function ParseNumber(s: string): Option<int> {
    var t := Trim(s);
    if t == [] then Some(0)
    else if t[0] == '-' || t[0] == '+' then
      var d := t[1..];
      if d != [] && AllDigits(d) then
        var v: int := DigitsValue(d);
        Some(if t[0] == '-' then -v else v)
      else None
    else if AllDigits(t) then Some(DigitsValue(t))
    else None
  }

  /** `Number(cell)`: a numeric cell is its own value, text is parsed, `undefined` is `NaN`. */
  function ToNumber(c: Cell): Option<int> {
    match c
    case Num(n) => Some(n)
    case Text(s) => ParseNumber(s)
    case Absent => None
  }

  /** `Number(cell) || 0`: `NaN` (and 0 itself) become 0, every other number is kept. */
  function Quantity(c: Cell): int {
    match ToNumber(c)
    case Some(n) => n
    case None => 0
  }

  /** The quantity coercion never rejects a cell: an absent or unreadable cell is exactly 0. */
  lemma QuantityCoercion(c: Cell)
    ensures c == Absent ==> Quantity(c) == 0
    ensures c.Num? ==> Quantity(c) == c.n
    ensures c.Text? && ParseNumber(c.s).None? ==> Quantity(c) == 0
    ensures c.Text? && ParseNumber(c.s).Some? ==> Quantity(c) == ParseNumber(c.s).value
    ensures c.Text? && AllWhitespace(c.s) ==> Quantity(c) == 0
  {
  }

  // ---------------------------------------------------------------------------
  // Rendering a number in a template literal

  /** The decimal digits of `n`, without leading zeros. */
  function NatToString(n: nat): (r: string)
    ensures r != [] && AllDigits(r)
    ensures r[0] == '0' ==> n == 0
    decreases n
  {
    if n < 10 then [DigitChar(n)] else NatToString(n / 10) + [DigitChar(n % 10)]
  }

  /** `${n}` for an integer `n`: a minus sign for negatives, then the digits. */
  function IntToString(n: int): (r: string)
    ensures r != []
    ensures forall i :: 0 <= i < |r| ==> r[i] == '-' || IsDigit(r[i])
  {
    if n < 0 then "-" + NatToString(-n) else NatToString(n)
  }

  lemma {:induction false} NatToStringValue(n: nat)
    ensures DigitsValue(NatToString(n)) == n
    decreases n
  {
    if n >= 10 {
      NatToStringValue(n / 10);
      var r := NatToString(n);
      assert r[..|r| - 1] == NatToString(n / 10);
    }
  }

  /** A rendered quantity reads back, under `Number`, as the same quantity. */
  lemma ParseRendered(n: int)
    ensures ParseNumber(IntToString(n)) == Some(n)
  {
    var r := IntToString(n);
    TrimNoWhitespace(r);
    NatToStringValue(if n < 0 then -n else n);
    if n < 0 {
      assert r[1..] == NatToString(-n);
    }
  }
}
