/** UTF-16 text as the runtime holds it, and the size the gateway measures it by. */
module Utf16 {

  /** One UTF-16 code unit; surrogate halves included, because a chunk may end between two of them. */
  type CodeUnit = n: int | 0 <= n < 0x1_0000

  type Text = seq<CodeUnit>

  const CR: CodeUnit := 13
  const LF: CodeUnit := 10
  const SPACE: CodeUnit := 32
  const COLON: CodeUnit := 58

  predicate IsBreak(c: CodeUnit) {
    c == CR || c == LF
  }

  predicate NoBreaks(s: Text) {
    forall i :: 0 <= i < |s| ==> !IsBreak(s[i])
  }

  predicate IsHigh(c: CodeUnit) {
    0xD800 <= c < 0xDC00
  }

  predicate IsLow(c: CodeUnit) {
    0xDC00 <= c < 0xE000
  }

  /** Bytes of one code unit on its own; a lone surrogate is written as U+FFFD. */
  function UnitBytes(c: CodeUnit): nat {
    if c < 0x80 then 1 else if c < 0x800 then 2 else 3
  }

  /** `Buffer.byteLength(s, "utf8")`. */
  function Utf8Len(s: Text): nat {
    if s == [] then 0
    else if |s| >= 2 && IsHigh(s[0]) && IsLow(s[1]) then 4 + Utf8Len(s[2..])
    else UnitBytes(s[0]) + Utf8Len(s[1..])
  }

  /** A prefix is never larger than the whole, even when the cut falls inside a surrogate pair. */
  lemma {:induction false} Utf8LenPrefix(a: Text, b: Text)
    ensures Utf8Len(a) <= Utf8Len(a + b)
  {
    var ab := a + b;
    if a == [] {
    } else if |a| >= 2 && IsHigh(a[0]) && IsLow(a[1]) {
      assert ab[2..] == a[2..] + b;
      Utf8LenPrefix(a[2..], b);
    } else if |ab| >= 2 && IsHigh(ab[0]) && IsLow(ab[1]) {
      // the cut is inside the pair: three bytes for the lone half, four for the pair
      assert |a| == 1;
      assert a[1..] == [];
    } else {
      assert ab[1..] == a[1..] + b;
      Utf8LenPrefix(a[1..], b);
    }
  }

  /** The size of a text is that of its parts, unless the cut falls inside a surrogate pair. */
  lemma {:induction false} Utf8LenSplits(a: Text, b: Text)
    requires a == [] || b == [] || !(0xD800 <= a[|a| - 1] <= 0xDBFF && 0xDC00 <= b[0] <= 0xDFFF)
    ensures Utf8Len(a + b) == Utf8Len(a) + Utf8Len(b)
    decreases |a|
  {
    var ab := a + b;
    if a == [] {
      assert ab == b;
    } else if |a| >= 2 && IsHigh(a[0]) && IsLow(a[1]) {
      assert ab[2..] == a[2..] + b;
      Utf8LenSplits(a[2..], b);
    } else {
      assert ab[1..] == a[1..] + b;
      assert |a| >= 2 ==> ab[1] == a[1];
      Utf8LenSplits(a[1..], b);
    }
  }

  /** One to three bytes for a unit on its own, four for a surrogate pair. */
  lemma Utf8LenOfUnits(c: CodeUnit, low: CodeUnit)
    ensures Utf8Len([]) == 0
    ensures Utf8Len([c]) == if c <= 0x7F then 1 else if c <= 0x7FF then 2 else 3
    ensures 0xD800 <= c <= 0xDBFF && 0xDC00 <= low <= 0xDFFF ==> Utf8Len([c, low]) == 4
  {
    var one, two := [c], [c, low];
    assert one[1..] == [];
    assert two[2..] == [];
  }
}
