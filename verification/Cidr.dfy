/**
 * Address rules: parsing `address/bits` and containment, against integer division of the address
 * by the size of the rule's block.
 */
module Cidr {
  import opened Options
  import opened Addresses

  // --- addresses as numbers ---------------------------------------------------------------

  function Pow2(n: nat): (p: nat)
    ensures p >= 1
  {
    if n == 0 then 1 else 2 * Pow2(n - 1)
  }

  /** Big-endian value. */
  function Number(b: Bytes): nat {
    if b == [] then 0 else Number(b[..|b| - 1]) * 256 + b[|b| - 1]
  }

  /** The number of the block of `2^(width - bits)` addresses that holds `b`. */
  function Network(b: Bytes, bits: nat): int
    requires bits <= 8 * |b|
  {
    Number(b) / Pow2(8 * |b| - bits)
  }

  // --- rules ---------------------------------------------------------------------------------

  datatype ParsedCidr = ParsedCidr(bytes: Bytes, bits: nat)

  function LastSlash(s: string): (r: Option<nat>)
    ensures r.Some? ==> r.value < |s| && s[r.value] == '/'
    ensures r.Some? ==> forall j :: r.value < j < |s| ==> s[j] != '/'
    ensures r.None? ==> forall j :: 0 <= j < |s| ==> s[j] != '/'
  {
    if s == "" then None
    else if s[|s| - 1] == '/' then Some(|s| - 1)
    else LastSlash(s[..|s| - 1])
  }

  function PrefixLength(suffix: string, width: nat): Option<nat> {
    if 1 <= |suffix| <= 3 && AllDigits(suffix) && 0 <= Decimal(suffix) <= width then Some(Decimal(suffix)) else None
  }

  function Rule(cidr: string): (r: Option<ParsedCidr>)
    ensures r.Some? ==> r.value.bits <= 8 * |r.value.bytes|
  {
    var value := Trim(cidr);
    var slash := LastSlash(value);
    var bytes := Address(if slash.Some? then value[..slash.value] else value);
    if value == "" || bytes.None? then None
    else
      var width := 8 * |bytes.value|;
      var bits := if slash.Some? then PrefixLength(value[slash.value + 1..], width) else Some(width);
      if bits.Some? then Some(ParsedCidr(bytes.value, bits.value)) else None
  }

  method ParseCidr(cidr: string) returns (r: Option<ParsedCidr>)
    ensures r == Rule(cidr)
  {
    var value := Trim(cidr);
    if |value| == 0 {
      return None;
    }
    var slash := LastSlash(value);
    var bytes := IpToBytes(if slash.Some? then value[..slash.value] else value);
    if bytes.None? {
      return None;
    }
    var width := |bytes.value| * 8;
    if slash.None? {
      return Some(ParsedCidr(bytes.value, width));
    }
    var suffix := value[slash.value + 1..];
    var bits := ParsePrefixLength(suffix, width);
    if bits.None? {
      return None;
    }
    r := Some(ParsedCidr(bytes.value, bits.value));
  }

  method ParsePrefixLength(suffix: string, width: nat) returns (r: Option<nat>)
    ensures r == PrefixLength(suffix, width)
  {
    if |suffix| == 0 || |suffix| > 3 {
      return None;
    }
    for i := 0 to |suffix|
      invariant forall j :: 0 <= j < i ==> IsDigit(suffix[j])
    {
      if !IsDigit(suffix[i]) {
        return None;
      }
    }
    DecimalPositive(suffix);
    var bits := Decimal(suffix);
    if bits > width {
      return None;
    }
    r := Some(bits);
  }

  // --- containment -------------------------------------------------------------------------------

  /** Both parse, to one family, and lie in one block of the rule's size. */
  predicate Contains(cidr: string, ip: string) {
    var rule, target := Rule(cidr), Address(ip);
    rule.Some? && target.Some? && InBlock(rule.value, target.value)
  }

  predicate InBlock(rule: ParsedCidr, target: Bytes) {
    |target| == |rule.bytes| && rule.bits <= 8 * |rule.bytes|
    && Network(target, rule.bits) == Network(rule.bytes, rule.bits)
  }

  /** `x & mask` for the mask of the `remaining` leading bits, on numbers. */
  function Masked(x: Byte, remaining: nat): int
    requires 0 < remaining < 8
  {
    x - x % Pow2(8 - remaining)
  }

  /** `0xff` shifted left by `8 - remaining`, cut to a byte. */
  function MaskOf(remaining: nat): bv8
    requires 0 < remaining < 8
  {
    match remaining
    case 1 => 0x80
    case 2 => 0xc0
    case 3 => 0xe0
    case 4 => 0xf0
    case 5 => 0xf8
    case 6 => 0xfc
    case _ => 0xfe
  }

  lemma Keeps1(a: bv8)
    ensures (a & MaskOf(1)) as int == Masked(a as int, 1)
  {
    assert MaskOf(1) == 0x80;
    SmallPowers();
  }

  lemma Keeps2(a: bv8)
    ensures (a & MaskOf(2)) as int == Masked(a as int, 2)
  {
    assert MaskOf(2) == 0xc0;
    SmallPowers();
  }

  lemma Keeps3(a: bv8)
    ensures (a & MaskOf(3)) as int == Masked(a as int, 3)
  {
    assert MaskOf(3) == 0xe0;
    SmallPowers();
  }

  lemma Keeps4(a: bv8)
    ensures (a & MaskOf(4)) as int == Masked(a as int, 4)
  {
    assert MaskOf(4) == 0xf0;
    SmallPowers();
  }

  lemma Keeps5(a: bv8)
    ensures (a & MaskOf(5)) as int == Masked(a as int, 5)
  {
    assert MaskOf(5) == 0xf8;
    SmallPowers();
  }

  lemma Keeps6(a: bv8)
    ensures (a & MaskOf(6)) as int == Masked(a as int, 6)
  {
    assert MaskOf(6) == 0xfc;
    SmallPowers();
  }

  lemma Keeps7(a: bv8)
    ensures (a & MaskOf(7)) as int == Masked(a as int, 7)
  {
    assert MaskOf(7) == 0xfe;
    SmallPowers();
  }

  /** On bytes as bit vectors, masking clears exactly the bits that `Masked` drops. */
  lemma MaskIsBitwise(a: bv8, remaining: nat)
    requires 0 < remaining < 8
    ensures (a & MaskOf(remaining)) as int == Masked(a as int, remaining)
  {
    if remaining == 1 {
      Keeps1(a);
    } else if remaining == 2 {
      Keeps2(a);
    } else if remaining == 3 {
      Keeps3(a);
    } else if remaining == 4 {
      Keeps4(a);
    } else if remaining == 5 {
      Keeps5(a);
    } else if remaining == 6 {
      Keeps6(a);
    } else {
      Keeps7(a);
    }
  }

  /** Equal under the mask means equal leading bits. */
  lemma MaskedIsDivided(x: Byte, y: Byte, remaining: nat)
    requires 0 < remaining < 8
    ensures Masked(x, remaining) == Masked(y, remaining) <==> x / Pow2(8 - remaining) == y / Pow2(8 - remaining)
  {
    var d := Pow2(8 - remaining);
    if x / d > y / d {
      Above(x / d, y / d, d);
    } else if x / d < y / d {
      Above(y / d, x / d, d);
    }
  }

  lemma SmallPowers()
    ensures Pow2(1) == 2 && Pow2(2) == 4 && Pow2(3) == 8 && Pow2(4) == 16 && Pow2(5) == 32 && Pow2(6) == 64
    ensures Pow2(7) == 128 && Pow2(8) == 256
  {
    assert Pow2(1) == 2 && Pow2(2) == 4 && Pow2(3) == 8 && Pow2(4) == 16;
    assert Pow2(5) == 32 && Pow2(6) == 64 && Pow2(7) == 128;
  }

  lemma {:induction false} Pow2Adds(a: nat, b: nat)
    ensures Pow2(a + b) == Pow2(a) * Pow2(b)
  {
    if a > 0 {
      Pow2Adds(a - 1, b);
      Doubled(Pow2(a - 1), Pow2(b));
    }
  }

  lemma Doubled(x: nat, y: nat)
    ensures 2 * (x * y) == 2 * x * y
  {
  }

  lemma QuotientIs(x: int, d: int, q: int, r: int)
    requires d > 0 && 0 <= r < d && x == q * d + r
    ensures x / d == q
  {
    if x / d > q {
      Above(x / d, q, d);
    } else if x / d < q {
      Above(q, x / d, d);
    }
  }

  lemma Grows(a: int, b: int, d: int)
    requires a <= b && d >= 0
    ensures a * d <= b * d
  {
  }

  lemma OneMore(b: int, d: int)
    ensures (b + 1) * d == b * d + d
  {
  }

  lemma Above(a: int, b: int, d: int)
    requires a > b && d > 0
    ensures a * d >= b * d + d
  {
    Grows(b + 1, a, d);
    OneMore(b, d);
  }

  /** Dividing in two steps. */
  lemma DivideTwice(x: nat, a: nat, b: nat)
    requires a > 0 && b > 0
    ensures a * b > 0 && x / (a * b) == x / a / b
  {
    var q, r := x / a, x % a;
    var q2, r2 := q / b, q % b;
    Parts(x, a);
    Parts(q, b);
    Regroup(q2, r2, r, a, b);
    QuotientIs(x, a * b, q2, r2 * a + r);
  }

  lemma Parts(x: nat, d: nat)
    requires d > 0
    ensures x == x / d * d + x % d && 0 <= x % d < d
  {
  }

  lemma Regroup(q2: nat, r2: nat, r: nat, a: nat, b: nat)
    requires r2 < b && r < a
    ensures (q2 * b + r2) * a + r == q2 * (a * b) + (r2 * a + r)
    ensures 0 <= r2 * a + r < a * b
  {
    Above(b, r2, a);
    assert q2 * b * a == q2 * (a * b);
  }

  /** A longer mask refines a shorter one. */
  lemma WiderBlock(b: Bytes, few: nat, many: nat)
    requires few <= many <= 8 * |b|
    ensures Network(b, few) == Network(b, many) / Pow2(many - few)
  {
    Pow2Adds(8 * |b| - many, many - few);
    DivideTwice(Number(b), Pow2(8 * |b| - many), Pow2(many - few));
  }

  /** Bytes behind the mask do not matter. */
  lemma {:induction false} NetworkOfPrefix(b: Bytes, bits: nat, k: nat)
    requires bits <= 8 * k && k <= |b|
    ensures Network(b, bits) == Network(b[..k], bits)
    decreases |b|
  {
    if k == |b| {
      assert b[..k] == b;
    } else {
      var front := b[..|b| - 1];
      var rest := 8 * |front| - bits;
      Pow2Adds(8, rest);
      SmallPowers();
      DivideTwice(Number(b), 256, Pow2(rest));
      assert Number(b) / 256 == Number(front);
      NetworkOfPrefix(front, bits, k);
      assert front[..k] == b[..k];
    }
  }

  lemma {:induction false} NumberInjective(a: Bytes, b: Bytes)
    requires |a| == |b|
    ensures Number(a) == Number(b) <==> a == b
  {
    if a != [] {
      NumberInjective(a[..|a| - 1], b[..|b| - 1]);
      assert a == a[..|a| - 1] + [a[|a| - 1]] && b == b[..|b| - 1] + [b[|b| - 1]];
    }
  }

  lemma WholeBytes(a: Bytes, b: Bytes, k: nat)
    requires |a| == |b| && k <= |a|
    ensures Network(a, 8 * k) == Network(b, 8 * k) <==> a[..k] == b[..k]
  {
    NetworkOfPrefix(a, 8 * k, k);
    NetworkOfPrefix(b, 8 * k, k);
    NumberInjective(a[..k], b[..k]);
  }

  /** Dividing a number by a divisor of its last byte's place splits that byte. */
  lemma SplitQuotient(m: nat, x: nat, d: nat, e: nat)
    requires d > 0 && d * e == 256 && x < 256
    ensures (m * 256 + x) / d == m * e + x / d
    ensures x / d < e
  {
    assert m * 256 == m * (d * e) == m * e * d;
    assert (m * e + x / d) * d == m * e * d + x / d * d;
    QuotientIs(m * 256 + x, d, m * e + x / d, x % d);
    if x / d >= e {
      Above(x / d + 1, e, d);
    }
  }

  lemma SameDigits(m: nat, p: nat, n: nat, q: nat, e: nat)
    requires p < e && q < e
    ensures m * e + p == n * e + q <==> m == n && p == q
  {
    if m > n {
      Above(m, n, e);
    } else if n > m {
      Above(n, m, e);
    }
  }

  lemma LastByteSplits(m: nat, x: nat, n: nat, y: nat, remaining: nat)
    requires 0 < remaining < 8 && x < 256 && y < 256
    ensures (m * 256 + x) / Pow2(8 - remaining) == (n * 256 + y) / Pow2(8 - remaining)
       <==> m == n && x / Pow2(8 - remaining) == y / Pow2(8 - remaining)
  {
    var d, e := Pow2(8 - remaining), Pow2(remaining);
    Pow2Adds(8 - remaining, remaining);
    SmallPowers();
    SplitQuotient(m, x, d, e);
    SplitQuotient(n, y, d, e);
    SameDigits(m, x / d, n, y / d, e);
  }

  lemma NetworkOfLastByte(b: Bytes, k: nat, remaining: nat)
    requires k < |b| && 0 < remaining < 8
    ensures Network(b, 8 * k + remaining) == (Number(b[..k]) * 256 + b[k]) / Pow2(8 - remaining)
  {
    NetworkOfPrefix(b, 8 * k + remaining, k + 1);
    assert b[..k + 1][..k] == b[..k];
  }

  lemma SplitByte(a: Bytes, b: Bytes, k: nat, remaining: nat)
    requires |a| == |b| && k < |a| && 0 < remaining < 8
    ensures Network(a, 8 * k + remaining) == Network(b, 8 * k + remaining)
       <==> a[..k] == b[..k] && Masked(a[k], remaining) == Masked(b[k], remaining)
  {
    NetworkOfLastByte(a, k, remaining);
    NetworkOfLastByte(b, k, remaining);
    LastByteSplits(Number(a[..k]), a[k], Number(b[..k]), b[k], remaining);
    NumberInjective(a[..k], b[..k]);
    MaskedIsDivided(a[k], b[k], remaining);
  }

  /**
   * The byte-and-mask comparison decides exactly whether both addresses are of one family and
   * agree after integer division by `2^(width - bits)`.
   */
  method CidrContains(cidr: string, ip: string) returns (r: bool)
    ensures r == Contains(cidr, ip)
  {
    var parsed := ParseCidr(cidr);
    if parsed.None? {
      return false;
    }
    var target := IpToBytes(ip);
    if target.None? {
      return false;
    }
    r := Matches(parsed.value, target.value);
  }

  method Matches(rule: ParsedCidr, target: Bytes) returns (r: bool)
    requires rule.bits <= 8 * |rule.bytes|
    ensures r == InBlock(rule, target)
  {
    if |target| != |rule.bytes| {
      return false;
    }
    var fullBytes, remaining := rule.bits / 8, rule.bits % 8;
    BlockByBytes(rule, target);
    for i := 0 to fullBytes
      invariant target[..i] == rule.bytes[..i]
    {
      if target[i] != rule.bytes[i] {
        assert target[..fullBytes][i] != rule.bytes[..fullBytes][i];
        return false;
      }
    }
    if remaining == 0 {
      return true;
    }
    r := Masked(target[fullBytes], remaining) == Masked(rule.bytes[fullBytes], remaining);
  }

  /** Lying in the rule's block, byte by byte. */
  lemma BlockByBytes(rule: ParsedCidr, target: Bytes)
    requires rule.bits <= 8 * |rule.bytes| && |target| == |rule.bytes|
    ensures var k, remaining := rule.bits / 8, rule.bits % 8;
      InBlock(rule, target) <==>
        target[..k] == rule.bytes[..k]
        && (remaining == 0 || Masked(target[k], remaining) == Masked(rule.bytes[k], remaining))
  {
    var k, remaining := rule.bits / 8, rule.bits % 8;
    if remaining == 0 {
      WholeBytes(target, rule.bytes, k);
    } else {
      SplitByte(target, rule.bytes, k, remaining);
    }
  }

  predicate MatchesAny(cidrs: seq<string>, ip: string) {
    cidrs != [] && (Contains(cidrs[0], ip) || MatchesAny(cidrs[1..], ip))
  }

  method MatchesAnyCidr(cidrs: seq<string>, ip: string) returns (r: bool)
    ensures r == MatchesAny(cidrs, ip)
  {
    for i := 0 to |cidrs|
      invariant MatchesAny(cidrs, ip) == MatchesAny(cidrs[i..], ip)
    {
      assert cidrs[i..][1..] == cidrs[i + 1..];
      var hit := CidrContains(cidrs[i], ip);
      if hit {
        return true;
      }
    }
    r := false;
  }

  /** An address in both of two rules drags the narrower rule into the wider one. */
  lemma Nested(wide: ParsedCidr, narrow: ParsedCidr, common: Bytes, target: Bytes)
    requires wide.bits <= narrow.bits
    requires InBlock(wide, common) && InBlock(narrow, common) && InBlock(narrow, target)
    ensures InBlock(wide, target)
  {
    WiderBlock(common, wide.bits, narrow.bits);
    WiderBlock(target, wide.bits, narrow.bits);
  }

  ghost predicate Inside(narrow: ParsedCidr, wide: ParsedCidr) {
    forall target :: InBlock(narrow, target) ==> InBlock(wide, target)
  }

  ghost predicate Disjoint(a: ParsedCidr, b: ParsedCidr) {
    forall target :: !(InBlock(a, target) && InBlock(b, target))
  }

  /** Two rules are nested or disjoint. */
  lemma NestedOrDisjoint(wide: ParsedCidr, narrow: ParsedCidr)
    requires wide.bits <= narrow.bits
    ensures Inside(narrow, wide) || Disjoint(wide, narrow)
  {
    if common :| InBlock(wide, common) && InBlock(narrow, common) {
      forall target | InBlock(narrow, target)
        ensures InBlock(wide, target)
      {
        Nested(wide, narrow, common, target);
      }
    }
  }
}
