/**
 * Addresses and rules as they are usually written, and what is read from them: dotted quads exactly,
 * full IPv6 texts, and rules of address and prefix length.
 */
module AddressTexts {
  import opened Options
  import opened Addresses
  import opened Cidr

  // --- decimal octets -----------------------------------------------------------------------

  function Digit(d: nat): (c: char)
    requires d < 10
    ensures IsDigit(c) && c as int == 48 + d
  {
    (48 + d) as char
  }

  /** A number below a thousand without leading zeros. */
  function Shown(n: nat): string
    requires n < 1000
  {
    if n < 10 then [Digit(n)]
    else if n < 100 then [Digit(n / 10), Digit(n % 10)]
    else [Digit(n / 100), Digit(n / 10 % 10), Digit(n % 10)]
  }

  lemma DecimalSnoc(s: string, c: char)
    ensures Decimal(s + [c]) == Decimal(s) * 10 + (c as int - 48)
  {
    assert (s + [c])[..|s|] == s;
  }

  lemma DecimalOfThree(a: char, b: char, c: char)
    ensures Decimal([a]) == a as int - 48
    ensures Decimal([a, b]) == (a as int - 48) * 10 + (b as int - 48)
    ensures Decimal([a, b, c]) == ((a as int - 48) * 10 + (b as int - 48)) * 10 + (c as int - 48)
  {
    DecimalSnoc("", a);
    DecimalSnoc([a], b);
    DecimalSnoc([a, b], c);
    assert "" + [a] == [a] && [a] + [b] == [a, b] && [a, b] + [c] == [a, b, c];
  }

  lemma ShownReadsBack(n: nat)
    requires n < 1000
    ensures AllDigits(Shown(n)) && 1 <= |Shown(n)| <= 3 && Decimal(Shown(n)) == n
    ensures |Shown(n)| > 1 ==> Shown(n)[0] != '0'
  {
    if n < 10 {
      DecimalOfThree(Digit(n), '0', '0');
    } else if n < 100 {
      DecimalOfThree(Digit(n / 10), Digit(n % 10), '0');
    } else {
      ThreeShown(n);
    }
  }

  lemma ThreeShown(n: nat)
    requires 100 <= n < 1000
    ensures Decimal(Shown(n)) == n && Shown(n)[0] != '0'
  {
    var a, b, c := n / 100, n / 10 % 10, n % 10;
    DecimalOfThree(Digit(a), Digit(b), Digit(c));
    assert (a * 10 + b) * 10 + c == n;
  }

  lemma DigitIs(c: char, d: nat)
    requires d < 10 && c as int == 48 + d
    ensures c == Digit(d)
  {
  }

  lemma OneDigitShown(a: char)
    requires IsDigit(a)
    ensures 0 <= Decimal([a]) < 1000 && [a] == Shown(Decimal([a]))
  {
    DecimalOfThree(a, '0', '0');
    DigitIs(a, a as int - 48);
  }

  lemma TwoDigitsShown(a: char, b: char)
    requires IsDigit(a) && IsDigit(b) && a != '0'
    ensures 0 <= Decimal([a, b]) < 1000 && [a, b] == Shown(Decimal([a, b]))
  {
    DecimalOfThree(a, b, '0');
    DigitIs(a, a as int - 48);
    DigitIs(b, b as int - 48);
  }

  lemma ThreeDigitsShown(a: char, b: char, c: char)
    requires IsDigit(a) && IsDigit(b) && IsDigit(c) && a != '0'
    ensures 0 <= Decimal([a, b, c]) < 1000 && [a, b, c] == Shown(Decimal([a, b, c]))
  {
    DecimalOfThree(a, b, c);
    ThreeDigits(a as int - 48, b as int - 48, c as int - 48);
    DigitIs(a, a as int - 48);
    DigitIs(b, b as int - 48);
    DigitIs(c, c as int - 48);
  }

  lemma ThreeDigits(a: int, b: int, c: int)
    requires 1 <= a < 10 && 0 <= b < 10 && 0 <= c < 10
    ensures var n := (a * 10 + b) * 10 + c; 100 <= n < 1000 && n / 100 == a && n / 10 % 10 == b && n % 10 == c
  {
  }

  /** Up to three digits without a leading zero are the number they show. */
  lemma ReadIsShown(part: string)
    requires AllDigits(part) && 1 <= |part| <= 3 && (|part| > 1 ==> part[0] != '0')
    ensures 0 <= Decimal(part) < 1000 && part == Shown(Decimal(part))
  {
    if |part| == 1 {
      OneDigitShown(part[0]);
      assert part == [part[0]];
    } else if |part| == 2 {
      TwoDigitsShown(part[0], part[1]);
      assert part == [part[0], part[1]];
    } else {
      ThreeDigitsShown(part[0], part[1], part[2]);
      assert part == [part[0], part[1], part[2]];
    }
  }

  lemma OctetIsShown(part: string, b: Byte)
    ensures Octet(part) == Some(b) <==> part == Shown(b)
  {
    ShownReadsBack(b);
    if Octet(part).Some? {
      ReadIsShown(part);
    }
  }

  // --- dotted quads -------------------------------------------------------------------------

  function DottedText(b: Bytes): string
    requires |b| == 4
  {
    Join([Shown(b[0]), Shown(b[1]), Shown(b[2]), Shown(b[3])], '.')
  }

  lemma {:induction false} JoinOfSplit(s: string, sep: char)
    ensures Join(Split(s, sep), sep) == s
  {
    if s != "" {
      var rest := Split(s[1..], sep);
      JoinOfSplit(s[1..], sep);
      if s[0] == sep {
        assert ([""] + rest)[1..] == rest;
        assert Join([""] + rest, sep) == "" + [sep] + Join(rest, sep);
      } else {
        var parts := [[s[0]] + rest[0]] + rest[1..];
        assert parts[1..] == rest[1..];
        if |rest| > 1 {
          assert [s[0]] + (rest[0] + [sep] + Join(rest[1..], sep)) == [s[0]] + rest[0] + [sep] + Join(rest[1..], sep);
        }
      }
      assert s == [s[0]] + s[1..];
    }
  }

  lemma NoDotShown(n: nat)
    requires n < 1000
    ensures '.' !in Shown(n) && '/' !in Shown(n) && ':' !in Shown(n)
  {
    ShownReadsBack(n);
  }

  lemma QuadSplits(b: Bytes)
    requires |b| == 4
    ensures Split(DottedText(b), '.') == [Shown(b[0]), Shown(b[1]), Shown(b[2]), Shown(b[3])]
  {
    NoDotShown(b[0]);
    NoDotShown(b[1]);
    NoDotShown(b[2]);
    NoDotShown(b[3]);
    var parts := [Shown(b[0]), Shown(b[1]), Shown(b[2]), Shown(b[3])];
    NoneOfFour(parts, '.');
    JoinedSplits(parts, '.');
  }

  lemma NoneOfFour(parts: seq<string>, sep: char)
    requires |parts| == 4 && sep !in parts[0] && sep !in parts[1] && sep !in parts[2] && sep !in parts[3]
    ensures NoneHolds(parts, sep)
  {
    assert parts[3..][1..] == [];
    assert NoneHolds(parts[3..], sep);
    assert parts[2..][1..] == parts[3..];
    assert NoneHolds(parts[2..], sep);
    assert parts[1..][1..] == parts[2..];
    assert NoneHolds(parts[1..], sep);
  }

  /** A text is an IPv4 address exactly when it is its four bytes in decimal, joined by dots. */
  lemma Ipv4IsDotted(t: string, b: Bytes)
    requires |b| == 4
    ensures Ipv4(t) == Some(b) <==> t == DottedText(b)
  {
    QuadSplits(b);
    OctetIsShown(Shown(b[0]), b[0]);
    OctetIsShown(Shown(b[1]), b[1]);
    OctetIsShown(Shown(b[2]), b[2]);
    OctetIsShown(Shown(b[3]), b[3]);
    assert [b[0], b[1], b[2], b[3]] == b;
    if Ipv4(t) == Some(b) {
      QuadParts(t, b);
    }
  }

  lemma QuadParts(t: string, b: Bytes)
    requires |b| == 4 && Ipv4(t) == Some(b)
    ensures t == DottedText(b)
  {
    var parts := Split(t, '.');
    var read := [Octet(parts[0]).value, Octet(parts[1]).value, Octet(parts[2]).value, Octet(parts[3]).value];
    assert b == read;
    assert b[0] == read[0] && b[1] == read[1] && b[2] == read[2] && b[3] == read[3];
    OctetIsShown(parts[0], b[0]);
    OctetIsShown(parts[1], b[1]);
    OctetIsShown(parts[2], b[2]);
    OctetIsShown(parts[3], b[3]);
    assert parts == [parts[0], parts[1], parts[2], parts[3]];
    JoinOfSplit(t, '.');
  }

  // --- hexadecimal groups ---------------------------------------------------------------------

  const LOWER := "0123456789abcdef"
  const UPPER := "0123456789ABCDEF"

  /** The digit's place in either row of digits is its value. */
  lemma HexDigitIsPlace(c: char, d: nat)
    requires d < 16 && (c == LOWER[d] || c == UPPER[d])
    ensures IsHex(c) && HexDigit(c) == d
  {
  }

  lemma HexSnoc(s: string, c: char)
    requires (forall i :: 0 <= i < |s| ==> IsHex(s[i])) && IsHex(c)
    ensures (forall i :: 0 <= i < |s + [c]| ==> IsHex((s + [c])[i])) && Hex(s + [c]) == Hex(s) * 16 + HexDigit(c)
  {
    assert (s + [c])[..|s|] == s;
  }

  lemma TwoHexDigits(c0: char, c1: char)
    requires IsHex(c0) && IsHex(c1)
    ensures (forall i :: 0 <= i < 2 ==> IsHex([c0, c1][i])) && Hex([c0, c1]) == 16 * HexDigit(c0) + HexDigit(c1)
  {
    HexSnoc("", c0);
    assert "" + [c0] == [c0];
    HexSnoc([c0], c1);
    assert [c0] + [c1] == [c0, c1];
  }

  lemma TwoMoreHexDigits(s: string, c2: char, c3: char)
    requires (forall i :: 0 <= i < |s| ==> IsHex(s[i])) && IsHex(c2) && IsHex(c3)
    ensures (forall i :: 0 <= i < |s + [c2, c3]| ==> IsHex((s + [c2, c3])[i]))
    ensures Hex(s + [c2, c3]) == Hex(s) * 256 + (16 * HexDigit(c2) + HexDigit(c3))
  {
    HexSnoc(s, c2);
    HexSnoc(s + [c2], c3);
    assert s + [c2] + [c3] == s + [c2, c3];
  }

  /** A group of four digits is two bytes, the higher one first. */
  lemma FourHexDigits(c0: char, c1: char, c2: char, c3: char)
    requires IsHex(c0) && IsHex(c1) && IsHex(c2) && IsHex(c3)
    ensures IsHexGroup([c0, c1, c2, c3])
    ensures GroupPair([c0, c1, c2, c3]) == [16 * HexDigit(c0) + HexDigit(c1), 16 * HexDigit(c2) + HexDigit(c3)]
  {
    TwoHexDigits(c0, c1);
    TwoMoreHexDigits([c0, c1], c2, c3);
    assert [c0, c1] + [c2, c3] == [c0, c1, c2, c3];
    TwoBytes(16 * HexDigit(c0) + HexDigit(c1), 16 * HexDigit(c2) + HexDigit(c3));
  }

  lemma TwoBytes(high: int, low: int)
    requires 0 <= high < 256 && 0 <= low < 256
    ensures (high * 256 + low) / 256 == high && (high * 256 + low) % 256 == low
  {
  }

  lemma {:induction false} HexLeadingZero(s: string)
    requires forall i :: 0 <= i < |s| ==> IsHex(s[i])
    ensures (forall i :: 0 <= i < |"0" + s| ==> IsHex(("0" + s)[i])) && Hex("0" + s) == Hex(s)
  {
    if s == "" {
      HexSnoc("", '0');
      assert "" + ['0'] == "0" && "0" + "" == "0";
    } else {
      var init, last := s[..|s| - 1], s[|s| - 1];
      HexLeadingZero(init);
      HexSnoc("0" + init, last);
      assert "0" + init + [last] == "0" + s;
    }
  }

  /** Leading zeros of a group may be left out. */
  lemma LeadingZeroOmitted(group: string)
    requires IsHexGroup(group) && |group| < 4
    ensures IsHexGroup("0" + group) && GroupPair("0" + group) == GroupPair(group)
  {
    HexLeadingZero(group);
  }

  // --- full IPv6 texts ------------------------------------------------------------------------

  function LowerHex(d: nat): (c: char)
    requires d < 16
    ensures IsHex(c) && HexDigit(c) == d
  {
    HexDigitIsPlace(LOWER[d], d);
    LOWER[d]
  }

  function GroupText(high: Byte, low: Byte): string {
    [LowerHex(high / 16), LowerHex(high % 16), LowerHex(low / 16), LowerHex(low % 16)]
  }

  function GroupTexts(b: Bytes): (groups: seq<string>)
    requires |b| % 2 == 0
    ensures |groups| == |b| / 2
  {
    if b == [] then [] else [GroupText(b[0], b[1])] + GroupTexts(b[2..])
  }

  /** Sixteen bytes as eight groups of four lower-case digits. */
  function FullText(b: Bytes): string
    requires |b| == 16
  {
    Join(GroupTexts(b), ':')
  }

  lemma {:induction false} GroupTextsReadBack(b: Bytes)
    requires |b| % 2 == 0
    ensures HexGroups(GroupTexts(b)) && BytesOf(GroupTexts(b)) == b
  {
    if b != [] {
      GroupTextsReadBack(b[2..]);
      GroupReadsBack(b[0], b[1]);
      OneMoreGroup(GroupText(b[0], b[1]), GroupTexts(b[2..]));
      assert [b[0], b[1]] + b[2..] == b;
    }
  }

  lemma GroupReadsBack(high: Byte, low: Byte)
    ensures IsHexGroup(GroupText(high, low)) && GroupPair(GroupText(high, low)) == [high, low]
  {
    FourHexDigits(LowerHex(high / 16), LowerHex(high % 16), LowerHex(low / 16), LowerHex(low % 16));
  }

  lemma OneMoreGroup(group: string, rest: seq<string>)
    requires IsHexGroup(group) && HexGroups(rest)
    ensures HexGroups([group] + rest) && BytesOf([group] + rest) == GroupPair(group) + BytesOf(rest)
  {
    assert ([group] + rest)[1..] == rest;
  }

  /** The full text of sixteen bytes is read as those bytes. */
  lemma FullTextIsBytes(b: Bytes)
    requires |b| == 16
    ensures Ipv6(FullText(b)) == Some(b)
  {
    GroupTextsReadBack(b);
    FullForm(GroupTexts(b));
  }

  // --- malformed IPv6 texts -------------------------------------------------------------------

  /** One to four hexadecimal digits or, in the last place, a dotted quad. */
  predicate WellFormedGroup(groups: seq<string>, i: nat)
    requires i < |groups|
  {
    var g := groups[i];
    || (1 <= |g| <= 4 && forall j :: 0 <= j < |g| ==> g[j] in LOWER || g[j] in UPPER)
    || (i == |groups| - 1 && Ipv4(g).Some?)
  }

  lemma HexIsListed(c: char)
    ensures IsHex(c) <==> c in LOWER || c in UPPER
  {
    if IsDigit(c) {
      assert c == LOWER[c as int - 48];
    } else if 'a' <= c <= 'f' {
      assert c == LOWER[c as int - 87];
    } else if 'A' <= c <= 'F' {
      assert c == UPPER[c as int - 55];
    }
  }

  lemma HexGroupIsWellFormed(g: string)
    requires IsHexGroup(g)
    ensures 1 <= |g| <= 4 && forall j :: 0 <= j < |g| ==> g[j] in LOWER || g[j] in UPPER
  {
    forall j | 0 <= j < |g|
      ensures g[j] in LOWER || g[j] in UPPER
    {
      HexIsListed(g[j]);
    }
  }

  /** One malformed group refuses the whole list. */
  lemma {:induction false} MalformedGroupRefused(groups: seq<string>, i: nat)
    requires i < |groups| && !WellFormedGroup(groups, i)
    ensures GroupBytes(groups) == None
  {
    if i == 0 {
      if IsHexGroup(groups[0]) {
        HexGroupIsWellFormed(groups[0]);
      }
    } else {
      MalformedGroupRefused(groups[1..], i - 1);
    }
  }

  lemma {:induction false} FirstPair(a: string, rest: string)
    requires Grouped(a)
    ensures FindPair(a + "::" + rest) == Some(|a|)
    decreases |a|
  {
    var s := a + "::" + rest;
    if a != "" {
      assert s[1..] == a[1..] + "::" + rest;
      FirstPair(a[1..], rest);
    }
  }

  lemma {:induction false} PairInside(before: string, after: string)
    ensures FindPair(before + "::" + after).Some?
    decreases |before|
  {
    var s := before + "::" + after;
    if before != "" {
      assert s[1..] == before[1..] + "::" + after;
      PairInside(before[1..], after);
    }
  }

  /** A text may leave out zeros in one place only. */
  lemma TwoPairsRefused(a: string, b: string, c: string)
    requires Grouped(a) && Grouped(b) && Grouped(c)
    ensures Ipv6(a + "::" + b + "::" + c) == None
  {
    var text := a + "::" + (b + "::" + c);
    assert text == a + "::" + b + "::" + c;
    PlainText(text);
    FirstPair(a, b + "::" + c);
    assert text[|a| + 1..] == ":" + b + "::" + c;
    PairInside(":" + b, c);
  }

  // --- addresses and rules --------------------------------------------------------------------

  /** The usual text of an address. */
  function AddressText(b: Bytes): string
    requires |b| in {4, 16}
  {
    if |b| == 4 then DottedText(b) else FullText(b)
  }

  /** Begins and ends with a digit; holds no slash and fits. */
  predicate Tidy(t: string) {
    1 <= |t| <= 45 && IsHex(t[0]) && IsHex(t[|t| - 1]) && '/' !in t
  }

  lemma QuadIsTidy(b: Bytes)
    requires |b| == 4
    ensures Tidy(DottedText(b)) && '.' in DottedText(b)
  {
    Ipv4IsDotted(DottedText(b), b);
    Ipv4Text(DottedText(b));
    var t := DottedText(b);
    assert forall i :: 0 <= i < |t| ==> t[i] == '.' || IsDigit(t[i]);
    QuadEnds(Shown(b[0]), Shown(b[1]), Shown(b[2]), Shown(b[3]));
    ShownReadsBack(b[0]);
    ShownReadsBack(b[3]);
    assert IsDigit(Shown(b[0])[0]) && IsDigit(Shown(b[3])[|Shown(b[3])| - 1]);
  }

  lemma QuadEnds(a: string, b: string, c: string, d: string)
    requires a != "" && d != ""
    ensures var t := Join([a, b, c, d], '.'); t != "" && t[0] == a[0] && t[|t| - 1] == d[|d| - 1]
  {
    assert [a, b, c, d][1..] == [b, c, d] && [b, c, d][1..] == [c, d] && [c, d][1..] == [d];
    assert Join([d], '.') == d;
    assert Join([c, d], '.') == c + ['.'] + d;
    assert Join([b, c, d], '.') == b + ['.'] + Join([c, d], '.');
  }

  lemma {:induction false} JoinEnds(groups: seq<string>)
    requires groups != [] && HexGroups(groups)
    ensures var s := Join(groups, ':'); s != "" && IsHex(s[0]) && IsHex(s[|s| - 1])
  {
    assert groups[0] in groups && IsHexGroup(groups[0]);
    if |groups| > 1 {
      JoinEnds(groups[1..]);
    }
  }

  lemma FullIsTidy(b: Bytes)
    requires |b| == 16
    ensures Tidy(FullText(b)) && '.' !in FullText(b)
  {
    GroupTextsReadBack(b);
    JoinedIsGrouped(GroupTexts(b));
    JoinEnds(GroupTexts(b));
  }

  lemma HexIsNoSpace(c: char)
    requires IsHex(c)
    ensures !IsSpace(c) && c != '/'
  {
  }

  lemma NothingToTrim(t: string)
    requires t != "" && IsHex(t[0]) && IsHex(t[|t| - 1])
    ensures Trim(t) == t
  {
    HexIsNoSpace(t[0]);
    HexIsNoSpace(t[|t| - 1]);
  }

  /** The usual text of an address is that address; of an IPv4-mapped one it is the IPv4 address. */
  lemma TextIsAddress(b: Bytes)
    requires |b| in {4, 16}
    ensures Address(AddressText(b)) == Some(if |b| == 16 && IsMapped(b) then b[12..] else b)
  {
    if |b| == 4 {
      QuadIsTidy(b);
      NothingToTrim(DottedText(b));
      Ipv4IsDotted(DottedText(b), b);
    } else {
      FullIsTidy(b);
      NothingToTrim(FullText(b));
      NoDotOnePart(FullText(b));
      FullTextIsBytes(b);
    }
  }

  lemma {:induction false} SlashBetween(t: string, suffix: string)
    requires '/' !in suffix
    ensures LastSlash(t + "/" + suffix) == Some(|t|)
    decreases |suffix|
  {
    var s := t + "/" + suffix;
    if suffix == "" {
      assert s[|s| - 1] == '/';
    } else {
      assert s[..|s| - 1] == t + "/" + suffix[..|suffix| - 1];
      assert s[|s| - 1] == suffix[|suffix| - 1];
      SlashBetween(t, suffix[..|suffix| - 1]);
    }
  }

  lemma RuleParts(t: string, bits: nat)
    requires Tidy(t) && bits < 1000
    ensures var s := t + "/" + Shown(bits);
      && Trim(s) == s && s != "" && LastSlash(s) == Some(|t|)
      && s[..|t|] == t && s[|t| + 1..] == Shown(bits)
  {
    var s := t + "/" + Shown(bits);
    ShownReadsBack(bits);
    NoDotShown(bits);
    assert s[0] == t[0] && s[|s| - 1] == Shown(bits)[|Shown(bits)| - 1];
    assert IsDigit(s[|s| - 1]);
    NothingToTrim(s);
    SlashBetween(t, Shown(bits));
  }

  /** A rule reads as its address and its prefix length, when that is within the address's width. */
  lemma RuleReadsBack(b: Bytes, bits: nat)
    requires |b| in {4, 16} && !IsMapped(b) && bits < 1000
    ensures Rule(AddressText(b) + "/" + Shown(bits)) == if bits <= 8 * |b| then Some(ParsedCidr(b, bits)) else None
  {
    AddressTextIsTidy(b);
    TextIsAddress(b);
    RuleOfParts(AddressText(b), b, bits);
  }

  lemma RuleOfParts(t: string, b: Bytes, bits: nat)
    requires Tidy(t) && Address(t) == Some(b) && bits < 1000
    ensures Rule(t + "/" + Shown(bits)) == if bits <= 8 * |b| then Some(ParsedCidr(b, bits)) else None
  {
    RuleParts(t, bits);
    ShownReadsBack(bits);
  }

  lemma AddressTextIsTidy(b: Bytes)
    requires |b| in {4, 16}
    ensures Tidy(AddressText(b))
  {
    if |b| == 4 {
      QuadIsTidy(b);
    } else {
      FullIsTidy(b);
    }
  }

  /** A rule without a slash is that one address. */
  lemma BareRule(b: Bytes)
    requires |b| in {4, 16} && !IsMapped(b)
    ensures Rule(AddressText(b)) == Some(ParsedCidr(b, 8 * |b|))
  {
    AddressTextIsTidy(b);
    NothingToTrim(AddressText(b));
    TextIsAddress(b);
  }

  /** Big-endian, from the front. */
  lemma {:induction false} NumberFromFront(first: Byte, rest: Bytes)
    ensures Number([first] + rest) == first * Pow2(8 * |rest|) + Number(rest)
    decreases |rest|
  {
    var all := [first] + rest;
    if rest == [] {
      assert all[..0] == [];
      assert Number(all) == Number([]) * 256 + first;
    } else {
      var init, last := rest[..|rest| - 1], rest[|rest| - 1];
      assert all[..|all| - 1] == [first] + init;
      NumberFromFront(first, init);
      Pow2Adds(8, 8 * |init|);
      SmallPowers();
      Shifted(first, Pow2(8 * |init|), Number(init), last);
    }
  }

  lemma Shifted(first: int, p: int, n: int, last: int)
    ensures (first * p + n) * 256 + last == first * (256 * p) + (n * 256 + last)
  {
  }

  /**
   * A rule contains an address exactly when both are of one family and agree in their leading bits,
   * as many as the rule says: that is, after division by the power of two of the remaining ones.
   */
  lemma RuleContains(rule: Bytes, bits: nat, target: Bytes)
    requires |rule| in {4, 16} && |target| in {4, 16} && !IsMapped(rule) && !IsMapped(target) && bits <= 8 * |rule|
    ensures Contains(AddressText(rule) + "/" + Shown(bits), AddressText(target))
       <==> |target| == |rule| && Network(target, bits) == Network(rule, bits)
  {
    RuleReadsBack(rule, bits);
    TextIsAddress(target);
  }

  /** The block an address lies in, in numbers: big-endian, divided by the block's size. */
  lemma NetworkSpelled(first: Byte, rest: Bytes, bits: nat)
    requires bits <= 8 * |rest| + 8
    ensures Network([first] + rest, bits) == (first * Pow2(8 * |rest|) + Number(rest)) / Pow2(8 * |rest| + 8 - bits)
  {
    NumberFromFront(first, rest);
  }

  lemma AnyRuleMatches(cidrs: seq<string>, ip: string)
    ensures MatchesAny(cidrs, ip) <==> exists i :: 0 <= i < |cidrs| && Contains(cidrs[i], ip)
  {
    if cidrs != [] {
      AnyRuleMatches(cidrs[1..], ip);
      if i :| 0 <= i < |cidrs| && Contains(cidrs[i], ip) {
        assert i > 0 ==> cidrs[1..][i - 1] == cidrs[i];
      }
      if MatchesAny(cidrs[1..], ip) {
        var i :| 0 <= i < |cidrs[1..]| && Contains(cidrs[1..][i], ip);
        assert cidrs[i + 1] == cidrs[1..][i];
      }
    }
  }

  // --- surrounding space --------------------------------------------------------------------

  lemma {:induction false} TrimsFront(before: string, rest: string)
    requires (forall i :: 0 <= i < |before| ==> IsSpace(before[i])) && rest != "" && !IsSpace(rest[0])
    ensures TrimStart(before + rest) == rest
  {
    if before == "" {
      assert before + rest == rest;
    } else {
      assert (before + rest)[1..] == before[1..] + rest;
      TrimsFront(before[1..], rest);
    }
  }

  lemma {:induction false} TrimsBack(rest: string, after: string)
    requires (forall i :: 0 <= i < |after| ==> IsSpace(after[i])) && rest != "" && !IsSpace(rest[|rest| - 1])
    ensures TrimEnd(rest + after) == rest
    decreases |after|
  {
    if after == "" {
      assert rest + after == rest;
    } else {
      assert (rest + after)[..|rest + after| - 1] == rest + after[..|after| - 1];
      TrimsBack(rest, after[..|after| - 1]);
    }
  }

  /** White space around an address, blanks and line ends included, does not count. */
  lemma SpaceAroundIgnored(before: string, t: string, after: string)
    requires (forall i :: 0 <= i < |before| ==> IsSpace(before[i])) && (forall i :: 0 <= i < |after| ==> IsSpace(after[i]))
    requires t != "" && !IsSpace(t[0]) && !IsSpace(t[|t| - 1])
    ensures Address(before + t + after) == Address(t) && Rule(before + t + after) == Rule(t)
    ensures IsSpace(' ') && IsSpace('\t') && IsSpace('\n') && IsSpace('\r')
  {
    TrimmedAlike(before, t, after);
    SameTrim(before + t + after, t);
  }

  lemma TrimmedAlike(before: string, t: string, after: string)
    requires (forall i :: 0 <= i < |before| ==> IsSpace(before[i])) && (forall i :: 0 <= i < |after| ==> IsSpace(after[i]))
    requires t != "" && !IsSpace(t[0]) && !IsSpace(t[|t| - 1])
    ensures Trim(before + t + after) == Trim(t) == t
  {
    assert before + t + after == before + (t + after);
    TrimsFront(before, t + after);
    TrimsBack(t, after);
  }

  lemma SameTrim(a: string, b: string)
    requires Trim(a) == Trim(b)
    ensures Address(a) == Address(b) && Rule(a) == Rule(b)
  {
  }
}
