/**
 * IPv4 and IPv6 texts to bytes. Texts are sequences of characters below U+10000, as the source
 * compares them.
 */
module Addresses {
  import opened Options

  type Byte = b: int | 0 <= b < 256

  type Bytes = seq<Byte>

  // --- texts ------------------------------------------------------------------------------

  function Split(s: string, sep: char): (r: seq<string>)
    ensures |r| >= 1
  {
    if s == "" then [""]
    else
      var rest := Split(s[1..], sep);
      if s[0] == sep then [""] + rest else [[s[0]] + rest[0]] + rest[1..]
  }

  function Join(parts: seq<string>, sep: char): string {
    if parts == [] then ""
    else if |parts| == 1 then parts[0]
    else parts[0] + [sep] + Join(parts[1..], sep)
  }

  lemma {:induction false} SplitHead(part: string, sep: char, rest: string)
    requires sep !in part
    ensures Split(part, sep) == [part]
    ensures Split(part + [sep] + rest, sep) == [part] + Split(rest, sep)
  {
    var whole := part + [sep] + rest;
    if part == "" {
      assert whole[1..] == rest;
    } else {
      SplitHead(part[1..], sep, rest);
      assert [part[0]] + part[1..] == part;
      assert whole[1..] == part[1..] + [sep] + rest;
    }
  }

  predicate NoneHolds(parts: seq<string>, sep: char) {
    parts != [] ==> sep !in parts[0] && NoneHolds(parts[1..], sep)
  }

  /** Splitting a joined text gives the parts back. */
  lemma {:induction false} JoinedSplits(parts: seq<string>, sep: char)
    requires parts != [] && NoneHolds(parts, sep)
    ensures Split(Join(parts, sep), sep) == parts
  {
    if |parts| == 1 {
      SplitHead(parts[0], sep, "");
    } else {
      var rest := Join(parts[1..], sep);
      SplitHead(parts[0], sep, rest);
      JoinedSplits(parts[1..], sep);
      assert [parts[0]] + parts[1..] == parts;
    }
  }

  /** The position of the first "::". */
  function FindPair(s: string): (r: Option<nat>)
    ensures r.Some? ==> r.value + 2 <= |s|
  {
    if |s| < 2 then None
    else if s[0] == ':' && s[1] == ':' then Some(0)
    else
      var r := FindPair(s[1..]);
      if r.None? then None else Some(r.value + 1)
  }

  function CutAt(s: string, c: char): string {
    if s == "" || s[0] == c then "" else [s[0]] + CutAt(s[1..], c)
  }

  predicate IsDigit(c: char) {
    '0' <= c <= '9'
  }

  function Decimal(s: string): int {
    if s == "" then 0 else Decimal(s[..|s| - 1]) * 10 + (s[|s| - 1] as int - '0' as int)
  }

  predicate AllDigits(s: string) {
    forall i :: 0 <= i < |s| ==> IsDigit(s[i])
  }

  lemma {:induction false} DecimalPositive(s: string)
    requires AllDigits(s)
    ensures Decimal(s) >= 0
  {
    if s != "" {
      DecimalPositive(s[..|s| - 1]);
    }
  }

  predicate IsHex(c: char) {
    IsDigit(c) || 'a' <= c <= 'f' || 'A' <= c <= 'F'
  }

  function HexDigit(c: char): (d: nat)
    requires IsHex(c)
    ensures d < 16
  {
    if IsDigit(c) then c as int - '0' as int
    else if 'a' <= c then c as int - 'a' as int + 10
    else c as int - 'A' as int + 10
  }

  /** One to four hexadecimal digits. */
  predicate IsHexGroup(s: string) {
    1 <= |s| <= 4 && forall i :: 0 <= i < |s| ==> IsHex(s[i])
  }

  function Hex(s: string): nat
    requires forall i :: 0 <= i < |s| ==> IsHex(s[i])
  {
    if s == "" then 0 else Hex(s[..|s| - 1]) * 16 + HexDigit(s[|s| - 1])
  }

  function Power16(n: nat): nat {
    if n == 0 then 1 else 16 * Power16(n - 1)
  }

  lemma {:induction false} HexBound(s: string)
    requires forall i :: 0 <= i < |s| ==> IsHex(s[i])
    ensures Hex(s) < Power16(|s|)
  {
    if s != "" {
      HexBound(s[..|s| - 1]);
    }
  }

  lemma HexGroupBound(s: string)
    requires IsHexGroup(s)
    ensures Hex(s) < 0x1_0000
  {
    HexBound(s);
    assert Power16(1) == 16 && Power16(2) == 256 && Power16(3) == 4096 && Power16(4) == 0x1_0000;
  }

  // --- IPv4 ----------------------------------------------------------------------------------

  /** A decimal octet without a leading zero. */
  function Octet(part: string): Option<Byte> {
    if 1 <= |part| <= 3 && (|part| > 1 ==> part[0] != '0') && AllDigits(part) && 0 <= Decimal(part) <= 255
    then Some(Decimal(part)) else None
  }

  function Ipv4(value: string): (r: Option<Bytes>)
    ensures r.Some? ==> |r.value| == 4
  {
    var parts := Split(value, '.');
    if |parts| == 4 && Octet(parts[0]).Some? && Octet(parts[1]).Some? && Octet(parts[2]).Some? && Octet(parts[3]).Some?
    then Some([Octet(parts[0]).value, Octet(parts[1]).value, Octet(parts[2]).value, Octet(parts[3]).value])
    else None
  }

  method ParseIpv4(value: string) returns (r: Option<Bytes>)
    ensures r == Ipv4(value)
  {
    var parts := Split(value, '.');
    if |parts| != 4 {
      return None;
    }
    var out := new Byte[4](_ => 0);
    for i := 0 to 4
      invariant forall j :: 0 <= j < i ==> Octet(parts[j]) == Some(out[j])
    {
      var part := parts[i];
      if |part| == 0 || |part| > 3 {
        return None;
      }
      if |part| > 1 && part[0] == '0' {
        return None;
      }
      for c := 0 to |part|
        invariant forall j :: 0 <= j < c ==> IsDigit(part[j])
      {
        if !IsDigit(part[c]) {
          return None;
        }
      }
      DecimalPositive(part);
      var n := Decimal(part);
      if n > 255 {
        return None;
      }
      out[i] := n;
    }
    assert out[..] == [out[0], out[1], out[2], out[3]];
    r := Some(out[..]);
  }

  // --- IPv6 ------------------------------------------------------------------------------------

  function GroupPair(group: string): Bytes
    requires IsHexGroup(group)
  {
    HexGroupBound(group);
    [Hex(group) / 256, Hex(group) % 256]
  }

  /** One group's bytes; an embedded IPv4 tail may only come last. */
  function OneGroup(group: string, last: bool): (r: Option<Bytes>)
    ensures r.Some? ==> |r.value| in {2, 4}
  {
    if '.' in group then (if last then Ipv4(group) else None)
    else if IsHexGroup(group) then Some(GroupPair(group))
    else None
  }

  /** The bytes a list of groups stands for. */
  function GroupBytes(groups: seq<string>): Option<Bytes> {
    if groups == [] then Some([])
    else
      var one := OneGroup(groups[0], |groups| == 1);
      if one.None? then None else Prefixed(one.value, GroupBytes(groups[1..]))
  }

  method ParseGroup(group: string, last: bool) returns (r: Option<Bytes>)
    ensures r == OneGroup(group, last)
  {
    if '.' in group {
      if !last {
        return None;
      }
      r := ParseIpv4(group);
      return;
    }
    if !IsHexGroup(group) {
      return None;
    }
    HexGroupBound(group);
    var n := Hex(group);
    r := Some([n / 256, n % 256]);
  }

  /** Writes the groups at `offset`, and says where they end; the rest of `target` is untouched. */
  method EmitGroups(target: array<Byte>, groups: seq<string>, offset: nat) returns (end: Option<nat>)
    requires target.Length == 16 && offset <= 16
    modifies target
    ensures end == if GroupBytes(groups).Some? && offset + |GroupBytes(groups).value| <= 16
                   then Some(offset + |GroupBytes(groups).value|) else None
    ensures end.Some? ==> target[..] == old(target[..])[..offset] + GroupBytes(groups).value + old(target[..])[end.value..]
  {
    ghost var before := target[..];
    ghost var done: Bytes := [];
    var pos := offset;
    assert groups[0..] == groups;
    PrefixedNothing(GroupBytes(groups));
    for i := 0 to |groups|
      invariant pos == offset + |done| <= 16
      invariant target[..] == before[..offset] + done + before[pos..]
      invariant GroupBytes(groups) == Prefixed(done, GroupBytes(groups[i..]))
    {
      assert groups[i..][0] == groups[i] && groups[i..][1..] == groups[i + 1..];
      var bytes := ParseGroup(groups[i], i == |groups| - 1);
      if bytes.None? || pos + |bytes.value| > 16 {
        return None;
      }
      Overwrite(before, offset, done, bytes.value);
      SetBytes(target, bytes.value, pos);
      PrefixedAppend(done, bytes.value, GroupBytes(groups[i + 1..]));
      done := done + bytes.value;
      pos := pos + |bytes.value|;
    }
    assert groups[|groups|..] == [];
    assert done + [] == done;
    end := Some(pos);
  }

  lemma PrefixedNothing(rest: Option<Bytes>)
    ensures Prefixed([], rest) == rest
  {
    assert rest.Some? ==> [] + rest.value == rest.value;
  }

  function Prefixed(done: Bytes, rest: Option<Bytes>): Option<Bytes> {
    if rest.None? then None else Some(done + rest.value)
  }

  lemma PrefixedAppend(done: Bytes, more: Bytes, rest: Option<Bytes>)
    ensures Prefixed(done, Prefixed(more, rest)) == Prefixed(done + more, rest)
  {
    if rest.Some? {
      assert done + (more + rest.value) == done + more + rest.value;
    }
  }

  /** Writing right behind `done` appends to it. */
  lemma Overwrite(before: Bytes, offset: nat, done: Bytes, more: Bytes)
    requires |before| == 16 && offset + |done| + |more| <= 16
    ensures var pos := offset + |done|;
      var was := before[..offset] + done + before[pos..];
      was[..pos] + more + was[pos + |more|..] == before[..offset] + (done + more) + before[pos + |more|..]
  {
  }

  method SetBytes(target: array<Byte>, bytes: Bytes, at: nat)
    requires at + |bytes| <= target.Length
    modifies target
    ensures target[..] == old(target[..])[..at] + bytes + old(target[..])[at + |bytes|..]
  {
    for i := 0 to |bytes|
      invariant forall j :: 0 <= j < target.Length ==>
        target[j] == if at <= j < at + i then bytes[j - at] else old(target[j])
    {
      target[at + i] := bytes[i];
    }
  }

  function Stripped(value: string): string {
    var text := if |value| >= 2 && value[0] == '[' && value[|value| - 1] == ']' then value[1..|value| - 1] else value;
    CutAt(text, '%')
  }

  function Colons(text: string): seq<string> {
    if text == "" then [] else Split(text, ':')
  }

  function Zeros(n: nat): (z: Bytes)
    ensures |z| == n
  {
    if n == 0 then [] else [0] + Zeros(n - 1)
  }

  lemma {:induction false} AllZero(s: Bytes)
    requires forall i :: 0 <= i < |s| ==> s[i] == 0
    ensures s == Zeros(|s|)
  {
    if s != [] {
      AllZero(s[1..]);
      assert s == [s[0]] + s[1..];
    }
  }

  /** `a` at the front and `b` at the back of sixteen bytes, at least two of them left zero. */
  function Around(a: Bytes, b: Bytes): (r: Option<Bytes>)
    ensures r.Some? ==> |r.value| == 16
  {
    if |a| + |b| > 14 then None else Some(a + Zeros(16 - |a| - |b|) + b)
  }

  /** The groups before and after "::", with zeros between them. */
  function Halves(head: seq<string>, tail: seq<string>): (r: Option<Bytes>)
    ensures r.Some? ==> |r.value| == 16
  {
    var a, b := GroupBytes(head), GroupBytes(tail);
    if a.None? || b.None? then None else Around(a.value, b.value)
  }

  function Whole(groups: seq<string>): (r: Option<Bytes>)
    ensures r.Some? ==> |r.value| == 16
  {
    var bytes := GroupBytes(groups);
    if bytes.Some? && |bytes.value| == 16 then bytes else None
  }

  function Ipv6(value: string): (r: Option<Bytes>)
    ensures r.Some? ==> |r.value| == 16
  {
    var text := Stripped(value);
    if ':' !in text || |text| > 45 then None
    else
      var at := FindPair(text);
      if at.None? then Whole(Split(text, ':'))
      else if FindPair(text[at.value + 1..]).Some? then None
      else Halves(Colons(text[..at.value]), Colons(text[at.value + 2..]))
  }

  method ParseIpv6(value: string) returns (r: Option<Bytes>)
    ensures r == Ipv6(value)
  {
    var text := Stripped(value);
    if ':' !in text || |text| > 45 {
      return None;
    }
    var at := FindPair(text);
    if at.Some? && FindPair(text[at.value + 1..]).Some? {
      return None;
    }
    if at.None? {
      r := AssembleWhole(Split(text, ':'));
    } else {
      r := AssembleHalves(Colons(text[..at.value]), Colons(text[at.value + 2..]));
    }
  }

  /** A new buffer of sixteen bytes with the groups at its front. */
  method EmitFresh(groups: seq<string>) returns (buffer: array<Byte>, end: Option<nat>)
    ensures fresh(buffer) && buffer.Length == 16
    ensures end == if GroupBytes(groups).Some? && |GroupBytes(groups).value| <= 16 then Some(|GroupBytes(groups).value|) else None
    ensures end.Some? ==> buffer[..] == GroupBytes(groups).value + Zeros(16 - end.value)
  {
    buffer := new Byte[16](_ => 0);
    ghost var blank := buffer[..];
    end := EmitGroups(buffer, groups, 0);
    if end.Some? {
      Headed(blank, GroupBytes(groups).value);
    }
  }

  method AssembleWhole(groups: seq<string>) returns (r: Option<Bytes>)
    ensures r == Whole(groups)
  {
    var bytes, end := EmitFresh(groups);
    if end != Some(16) {
      return None;
    }
    assert GroupBytes(groups).value + Zeros(0) == GroupBytes(groups).value;
    r := Some(bytes[..]);
  }

  method AssembleHalves(head: seq<string>, tail: seq<string>) returns (r: Option<Bytes>)
    ensures r == Halves(head, tail)
  {
    var bytes, headEnd := EmitFresh(head);
    if headEnd.None? {
      return None;
    }
    var tailBuffer, tailEnd := EmitFresh(tail);
    if tailEnd.None? || headEnd.value + tailEnd.value > 14 {
      return None;
    }
    SliceSum(GroupBytes(tail).value, Zeros(16 - tailEnd.value), 0);
    LayTail(bytes, GroupBytes(head).value, tailBuffer[..tailEnd.value]);
    r := Some(bytes[..]);
  }

  /** Writes `b` at the end of a buffer that holds `a` and zeros. */
  method LayTail(bytes: array<Byte>, ghost a: Bytes, b: Bytes)
    requires bytes.Length == 16 && |a| + |b| <= 14 && bytes[..] == a + Zeros(16 - |a|)
    modifies bytes
    ensures Some(bytes[..]) == Around(a, b)
  {
    Assembled(a, b, Zeros(16 - |a|));
    SetBytes(bytes, b, 16 - |b|);
  }

  lemma SliceSum(a: Bytes, b: Bytes, n: nat)
    requires n <= |b|
    ensures (a + b)[..|a| + n] == a + b[..n]
    ensures n == 0 ==> (a + b)[..|a|] == a
  {
  }

  lemma {:induction false} ZeroPrefix(n: nat, k: nat)
    requires k <= n
    ensures Zeros(n)[..k] == Zeros(k)
  {
    if k > 0 {
      ZeroPrefix(n - 1, k - 1);
      SliceSum([0], Zeros(n - 1), k - 1);
    }
  }

  lemma Spliced(a: Bytes, rest: Bytes, middle: Bytes, b: Bytes)
    requires |a| + |rest| == 16 && |middle| + |b| == |rest| && rest[..|middle|] == middle
    ensures (a + rest)[..16 - |b|] + b + (a + rest)[16..] == a + middle + b
  {
    SliceSum(a, rest, |middle|);
    NothingLeft(a + rest, a + middle + b);
  }

  /** Overwriting the end of `a` and zeros with `b` leaves zeros between. */
  lemma Assembled(a: Bytes, b: Bytes, rest: Bytes)
    requires |a| + |b| <= 14 && rest == Zeros(16 - |a|)
    ensures Some((a + rest)[..16 - |b|] + b + (a + rest)[16..]) == Around(a, b)
  {
    var middle := Zeros(|rest| - |b|);
    ZeroPrefix(|rest|, |middle|);
    Spliced(a, rest, middle, b);
  }

  lemma NothingLeft(whole: Bytes, s: Bytes)
    ensures s + whole[|whole|..] == s
  {
  }

  lemma Headed(blank: Bytes, a: Bytes)
    requires |blank| == 16 && |a| <= 16 && forall i :: 0 <= i < 16 ==> blank[i] == 0
    ensures blank[..0] + a + blank[|a|..] == a + Zeros(16 - |a|)
  {
    ZeroRest(blank, |a|);
    EmptyFront(blank, a, Zeros(16 - |a|));
  }

  lemma ZeroRest(blank: Bytes, k: nat)
    requires k <= |blank| && forall i :: 0 <= i < |blank| ==> blank[i] == 0
    ensures blank[k..] == Zeros(|blank| - k)
  {
    AllZero(blank[k..]);
  }

  lemma EmptyFront(blank: Bytes, a: Bytes, rest: Bytes)
    ensures blank[..0] + a + rest == a + rest
  {
  }

  // --- addresses --------------------------------------------------------------------------------

  predicate IsSpace(c: char) {
    var n := c as int;
    9 <= n <= 13 || n == 0x20 || n == 0xA0 || n == 0x1680 || 0x2000 <= n <= 0x200A
    || n in {0x2028, 0x2029, 0x202F, 0x205F, 0x3000, 0xFEFF}
  }

  function TrimStart(s: string): string {
    if s == "" || !IsSpace(s[0]) then s else TrimStart(s[1..])
  }

  function TrimEnd(s: string): string {
    if s == "" || !IsSpace(s[|s| - 1]) then s else TrimEnd(s[..|s| - 1])
  }

  function Trim(s: string): string {
    TrimEnd(TrimStart(s))
  }

  predicate IsMapped(v6: Bytes) {
    |v6| == 16 && (forall i :: 0 <= i < 10 ==> v6[i] == 0) && v6[10] == 0xff && v6[11] == 0xff
  }

  /** An IPv4-mapped address is its IPv4 address. */
  function Collapsed(v6: Bytes): (r: Bytes)
    requires |v6| == 16
    ensures |r| in {4, 16}
  {
    if IsMapped(v6) then v6[12..] else v6
  }

  method CollapseMapped(v6: Bytes) returns (r: Bytes)
    requires |v6| == 16
    ensures r == Collapsed(v6)
  {
    for i := 0 to 10
      invariant forall j :: 0 <= j < i ==> v6[j] == 0
    {
      if v6[i] != 0 {
        return v6;
      }
    }
    r := if v6[10] == 0xff && v6[11] == 0xff then v6[12..16] else v6;
  }

  function Address(ip: string): (r: Option<Bytes>)
    ensures r.Some? ==> |r.value| in {4, 16}
  {
    var value := Trim(ip);
    if value == "" || |value| > 64 then None
    else if Ipv4(value).Some? then Ipv4(value)
    else
      var v6 := Ipv6(value);
      if v6.Some? then Some(Collapsed(v6.value)) else None
  }

  method IpToBytes(ip: string) returns (r: Option<Bytes>)
    ensures r == Address(ip)
  {
    var value := Trim(ip);
    if |value| == 0 || |value| > 64 {
      return None;
    }
    var v4 := ParseIpv4(value);
    if v4.Some? {
      return v4;
    }
    var v6 := ParseIpv6(value);
    if v6.None? {
      return None;
    }
    var bytes := CollapseMapped(v6.value);
    r := Some(bytes);
  }

  // --- compressed and expanded texts ----------------------------------------------------------------

  ghost predicate HexGroups(groups: seq<string>) {
    forall g :: g in groups ==> IsHexGroup(g)
  }

  lemma HexGroupChars(g: string)
    requires IsHexGroup(g)
    ensures g != "" && '.' !in g && ':' !in g && '%' !in g && '[' !in g
  {
    assert forall c :: c in g ==> IsHex(c);
  }

  ghost function BytesOf(groups: seq<string>): (r: Bytes)
    requires HexGroups(groups)
    ensures |r| == 2 * |groups|
  {
    if groups == [] then [] else GroupPair(groups[0]) + BytesOf(groups[1..])
  }

  lemma {:induction false} HexGroupsGiveBytes(groups: seq<string>)
    requires HexGroups(groups)
    ensures GroupBytes(groups) == Some(BytesOf(groups))
  {
    if groups != [] {
      HexGroupChars(groups[0]);
      HexGroupsGiveBytes(groups[1..]);
    }
  }

  lemma {:induction false} BytesOfAppended(a: seq<string>, b: seq<string>)
    requires HexGroups(a) && HexGroups(b)
    ensures BytesOf(a + b) == BytesOf(a) + BytesOf(b)
  {
    if a == [] {
      assert a + b == b;
    } else {
      assert (a + b)[1..] == a[1..] + b;
      BytesOfAppended(a[1..], b);
    }
  }

  function ZeroGroups(n: nat): seq<string> {
    if n == 0 then [] else ["0"] + ZeroGroups(n - 1)
  }

  lemma {:induction false} ZeroGroupsAreZeros(n: nat)
    ensures |ZeroGroups(n)| == n && HexGroups(ZeroGroups(n))
    ensures BytesOf(ZeroGroups(n)) == Zeros(2 * n)
  {
    if n > 0 {
      ZeroGroupsAreZeros(n - 1);
      assert Hex("0") == 0;
      assert ZeroGroups(n)[1..] == ZeroGroups(n - 1);
      assert Zeros(2 * n) == [0] + Zeros(2 * n - 1) == [0, 0] + Zeros(2 * (n - 1));
    }
  }

  /** Characters a text of groups is made of; each colon is followed by a digit. */
  predicate Grouped(s: string) {
    && (forall i :: 0 <= i < |s| ==> s[i] == ':' || IsHex(s[i]))
    && (forall i :: 0 <= i < |s| && s[i] == ':' ==> i + 1 < |s| && s[i + 1] != ':')
  }

  lemma {:induction false} JoinedIsGrouped(groups: seq<string>)
    requires HexGroups(groups)
    ensures var s := Join(groups, ':');
      && Grouped(s) && |s| <= 5 * |groups|
      && (groups != [] ==> s != "" && s[0] != ':' && |s| <= 5 * |groups| - 1)
      && (|groups| >= 2 ==> ':' in s)
  {
    if groups != [] {
      HexGroupChars(groups[0]);
      assert forall i :: 0 <= i < |groups[0]| ==> groups[0][i] in groups[0];
      JoinedIsGrouped(groups[1..]);
    }
  }

  lemma {:induction false} NoPair(s: string)
    requires Grouped(s)
    ensures FindPair(s) == None
  {
    if |s| >= 2 {
      NoPair(s[1..]);
    }
  }

  /** The only "::" of a compressed text is the one between its halves. */
  lemma {:induction false} PairBetween(a: string, b: string)
    requires Grouped(a) && Grouped(b) && (b != "" ==> b[0] != ':')
    ensures FindPair(a + "::" + b) == Some(|a|)
    decreases |a|
  {
    var s := a + "::" + b;
    if a != "" {
      assert s[1..] == a[1..] + "::" + b;
      PairBetween(a[1..], b);
    }
  }

  lemma {:induction false} NothingToCut(s: string)
    requires '%' !in s
    ensures CutAt(s, '%') == s
  {
    if s != "" {
      NothingToCut(s[1..]);
    }
  }

  lemma PlainText(s: string)
    requires s != "" && forall i :: 0 <= i < |s| ==> s[i] == ':' || IsHex(s[i])
    ensures Stripped(s) == s
  {
    assert '%' !in s;
    NothingToCut(s);
  }

  lemma {:induction false} HexGroupsHoldNoColon(groups: seq<string>)
    requires HexGroups(groups)
    ensures NoneHolds(groups, ':')
  {
    if groups != [] {
      HexGroupChars(groups[0]);
      HexGroupsHoldNoColon(groups[1..]);
    }
  }

  lemma GroupsOf(groups: seq<string>)
    requires HexGroups(groups)
    ensures Colons(Join(groups, ':')) == groups
  {
    JoinedIsGrouped(groups);
    if groups != [] {
      HexGroupsHoldNoColon(groups);
      JoinedSplits(groups, ':');
    }
  }

  /** A text of eight groups is read group by group. */
  lemma FullForm(groups: seq<string>)
    requires HexGroups(groups) && |groups| == 8
    ensures Ipv6(Join(groups, ':')) == Some(BytesOf(groups))
  {
    var text := Join(groups, ':');
    JoinedIsGrouped(groups);
    PlainText(text);
    NoPair(text);
    GroupsOf(groups);
    HexGroupsGiveBytes(groups);
  }

  lemma PairAfter(b: string)
    requires Grouped(b) && (b != "" ==> b[0] != ':')
    ensures FindPair(":" + b) == None
  {
    NoPair(b);
    assert (":" + b)[1..] == b;
  }

  /** The text before and after "::" is found again. */
  lemma CompressedIsHalves(a: string, b: string)
    requires Grouped(a) && Grouped(b) && (b != "" ==> b[0] != ':') && |a| + |b| <= 43
    ensures Ipv6(a + "::" + b) == Halves(Colons(a), Colons(b))
  {
    PairBetween(a, b);
    PairAfter(b);
    CompressedPieces(a, b);
  }

  lemma CompressedPieces(a: string, b: string)
    requires Grouped(a) && Grouped(b)
    ensures var text := a + "::" + b;
      && Stripped(text) == text && ':' in text
      && text[..|a|] == a && text[|a| + 1..] == ":" + b && text[|a| + 2..] == b
  {
    var text := a + "::" + b;
    PlainText(text);
    assert text[|a|] == ':';
  }

  lemma JoinedHalves(head: seq<string>, tail: seq<string>)
    requires HexGroups(head) && HexGroups(tail) && |head| + |tail| <= 8
    ensures Ipv6(Join(head, ':') + "::" + Join(tail, ':')) == Halves(head, tail)
  {
    JoinedIsGrouped(head);
    JoinedIsGrouped(tail);
    CompressedIsHalves(Join(head, ':'), Join(tail, ':'));
    GroupsOf(head);
    GroupsOf(tail);
  }

  lemma HalvesOfHex(head: seq<string>, tail: seq<string>)
    requires HexGroups(head) && HexGroups(tail)
    ensures Halves(head, tail) == Around(BytesOf(head), BytesOf(tail))
  {
    HexGroupsGiveBytes(head);
    HexGroupsGiveBytes(tail);
  }

  function Expansion(head: seq<string>, tail: seq<string>): seq<string>
    requires |head| + |tail| <= 8
  {
    head + (ZeroGroups(8 - |head| - |tail|) + tail)
  }

  lemma ExpansionGroups(head: seq<string>, tail: seq<string>)
    requires HexGroups(head) && HexGroups(tail) && |head| + |tail| < 8
    ensures HexGroups(Expansion(head, tail)) && |Expansion(head, tail)| == 8
  {
    ZeroGroupsAreZeros(8 - |head| - |tail|);
  }

  lemma ExpansionBytes(head: seq<string>, tail: seq<string>)
    requires HexGroups(head) && HexGroups(tail) && |head| + |tail| < 8 && HexGroups(Expansion(head, tail))
    ensures Some(BytesOf(Expansion(head, tail))) == Around(BytesOf(head), BytesOf(tail))
  {
    var n := 8 - |head| - |tail|;
    ZeroGroupsAreZeros(n);
    BytesOfThree(head, ZeroGroups(n), tail);
    Middle(BytesOf(head), Zeros(2 * n), BytesOf(tail));
  }

  lemma BytesOfThree(a: seq<string>, b: seq<string>, c: seq<string>)
    requires HexGroups(a) && HexGroups(b) && HexGroups(c)
    ensures BytesOf(a + (b + c)) == BytesOf(a) + (BytesOf(b) + BytesOf(c))
  {
    BytesOfAppended(b, c);
    BytesOfAppended(a, b + c);
  }

  lemma Middle(a: Bytes, zeros: Bytes, b: Bytes)
    requires |a| + |zeros| + |b| == 16 && |zeros| >= 2 && zeros == Zeros(|zeros|)
    ensures Some(a + (zeros + b)) == Around(a, b)
  {
    Regrouped(a, zeros, b);
  }

  lemma Regrouped(a: Bytes, b: Bytes, c: Bytes)
    ensures a + (b + c) == a + b + c
  {
  }

  /** Eight groups or more leave "::" nothing to stand for. */
  lemma TooManyGroups(head: seq<string>, tail: seq<string>)
    requires HexGroups(head) && HexGroups(tail) && |head| + |tail| >= 8
    ensures Ipv6(Join(head, ':') + "::" + Join(tail, ':')) == None
  {
    var a, b := Join(head, ':'), Join(tail, ':');
    JoinedIsGrouped(head);
    JoinedIsGrouped(tail);
    if |a| + |b| <= 43 {
      CompressedIsHalves(a, b);
      GroupsOf(head);
      GroupsOf(tail);
      HalvesOfHex(head, tail);
    } else {
      CompressedPieces(a, b);
    }
  }

  /**
   * A "::" stands for as many zero groups as make eight, and for at least one: the compressed
   * text parses exactly when a group is left out, to the bytes of its expansion.
   */
  lemma CompressionExpands(head: seq<string>, tail: seq<string>)
    requires HexGroups(head) && HexGroups(tail)
    ensures var compressed := Ipv6(Join(head, ':') + "::" + Join(tail, ':'));
      if |head| + |tail| >= 8 then compressed == None
      else compressed.Some? && compressed == Ipv6(Join(Expansion(head, tail), ':'))
  {
    if |head| + |tail| >= 8 {
      TooManyGroups(head, tail);
    } else {
      JoinedHalves(head, tail);
      HalvesOfHex(head, tail);
      ExpansionGroups(head, tail);
      ExpansionBytes(head, tail);
      FullForm(Expansion(head, tail));
    }
  }

  // --- IPv4 over IPv6 -----------------------------------------------------------------------------

  predicate Dotted(s: string) {
    forall i :: 0 <= i < |s| ==> IsDigit(s[i]) || s[i] == '.'
  }

  ghost predicate ShortNumbers(parts: seq<string>) {
    forall i :: 0 <= i < |parts| ==> AllDigits(parts[i]) && |parts[i]| <= 3
  }

  lemma {:induction false} DottedQuad(s: string)
    requires ShortNumbers(Split(s, '.'))
    ensures Dotted(s) && |s| <= |Split(s, '.')[0]| + 4 * (|Split(s, '.')| - 1)
  {
    if s != "" {
      var parts, rest := Split(s, '.'), Split(s[1..], '.');
      forall i | 0 <= i < |rest|
        ensures AllDigits(rest[i]) && |rest[i]| <= 3
      {
        if s[0] == '.' {
          assert parts[i + 1] == rest[i];
        } else if i == 0 {
          assert parts[0] == [s[0]] + rest[0];
          assert forall k :: 0 <= k < |rest[0]| ==> rest[0][k] == parts[0][k + 1];
        } else {
          assert parts[i] == rest[i];
        }
      }
      DottedQuad(s[1..]);
      assert s[0] == '.' || IsDigit(parts[0][0]);
    }
  }

  lemma {:induction false} NoDotOnePart(s: string)
    requires '.' !in s
    ensures |Split(s, '.')| == 1
  {
    if s != "" {
      NoDotOnePart(s[1..]);
    }
  }

  lemma Ipv4Text(t: string)
    requires Ipv4(t).Some?
    ensures Dotted(t) && 1 <= |t| <= 15 && '.' in t
  {
    var parts := Split(t, '.');
    assert ShortNumbers(parts);
    DottedQuad(t);
    if '.' !in t {
      NoDotOnePart(t);
    }
  }

  lemma {:induction false} DottedHasNoPair(t: string)
    requires Dotted(t)
    ensures FindPair(t) == None
  {
    if |t| >= 2 {
      DottedHasNoPair(t[1..]);
    }
  }

  lemma {:induction false} SkipNoPair(s: string)
    requires |s| >= 2 && !(s[0] == ':' && s[1] == ':') && FindPair(s[1..]) == None
    ensures FindPair(s) == None
  {
  }

  lemma MappedPair(t: string)
    requires Dotted(t)
    ensures FindPair(":ffff:" + t) == None
  {
    DottedHasNoPair(t);
    assert (":" + t)[1..] == t;
    assert ("f:" + t)[1..] == ":" + t;
    assert ("ff:" + t)[1..] == "f:" + t;
    assert ("fff:" + t)[1..] == "ff:" + t;
    assert ("ffff:" + t)[1..] == "fff:" + t;
    assert (":ffff:" + t)[1..] == "ffff:" + t;
    assert FindPair(":" + t) == None;
    SkipNoPair("f:" + t);
    SkipNoPair("ff:" + t);
    SkipNoPair("fff:" + t);
    SkipNoPair("ffff:" + t);
    SkipNoPair(":ffff:" + t);
  }

  lemma MappedColons(t: string)
    requires Ipv4(t).Some?
    ensures Colons("ffff:" + t) == ["ffff", t]
  {
    Ipv4Text(t);
    SplitHead("ffff", ':', t);
    SplitHead(t, ':', "");
    assert "ffff" + [':'] + t == "ffff:" + t;
  }

  lemma FullGroup()
    ensures IsHexGroup("ffff") && GroupPair("ffff") == [0xff, 0xff]
  {
    assert "f"[..0] == "" && "ff"[..1] == "f" && "fff"[..2] == "ff" && "ffff"[..3] == "fff";
    assert Hex("") == 0 && Hex("f") == 15 && Hex("ff") == 255 && Hex("fff") == 4095 && Hex("ffff") == 65535;
  }

  lemma MappedGroups(t: string)
    requires Ipv4(t).Some?
    ensures Colons("ffff:" + t) == ["ffff", t]
    ensures GroupBytes(["ffff", t]) == Some([0xff, 0xff] + Ipv4(t).value)
  {
    Ipv4Text(t);
    MappedColons(t);
    FullGroup();
    assert ["ffff", t][1..] == [t] && [t][1..] == [];
    assert Ipv4(t).value + [] == Ipv4(t).value;
    assert GroupBytes([t]) == Ipv4(t);
  }

  lemma {:induction false} ZerosAt(n: nat, i: nat)
    requires i < n
    ensures Zeros(n)[i] == 0
  {
    if i > 0 {
      ZerosAt(n - 1, i - 1);
    }
  }

  lemma MappedBytes(v4: Bytes)
    requires |v4| == 4
    ensures var v6 := Around([], [0xff, 0xff] + v4);
      v6.Some? && Collapsed(v6.value) == v4
  {
    forall i | 0 <= i < 10
      ensures Zeros(10)[i] == 0
    {
      ZerosAt(10, i);
    }
    var v6 := [] + Zeros(10) + ([0xff, 0xff] + v4);
    assert v6[12..] == v4;
  }

  lemma MappedText(t: string)
    requires Dotted(t) && 1 <= |t|
    ensures var text := "::ffff:" + t;
      Trim(text) == text && Stripped(text) == text && Ipv4(text) == None
  {
    var text := "::ffff:" + t;
    assert TrimStart(text) == text;
    assert text[|text| - 1] == t[|t| - 1];
    assert '%' !in text;
    NothingToCut(text);
    var parts := Split(text, '.');
    assert text[0] == ':';
    assert parts[0] != "" && parts[0][0] == ':';
    assert !AllDigits(parts[0]);
  }

  lemma MappedIpv6(t: string)
    requires Ipv4(t).Some?
    ensures Ipv6("::ffff:" + t) == Around([], [0xff, 0xff] + Ipv4(t).value)
  {
    var text := "::ffff:" + t;
    Ipv4Text(t);
    MappedText(t);
    assert text[1..] == ":ffff:" + t && text[2..] == "ffff:" + t && text[..0] == "";
    MappedPair(t);
    MappedGroups(t);
    assert FindPair(text) == Some(0);
    assert Ipv6(text) == Halves([], ["ffff", t]);
  }

  /** An IPv4 address written as an IPv4-mapped IPv6 address is the same address. */
  lemma MappedIsIpv4(t: string)
    requires Ipv4(t).Some?
    ensures Address("::ffff:" + t) == Ipv4(t)
  {
    Ipv4Text(t);
    MappedText(t);
    MappedIpv6(t);
    MappedBytes(Ipv4(t).value);
  }
}
