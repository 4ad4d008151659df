/** Who a client address is charged to: reading IPv4 and IPv6 text, and the network's name
    (edge/src/admission.ts:84-138).

    A legal spelling of an IPv6 address is the text representation of section 2.2 of RFC 4291: eight groups
    of one to four hexadecimal digits in either case, at most one `::` for one or more groups of zeros, and
    optionally the last two groups as a dotted quad.
 */
module Admission {
  import opened Budget
  import opened Text

  // ----- IPv4 -----

  function Number(digits: string): (n: int)
    requires forall c :: c in digits ==> IsDigit(c)
    ensures n >= 0
  {
    if digits == [] then 0
    else
      assert forall c :: c in digits[..|digits| - 1] ==> c in digits;
      assert IsDigit(digits[|digits| - 1]) by { assert digits[|digits| - 1] in digits; }
      10 * Number(digits[..|digits| - 1]) + DigitValue(digits[|digits| - 1])
  }

  /** One to three decimal digits. */
  predicate OctetShaped(text: string) { 1 <= |text| <= 3 && forall c :: c in text ==> IsDigit(c) }

  predicate QuadShaped(text: string) {
    var parts := Split(text, '.');
    |parts| == 4 && forall p :: p in parts ==> OctetShaped(p)
  }

  function Octets(parts: seq<string>): seq<int>
    requires forall p :: p in parts ==> OctetShaped(p)
  {
    seq(|parts|, i requires 0 <= i < |parts| =>
      assert OctetShaped(parts[i]) by { assert parts[i] in parts; } Number(parts[i]))
  }

  function ParseIpv4(text: string): (octets: Option<seq<int>>)
    ensures octets.Some? ==> |octets.value| == 4 && forall o :: o in octets.value ==> 0 <= o <= 255
  {
    if !QuadShaped(text) then None
    else
      var octets := Octets(Split(text, '.'));
      if forall o :: o in octets ==> o <= 255 then Some(octets) else None
  }

  // ----- IPv6 -----

  predicate IsHexDigit(c: char) { IsDigit(c) || 'a' <= c <= 'f' }

  function HexDigitValue(c: char): int
    requires IsHexDigit(c)
  {
    if IsDigit(c) then DigitValue(c) else 10 + (c as int - 'a' as int)
  }

  function HexNumber(digits: string): (n: int)
    requires forall c :: c in digits ==> IsHexDigit(c)
    ensures n >= 0
  {
    if digits == [] then 0
    else
      assert forall c :: c in digits[..|digits| - 1] ==> c in digits;
      assert digits[|digits| - 1] in digits;
      16 * HexNumber(digits[..|digits| - 1]) + HexDigitValue(digits[|digits| - 1])
  }

  /** One to four lower-case hexadecimal digits. */
  predicate IsGroup(text: string) { 1 <= |text| <= 4 && forall c :: c in text ==> IsHexDigit(c) }

  predicate AreGroups(groups: seq<string>) { forall g :: g in groups ==> IsGroup(g) }

  function HexDigit(n: int): char
    requires 0 <= n < 16
  {
    if n < 10 then '0' + n as char else 'a' + (n - 10) as char
  }

  /** A number in hexadecimal, without leading zeros. */
  function Hex(n: int): (text: string)
    requires 0 <= n
    ensures text != []
  {
    if n < 16 then [HexDigit(n)] else Hex(n / 16) + [HexDigit(n % 16)]
  }

  /** The place of the first `::`, or none. */
  function Gap(s: string): (i: Option<nat>)
    ensures i.Some? ==> i.value + 1 < |s| && s[i.value] == ':' && s[i.value + 1] == ':'
    ensures i.None? ==> forall k :: 0 <= k && k + 1 < |s| ==> !(s[k] == ':' && s[k + 1] == ':')
    ensures i.Some? ==> forall k :: 0 <= k < i.value ==> !(s[k] == ':' && s[k + 1] == ':')
  {
    if |s| < 2 then None
    else if s[0] == ':' && s[1] == ':' then Some(0)
    else
      var rest := Gap(s[1..]);
      assert forall k :: 0 < k && k + 1 < |s| ==> s[k] == s[1..][k - 1] && s[k + 1] == s[1..][k];
      if rest.Some? then Some(rest.value + 1) else None
  }

  /** The text split at each `::`. */
  function Halves(s: string): (halves: seq<string>)
    ensures halves != []
    decreases |s|
  {
    var i := Gap(s);
    if i.None? then [s] else [s[..i.value]] + Halves(s[i.value + 2..])
  }

  function LastColon(s: string): (i: Option<nat>)
    ensures i.Some? ==> i.value < |s| && s[i.value] == ':' && ':' !in s[i.value + 1..]
    ensures i.None? ==> ':' !in s
  {
    if s == [] then None
    else if s[|s| - 1] == ':' then Some(|s| - 1)
    else
      var rest := LastColon(s[..|s| - 1]);
      assert rest.Some? ==> s[rest.value + 1..] == s[..|s| - 1][rest.value + 1..] + [s[|s| - 1]];
      rest
  }

  predicate IsLineEnd(c: char) { c == '\n' || c == '\r' || c == '\U{2028}' || c == '\U{2029}' }

  /** The two groups a dotted quad stands for. */
  function QuadGroups(octets: seq<int>): (groups: seq<int>)
    requires |octets| == 4 && forall o :: o in octets ==> 0 <= o <= 255
    ensures |groups| == 2 && 0 <= groups[0] < 65536 && 0 <= groups[1] < 65536
  {
    assert octets[0] in octets && octets[1] in octets && octets[2] in octets && octets[3] in octets;
    [octets[0] * 256 + octets[1], octets[2] * 256 + octets[3]]
  }

  /** A trailing dotted quad in hexadecimal; nothing when one of its numbers is too big. */
  function HexTail(source: string): Option<string> {
    var colon := LastColon(source);
    if colon.None? then Some(source)
    else
      var front, quad := source[..colon.value + 1], source[colon.value + 1..];
      if !QuadShaped(quad) || (exists c :: c in front && IsLineEnd(c)) then Some(source)
      else if ParseIpv4(quad).None? then None
      else
        var groups := QuadGroups(ParseIpv4(quad).value);
        Some(front + Hex(groups[0]) + ":" + Hex(groups[1]))
  }

  function Fields(half: string): seq<string> {
    if half == "" then [] else Split(half, ':')
  }

  function Repeat<T>(x: T, n: nat): (r: seq<T>)
    ensures |r| == n
  {
    seq(n, _ => x)
  }

  /** The groups of a text without a dotted quad. */
  function ParseGroups(source: string): Option<seq<int>> {
    var halves := Halves(source);
    if |halves| > 2 then None
    else
      var head, tail := Fields(halves[0]), if |halves| == 2 then Fields(halves[1]) else [];
      var missing := 8 - |head| - |tail|;
      if (if |halves| == 1 then missing != 0 else missing < 1) then None
      else
        var groups := head + Repeat("0", if |halves| == 2 then missing else 0) + tail;
        if AreGroups(groups) then Some(Values(groups)) else None
  }

  function Values(groups: seq<string>): (values: seq<int>)
    requires AreGroups(groups)
    ensures |values| == |groups|
  {
    seq(|groups|, i requires 0 <= i < |groups| =>
      assert IsGroup(groups[i]) by { assert groups[i] in groups; } HexNumber(groups[i]))
  }

  function ParseIpv6(text: string): Option<seq<int>> {
    var source := HexTail(Lower(text));
    if source.None? then None else ParseGroups(source.value)
  }

  // ----- legal spellings -----

  /** Groups as written before and after a `::`, if there is one, and a dotted quad, if that comes last. */
  datatype Spelling = Spelling(head: seq<string>, gap: bool, tail: seq<string>, quad: Option<seq<string>>)

  function Width(sp: Spelling): nat {
    |sp.head| + |sp.tail| + if sp.quad.Some? then 2 else 0
  }

  predicate Legal(sp: Spelling) {
    && (forall g :: g in sp.head + sp.tail ==> IsGroup(Lower(g)))
    && (sp.quad.Some? ==> LegalQuad(sp.quad.value))
    && if sp.gap then Width(sp) <= 7 else Width(sp) == 8 && sp.tail == []
  }

  predicate LegalQuad(quad: seq<string>) {
    |quad| == 4 && forall q :: q in quad ==> OctetShaped(q) && Number(q) <= 255
  }

  function LastField(sp: Spelling): seq<string> {
    if sp.quad.Some? then [Join(sp.quad.value, '.')] else []
  }

  function Spelled(sp: Spelling): string {
    if sp.gap then Join(sp.head, ':') + "::" + Join(sp.tail + LastField(sp), ':')
    else Join(sp.head + LastField(sp), ':')
  }

  function QuadOctets(quad: seq<string>): (octets: seq<int>)
    requires LegalQuad(quad)
    ensures |octets| == 4 && forall o :: o in octets ==> 0 <= o <= 255
  {
    var octets := Octets(quad);
    assert forall i :: 0 <= i < 4 ==> quad[i] in quad;
    octets
  }

  /** The address a spelling stands for. */
  function Address(sp: Spelling): seq<int>
    requires Legal(sp)
  {
    LegalLower(sp);
    Values(LowerAll(sp.head)) + Repeat(0, 8 - Width(sp)) + Values(LowerAll(sp.tail))
    + if sp.quad.Some? then QuadGroups(QuadOctets(sp.quad.value)) else []
  }

  lemma LegalLower(sp: Spelling)
    requires Legal(sp)
    ensures AreGroups(LowerAll(sp.head)) && AreGroups(LowerAll(sp.tail))
  {
    forall g | g in LowerAll(sp.head) + LowerAll(sp.tail) ensures IsGroup(g) {
      if g in LowerAll(sp.head) {
        var i :| 0 <= i < |sp.head| && LowerAll(sp.head)[i] == g;
        assert sp.head[i] in sp.head + sp.tail;
      } else {
        var i :| 0 <= i < |sp.tail| && LowerAll(sp.tail)[i] == g;
        assert sp.tail[i] in sp.head + sp.tail;
      }
    }
  }

  // ----- hexadecimal numbers -----

  lemma {:induction false} HexReads(n: int)
    requires 0 <= n
    ensures (forall c :: c in Hex(n) ==> IsHexDigit(c)) && HexNumber(Hex(n)) == n
    ensures n < 16 ==> |Hex(n)| == 1
    ensures n < 256 ==> |Hex(n)| <= 2
    ensures n < 4096 ==> |Hex(n)| <= 3
    ensures n < 65536 ==> |Hex(n)| <= 4
  {
    if n < 16 {
      assert HexNumber([HexDigit(n)][..0]) == 0;
    } else {
      HexReads(n / 16);
      assert Hex(n)[..|Hex(n)| - 1] == Hex(n / 16);
    }
  }

  // ----- texts of groups joined by colons -----

  /** Neither starting nor ending with a colon, nor holding two in a row. */
  predicate Clean(s: string) {
    && (s != [] ==> s[0] != ':' && s[|s| - 1] != ':')
    && forall k :: 0 <= k && k + 1 < |s| ==> !(s[k] == ':' && s[k + 1] == ':')
  }

  predicate HexOrColon(s: string) { forall c :: c in s ==> IsHexDigit(c) || c == ':' }

  lemma {:induction false} JoinedGroups(groups: seq<string>)
    requires AreGroups(groups)
    ensures Clean(Join(groups, ':')) && HexOrColon(Join(groups, ':'))
    ensures groups != [] ==> Join(groups, ':') != []
    ensures Fields(Join(groups, ':')) == groups
  {
    if groups != [] {
      assert groups[0] in groups;
      forall g | g in groups ensures ':' !in g { assert IsGroup(g); }
      SplitOfJoin(groups, ':');
      if |groups| > 1 {
        forall g | g in groups[1..] ensures IsGroup(g) { assert g in groups; }
        JoinedGroups(groups[1..]);
      }
    }
  }

  /** A text with `::` between two clean halves splits into them. */
  lemma HalvesAt(x: string, y: string)
    requires Clean(x) && Clean(y)
    ensures Halves(x + "::" + y) == [x, y]
  {
    var s := x + "::" + y;
    assert s[|x|] == ':' && s[|x| + 1] == ':';
    assert Gap(s) == Some(|x|);
    assert s[..|x|] == x && s[|x| + 2..] == y;
    assert Gap(y).None?;
  }

  lemma ZeroGroups(n: nat)
    ensures AreGroups(Repeat("0", n)) && Values(Repeat("0", n)) == Repeat(0, n)
  {
    assert HexNumber("0"[..0]) == 0;
    assert HexNumber("0") == 0;
  }

  lemma ValuesAcross(a: seq<string>, b: seq<string>)
    requires AreGroups(a) && AreGroups(b)
    ensures AreGroups(a + b) && Values(a + b) == Values(a) + Values(b)
  {
  }

  /** A plain spelling in lower case reads as its groups. */
  lemma GappedGroupsRead(head: seq<string>, tail: seq<string>)
    requires AreGroups(head) && AreGroups(tail) && |head| + |tail| <= 7
    ensures ParseGroups(Join(head, ':') + "::" + Join(tail, ':'))
            == Some(Values(head) + Repeat(0, 8 - |head| - |tail|) + Values(tail))
  {
    hide Clean, HexOrColon, AreGroups, Join, Halves, Fields, Values, Repeat, ParseGroups;
    JoinedGroups(head);
    JoinedGroups(tail);
    HalvesAt(Join(head, ':'), Join(tail, ':'));
    HalvesRead(Join(head, ':') + "::" + Join(tail, ':'), Join(head, ':'), Join(tail, ':'));
  }

  lemma HalvesRead(source: string, x: string, y: string)
    requires Halves(source) == [x, y] && AreGroups(Fields(x)) && AreGroups(Fields(y)) && |Fields(x)| + |Fields(y)| <= 7
    ensures ParseGroups(source)
            == Some(Values(Fields(x)) + Repeat(0, 8 - |Fields(x)| - |Fields(y)|) + Values(Fields(y)))
  {
    hide Halves, Fields, AreGroups, Values, Repeat;
    var zeros := 8 - |Fields(x)| - |Fields(y)|;
    ZeroGroups(zeros);
    ValuesAcross(Fields(x), Repeat("0", zeros));
    ValuesAcross(Fields(x) + Repeat("0", zeros), Fields(y));
  }

  lemma EightGroupsRead(head: seq<string>)
    requires AreGroups(head) && |head| == 8
    ensures ParseGroups(Join(head, ':')) == Some(Values(head))
  {
    JoinedGroups(head);
    assert Halves(Join(head, ':')) == [Join(head, ':')];
    assert head + Repeat("0", 0) + [] == head;
  }

  // ----- from spellings to addresses -----

  /** Everything of a spelling before its last fields. */
  function Front(head: seq<string>, gap: bool, tail: seq<string>): string {
    if gap then Join(head, ':') + "::" + if tail == [] then "" else Join(tail, ':') + ":"
    else if head == [] then "" else Join(head, ':') + ":"
  }

  lemma SpelledFront(sp: Spelling, last: seq<string>)
    requires last != [] && (!sp.gap ==> sp.tail == [])
    ensures (if sp.gap then Join(sp.head, ':') + "::" + Join(sp.tail + last, ':') else Join(sp.head + last, ':'))
            == Front(sp.head, sp.gap, sp.tail) + Join(last, ':')
  {
    if sp.gap {
      if sp.tail == [] { assert sp.tail + last == last; } else { JoinAcross(sp.tail, last, ':'); }
    } else {
      if sp.head == [] { assert sp.head + last == last; } else { JoinAcross(sp.head, last, ':'); }
    }
  }

  lemma {:induction false} LowerJoin(parts: seq<string>)
    ensures Lower(Join(parts, ':')) == Join(LowerAll(parts), ':')
  {
    if parts == [] {
    } else if |parts| == 1 {
      assert LowerAll(parts) == [Lower(parts[0])];
    } else {
      LowerJoin(parts[1..]);
      assert LowerAll(parts)[1..] == LowerAll(parts[1..]);
      LowerAcross(parts[0] + ":", Join(parts[1..], ':'));
      LowerAcross(parts[0], ":");
      assert Lower(":") == ":";
    }
  }

  lemma LowerFront(head: seq<string>, gap: bool, tail: seq<string>)
    ensures Lower(Front(head, gap, tail)) == Front(LowerAll(head), gap, LowerAll(tail))
  {
    LowerJoin(head);
    LowerJoin(tail);
    assert Lower("::") == "::" && Lower(":") == ":" && Lower("") == "";
    LowerAcross(Join(head, ':'), "::" + if tail == [] then "" else Join(tail, ':') + ":");
    LowerAcross("::", if tail == [] then "" else Join(tail, ':') + ":");
    LowerAcross(Join(tail, ':'), ":");
    LowerAcross(Join(head, ':'), ":");
  }

  lemma FrontIsHexOrColon(head: seq<string>, gap: bool, tail: seq<string>)
    requires AreGroups(head) && AreGroups(tail) && (!gap ==> head != [])
    ensures HexOrColon(Front(head, gap, tail)) && Front(head, gap, tail) != []
    ensures var f := Front(head, gap, tail); f[|f| - 1] == ':'
  {
    JoinedGroups(head);
    JoinedGroups(tail);
  }

  lemma LastColonAt(front: string, last: string)
    requires front != [] && front[|front| - 1] == ':' && ':' !in last
    ensures LastColon(front + last) == Some(|front| - 1)
  {
    var s := front + last;
    assert s[|front| - 1] == ':';
    assert LastColon(s).Some?;
    var i := LastColon(s).value;
    assert i >= |front| - 1;
  }

  lemma QuadReads(quad: seq<string>)
    requires LegalQuad(quad)
    ensures var text := Join(quad, '.');
            && QuadShaped(text) && ParseIpv4(text) == Some(QuadOctets(quad)) && ':' !in text && Lower(text) == text
  {
    forall q | q in quad ensures '.' !in q { assert OctetShaped(q); }
    SplitOfJoin(quad, '.');
    var octets := Octets(quad);
    forall o | o in octets ensures o <= 255 {
      var i :| 0 <= i < 4 && octets[i] == o;
      assert quad[i] in quad;
    }
    JoinedOctets(quad);
    LowerDecimal(Join(quad, '.'));
  }

  predicate IsDecimal(s: string) { forall c :: c in s ==> IsDigit(c) || c == '.' }

  lemma {:induction false} JoinedOctets(quad: seq<string>)
    requires forall q :: q in quad ==> OctetShaped(q)
    ensures IsDecimal(Join(quad, '.'))
  {
    if quad != [] {
      assert OctetShaped(quad[0]) by { assert quad[0] in quad; }
      forall q | q in quad[1..] ensures OctetShaped(q) { assert q in quad; }
      JoinedOctets(quad[1..]);
    }
  }

  /** Digits and dots are what they are in lower case, and come from nothing else. */
  lemma LowerDecimal(s: string)
    requires IsDecimal(s) || IsDecimal(Lower(s))
    ensures Lower(s) == s
  {
    if IsDecimal(s) {
      forall i | 0 <= i < |s| ensures Lower(s)[i] == s[i] { assert s[i] in s; }
    } else {
      forall i | 0 <= i < |s| ensures Lower(s)[i] == s[i] { assert Lower(s)[i] in Lower(s); }
    }
  }

  /** Without a dotted quad, nothing is rewritten. */
  lemma PlainTail(s: string)
    requires HexOrColon(s)
    ensures HexTail(s) == Some(s)
  {
    if LastColon(s).Some? {
      var last := s[LastColon(s).value + 1..];
      assert '.' !in last by { assert forall c :: c in last ==> c in s; }
      SplitWhole(last, '.');
    }
  }

  /** A dotted quad at the end becomes two groups. */
  lemma QuadTail(front: string, quad: seq<string>)
    requires front != [] && front[|front| - 1] == ':' && HexOrColon(front) && LegalQuad(quad)
    ensures var groups := QuadGroups(QuadOctets(quad));
            HexTail(front + Join(quad, '.')) == Some(front + Hex(groups[0]) + ":" + Hex(groups[1]))
  {
    var last := Join(quad, '.');
    QuadReads(quad);
    LastColonAt(front, last);
    var s := front + last;
    assert s[..|front|] == front && s[|front|..] == last;
    assert forall c :: c in front ==> !IsLineEnd(c);
  }

  /** Plain groups, in lower case: `a:b:...` or `a:...::b:...`. */
  function Plain(head: seq<string>, gap: bool, tail: seq<string>): string {
    if gap then Join(head, ':') + "::" + Join(tail, ':') else Join(head, ':')
  }

  lemma PlainReads(head: seq<string>, gap: bool, tail: seq<string>)
    requires AreGroups(head) && AreGroups(tail)
    requires if gap then |head| + |tail| <= 7 else |head| == 8 && tail == []
    ensures ParseGroups(Plain(head, gap, tail))
            == Some(Values(head) + Repeat(0, 8 - |head| - |tail|) + Values(tail))
    ensures HexOrColon(Plain(head, gap, tail))
  {
    JoinedGroups(head);
    JoinedGroups(tail);
    if gap {
      GappedGroupsRead(head, tail);
    } else {
      EightGroupsRead(head);
      assert Values(head) + Repeat(0, 0) + Values([]) == Values(head);
    }
  }

  /** Two more groups at the end of a front. */
  lemma PlainFront(head: seq<string>, gap: bool, tail: seq<string>, a: string, b: string)
    requires !gap ==> tail == []
    ensures (if gap then Plain(head, gap, tail + [a, b]) else Plain(head + [a, b], gap, tail))
            == Front(head, gap, tail) + a + ":" + b
  {
    SpelledFront(Spelling(head, gap, tail, None), [a, b]);
    assert Join([a, b], ':') == a + ":" + b by { assert [a, b][1..] == [b]; }
  }

  lemma HexPair(groups: seq<int>)
    requires |groups| == 2 && 0 <= groups[0] < 65536 && 0 <= groups[1] < 65536
    ensures AreGroups([Hex(groups[0]), Hex(groups[1])]) && Values([Hex(groups[0]), Hex(groups[1])]) == groups
  {
    HexReads(groups[0]);
    HexReads(groups[1]);
  }

  /** Every legal spelling of an address reads as that address. */
  lemma LegalSpellingsRead(sp: Spelling)
    requires Legal(sp)
    ensures ParseIpv6(Spelled(sp)) == Some(Address(sp))
  {
    LegalLower(sp);
    if sp.quad.Some? {
      QuadSpellingsRead(sp);
    } else {
      PlainSpellingsRead(sp);
    }
  }

  lemma PlainSpellingsRead(sp: Spelling)
    requires Legal(sp) && sp.quad.None?
    ensures ParseIpv6(Spelled(sp)) == Some(Address(sp))
  {
    hide AreGroups, HexOrColon, Values, Repeat, Plain, ParseGroups, HexTail, Spelled, LowerAll;
    LegalLower(sp);
    LowerPlainSpelling(sp);
    PlainReads(LowerAll(sp.head), sp.gap, LowerAll(sp.tail));
    PlainTail(Plain(LowerAll(sp.head), sp.gap, LowerAll(sp.tail)));
    PlainAddress(sp);
  }

  lemma PlainAddress(sp: Spelling)
    requires Legal(sp) && sp.quad.None?
    ensures AreGroups(LowerAll(sp.head)) && AreGroups(LowerAll(sp.tail))
    ensures Address(sp) == Values(LowerAll(sp.head)) + Repeat(0, 8 - |LowerAll(sp.head)| - |LowerAll(sp.tail)|)
            + Values(LowerAll(sp.tail))
  {
    LegalLower(sp);
    hide AreGroups, Values, Repeat;
  }

  lemma LowerPlainSpelling(sp: Spelling)
    requires sp.quad.None? && (!sp.gap ==> sp.tail == [])
    ensures Lower(Spelled(sp)) == Plain(LowerAll(sp.head), sp.gap, LowerAll(sp.tail))
  {
    hide Join, LowerAll;
    assert sp.tail + [] == sp.tail && sp.head + [] == sp.head;
    LowerJoin(sp.head);
    LowerJoin(sp.tail);
    LowerAcross(Join(sp.head, ':') + "::", Join(sp.tail, ':'));
    LowerAcross(Join(sp.head, ':'), "::");
    assert Lower("::") == "::";
  }

  lemma QuadSpellingsRead(sp: Spelling)
    requires Legal(sp) && sp.quad.Some?
    ensures ParseIpv6(Spelled(sp)) == Some(Address(sp))
  {
    hide AreGroups, HexOrColon, Values, Repeat, ParseGroups, HexTail, Front, Hex, LowerAll, Spelled;
    LegalLower(sp);
    var head, tail, quad := LowerAll(sp.head), LowerAll(sp.tail), sp.quad.value;
    QuadAddress(sp);
    LowerQuadSpelling(sp);
    FrontIsHexOrColon(head, sp.gap, tail);
    QuadTail(Front(head, sp.gap, tail), quad);
    FrontAndPairRead(head, sp.gap, tail, QuadGroups(QuadOctets(quad)));
  }

  lemma QuadAddress(sp: Spelling)
    requires Legal(sp) && sp.quad.Some?
    ensures AreGroups(LowerAll(sp.head)) && AreGroups(LowerAll(sp.tail))
    ensures Address(sp) == Values(LowerAll(sp.head)) + Repeat(0, 6 - |sp.head| - |sp.tail|) + Values(LowerAll(sp.tail))
                           + QuadGroups(QuadOctets(sp.quad.value))
  {
    LegalLower(sp);
    hide AreGroups, Values, Repeat;
  }

  /** A front followed by two hexadecimal groups. */
  lemma FrontAndPairRead(head: seq<string>, gap: bool, tail: seq<string>, groups: seq<int>)
    requires AreGroups(head) && AreGroups(tail)
    requires if gap then |head| + |tail| <= 5 else |head| == 6 && tail == []
    requires |groups| == 2 && 0 <= groups[0] < 65536 && 0 <= groups[1] < 65536
    ensures ParseGroups(Front(head, gap, tail) + Hex(groups[0]) + ":" + Hex(groups[1]))
            == Some(Values(head) + Repeat(0, 6 - |head| - |tail|) + Values(tail) + groups)
  {
    hide AreGroups, HexOrColon, Values, Repeat, Plain, ParseGroups, Front, Hex;
    var a, b := Hex(groups[0]), Hex(groups[1]);
    PlainFront(head, gap, tail, a, b);
    HexPair(groups);
    if gap {
      ValuesAcross(tail, [a, b]);
      PlainReads(head, true, tail + [a, b]);
      Associates(Values(head), Repeat(0, 6 - |head| - |tail|), Values(tail), groups);
    } else {
      ValuesAcross(head, [a, b]);
      PlainReads(head + [a, b], false, tail);
      NothingBetween(head, groups);
    }
  }

  lemma Associates(a: seq<int>, b: seq<int>, c: seq<int>, d: seq<int>)
    ensures a + b + (c + d) == a + b + c + d
  {
  }

  lemma NothingBetween(head: seq<string>, groups: seq<int>)
    requires AreGroups(head)
    ensures AreGroups([]) && Values(head) + groups + Repeat(0, 0) + Values([])
            == Values(head) + Repeat(0, 0) + Values([]) + groups
  {
  }

  lemma LowerQuadSpelling(sp: Spelling)
    requires Legal(sp) && sp.quad.Some?
    ensures Lower(Spelled(sp)) == Front(LowerAll(sp.head), sp.gap, LowerAll(sp.tail)) + Join(sp.quad.value, '.')
  {
    var last := [Join(sp.quad.value, '.')];
    hide Front, Lower, LowerAll;
    SpelledFront(sp, last);
    LowerFront(sp.head, sp.gap, sp.tail);
    LowerAcross(Front(sp.head, sp.gap, sp.tail), last[0]);
    QuadReads(sp.quad.value);
  }

  // ----- from texts back to spellings -----

  lemma {:induction false} GapLower(s: string)
    ensures Gap(Lower(s)) == Gap(s)
  {
    if |s| >= 2 {
      assert Lower(s)[1..] == Lower(s[1..]);
      GapLower(s[1..]);
    }
  }

  lemma {:induction false} HalvesLower(s: string)
    ensures Halves(Lower(s)) == LowerAll(Halves(s))
    decreases |s|
  {
    GapLower(s);
    var i := Gap(s);
    LowerCons(s, []);
    if i.Some? {
      hide Gap, Lower, LowerAll;
      LowerCut(s, i.value);
      LowerCut(s, i.value + 2);
      HalvesLower(s[i.value + 2..]);
      LowerCons(s[..i.value], Halves(s[i.value + 2..]));
    }
  }

  lemma FieldsLower(half: string)
    ensures Fields(Lower(half)) == LowerAll(Fields(half))
  {
    SplitLower(half, ':');
  }

  lemma JoinOfFields(half: string)
    ensures Join(Fields(half), ':') == half
  {
    JoinOfSplit(half, ':');
  }

  /** A text without a dotted quad that reads is a legal spelling. */
  lemma PlainTextsAreLegal(text: string) returns (sp: Spelling)
    requires ParseGroups(Lower(text)).Some?
    ensures Legal(sp) && sp.quad.None? && Spelled(sp) == text
    ensures sp.gap ==>
              var p := |Join(sp.head, ':')|; p + 1 < |text| && text[p] == ':' && text[p + 1] == ':'
  {
    HalvesLower(text);
    var halves := Halves(text);
    FieldsLower(halves[0]);
    JoinOfFields(halves[0]);
    if |halves| == 2 {
      FieldsLower(halves[1]);
      JoinOfFields(halves[1]);
      sp := Spelling(Fields(halves[0]), true, Fields(halves[1]), None);
      HalvesMakeUp(text);
      assert sp.tail + [] == sp.tail;
    } else {
      sp := Spelling(Fields(halves[0]), false, [], None);
      assert sp.head + [] == sp.head;
    }
    LegalWhenGroups(sp);
  }

  lemma LegalWhenGroups(sp: Spelling)
    requires AreGroups(LowerAll(sp.head)) && AreGroups(LowerAll(sp.tail)) && sp.quad.None?
    requires if sp.gap then Width(sp) <= 7 else Width(sp) == 8 && sp.tail == []
    ensures Legal(sp)
  {
    forall g | g in sp.head + sp.tail ensures IsGroup(Lower(g)) {
      if g in sp.head {
        var i :| 0 <= i < |sp.head| && sp.head[i] == g;
        assert LowerAll(sp.head)[i] in LowerAll(sp.head);
      } else {
        var i :| 0 <= i < |sp.tail| && sp.tail[i] == g;
        assert LowerAll(sp.tail)[i] in LowerAll(sp.tail);
      }
    }
  }

  lemma HalvesMakeUp(s: string)
    requires |Halves(s)| == 2
    ensures s == Halves(s)[0] + "::" + Halves(s)[1]
  {
    var i := Gap(s).value;
    assert s == s[..i] + s[i..i + 2] + s[i + 2..];
    assert s[i..i + 2] == "::";
    assert Gap(s[i + 2..]).None?;
  }

  lemma SplitPair(a: string, b: string)
    requires ':' !in a && ':' !in b
    ensures Split(a + ":" + b, ':') == [a, b]
  {
    SplitWhole(a, ':');
    SplitWhole(b, ':');
    SplitAcross(a, b, ':');
  }

  /** `x` followed by two fields. */
  function Ended(x: string, a: string, b: string): string { x + a + ":" + b }

  /** Parts whose text ends in two more parts, after `r` and a colon. */
  lemma LastTwoParts(parts: seq<string>, r: string, a: string, b: string)
    requires Fields(Join(parts, ':')) == parts && Join(parts, ':') == Ended(r + ":", a, b)
    requires ':' !in a && ':' !in b
    ensures |parts| > 2 && parts == parts[..|parts| - 2] + [a, b]
    ensures Join(parts[..|parts| - 2], ':') == r
  {
    hide Join, Split;
    SplitTriple(r, a, b);
    JoinOfSplit(r, ':');
    DropTwo(parts, Split(r, ':'), [a, b]);
  }

  lemma SplitTriple(r: string, a: string, b: string)
    requires ':' !in a && ':' !in b
    ensures Split(r + ":" + a + ":" + b, ':') == Split(r, ':') + [a, b]
  {
    SplitPair(a, b);
    SplitAcross(r, a + ":" + b, ':');
    hide Split;
    assert r + ":" + (a + ":" + b) == r + ":" + a + ":" + b;
  }

  lemma DropTwo(parts: seq<string>, first: seq<string>, last: seq<string>)
    requires parts == first + last && |last| == 2
    ensures |parts| == |first| + 2 && parts[..|parts| - 2] == first && parts == parts[..|parts| - 2] + last
  {
  }

  /** A plain spelling that ends with two groups after a colon, as one that ends with a dotted quad there. */
  lemma QuadForPair(plain: Spelling, front: string, a: string, b: string, quad: seq<string>) returns (sp: Spelling)
    requires Legal(plain) && plain.quad.None? && Spelled(plain) == Ended(front, a, b)
    requires front != "" && front[|front| - 1] == ':' && ':' !in a && ':' !in b && LegalQuad(quad)
    requires plain.gap ==> |Join(plain.head, ':')| + 2 <= |front|
    ensures Legal(sp) && Spelled(sp) == front + Join(quad, '.')
  {
    hide Join, Ended, LegalQuad, IsGroup, Spelled, Front, Lower, Fields;
    PlainText(plain);
    LegalFields(plain);
    if plain.gap {
      var tail := BeforePair(plain.head, plain.tail, front, a, b);
      sp := Spelling(plain.head, true, tail, Some(quad));
    } else {
      LastColonCut(front);
      LastTwoParts(plain.head, front[..|front| - 1], a, b);
      sp := Spelling(plain.head[..|plain.head| - 2], false, [], Some(quad));
      FrontOfHead(sp.head);
    }
    SpelledWithQuad(sp);
    forall g | g in sp.head + sp.tail ensures IsGroup(Lower(g)) {
      assert g in plain.head + plain.tail;
    }
  }

  lemma LegalFields(sp: Spelling)
    requires Legal(sp)
    ensures Fields(Join(sp.head, ':')) == sp.head && Fields(Join(sp.tail, ':')) == sp.tail
  {
    hide IsGroup, Join, Fields;
    forall g | g in sp.head ensures IsGroup(Lower(g)) { assert g in sp.head + sp.tail; }
    forall g | g in sp.tail ensures IsGroup(Lower(g)) { assert g in sp.head + sp.tail; }
    GroupsWithoutColons(sp.head);
    GroupsWithoutColons(sp.tail);
    FieldsOfJoin(sp.head);
    FieldsOfJoin(sp.tail);
  }

  lemma PlainText(sp: Spelling)
    requires sp.quad.None?
    ensures Spelled(sp) == if sp.gap then Join(sp.head, ':') + "::" + Join(sp.tail, ':') else Join(sp.head, ':')
  {
    assert sp.tail + [] == sp.tail && sp.head + [] == sp.head;
  }

  lemma SpelledWithQuad(sp: Spelling)
    requires sp.quad.Some? && (!sp.gap ==> sp.tail == [])
    ensures Spelled(sp) == Front(sp.head, sp.gap, sp.tail) + Join(sp.quad.value, '.')
  {
    SpelledFront(sp, LastField(sp));
  }

  lemma FrontOfHead(head: seq<string>)
    requires head != []
    ensures Front(head, false, []) == Join(head, ':') + ":"
  {
  }

  /** After a `::`, what comes before the last two fields. */
  lemma BeforePair(head: seq<string>, tail: seq<string>, front: string, a: string, b: string)
      returns (kept: seq<string>)
    requires Fields(Join(tail, ':')) == tail && Join(head, ':') + "::" + Join(tail, ':') == Ended(front, a, b)
    requires |Join(head, ':')| + 2 <= |front| && front[|front| - 1] == ':'
    requires ':' !in a && ':' !in b
    ensures tail == kept + [a, b] && Front(head, true, kept) == front
  {
    hide Join, Ended, Fields;
    var before := Join(head, ':') + "::";
    CutBefore(before, Join(tail, ':'), front, a, b);
    PairOrMore(tail, front[|before|..], a, b);
    kept := tail[..|tail| - 2];
    assert before + "" == before;
    assert Front(head, true, kept) == before + front[|before|..];
  }

  lemma CutBefore(before: string, y: string, front: string, a: string, b: string)
    requires before + y == Ended(front, a, b) && |before| <= |front|
    ensures front == before + front[|before|..] && y == Ended(front[|before|..], a, b)
  {
    var whole := before + y;
    assert whole[..|front|] == front && whole[..|before|] == before;
    assert front[..|before|] == before;
    assert whole[|before|..] == y;
    assert whole[|before|..] == Ended(front[|before|..], a, b);
  }

  lemma OnlyTwoParts(parts: seq<string>, a: string, b: string)
    requires Fields(Join(parts, ':')) == parts && Join(parts, ':') == Ended("", a, b)
    requires ':' !in a && ':' !in b
    ensures parts == [a, b]
  {
    hide Join, Split;
    SplitPair(a, b);
    assert Ended("", a, b) == a + ":" + b;
  }

  lemma LastColonCut(s: string)
    requires s != "" && s[|s| - 1] == ':'
    ensures s == s[..|s| - 1] + ":"
  {
  }

  lemma PairOrMore(parts: seq<string>, rest: string, a: string, b: string)
    requires Fields(Join(parts, ':')) == parts && Join(parts, ':') == Ended(rest, a, b)
    requires rest == "" || rest[|rest| - 1] == ':'
    requires ':' !in a && ':' !in b
    ensures |parts| >= 2 && parts == parts[..|parts| - 2] + [a, b]
    ensures rest == if |parts| == 2 then "" else Join(parts[..|parts| - 2], ':') + ":"
  {
    hide Join, Split, Ended;
    if rest == "" {
      OnlyTwoParts(parts, a, b);
    } else {
      var r := rest[..|rest| - 1];
      LastColonCut(rest);
      LastTwoParts(parts, r, a, b);
    }
  }

  lemma GroupsWithoutColons(groups: seq<string>)
    requires forall g :: g in groups ==> IsGroup(Lower(g))
    ensures forall g :: g in groups ==> ':' !in g && g != ""
  {
    forall g | g in groups ensures ':' !in g && g != "" {
      forall i | 0 <= i < |g| ensures g[i] != ':' {
        assert Lower(g)[i] in Lower(g);
      }
    }
  }

  lemma FieldsOfJoin(parts: seq<string>)
    requires forall g :: g in parts ==> ':' !in g && g != ""
    ensures Fields(Join(parts, ':')) == parts
  {
    if parts != [] {
      assert parts[0] in parts;
      SplitOfJoin(parts, ':');
    }
  }

  /** A text that reads, and ends with a dotted quad, is a legal spelling. */
  lemma QuadTextsAreLegal(text: string, colon: nat) returns (sp: Spelling)
    requires LastColon(Lower(text)) == Some(colon) && QuadShaped(Lower(text)[colon + 1..])
    requires !(exists c :: c in Lower(text)[..colon + 1] && IsLineEnd(c))
    requires ParseIpv6(text).Some?
    ensures Legal(sp) && Spelled(sp) == text
  {
    hide Join, Split, Gap, Halves, Number, HexNumber, ParseGroups, HexTail, Hex, LegalQuad, Legal, Spelled, IsGroup;
    var front, last := text[..colon + 1], text[colon + 1..];
    LowerCut(text, colon + 1);
    QuadTextSource(text, colon);
    var quad := QuadOf(last);
    QuadReads(quad);
    var groups := QuadGroups(QuadOctets(quad));
    var a, b := Hex(groups[0]), Hex(groups[1]);
    HexPairIsLower(groups);
    LowerPair(front, a, b);
    var plain := PlainTextsAreLegal(front + a + ":" + b);
    GapBefore(plain, front, a, b);
    assert Ended(front, a, b) == front + a + ":" + b;
    sp := QuadForPair(plain, front, a, b, quad);
    assert text == front + last;
  }

  lemma LowerPair(front: string, a: string, b: string)
    requires Lower(a + ":" + b) == a + ":" + b
    ensures Lower(front + a + ":" + b) == Lower(front) + a + ":" + b
  {
    LowerAcross(front, a + ":" + b);
    assert front + (a + ":" + b) == front + a + ":" + b;
    assert Lower(front) + (a + ":" + b) == Lower(front) + a + ":" + b;
  }

  /** What the groups of a text ending with a dotted quad are read from. */
  lemma QuadTextSource(text: string, colon: nat)
    requires LastColon(Lower(text)) == Some(colon) && QuadShaped(Lower(text)[colon + 1..])
    requires !(exists c :: c in Lower(text)[..colon + 1] && IsLineEnd(c))
    requires ParseIpv6(text).Some?
    ensures colon < |text| && text[colon] == ':'
    ensures var v4 := ParseIpv4(Lower(text)[colon + 1..]);
            && v4.Some?
            && var groups := QuadGroups(v4.value);
               ParseGroups(Lower(text)[..colon + 1] + Hex(groups[0]) + ":" + Hex(groups[1])).Some?
  {
    hide Gap, Halves, ParseGroups, Hex, ParseIpv4, QuadShaped;
    assert Lower(text)[colon] == LowerChar(text[colon]);
  }

  lemma GapBefore(plain: Spelling, front: string, a: string, b: string)
    requires plain.gap ==> var p, s := |Join(plain.head, ':')|, front + a + ":" + b;
                           p + 1 < |s| && s[p] == ':' && s[p + 1] == ':'
    requires a != "" && b != "" && ':' !in a && ':' !in b
    ensures plain.gap ==> |Join(plain.head, ':')| + 2 <= |front|
  {
    if plain.gap {
      var p, s := |Join(plain.head, ':')|, front + a + ":" + b;
      assert forall i :: 0 <= i < |a| ==> s[|front| + i] == a[i];
      assert forall i :: 0 <= i < |b| ==> s[|front| + |a| + 1 + i] == b[i];
    }
  }

  lemma HexPairIsLower(groups: seq<int>)
    requires |groups| == 2 && 0 <= groups[0] < 65536 && 0 <= groups[1] < 65536
    ensures var a, b := Hex(groups[0]), Hex(groups[1]);
            IsGroup(a) && IsGroup(b) && ':' !in a && ':' !in b && Lower(a + ":" + b) == a + ":" + b
  {
    HexReads(groups[0]);
    HexReads(groups[1]);
    var s := Hex(groups[0]) + ":" + Hex(groups[1]);
    forall i | 0 <= i < |s| ensures LowerChar(s[i]) == s[i] {
      assert s[i] in Hex(groups[0]) || s[i] == ':' || s[i] in Hex(groups[1]);
    }
  }

  /** The numbers of a text that reads as a dotted quad in lower case. */
  lemma QuadOf(last: string) returns (quad: seq<string>)
    requires ParseIpv4(Lower(last)).Some?
    ensures LegalQuad(quad) && Join(quad, '.') == last && Lower(last) == last
  {
    quad := Split(Lower(last), '.');
    JoinOfSplit(Lower(last), '.');
    JoinedOctets(quad);
    LowerDecimal(last);
    forall q | q in quad ensures OctetShaped(q) && Number(q) <= 255 {
      var i :| 0 <= i < |quad| && quad[i] == q;
      assert Octets(quad)[i] in Octets(quad);
    }
  }

  /** The texts that read as an IPv6 address are the legal spellings, each read as the address it stands for. */
  lemma ReadsExactlyTheLegalSpellings(text: string, groups: seq<int>)
    ensures ParseIpv6(text) == Some(groups) <==> exists sp :: Legal(sp) && Spelled(sp) == text && Address(sp) == groups
  {
    if ParseIpv6(text) == Some(groups) {
      var sp := SpellingOf(text);
      LegalSpellingsRead(sp);
    }
    if sp :| Legal(sp) && Spelled(sp) == text && Address(sp) == groups {
      LegalSpellingsRead(sp);
    }
  }

  lemma SpellingOf(text: string) returns (sp: Spelling)
    requires ParseIpv6(text).Some?
    ensures Legal(sp) && Spelled(sp) == text
  {
    hide LastColon, QuadShaped, Legal, Spelled;
    var lower := Lower(text);
    var colon := LastColon(lower);
    if colon.Some? && QuadShaped(lower[colon.value + 1..])
        && !(exists c :: c in lower[..colon.value + 1] && IsLineEnd(c)) {
      sp := QuadTextsAreLegal(text, colon.value);
    } else {
      sp := PlainTextsAreLegal(text);
    }
  }

  // ----- the network charged -----

  function Decimal(n: int): (text: string)
    requires 0 <= n
  {
    if n < 10 then ['0' + n as char] else Decimal(n / 10) + ['0' + (n % 10) as char]
  }

  /** Four hexadecimal digits. */
  function Pad4(n: int): string
    requires 0 <= n < 65536
  {
    HexReads(n);
    Repeat('0', 4 - |Hex(n)|) + Hex(n)
  }

  predicate IsAddress(groups: seq<int>) { |groups| == 8 && forall g :: g in groups ==> 0 <= g < 65536 }

  lemma {:induction false} HexInRange(digits: string)
    requires forall c :: c in digits ==> IsHexDigit(c)
    ensures |digits| <= 1 ==> HexNumber(digits) < 16
    ensures |digits| <= 2 ==> HexNumber(digits) < 256
    ensures |digits| <= 3 ==> HexNumber(digits) < 4096
    ensures |digits| <= 4 ==> HexNumber(digits) < 65536
  {
    if digits != [] {
      var last := |digits| - 1;
      assert IsHexDigit(digits[last]) by { assert digits[last] in digits; }
      forall c | c in digits[..last] ensures IsHexDigit(c) { assert c in digits; }
      HexInRange(digits[..last]);
    }
  }

  lemma ReadsAddresses(text: string)
    requires ParseIpv6(text).Some?
    ensures IsAddress(ParseIpv6(text).value)
  {
    ParsedGroupsInRange(HexTail(Lower(text)).value);
  }

  lemma ParsedGroupsInRange(source: string)
    requires ParseGroups(source).Some?
    ensures IsAddress(ParseGroups(source).value)
  {
    var halves := Halves(source);
    var head, tail := Fields(halves[0]), if |halves| == 2 then Fields(halves[1]) else [];
    var groups := head + Repeat("0", if |halves| == 2 then 8 - |head| - |tail| else 0) + tail;
    assert ParseGroups(source).value == Values(groups);
    forall v | v in Values(groups) ensures 0 <= v < 65536 {
      var i :| 0 <= i < |groups| && Values(groups)[i] == v;
      assert IsGroup(groups[i]) by { assert groups[i] in groups; }
      HexInRange(groups[i]);
    }
  }

  predicate IsMapped(groups: seq<int>)
    requires |groups| == 8
  {
    groups[0] == 0 && groups[1] == 0 && groups[2] == 0 && groups[3] == 0 && groups[4] == 0 && groups[5] == 0xffff
  }

  function IpPrefix(ip: Option<string>): string {
    if ip.None? then "unknown"
    else
      var v4 := ParseIpv4(ip.value);
      if v4.Some? then
        var o := v4.value;
        assert o[0] in o && o[1] in o && o[2] in o;
        Decimal(o[0]) + "." + Decimal(o[1]) + "." + Decimal(o[2]) + ".0/24"
      else
        var v6 := ParseIpv6(ip.value);
        if v6.None? then "unknown"
        else
          ReadsAddresses(ip.value);
          var g := v6.value;
          assert g[0] in g && g[1] in g && g[2] in g && g[6] in g && g[7] in g;
          if IsMapped(g) then Decimal(g[6] / 256) + "." + Decimal(g[6] % 256) + "." + Decimal(g[7] / 256) + ".0/24"
          else Pad4(g[0]) + ":" + Pad4(g[1]) + ":" + Pad4(g[2]) + "::/48"
  }

  /** A client's network: an IPv4 /24, an IPv6 /48, or none. */
  datatype Network = NoNetwork | V4(a: int, b: int, c: int) | V6(a: int, b: int, c: int)

  function NetworkOf(ip: Option<string>): Network {
    if ip.None? then NoNetwork
    else if ParseIpv4(ip.value).Some? then var o := ParseIpv4(ip.value).value; V4(o[0], o[1], o[2])
    else if ParseIpv6(ip.value).Some? then ReadsAddresses(ip.value); NetworkOfAddress(ParseIpv6(ip.value).value)
    else NoNetwork
  }

  function NetworkOfAddress(g: seq<int>): Network
    requires IsAddress(g)
  {
    if IsMapped(g) then V4(g[6] / 256, g[6] % 256, g[7] / 256) else V6(g[0], g[1], g[2])
  }

  lemma {:induction false} DecimalReads(n: int)
    requires 0 <= n
    ensures (forall c :: c in Decimal(n) ==> IsDigit(c)) && Number(Decimal(n)) == n
  {
    if n < 10 {
      assert Number(Decimal(n)[..0]) == 0;
    } else {
      DecimalReads(n / 10);
      assert Decimal(n)[..|Decimal(n)| - 1] == Decimal(n / 10);
    }
  }

  lemma {:induction false} LeadingZeros(k: nat, digits: string)
    requires forall c :: c in digits ==> IsHexDigit(c)
    ensures (forall c :: c in Repeat('0', k) + digits ==> IsHexDigit(c))
            && HexNumber(Repeat('0', k) + digits) == HexNumber(digits)
    decreases |digits|
  {
    var padded := Repeat('0', k) + digits;
    if digits == [] {
      OnlyZeros(k);
      assert padded == Repeat('0', k);
    } else {
      var last := |digits| - 1;
      forall c | c in digits[..last] ensures IsHexDigit(c) { assert c in digits; }
      LeadingZeros(k, digits[..last]);
      assert padded[..|padded| - 1] == Repeat('0', k) + digits[..last];
    }
  }

  lemma {:induction false} OnlyZeros(k: nat)
    ensures (forall c :: c in Repeat('0', k) ==> IsHexDigit(c)) && HexNumber(Repeat('0', k)) == 0
  {
    if k > 0 {
      OnlyZeros(k - 1);
      assert Repeat('0', k)[..k - 1] == Repeat('0', k - 1);
    }
  }

  lemma Pad4Reads(n: int)
    requires 0 <= n < 65536
    ensures (forall c :: c in Pad4(n) ==> IsHexDigit(c)) && HexNumber(Pad4(n)) == n && |Pad4(n)| == 4
  {
    HexReads(n);
    LeadingZeros(4 - |Hex(n)|, Hex(n));
  }

  predicate InRange(n: Network) {
    match n
    case NoNetwork => true
    case V4(a, b, c) => 0 <= a && 0 <= b && 0 <= c
    case V6(a, b, c) => 0 <= a < 65536 && 0 <= b < 65536 && 0 <= c < 65536
  }

  function Name(n: Network): string
    requires InRange(n)
  {
    match n
    case NoNetwork => "unknown"
    case V4(a, b, c) => Decimal(a) + "." + Decimal(b) + "." + Decimal(c) + ".0/24"
    case V6(a, b, c) => Pad4(a) + ":" + Pad4(b) + ":" + Pad4(c) + "::/48"
  }

  lemma V4NameParts(a: int, b: int, c: int)
    requires InRange(V4(a, b, c))
    ensures Split(Name(V4(a, b, c)), '.') == [Decimal(a), Decimal(b), Decimal(c), "0/24"]
  {
    var parts := [Decimal(a), Decimal(b), Decimal(c), "0/24"];
    DecimalReads(a);
    DecimalReads(b);
    DecimalReads(c);
    hide Decimal, Number, Split;
    SplitOfJoin(parts, '.');
    JoinFour(parts[0], parts[1], parts[2], parts[3], '.');
    assert Name(V4(a, b, c)) == Join(parts, '.');
  }

  lemma JoinFour(a: string, b: string, c: string, d: string, sep: char)
    ensures Join([a, b, c, d], sep) == a + [sep] + b + [sep] + c + [sep] + d
  {
    JoinThree(b, c, d, sep);
    assert [a, b, c, d][1..] == [b, c, d];
    assert a + [sep] + (b + [sep] + c + [sep] + d) == a + [sep] + b + [sep] + c + [sep] + d;
  }

  lemma V6NameParts(a: int, b: int, c: int)
    requires InRange(V6(a, b, c))
    ensures Split(Name(V6(a, b, c)), ':') == [Pad4(a), Pad4(b), Pad4(c), "", "/48"]
  {
    var parts := [Pad4(a), Pad4(b), Pad4(c), "", "/48"];
    Pad4Reads(a);
    Pad4Reads(b);
    Pad4Reads(c);
    hide Pad4, HexNumber, Split;
    SplitOfJoin(parts, ':');
    JoinFour(parts[0], parts[1], parts[2], Join(["", "/48"], ':'), ':');
    JoinAcross([parts[0], parts[1], parts[2]], ["", "/48"], ':');
    assert [parts[0], parts[1], parts[2]] + ["", "/48"] == parts;
    JoinThree(parts[0], parts[1], parts[2], ':');
    assert ["", "/48"][1..] == ["/48"];
    assert Name(V6(a, b, c)) == Join(parts, ':');
  }

  lemma JoinThree(a: string, b: string, c: string, sep: char)
    ensures Join([a, b, c], sep) == a + [sep] + b + [sep] + c
  {
    assert [a, b, c][1..] == [b, c] && [b, c][1..] == [c];
    assert Join([c], sep) == c;
    assert Join([b, c], sep) == b + [sep] + c;
    assert a + [sep] + (b + [sep] + c) == a + [sep] + b + [sep] + c;
  }

  /** What names look like. */
  lemma NamesLookLikeThis()
    ensures Name(NoNetwork) == "unknown"
    ensures Name(V4(203, 0, 113)) == "203.0.113.0/24"
    ensures Name(V6(0x2001, 0xdb8, 0xa)) == "2001:0db8:000a::/48"
  {
    hide Decimal, Pad4;
    DecimalLooksLikeThis();
    PadLooksLikeThis();
  }

  lemma DecimalLooksLikeThis()
    ensures Decimal(203) == "203" && Decimal(0) == "0" && Decimal(113) == "113"
  {
    assert Decimal(2) == "2" && Decimal(20) == "20";
    assert Decimal(1) == "1" && Decimal(11) == "11";
  }

  lemma HexLooksLikeThis()
    ensures Hex(0x2001) == "2001" && Hex(0xdb8) == "db8" && Hex(0xa) == "a"
  {
    assert Hex(0x2) == "2" && Hex(0x20) == "20" && Hex(0x200) == "200";
    assert Hex(0xd) == "d" && Hex(0xdb) == "db";
  }

  lemma PadLooksLikeThis()
    ensures Pad4(0x2001) == "2001" && Pad4(0xdb8) == "0db8" && Pad4(0xa) == "000a"
  {
    HexLooksLikeThis();
    assert Repeat('0', 0) == "" && Repeat('0', 1) == "0" && Repeat('0', 3) == "000";
    hide Hex;
  }

  /** Different networks have different names. */
  lemma NamesAreDistinct(m: Network, n: Network)
    requires InRange(m) && InRange(n) && Name(m) == Name(n)
    ensures m == n
  {
    hide Decimal, Pad4, Split, Number, HexNumber;
    var text := Name(m);
    assert m.V4? ==> text[|text| - 1] == '4';
    assert m.V6? ==> text[|text| - 1] == '8';
    assert m.NoNetwork? ==> text[|text| - 1] == 'n';
    if m.V4? && n.V4? {
      V4NameParts(m.a, m.b, m.c);
      V4NameParts(n.a, n.b, n.c);
      DecimalReads(m.a); DecimalReads(m.b); DecimalReads(m.c);
      DecimalReads(n.a); DecimalReads(n.b); DecimalReads(n.c);
    } else if m.V6? && n.V6? {
      V6NameParts(m.a, m.b, m.c);
      V6NameParts(n.a, n.b, n.c);
      Pad4Reads(m.a); Pad4Reads(m.b); Pad4Reads(m.c);
      Pad4Reads(n.a); Pad4Reads(n.b); Pad4Reads(n.c);
    }
  }

  lemma NamedAfterItsNetwork(ip: Option<string>)
    ensures InRange(NetworkOf(ip)) && IpPrefix(ip) == Name(NetworkOf(ip))
  {
    hide ParseIpv4, ParseIpv6, Decimal, Pad4;
    if ip.Some? && ParseIpv4(ip.value).Some? {
      var o := ParseIpv4(ip.value).value;
      assert o[0] in o && o[1] in o && o[2] in o;
    } else if ip.Some? && ParseIpv6(ip.value).Some? {
      ReadsAddresses(ip.value);
      var g := ParseIpv6(ip.value).value;
      assert g[0] in g && g[1] in g && g[2] in g && g[6] in g && g[7] in g;
    }
  }

  /** Two clients are charged to the same name exactly when they are in the same network. */
  lemma ChargedTogetherIffSameNetwork(x: Option<string>, y: Option<string>)
    ensures IpPrefix(x) == IpPrefix(y) <==> NetworkOf(x) == NetworkOf(y)
  {
    NamedAfterItsNetwork(x);
    NamedAfterItsNetwork(y);
    if IpPrefix(x) == IpPrefix(y) {
      NamesAreDistinct(NetworkOf(x), NetworkOf(y));
    }
  }

  lemma ColonsAreNotIpv4(text: string)
    requires ':' in text
    ensures ParseIpv4(text).None?
  {
    if QuadShaped(text) {
      JoinOfSplit(text, '.');
      JoinedOctets(Split(text, '.'));
    }
  }

  lemma SpellingsHaveColons(sp: Spelling)
    requires Legal(sp)
    ensures ':' in Spelled(sp)
  {
    if sp.gap {
      assert Spelled(sp)[|Join(sp.head, ':')|] == ':';
    } else {
      var parts := sp.head + LastField(sp);
      assert Join(parts, ':')[|parts[0]|] == ':';
    }
  }

  /** However an IPv6 address is spelled, it is charged to that address's network. */
  lemma ChargedByAddress(sp: Spelling)
    requires Legal(sp)
    ensures IsAddress(Address(sp)) && NetworkOf(Some(Spelled(sp))) == NetworkOfAddress(Address(sp))
  {
    hide ParseIpv6, ParseIpv4, Legal, Spelled, Address;
    SpellingsHaveColons(sp);
    ColonsAreNotIpv4(Spelled(sp));
    LegalSpellingsRead(sp);
    ReadsAddresses(Spelled(sp));
  }

  /** An IPv4 address is charged to its /24, in its dotted form and in every IPv4-mapped spelling. */
  lemma MappedLikeDotted(quad: seq<string>, sp: Spelling)
    requires LegalQuad(quad) && Legal(sp)
    requires Address(sp) == [0, 0, 0, 0, 0, 0xffff] + QuadGroups(QuadOctets(quad))
    ensures var o := QuadOctets(quad);
            && NetworkOf(Some(Join(quad, '.'))) == V4(o[0], o[1], o[2])
            && NetworkOf(Some(Spelled(sp))) == V4(o[0], o[1], o[2])
  {
    hide Legal, Spelled, Address, ParseIpv6, ParseIpv4, LegalQuad, Join;
    QuadReads(quad);
    ChargedByAddress(sp);
    var o := QuadOctets(quad);
    assert o[0] in o && o[1] in o && o[2] in o && o[3] in o;
  }
}
