/** Text as the edge reads it: digits, lower case, splitting and joining. */
module Text {

  predicate IsDigit(c: char) { '0' <= c <= '9' }

  function DigitValue(c: char): int { c as int - '0' as int }

  /** Lower case, as far as it makes ASCII letters: `A` to `Z`, and the Kelvin sign. */
  function LowerChar(c: char): char {
    if 'A' <= c <= 'Z' then 'a' + (c - 'A') else if c == '\U{212A}' then 'k' else c
  }

  function Lower(text: string): string {
    seq(|text|, i requires 0 <= i < |text| => LowerChar(text[i]))
  }

  function LowerAll(parts: seq<string>): (r: seq<string>)
    ensures |r| == |parts|
  {
    seq(|parts|, i requires 0 <= i < |parts| => Lower(parts[i]))
  }

  /** One more character at the front of the first part. */
  function Prepend(c: char, parts: seq<string>): (r: seq<string>)
    requires parts != []
    ensures r != []
  {
    [[c] + parts[0]] + parts[1..]
  }

  function Split(s: string, sep: char): (parts: seq<string>)
    ensures parts != []
  {
    if s == [] then [[]]
    else if s[0] == sep then [[]] + Split(s[1..], sep)
    else Prepend(s[0], Split(s[1..], sep))
  }

  function Join(parts: seq<string>, sep: char): string {
    if parts == [] then []
    else if |parts| == 1 then parts[0]
    else parts[0] + [sep] + Join(parts[1..], sep)
  }

  lemma {:induction false} SplitWhole(s: string, sep: char)
    requires sep !in s
    ensures Split(s, sep) == [s]
  {
    if s != [] {
      SplitWhole(s[1..], sep);
      assert [s[0]] + s[1..] == s;
    }
  }

  lemma {:induction false} SplitAcross(x: string, y: string, sep: char)
    ensures Split(x + [sep] + y, sep) == Split(x, sep) + Split(y, sep)
  {
    var s := x + [sep] + y;
    if x == [] {
      assert s[1..] == y;
    } else {
      hide Prepend;
      SplitAcross(x[1..], y, sep);
      assert s[1..] == x[1..] + [sep] + y && s[0] == x[0];
      PrependAcross(x[0], Split(x[1..], sep), Split(y, sep));
      EmptyAcross(Split(x[1..], sep), Split(y, sep));
    }
  }

  lemma EmptyAcross(a: seq<string>, b: seq<string>)
    ensures [[]] + (a + b) == ([[]] + a) + b
  {
  }

  lemma PrependAcross(c: char, a: seq<string>, b: seq<string>)
    requires a != []
    ensures Prepend(c, a + b) == Prepend(c, a) + b
  {
    assert (a + b)[1..] == a[1..] + b;
  }

  lemma {:induction false} JoinAcross(a: seq<string>, b: seq<string>, sep: char)
    requires a != [] && b != []
    ensures Join(a + b, sep) == Join(a, sep) + [sep] + Join(b, sep)
  {
    if |a| == 1 {
      assert (a + b)[1..] == b;
    } else {
      JoinAcross(a[1..], b, sep);
      assert (a + b)[1..] == a[1..] + b;
    }
  }

  /** Splitting undoes joining. */
  lemma {:induction false} SplitOfJoin(parts: seq<string>, sep: char)
    requires parts != [] && forall p :: p in parts ==> sep !in p
    ensures Split(Join(parts, sep), sep) == parts
  {
    SplitWhole(parts[0], sep);
    if |parts| > 1 {
      SplitOfJoin(parts[1..], sep);
      SplitAcross(parts[0], Join(parts[1..], sep), sep);
    }
  }

  /** Joining undoes splitting. */
  lemma {:induction false} JoinOfSplit(s: string, sep: char)
    ensures Join(Split(s, sep), sep) == s
    ensures forall p :: p in Split(s, sep) ==> sep !in p
  {
    if s != [] {
      JoinOfSplit(s[1..], sep);
      var rest := Split(s[1..], sep);
      if s[0] == sep {
        assert ([[]] + rest)[1..] == rest;
      } else {
        JoinPrepended(s[0], rest, sep);
        forall p | p in Prepend(s[0], rest) ensures sep !in p {
          if p != [s[0]] + rest[0] { assert p in rest; }
        }
      }
    }
  }

  lemma JoinPrepended(c: char, parts: seq<string>, sep: char)
    requires parts != []
    ensures Join(Prepend(c, parts), sep) == [c] + Join(parts, sep)
  {
    assert Prepend(c, parts)[1..] == parts[1..];
  }

  /** Where lower case leaves the separator alone, it can be taken before or after splitting. */
  lemma {:induction false} SplitLower(s: string, sep: char)
    requires LowerChar(sep) == sep && !('a' <= sep <= 'z')
    ensures Split(Lower(s), sep) == LowerAll(Split(s, sep))
  {
    if s != [] {
      SplitLower(s[1..], sep);
      assert Lower(s)[1..] == Lower(s[1..]);
      assert LowerAll([[]] + Split(s[1..], sep)) == [Lower([])] + LowerAll(Split(s[1..], sep));
      LowerPrepended(s[0], Split(s[1..], sep));
    }
  }

  lemma LowerPrepended(c: char, parts: seq<string>)
    requires parts != []
    ensures LowerAll(Prepend(c, parts)) == Prepend(LowerChar(c), LowerAll(parts))
  {
    assert Lower([c] + parts[0]) == [LowerChar(c)] + Lower(parts[0]);
  }

  lemma LowerCut(text: string, i: nat)
    requires i <= |text|
    ensures |Lower(text)| == |text| && Lower(text)[..i] == Lower(text[..i]) && Lower(text)[i..] == Lower(text[i..])
  {
  }

  lemma LowerCons(part: string, parts: seq<string>)
    ensures LowerAll([part] + parts) == [Lower(part)] + LowerAll(parts) && LowerAll([part]) == [Lower(part)]
  {
  }

  lemma LowerAcross(x: string, y: string)
    ensures Lower(x + y) == Lower(x) + Lower(y)
  {
  }
}
