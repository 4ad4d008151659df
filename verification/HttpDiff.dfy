/** The pairwise comparison of two JSON answers (scripts/equivalence/httpdiff.py:373-500): both are
    stripped against each other of the keys a pair may differ in, and the rest is compared exactly.

    A parsed JSON value is a tree; an object is a map, as the comparison gives its keys no order of
    their own. Notes and mismatches are appended to logs.
 */
module HttpDiff {
  import opened Budget

  datatype Number = Finite(value: real) | NaN | Infinite(negative: bool)

  datatype Json =
    | Null
    | Bool(on: bool)
    | Int(i: int)
    | Float(number: Number)
    | Str(text: string)
    | List(items: seq<Json>)
    | Dict(entries: map<string, Json>)

  datatype Step = Key(key: string) | Index(index: nat)
  type Path = seq<Step>

  /** A whitelisted value that differed. */
  datatype Note = Note(rule: string, path: Path, left: Json, right: Json)

  datatype Mismatch =
    | KeysDiffer(path: Path, keys: set<string>)
    | LengthsDiffer(path: Path, left: nat, right: nat)
    | ValuesDiffer(path: Path, a: Json, b: Json)

  class Log<T> {
    var entries: seq<T>

    constructor ()
      ensures entries == []
    {
      entries := [];
    }

    method Append(x: T)
      modifies this
      ensures entries == old(entries) + [x]
    {
      entries := entries + [x];
    }
  }

  // ----- the whitelist -----

  datatype Rule = Rule(id: string, key: string, pairs: set<string>)

  const WHITELIST: seq<Rule> := [
    Rule("data_version", "data_version", {"a_b", "b_c"}),
    Rule("analysis_key", "analysis_key", {"a_b", "b_c"})
  ]

  const ABSENT: Json := Str("<absent>")

  /** The keys these rules let a pair differ in, each with its last rule. */
  function KeysOf(rules: seq<Rule>, pair: string): map<string, string> {
    if rules == [] then map[]
    else
      var rest, last := KeysOf(rules[..|rules| - 1], pair), rules[|rules| - 1];
      if pair in last.pairs then rest[last.key := last.id] else rest
  }

  // ----- equality -----

  predicate IsNumber(j: Json) { j.Bool? || j.Int? || j.Float? }

  function NumberOf(j: Json): Number
    requires IsNumber(j)
  {
    match j
    case Bool(on) => Finite(if on then 1.0 else 0.0)
    case Int(i) => Finite(i as real)
    case Float(n) => n
  }

  /** Python's `==`: numbers of different types compare by value and NaN equals nothing, but a container
      takes an element to equal itself, and every parsed NaN is the same object. */
  predicate PyEqual(a: Json, b: Json) {
    if IsNumber(a) && IsNumber(b) then NumberOf(a) == NumberOf(b) && !NumberOf(a).NaN?
    else if a.List? && b.List? then
      |a.items| == |b.items|
      && forall i :: 0 <= i < |a.items| ==> (IsNaN(a.items[i]) && IsNaN(b.items[i])) || PyEqual(a.items[i], b.items[i])
    else if a.Dict? && b.Dict? then
      a.entries.Keys == b.entries.Keys
      && forall k :: k in a.entries ==>
           (IsNaN(a.entries[k]) && IsNaN(b.entries[k])) || PyEqual(a.entries[k], b.entries[k])
    else a == b
  }

  predicate IsNaN(j: Json) { j == Float(NaN) }

  predicate NaNFree(j: Json) {
    match j
    case List(l) => forall i :: 0 <= i < |l| ==> NaNFree(l[i])
    case Dict(m) => forall k :: k in m ==> NaNFree(m[k])
    case _ => !IsNaN(j)
  }

  // ----- stripping -----

  /** `a` as stripped against `b`: whitelisted keys leave wherever both sides have an object; what only one
      side has is kept as it is. */
  function Stripped(a: Json, b: Json, keys: set<string>): Json {
    if a.Dict? && b.Dict? then
      Dict(map k | k in a.entries && k !in keys ::
             if k in b.entries then Stripped(a.entries[k], b.entries[k], keys) else a.entries[k])
    else if a.List? && b.List? then
      List(seq(|a.items|, i requires 0 <= i < |a.items| =>
             if i < |b.items| then Stripped(a.items[i], b.items[i], keys) else a.items[i]))
    else a
  }

  /** One tree without the keys, at every depth. */
  function Erase(j: Json, keys: set<string>): Json {
    match j
    case Dict(m) => Dict(map k | k in m && k !in keys :: Erase(m[k], keys))
    case List(l) => List(seq(|l|, i requires 0 <= i < |l| => Erase(l[i], keys)))
    case _ => j
  }

  function ValueOr(m: map<string, Json>, k: string): Json {
    if k in m then m[k] else ABSENT
  }

  /** The notes stripping makes below `path`. */
  predicate Noted(a: Json, b: Json, keys: map<string, string>, path: Path, n: Note) {
    if a.Dict? && b.Dict? then
      exists k :: k in a.entries.Keys + b.entries.Keys
        && if k in keys then NotedHere(a.entries, b.entries, keys, path, k, n)
           else k in a.entries && k in b.entries && Noted(a.entries[k], b.entries[k], keys, path + [Key(k)], n)
    else if a.List? && b.List? then
      exists i :: 0 <= i < |a.items| && i < |b.items| && Noted(a.items[i], b.items[i], keys, path + [Index(i)], n)
    else false
  }

  /** The two sides differ in whitelisted key `k`; a side without it counts as holding `"<absent>"`. */
  predicate NotedHere(a: map<string, Json>, b: map<string, Json>, keys: map<string, string>, path: Path, k: string,
                      n: Note) {
    && k in keys && k in a.Keys + b.Keys
    && !PyEqual(ValueOr(a, k), ValueOr(b, k))
    && n == Note(keys[k], path + [Key(k)], ValueOr(a, k), ValueOr(b, k))
  }

  // ----- exact comparison -----

  /** What the exact comparison says at one position, apart from what lies below it. */
  function Local(a: Json, b: Json, path: Path): Option<Mismatch> {
    if a.Dict? && b.Dict? then
      var ka, kb := a.entries.Keys, b.entries.Keys;
      if ka != kb then Some(KeysDiffer(path, (ka - kb) + (kb - ka))) else None
    else if a.List? && b.List? then
      if |a.items| != |b.items| then Some(LengthsDiffer(path, |a.items|, |b.items|)) else None
    else if a == b && !IsNaN(a) then None
    else Some(ValuesDiffer(path, a, b))
  }

  predicate Reported(a: Json, b: Json, path: Path, m: Mismatch) {
    || Local(a, b, path) == Some(m)
    || (a.Dict? && b.Dict?
        && exists k :: k in a.entries && k in b.entries && Reported(a.entries[k], b.entries[k], path + [Key(k)], m))
    || (a.List? && b.List?
        && exists i :: 0 <= i < |a.items| && i < |b.items| && Reported(a.items[i], b.items[i], path + [Index(i)], m))
  }

  /** The exact comparison says nothing. */
  predicate Same(a: Json, b: Json) {
    if a.Dict? && b.Dict? then
      a.entries.Keys == b.entries.Keys && forall k :: k in a.entries ==> Same(a.entries[k], b.entries[k])
    else if a.List? && b.List? then
      |a.items| == |b.items| && forall i :: 0 <= i < |a.items| ==> Same(a.items[i], b.items[i])
    else a == b && !IsNaN(a)
  }

  lemma {:induction false} SilentWhenSame(a: Json, b: Json, path: Path, m: Mismatch)
    requires Same(a, b)
    ensures !Reported(a, b, path, m)
  {
    if a.Dict? && b.Dict? {
      forall k | k in a.entries ensures !Reported(a.entries[k], b.entries[k], path + [Key(k)], m) {
        SilentWhenSame(a.entries[k], b.entries[k], path + [Key(k)], m);
      }
    } else if a.List? && b.List? {
      forall i | 0 <= i < |a.items| ensures !Reported(a.items[i], b.items[i], path + [Index(i)], m) {
        SilentWhenSame(a.items[i], b.items[i], path + [Index(i)], m);
      }
    }
  }

  lemma {:induction false} SpeaksWhenDifferent(a: Json, b: Json, path: Path) returns (m: Mismatch)
    requires !Same(a, b)
    ensures Reported(a, b, path, m)
  {
    if Local(a, b, path).Some? {
      m := Local(a, b, path).value;
    } else if a.Dict? && b.Dict? {
      var k :| k in a.entries && !Same(a.entries[k], b.entries[k]);
      m := SpeaksWhenDifferent(a.entries[k], b.entries[k], path + [Key(k)]);
    } else {
      var i :| 0 <= i < |a.items| && !Same(a.items[i], b.items[i]);
      m := SpeaksWhenDifferent(a.items[i], b.items[i], path + [Index(i)]);
    }
  }

  /** The exact comparison is silent on equal trees without NaN, and only on those. */
  lemma {:induction false} SameMeansEqual(a: Json, b: Json)
    ensures Same(a, b) <==> a == b && NaNFree(a)
  {
    if a.Dict? && b.Dict? {
      forall k | k in a.entries && k in b.entries
        ensures Same(a.entries[k], b.entries[k]) <==> a.entries[k] == b.entries[k] && NaNFree(a.entries[k])
      {
        SameMeansEqual(a.entries[k], b.entries[k]);
      }
      if Same(a, b) { assert a.entries == b.entries; }
    } else if a.List? && b.List? {
      forall i | 0 <= i < |a.items| && i < |b.items|
        ensures Same(a.items[i], b.items[i]) <==> a.items[i] == b.items[i] && NaNFree(a.items[i])
      {
        SameMeansEqual(a.items[i], b.items[i]);
      }
      if Same(a, b) { assert a.items == b.items; }
    }
  }

  /** Stripping the two against each other makes them equal exactly when erasing each alone does. */
  lemma {:induction false} StrippedIsErased(a: Json, b: Json, keys: set<string>)
    ensures Stripped(a, b, keys) == Stripped(b, a, keys) <==> Erase(a, keys) == Erase(b, keys)
    ensures Erase(a, keys) == Erase(b, keys) ==> Stripped(a, b, keys) == Erase(a, keys)
    decreases a, b, 1
  {
    if a.Dict? && b.Dict? {
      StrippedIsErasedInDicts(a, b, keys);
    } else if a.List? && b.List? {
      StrippedIsErasedInLists(a, b, keys);
    }
  }

  lemma {:induction false} StrippedIsErasedInDicts(a: Json, b: Json, keys: set<string>)
    requires a.Dict? && b.Dict?
    ensures Stripped(a, b, keys) == Stripped(b, a, keys) <==> Erase(a, keys) == Erase(b, keys)
    ensures Erase(a, keys) == Erase(b, keys) ==> Stripped(a, b, keys) == Erase(a, keys)
    decreases a, b, 0
  {
    var l, r, ea, eb := Stripped(a, b, keys).entries, Stripped(b, a, keys).entries, Erase(a, keys).entries,
        Erase(b, keys).entries;
    forall k | k in a.entries && k in b.entries
      ensures Stripped(a.entries[k], b.entries[k], keys) == Stripped(b.entries[k], a.entries[k], keys)
              <==> Erase(a.entries[k], keys) == Erase(b.entries[k], keys)
      ensures Erase(a.entries[k], keys) == Erase(b.entries[k], keys)
              ==> Stripped(a.entries[k], b.entries[k], keys) == Erase(a.entries[k], keys)
    {
      StrippedIsErased(a.entries[k], b.entries[k], keys);
    }
    assert l.Keys == ea.Keys && r.Keys == eb.Keys;
    if ea == eb {
      forall k | k in l ensures k in r && l[k] == r[k] && l[k] == ea[k] {
        assert k in ea && k in eb && ea[k] == eb[k];
      }
      assert l == r && l == ea;
    }
    if l == r {
      forall k | k in ea ensures k in eb && ea[k] == eb[k] {
        assert k in l && k in r && l[k] == r[k];
      }
      assert ea == eb;
    }
  }

  lemma {:induction false} StrippedIsErasedInLists(a: Json, b: Json, keys: set<string>)
    requires a.List? && b.List?
    ensures Stripped(a, b, keys) == Stripped(b, a, keys) <==> Erase(a, keys) == Erase(b, keys)
    ensures Erase(a, keys) == Erase(b, keys) ==> Stripped(a, b, keys) == Erase(a, keys)
    decreases a, b, 0
  {
    var l, r, ea, eb := Stripped(a, b, keys).items, Stripped(b, a, keys).items, Erase(a, keys).items,
        Erase(b, keys).items;
    forall i | 0 <= i < |a.items| && i < |b.items|
      ensures Stripped(a.items[i], b.items[i], keys) == Stripped(b.items[i], a.items[i], keys)
              <==> Erase(a.items[i], keys) == Erase(b.items[i], keys)
      ensures Erase(a.items[i], keys) == Erase(b.items[i], keys)
              ==> Stripped(a.items[i], b.items[i], keys) == Erase(a.items[i], keys)
    {
      StrippedIsErased(a.items[i], b.items[i], keys);
    }
    if ea == eb {
      forall i | 0 <= i < |l| ensures l[i] == r[i] && l[i] == ea[i] {
        assert ea[i] == eb[i];
      }
      assert l == r && l == ea;
    }
    if l == r {
      forall i | 0 <= i < |ea| ensures ea[i] == eb[i] {
        assert l[i] == r[i];
      }
      assert ea == eb;
    }
  }

  /** Comparing what stripping leaves reports nothing exactly when the two trees, each without the keys at
      every depth, are equal and hold no NaN. */
  lemma {:induction false} EquivalentIffErasedEqual(a: Json, b: Json, keys: set<string>, path: Path)
    ensures (forall m :: !Reported(Stripped(a, b, keys), Stripped(b, a, keys), path, m))
            <==> Erase(a, keys) == Erase(b, keys) && NaNFree(Erase(a, keys))
  {
    var l, r := Stripped(a, b, keys), Stripped(b, a, keys);
    StrippedIsErased(a, b, keys);
    SameMeansEqual(l, r);
    if Same(l, r) {
      forall m ensures !Reported(l, r, path, m) { SilentWhenSame(l, r, path, m); }
    } else {
      var m := SpeaksWhenDifferent(l, r, path);
      assert Reported(l, r, path, m);
    }
  }

  /** A tree in which a NaN is left without the keys is reported against itself, and no other tree is. */
  lemma NaNIsReportedAgainstItself(j: Json, keys: set<string>, path: Path)
    ensures (exists m :: Reported(Stripped(j, j, keys), Stripped(j, j, keys), path, m)) <==> !NaNFree(Erase(j, keys))
  {
    EquivalentIffErasedEqual(j, j, keys, path);
  }

  // ----- what each difference is -----

  /** A tree with every number, truth values included, as the number it equals. */
  function Canonical(j: Json): Json {
    match j
    case List(l) => List(seq(|l|, i requires 0 <= i < |l| => Canonical(l[i])))
    case Dict(m) => Dict(map k | k in m :: Canonical(m[k]))
    case Str(_) => j
    case Null => j
    case _ => Float(NumberOf(j))
  }

  /** Values count as equal in a note exactly when they are the same tree with numbers of any type taken as numbers,
      but for NaN by itself. */
  lemma {:induction false} EqualIffCanonical(a: Json, b: Json)
    ensures PyEqual(a, b) <==> Canonical(a) == Canonical(b) && !IsNaN(a)
  {
    if a.List? && b.List? {
      forall i | 0 <= i < |a.items| && i < |b.items|
        ensures (IsNaN(a.items[i]) && IsNaN(b.items[i])) || PyEqual(a.items[i], b.items[i])
                <==> Canonical(a.items[i]) == Canonical(b.items[i])
      {
        EqualIffCanonical(a.items[i], b.items[i]);
        NaNIsCanonical(a.items[i], b.items[i]);
      }
      ListsAreCanonical(a, b);
    } else if a.Dict? && b.Dict? {
      forall k | k in a.entries && k in b.entries
        ensures (IsNaN(a.entries[k]) && IsNaN(b.entries[k])) || PyEqual(a.entries[k], b.entries[k])
                <==> Canonical(a.entries[k]) == Canonical(b.entries[k])
      {
        EqualIffCanonical(a.entries[k], b.entries[k]);
        NaNIsCanonical(a.entries[k], b.entries[k]);
      }
      DictsAreCanonical(a, b);
    }
  }

  lemma NaNIsCanonical(a: Json, b: Json)
    ensures IsNaN(a) && Canonical(a) == Canonical(b) ==> IsNaN(b)
    ensures IsNaN(a) && IsNaN(b) ==> Canonical(a) == Canonical(b)
  {
  }

  lemma ListsAreCanonical(a: Json, b: Json)
    requires a.List? && b.List?
    ensures Canonical(a) == Canonical(b)
            <==> |a.items| == |b.items|
                 && forall i :: 0 <= i < |a.items| ==> Canonical(a.items[i]) == Canonical(b.items[i])
  {
    var x, y := Canonical(a).items, Canonical(b).items;
    if x == y {
      forall i | 0 <= i < |a.items| ensures Canonical(a.items[i]) == Canonical(b.items[i]) {
        assert x[i] == y[i];
      }
    }
  }

  lemma DictsAreCanonical(a: Json, b: Json)
    requires a.Dict? && b.Dict?
    ensures Canonical(a) == Canonical(b)
            <==> a.entries.Keys == b.entries.Keys
                 && forall k :: k in a.entries ==> Canonical(a.entries[k]) == Canonical(b.entries[k])
  {
    var x, y := Canonical(a).entries, Canonical(b).entries;
    assert x.Keys == a.entries.Keys && y.Keys == b.entries.Keys;
    if x == y {
      forall k | k in a.entries ensures Canonical(a.entries[k]) == Canonical(b.entries[k]) {
        assert x[k] == y[k];
      }
    }
  }

  /** A whitelisted key that one side lacks is noted, unless the other side holds the text that stands for its lack. */
  lemma AbsentReadsAsItsText(b: map<string, Json>, keys: map<string, string>, path: Path, k: string)
    requires k in keys && k in b
    ensures (exists n :: NotedHere(map[], b, keys, path, k, n)) <==> b[k] != Str("<absent>")
    ensures forall n :: NotedHere(map[], b, keys, path, k, n) ==>
            n == Note(keys[k], path + [Key(k)], Str("<absent>"), b[k])
  {
    if b[k] != Str("<absent>") {
      assert NotedHere(map[], b, keys, path, k, Note(keys[k], path + [Key(k)], Str("<absent>"), b[k]));
    }
  }

  /** The keys that one side alone has. */
  ghost predicate AreOneSided(keys: set<string>, a: map<string, Json>, b: map<string, Json>) {
    forall k :: k in keys <==> (k in a) != (k in b)
  }

  /** At one place: the keys that one side alone has, the two lengths, or two values of which one is not a container or
      the containers differ in kind, unequal or NaN. */
  lemma LocalIs(a: Json, b: Json, path: Path)
    ensures forall m :: Local(a, b, path) == Some(m) <==>
              && m.path == path
              && match m
                 case KeysDiffer(_, keys) =>
                   a.Dict? && b.Dict? && keys != {} && AreOneSided(keys, a.entries, b.entries)
                 case LengthsDiffer(_, left, right) =>
                   a.List? && b.List? && left == |a.items| && right == |b.items| && left != right
                 case ValuesDiffer(_, x, y) =>
                   x == a && y == b && !(a.Dict? && b.Dict?) && !(a.List? && b.List?) && (a != b || IsNaN(a))
  {
    if a.Dict? && b.Dict? {
      forall keys | AreOneSided(keys, a.entries, b.entries)
        ensures keys == (a.entries.Keys - b.entries.Keys) + (b.entries.Keys - a.entries.Keys)
      {
      }
    }
  }

  // ----- where reports and notes come from -----

  /** The value a path leads to. */
  function At(j: Json, p: Path): Option<Json> {
    if p == [] then Some(j)
    else if p[0].Key? && j.Dict? && p[0].key in j.entries then At(j.entries[p[0].key], p[1..])
    else if p[0].Index? && j.List? && p[0].index < |j.items| then At(j.items[p[0].index], p[1..])
    else None
  }

  predicate DiffersAt(a: Json, b: Json, path: Path, p: Path, m: Mismatch) {
    At(a, p).Some? && At(b, p).Some? && Local(At(a, p).value, At(b, p).value, path + p) == Some(m)
  }

  /** Whatever is reported is a difference at a place both trees have, and every such difference is reported. */
  lemma {:induction false} ReportsAreLocalDifferences(a: Json, b: Json, path: Path, m: Mismatch)
    ensures Reported(a, b, path, m) <==> exists p: Path :: DiffersAt(a, b, path, p, m)
  {
    if Reported(a, b, path, m) {
      var p := WhereReported(a, b, path, m);
    }
    if p: Path :| DiffersAt(a, b, path, p, m) {
      ReportedWhereDifferent(a, b, path, p, m);
    }
  }

  lemma {:induction false} WhereReported(a: Json, b: Json, path: Path, m: Mismatch) returns (p: Path)
    requires Reported(a, b, path, m)
    ensures DiffersAt(a, b, path, p, m)
  {
    if Local(a, b, path) == Some(m) {
      p := [];
      assert path + p == path;
    } else if a.Dict? && b.Dict? {
      var k :| k in a.entries && k in b.entries && Reported(a.entries[k], b.entries[k], path + [Key(k)], m);
      var q := WhereReported(a.entries[k], b.entries[k], path + [Key(k)], m);
      p := [Key(k)] + q;
      assert p[1..] == q && path + [Key(k)] + q == path + p;
    } else {
      var i :| 0 <= i < |a.items| && i < |b.items| && Reported(a.items[i], b.items[i], path + [Index(i)], m);
      var q := WhereReported(a.items[i], b.items[i], path + [Index(i)], m);
      p := [Index(i)] + q;
      assert p[1..] == q && path + [Index(i)] + q == path + p;
    }
  }

  lemma {:induction false} ReportedWhereDifferent(a: Json, b: Json, path: Path, p: Path, m: Mismatch)
    requires DiffersAt(a, b, path, p, m)
    ensures Reported(a, b, path, m)
    decreases p
  {
    if p == [] {
      assert path + p == path;
    } else {
      var step, q := p[0], p[1..];
      assert path + [step] + q == path + p;
      if step.Key? {
        ReportedWhereDifferent(a.entries[step.key], b.entries[step.key], path + [step], q, m);
      } else {
        ReportedWhereDifferent(a.items[step.index], b.items[step.index], path + [step], q, m);
      }
    }
  }

  predicate NotedAt(a: Json, b: Json, keys: map<string, string>, path: Path, p: Path, k: string, n: Note) {
    && (forall i :: 0 <= i < |p| ==> p[i].Key? ==> p[i].key !in keys)
    && At(a, p).Some? && At(a, p).value.Dict? && At(b, p).Some? && At(b, p).value.Dict?
    && NotedHere(At(a, p).value.entries, At(b, p).value.entries, keys, path + p, k, n)
  }

  /** A note is a difference in a whitelisted key, at a place both trees have without passing a whitelisted
      key, and every such difference is noted. */
  lemma {:induction false} NotesAreWhitelistedDifferences(a: Json, b: Json, keys: map<string, string>, path: Path,
                                                          n: Note)
    ensures Noted(a, b, keys, path, n) <==> exists p: Path, k: string :: NotedAt(a, b, keys, path, p, k, n)
  {
    if Noted(a, b, keys, path, n) {
      var p, k := WhereNoted(a, b, keys, path, n);
    }
    if p: Path, k: string :| NotedAt(a, b, keys, path, p, k, n) {
      NotedWhereDifferent(a, b, keys, path, p, k, n);
    }
  }

  lemma {:induction false} WhereNoted(a: Json, b: Json, keys: map<string, string>, path: Path, n: Note)
      returns (p: Path, k: string)
    requires Noted(a, b, keys, path, n)
    ensures NotedAt(a, b, keys, path, p, k, n)
  {
    if a.Dict? && b.Dict? {
      k :| k in a.entries.Keys + b.entries.Keys
           && if k in keys then NotedHere(a.entries, b.entries, keys, path, k, n)
              else k in a.entries && k in b.entries && Noted(a.entries[k], b.entries[k], keys, path + [Key(k)], n);
      if k in keys {
        p := [];
        assert path + p == path;
      } else {
        var step, q := Key(k), [];
        q, k := WhereNoted(a.entries[k], b.entries[k], keys, path + [step], n);
        p := [step] + q;
        assert p[1..] == q && path + [step] + q == path + p;
      }
    } else {
      var i :| 0 <= i < |a.items| && i < |b.items| && Noted(a.items[i], b.items[i], keys, path + [Index(i)], n);
      var q;
      q, k := WhereNoted(a.items[i], b.items[i], keys, path + [Index(i)], n);
      p := [Index(i)] + q;
      assert p[1..] == q && path + [Index(i)] + q == path + p;
    }
  }

  lemma {:induction false} NotedWhereDifferent(a: Json, b: Json, keys: map<string, string>, path: Path, p: Path,
                                               k: string, n: Note)
    requires NotedAt(a, b, keys, path, p, k, n)
    ensures Noted(a, b, keys, path, n)
    decreases p
  {
    if p == [] {
      assert path + p == path;
      assert k in a.entries.Keys + b.entries.Keys;
    } else {
      var step, q := p[0], p[1..];
      assert path + [step] + q == path + p;
      if step.Key? {
        assert step.key !in keys && step.key in a.entries.Keys + b.entries.Keys;
        NotedWhereDifferent(a.entries[step.key], b.entries[step.key], keys, path + [step], q, k, n);
      } else {
        NotedWhereDifferent(a.items[step.index], b.items[step.index], keys, path + [step], q, k, n);
      }
    }
  }

  // ----- the methods -----

  /** A log gained exactly the entries `wanted`, each once. */
  ghost predicate Gained<T(!new)>(before: seq<T>, after: seq<T>, wanted: T -> bool) {
    && before <= after
    && (forall x :: x in after[|before|..] <==> wanted(x))
    && (forall i, j :: |before| <= i < j < |after| ==> after[i] != after[j])
  }

  lemma GainedNothing<T(!new)>(s: seq<T>, wanted: T -> bool)
    requires forall x :: !wanted(x)
    ensures Gained(s, s, wanted)
  {
  }

  lemma GainedOne<T(!new)>(s: seq<T>, x: T, wanted: T -> bool)
    requires forall y :: wanted(y) <==> y == x
    ensures Gained(s, s + [x], wanted)
  {
  }

  lemma GainedMore<T(!new)>(s: seq<T>, mid: seq<T>, after: seq<T>, first: T -> bool, second: T -> bool,
                            wanted: T -> bool)
    requires Gained(s, mid, first) && Gained(mid, after, second)
    requires forall x :: wanted(x) <==> first(x) || second(x)
    requires forall x :: !(first(x) && second(x))
    ensures Gained(s, after, wanted)
  {
    assert after[|s|..] == mid[|s|..] + after[|mid|..];
    forall i, j | |s| <= i < j < |after| ensures after[i] != after[j] {
      if i < |mid| <= j {
        assert after[i] == mid[|s|..][i - |s|] && after[j] == after[|mid|..][j - |mid|];
        assert first(after[i]) && second(after[j]);
      } else if j < |mid| {
        assert after[i] == mid[i] && after[j] == mid[j];
      }
    }
  }

  lemma GainedAs<T(!new)>(s: seq<T>, after: seq<T>, first: T -> bool, wanted: T -> bool)
    requires Gained(s, after, first) && forall x :: wanted(x) <==> first(x)
    ensures Gained(s, after, wanted)
  {
  }

  /** Reports made at this place itself, below the keys `done`, or below the first `n` items. */
  predicate ReportedSoFar(a: Json, b: Json, path: Path, done: set<string>, n: nat, m: Mismatch) {
    || Local(a, b, path) == Some(m)
    || (a.Dict? && b.Dict? && exists k :: k in done && k in a.entries && k in b.entries
                                          && Reported(a.entries[k], b.entries[k], path + [Key(k)], m))
    || (a.List? && b.List? && exists i :: 0 <= i < n && i < |a.items| && i < |b.items|
                                          && Reported(a.items[i], b.items[i], path + [Index(i)], m))
  }

  lemma ReportsLieBelow(a: Json, b: Json, path: Path, step: Step, m: Mismatch)
    requires Reported(a, b, path + [step], m)
    ensures path + [step] <= m.path && m.path[|path|] == step
  {
    var p := WhereReported(a, b, path + [step], m);
  }

  lemma OneMoreKey(a: Json, b: Json, path: Path, done: set<string>, k: string)
    requires a.Dict? && b.Dict? && k in a.entries && k in b.entries && k !in done
    ensures forall m :: ReportedSoFar(a, b, path, done + {k}, 0, m)
                        <==> (ReportedSoFar(a, b, path, done, 0, m)
                              || Reported(a.entries[k], b.entries[k], path + [Key(k)], m))
    ensures forall m :: !(ReportedSoFar(a, b, path, done, 0, m)
                          && Reported(a.entries[k], b.entries[k], path + [Key(k)], m))
  {
    hide Reported;
    forall m | ReportedSoFar(a, b, path, done, 0, m) ensures !Reported(a.entries[k], b.entries[k], path + [Key(k)], m) {
      if Reported(a.entries[k], b.entries[k], path + [Key(k)], m) {
        ReportsLieBelow(a.entries[k], b.entries[k], path, Key(k), m);
        var k' :| k' in done && k' in a.entries && k' in b.entries
            && Reported(a.entries[k'], b.entries[k'], path + [Key(k')], m);
        ReportsLieBelow(a.entries[k'], b.entries[k'], path, Key(k'), m);
      }
    }
  }

  lemma OneMoreItem(a: Json, b: Json, path: Path, n: nat)
    requires a.List? && b.List? && n < |a.items| && n < |b.items|
    ensures forall m :: ReportedSoFar(a, b, path, {}, n + 1, m)
                        <==> (ReportedSoFar(a, b, path, {}, n, m)
                              || Reported(a.items[n], b.items[n], path + [Index(n)], m))
    ensures forall m :: !(ReportedSoFar(a, b, path, {}, n, m) && Reported(a.items[n], b.items[n], path + [Index(n)], m))
  {
    hide Reported;
    forall m | ReportedSoFar(a, b, path, {}, n, m) ensures !Reported(a.items[n], b.items[n], path + [Index(n)], m) {
      if Reported(a.items[n], b.items[n], path + [Index(n)], m) {
        ReportsLieBelow(a.items[n], b.items[n], path, Index(n), m);
        var i :| 0 <= i < n && i < |a.items| && i < |b.items| && Reported(a.items[i], b.items[i], path + [Index(i)], m);
        ReportsLieBelow(a.items[i], b.items[i], path, Index(i), m);
      }
    }
  }

  lemma AllSoFar(a: Json, b: Json, path: Path, done: set<string>, n: nat)
    requires a.Dict? && b.Dict? ==> done == a.entries.Keys * b.entries.Keys
    requires a.List? && b.List? ==> n >= |a.items| || n >= |b.items|
    ensures forall m :: ReportedSoFar(a, b, path, done, n, m) <==> Reported(a, b, path, m)
  {
  }

  lemma NothingSoFar(a: Json, b: Json, path: Path)
    ensures forall m :: ReportedSoFar(a, b, path, {}, 0, m) <==> Local(a, b, path) == Some(m)
  {
    hide Reported;
  }

  /** Compare exactly, reporting to `out`. */
  method Exact(a: Json, b: Json, path: Path, out: Log<Mismatch>)
    modifies out
    ensures Gained(old(out.entries), out.entries, m => Reported(a, b, path, m))
    decreases a
  {
    hide Gained, Reported, ReportedSoFar, Local;
    ghost var before := out.entries;
    var local := Local(a, b, path);
    NothingSoFar(a, b, path);
    if local.Some? {
      out.Append(local.value);
      GainedOne(before, local.value, m => ReportedSoFar(a, b, path, {}, 0, m));
    } else {
      GainedNothing(before, m => ReportedSoFar(a, b, path, {}, 0, m));
    }
    ghost var done: set<string>, n := {}, 0;
    if a.Dict? && b.Dict? {
      var rest := a.entries.Keys * b.entries.Keys;
      while rest != {}
        invariant rest + done == a.entries.Keys * b.entries.Keys && rest * done == {}
        invariant Gained(before, out.entries, m => ReportedSoFar(a, b, path, done, 0, m))
        decreases |rest|
      {
        var k :| k in rest;
        ghost var mid := out.entries;
        Exact(a.entries[k], b.entries[k], path + [Key(k)], out);
        OneMoreKey(a, b, path, done, k);
        GainedMore(before, mid, out.entries, m => ReportedSoFar(a, b, path, done, 0, m),
                   m => Reported(a.entries[k], b.entries[k], path + [Key(k)], m),
                       m => ReportedSoFar(a, b, path, done + {k}, 0, m));
        rest, done := rest - {k}, done + {k};
      }
    } else if a.List? && b.List? {
      n := if |a.items| < |b.items| then |a.items| else |b.items|;
      for i := 0 to if |a.items| < |b.items| then |a.items| else |b.items|
        invariant Gained(before, out.entries, m => ReportedSoFar(a, b, path, {}, i, m))
      {
        ghost var mid := out.entries;
        Exact(a.items[i], b.items[i], path + [Index(i)], out);
        OneMoreItem(a, b, path, i);
        GainedMore(before, mid, out.entries, m => ReportedSoFar(a, b, path, {}, i, m),
                   m => Reported(a.items[i], b.items[i], path + [Index(i)], m),
                       m => ReportedSoFar(a, b, path, {}, i + 1, m));
      }
    }
    AllSoFar(a, b, path, done, n);
    GainedAs(before, out.entries, m => ReportedSoFar(a, b, path, done, n, m), m => Reported(a, b, path, m));
  }

  /** Notes made for the keys `done`, or below the first `n` items. */
  predicate NotedSoFar(a: Json, b: Json, keys: map<string, string>, path: Path, done: set<string>, n: nat, note: Note) {
    || (a.Dict? && b.Dict? && exists k :: k in done && NotedForKey(a, b, keys, path, k, note))
    || (a.List? && b.List? && exists i :: 0 <= i < n && i < |a.items| && i < |b.items|
                                          && Noted(a.items[i], b.items[i], keys, path + [Index(i)], note))
  }

  predicate NotedForKey(a: Json, b: Json, keys: map<string, string>, path: Path, k: string, note: Note)
    requires a.Dict? && b.Dict?
  {
    if k in keys then NotedHere(a.entries, b.entries, keys, path, k, note)
    else k in a.entries && k in b.entries && Noted(a.entries[k], b.entries[k], keys, path + [Key(k)], note)
  }

  lemma NotesLieBelow(a: Json, b: Json, keys: map<string, string>, path: Path, step: Step, n: Note)
    requires Noted(a, b, keys, path + [step], n)
    ensures path + [step] <= n.path && n.path[|path|] == step
  {
    var p, k := WhereNoted(a, b, keys, path + [step], n);
  }

  lemma KeyNotesLieBelow(a: Json, b: Json, keys: map<string, string>, path: Path, k: string, n: Note)
    requires a.Dict? && b.Dict? && NotedForKey(a, b, keys, path, k, n)
    ensures path + [Key(k)] <= n.path && n.path[|path|] == Key(k)
  {
    hide Noted;
    if k !in keys { NotesLieBelow(a.entries[k], b.entries[k], keys, path, Key(k), n); }
  }

  lemma OneMoreNotedKey(a: Json, b: Json, keys: map<string, string>, path: Path, done: set<string>, k: string)
    requires a.Dict? && b.Dict? && k !in done
    ensures forall n :: NotedSoFar(a, b, keys, path, done + {k}, 0, n)
                        <==> NotedSoFar(a, b, keys, path, done, 0, n) || NotedForKey(a, b, keys, path, k, n)
    ensures forall n :: !(NotedSoFar(a, b, keys, path, done, 0, n) && NotedForKey(a, b, keys, path, k, n))
  {
    hide Noted, NotedForKey;
    forall n | NotedSoFar(a, b, keys, path, done, 0, n) ensures !NotedForKey(a, b, keys, path, k, n) {
      if NotedForKey(a, b, keys, path, k, n) {
        KeyNotesLieBelow(a, b, keys, path, k, n);
        var k' :| k' in done && NotedForKey(a, b, keys, path, k', n);
        KeyNotesLieBelow(a, b, keys, path, k', n);
      }
    }
  }

  lemma NotesOfOneMore(before: seq<Note>, mid: seq<Note>, after: seq<Note>,
                       a: Json, b: Json, keys: map<string, string>, path: Path, done: set<string>, k: string)
    requires a.Dict? && b.Dict? && k !in done
    requires Gained(before, mid, n => NotedSoFar(a, b, keys, path, done, 0, n))
    requires Gained(mid, after, n => NotedForKey(a, b, keys, path, k, n))
    ensures Gained(before, after, n => NotedSoFar(a, b, keys, path, done + {k}, 0, n))
  {
    hide NotedSoFar, NotedForKey, Gained;
    OneMoreNotedKey(a, b, keys, path, done, k);
    GainedMore(before, mid, after, n => NotedSoFar(a, b, keys, path, done, 0, n),
               n => NotedForKey(a, b, keys, path, k, n), n => NotedSoFar(a, b, keys, path, done + {k}, 0, n));
  }

  lemma OneMoreNotedItem(a: Json, b: Json, keys: map<string, string>, path: Path, n: nat)
    requires a.List? && b.List? && n < |a.items| && n < |b.items|
    ensures forall x :: NotedSoFar(a, b, keys, path, {}, n + 1, x)
                        <==> (NotedSoFar(a, b, keys, path, {}, n, x)
                              || Noted(a.items[n], b.items[n], keys, path + [Index(n)], x))
    ensures forall x :: !(NotedSoFar(a, b, keys, path, {}, n, x)
                          && Noted(a.items[n], b.items[n], keys, path + [Index(n)], x))
  {
    hide Noted;
    forall x | NotedSoFar(a, b, keys, path, {}, n, x)
           ensures !Noted(a.items[n], b.items[n], keys, path + [Index(n)], x) {
      if Noted(a.items[n], b.items[n], keys, path + [Index(n)], x) {
        NotesLieBelow(a.items[n], b.items[n], keys, path, Index(n), x);
        var i :| 0 <= i < n && i < |a.items| && i < |b.items|
            && Noted(a.items[i], b.items[i], keys, path + [Index(i)], x);
        NotesLieBelow(a.items[i], b.items[i], keys, path, Index(i), x);
      }
    }
  }

  lemma AllNotedSoFar(a: Json, b: Json, keys: map<string, string>, path: Path, done: set<string>, n: nat)
    requires a.Dict? && b.Dict? ==> done == a.entries.Keys + b.entries.Keys
    requires a.List? && b.List? ==> n >= |a.items| || n >= |b.items|
    ensures forall x :: NotedSoFar(a, b, keys, path, done, n, x) <==> Noted(a, b, keys, path, x)
  {
    forall x | a.Dict? && b.Dict? ensures NotedSoFar(a, b, keys, path, done, n, x) <==> Noted(a, b, keys, path, x) {
      if Noted(a, b, keys, path, x) {
        var k :| k in a.entries.Keys + b.entries.Keys
                 && if k in keys then NotedHere(a.entries, b.entries, keys, path, k, x)
                    else
                      k in a.entries && k in b.entries
                      && Noted(a.entries[k], b.entries[k], keys, path + [Key(k)], x);
        assert k in done && NotedForKey(a, b, keys, path, k, x);
      }
    }
  }

  /** What stripping `m` against the other side leaves at key `k`. */
  function StrippedAt(m: map<string, Json>, other: map<string, Json>, k: string, keys: set<string>): Json
    requires k in m
  {
    if k in other then Stripped(m[k], other[k], keys) else m[k]
  }

  predicate PartStripped(out: map<string, Json>, m: map<string, Json>, other: map<string, Json>, keys: set<string>,
                         done: set<string>) {
    && out.Keys == (m.Keys * done) - keys
    && forall k :: k in out ==> out[k] == StrippedAt(m, other, k, keys)
  }

  /** Both sides are stripped at the keys `done`. */
  predicate PartsStripped(left: map<string, Json>, right: map<string, Json>, a: Json, b: Json, keys: set<string>,
                          done: set<string>) {
    && a.Dict? && b.Dict?
    && PartStripped(left, a.entries, b.entries, keys, done) && PartStripped(right, b.entries, a.entries, keys, done)
  }

  lemma NoParts(a: Json, b: Json, keys: set<string>)
    requires a.Dict? && b.Dict?
    ensures PartsStripped(map[], map[], a, b, keys, {})
  {
  }

  lemma OneMorePart(out: map<string, Json>, out': map<string, Json>, m: map<string, Json>, other: map<string, Json>,
                    keys: set<string>, done: set<string>, k: string)
    requires PartStripped(out, m, other, keys, done)
    requires out' == if k in m && k !in keys then out[k := StrippedAt(m, other, k, keys)] else out
    ensures PartStripped(out', m, other, keys, done + {k})
  {
    hide StrippedAt;
  }

  lemma AllParts(left: map<string, Json>, right: map<string, Json>, a: Json, b: Json, keys: set<string>)
    requires a.Dict? && b.Dict? && PartsStripped(left, right, a, b, keys, a.entries.Keys + b.entries.Keys)
    ensures Dict(left) == Stripped(a, b, keys) && Dict(right) == Stripped(b, a, keys)
  {
    assert left == Stripped(a, b, keys).entries;
    assert right == Stripped(b, a, keys).entries;
  }

  /** Strip the two against each other, noting whitelisted values that differ. */
  method Strip(a: Json, b: Json, keys: map<string, string>, path: Path, notes: Log<Note>)
      returns (outA: Json, outB: Json)
    modifies notes
    ensures outA == Stripped(a, b, keys.Keys) && outB == Stripped(b, a, keys.Keys)
    ensures Gained(old(notes.entries), notes.entries, n => Noted(a, b, keys, path, n))
    decreases a, 2
  {
    if a.Dict? && b.Dict? {
      outA, outB := StripDicts(a, b, keys, path, notes);
    } else if a.List? && b.List? {
      outA, outB := StripLists(a, b, keys, path, notes);
    } else {
      GainedNothing(notes.entries, n => Noted(a, b, keys, path, n));
      outA, outB := a, b;
    }
  }

  method StripDicts(a: Json, b: Json, keys: map<string, string>, path: Path, notes: Log<Note>)
      returns (outA: Json, outB: Json)
    requires a.Dict? && b.Dict?
    modifies notes
    ensures outA == Stripped(a, b, keys.Keys) && outB == Stripped(b, a, keys.Keys)
    ensures Gained(old(notes.entries), notes.entries, n => Noted(a, b, keys, path, n))
    decreases a, 1
  {
    hide Gained, Noted, NotedForKey, Stripped, PartsStripped;
    ghost var before := notes.entries;
    var left: map<string, Json>, right: map<string, Json> := map[], map[];
    var rest := a.entries.Keys + b.entries.Keys;
    ghost var done: set<string> := {};
    NoParts(a, b, keys.Keys);
    GainedNothing(before, n => NotedSoFar(a, b, keys, path, done, 0, n));
    hide NotedSoFar;
    while rest != {}
      invariant rest + done == a.entries.Keys + b.entries.Keys && rest * done == {}
      invariant PartsStripped(left, right, a, b, keys.Keys, done)
      invariant Gained(before, notes.entries, n => NotedSoFar(a, b, keys, path, done, 0, n))
      decreases |rest|
    {
      var k :| k in rest;
      ghost var mid := notes.entries;
      left, right := StripKey(a, b, keys, path, k, notes, left, right, done);
      NotesOfOneMore(before, mid, notes.entries, a, b, keys, path, done, k);
      rest, done := rest - {k}, done + {k};
    }
    assert done == a.entries.Keys + b.entries.Keys;
    AllParts(left, right, a, b, keys.Keys);
    AllNotedSoFar(a, b, keys, path, done, 0);
    GainedAs(before, notes.entries, n => NotedSoFar(a, b, keys, path, done, 0, n), n => Noted(a, b, keys, path, n));
    outA, outB := Dict(left), Dict(right);
  }

  /** One key of two objects: note it, strip below it, or keep it as one side has it. */
  method StripKey(a: Json, b: Json, keys: map<string, string>, path: Path, k: string, notes: Log<Note>,
                  outA: map<string, Json>, outB: map<string, Json>, ghost done: set<string>)
    returns (outA': map<string, Json>, outB': map<string, Json>)
    requires a.Dict? && b.Dict? && k in a.entries.Keys + b.entries.Keys
    requires PartsStripped(outA, outB, a, b, keys.Keys, done)
    modifies notes
    ensures PartsStripped(outA', outB', a, b, keys.Keys, done + {k})
    ensures Gained(old(notes.entries), notes.entries, n => NotedForKey(a, b, keys, path, k, n))
    decreases a, 0
  {
    hide Gained, Noted, Stripped, PyEqual, PartStripped;
    outA', outB' := outA, outB;
    ghost var before := notes.entries;
    if k in keys {
      var left, right := ValueOr(a.entries, k), ValueOr(b.entries, k);
      if !PyEqual(left, right) {
        notes.Append(Note(keys[k], path + [Key(k)], left, right));
        GainedOne(before, Note(keys[k], path + [Key(k)], left, right), n => NotedForKey(a, b, keys, path, k, n));
      } else {
        GainedNothing(before, n => NotedForKey(a, b, keys, path, k, n));
      }
    } else if k in a.entries && k in b.entries {
      var x, y := Strip(a.entries[k], b.entries[k], keys, path + [Key(k)], notes);
      outA', outB' := outA[k := x], outB[k := y];
      GainedAs(before, notes.entries, n => Noted(a.entries[k], b.entries[k], keys, path + [Key(k)], n),
               n => NotedForKey(a, b, keys, path, k, n));
    } else {
      if k in a.entries {
        outA' := outA[k := a.entries[k]];
      } else {
        outB' := outB[k := b.entries[k]];
      }
      GainedNothing(before, n => NotedForKey(a, b, keys, path, k, n));
    }
    OneMorePart(outA, outA', a.entries, b.entries, keys.Keys, done, k);
    OneMorePart(outB, outB', b.entries, a.entries, keys.Keys, done, k);
  }

  method StripLists(a: Json, b: Json, keys: map<string, string>, path: Path, notes: Log<Note>)
      returns (outA: Json, outB: Json)
    requires a.List? && b.List?
    modifies notes
    ensures outA == Stripped(a, b, keys.Keys) && outB == Stripped(b, a, keys.Keys)
    ensures Gained(old(notes.entries), notes.entries, n => Noted(a, b, keys, path, n))
    decreases a, 1
  {
    hide Gained, Noted;
    ghost var before := notes.entries;
    var n := if |a.items| < |b.items| then |a.items| else |b.items|;
    var left: seq<Json>, right: seq<Json> := [], [];
    GainedNothing(before, x => NotedSoFar(a, b, keys, path, {}, 0, x));
    hide NotedSoFar;
    for i := 0 to n
      invariant |left| == |right| == i
      invariant forall j :: 0 <= j < i ==> left[j] == Stripped(a.items[j], b.items[j], keys.Keys)
                                           && right[j] == Stripped(b.items[j], a.items[j], keys.Keys)
      invariant Gained(before, notes.entries, x => NotedSoFar(a, b, keys, path, {}, i, x))
    {
      ghost var mid := notes.entries;
      var x, y := Strip(a.items[i], b.items[i], keys, path + [Index(i)], notes);
      left, right := left + [x], right + [y];
      OneMoreNotedItem(a, b, keys, path, i);
      GainedMore(before, mid, notes.entries, x => NotedSoFar(a, b, keys, path, {}, i, x),
                 x => Noted(a.items[i], b.items[i], keys, path + [Index(i)], x),
                     x => NotedSoFar(a, b, keys, path, {}, i + 1, x));
    }
    AllNotedSoFar(a, b, keys, path, {}, n);
    GainedAs(before, notes.entries, x => NotedSoFar(a, b, keys, path, {}, n, x), x => Noted(a, b, keys, path, x));
    outA, outB := List(left + a.items[n..]), List(right + b.items[n..]);
    assert outA.items == Stripped(a, b, keys.Keys).items;
    assert outB.items == Stripped(b, a, keys.Keys).items;
  }

  method StripWhitelisted(a: Json, b: Json, pair: string) returns (left: Json, right: Json, notes: Log<Note>)
    ensures fresh(notes)
    ensures left == Stripped(a, b, KeysOf(WHITELIST, pair).Keys)
            && right == Stripped(b, a, KeysOf(WHITELIST, pair).Keys)
    ensures Gained([], notes.entries, n => Noted(a, b, KeysOf(WHITELIST, pair), [], n))
  {
    var keys := KeysOf(WHITELIST, pair);
    notes := new Log();
    left, right := Strip(a, b, keys, [], notes);
  }

  /** Two answers that are not analysis results: compared exactly once stripped. */
  method Compare(a: Json, b: Json, pair: string) returns (mismatches: seq<Mismatch>, whitelisted: seq<Note>)
    ensures var keys := KeysOf(WHITELIST, pair).Keys;
            mismatches == [] <==> Erase(a, keys) == Erase(b, keys) && NaNFree(Erase(a, keys))
    ensures Gained([], whitelisted, n => Noted(a, b, KeysOf(WHITELIST, pair), [], n))
  {
    hide Gained, Noted, Reported, Stripped, Erase, NaNFree;
    var left, right, notes := StripWhitelisted(a, b, pair);
    var texts := new Log<Mismatch>();
    Exact(left, right, [], texts);
    EquivalentIffErasedEqual(a, b, KeysOf(WHITELIST, pair).Keys, []);
    SilentLog(texts.entries, left, right, []);
    mismatches, whitelisted := texts.entries, notes.entries;
  }

  lemma SilentLog(entries: seq<Mismatch>, a: Json, b: Json, path: Path)
    requires Gained([], entries, m => Reported(a, b, path, m))
    ensures entries == [] <==> forall m :: !Reported(a, b, path, m)
  {
    assert entries[0..] == entries;
    if entries != [] {
      assert entries[0] in entries[0..];
      assert Reported(a, b, path, entries[0]);
    } else {
      forall m ensures !Reported(a, b, path, m) { assert m !in entries[0..]; }
    }
  }

  lemma PairKeys(pair: string)
    ensures KeysOf(WHITELIST, pair).Keys == if pair in {"a_b", "b_c"} then {"data_version", "analysis_key"} else {}
  {
    assert WHITELIST[..1] == [WHITELIST[0]] && WHITELIST[..1][..0] == [];
    assert KeysOf(WHITELIST[..1][..0], pair) == map[];
  }

  /** The answers of the two pairs compared may differ in the identity of their data, at any depth, and in nothing
      else; those of any other pair in nothing. */
  lemma WhatMayDiffer(a: Json, b: Json, pair: string, path: Path)
    ensures var keys := KeysOf(WHITELIST, pair).Keys;
            var may := if pair in {"a_b", "b_c"} then {"data_version", "analysis_key"} else {};
            (forall m :: !Reported(Stripped(a, b, keys), Stripped(b, a, keys), path, m))
            <==> Erase(a, may) == Erase(b, may) && NaNFree(Erase(a, may))
  {
    hide Reported, Stripped, Erase, NaNFree, KeysOf;
    PairKeys(pair);
    EquivalentIffErasedEqual(a, b, KeysOf(WHITELIST, pair).Keys, path);
  }
}
