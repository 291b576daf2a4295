/**
 Canonical ordering of configuration values. Go maps are visited in arbitrary order; every map, at any
 depth, becomes a list of entries sorted by key, so that the rendered text never depends on that order.
 */
module OrderedYaml {
  import opened Maybe
  import opened Enumeration

  /** The value shapes the conversion distinguishes; every other value (`Opaque`) passes unchanged. */
  datatype Value =
    | Text(s: string)
    | Texts(ss: seq<string>)
    | Opaque(token: string)
    | AnyMap(entries: map<string, Value>)
    | TextMap(texts: map<string, string>)
    | TextsMap(lists: map<string, seq<string>>)
    | List(items: seq<Value>)
    | Ordered(pairs: seq<Pair>)

  datatype Pair = Pair(key: string, value: Value)

  // ------------------------------------------------------------ building maps

  /** The entry, if there is a value. */
  function Optional(key: string, value: Option<Value>): map<string, Value> {
    if value.Some? then map[key := value.value] else map[]
  }

  /** Sets the entry, if there is a value. */
  method Put(m: map<string, Value>, key: string, value: Option<Value>) returns (r: map<string, Value>)
    ensures r == m + Optional(key, value)
  {
    r := m;
    if value.Some? {
      r := r[key := value.value];
    }
  }

  lemma Unit(m: map<string, Value>)
    ensures map[] + m == m
  {}

  // ------------------------------------------------------------- string order

  /** Byte-wise lexicographic order (for UTF-8, the order of code points). */
  predicate Less(a: string, b: string) {
    b != "" && (a == "" || a[0] < b[0] || (a[0] == b[0] && Less(a[1..], b[1..])))
  }

  lemma {:induction false} LessTransitive(a: string, b: string, c: string)
    requires Less(a, b) && Less(b, c)
    ensures Less(a, c)
  {
    if a != "" && a[0] == b[0] && b[0] == c[0] {
      LessTransitive(a[1..], b[1..], c[1..]);
    }
  }

  lemma {:induction false} LessTotal(a: string, b: string)
    ensures a == b || Less(a, b) || Less(b, a)
    ensures !(Less(a, b) && Less(b, a)) && !Less(a, a)
  {
    if a != "" && b != "" {
      if a[0] == b[0] {
        LessTotal(a[1..], b[1..]);
        assert a == [a[0]] + a[1..] && b == [b[0]] + b[1..];
      }
    }
    if a != "" {
      LessTotal(a[1..], a[1..]);
    }
  }

  /** Before: at the first difference the character is smaller, or the text ends. */
  lemma {:induction false} LessExactly(a: string, b: string)
    ensures Less(a, b) <==>
            exists n: nat :: n <= |a| && n < |b| && a[..n] == b[..n] && (n == |a| || a[n] < b[n])
  {
    forall n: nat | 0 < n <= |a| && n <= |b| && a[..n] == b[..n] ensures a[0] == b[0] {
      assert a[..n][0] == b[..n][0];
    }
    if b != "" {
      if a != "" && a[0] == b[0] {
        LessExactly(a[1..], b[1..]);
        if Less(a, b) {
          var n: nat :| n <= |a[1..]| && n < |b[1..]| && a[1..][..n] == b[1..][..n]
                        && (n == |a[1..]| || a[1..][n] < b[1..][n]);
          assert a[..n + 1] == [a[0]] + a[1..][..n] && b[..n + 1] == [b[0]] + b[1..][..n];
          assert a[..n + 1] == b[..n + 1];
        }
        if n: nat :| n <= |a| && n < |b| && a[..n] == b[..n] && (n == |a| || a[n] < b[n]) {
          assert n > 0;
          assert a[1..][..n - 1] == a[..n][1..] && b[1..][..n - 1] == b[..n][1..];
          assert a[1..][..n - 1] == b[1..][..n - 1];
        }
      } else {
        assert a[..0] == b[..0];
      }
    }
  }

  predicate Increasing(keys: seq<string>) {
    forall i, j | 0 <= i < j < |keys| :: Less(keys[i], keys[j])
  }

  predicate KeysIncreasing(pairs: seq<Pair>) {
    forall i, j | 0 <= i < j < |pairs| :: Less(pairs[i].key, pairs[j].key)
  }

  // ---------------------------------------------------------------- sorting

  function Insert(k: string, sorted: seq<string>): seq<string> {
    if sorted == [] || Less(k, sorted[0]) then [k] + sorted else [sorted[0]] + Insert(k, sorted[1..])
  }

  /** The library sort. */
  function Sort(keys: seq<string>): seq<string> {
    if keys == [] then [] else Insert(keys[0], Sort(keys[1..]))
  }

  lemma {:induction false} InsertMeaning(k: string, sorted: seq<string>)
    requires Increasing(sorted) && k !in sorted
    ensures Increasing(Insert(k, sorted))
    ensures forall x :: x in Insert(k, sorted) <==> x == k || x in sorted
  {
    if sorted != [] {
      LessTotal(k, sorted[0]);
      if Less(k, sorted[0]) {
        forall j | 0 <= j < |sorted| ensures Less(k, sorted[j]) {
          if j > 0 {
            LessTransitive(k, sorted[0], sorted[j]);
          }
        }
      } else {
        InsertMeaning(k, sorted[1..]);
        var rest := Insert(k, sorted[1..]);
        forall j | 0 <= j < |rest| ensures Less(sorted[0], rest[j]) {
          assert rest[j] in rest;
          if rest[j] != k {
            var i :| 0 <= i < |sorted[1..]| && sorted[1..][i] == rest[j];
            assert sorted[i + 1] == rest[j];
          }
        }
      }
    }
  }

  lemma {:induction false} SortMeaning(keys: seq<string>)
    requires Distinct(keys)
    ensures Increasing(Sort(keys))
    ensures forall x :: x in Sort(keys) <==> x in keys
  {
    if keys != [] {
      SortMeaning(keys[1..]);
      assert keys[0] !in keys[1..];
      InsertMeaning(keys[0], Sort(keys[1..]));
    }
  }

  // ----------------------------------------------------------- specification

  /** `pairs` lists exactly the keys of a map, in strictly increasing order. */
  predicate Lists(pairs: seq<Pair>, keys: set<string>) {
    && KeysIncreasing(pairs)
    && (forall p | p in pairs :: p.key in keys)
    && (forall k | k in keys :: exists i :: 0 <= i < |pairs| && pairs[i].key == k)
  }

  /** `r` is the canonical form of `v`. */
  ghost predicate Canonical(v: Value, r: Value)
    decreases v
  {
    match v
    case AnyMap(m) =>
      && r.Ordered? && Lists(r.pairs, m.Keys)
      && forall i | 0 <= i < |r.pairs| && r.pairs[i].key in m :: Canonical(m[r.pairs[i].key], r.pairs[i].value)
    case TextMap(m) =>
      && r.Ordered? && Lists(r.pairs, m.Keys)
      && forall p | p in r.pairs && p.key in m :: p.value == Text(m[p.key])
    case TextsMap(m) =>
      && r.Ordered? && Lists(r.pairs, m.Keys)
      && forall p | p in r.pairs && p.key in m :: p.value == Texts(m[p.key])
    case List(items) =>
      && r.List? && |r.items| == |items|
      && forall i | 0 <= i < |items| :: Canonical(items[i], r.items[i])
    case _ => r == v
  }

  // ------------------------------------------------------------- conversion

  method SortedKeys(keys: set<string>) returns (sorted: seq<string>)
    ensures Increasing(sorted) && forall x :: x in sorted <==> x in keys
  {
    var order := Iterate(keys);
    SortMeaning(order);
    sorted := Sort(order);
  }

  method OrderTexts(m: map<string, string>) returns (r: Value)
    ensures Canonical(TextMap(m), r)
  {
    var keys := SortedKeys(m.Keys);
    var pairs: seq<Pair> := [];
    for i := 0 to |keys|
      invariant |pairs| == i && forall k | 0 <= k < i :: pairs[k].key == keys[k]
      invariant forall k | 0 <= k < i :: keys[k] in m && pairs[k].value == Text(m[keys[k]])
    {
      assert keys[i] in keys;
      pairs := pairs + [Pair(keys[i], Text(m[keys[i]]))];
    }
    r := Ordered(pairs);
    ListsAll(pairs, keys, m.Keys);
  }

  method OrderLists(m: map<string, seq<string>>) returns (r: Value)
    ensures Canonical(TextsMap(m), r)
  {
    var keys := SortedKeys(m.Keys);
    var pairs: seq<Pair> := [];
    for i := 0 to |keys|
      invariant |pairs| == i && forall k | 0 <= k < i :: pairs[k].key == keys[k]
      invariant forall k | 0 <= k < i :: keys[k] in m && pairs[k].value == Texts(m[keys[k]])
    {
      assert keys[i] in keys;
      pairs := pairs + [Pair(keys[i], Texts(m[keys[i]]))];
    }
    r := Ordered(pairs);
    ListsAll(pairs, keys, m.Keys);
  }

  method OrderMap(v: Value) returns (r: Value)
    requires v.AnyMap?
    ensures Canonical(v, r)
    decreases v, 0
  {
    var m := v.entries;
    var keys := SortedKeys(m.Keys);
    var pairs: seq<Pair> := [];
    for i := 0 to |keys|
      invariant |pairs| == i && forall k | 0 <= k < i :: pairs[k].key == keys[k]
      invariant forall k | 0 <= k < i :: keys[k] in m && Canonical(m[keys[k]], pairs[k].value)
    {
      assert keys[i] in keys;
      var value := ToOrderedYAML(m[keys[i]]);
      pairs := pairs + [Pair(keys[i], value)];
    }
    r := Ordered(pairs);
    ListsAll(pairs, keys, m.Keys);
  }

  method OrderItems(items: seq<Value>) returns (r: Value)
    ensures Canonical(List(items), r)
    decreases items, 0
  {
    var out: seq<Value> := [];
    for i := 0 to |items|
      invariant |out| == i && forall k | 0 <= k < i :: Canonical(items[k], out[k])
    {
      var it := ToOrderedYAML(items[i]);
      out := out + [it];
    }
    r := List(out);
  }

  method ToOrderedYAML(v: Value) returns (r: Value)
    ensures Canonical(v, r)
    decreases v, 1
  {
    match v {
      case AnyMap(m) => r := OrderMap(v);
      case TextMap(m) => r := OrderTexts(m);
      case TextsMap(m) => r := OrderLists(m);
      case List(items) => r := OrderItems(items);
      case _ => r := v;
    }
  }

  lemma ListsAll(pairs: seq<Pair>, keys: seq<string>, s: set<string>)
    requires Increasing(keys) && forall x :: x in keys <==> x in s
    requires |pairs| == |keys| && forall k | 0 <= k < |keys| :: pairs[k].key == keys[k]
    ensures Lists(pairs, s)
  {
    forall k | k in s ensures exists i :: 0 <= i < |pairs| && pairs[i].key == k {
      var i :| 0 <= i < |keys| && keys[i] == k;
      assert pairs[i].key == k;
    }
  }

  // ------------------------------------------------------- the result is unique

  /** Two increasing listings of the same keys have the same keys at the same places. */
  lemma {:induction false} ListsUnique(a: seq<Pair>, b: seq<Pair>, keys: set<string>)
    requires Lists(a, keys) && Lists(b, keys)
    ensures |a| == |b| && forall i | 0 <= i < |a| :: a[i].key == b[i].key
    decreases |a|
  {
    if a == [] {
      if b != [] {
        assert false;
      }
    } else {
      assert a[0] in a;
      var j :| 0 <= j < |b| && b[j].key == a[0].key;
      assert b[0] in b;
      var i :| 0 <= i < |a| && a[i].key == b[0].key;
      LessTotal(a[0].key, b[0].key);
      assert a[0].key == b[0].key;
      var less := keys - {a[0].key};
      ListsRest(a, keys);
      ListsRest(b, keys);
      ListsUnique(a[1..], b[1..], less);
      forall i | 0 <= i < |a| ensures a[i].key == b[i].key {
        if i > 0 {
          assert a[1..][i - 1].key == b[1..][i - 1].key;
        }
      }
    }
  }

  lemma ListsRest(a: seq<Pair>, keys: set<string>)
    requires a != [] && Lists(a, keys)
    ensures Lists(a[1..], keys - {a[0].key})
  {
    var rest, less := a[1..], keys - {a[0].key};
    forall p | p in rest ensures p.key in less {
      var i :| 0 <= i < |rest| && rest[i] == p;
      assert a[i + 1] == p && a[i + 1] in a;
      LessTotal(a[0].key, p.key);
    }
    forall k | k in less ensures exists i :: 0 <= i < |rest| && rest[i].key == k {
      var i :| 0 <= i < |a| && a[i].key == k;
      assert rest[i - 1].key == k;
    }
  }

  lemma PairsEqual(a: seq<Pair>, b: seq<Pair>)
    requires |a| == |b| && forall i | 0 <= i < |a| :: a[i].key == b[i].key && a[i].value == b[i].value
    ensures a == b
  {}

  /** Whatever order the maps were visited in, at every level, there is only one result. */
  lemma {:induction false} CanonicalUnique(v: Value, r: Value, r': Value)
    requires Canonical(v, r) && Canonical(v, r')
    ensures r == r'
    decreases v
  {
    match v {
      case AnyMap(m) =>
        ListsUnique(r.pairs, r'.pairs, m.Keys);
        forall i | 0 <= i < |r.pairs| ensures r.pairs[i].value == r'.pairs[i].value {
          assert r.pairs[i] in r.pairs;
          CanonicalUnique(m[r.pairs[i].key], r.pairs[i].value, r'.pairs[i].value);
        }
        PairsEqual(r.pairs, r'.pairs);
      case TextMap(m) =>
        ListsUnique(r.pairs, r'.pairs, m.Keys);
        forall i | 0 <= i < |r.pairs| ensures r.pairs[i].value == r'.pairs[i].value {
          assert r.pairs[i] in r.pairs && r'.pairs[i] in r'.pairs;
        }
        PairsEqual(r.pairs, r'.pairs);
      case TextsMap(m) =>
        ListsUnique(r.pairs, r'.pairs, m.Keys);
        forall i | 0 <= i < |r.pairs| ensures r.pairs[i].value == r'.pairs[i].value {
          assert r.pairs[i] in r.pairs && r'.pairs[i] in r'.pairs;
        }
        PairsEqual(r.pairs, r'.pairs);
      case List(items) =>
        forall i | 0 <= i < |items| ensures r.items[i] == r'.items[i] {
          CanonicalUnique(items[i], r.items[i], r'.items[i]);
        }
        assert r.items == r'.items;
      case _ =>
    }
  }

  /** Converting the result again changes nothing. */
  lemma {:induction false} CanonicalIdempotent(v: Value, r: Value, r': Value)
    requires Canonical(v, r) && Canonical(r, r')
    ensures r' == r
    decreases v
  {
    if v.List? {
      forall i | 0 <= i < |r.items| ensures r.items[i] == r'.items[i] {
        CanonicalIdempotent(v.items[i], r.items[i], r'.items[i]);
      }
      assert r.items == r'.items;
    }
  }

  // ------------------------------------------------------- nothing is left, nothing is lost

  /** No ordered list occurs in the value yet. */
  ghost predicate Raw(v: Value) {
    match v
    case AnyMap(m) => forall k | k in m :: Raw(m[k])
    case List(items) => forall i | 0 <= i < |items| :: Raw(items[i])
    case Ordered(_) => false
    case _ => true
  }

  /** No map remains at any depth and keys strictly increase at every level. */
  ghost predicate Tidy(r: Value) {
    match r
    case Ordered(pairs) => KeysIncreasing(pairs) && forall i | 0 <= i < |pairs| :: Tidy(pairs[i].value)
    case List(items) => forall i | 0 <= i < |items| :: Tidy(items[i])
    case AnyMap(_) => false
    case TextMap(_) => false
    case TextsMap(_) => false
    case _ => true
  }

  lemma {:induction false} CanonicalTidy(v: Value, r: Value)
    requires Raw(v) && Canonical(v, r)
    ensures Tidy(r)
    decreases v
  {
    match v {
      case AnyMap(m) =>
        forall i | 0 <= i < |r.pairs| ensures Tidy(r.pairs[i].value) {
          assert r.pairs[i] in r.pairs;
          CanonicalTidy(m[r.pairs[i].key], r.pairs[i].value);
        }
      case TextMap(m) => assert forall i | 0 <= i < |r.pairs| :: r.pairs[i] in r.pairs;
      case TextsMap(m) => assert forall i | 0 <= i < |r.pairs| :: r.pairs[i] in r.pairs;
      case List(items) =>
        forall i | 0 <= i < |r.items| ensures Tidy(r.items[i]) {
          CanonicalTidy(items[i], r.items[i]);
        }
      case _ =>
    }
  }

  /** The value with every map read as a general one. */
  function Generic(v: Value): Value {
    match v
    case AnyMap(m) => AnyMap(map k | k in m :: Generic(m[k]))
    case TextMap(m) => AnyMap(map k | k in m :: Text(m[k]))
    case TextsMap(m) => AnyMap(map k | k in m :: Texts(m[k]))
    case List(items) => List(seq(|items|, i requires 0 <= i < |items| => Generic(items[i])))
    case _ => v
  }

  /** Reads ordered lists back as maps. */
  function Restore(r: Value): Value
    decreases r, 1
  {
    match r
    case Ordered(pairs) => AnyMap(RestorePairs(pairs))
    case List(items) => List(seq(|items|, i requires 0 <= i < |items| => Restore(items[i])))
    case _ => r
  }

  function RestorePairs(pairs: seq<Pair>): map<string, Value>
    decreases pairs, 0
  {
    if pairs == [] then map[] else RestorePairs(pairs[1..])[pairs[0].key := Restore(pairs[0].value)]
  }

  lemma {:induction false} RestorePairsMeaning(pairs: seq<Pair>)
    requires KeysIncreasing(pairs)
    ensures forall k :: k in RestorePairs(pairs) <==> exists i :: 0 <= i < |pairs| && pairs[i].key == k
    ensures forall i | 0 <= i < |pairs| ::
              pairs[i].key in RestorePairs(pairs) && RestorePairs(pairs)[pairs[i].key] == Restore(pairs[i].value)
  {
    if pairs != [] {
      var rest := pairs[1..];
      RestorePairsMeaning(rest);
      forall i | 0 <= i < |pairs|
        ensures pairs[i].key in RestorePairs(pairs)
        ensures RestorePairs(pairs)[pairs[i].key] == Restore(pairs[i].value)
      {
        if i > 0 {
          LessTotal(pairs[0].key, pairs[i].key);
          assert rest[i - 1] == pairs[i];
        }
      }
      forall k | k in RestorePairs(pairs) ensures exists i :: 0 <= i < |pairs| && pairs[i].key == k {
        if k != pairs[0].key {
          var i :| 0 <= i < |rest| && rest[i].key == k;
          assert pairs[i + 1].key == k;
        }
      }
    }
  }

  lemma RestoredMap(pairs: seq<Pair>, m: map<string, Value>)
    requires Lists(pairs, m.Keys)
    requires forall i | 0 <= i < |pairs| :: pairs[i].key in m && Restore(pairs[i].value) == m[pairs[i].key]
    ensures RestorePairs(pairs) == m
  {
    RestorePairsMeaning(pairs);
    assert RestorePairs(pairs).Keys == m.Keys;
  }

  lemma TextRoundTrip(m: map<string, string>, r: Value)
    requires Canonical(TextMap(m), r)
    ensures Restore(r) == Generic(TextMap(m))
  {
    assert forall i | 0 <= i < |r.pairs| :: r.pairs[i] in r.pairs;
    RestoredMap(r.pairs, Generic(TextMap(m)).entries);
  }

  lemma ListRoundTrip(m: map<string, seq<string>>, r: Value)
    requires Canonical(TextsMap(m), r)
    ensures Restore(r) == Generic(TextsMap(m))
  {
    assert forall i | 0 <= i < |r.pairs| :: r.pairs[i] in r.pairs;
    RestoredMap(r.pairs, Generic(TextsMap(m)).entries);
  }

  /** Round trip: turning the canonical form back into maps gives the input. */
  lemma {:induction false} RoundTrip(v: Value, r: Value)
    requires Raw(v) && Canonical(v, r)
    ensures Restore(r) == Generic(v)
    decreases v
  {
    match v {
      case AnyMap(m) =>
        forall i | 0 <= i < |r.pairs|
          ensures r.pairs[i].key in m && Restore(r.pairs[i].value) == Generic(m[r.pairs[i].key])
        {
          assert r.pairs[i] in r.pairs;
          RoundTrip(m[r.pairs[i].key], r.pairs[i].value);
        }
        RestoredMap(r.pairs, Generic(v).entries);
      case TextMap(m) => TextRoundTrip(m, r);
      case TextsMap(m) => ListRoundTrip(m, r);
      case List(items) =>
        forall i | 0 <= i < |items| ensures Restore(r.items[i]) == Generic(items[i]) {
          RoundTrip(items[i], r.items[i]);
        }
        assert Restore(r).items == Generic(v).items;
      case _ =>
    }
  }
}
