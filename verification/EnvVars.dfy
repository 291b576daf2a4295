/** Container environment variables and how a list of them reads. */
module EnvVars {
  import opened Maybe

  datatype Source = FieldRef(path: string) | OtherSource(text: string)

  datatype EnvVar = EnvVar(name: string, value: string, from: Option<Source>)

  function Plain(name: string, value: string): EnvVar {
    EnvVar(name, value, None)
  }

  function FromField(name: string, path: string): EnvVar {
    EnvVar(name, "", Some(FieldRef(path)))
  }

  /** Every entry with this name, in order. */
  function Entries(envs: seq<EnvVar>, name: string): seq<EnvVar> {
    if envs == [] then []
    else if envs[0].name == name then [envs[0]] + Entries(envs[1..], name)
    else Entries(envs[1..], name)
  }

  predicate Has(envs: seq<EnvVar>, name: string) {
    exists e | e in envs :: e.name == name
  }

  /** The entries whose name is not in the set, in order. */
  function Outside(envs: seq<EnvVar>, names: set<string>): seq<EnvVar> {
    if envs == [] then []
    else if envs[0].name in names then Outside(envs[1..], names)
    else [envs[0]] + Outside(envs[1..], names)
  }

  /** The first entry with this name: the one the operator takes to be applied. */
  function Effective(envs: seq<EnvVar>, name: string): Option<EnvVar> {
    var found := Entries(envs, name);
    if found == [] then None else Some(found[0])
  }

  /** The last entry with this name. */
  function Last(envs: seq<EnvVar>, name: string): Option<EnvVar> {
    var found := Entries(envs, name);
    if found == [] then None else Some(found[|found| - 1])
  }

  lemma EntriesCons(e: EnvVar, rest: seq<EnvVar>, name: string)
    ensures Entries([e] + rest, name) == if e.name == name then [e] + Entries(rest, name) else Entries(rest, name)
  {
    assert ([e] + rest)[1..] == rest;
  }

  lemma Associates(e: EnvVar, a: seq<EnvVar>, b: seq<EnvVar>)
    ensures [e] + (a + b) == [e] + a + b
  {}

  lemma {:induction false} EntriesConcat(a: seq<EnvVar>, b: seq<EnvVar>, name: string)
    ensures Entries(a + b, name) == Entries(a, name) + Entries(b, name)
  {
    if a == [] {
      assert a + b == b;
    } else {
      EntriesConcat(a[1..], b, name);
      assert (a + b)[1..] == a[1..] + b;
      Associates(a[0], Entries(a[1..], name), Entries(b, name));
    }
  }

  lemma {:induction false} EntriesNonEmpty(envs: seq<EnvVar>, name: string)
    ensures Entries(envs, name) != [] <==> Has(envs, name)
    ensures forall e | e in Entries(envs, name) :: e in envs && e.name == name
  {
    if envs != [] {
      EntriesNonEmpty(envs[1..], name);
      assert forall e :: e in envs <==> e == envs[0] || e in envs[1..];
    }
  }

  lemma {:induction false} EntriesMember(envs: seq<EnvVar>, e: EnvVar)
    requires e in envs
    ensures e in Entries(envs, e.name)
  {
    if e != envs[0] {
      EntriesMember(envs[1..], e);
    }
  }

  /** The effective entry of a name is the first one in the list. */
  lemma {:induction false} EffectiveIsFirst(envs: seq<EnvVar>, i: nat)
    requires i < |envs| && forall j | 0 <= j < i :: envs[j].name != envs[i].name
    ensures Effective(envs, envs[i].name) == Some(envs[i])
  {
    if i > 0 {
      EffectiveIsFirst(envs[1..], i - 1);
    }
  }

  /** The last entry of a name is the last one in the list. */
  lemma {:induction false} LastIsLast(envs: seq<EnvVar>, i: nat)
    requires i < |envs| && forall j | i < j < |envs| :: envs[j].name != envs[i].name
    ensures Last(envs, envs[i].name) == Some(envs[i])
  {
    if i == 0 {
      EntriesNonEmpty(envs[1..], envs[0].name);
      assert Entries(envs[1..], envs[0].name) == [];
    } else {
      LastIsLast(envs[1..], i - 1);
    }
  }

  /** An entry has at most one of a value and an indirect source: the API server refuses one that has both. */
  predicate Single(e: EnvVar) {
    e.value == "" || e.from.None?
  }

  predicate AllSingle(envs: seq<EnvVar>) {
    forall e | e in envs :: Single(e)
  }

  lemma AllSingleByName(envs: seq<EnvVar>)
    requires forall n :: AllSingle(Entries(envs, n))
    ensures AllSingle(envs)
  {
    forall e | e in envs ensures Single(e) {
      EntriesMember(envs, e);
      assert AllSingle(Entries(envs, e.name));
    }
  }

  lemma EntriesSingle(envs: seq<EnvVar>, n: string)
    requires AllSingle(envs)
    ensures AllSingle(Entries(envs, n))
  {
    EntriesNonEmpty(envs, n);
  }

  predicate Unique(envs: seq<EnvVar>) {
    forall i, j | 0 <= i < j < |envs| :: envs[i].name != envs[j].name
  }

  lemma {:induction false} UniqueEntries(envs: seq<EnvVar>, i: nat)
    requires Unique(envs) && i < |envs|
    ensures Entries(envs, envs[i].name) == [envs[i]]
  {
    if i == 0 {
      EntriesNonEmpty(envs[1..], envs[0].name);
      assert Entries(envs[1..], envs[0].name) == [];
    } else {
      UniqueEntries(envs[1..], i - 1);
    }
  }

  /** Entries whose names have increasing ranks between two bounds; such a list has no duplicate name. */
  predicate Ranked(envs: seq<EnvVar>, rank: string -> int, lo: int, hi: int) {
    && (forall i | 0 <= i < |envs| :: lo <= rank(envs[i].name) < hi)
    && (forall i, j | 0 <= i < j < |envs| :: rank(envs[i].name) < rank(envs[j].name))
  }

  lemma RankedConcat(a: seq<EnvVar>, b: seq<EnvVar>, rank: string -> int, lo: int, mid: int, hi: int)
    requires lo <= mid <= hi && Ranked(a, rank, lo, mid) && Ranked(b, rank, mid, hi)
    ensures Ranked(a + b, rank, lo, hi)
  {}

  lemma RankedUnique(envs: seq<EnvVar>, rank: string -> int, lo: int, hi: int)
    requires Ranked(envs, rank, lo, hi)
    ensures Unique(envs)
  {}

  lemma {:induction false} AbsentByRank(envs: seq<EnvVar>, rank: string -> int, name: string, lo: int, hi: int)
    requires Ranked(envs, rank, lo, hi) && !(lo <= rank(name) < hi)
    ensures Entries(envs, name) == []
  {
    if envs != [] {
      AbsentByRank(envs[1..], rank, name, lo, hi);
    }
  }

  lemma OutsideSnoc(envs: seq<EnvVar>, e: EnvVar, names: set<string>)
    ensures Outside(envs + [e], names) == Outside(envs, names) + if e.name in names then [] else [e]
  {
    if envs == [] {
      assert envs + [e] == [e] && [e][1..] == [];
    } else {
      OutsideSnoc(envs[1..], e, names);
      assert (envs + [e])[1..] == envs[1..] + [e];
    }
  }

  lemma {:induction false} OutsideEntries(envs: seq<EnvVar>, names: set<string>, n: string)
    ensures Entries(Outside(envs, names), n) == if n in names then [] else Entries(envs, n)
  {
    if envs != [] {
      OutsideEntries(envs[1..], names, n);
      EntriesCons(envs[0], Outside(envs[1..], names), n);
    }
  }
}
