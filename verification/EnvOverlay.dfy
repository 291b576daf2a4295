/**
 The three ways the admission webhook overlays environment variables, each with its own winner:
 merge (existing wins), upsert (incoming wins) and combine (decided per name).
 */
module EnvOverlay {
  import opened Maybe
  import opened EnvVars

  // ----------------------------------------------------------- specification

  function NamesOf(envs: seq<EnvVar>): set<string> {
    set e | e in envs && e.name != "" :: e.name
  }

  function Merge(base: seq<EnvVar>, extras: seq<EnvVar>): seq<EnvVar>
    decreases |extras|
  {
    if extras == [] then base
    else if extras[0].name == "" || Has(base, extras[0].name) then Merge(base, extras[1..])
    else Merge(base + [extras[0]], extras[1..])
  }

  function Upsert(base: seq<EnvVar>, overrides: seq<EnvVar>): seq<EnvVar> {
    Outside(base, NamesOf(overrides)) + Outside(overrides, {""})
  }

  /** The incoming entries that are forced (`true`) or only added (`false`), in order. */
  function Share(incoming: seq<EnvVar>, force: string -> bool, forced: bool): seq<EnvVar> {
    if incoming == [] then []
    else
      var e := incoming[0];
      if (e.name != "" && force(e.name)) == forced then [e] + Share(incoming[1..], force, forced)
      else Share(incoming[1..], force, forced)
  }

  function Combine(base: seq<EnvVar>, incoming: seq<EnvVar>, force: string -> bool): seq<EnvVar> {
    Merge(Upsert(base, Share(incoming, force, true)), Share(incoming, force, false))
  }

  // ------------------------------------------------------------------- methods

  lemma NamesOfHas(envs: seq<EnvVar>, name: string)
    ensures name in NamesOf(envs) <==> name != "" && Has(envs, name)
  {}

  method MergeEnvVars(base: seq<EnvVar>, extras: seq<EnvVar>) returns (merged: seq<EnvVar>)
    ensures merged == Merge(base, extras)
  {
    var existing := {};
    for i := 0 to |base|
      invariant existing == NamesOf(base[..i])
    {
      assert base[..i + 1] == base[..i] + [base[i]];
      if base[i].name != "" {
        existing := existing + {base[i].name};
      }
    }
    assert base[..|base|] == base;
    merged := base;
    for i := 0 to |extras|
      invariant existing == NamesOf(merged)
      invariant Merge(merged, extras[i..]) == Merge(base, extras)
    {
      var e := extras[i];
      assert extras[i..][0] == e && extras[i..][1..] == extras[i + 1..];
      NamesOfHas(merged, e.name);
      if e.name == "" {
        continue;
      }
      if e.name in existing {
        continue;
      }
      merged := merged + [e];
      existing := existing + {e.name};
    }
  }

  method DropNames(envs: seq<EnvVar>, names: set<string>) returns (result: seq<EnvVar>)
    ensures result == Outside(envs, names)
  {
    result := [];
    for i := 0 to |envs|
      invariant result == Outside(envs[..i], names)
    {
      OutsideSnoc(envs[..i], envs[i], names);
      assert envs[..i + 1] == envs[..i] + [envs[i]];
      if envs[i].name in names {
        continue;
      }
      result := result + [envs[i]];
    }
    assert envs[..|envs|] == envs;
  }

  method UpsertEnvVars(base: seq<EnvVar>, overrides: seq<EnvVar>) returns (result: seq<EnvVar>)
    ensures result == Upsert(base, overrides)
  {
    var overrideNames := {};
    for i := 0 to |overrides|
      invariant overrideNames == NamesOf(overrides[..i])
    {
      assert overrides[..i + 1] == overrides[..i] + [overrides[i]];
      if overrides[i].name != "" {
        overrideNames := overrideNames + {overrides[i].name};
      }
    }
    assert overrides[..|overrides|] == overrides;
    var kept := DropNames(base, overrideNames);
    var appended := DropNames(overrides, {""});
    result := kept + appended;
  }

  method SplitByForce(incoming: seq<EnvVar>, force: string -> bool)
      returns (forced: seq<EnvVar>, additive: seq<EnvVar>)
    ensures forced == Share(incoming, force, true)
    ensures additive == Share(incoming, force, false)
  {
    forced, additive := [], [];
    for i := 0 to |incoming|
      invariant forced == Share(incoming[..i], force, true)
      invariant additive == Share(incoming[..i], force, false)
    {
      var e := incoming[i];
      assert incoming[..i + 1] == incoming[..i] + [e];
      ShareSnoc(incoming[..i], e, force, true);
      ShareSnoc(incoming[..i], e, force, false);
      if e.name != "" && force(e.name) {
        forced := forced + [e];
      } else {
        additive := additive + [e];
      }
    }
    assert incoming[..|incoming|] == incoming;
  }

  lemma {:induction false} ShareSnoc(incoming: seq<EnvVar>, e: EnvVar, force: string -> bool, forced: bool)
    ensures Share(incoming + [e], force, forced) ==
            Share(incoming, force, forced) + if (e.name != "" && force(e.name)) == forced then [e] else []
  {
    if incoming == [] {
      assert incoming + [e] == [e] && [e][1..] == [];
    } else {
      ShareSnoc(incoming[1..], e, force, forced);
      assert (incoming + [e])[1..] == incoming[1..] + [e];
    }
  }

  method CombineEnvVars(base: seq<EnvVar>, incoming: seq<EnvVar>, force: string -> bool) returns (result: seq<EnvVar>)
    ensures result == Combine(base, incoming, force)
  {
    var forced, additive := SplitByForce(incoming, force);
    var upserted := UpsertEnvVars(base, forced);
    result := MergeEnvVars(upserted, additive);
  }

  // ------------------------------------------------------------ pointwise laws

  lemma UpsertEntries(base: seq<EnvVar>, overrides: seq<EnvVar>, n: string)
    ensures Entries(Upsert(base, overrides), n) ==
            if n != "" && Has(overrides, n) then Entries(overrides, n) else Entries(base, n)
  {
    NamesOfHas(overrides, n);
    EntriesNonEmpty(overrides, n);
    OutsideEntries(base, NamesOf(overrides), n);
    OutsideEntries(overrides, {""}, n);
    EntriesConcat(Outside(base, NamesOf(overrides)), Outside(overrides, {""}), n);
  }

  function AtMostOne(envs: seq<EnvVar>): seq<EnvVar> {
    if envs == [] then [] else [envs[0]]
  }

  lemma {:induction false} MergeEntries(base: seq<EnvVar>, extras: seq<EnvVar>, n: string)
    ensures Entries(Merge(base, extras), n) ==
            if n == "" || Has(base, n) then Entries(base, n) else AtMostOne(Entries(extras, n))
    decreases |extras|
  {
    EntriesNonEmpty(base, n);
    if extras != [] {
      var e := extras[0];
      if e.name == "" || Has(base, e.name) {
        MergeEntries(base, extras[1..], n);
      } else {
        MergeEntries(base + [e], extras[1..], n);
        EntriesConcat(base, [e], n);
        EntriesNonEmpty(base + [e], n);
      }
    }
  }

  lemma {:induction false} ShareEntries(incoming: seq<EnvVar>, force: string -> bool, forced: bool, n: string)
    ensures Entries(Share(incoming, force, forced), n) ==
            if (n != "" && force(n)) == forced then Entries(incoming, n) else []
  {
    if incoming != [] {
      var e := incoming[0];
      ShareEntries(incoming[1..], force, forced, n);
      EntriesCons(e, Share(incoming[1..], force, forced), n);
    }
  }

  /** Every entry of the combined list, name by name. */
  lemma CombineEntries(base: seq<EnvVar>, incoming: seq<EnvVar>, force: string -> bool, n: string)
    ensures Entries(Combine(base, incoming, force), n) ==
            if n != "" && force(n) && Has(incoming, n) then Entries(incoming, n)
            else if n == "" || Has(base, n) then Entries(base, n)
            else AtMostOne(Entries(incoming, n))
  {
    var forced, additive := Share(incoming, force, true), Share(incoming, force, false);
    ShareEntries(incoming, force, true, n);
    ShareEntries(incoming, force, false, n);
    EntriesNonEmpty(incoming, n);
    EntriesNonEmpty(forced, n);
    EntriesNonEmpty(base, n);
    UpsertEntries(base, forced, n);
    EntriesNonEmpty(Upsert(base, forced), n);
    MergeEntries(Upsert(base, forced), additive, n);
  }

  /** Who wins: the forced incoming entry, else the base one, else the first incoming one. */
  lemma CombineWinner(base: seq<EnvVar>, incoming: seq<EnvVar>, force: string -> bool, n: string)
    requires n != ""
    ensures Effective(Combine(base, incoming, force), n) ==
            if force(n) && Effective(incoming, n).Some? then Effective(incoming, n)
            else if Effective(base, n).Some? then Effective(base, n)
            else Effective(incoming, n)
  {
    CombineEntries(base, incoming, force, n);
    EntriesNonEmpty(base, n);
    EntriesNonEmpty(incoming, n);
  }

  /** Combining twice changes no entry of any name. */
  lemma CombineIdempotent(base: seq<EnvVar>, incoming: seq<EnvVar>, force: string -> bool, n: string)
    ensures var once := Combine(base, incoming, force);
            Entries(Combine(once, incoming, force), n) == Entries(once, n)
  {
    var once := Combine(base, incoming, force);
    CombineEntries(base, incoming, force, n);
    CombineEntries(once, incoming, force, n);
    EntriesNonEmpty(once, n);
    EntriesNonEmpty(base, n);
    EntriesNonEmpty(incoming, n);
  }

  lemma {:induction false} MergePrefix(base: seq<EnvVar>, extras: seq<EnvVar>)
    ensures base <= Merge(base, extras)
    decreases |extras|
  {
    if extras != [] {
      MergePrefix(base, extras[1..]);
      MergePrefix(base + [extras[0]], extras[1..]);
    }
  }

  /** Base entries that no forced incoming entry overrides come first, in order and with their multiplicity. */
  lemma CombineKeepsBase(base: seq<EnvVar>, incoming: seq<EnvVar>, force: string -> bool)
    ensures Outside(base, NamesOf(Share(incoming, force, true))) <= Combine(base, incoming, force)
    ensures forall n :: n in NamesOf(Share(incoming, force, true)) <==>
                        n != "" && force(n) && Has(incoming, n)
  {
    var forced := Share(incoming, force, true);
    MergePrefix(Upsert(base, forced), Share(incoming, force, false));
    forall n ensures n in NamesOf(forced) <==> n != "" && force(n) && Has(incoming, n) {
      ShareEntries(incoming, force, true, n);
      EntriesNonEmpty(forced, n);
      EntriesNonEmpty(incoming, n);
      NamesOfHas(forced, n);
    }
  }
}
