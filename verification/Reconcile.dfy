/**
 One reconcile pass, and runs of passes, against an API server that may fail any call while the custom
 resource changes between any two calls.
 */
module Reconcile {
  import opened Maybe
  import opened ApiServer

  // ---------------------------------------------------- what a pass stores and removes

  function WebhookScript(): seq<Obj> {
    [WebhookService, WebhookSecret, WebhookConfiguration]
  }

  function MasterScript(s: Spec): seq<Obj> {
    if s.master then [MasterAgent] else []
  }

  function DaemonSetScript(s: Spec): seq<Obj> {
    if s.gpu && s.restricted then [GpuNodeAgent, NodeAgent] else [NodeAgent]
  }

  function ServiceScript(s: Spec): seq<Obj> {
    if s.gpu && s.gpuService then [DcgmService] else []
  }

  function NodeScript(s: Spec): seq<Obj> {
    if s.node then DaemonSetScript(s) + ServiceScript(s) else []
  }

  function AccessScript(): seq<Obj> {
    [OpenServiceAccount, OpenRole, OpenBinding]
  }

  function WorkloadScript(): seq<Obj> {
    [OpenConfig, OpenDeployment]
  }

  function OpenScript(s: Spec): seq<Obj> {
    if s.open then AccessScript() + WorkloadScript() else []
  }

  /** Everything a pass stores for a specification, in order. */
  function Script(s: Spec): seq<Obj> {
    WebhookScript() + MasterScript(s) + (NodeScript(s) + OpenScript(s))
  }

  function MasterGone(s: Spec): set<Obj> {
    if s.master then {} else {MasterAgent}
  }

  function NodeGone(s: Spec): set<Obj> {
    if !s.node then {NodeAgent} else if s.gpu && s.restricted then {} else {GpuNodeAgent}
  }

  function OpenGone(s: Spec): set<Obj> {
    if s.open then {} else Elements(AccessScript() + WorkloadScript())
  }

  /** Everything a pass removes. */
  function Gone(s: Spec): set<Obj> {
    {} + MasterGone(s) + (NodeGone(s) + OpenGone(s))
  }

  function Elements(objs: seq<Obj>): set<Obj> {
    set o | o in objs
  }

  lemma ElementsConcat(a: seq<Obj>, b: seq<Obj>)
    ensures Elements(a + b) == Elements(a) + Elements(b)
  {}

  // -------------------------------------------------------------- reading the event log

  /** How many objects were stored successfully in a stretch of the log. */
  function Count(log: seq<Event>, n: nat, i: nat): nat
    requires n <= i <= |log|
    decreases i
  {
    if i == n then 0 else Count(log, n, i - 1) + if log[i - 1].Stored? && log[i - 1].ok then 1 else 0
  }

  /** The store at `i` is of the script's next object: the first one not yet stored since `n`. */
  ghost predicate Follows(log: seq<Event>, n: nat, i: nat, script: seq<Obj>, spec: Spec)
    requires n <= i < |log| && log[i].Stored?
  {
    Count(log, n, i) < |script| && log[i].obj == script[Count(log, n, i)] && log[i].spec == spec
  }

  /** Since `n`, no status was written, and objects were stored in the order of the script, under the finalizer. */
  ghost predicate Work(log: seq<Event>, n: nat, script: seq<Obj>, spec: Spec) {
    n <= |log| && forall i | n <= i < |log| ::
                    !log[i].Marked? && (log[i].Stored? ==> log[i].held && Follows(log, n, i, script, spec))
  }

  /** Since `n`, only these objects were removed. */
  ghost predicate RemovesOnly(log: seq<Event>, n: nat, removed: set<Obj>) {
    forall i | n <= i < |log| && log[i].Removed? :: log[i].held && log[i].obj in removed
  }

  ghost predicate StoredIn(log: seq<Event>, n: nat, i: nat, obj: Obj, spec: Spec)
    requires i <= |log|
  {
    exists j :: n <= j < i && log[j] == Stored(obj, spec, true, true)
  }

  /** Every object of the script was stored between `n` and `i`. */
  ghost predicate AllStored(log: seq<Event>, n: nat, i: nat, script: seq<Obj>, spec: Spec)
    requires i <= |log|
  {
    forall k | 0 <= k < |script| :: StoredIn(log, n, i, script[k], spec)
  }

  lemma {:induction false} CountPrefix(was: seq<Event>, now: seq<Event>, n: nat, i: nat)
    requires n <= i <= |was| && was <= now
    ensures Count(now, n, i) == Count(was, n, i)
    decreases i
  {
    if n < i {
      CountPrefix(was, now, n, i - 1);
    }
  }

  lemma {:induction false} CountSplit(log: seq<Event>, n: nat, m: nat, i: nat)
    requires n <= m <= i <= |log|
    ensures Count(log, n, i) == Count(log, n, m) + Count(log, m, i)
    decreases i
  {
    if m < i {
      CountSplit(log, n, m, i - 1);
    }
  }

  /** What follows a finished stretch continues with the next script. */
  lemma FollowsThen(log: seq<Event>, n: nat, m: nat, i: nat, script: seq<Obj>, script': seq<Obj>, spec: Spec)
    requires n <= m <= i < |log| && log[i].Stored? && Count(log, n, m) == |script| && Follows(log, m, i, script', spec)
    ensures Follows(log, n, i, script + script', spec)
  {
    CountSplit(log, n, m, i);
  }

  /** What came first stays a beginning of the longer script in a longer log. */
  lemma FollowsFirst(was: seq<Event>, now: seq<Event>, n: nat, i: nat, script: seq<Obj>, script': seq<Obj>, spec: Spec)
    requires was <= now && n <= i < |was| && was[i].Stored? && Follows(was, n, i, script, spec)
    ensures Follows(now, n, i, script + script', spec)
  {
    CountPrefix(was, now, n, i);
  }

  /** A finished stretch followed by another one. */
  lemma WorkThen(was: seq<Event>, now: seq<Event>, n: nat, script: seq<Obj>, script': seq<Obj>, spec: Spec)
    requires Work(was, n, script, spec) && Count(was, n, |was|) == |script|
    requires was <= now && Work(now, |was|, script', spec)
    ensures Work(now, n, script + script', spec)
    ensures Count(now, n, |now|) == |script| + Count(now, |was|, |now|)
  {
    hide Count, Follows;
    CountPrefix(was, now, n, |was|);
    CountSplit(now, n, |was|, |now|);
    forall i | n <= i < |now|
      ensures !now[i].Marked? && (now[i].Stored? ==> now[i].held && Follows(now, n, i, script + script', spec))
    {
      if i < |was| {
        assert now[i] == was[i];
      }
      if now[i].Stored? {
        if i < |was| {
          FollowsFirst(was, now, n, i, script, script', spec);
        } else {
          FollowsThen(now, n, |was|, i, script, script', spec);
        }
      }
    }
  }

  /** A single-object stretch that stored nothing successfully, followed by another attempt. */
  lemma WorkAgain(was: seq<Event>, now: seq<Event>, n: nat, script: seq<Obj>, spec: Spec)
    requires Work(was, n, script, spec) && Count(was, n, |was|) == 0
    requires was <= now && Work(now, |was|, script, spec)
    ensures Work(now, n, script, spec)
    ensures Count(now, n, |now|) == Count(now, |was|, |now|)
  {
    hide Count, Follows;
    CountPrefix(was, now, n, |was|);
    CountSplit(now, n, |was|, |now|);
    assert script + [] == script && [] + script == script;
    forall i | n <= i < |now|
      ensures !now[i].Marked? && (now[i].Stored? ==> now[i].held && Follows(now, n, i, script, spec))
    {
      if i < |was| {
        assert now[i] == was[i];
      }
      if now[i].Stored? {
        if i < |was| {
          FollowsFirst(was, now, n, i, script, [], spec);
        } else {
          FollowsThen(now, n, |was|, i, [], script, spec);
        }
      }
    }
  }

  lemma WorkWithin(log: seq<Event>, n: nat, script: seq<Obj>, script': seq<Obj>, spec: Spec)
    requires Work(log, n, script, spec)
    ensures Work(log, n, script + script', spec)
  {
    assert forall i | n <= i < |log| && log[i].Stored? :: Follows(log, n, i, script, spec);
  }

  /** The objects counted are the first ones of the script. */
  lemma {:induction false} CountedStored(log: seq<Event>, n: nat, i: nat, script: seq<Obj>, spec: Spec, k: nat)
    requires Work(log, n, script, spec) && n <= i <= |log| && k < Count(log, n, i)
    ensures k < |script| && StoredIn(log, n, i, script[k], spec)
    decreases i
  {
    if k < Count(log, n, i - 1) {
      CountedStored(log, n, i - 1, script, spec, k);
      var j :| n <= j < i - 1 && log[j] == Stored(script[k], spec, true, true);
      assert StoredIn(log, n, i, script[k], spec);
    } else {
      assert Follows(log, n, i - 1, script, spec);
      assert log[i - 1] == Stored(script[k], spec, true, true);
    }
  }

  lemma CountBounded(log: seq<Event>, n: nat, i: nat, script: seq<Obj>, spec: Spec)
    requires Work(log, n, script, spec) && n <= i <= |log|
    ensures Count(log, n, i) <= |script|
  {
    if Count(log, n, i) > |script| {
      CountedStored(log, n, i, script, spec, |script|);
      assert false;
    }
  }

  lemma CompleteStored(log: seq<Event>, n: nat, i: nat, script: seq<Obj>, spec: Spec)
    requires Work(log, n, script, spec) && n <= i <= |log| && Count(log, n, i) == |script|
    ensures AllStored(log, n, i, script, spec)
  {
    forall k | 0 <= k < |script| ensures StoredIn(log, n, i, script[k], spec) {
      CountedStored(log, n, i, script, spec, k);
    }
  }

  // ------------------------------------------------------------------- the steps

  function With(objects: map<Obj, Spec>, added: set<Obj>, spec: Spec): map<Obj, Spec> {
    objects + map o | o in added :: spec
  }

  lemma WithThen(objects: map<Obj, Spec>, added: set<Obj>, removed: set<Obj>, added': set<Obj>, removed': set<Obj>,
                 spec: Spec)
    requires added !! removed'
    ensures With(With(objects - removed, added, spec) - removed', added', spec)
         == With(objects - (removed + removed'), added + added', spec)
  {}

  /**
   What a step of a pass promises: its stores follow the script, under the finalizer and for the
   specification, and it removes nothing outside `removed`; the log accounts for the objects; success means the
   script is complete; without faults it succeeds, and its effect on the objects is exactly `removed` going and
   the script coming; without edits the resource is untouched.
   */
  ghost predicate Step(a: State, b: State, script: seq<Obj>, removed: set<Obj>, spec: Spec, ok: bool) {
    && a.log <= b.log && Work(b.log, |a.log|, script, spec) && RemovesOnly(b.log, |a.log|, removed)
    && Evolves(a.agent, b.agent) && Tracks(a, b)
    && (ok ==> Count(b.log, |a.log|, |b.log|) == |script|)
    && (a.env.Reliable() ==> ok && b.objects == With(a.objects - removed, Elements(script), spec))
    && (a.env.Quiet() ==> b.agent == a.agent)
  }

  lemma StepThen(a: State, b: State, c: State, script: seq<Obj>, removed: set<Obj>, script': seq<Obj>,
                 removed': set<Obj>, spec: Spec, ok: bool)
    requires Step(a, b, script, removed, spec, true) && Step(b, c, script', removed', spec, ok)
    requires Elements(script) !! removed'
    ensures Step(a, c, script + script', removed + removed', spec, ok)
  {
    hide Work, Evolves, Tracks, With;
    EvolvesTransitive(a.agent, b.agent, c.agent);
    TracksTransitive(a, b, c);
    SameEnvironment(a, b);
    WorkThen(b.log, c.log, |a.log|, script, script', spec);
    RemovesThen(b.log, c.log, |a.log|, removed, removed');
    ElementsConcat(script, script');
    WithThen(a.objects, Elements(script), removed, Elements(script'), removed', spec);
  }

  lemma RemovesThen(was: seq<Event>, now: seq<Event>, n: nat, removed: set<Obj>, removed': set<Obj>)
    requires was <= now && RemovesOnly(was, n, removed) && RemovesOnly(now, |was|, removed')
    ensures RemovesOnly(now, n, removed + removed')
  {
    assert forall i | n <= i < |was| :: now[i] == was[i];
  }

  lemma SameEnvironment(a: State, b: State)
    requires Tracks(a, b)
    ensures b.env == a.env
  {}

  /** A failed step: the rest of the script was not begun. */
  lemma StepFailed(a: State, b: State, script: seq<Obj>, removed: set<Obj>, script': seq<Obj>, removed': set<Obj>,
                   spec: Spec)
    requires Step(a, b, script, removed, spec, false) && removed <= removed'
    ensures Step(a, b, script + script', removed', spec, false)
  {
    hide Work, Evolves, Tracks;
    WorkWithin(b.log, |a.log|, script, script', spec);
  }

  /** Two steps in a row, the second only after the first succeeded. */
  lemma StepUnless(a: State, b: State, c: State, script: seq<Obj>, removed: set<Obj>, script': seq<Obj>,
                   removed': set<Obj>, spec: Spec, ok: bool, ok': bool)
    requires Step(a, b, script, removed, spec, ok) && Elements(script) !! removed'
    requires if ok then Step(b, c, script', removed', spec, ok') else c == b && !ok'
    ensures Step(a, c, script + script', removed + removed', spec, ok')
  {
    hide Step;
    if ok {
      StepThen(a, b, c, script, removed, script', removed', spec, ok');
    } else {
      StepFailed(a, b, script, removed, script', removed + removed', spec);
    }
  }

  /** A removal whose error the caller only logs. */
  lemma StepIgnored(a: State, b: State, removed: set<Obj>, spec: Spec, ok: bool)
    requires Step(a, b, [], removed, spec, ok)
    ensures Step(a, b, [], removed, spec, true)
  {
    CountBounded(b.log, |a.log|, |b.log|, [], spec);
  }

  lemma NoStep(a: State, spec: Spec)
    ensures Step(a, a, [], {}, spec, true)
  {
    assert Changes(a.env.edits, a.clock, a.clock) == 0;
    assert With(a.objects - {}, Elements([]), spec) == a.objects;
  }

  lemma Nothing(script: seq<Obj>, objs: set<Obj>)
    ensures script + [] == script && [] + script == script && objs + {} == objs && {} + objs == objs
  {}

  method StoreOne(api: Api, obj: Obj, spec: Spec) returns (ok: bool)
    requires api.Held()
    modifies api
    ensures Step(old(api.Now()), api.Now(), [obj], {}, spec, ok) && api.Held()
    ensures api.clock == old(api.clock) + 1 && (api.env.faults(old(api.clock)).Works? ==> ok)
    ensures !ok ==> Count(api.log, |old(api.log)|, |api.log|) == 0
  {
    ok := api.Store(obj, spec);
    ghost var n := |old(api.log)|;
    assert Count(api.log, n, n) == 0;
    assert |api.log| > n ==> Count(api.log, n, n + 1) == if ok then 1 else 0;
    assert Elements([obj]) == {obj} && old(api.objects) - {} == old(api.objects);
  }

  method DeleteOne(api: Api, obj: Obj, spec: Spec, afterRead: bool) returns (ok: bool)
    requires api.Held()
    modifies api
    ensures Step(old(api.Now()), api.Now(), [], {obj}, spec, ok) && api.Held()
    ensures old(api.clock) <= api.clock && api.objects.Keys <= old(api.objects.Keys)
    ensures obj in api.objects || !ok ==> Failures(api.env.faults, old(api.clock), api.clock) > 0
  {
    if afterRead {
      ok := api.GetAndDelete(obj);
    } else {
      ok := api.Delete(obj);
    }
    ghost var n := |old(api.log)|;
    assert Count(api.log, n, n) == 0;
    assert |api.log| > n ==> Count(api.log, n, n + 1) == 0;
    assert With(api.objects, Elements([]), spec) == api.objects;
  }

  /** Stores in order, stopping at the first failure. */
  method StoreAll(api: Api, objs: seq<Obj>, spec: Spec) returns (ok: bool)
    requires api.Held()
    modifies api
    ensures Step(old(api.Now()), api.Now(), objs, {}, spec, ok) && api.Held()
    decreases |objs|
  {
    hide Step;
    if objs == [] {
      NoStep(api.Now(), spec);
      return true;
    }
    ghost var start := api.Now();
    ok := StoreOne(api, objs[0], spec);
    ghost var middle, first := api.Now(), ok;
    if ok {
      ok := StoreAll(api, objs[1..], spec);
    }
    StepUnless(start, middle, api.Now(), [objs[0]], {}, objs[1..], {}, spec, first, ok);
    assert [objs[0]] + objs[1..] == objs;
    Nothing(objs, {});
  }

  /** How many of these objects there are. */
  function Remaining(objs: seq<Obj>, present: set<Obj>): nat {
    if objs == [] then 0 else (if objs[0] in present then 1 else 0) + Remaining(objs[1..], present)
  }

  lemma {:induction false} RemainingShrinks(objs: seq<Obj>, was: set<Obj>, now: set<Obj>)
    requires now <= was
    ensures Remaining(objs, now) <= Remaining(objs, was)
  {
    if objs != [] {
      RemainingShrinks(objs[1..], was, now);
    }
  }

  lemma {:induction false} RemainingConcat(a: seq<Obj>, b: seq<Obj>, present: set<Obj>)
    ensures Remaining(a + b, present) == Remaining(a, present) + Remaining(b, present)
  {
    if a == [] {
      assert a + b == b;
    } else {
      assert (a + b)[1..] == a[1..] + b;
      RemainingConcat(a[1..], b, present);
    }
  }

  /** Deletes what it finds in order, stopping at the first failure. */
  method DeleteAll(api: Api, objs: seq<Obj>, spec: Spec) returns (ok: bool)
    requires api.Held()
    modifies api
    ensures Step(old(api.Now()), api.Now(), [], Elements(objs), spec, ok) && api.Held()
    ensures old(api.clock) <= api.clock && api.objects.Keys <= old(api.objects.Keys)
    ensures Remaining(objs, api.objects.Keys) > 0 || !ok ==>
              Failures(api.env.faults, old(api.clock), api.clock) > 0
    decreases |objs|
  {
    hide Step, Failures;
    if objs == [] {
      assert Elements(objs) == {};
      NoStep(api.Now(), spec);
      return true;
    }
    ghost var start := api.Now();
    ok := DeleteOne(api, objs[0], spec, true);
    ghost var middle, first := api.Now(), ok;
    if ok {
      ok := DeleteAll(api, objs[1..], spec);
      FailuresSplit(api.env.faults, start.clock, middle.clock, api.clock);
    }
    StepUnless(start, middle, api.Now(), [], {objs[0]}, [], Elements(objs[1..]), spec, first, ok);
    assert Elements(objs) == {objs[0]} + Elements(objs[1..]);
    Nothing([], {});
  }

  // ------------------------------------------------------------------ components

  /** The split or the single DaemonSet; an error deleting the GPU one is only logged. */
  method InstallDaemonSets(api: Api, spec: Spec) returns (ok: bool)
    requires api.Held() && spec.node
    modifies api
    ensures Step(old(api.Now()), api.Now(), DaemonSetScript(spec), NodeGone(spec), spec, ok) && api.Held()
    ensures !(spec.gpu && spec.restricted) ==> api.clock > 0
    ensures !(spec.gpu && spec.restricted) && api.env.faults(api.clock - 1).Works? ==> ok
  {
    hide Step;
    ghost var start := api.Now();
    if spec.gpu && spec.restricted {
      ok := StoreAll(api, [GpuNodeAgent, NodeAgent], spec);
    } else {
      var deleted := DeleteOne(api, GpuNodeAgent, spec, false);
      StepIgnored(start, api.Now(), {GpuNodeAgent}, spec, deleted);
      ghost var middle := api.Now();
      ok := StoreOne(api, NodeAgent, spec);
      StepThen(start, middle, api.Now(), [], {GpuNodeAgent}, [NodeAgent], {}, spec, ok);
      Nothing([NodeAgent], {GpuNodeAgent});
    }
  }

  /** The DaemonSets, then the exporter service. */
  method InstallNodeAgent(api: Api, spec: Spec) returns (ok: bool)
    requires api.Held() && spec.node
    modifies api
    ensures Step(old(api.Now()), api.Now(), NodeScript(spec), NodeGone(spec), spec, ok) && api.Held()
  {
    hide Step;
    ghost var start := api.Now();
    ok := InstallDaemonSets(api, spec);
    ghost var middle, first := api.Now(), ok;
    if ok {
      if spec.gpu && spec.gpuService {
        ok := StoreOne(api, DcgmService, spec);
      } else {
        NoStep(middle, spec);
      }
    }
    StepUnless(start, middle, api.Now(), DaemonSetScript(spec), NodeGone(spec), ServiceScript(spec), {},
               spec, first, ok);
    Nothing([], NodeGone(spec));
  }

  /** Lists the monitors; nothing is stored. */
  method ListMonitors(api: Api, spec: Spec) returns (ok: bool)
    requires api.Held()
    modifies api
    ensures Step(old(api.Now()), api.Now(), [], {}, spec, ok) && api.Held()
  {
    hide Step;
    ghost var start := api.Now();
    ok := ListOne(api, spec);
    ghost var middle, first := api.Now(), ok;
    if ok {
      ok := ListOne(api, spec);
    }
    StepUnless(start, middle, api.Now(), [], {}, [], {}, spec, first, ok);
    Nothing([], {});
    middle, first := api.Now(), ok;
    if ok {
      ok := ListOne(api, spec);
    }
    StepUnless(start, middle, api.Now(), [], {}, [], {}, spec, first, ok);
  }

  method ListOne(api: Api, spec: Spec) returns (ok: bool)
    requires api.Held()
    modifies api
    ensures Step(old(api.Now()), api.Now(), [], {}, spec, ok) && api.Held()
  {
    var fault := api.Tick();
    ok := fault == Works;
    assert With(api.objects - {}, Elements([]), spec) == api.objects;
  }

  /** At most three attempts to store the deployment: it gives up only after the last of them failed. */
  method StoreWithRetry(api: Api, obj: Obj, spec: Spec, attempts: nat) returns (ok: bool)
    requires api.Held() && attempts > 0
    modifies api
    ensures Step(old(api.Now()), api.Now(), [obj], {}, spec, ok) && api.Held()
    ensures old(api.clock) < api.clock <= old(api.clock) + attempts
    ensures !ok ==> api.clock == old(api.clock) + attempts
    ensures !ok ==> Count(api.log, |old(api.log)|, |api.log|) == 0
    decreases attempts
  {
    ghost var start := api.Now();
    ok := StoreOne(api, obj, spec);
    if !ok && attempts > 1 {
      ghost var middle := api.Now();
      ok := StoreWithRetry(api, obj, spec, attempts - 1);
      StepAgain(start, middle, api.Now(), obj, spec, ok);
    }
  }

  lemma StepAgain(a: State, b: State, c: State, obj: Obj, spec: Spec, ok: bool)
    requires Step(a, b, [obj], {}, spec, false) && Step(b, c, [obj], {}, spec, ok)
    requires Count(b.log, |a.log|, |b.log|) == 0
    ensures Step(a, c, [obj], {}, spec, ok)
    ensures Count(c.log, |a.log|, |c.log|) == Count(c.log, |b.log|, |c.log|)
  {
    hide Work, Evolves, Tracks;
    EvolvesTransitive(a.agent, b.agent, c.agent);
    TracksTransitive(a, b, c);
    SameEnvironment(a, b);
    WorkAgain(b.log, c.log, |a.log|, [obj], spec);
    RemovesThen(b.log, c.log, |a.log|, {}, {});
  }

  /** Service account, role and binding; then the monitors are listed. */
  method InstallOpenAccess(api: Api, spec: Spec) returns (ok: bool)
    requires api.Held()
    modifies api
    ensures Step(old(api.Now()), api.Now(), AccessScript(), {}, spec, ok) && api.Held()
  {
    hide Step;
    ghost var start := api.Now();
    ok := StoreAll(api, [OpenServiceAccount, OpenRole, OpenBinding], spec);
    ghost var middle, first := api.Now(), ok;
    if ok {
      ok := ListMonitors(api, spec);
    }
    StepUnless(start, middle, api.Now(), AccessScript(), {}, [], {}, spec, first, ok);
    Nothing(AccessScript(), {});
  }

  method InstallOpenWorkload(api: Api, spec: Spec) returns (ok: bool)
    requires api.Held()
    modifies api
    ensures Step(old(api.Now()), api.Now(), WorkloadScript(), {}, spec, ok) && api.Held()
    ensures old(api.clock) < api.clock <= old(api.clock) + 4
    ensures !ok ==> api.clock == old(api.clock) + 1 || api.clock == old(api.clock) + 4
  {
    hide Step;
    ghost var start := api.Now();
    ok := StoreOne(api, OpenConfig, spec);
    ghost var middle, first := api.Now(), ok;
    if ok {
      ok := StoreWithRetry(api, OpenDeployment, spec, 3);
    }
    StepUnless(start, middle, api.Now(), [OpenConfig], {}, [OpenDeployment], {}, spec, first, ok);
    Nothing([], {});
    assert [OpenConfig] + [OpenDeployment] == WorkloadScript();
  }

  method InstallOpenAgent(api: Api, spec: Spec) returns (ok: bool)
    requires api.Held()
    modifies api
    ensures Step(old(api.Now()), api.Now(), AccessScript() + WorkloadScript(), {}, spec, ok) && api.Held()
  {
    hide Step;
    ghost var start := api.Now();
    ok := InstallOpenAccess(api, spec);
    ghost var middle, first := api.Now(), ok;
    if ok {
      ok := InstallOpenWorkload(api, spec);
    }
    StepUnless(start, middle, api.Now(), AccessScript(), {}, WorkloadScript(), {}, spec, first, ok);
    Nothing([], {});
  }

  /** One component: installed when enabled, its objects cleaned up (errors only logged) when not. */
  method InstallOrCleanMaster(api: Api, spec: Spec) returns (ok: bool)
    requires api.Held()
    modifies api
    ensures Step(old(api.Now()), api.Now(), MasterScript(spec), MasterGone(spec), spec, ok) && api.Held()
    ensures !spec.master ==> ok
  {
    hide Step;
    if spec.master {
      ok := StoreOne(api, MasterAgent, spec);
    } else {
      var cleaned := DeleteOne(api, MasterAgent, spec, true);
      StepIgnored(old(api.Now()), api.Now(), {MasterAgent}, spec, cleaned);
      ok := true;
    }
  }

  method InstallOrCleanNode(api: Api, spec: Spec) returns (ok: bool)
    requires api.Held()
    modifies api
    ensures Step(old(api.Now()), api.Now(), NodeScript(spec), NodeGone(spec), spec, ok) && api.Held()
    ensures !spec.node ==> ok
  {
    hide Step;
    if spec.node {
      ok := InstallNodeAgent(api, spec);
    } else {
      var cleaned := DeleteOne(api, NodeAgent, spec, true);
      StepIgnored(old(api.Now()), api.Now(), {NodeAgent}, spec, cleaned);
      ok := true;
    }
  }

  method InstallOrCleanOpen(api: Api, spec: Spec) returns (ok: bool)
    requires api.Held()
    modifies api
    ensures Step(old(api.Now()), api.Now(), OpenScript(spec), OpenGone(spec), spec, ok) && api.Held()
    ensures !spec.open ==> ok
  {
    hide Step;
    if spec.open {
      ok := InstallOpenAgent(api, spec);
    } else {
      var cleanup := [OpenDeployment, OpenConfig, OpenServiceAccount, OpenRole, OpenBinding];
      var cleaned := DeleteAll(api, cleanup, spec);
      assert Elements(cleanup) == OpenGone(spec);
      StepIgnored(old(api.Now()), api.Now(), OpenGone(spec), spec, cleaned);
      ok := true;
    }
  }

  method InstallWebhookAndMaster(api: Api, spec: Spec) returns (ok: bool)
    requires api.Held()
    modifies api
    ensures Step(old(api.Now()), api.Now(), WebhookScript() + MasterScript(spec), {} + MasterGone(spec), spec, ok)
    ensures api.Held()
  {
    hide Step;
    ghost var start := api.Now();
    ok := StoreAll(api, [WebhookService, WebhookSecret, WebhookConfiguration], spec);
    ghost var middle, first := api.Now(), ok;
    if ok {
      ok := InstallOrCleanMaster(api, spec);
    }
    StepUnless(start, middle, api.Now(), WebhookScript(), {}, MasterScript(spec), MasterGone(spec), spec, first, ok);
  }

  method InstallNodeAndOpen(api: Api, spec: Spec) returns (ok: bool)
    requires api.Held()
    modifies api
    ensures Step(old(api.Now()), api.Now(), NodeScript(spec) + OpenScript(spec), NodeGone(spec) + OpenGone(spec),
                 spec, ok)
    ensures api.Held()
  {
    hide Step;
    ghost var start := api.Now();
    ok := InstallOrCleanNode(api, spec);
    ghost var middle, first := api.Now(), ok;
    if ok {
      ok := InstallOrCleanOpen(api, spec);
    }
    StepUnless(start, middle, api.Now(), NodeScript(spec), NodeGone(spec), OpenScript(spec), OpenGone(spec),
               spec, first, ok);
  }

  /** Webhook objects and components, in the order of the code, stopping at the first failure. */
  method InstallAll(api: Api, spec: Spec) returns (ok: bool)
    requires api.Held()
    modifies api
    ensures Step(old(api.Now()), api.Now(), Script(spec), Gone(spec), spec, ok) && api.Held()
  {
    hide Step, MasterScript, NodeScript, OpenScript, MasterGone, NodeGone, OpenGone, WebhookScript;
    ghost var start := api.Now();
    ok := InstallWebhookAndMaster(api, spec);
    ghost var middle, first := api.Now(), ok;
    if ok {
      ok := InstallNodeAndOpen(api, spec);
    }
    NothingBoth(spec);
    StepUnless(start, middle, api.Now(), WebhookScript() + MasterScript(spec), {} + MasterGone(spec),
               NodeScript(spec) + OpenScript(spec), NodeGone(spec) + OpenGone(spec), spec, first, ok);
  }

  lemma NothingBoth(s: Spec)
    ensures Elements(WebhookScript() + MasterScript(s)) !! NodeGone(s) + OpenGone(s)
    ensures Elements(Script(s)) !! Gone(s)
  {}

  // ------------------------------------------------------------ one pass, as observed

  /** What the first read of a pass returns if it succeeds, and the moment after it. */
  function ReadOf(a: State): Option<Agent> {
    Edited(a.agent, a.env.edits(a.clock))
  }

  function AfterRead(a: State): State {
    a.(agent := ReadOf(a), clock := a.clock + 1)
  }

  /** The log gained events since `n`, and the last one declares success. */
  ghost predicate Declared(log: seq<Event>, n: nat) {
    n < |log| && Success(log[|log| - 1])
  }

  /**
   The success at `i` ends the pass that began at `n`: everything the specification needs was stored within the
   pass, and the generation declared as observed is the one the resource then has.
   */
  ghost predicate Earned(n: nat, spec: Spec, b: State, i: nat)
    requires i < |b.log| && b.log[i].Marked?
  {
    && i == |b.log| - 1 && b.agent == Some(b.log[i].agent)
    && b.log[i].agent.observed == b.log[i].agent.generation
    && AllStored(b.log, n, i, Script(spec), spec)
  }

  ghost predicate Proper(n: nat, spec: Spec, b: State, i: nat)
    requires n <= i < |b.log|
  {
    match b.log[i]
    case Stored(_, _, held, _) => held && Follows(b.log, n, i, Script(spec), spec)
    case Marked(_) => Success(b.log[i]) ==> Earned(n, spec, b, i)
    case Removed(obj, held) => held && obj in Gone(spec)
  }

  /** Every event since `n` is one of a pass that installs the specification. */
  ghost predicate Installs(n: nat, spec: Spec, b: State) {
    n <= |b.log| && forall i | n <= i < |b.log| :: Proper(n, spec, b, i)
  }

  /** Every event since `n` removes an object that deletion cleans up, of a resource that still held the finalizer. */
  ghost predicate Cleans(n: nat, read: Agent, b: State) {
    forall i | n <= i < |b.log| ::
      read.finalizer && b.log[i].Removed? && b.log[i].held && b.log[i].obj in Cleaned()
  }

  /** A status of success was already there, or was declared last. */
  ghost predicate Accounted(a: State, b: State) {
    b.agent.Some? && b.agent.value.available == Some(true) ==>
      || Declared(b.log, |a.log|)
      || (a.agent.Some? && a.agent.value.available == Some(true) && a.agent.value.observed == b.agent.value.observed)
  }

  /** How a pass that reports no error leaves the server. */
  ghost predicate Settled(a: State, b: State) {
    match ReadOf(a)
    case None => b.agent == None
    case Some(read) =>
      if read.deleting then b.agent.Some? ==> b.agent.value.others && !b.agent.value.finalizer
      else Declared(b.log, |a.log|)
  }

  /**
   A pass that got to install: its first status write took effect, whatever happens later, or nobody edits anything
   and its last call works.
   */
  ghost predicate Withdraws(a: State, b: State)
    requires ReadOf(a).Some?
  {
    var first := a.clock + if ReadOf(a).value.finalizer then 1 else 2;
    && !ReadOf(a).value.deleting && first < b.clock
    && (|| (!a.env.faults(first).FailsBefore? && a.env.edits(first).NoEdit?)
        || (a.env.Quiet() && a.env.faults(b.clock - 1).Works?))
  }

  /** A pass that declares no success leaves the observed generation alone, and withdraws an earlier success. */
  ghost predicate Reports(a: State, b: State) {
    ReadOf(a).Some? && !Declared(b.log, |a.log|) && b.agent.Some? ==>
      && b.agent.value.observed == ReadOf(a).value.observed
      && (Withdraws(a, b) ==> b.agent.value.available == Some(false))
  }

  /**
   What one pass may do between two moments, whatever fails and whatever the environment changes: everything it
   stores and declares is for the resource it read first.
   */
  ghost predicate Pass(a: State, b: State, ok: bool) {
    && a.log <= b.log && Tracks(AfterRead(a), b) && Accounted(a, b) && Reports(a, b)
    && (ReadOf(a).None? ==> b.log == a.log)
    && (ReadOf(a).Some? && ReadOf(a).value.deleting ==> Cleans(|a.log|, ReadOf(a).value, b))
    && (ReadOf(a).Some? && !ReadOf(a).value.deleting ==> Installs(|a.log|, ReadOf(a).value.spec, b))
    && (Declared(b.log, |a.log|) ==> a.clock + 4 <= b.clock)
    && (ok ==> Settled(a, b))
  }

  lemma HeldEvolves(a: Option<Agent>, b: Option<Agent>)
    requires Evolves(a, b) && a.Some? && a.value.finalizer
    ensures b.Some? && b.value.finalizer
  {}

  /** Writes the status of success onto a freshly read copy, again on conflict, at most five times. */
  method MarkInstalled(api: Api, attempts: nat) returns (ok: bool)
    requires api.Held()
    modifies api`clock, api`agent, api`log
    ensures Tracks(old(api.Now()), api.Now()) && api.Held()
    ensures old(api.clock) <= api.clock
    ensures !ok && attempts > 0 && api.env.Quiet() ==> api.clock > 0 && !api.env.faults(api.clock - 1).Works?
    ensures || (&& api.log == old(api.log) && !ok
                && (api.agent.Some? ==> && api.agent.value.available == old(api.agent).value.available
                                        && api.agent.value.observed == old(api.agent).value.observed))
            || (&& |api.log| == |old(api.log)| + 1 && old(api.log) <= api.log && Declared(api.log, |old(api.log)|)
                && api.agent == Some(api.log[|old(api.log)|].agent)
                && api.agent.value.observed == api.agent.value.generation && old(api.clock) + 2 <= api.clock)
    ensures api.env.Reliable() && Edits(api.env.edits, old(api.clock) + 1, old(api.clock) + 2 * attempts) < attempts ==>
              ok
    decreases attempts
  {
    hide Tracks, Edits;
    if attempts == 0 {
      TracksNow(api.Now());
      return false;
    }
    ghost var start := api.Now();
    var answer, copy := api.Get();
    HeldEvolves(start.agent, api.agent);
    if !answer.Fine? {
      return false;
    }
    ghost var read := api.Now();
    var now;
    answer, now := api.UpdateStatus(copy.value, true, copy.value.generation);
    TracksTransitive(start, read, api.Now());
    if answer.Fine? {
      return true;
    }
    if !answer.Conflict? {
      return false;
    }
    ghost var conflict := api.Now();
    HeldEvolves(read.agent, api.agent);
    if api.env.Reliable() && Edits(api.env.edits, start.clock + 1, start.clock + 2 * attempts) < attempts {
      EditsInAttempt(api.env.edits, start.clock, attempts);
    }
    ok := MarkInstalled(api, attempts - 1);
    TracksTransitive(start, conflict, api.Now());
  }

  lemma EditsInAttempt(edits: nat -> Edit, clock: nat, attempts: nat)
    requires attempts > 0 && !edits(clock + 1).NoEdit?
    requires Edits(edits, clock + 1, clock + 2 * attempts) < attempts
    ensures attempts > 1 && Edits(edits, clock + 3, clock + 2 * attempts) < attempts - 1
  {
    assert Edits(edits, clock + 1, clock + 2) == Edits(edits, clock + 1, clock + 1) + 1;
    if attempts > 1 {
      EditsSplit(edits, clock + 1, clock + 2, clock + 2 * attempts);
      EditsSplit(edits, clock + 2, clock + 3, clock + 2 * attempts);
    }
  }

  lemma TracksNow(s: State)
    ensures Tracks(s, s)
  {
    assert Changes(s.env.edits, s.clock, s.clock) == 0;
  }

  /** The stretches of an installing pass: a first status, the work, and a last status. */
  lemma PassEvents(n: nat, before: seq<Event>, after: seq<Event>, b: State, spec: Spec)
    requires n <= |before| && before <= after <= b.log
    requires forall i | n <= i < |before| :: before[i].Marked? && !Success(before[i])
    requires Work(after, |before|, Script(spec), spec) && RemovesOnly(after, |before|, Gone(spec))
    requires forall i | |after| <= i < |b.log| ::
               && b.log[i].Marked?
               && (Success(b.log[i]) ==>
                     && i == |b.log| - 1 && b.agent == Some(b.log[i].agent)
                     && b.log[i].agent.observed == b.log[i].agent.generation
                     && Count(after, |before|, |after|) == |Script(spec)|)
    ensures Installs(n, spec, b)
  {
    hide Script, Count, Follows, AllStored, Gone;
    forall i | n <= i < |b.log| ensures Proper(n, spec, b, i) {
      if i < |before| {
        assert b.log[i] == before[i];
      } else if i < |after| {
        assert b.log[i] == after[i];
        if after[i].Stored? {
          FollowsStill(n, before, after, b.log, spec, i);
        }
      } else if Success(b.log[i]) {
        CompleteStored(after, |before|, |after|, Script(spec), spec);
        StoredLater(after, b.log, |before|, n, |after|, i, Script(spec), spec);
      }
    }
  }

  /** A store keeps its place in the script when statuses come before it and anything comes after. */
  lemma FollowsStill(n: nat, before: seq<Event>, after: seq<Event>, log: seq<Event>, spec: Spec, i: nat)
    requires n <= |before| <= i < |after| && before <= after <= log
    requires forall k | n <= k < |before| :: before[k].Marked?
    requires after[i].Stored? && Follows(after, |before|, i, Script(spec), spec)
    ensures Follows(log, n, i, Script(spec), spec)
  {
    hide Script;
    NothingCounted(before, n);
    CountPrefix(before, log, n, |before|);
    CountSplit(log, n, |before|, i);
    CountPrefix(after, log, |before|, i);
  }

  lemma {:induction false} NothingCounted(log: seq<Event>, n: nat)
    requires n <= |log| && forall i | n <= i < |log| :: log[i].Marked?
    ensures Count(log, n, |log|) == 0
    decreases |log|
  {
    if n < |log| {
      NothingCounted(log[..|log| - 1], n);
      CountPrefix(log[..|log| - 1], log, n, |log| - 1);
    }
  }

  lemma StoredLater(was: seq<Event>, now: seq<Event>, n: nat, n': nat, i: nat, i': nat, script: seq<Obj>, spec: Spec)
    requires was <= now && n' <= n && i <= i' <= |now| && i <= |was| && AllStored(was, n, i, script, spec)
    ensures AllStored(now, n', i', script, spec)
  {
    forall k | 0 <= k < |script| ensures StoredIn(now, n', i', script[k], spec) {
      assert StoredIn(was, n, i, script[k], spec);
      var j :| n <= j < i && was[j] == Stored(script[k], spec, true, true);
      assert now[j] == was[j];
    }
  }

  lemma SnapshotEvolves(a: Option<Agent>, b: Option<Agent>, copy: Agent)
    requires Evolves(a, b)
    requires a.Some? ==> copy.version <= a.value.version && (copy.version == a.value.version ==> copy == a.value)
    ensures b.Some? ==> copy.version <= b.value.version && (copy.version == b.value.version ==> copy == b.value)
  {}

  lemma OfStep(a: State, b: State, spec: Spec, ok: bool)
    requires Step(a, b, Script(spec), Gone(spec), spec, ok)
    ensures a.log <= b.log && Work(b.log, |a.log|, Script(spec), spec) && RemovesOnly(b.log, |a.log|, Gone(spec))
    ensures Evolves(a.agent, b.agent) && Tracks(a, b) && a.clock <= b.clock
    ensures a.env.Quiet() ==> b.agent == a.agent
    ensures ok ==> Count(b.log, |a.log|, |b.log|) == |Script(spec)|
    ensures a.env.Reliable() ==> ok && b.objects == AfterPass(a.objects, spec)
  {}

  function AfterPass(objects: map<Obj, Spec>, s: Spec): map<Obj, Spec> {
    With(objects - Gone(s), Elements(Script(s)), s)
  }

  /** Installs everything for a resource that holds the finalizer, and reports the outcome in its status. */
  method ReconcileInstall(api: Api, copy: Agent) returns (ok: bool)
    requires api.agent == Some(copy) && copy.finalizer
    modifies api
    ensures old(api.log) <= api.log && Tracks(old(api.Now()), api.Now()) && Accounted(old(api.Now()), api.Now())
    ensures Installs(|old(api.log)|, copy.spec, api.Now())
    ensures ok ==> Declared(api.log, |old(api.log)|)
    ensures Declared(api.log, |old(api.log)|) ==> old(api.clock) + 3 <= api.clock
    ensures !Declared(api.log, |old(api.log)|) ==>
              && api.Held() && api.agent.value.observed == copy.observed
              && old(api.clock) < api.clock
              && ((|| (!api.env.faults(old(api.clock)).FailsBefore? && api.env.edits(old(api.clock)).NoEdit?)
                   || (api.env.Quiet() && api.env.faults(api.clock - 1).Works?))
                  ==> api.agent.value.available == Some(false))
    ensures api.env.Reliable() ==> api.objects == AfterPass(old(api.objects), copy.spec)
    ensures api.env.Reliable() && api.env.AtMostEdits(4) ==> ok
  {
    hide Step, Work, AfterPass, Script, Gone, Tracks, RemovesOnly, Installs, Count, Edits;
    ghost var start := api.Now();
    var answer, local := api.UpdateStatus(copy, false, copy.observed);
    ghost var before := api.Now();
    ok := InstallAll(api, local.spec);
    ghost var after := api.Now();
    OfStep(before, after, copy.spec, ok);
    TracksTransitive(start, before, after);
    if ok {
      ok := MarkInstalled(api, 5);
    } else {
      SnapshotEvolves(before.agent, after.agent, local);
      answer, local := api.UpdateStatus(local, false, local.observed);
    }
    TracksTransitive(start, after, api.Now());
    PassEvents(|start.log|, before.log, after.log, api.Now(), copy.spec);
  }

  // --------------------------------------------------------------------- deletion

  /** Deletion cleans up everything but the GPU DaemonSet and the exporter service. */
  function Cleaned(): set<Obj> {
    {MasterAgent, NodeAgent} + Elements(AccessScript() + WorkloadScript()) + Elements(WebhookScript())
  }

  /** Deletes each object, ignoring errors: a call that fails costs at most one object. */
  method DeleteEach(api: Api, objs: seq<Obj>, spec: Spec, afterRead: bool)
    requires api.Held()
    modifies api
    ensures Step(old(api.Now()), api.Now(), [], Elements(objs), spec, true) && api.Held()
    ensures old(api.clock) <= api.clock && api.objects.Keys <= old(api.objects.Keys)
    ensures Remaining(objs, api.objects.Keys) <= Failures(api.env.faults, old(api.clock), api.clock)
    decreases |objs|
  {
    hide Step, Failures;
    if objs == [] {
      assert Elements(objs) == {};
      NoStep(api.Now(), spec);
      return;
    }
    ghost var start := api.Now();
    var ok := DeleteOne(api, objs[0], spec, afterRead);
    ghost var middle := api.Now();
    StepIgnored(start, middle, {objs[0]}, spec, ok);
    DeleteEach(api, objs[1..], spec, afterRead);
    FailuresSplit(api.env.faults, start.clock, middle.clock, api.clock);
    StepThen(start, middle, api.Now(), [], {objs[0]}, [], Elements(objs[1..]), spec, true);
    assert Elements(objs) == {objs[0]} + Elements(objs[1..]);
    Nothing([], {});
  }

  /**
   What deletion may leave behind when calls fail: of the agents and the webhook, at most one object for each failed
   call; of the open agent, whatever comes after its first failure.
   */
  predicate LeftByFailures(present: set<Obj>, failures: nat) {
    && Remaining([MasterAgent, NodeAgent, WebhookConfiguration, WebhookService, WebhookSecret], present) <= failures
    && (failures == 0 ==>
          Remaining([OpenDeployment, OpenConfig, OpenServiceAccount, OpenRole, OpenBinding], present) == 0)
  }

  method CleanupAgents(api: Api, spec: Spec)
    requires api.Held()
    modifies api
    ensures Step(old(api.Now()), api.Now(), [], Cleaned(), spec, true) && api.Held()
    ensures old(api.clock) <= api.clock
    ensures api.env.Reliable() ==> forall o :: o in api.objects <==>
              o in old(api.objects) && (o == GpuNodeAgent || o == DcgmService)
    ensures LeftByFailures(api.objects.Keys, Failures(api.env.faults, old(api.clock), api.clock))
  {
    hide Step, Failures, Remaining;
    var agents := [MasterAgent, NodeAgent];
    var open := [OpenDeployment, OpenConfig, OpenServiceAccount, OpenRole, OpenBinding];
    var webhook := [WebhookConfiguration, WebhookService, WebhookSecret];
    ghost var start := api.Now();
    DeleteEach(api, agents, spec, true);
    ghost var middle, agentsGone := api.Now(), api.Now();
    var ok := DeleteAll(api, open, spec);
    StepIgnored(middle, api.Now(), Elements(open), spec, ok);
    StepThen(start, middle, api.Now(), [], Elements(agents), [], Elements(open), spec, true);
    Nothing([], {});
    middle := api.Now();
    DeleteEach(api, webhook, spec, false);
    StepThen(start, middle, api.Now(), [], Elements(agents) + Elements(open), [], Elements(webhook), spec, true);
    FailuresSplit(api.env.faults, start.clock, agentsGone.clock, api.clock);
    FailuresSplit(api.env.faults, agentsGone.clock, middle.clock, api.clock);
    RemainingShrinks(agents, agentsGone.objects.Keys, api.objects.Keys);
    RemainingShrinks(open, middle.objects.Keys, api.objects.Keys);
    RemainingConcat(agents, webhook, api.objects.Keys);
    assert agents + webhook == [MasterAgent, NodeAgent, WebhookConfiguration, WebhookService, WebhookSecret];
    assert Elements(agents) + Elements(open) + Elements(webhook) == Cleaned();
    OnlyRemoves(start, api.Now(), Cleaned(), spec, true);
    forall o ensures o in old(api.objects) - Cleaned() <==>
                     o in old(api.objects) && (o == GpuNodeAgent || o == DcgmService) {
      CleanedExactly(old(api.objects), o);
    }
  }

  /** A step with an empty script only removes. */
  lemma OnlyRemoves(a: State, b: State, removed: set<Obj>, spec: Spec, ok: bool)
    requires Step(a, b, [], removed, spec, ok)
    ensures a.log <= b.log && forall i | |a.log| <= i < |b.log| ::
              b.log[i].Removed? && b.log[i].held && b.log[i].obj in removed
    ensures Evolves(a.agent, b.agent) && Tracks(a, b)
    ensures a.env.Reliable() ==> b.objects == a.objects - removed
    ensures a.env.Quiet() ==> b.agent == a.agent
  {
    hide Tracks, Evolves;
    assert With(a.objects - removed, Elements([]), spec) == a.objects - removed;
  }

  /** Deletion of the resource: clean up if the finalizer is still there, then let it go whatever that achieved. */
  method ReconcileDeletion(api: Api, copy: Agent) returns (ok: bool)
    requires api.agent == Some(copy) && copy.deleting
    modifies api
    ensures old(api.log) <= api.log && Cleans(|old(api.log)|, copy, api.Now())
    ensures Tracks(old(api.Now()), api.Now()) && Accounted(old(api.Now()), api.Now())
    ensures ok && api.agent.Some? ==> api.agent.value.others && !api.agent.value.finalizer
    ensures api.agent.Some? ==> api.agent.value.observed == copy.observed
    ensures api.env.Reliable() ==>
              api.objects == if copy.finalizer then old(api.objects) - Cleaned() else old(api.objects)
    ensures api.env.Reliable() && copy.finalizer ==> forall o :: o in api.objects <==>
              o in old(api.objects) && (o == GpuNodeAgent || o == DcgmService)
    ensures old(api.clock) <= api.clock
    ensures copy.finalizer ==>
              LeftByFailures(api.objects.Keys, Failures(api.env.faults, old(api.clock), api.clock))
    ensures api.env.Reliable() && api.env.Quiet() ==>
              ok && api.agent == Unheld(copy.(finalizer := false, version := copy.version + 1))
  {
    hide Step, Cleaned, Tracks, Failures, Remaining;
    ghost var start := api.Now();
    if copy.finalizer {
      CleanupAgents(api, copy.spec);
      OnlyRemoves(start, api.Now(), Cleaned(), copy.spec, true);
    } else {
      NoTime(start);
    }
    ghost var cleaned := api.Now();
    SnapshotEvolves(start.agent, cleaned.agent, copy);
    var answer, now := api.UpdateFinalizer(copy, false);
    TracksTransitive(start, cleaned, api.Now());
    SameEnvironment(start, cleaned);
    FailuresSplit(api.env.faults, start.clock, cleaned.clock, api.clock);
    ok := answer.Fine?;
  }

  lemma NoTime(a: State)
    ensures Tracks(a, a) && Evolves(a.agent, a.agent)
  {
    assert Changes(a.env.edits, a.clock, a.clock) == 0;
  }

  // --------------------------------------------------------------------- one pass

  method Reconcile(api: Api) returns (ok: bool)
    modifies api
    ensures Pass(old(api.Now()), api.Now(), ok)
    ensures ReadOf(old(api.Now())).None? ==> (ok <==> api.env.faults(old(api.clock)).Works?)
    ensures var read := ReadOf(old(api.Now()));
            api.env.Reliable() && read.Some? && !read.value.deleting && read.value.finalizer ==>
              && api.objects == AfterPass(old(api.objects), read.value.spec)
              && (api.env.AtMostEdits(4) ==> ok)
    ensures api.env.Reliable() && api.env.Quiet() && old(api.agent).Some? && !old(api.agent).value.deleting ==>
              ok && api.objects == AfterPass(old(api.objects), old(api.agent).value.spec)
    ensures api.env.Reliable() && api.env.Quiet() && old(api.agent).Some? && old(api.agent).value.deleting ==>
              var was := old(api.agent).value;
              && ok && api.agent == Unheld(was.(finalizer := false, version := was.version + 1))
              && api.objects == if was.finalizer then old(api.objects) - Cleaned() else old(api.objects)
    ensures var read := ReadOf(old(api.Now()));
            api.env.Reliable() && read.Some? && read.value.deleting && read.value.finalizer ==>
              forall o :: o in api.objects <==> o in old(api.objects) && (o == GpuNodeAgent || o == DcgmService)
    ensures var read := ReadOf(old(api.Now()));
            api.env.faults(old(api.clock)).Works? && read.Some? && read.value.deleting && read.value.finalizer ==>
              LeftByFailures(api.objects.Keys, Failures(api.env.faults, old(api.clock), api.clock))
  {
    hide Installs, AfterPass, Cleaned, Tracks, Failures, LeftByFailures;
    ghost var start := api.Now();
    var answer, got := api.Get();
    ghost var read := api.Now();
    NoTime(read);
    NoEvents(|start.log|, read);
    if !answer.Fine? {
      return answer.NotFound?;
    }
    var copy := got.value;
    if copy.deleting {
      ok := ReconcileDeletion(api, copy);
      FailuresSplit(api.env.faults, start.clock, read.clock, api.clock);
      OneFailure(api.env.faults, start.clock);
      return;
    }
    if !copy.finalizer {
      answer, copy := api.UpdateFinalizer(copy, true);
      NoEvents(|start.log|, api.Now());
      if !answer.Fine? {
        return false;
      }
    }
    ghost var held := api.Now();
    if api.env.Quiet() {
      OneEdit(api.env, 0);
    }
    ok := ReconcileInstall(api, copy);
    TracksTransitive(read, held, api.Now());
  }

  lemma NoEvents(n: nat, b: State)
    requires n == |b.log|
    ensures forall spec :: Installs(n, spec, b)
  {}

  /**
   A success declares the generation the resource has at the end of the pass: the one read, plus one for each change
   of the specification since. It is the installed one exactly when nobody changed the specification in between.
   */
  lemma ObservedExactly(a: State, b: State, ok: bool)
    requires Pass(a, b, ok) && Declared(b.log, |a.log|)
    ensures ReadOf(a).Some? && !ReadOf(a).value.deleting && b.agent == Some(b.log[|b.log| - 1].agent)
    ensures var read, now := ReadOf(a).value, b.agent.value;
            && AllStored(b.log, |a.log|, |b.log| - 1, Script(read.spec), read.spec)
            && now.observed == now.generation == read.generation + Changes(a.env.edits, a.clock + 1, b.clock)
            && now.spec == SpecAfter(read.spec, a.env.edits, a.clock + 1, b.clock)
            && (now.observed == read.generation <==> forall t: nat | a.clock < t < b.clock :: !a.env.edits(t).Change?)
            && (now.observed == read.generation ==> now.spec == read.spec)
  {
    hide AllStored, Script;
    var n := |a.log|;
    assert b.log[|b.log| - 1].Marked?;
    if ReadOf(a).Some? && !ReadOf(a).value.deleting {
      assert Proper(n, ReadOf(a).value.spec, b, |b.log| - 1);
      ChangesNone(a.env.edits, a.clock + 1, b.clock, ReadOf(a).value.spec);
    } else {
      assert false;
    }
  }

  lemma PassReplays(a: State, b: State, ok: bool)
    requires Pass(a, b, ok)
    ensures b.objects == Replay(a.objects, b.log, |a.log|)
  {}

  /**
   Whatever failed on the way: when a pass declares success, every object of the script of the resource it read is
   in the cluster, for that resource's specification.
   */
  lemma SuccessInstalled(a: State, b: State, ok: bool, o: Obj)
    requires Pass(a, b, ok) && Declared(b.log, |a.log|)
    ensures ReadOf(a).Some?
    ensures o in Elements(Script(ReadOf(a).value.spec)) ==> o in b.objects && b.objects[o] == ReadOf(a).value.spec
  {
    hide Script, Gone;
    ObservedExactly(a, b, ok);
    var n, spec := |a.log|, ReadOf(a).value.spec;
    if o in Elements(Script(spec)) {
      var k :| 0 <= k < |Script(spec)| && Script(spec)[k] == o;
      assert StoredIn(b.log, n, |b.log| - 1, Script(spec)[k], spec);
      var j :| n <= j < |b.log| - 1 && b.log[j] == Stored(o, spec, true, true);
      NothingBoth(spec);
      forall i | j <= i < |b.log|
        ensures (b.log[i].Stored? ==> b.log[i].spec == spec) && !(b.log[i].Removed? && b.log[i].obj == o)
      {
        assert Proper(n, spec, b, i);
      }
      ReplayKeeps(a.objects, b.log, n, o, spec, j);
      PassReplays(a, b, ok);
    }
  }

  /**
   What any pass, failing ones included, can do to an object: create it or change it only for the specification it
   read, when that needs the object; remove it only when that specification does not, or in a deletion.
   */
  lemma PassFrame(a: State, b: State, ok: bool, o: Obj)
    requires Pass(a, b, ok)
    ensures o in b.objects && !(o in a.objects && a.objects[o] == b.objects[o]) ==>
              && ReadOf(a).Some? && !ReadOf(a).value.deleting && o in Elements(Script(ReadOf(a).value.spec))
              && b.objects[o] == ReadOf(a).value.spec
    ensures o in a.objects && o !in b.objects ==>
              && ReadOf(a).Some?
              && if ReadOf(a).value.deleting then ReadOf(a).value.finalizer && o in Cleaned()
                 else o in Gone(ReadOf(a).value.spec)
  {
    hide Script, Gone, Cleaned;
    PassReplays(a, b, ok);
    ReplayOrigin(a.objects, b.log, |a.log|, o);
    if o in b.objects && !(o in a.objects && a.objects[o] == b.objects[o]) {
      var i :| |a.log| <= i < |b.log| && b.log[i].Stored? && b.log[i].obj == o && b.log[i].spec == b.objects[o];
      PassJustifies(a, b, ok, b.log, i);
    }
    if o in a.objects && o !in b.objects {
      var i :| |a.log| <= i < |b.log| && b.log[i].Removed? && b.log[i].obj == o;
      PassJustifies(a, b, ok, b.log, i);
    }
  }

  /**
   For any resource that holds the finalizer and any change made while the pass runs: the pass succeeds, everything
   is stored for the old specification, and the status claims to have observed the new one.
   */
  method NewerThanInstalled(agent: Agent, objects: map<Obj, Spec>, spec: Spec, when: nat)
      returns (api: Api, ok: bool)
    requires agent.finalizer && !agent.deleting && 1 <= when <= 3
    ensures fresh(api) && ok && api.agent.Some?
    ensures api.agent.value.available == Some(true) && api.agent.value.observed == agent.generation + 1
    ensures api.agent.value.spec == spec && api.objects == AfterPass(objects, agent.spec)
  {
    hide AfterPass, Installs, Script;
    api := new Api(Some(agent), objects, Environment(_ => Works, t => if t == when then Change(spec) else NoEdit));
    ghost var start := api.Now();
    OneEdit(api.env, when);
    ok := Reconcile(api);
    ObservedExactly(start, api.Now(), ok);
    ChangesSplit(api.env.edits, 1, when, api.clock, agent.spec);
    ChangesSplit(api.env.edits, when, when + 1, api.clock, agent.spec);
    ChangesNone(api.env.edits, 1, when, agent.spec);
    ChangesNone(api.env.edits, when + 1, api.clock, spec);
    assert Changes(api.env.edits, when, when) == 0;
  }

  // ------------------------------------------------------------------- whole runs

  /** The moments between the passes of a run, and what each pass reported. */
  ghost predicate IsRun(trace: seq<State>, results: seq<bool>) {
    |trace| == |results| + 1 && forall k | 0 <= k < |results| :: Pass(trace[k], trace[k + 1], results[k])
  }

  /** Any number of passes under any faults and edits: each is a pass from where the previous one stopped. */
  method Run(api: Api, passes: nat) returns (results: seq<bool>, ghost trace: seq<State>)
    modifies api
    ensures |results| == passes && IsRun(trace, results)
    ensures trace[0] == old(api.Now()) && trace[passes] == api.Now()
  {
    hide Pass;
    results, trace := [], [api.Now()];
    for k := 0 to passes
      invariant |results| == k && IsRun(trace, results)
      invariant trace[0] == old(api.Now()) && trace[k] == api.Now()
    {
      var ok := Reconcile(api);
      results, trace := results + [ok], trace + [api.Now()];
    }
  }

  lemma {:induction false} LogGrows(trace: seq<State>, results: seq<bool>, j: nat, k: nat)
    requires IsRun(trace, results) && j <= k < |trace|
    ensures trace[j].log <= trace[k].log
    decreases k
  {
    if j < k {
      LogGrows(trace, results, j, k - 1);
      assert Pass(trace[k - 1], trace[k], results[k - 1]);
    }
  }

  /**
   The event at `i` belongs to the pass from `a` to `b` and is justified by the resource that pass read: a store is of
   the next object of its script, under the finalizer; a removal, too, happens under the finalizer, of an object that
   resource does not need or of one that deletion cleans up; a success ends the pass, after everything of the script
   was stored within it, and declares the generation reached by the changes since.
   */
  ghost predicate Justified(a: State, b: State, log: seq<Event>, i: nat)
    requires i < |log|
  {
    && |a.log| <= i < |b.log| <= |log| && ReadOf(a).Some?
    && var read := ReadOf(a).value;
       match log[i]
       case Stored(_, spec, held, _) =>
         !read.deleting && held && spec == read.spec && Follows(log, |a.log|, i, Script(read.spec), read.spec)
       case Marked(x) =>
         Success(log[i]) ==>
           && !read.deleting && i == |b.log| - 1
           && AllStored(log, |a.log|, i, Script(read.spec), read.spec)
           && x.observed == x.generation == read.generation + Changes(a.env.edits, a.clock + 1, b.clock)
       case Removed(obj, held) =>
         held && if read.deleting then read.finalizer && obj in Cleaned() else obj in Gone(read.spec)
  }

  lemma PassJustifies(a: State, b: State, ok: bool, log: seq<Event>, i: nat)
    requires Pass(a, b, ok) && b.log <= log && |a.log| <= i < |b.log|
    ensures Justified(a, b, log, i)
  {
    hide Script;
    var n := |a.log|;
    assert log[i] == b.log[i];
    if !ReadOf(a).value.deleting {
      var spec := ReadOf(a).value.spec;
      assert Proper(n, spec, b, i);
      if log[i].Stored? {
        CountPrefix(b.log, log, n, i);
      } else if Success(log[i]) {
        ObservedExactly(a, b, ok);
        StoredLater(b.log, log, n, n, i, i, Script(spec), spec);
      }
    }
  }

  /** Every event of a run is justified within the pass it belongs to. */
  lemma {:induction false} RunSafety(trace: seq<State>, results: seq<bool>, log: seq<Event>, i: nat)
    requires IsRun(trace, results) && trace[|results|].log <= log
    requires |trace[0].log| <= i < |trace[|results|].log|
    ensures exists k :: 0 <= k < |results| && Justified(trace[k], trace[k + 1], log, i)
    decreases |results|
  {
    var last := |results| - 1;
    LogGrows(trace, results, 0, |results|);
    if results == [] {
      assert false;
    } else if |trace[last].log| <= i {
      PassJustifies(trace[last], trace[last + 1], results[last], log, i);
    } else {
      LogGrows(trace, results, last, |results|);
      RunSafety(trace[..|results|], results[..last], log, i);
      var k :| 0 <= k < last && Justified(trace[..|results|][k], trace[..|results|][k + 1], log, i);
      assert Justified(trace[k], trace[k + 1], log, i);
    }
  }

  lemma {:induction false} RunReplays(trace: seq<State>, results: seq<bool>)
    requires IsRun(trace, results)
    ensures var start, end := trace[0], trace[|results|];
            start.log <= end.log && end.objects == Replay(start.objects, end.log, |start.log|)
    decreases |results|
  {
    if results != [] {
      var last := |results| - 1;
      RunReplays(trace[..|results|], results[..last]);
      assert Pass(trace[last], trace[|results|], results[last]);
      PassReplays(trace[last], trace[|results|], results[last]);
      ReplaySplit(trace[0].objects, trace[last].log, trace[|results|].log, |trace[0].log|);
    }
  }

  /** The event at `i` is justified within some pass of the run. */
  ghost predicate JustifiedIn(trace: seq<State>, results: seq<bool>, log: seq<Event>, i: nat)
    requires IsRun(trace, results) && i < |log|
  {
    exists k :: 0 <= k < |results| && Justified(trace[k], trace[k + 1], log, i)
  }

  /**
   Over any run, an object that exists or changed since the start was stored as it is by a justified event: under the
   finalizer, for the specification of the resource its pass had read.
   */
  lemma RunCreated(trace: seq<State>, results: seq<bool>, o: Obj)
    requires IsRun(trace, results)
    requires var start, end := trace[0].objects, trace[|results|].objects;
             o in end && !(o in start && start[o] == end[o])
    ensures var log := trace[|results|].log;
            exists i :: && |trace[0].log| <= i < |log| && JustifiedIn(trace, results, log, i)
                        && log[i].Stored? && log[i].obj == o && log[i].held
                        && log[i].spec == trace[|results|].objects[o]
  {
    var start, end := trace[0], trace[|results|];
    RunReplays(trace, results);
    ReplayOrigin(start.objects, end.log, |start.log|, o);
    var i :| && |start.log| <= i < |end.log| && end.log[i].Stored?
             && end.log[i].obj == o && end.log[i].spec == end.objects[o];
    RunSafety(trace, results, end.log, i);
    assert JustifiedIn(trace, results, end.log, i);
  }

  /** Over any run, an object that disappeared was removed by a justified event. */
  lemma RunRemoved(trace: seq<State>, results: seq<bool>, o: Obj)
    requires IsRun(trace, results)
    requires o in trace[0].objects && o !in trace[|results|].objects
    ensures var log := trace[|results|].log;
            exists i :: && |trace[0].log| <= i < |log| && JustifiedIn(trace, results, log, i)
                      && log[i].Removed? && log[i].obj == o
  {
    var start, end := trace[0], trace[|results|];
    RunReplays(trace, results);
    ReplayOrigin(start.objects, end.log, |start.log|, o);
    var i :| |start.log| <= i < |end.log| && end.log[i].Removed? && end.log[i].obj == o;
    RunSafety(trace, results, end.log, i);
    assert JustifiedIn(trace, results, end.log, i);
  }

  /** Pass `k` of a run ended by declaring this generation. */
  ghost predicate DeclaredBy(trace: seq<State>, k: nat, observed: nat)
    requires k + 1 < |trace|
  {
    var log := trace[k + 1].log;
    Declared(log, |trace[k].log|) && log[|log| - 1].agent.observed == observed
  }

  /** A status of success found after a run was there before it, or was declared by one of its passes. */
  lemma {:induction false} RunAccounted(trace: seq<State>, results: seq<bool>)
    requires IsRun(trace, results)
    requires var end := trace[|results|].agent; end.Some? && end.value.available == Some(true)
    ensures var start, end := trace[0].agent, trace[|results|].agent.value;
            || (start.Some? && start.value.available == Some(true) && start.value.observed == end.observed)
            || exists k :: 0 <= k < |results| && DeclaredBy(trace, k, end.observed)
    decreases |results|
  {
    hide Tracks, Installs, Cleans, Settled, Success;
    if results != [] {
      var last := |results| - 1;
      var a, b := trace[last], trace[last + 1];
      assert Pass(a, b, results[last]);
      if Declared(b.log, |a.log|) {
        ObservedExactly(a, b, results[last]);
        assert DeclaredBy(trace, last, b.agent.value.observed);
      } else {
        RunAccounted(trace[..|results|], results[..last]);
        var start := trace[0].agent;
        if !(start.Some? && start.value.available == Some(true) && start.value.observed == b.agent.value.observed) {
          var k :| 0 <= k < last && DeclaredBy(trace[..|results|], k, b.agent.value.observed);
          assert DeclaredBy(trace, k, b.agent.value.observed);
        }
      }
    }
  }

  // ----------------------------------------- what a pass leaves depends on the spec

  /** Whether a specification needs an object, object by object. */
  predicate NeedsObject(s: Spec, o: Obj) {
    match o
    case WebhookService => true
    case WebhookSecret => true
    case WebhookConfiguration => true
    case MasterAgent => s.master
    case NodeAgent => s.node
    case GpuNodeAgent => s.node && s.gpu && s.restricted
    case DcgmService => s.node && s.gpu && s.gpuService
    case OpenServiceAccount => s.open
    case OpenRole => s.open
    case OpenBinding => s.open
    case OpenConfig => s.open
    case OpenDeployment => s.open
  }

  /** Whether an installing pass leaves an object it does not need as it is, instead of removing it. */
  predicate Spares(s: Spec, o: Obj) {
    match o
    case GpuNodeAgent => !s.node
    case DcgmService => true
    case _ => false
  }

  /** The place of an object in the order everything is stored in. */
  function Place(o: Obj): nat {
    match o
    case WebhookService => 0
    case WebhookSecret => 1
    case WebhookConfiguration => 2
    case MasterAgent => 3
    case GpuNodeAgent => 4
    case NodeAgent => 5
    case DcgmService => 6
    case OpenServiceAccount => 7
    case OpenRole => 8
    case OpenBinding => 9
    case OpenConfig => 10
    case OpenDeployment => 11
  }

  lemma WebhookAndMasterObjects(s: Spec, o: Obj)
    ensures o in Elements(WebhookScript() + MasterScript(s)) <==>
            o == WebhookService || o == WebhookSecret || o == WebhookConfiguration || (o == MasterAgent && s.master)
  {}

  lemma NodeObjects(s: Spec, o: Obj)
    ensures o in Elements(NodeScript(s)) <==>
            && s.node
            && (|| o == NodeAgent || (o == GpuNodeAgent && s.gpu && s.restricted)
                || (o == DcgmService && s.gpu && s.gpuService))
  {
    ElementsConcat(DaemonSetScript(s), ServiceScript(s));
  }

  lemma OpenObjects(s: Spec, o: Obj)
    ensures o in Elements(OpenScript(s)) <==>
            && s.open
            && (|| o == OpenServiceAccount || o == OpenRole || o == OpenBinding || o == OpenConfig
                || o == OpenDeployment)
  {
    ElementsConcat(AccessScript(), WorkloadScript());
  }

  lemma ScriptObjects(s: Spec, o: Obj)
    ensures o in Elements(Script(s)) <==> NeedsObject(s, o)
  {
    hide WebhookScript, MasterScript, NodeScript, OpenScript;
    ElementsConcat(WebhookScript() + MasterScript(s), NodeScript(s) + OpenScript(s));
    ElementsConcat(NodeScript(s), OpenScript(s));
    WebhookAndMasterObjects(s, o);
    NodeObjects(s, o);
    OpenObjects(s, o);
  }

  lemma GoneObjects(s: Spec, o: Obj)
    ensures o in Gone(s) <==> !NeedsObject(s, o) && !Spares(s, o)
  {
    ElementsConcat(AccessScript(), WorkloadScript());
  }

  /** The objects have increasing places between two bounds. */
  predicate InOrder(script: seq<Obj>, lo: nat, hi: nat) {
    && (forall k | 0 <= k < |script| :: lo <= Place(script[k]) < hi)
    && (forall k, l | 0 <= k < l < |script| :: Place(script[k]) < Place(script[l]))
  }

  lemma InOrderConcat(a: seq<Obj>, b: seq<Obj>, lo: nat, mid: nat, hi: nat)
    requires lo <= mid <= hi && InOrder(a, lo, mid) && InOrder(b, mid, hi)
    ensures InOrder(a + b, lo, hi)
  {
    hide Place;
  }

  /** The script lists what is needed once each, in the one order. */
  lemma ScriptOrdered(s: Spec)
    ensures InOrder(Script(s), 0, 12)
  {
    hide InOrder;
    PartsOrdered(s);
    InOrderConcat(WebhookScript(), MasterScript(s), 0, 3, 4);
    if s.node {
      InOrderConcat(DaemonSetScript(s), ServiceScript(s), 4, 6, 7);
    }
    if s.open {
      InOrderConcat(AccessScript(), WorkloadScript(), 7, 10, 12);
    }
    InOrderConcat(NodeScript(s), OpenScript(s), 4, 7, 12);
    InOrderConcat(WebhookScript() + MasterScript(s), NodeScript(s) + OpenScript(s), 0, 4, 12);
  }

  lemma PartsOrdered(s: Spec)
    ensures InOrder(WebhookScript(), 0, 3) && InOrder(MasterScript(s), 3, 4)
    ensures InOrder(DaemonSetScript(s), 4, 6) && InOrder(ServiceScript(s), 6, 7)
    ensures InOrder(AccessScript(), 7, 10) && InOrder(WorkloadScript(), 10, 12)
    ensures InOrder([], 4, 7) && InOrder([], 7, 12)
  {
    hide InOrder;
    FrontOrdered(s);
    BackOrdered(s);
  }

  lemma FrontOrdered(s: Spec)
    ensures InOrder(WebhookScript(), 0, 3) && InOrder(MasterScript(s), 3, 4) && InOrder(DaemonSetScript(s), 4, 6)
  {}

  lemma BackOrdered(s: Spec)
    ensures InOrder(ServiceScript(s), 6, 7) && InOrder(AccessScript(), 7, 10) && InOrder(WorkloadScript(), 10, 12)
    ensures InOrder([], 4, 7) && InOrder([], 7, 12)
  {}

  /** The fate of every object in a pass without faults that installs: stored anew, left as it was, or gone. */
  lemma InstalledExactly(objects: map<Obj, Spec>, s: Spec, o: Obj)
    ensures o in AfterPass(objects, s) <==> NeedsObject(s, o) || (Spares(s, o) && o in objects)
    ensures o in AfterPass(objects, s) ==>
              AfterPass(objects, s)[o] == if NeedsObject(s, o) then s else objects[o]
  {
    hide Script, Gone;
    ScriptObjects(s, o);
    GoneObjects(s, o);
  }

  /** The fate of every object in a deletion without faults that finds the finalizer. */
  lemma CleanedExactly(objects: map<Obj, Spec>, o: Obj)
    ensures o in objects - Cleaned() <==> o in objects && (o == GpuNodeAgent || o == DcgmService)
    ensures o in objects - Cleaned() ==> (objects - Cleaned())[o] == objects[o]
  {
    ElementsConcat(AccessScript(), WorkloadScript());
    var webhook, open := Elements(WebhookScript()), Elements(AccessScript() + WorkloadScript());
    assert webhook == {WebhookService, WebhookSecret, WebhookConfiguration};
    assert open == {OpenServiceAccount, OpenRole, OpenBinding, OpenConfig, OpenDeployment};
  }

  /**
   What a pass without faults and edits leaves of every object, in both cases. In a deletion under the finalizer only
   the GPU DaemonSet and the exporter service survive; without the finalizer nothing is touched.
   */
  method CalmPass(api: Api, o: Obj) returns (ok: bool)
    requires api.env.Reliable() && api.env.Quiet() && api.agent.Some?
    modifies api
    ensures ok
    ensures !old(api.agent).value.deleting ==>
              var spec := old(api.agent).value.spec;
              && (o in api.objects <==> NeedsObject(spec, o) || (Spares(spec, o) && o in old(api.objects)))
              && (o in api.objects ==>
                    api.objects[o] == if NeedsObject(spec, o) then spec else old(api.objects)[o])
    ensures old(api.agent).value.deleting && old(api.agent).value.finalizer ==>
              && (o in api.objects <==> o in old(api.objects) && (o == GpuNodeAgent || o == DcgmService))
              && (o in api.objects ==> api.objects[o] == old(api.objects)[o])
    ensures old(api.agent).value.deleting && !old(api.agent).value.finalizer ==> api.objects == old(api.objects)
  {
    hide Pass, AfterPass, Cleaned;
    ghost var was, spec := api.objects, api.agent.value.spec;
    ok := Reconcile(api);
    InstalledExactly(was, spec, o);
    CleanedExactly(was, o);
  }

  /** With the node agent enabled, which agents exist after a pass is decided by the specification alone. */
  lemma AgentsDependOnSpecAlone(objects: map<Obj, Spec>, s: Spec, o: Obj)
    requires s.node && (o == MasterAgent || o == NodeAgent || o == GpuNodeAgent || o == OpenDeployment)
    ensures o in AfterPass(objects, s) <==> NeedsObject(s, o)
    ensures o in AfterPass(objects, s) ==> AfterPass(objects, s)[o] == s
  {
    InstalledExactly(objects, s, o);
  }

  /** With the node agent disabled the GPU DaemonSet is left as it was: there history decides. */
  lemma DisabledNodeAgentKeepsGpu(objects: map<Obj, Spec>, s: Spec)
    requires !s.node
    ensures NodeAgent !in AfterPass(objects, s)
    ensures GpuNodeAgent in AfterPass(objects, s) <==> GpuNodeAgent in objects
    ensures GpuNodeAgent in objects ==> AfterPass(objects, s)[GpuNodeAgent] == objects[GpuNodeAgent]
  {
    hide AfterPass;
    InstalledExactly(objects, s, NodeAgent);
    InstalledExactly(objects, s, GpuNodeAgent);
  }

  /** Repeating a pass changes nothing. */
  lemma PassIdempotent(objects: map<Obj, Spec>, s: Spec)
    ensures AfterPass(AfterPass(objects, s), s) == AfterPass(objects, s)
  {
    NothingBoth(s);
  }

  /**
   A success status is current: when a pass that installs got its first status write through, or nobody edits and its
   last call works, a success found after it is its own. Everything needed by the specification it read is then in
   the cluster, whatever failed on the way.
   */
  lemma SuccessIsCurrent(a: State, b: State, ok: bool, o: Obj)
    requires Pass(a, b, ok) && ReadOf(a).Some? && !ReadOf(a).value.deleting
    requires b.agent.Some? && b.agent.value.available == Some(true)
    requires var first := a.clock + if ReadOf(a).value.finalizer then 1 else 2;
             && first < b.clock
             && (|| (a.env.faults(first) != FailsBefore && a.env.edits(first) == NoEdit)
                 || ((forall t: nat :: a.env.edits(t) == NoEdit) && a.env.faults(b.clock - 1) == Works))
    ensures b.agent.value.observed == b.agent.value.generation
    ensures NeedsObject(ReadOf(a).value.spec, o) ==> o in b.objects && b.objects[o] == ReadOf(a).value.spec
  {
    hide Tracks, Accounted, Installs, Cleans, Script, Settled;
    assert Withdraws(a, b);
    ObservedExactly(a, b, ok);
    SuccessInstalled(a, b, ok, o);
    ScriptObjects(ReadOf(a).value.spec, o);
  }

  /** A pass that declares no success leaves the observed generation as it was. */
  lemma ObservedOnlyBySuccess(a: State, b: State, ok: bool)
    requires Pass(a, b, ok) && ReadOf(a).Some? && b.agent.Some?
    requires forall i | |a.log| <= i < |b.log| :: !(b.log[i].Marked? && b.log[i].agent.available == Some(true))
    ensures b.agent.value.observed == ReadOf(a).value.observed
  {}
}
