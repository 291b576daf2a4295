/**
 The API server as the operator sees it: it may fail any call, before or after the call takes effect, and
 between any two calls the custom resource may be edited, marked for deletion or held by another finalizer.
 */
module ApiServer {
  import opened Maybe

  // ------------------------------------------------------------------- entities

  datatype Obj =
    | WebhookService | WebhookSecret | WebhookConfiguration
    | MasterAgent | NodeAgent | GpuNodeAgent | DcgmService
    | OpenServiceAccount | OpenRole | OpenBinding | OpenConfig | OpenDeployment

  /** The parts of the specification that decide which objects exist. */
  datatype Spec = Spec(master: bool, node: bool, gpu: bool, restricted: bool, gpuService: bool, open: bool,
                       rest: string)

  /**
   The custom resource: `version` changes with every write, `generation` with every change of the
   specification, `others` says that finalizers besides the operator's are present.
   */
  datatype Agent = Agent(version: nat, generation: nat, spec: Spec, finalizer: bool, others: bool, deleting: bool,
                         available: Option<bool>, observed: nat)

  datatype Fault = Works | FailsBefore | FailsAfter

  datatype Edit = NoEdit | Change(spec: Spec) | MarkDeleted | Hold(others: bool)

  /** What the operator's calls did: an object stored or removed (and whether the resource then held the finalizer),
      or a status written (with the resource it left in the store). */
  datatype Event =
    | Stored(obj: Obj, spec: Spec, held: bool, ok: bool)
    | Removed(obj: Obj, held: bool)
    | Marked(agent: Agent)

  /** A status that declares success. */
  predicate Success(e: Event) {
    e.Marked? && e.agent.available == Some(true)
  }

  /** The fault and the edit of every moment. */
  datatype Environment = Environment(faults: nat -> Fault, edits: nat -> Edit) {
    ghost predicate Reliable() {
      forall t: nat :: faults(t) == Works
    }

    ghost predicate Quiet() {
      forall t: nat :: edits(t) == NoEdit
    }

    ghost predicate OnlyEdit(t: nat) {
      forall u: nat | u != t :: edits(u) == NoEdit
    }

    /** In no period does the environment make more edits. */
    ghost predicate AtMostEdits(n: nat) {
      forall from: nat, until: nat :: Edits(edits, from, until) <= n
    }
  }

  /** How many edits the environment makes in a period. */
  function Edits(edits: nat -> Edit, from: nat, until: nat): nat
    decreases until
  {
    if until <= from then 0 else Edits(edits, from, until - 1) + if edits(until - 1).NoEdit? then 0 else 1
  }

  lemma {:induction false} EditsSplit(edits: nat -> Edit, from: nat, mid: nat, until: nat)
    requires from <= mid <= until
    ensures Edits(edits, from, until) == Edits(edits, from, mid) + Edits(edits, mid, until)
    decreases until
  {
    if mid < until {
      EditsSplit(edits, from, mid, until - 1);
    }
  }

  lemma {:induction false} EditsOfOne(edits: nat -> Edit, t: nat, from: nat, until: nat)
    requires forall u: nat | u != t :: edits(u) == NoEdit
    ensures Edits(edits, from, until) <= if from <= t < until then 1 else 0
    decreases until
  {
    if from < until {
      EditsOfOne(edits, t, from, until - 1);
    }
  }

  lemma OneEdit(env: Environment, t: nat)
    requires env.OnlyEdit(t)
    ensures env.AtMostEdits(1)
  {
    forall from: nat, until: nat ensures Edits(env.edits, from, until) <= 1 {
      EditsOfOne(env.edits, t, from, until);
    }
  }

  /** How many calls of a period fail. */
  function Failures(faults: nat -> Fault, from: nat, until: nat): nat
    decreases until
  {
    if until <= from then 0 else Failures(faults, from, until - 1) + if faults(until - 1).Works? then 0 else 1
  }

  lemma {:induction false} FailuresSplit(faults: nat -> Fault, from: nat, mid: nat, until: nat)
    requires from <= mid <= until
    ensures Failures(faults, from, until) == Failures(faults, from, mid) + Failures(faults, mid, until)
    decreases until
  {
    if mid < until {
      FailuresSplit(faults, from, mid, until - 1);
    }
  }

  lemma OneFailure(faults: nat -> Fault, t: nat)
    ensures Failures(faults, t, t + 1) == if faults(t).Works? then 0 else 1
  {
    assert Failures(faults, t, t) == 0;
  }

  /** The server at one moment. */
  datatype State = State(agent: Option<Agent>, objects: map<Obj, Spec>, clock: nat, log: seq<Event>, env: Environment)

  // ------------------------------------------------- what happens between two calls

  /** A resource disappears once it is marked for deletion and nothing holds it any more. */
  function Unheld(x: Agent): Option<Agent> {
    if x.deleting && !x.finalizer && !x.others then None else Some(x)
  }

  function Edited(a: Option<Agent>, e: Edit): Option<Agent> {
    if a.None? then None
    else
      var x := a.value.(version := a.value.version + 1);
      match e
      case NoEdit => a
      case Change(spec) => Some(x.(spec := spec, generation := x.generation + 1))
      case MarkDeleted => Unheld(x.(deleting := true))
      case Hold(others) => if x.deleting && others then a else Unheld(x.(others := others))
  }

  /** The environment never changes the operator's finalizer or the status. */
  predicate Evolves(a: Option<Agent>, b: Option<Agent>) {
    match a
    case None => b == None
    case Some(x) =>
      if b.None? then !x.finalizer
      else
        && b.value.finalizer == x.finalizer && b.value.available == x.available && b.value.observed == x.observed
        && x.version <= b.value.version && x.generation <= b.value.generation
        && (x.version == b.value.version ==> x == b.value)
        && (x.generation == b.value.generation ==> x.spec == b.value.spec)
  }

  lemma EvolvesTransitive(a: Option<Agent>, b: Option<Agent>, c: Option<Agent>)
    requires Evolves(a, b) && Evolves(b, c)
    ensures Evolves(a, c)
  {}

  /** How often the specification was changed in a period. */
  function Changes(edits: nat -> Edit, from: nat, until: nat): nat
    decreases until
  {
    if until <= from then 0 else Changes(edits, from, until - 1) + if edits(until - 1).Change? then 1 else 0
  }

  /** The specification after the changes of a period. */
  function SpecAfter(spec: Spec, edits: nat -> Edit, from: nat, until: nat): Spec
    decreases until
  {
    if until <= from then spec
    else match edits(until - 1)
      case Change(s) => s
      case _ => SpecAfter(spec, edits, from, until - 1)
  }

  lemma {:induction false} ChangesSplit(edits: nat -> Edit, from: nat, mid: nat, until: nat, spec: Spec)
    requires from <= mid <= until
    ensures Changes(edits, from, until) == Changes(edits, from, mid) + Changes(edits, mid, until)
    ensures SpecAfter(spec, edits, from, until) == SpecAfter(SpecAfter(spec, edits, from, mid), edits, mid, until)
    decreases until
  {
    if mid < until {
      ChangesSplit(edits, from, mid, until - 1, spec);
    }
  }

  /** The count is zero exactly when nothing changed, and then the specification is the same. */
  lemma {:induction false} ChangesNone(edits: nat -> Edit, from: nat, until: nat, spec: Spec)
    ensures Changes(edits, from, until) == 0 <==> forall t: nat | from <= t < until :: !edits(t).Change?
    ensures Changes(edits, from, until) == 0 ==> SpecAfter(spec, edits, from, until) == spec
    decreases until
  {
    if from < until {
      ChangesNone(edits, from, until - 1, spec);
    }
  }

  /** The objects after the events of the log from a position on. */
  function Replay(objects: map<Obj, Spec>, log: seq<Event>, from: nat): map<Obj, Spec>
    requires from <= |log|
    decreases |log|
  {
    if |log| == from then objects
    else
      var before := Replay(objects, log[..|log| - 1], from);
      match log[|log| - 1]
      case Stored(obj, spec, _, _) => before[obj := spec]
      case Removed(obj, _) => before - {obj}
      case Marked(_) => before
  }

  lemma {:induction false} ReplaySplit(objects: map<Obj, Spec>, was: seq<Event>, now: seq<Event>, from: nat)
    requires from <= |was| && was <= now
    ensures Replay(objects, now, from) == Replay(Replay(objects, was, from), now, |was|)
    decreases |now|
  {
    if |was| == |now| {
      assert was == now;
    } else {
      ReplaySplit(objects, was, now[..|now| - 1], from);
    }
  }

  /** The log grew, and its new events account for every difference between the objects. */
  ghost predicate Accounts(a: State, b: State) {
    a.log <= b.log && b.objects == Replay(a.objects, b.log, |a.log|)
  }

  /**
   Between two moments time passed, the log accounts for the objects, and the resource, if still there, took exactly
   the changes in between.
   */
  ghost predicate Tracks(a: State, b: State) {
    && b.env == a.env && a.clock <= b.clock && Accounts(a, b)
    && (b.agent.Some? ==>
          && a.agent.Some?
          && b.agent.value.generation == a.agent.value.generation + Changes(a.env.edits, a.clock, b.clock)
          && b.agent.value.spec == SpecAfter(a.agent.value.spec, a.env.edits, a.clock, b.clock))
  }

  lemma TracksTransitive(a: State, b: State, c: State)
    requires Tracks(a, b) && Tracks(b, c)
    ensures Tracks(a, c)
  {
    ReplaySplit(a.objects, b.log, c.log, |a.log|);
    if c.agent.Some? {
      ChangesSplit(a.env.edits, a.clock, b.clock, c.clock, a.agent.value.spec);
    }
  }

  /** A difference at one object: stored so by an event, or removed by one. */
  lemma {:induction false} ReplayOrigin(objects: map<Obj, Spec>, log: seq<Event>, from: nat, o: Obj)
    requires from <= |log|
    ensures var now := Replay(objects, log, from);
            && (o in now && !(o in objects && objects[o] == now[o]) ==>
                  exists i :: from <= i < |log| && log[i].Stored? && log[i].obj == o && log[i].spec == now[o])
            && (o in objects && o !in now ==>
                  exists i :: from <= i < |log| && log[i].Removed? && log[i].obj == o)
    decreases |log|
  {
    if from < |log| {
      var was, last := log[..|log| - 1], |log| - 1;
      ReplayOrigin(objects, was, from, o);
      var before, now := Replay(objects, was, from), Replay(objects, log, from);
      if o in now && !(o in objects && objects[o] == now[o]) && !(log[last].Stored? && log[last].obj == o) {
        var i :| from <= i < |was| && was[i].Stored? && was[i].obj == o && was[i].spec == now[o];
        assert log[i] == was[i];
      }
      if o in objects && o !in now && !(log[last].Removed? && log[last].obj == o) {
        var i :| from <= i < |was| && was[i].Removed? && was[i].obj == o;
        assert log[i] == was[i];
      }
    }
  }

  /** An object stored once, never removed since and only ever stored for one specification, is there for it. */
  lemma {:induction false} ReplayKeeps(objects: map<Obj, Spec>, log: seq<Event>, from: nat, o: Obj, spec: Spec, j: nat)
    requires from <= j < |log| && log[j].Stored? && log[j].obj == o
    requires forall i | j <= i < |log| ::
               (log[i].Stored? ==> log[i].spec == spec) && !(log[i].Removed? && log[i].obj == o)
    ensures o in Replay(objects, log, from) && Replay(objects, log, from)[o] == spec
    decreases |log|
  {
    if j < |log| - 1 {
      ReplayKeeps(objects, log[..|log| - 1], from, o, spec, j);
    }
  }

  // --------------------------------------------------------------- the API server

  datatype Answer = Fine | NotFound | Conflict | Error

  class Api {
    var agent: Option<Agent>
    var objects: map<Obj, Spec>
    var clock: nat
    const env: Environment
    ghost var log: seq<Event>

    constructor (agent: Option<Agent>, objects: map<Obj, Spec>, env: Environment)
      ensures this.agent == agent && this.objects == objects && this.env == env && clock == 0 && log == []
    {
      this.agent, this.objects, this.clock, this.env, this.log := agent, objects, 0, env, [];
    }

    ghost function Now(): State
      reads this
    {
      State(agent, objects, clock, log, env)
    }

    ghost predicate Held()
      reads this
    {
      agent.Some? && agent.value.finalizer
    }

    /** A copy read earlier: older than the stored resource, or the same. */
    ghost predicate Snapshot(copy: Agent)
      reads this
    {
      agent.Some? ==>
        && copy.version <= agent.value.version
        && (copy.version == agent.value.version ==> copy == agent.value)
    }

    /** Time passes: the environment makes its edit, and the next call's fault is known. */
    method Tick() returns (fault: Fault)
      modifies `clock, `agent
      ensures agent == Edited(old(agent), env.edits(old(clock))) && fault == env.faults(old(clock))
      ensures clock == old(clock) + 1
      ensures Evolves(old(agent), agent) && Tracks(old(Now()), Now())
    {
      fault := env.faults(clock);
      agent := Edited(agent, env.edits(clock));
      clock := clock + 1;
      assert Changes(env.edits, old(clock), old(clock)) == 0;
    }

    method Get() returns (answer: Answer, copy: Option<Agent>)
      modifies `clock, `agent
      ensures agent == Edited(old(agent), env.edits(old(clock))) && clock == old(clock) + 1
      ensures Evolves(old(agent), agent) && Tracks(old(Now()), Now())
      ensures copy == if answer.Fine? then agent else None
      ensures answer.Fine? ==> agent.Some?
      ensures answer.NotFound? <==> env.faults(old(clock)).Works? && agent.None?
      ensures env.faults(old(clock)).Works? ==> (answer.Fine? <==> agent.Some?)
    {
      var fault := Tick();
      if fault != Works {
        return Error, None;
      }
      if agent.None? {
        return NotFound, None;
      }
      answer, copy := Fine, agent;
    }

    /** Writes the finalizer; a resource marked for deletion disappears with its last finalizer. */
    method UpdateFinalizer(copy: Agent, finalizer: bool) returns (answer: Answer, now: Agent)
      requires Snapshot(copy)
      modifies `clock, `agent
      ensures clock == old(clock) + 1 && Tracks(old(Now()), Now())
      ensures answer.Fine? ==>
                && now == copy.(finalizer := finalizer, version := copy.version + 1) && agent == Unheld(now)
      ensures agent.Some? ==>
                && old(agent).Some? && agent.value.available == old(agent).value.available
                && agent.value.observed == old(agent).value.observed
      ensures env.faults(old(clock)).Works? && env.edits(old(clock)).NoEdit? && old(agent) == Some(copy) ==>
                answer.Fine?
    {
      now := copy;
      var fault := Tick();
      if fault == FailsBefore {
        return Error, copy;
      }
      if agent.None? {
        return NotFound, copy;
      }
      if agent.value.version != copy.version {
        return Conflict, copy;
      }
      now := copy.(finalizer := finalizer, version := copy.version + 1);
      agent := Unheld(now);
      answer := if fault == Works then Fine else Error;
    }

    /** Writes the status of the resource the copy was read from. */
    method UpdateStatus(copy: Agent, available: bool, observed: nat) returns (answer: Answer, now: Agent)
      requires Snapshot(copy)
      modifies `clock, `agent, `log
      ensures clock == old(clock) + 1 && Tracks(old(Now()), Now()) && Snapshot(now)
      ensures old(Held()) ==> Held()
      ensures now.spec == copy.spec && now.generation == copy.generation && now.finalizer == copy.finalizer
      ensures answer.Conflict? ==> log == old(log) && Evolves(old(agent), agent)
      ensures || (&& log == old(log)
                  && (agent.Some? ==> && old(agent).Some? && agent.value.available == old(agent).value.available
                                      && agent.value.observed == old(agent).value.observed))
              || (&& log == old(log) + [Marked(copy.(version := copy.version + 1, available := Some(available),
                                                     observed := observed))]
                  && agent == Some(log[|old(log)|].agent))
      ensures if answer.Fine? then |log| > |old(log)| && agent == Some(now) else now == copy
      ensures log == old(log) && env.edits(old(clock)).NoEdit? ==> agent == old(agent)
      ensures env.edits(old(clock)).NoEdit? && old(agent) == Some(copy) ==>
                && !answer.Conflict? && (env.faults(old(clock)).Works? ==> answer.Fine?)
                && (!env.faults(old(clock)).FailsBefore? ==> |log| > |old(log)|)
      ensures env.faults(old(clock)).Works? && old(Held()) ==> answer.Fine? || answer.Conflict?
    {
      now := copy;
      var fault := Tick();
      if fault == FailsBefore {
        return Error, copy;
      }
      if agent.None? {
        return NotFound, copy;
      }
      if agent.value.version != copy.version {
        return Conflict, copy;
      }
      var written := copy.(version := copy.version + 1, available := Some(available), observed := observed);
      agent := Some(written);
      log := log + [Marked(written)];
      if fault == FailsAfter {
        return Error, copy;
      }
      answer, now := Fine, written;
    }

    /** Create-or-update of one object for a specification. */
    method Store(obj: Obj, spec: Spec) returns (ok: bool)
      modifies `clock, `agent, `objects, `log
      ensures clock == old(clock) + 1 && agent == Edited(old(agent), env.edits(old(clock)))
      ensures Evolves(old(agent), agent) && Tracks(old(Now()), Now())
      ensures objects == old(objects) || objects == old(objects)[obj := spec]
      ensures (log == old(log) && !ok) || log == old(log) + [Stored(obj, spec, Held(), ok)]
      ensures ok ==> objects == old(objects)[obj := spec]
      ensures env.faults(old(clock)).Works? ==> ok
    {
      var fault := Tick();
      if fault == FailsBefore {
        return false;
      }
      ok := fault == Works;
      objects := objects[obj := spec];
      log := log + [Stored(obj, spec, Held(), ok)];
    }

    /** Deletes one object; an absent one is not an error. */
    method Delete(obj: Obj) returns (ok: bool)
      modifies `clock, `agent, `objects, `log
      ensures clock == old(clock) + 1 && agent == Edited(old(agent), env.edits(old(clock)))
      ensures Evolves(old(agent), agent) && Tracks(old(Now()), Now())
      ensures objects == old(objects) || objects == old(objects) - {obj}
      ensures log == old(log) || log == old(log) + [Removed(obj, Held())]
      ensures env.faults(old(clock)).Works? ==> ok && objects == old(objects) - {obj}
      ensures obj in objects || !ok ==> Failures(env.faults, old(clock), clock) > 0
    {
      OneFailure(env.faults, clock);
      var fault := Tick();
      if fault == FailsBefore {
        return false;
      }
      if obj in objects {
        objects := objects - {obj};
        log := log + [Removed(obj, Held())];
      }
      ok := fault == Works;
    }

    /** The cleanup pattern: delete only what a read finds. */
    method GetAndDelete(obj: Obj) returns (ok: bool)
      modifies `clock, `agent, `objects, `log
      ensures Evolves(old(agent), agent) && Tracks(old(Now()), Now())
      ensures objects == old(objects) || objects == old(objects) - {obj}
      ensures log == old(log) || log == old(log) + [Removed(obj, Held())]
      ensures env.Reliable() ==> ok && objects == old(objects) - {obj}
      ensures env.Quiet() ==> agent == old(agent)
      ensures obj in objects || !ok ==> Failures(env.faults, old(clock), clock) > 0
    {
      OneFailure(env.faults, clock);
      var fault := Tick();
      if fault != Works || obj !in objects {
        return true;
      }
      ghost var between := Now();
      ok := Delete(obj);
      FailuresSplit(env.faults, old(clock), between.clock, clock);
      EvolvesTransitive(old(agent), between.agent, agent);
      TracksTransitive(old(Now()), between, Now());
    }
  }
}
