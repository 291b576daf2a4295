/**
 Pod admission: which target a pod is injected for, and what repeated admission does to one pod while
 the custom resource and the namespaces change in between.
 */
module Admission {
  import opened Maybe
  import opened Enumeration
  import opened LabelSets
  import opened EnvVars
  import NodeSelection
  import EnvOverlay
  import Injection
  import opened PodPatch

  datatype LabelRequirement = LabelRequirement(key: string, operator: string, values: seq<string>)

  datatype PodSelector = PodSelector(matchLabels: map<string, string>, matchExpressions: seq<LabelRequirement>)

  datatype NamespaceSelector = NamespaceSelector(matchNames: seq<string>, matchLabels: map<string, string>,
                                                 matchExpressions: seq<LabelRequirement>)

  // ------------------------------------------------------------------ selectors

  /** A label requirement as a node-selector requirement; an unknown operator never holds. */
  function AsRequirement(r: LabelRequirement): NodeSelection.Requirement {
    NodeSelection.Requirement(r.key,
                              match r.operator
                              case "In" => NodeSelection.In
                              case "NotIn" => NodeSelection.NotIn
                              case "Exists" => NodeSelection.Exists
                              case "DoesNotExist" => NodeSelection.DoesNotExist
                              case _ => NodeSelection.Unmanaged(r.operator),
                              r.values)
  }

  predicate RequirementHolds(labels: map<string, string>, r: LabelRequirement) {
    NodeSelection.Holds(NodeSelection.Attributes(labels, {}), AsRequirement(r))
  }

  predicate ExpressionsHold(labels: map<string, string>, rs: seq<LabelRequirement>) {
    forall r | r in rs :: RequirementHolds(labels, r)
  }

  predicate PodMatches(labels: map<string, string>, s: PodSelector) {
    Contains(labels, s.matchLabels) && ExpressionsHold(labels, s.matchExpressions)
  }

  predicate NamespaceMatches(name: string, labels: map<string, string>, s: NamespaceSelector) {
    && (s.matchNames == [] || name in s.matchNames)
    && Contains(labels, s.matchLabels)
    && ExpressionsHold(labels, s.matchExpressions)
  }

  method IsOneOf(value: string, values: seq<string>) returns (found: bool)
    ensures found == (value in values)
  {
    for i := 0 to |values|
      invariant value !in values[..i]
    {
      if value == values[i] {
        return true;
      }
    }
    assert values[..|values|] == values;
    found := false;
  }

  method MatchesLabelExpression(labels: map<string, string>, req: LabelRequirement) returns (holds: bool)
    ensures holds == RequirementHolds(labels, req)
  {
    match req.operator {
      case "In" =>
        if req.key !in labels {
          return false;
        }
        holds := IsOneOf(labels[req.key], req.values);
      case "NotIn" =>
        if req.key !in labels {
          return true;
        }
        var listed := IsOneOf(labels[req.key], req.values);
        holds := !listed;
      case "Exists" => holds := req.key in labels;
      case "DoesNotExist" => holds := req.key !in labels;
      case _ => holds := false;
    }
  }

  method MatchesLabelExpressions(labels: map<string, string>, expressions: seq<LabelRequirement>) returns (holds: bool)
    ensures holds == ExpressionsHold(labels, expressions)
  {
    for i := 0 to |expressions|
      invariant forall k | 0 <= k < i :: RequirementHolds(labels, expressions[k])
    {
      var ok := MatchesLabelExpression(labels, expressions[i]);
      if !ok {
        assert expressions[i] in expressions;
        return false;
      }
    }
    holds := true;
  }

  method HasLabels(labels: map<string, string>, selector: map<string, string>) returns (has: bool)
    ensures has == Contains(labels, selector)
  {
    var keys := Iterate(selector.Keys);
    for i := 0 to |keys|
      invariant forall k | 0 <= k < i :: keys[k] in labels && labels[keys[k]] == selector[keys[k]]
    {
      if keys[i] !in labels || labels[keys[i]] != selector[keys[i]] {
        return false;
      }
    }
    has := true;
  }

  method MatchesSelector(labels: map<string, string>, s: PodSelector) returns (matches: bool)
    ensures matches == PodMatches(labels, s)
  {
    matches := HasLabels(labels, s.matchLabels);
    if matches {
      matches := MatchesLabelExpressions(labels, s.matchExpressions);
    }
  }

  method MatchesNamespaceSelector(name: string, labels: map<string, string>, s: NamespaceSelector)
      returns (matches: bool)
    ensures matches == NamespaceMatches(name, labels, s)
  {
    matches := |s.matchNames| == 0;
    if !matches {
      matches := IsOneOf(name, s.matchNames);
    }
    if matches {
      matches := HasLabels(labels, s.matchLabels);
    }
    if matches {
      matches := MatchesLabelExpressions(labels, s.matchExpressions);
    }
  }

  // ------------------------------------------------------------------ one call

  datatype Target = Target(enabled: bool, podSelector: PodSelector, namespaceSelector: NamespaceSelector, patch: Patch)

  datatype Agent = Agent(enabled: bool, targets: seq<Target>, initSecurity: Option<Security>,
                         initResources: Option<string>)

  /** What one call reads: the custom resource, and the answer to each target's namespace lookup. */
  datatype World = World(agent: Option<Agent>, namespaces: nat -> Option<map<string, string>>)

  datatype PodView = PodView(namespace: string, labels: map<string, string>, annotations: map<string, string>,
                             spec: Spec)

  const INJECTED := "whatap-apm-injected"
  const LANGUAGE := "whatap-apm-language"
  const VERSION := "whatap-apm-version"

  predicate Marked(p: PodView) {
    INJECTED in p.annotations && p.annotations[INJECTED] == "true"
  }

  /** Target `i` applies: enabled, pod selected, namespace found and selected. */
  predicate Applies(p: PodView, w: World, i: nat)
    requires w.agent.Some? && i < |w.agent.value.targets|
  {
    var t := w.agent.value.targets[i];
    && t.enabled
    && PodMatches(p.labels, t.podSelector)
    && w.namespaces(i).Some?
    && NamespaceMatches(p.namespace, w.namespaces(i).value, t.namespaceSelector)
  }

  /** The first applying target at or after `from`. */
  function FirstFrom(p: PodView, w: World, from: nat): Option<nat>
    requires w.agent.Some? && from <= |w.agent.value.targets|
    decreases |w.agent.value.targets| - from
  {
    if from == |w.agent.value.targets| then None
    else if Applies(p, w, from) then Some(from)
    else FirstFrom(p, w, from + 1)
  }

  function Choice(p: PodView, w: World): Option<nat> {
    if w.agent.None? || !w.agent.value.enabled then None else FirstFrom(p, w, 0)
  }

  function Inject(p: PodView, w: World, i: nat, op: Injection.Operator): PodView
    requires w.agent.Some? && i < |w.agent.value.targets|
  {
    var a := w.agent.value;
    var t := a.targets[i].patch;
    p.(annotations := p.annotations[INJECTED := "true"][LANGUAGE := t.language][VERSION := Version(t)],
       spec := Patched(p.spec, t, Defaults(a.initSecurity, a.initResources, op)))
  }

  function Admit(p: PodView, w: World, op: Injection.Operator): PodView {
    if Marked(p) then p
    else match Choice(p, w)
      case None => p
      case Some(i) => ChoiceInRange(p, w); Inject(p, w, i, op)
  }

  /** The chosen target is the lowest-index applying one, and there is none exactly when none applies. */
  lemma {:induction false} FirstFromMeaning(p: PodView, w: World, from: nat)
    requires w.agent.Some? && from <= |w.agent.value.targets|
    ensures var n := |w.agent.value.targets|;
            match FirstFrom(p, w, from)
            case None => forall j | from <= j < n :: !Applies(p, w, j)
            case Some(i) => from <= i < n && Applies(p, w, i) && forall j | from <= j < i :: !Applies(p, w, j)
    decreases |w.agent.value.targets| - from
  {
    if from < |w.agent.value.targets| && !Applies(p, w, from) {
      FirstFromMeaning(p, w, from + 1);
    }
  }

  lemma ChoiceInRange(p: PodView, w: World)
    ensures Choice(p, w).Some? ==> w.agent.Some? && Choice(p, w).value < |w.agent.value.targets|
  {
    if w.agent.Some? && w.agent.value.enabled {
      FirstFromMeaning(p, w, 0);
    }
  }

  class Pod {
    const namespace: string
    const labels: map<string, string>
    var annotations: Option<map<string, string>>
    const spec: PodSpec

    constructor (namespace: string, labels: map<string, string>, annotations: Option<map<string, string>>,
                 spec: PodSpec)
      ensures this.spec == spec && View() == PodView(namespace, labels, annotations.GetOr(map[]), spec.View())
    {
      this.namespace, this.labels, this.annotations, this.spec := namespace, labels, annotations, spec;
    }

    function View(): PodView
      reads this, spec
    {
      PodView(namespace, labels, annotations.GetOr(map[]), spec.View())
    }

    method Annotate(t: Patch)
      modifies this
      ensures View() == old(View()).(annotations :=
                old(View()).annotations[INJECTED := "true"][LANGUAGE := t.language][VERSION := Version(t)])
    {
      if annotations.None? {
        annotations := Some(map[]);
      }
      annotations := Some(annotations.value[INJECTED := "true"]);
      annotations := Some(annotations.value[LANGUAGE := t.language]);
      var version := if t.language in t.versions then t.versions[t.language] else "";
      if version == "" {
        version := "latest";
      }
      annotations := Some(annotations.value[VERSION := version]);
    }

    method Default(w: World, op: Injection.Operator)
      modifies this, spec
      ensures View() == Admit(old(View()), w, op)
    {
      if w.agent.None? {
        return;
      }
      var agent := w.agent.value;
      if !agent.enabled {
        return;
      }
      if |agent.targets| == 0 {
        return;
      }
      if annotations.Some? {
        if INJECTED in annotations.value && annotations.value[INJECTED] == "true" {
          return;
        }
      }
      ghost var before := View();
      for i := 0 to |agent.targets|
        invariant View() == before
        invariant FirstFrom(before, w, i) == FirstFrom(before, w, 0)
      {
        var applies := TargetApplies(w, i);
        if applies {
          spec.PatchPodTemplateSpec(agent.targets[i].patch, Defaults(agent.initSecurity, agent.initResources, op));
          Annotate(agent.targets[i].patch);
          return;
        }
      }
    }

    /** The checks of one target, in order, each skipping it. */
    method TargetApplies(w: World, i: nat) returns (applies: bool)
      requires w.agent.Some? && i < |w.agent.value.targets|
      ensures applies == Applies(View(), w, i)
    {
      var target := w.agent.value.targets[i];
      if !target.enabled {
        return false;
      }
      var selected := MatchesSelector(labels, target.podSelector);
      if !selected {
        return false;
      }
      var ns := w.namespaces(i);
      if ns.None? {
        return false;
      }
      applies := MatchesNamespaceSelector(namespace, ns.value, target.namespaceSelector);
    }
  }

  // ------------------------------------------------------- one call, from its inputs

  /** What an expression asks of labels; an unknown operator asks the impossible. */
  predicate Asks(labels: map<string, string>, r: LabelRequirement) {
    match r.operator
    case "In" => r.key in labels && labels[r.key] in r.values
    case "NotIn" => r.key in labels ==> labels[r.key] !in r.values
    case "Exists" => r.key in labels
    case "DoesNotExist" => r.key !in labels
    case _ => false
  }

  /** Labels that have everything a selector names, and meet its expressions. */
  predicate Meets(labels: map<string, string>, wanted: map<string, string>, rs: seq<LabelRequirement>) {
    && (forall k | k in wanted :: k in labels && labels[k] == wanted[k])
    && forall r | r in rs :: Asks(labels, r)
  }

  /** A target is for this pod: switched on, its labels and its namespace selected, the namespace having been found. */
  predicate IsFor(t: Target, p: PodView, found: Option<map<string, string>>) {
    && t.enabled && Meets(p.labels, t.podSelector.matchLabels, t.podSelector.matchExpressions)
    && found.Some? && (t.namespaceSelector.matchNames == [] || p.namespace in t.namespaceSelector.matchNames)
    && Meets(found.value, t.namespaceSelector.matchLabels, t.namespaceSelector.matchExpressions)
  }

  lemma ExpressionsAsk(labels: map<string, string>, wanted: map<string, string>, rs: seq<LabelRequirement>)
    ensures Meets(labels, wanted, rs) <==> Contains(labels, wanted) && ExpressionsHold(labels, rs)
  {
    forall r: LabelRequirement ensures Asks(labels, r) <==> RequirementHolds(labels, r) {}
  }

  /** The chosen target is the first one for this pod, of a resource that is there and switched on. */
  lemma ChoiceExactly(p: PodView, w: World, i: nat)
    ensures Choice(p, w) == Some(i) <==>
            && w.agent.Some? && w.agent.value.enabled && i < |w.agent.value.targets|
            && IsFor(w.agent.value.targets[i], p, w.namespaces(i))
            && forall j | 0 <= j < i :: !IsFor(w.agent.value.targets[j], p, w.namespaces(j))
  {
    hide IsFor;
    if w.agent.Some? && w.agent.value.enabled {
      FirstFromMeaning(p, w, 0);
      forall j | 0 <= j < |w.agent.value.targets|
        ensures Applies(p, w, j) <==> IsFor(w.agent.value.targets[j], p, w.namespaces(j))
      {
        ForExactly(p, w, j);
      }
    }
  }

  lemma ForExactly(p: PodView, w: World, j: nat)
    requires w.agent.Some? && j < |w.agent.value.targets|
    ensures Applies(p, w, j) <==> IsFor(w.agent.value.targets[j], p, w.namespaces(j))
  {
    hide Meets, Contains, ExpressionsHold;
    var t := w.agent.value.targets[j];
    ExpressionsAsk(p.labels, t.podSelector.matchLabels, t.podSelector.matchExpressions);
    if w.namespaces(j).Some? {
      ExpressionsAsk(w.namespaces(j).value, t.namespaceSelector.matchLabels, t.namespaceSelector.matchExpressions);
    }
  }

  /**
   A pod that is marked, or that no target is for, comes back as it was. Otherwise its spec is patched for the first
   target that is for it, its three annotations are set, and nothing else changes.
   */
  lemma AdmitExactly(p: PodView, w: World, op: Injection.Operator, key: string)
    ensures "whatap-apm-injected" in p.annotations && p.annotations["whatap-apm-injected"] == "true" ==>
              Admit(p, w, op) == p
    ensures Choice(p, w).None? ==> Admit(p, w, op) == p
    ensures Choice(p, w).Some? && w.agent.Some?
            && !("whatap-apm-injected" in p.annotations && p.annotations["whatap-apm-injected"] == "true") ==>
              var i, a := Choice(p, w).value, w.agent.value;
              && i < |a.targets|
              && var t, q := a.targets[i].patch, Admit(p, w, op);
                 && q.namespace == p.namespace && q.labels == p.labels
                 && q.spec == Patched(p.spec, t, Defaults(a.initSecurity, a.initResources, op))
                 && Annotation(q, "whatap-apm-injected") == Some("true")
                 && Annotation(q, "whatap-apm-language") == Some(t.language)
                 && Annotation(q, "whatap-apm-version") ==
                    Some(if t.language in t.versions && t.versions[t.language] != "" then t.versions[t.language]
                         else "latest")
                 && (key !in ["whatap-apm-injected", "whatap-apm-language", "whatap-apm-version"] ==>
                       Annotation(q, key) == Annotation(p, key))
  {
    hide Choice, Patched;
    ChoiceInRange(p, w);
    assert INJECTED[12] != LANGUAGE[12] && INJECTED[12] != VERSION[12] && LANGUAGE[12] != VERSION[12];
  }

  function Annotation(p: PodView, key: string): Option<string> {
    if key in p.annotations then Some(p.annotations[key]) else None
  }

  // ----------------------------------------------------------------- whole runs

  /** The pod after each of a sequence of calls, with the world free to change between them. */
  function Runs(p: PodView, worlds: seq<World>, op: Injection.Operator): PodView {
    if worlds == [] then p else Admit(Runs(p, worlds[..|worlds| - 1], op), worlds[|worlds| - 1], op)
  }

  lemma MarkedAfterInject(p: PodView, w: World, i: nat, op: Injection.Operator)
    requires w.agent.Some? && i < |w.agent.value.targets|
    ensures Marked(Inject(p, w, i, op))
  {
    assert INJECTED[12] != LANGUAGE[12] && INJECTED[12] != VERSION[12];
  }

  /**
   For any sequence of calls on a pod that starts unmarked: before the first call with an applying target
   nothing changes, that call patches the original pod for the lowest-index applying target, and every
   later call leaves the result alone.
   */
  lemma {:induction false} AtMostOnce(p: PodView, worlds: seq<World>, op: Injection.Operator, k: nat)
    requires !Marked(p)
    requires k <= |worlds| && forall j | 0 <= j < k :: Choice(p, worlds[j]).None?
    requires k < |worlds| ==> Choice(p, worlds[k]).Some?
    ensures k < |worlds| ==> worlds[k].agent.Some? && Choice(p, worlds[k]).value < |worlds[k].agent.value.targets|
    ensures Runs(p, worlds, op) == if k == |worlds| then p else Inject(p, worlds[k], Choice(p, worlds[k]).value, op)
    ensures k < |worlds| ==> Marked(Runs(p, worlds, op))
  {
    if worlds != [] {
      var front := worlds[..|worlds| - 1];
      if k < |worlds| {
        ChoiceInRange(p, worlds[k]);
        MarkedAfterInject(p, worlds[k], Choice(p, worlds[k]).value, op);
      }
      AtMostOnce(p, front, op, if k <= |front| then k else |front|);
    }
  }

  /** No second patch: any two calls of a run that both change the pod are the same call. */
  lemma {:induction false} ChangesOnce(p: PodView, worlds: seq<World>, op: Injection.Operator, i: nat, j: nat)
    requires i < j < |worlds|
    requires Runs(p, worlds[..i + 1], op) != Runs(p, worlds[..i], op)
    ensures Runs(p, worlds[..j + 1], op) == Runs(p, worlds[..j], op)
  {
    StaysMarked(p, worlds, op, i, j);
    assert worlds[..j + 1][..j] == worlds[..j];
  }

  lemma {:induction false} StaysMarked(p: PodView, worlds: seq<World>, op: Injection.Operator, i: nat, j: nat)
    requires i < j <= |worlds|
    requires Runs(p, worlds[..i + 1], op) != Runs(p, worlds[..i], op)
    ensures Marked(Runs(p, worlds[..j], op))
  {
    if j == i + 1 {
      assert worlds[..j][..i] == worlds[..i];
      var q := Runs(p, worlds[..i], op);
      ChoiceInRange(q, worlds[i]);
      MarkedAfterInject(q, worlds[i], Choice(q, worlds[i]).value, op);
    } else {
      StaysMarked(p, worlds, op, i, j - 1);
      assert worlds[..j][..j - 1] == worlds[..j - 1];
    }
  }

  /** A container's `JAVA_TOOL_OPTIONS` entries after one injection: only Java appends, once and to the first. */
  function ToolOptionsAfter(language: string, was: seq<EnvVar>, user: seq<EnvVar>): seq<EnvVar> {
    if language != "java" then
      if was != [] then was else EnvOverlay.AtMostOne(Entries(user, Injection.JAVA_TOOL_OPTIONS))
    else if was == [] then [Plain(Injection.JAVA_TOOL_OPTIONS, Injection.JAVA_AGENT_OPTION)]
    else [was[0].(value := was[0].value + " " + Injection.JAVA_AGENT_OPTION)] + was[1..]
  }

  lemma ToolOptionsInjected(env: seq<EnvVar>, containerName: string, t: Patch, op: Injection.Operator)
    ensures Entries(Injection.FinalEnv(t.language, env, containerName, t.envs, op), Injection.JAVA_TOOL_OPTIONS) ==
            ToolOptionsAfter(t.language, Entries(env, Injection.JAVA_TOOL_OPTIONS), t.envs)
  {
    if t.language == "java" {
      Injection.ToolOptionsAugmented(env, containerName, t.envs, op);
    } else {
      Injection.ToolOptionsElsewhere(t.language, env, containerName, t.envs, op);
    }
    EntriesNonEmpty(env, Injection.JAVA_TOOL_OPTIONS);
  }

  /**
   After any run on an unmarked pod, a container's `JAVA_TOOL_OPTIONS` entries are the original ones when no target
   ever applied, and otherwise what one injection for the first applying target makes of them: however many calls
   follow, the agent option has been appended at most once.
   */
  lemma ToolOptionsAtMostOnce(p: PodView, worlds: seq<World>, op: Injection.Operator, k: nat, c: nat)
    requires !Marked(p) && c < |p.spec.containers|
    requires k <= |worlds| && forall j | 0 <= j < k :: Choice(p, worlds[j]).None?
    requires k < |worlds| ==> Choice(p, worlds[k]).Some?
    ensures |Runs(p, worlds, op).spec.containers| == |p.spec.containers|
    ensures k < |worlds| ==> worlds[k].agent.Some? && Choice(p, worlds[k]).value < |worlds[k].agent.value.targets|
    ensures var was := Entries(p.spec.containers[c].env, Injection.JAVA_TOOL_OPTIONS);
            Entries(Runs(p, worlds, op).spec.containers[c].env, Injection.JAVA_TOOL_OPTIONS) ==
            if k == |worlds| then was
            else
              var t := worlds[k].agent.value.targets[Choice(p, worlds[k]).value].patch;
              ToolOptionsAfter(t.language, was, t.envs)
  {
    AtMostOnce(p, worlds, op, k);
    if k < |worlds| {
      var container := p.spec.containers[c];
      var t := worlds[k].agent.value.targets[Choice(p, worlds[k]).value].patch;
      ToolOptionsInjected(container.env, container.name, t, op);
    }
  }
}
