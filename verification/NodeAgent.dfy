/**
 The node-agent step of a reconcile: one DaemonSet, or a GPU one and a normal one, rendered from the
 custom resource, merged into what is live and stored as a value. The custom resource's affinity and
 pod security context are shared objects that rendering writes through.
 */
module NodeAgent {
  import opened Maybe
  import opened Enumeration
  import opened NodeSelection
  import opened NodePlacement
  import opened ContainerMerge

  const NORMAL := "whatap-node-agent"
  const GPU := "whatap-node-agent-gpu"
  const NAME_LABEL := "name"
  const GPU_LABEL := "whatap-gpu"

  // ------------------------------------------------------------------- entities

  /** A pod security context; an unset field is absent. */
  class SecurityContext {
    var fields: map<string, string>

    constructor (fields: map<string, string>)
      ensures this.fields == fields
    {
      this.fields := fields;
    }
  }

  datatype Body = Body(resources: Resources, pullPolicy: string, rest: string)

  datatype Gpu = Gpu(enabled: bool, nodeSelector: Option<map<string, string>>, affinity: Affinity?,
                     exporter: Body, hostEngine: Option<Body>)

  /** The node-agent part of the custom resource, pointers included. */
  datatype Resource = Resource(podLabels: map<string, string>, nodeSelector: map<string, string>, affinity: Affinity?,
                               security: SecurityContext?, resources: Resources, helper: Body, agent: Body, gpu: Gpu)

  datatype Template = Template(labels: map<string, string>, placement: Placement, security: map<string, string>,
                               containers: seq<Container>, initContainers: seq<Container>)

  datatype DaemonSet = DaemonSet(selector: map<string, string>, template: Template)

  // ------------------------------------------------------------------ rendering

  function Named(name: string, b: Body): Container {
    Container(name, b.resources, "", "", b.pullPolicy, b.rest)
  }

  function Desired(cr: Resource, includeDcgm: bool): seq<Container> {
    [Named(NODE_HELPER, cr.helper), Named(NODE_AGENT, cr.agent)]
    + (if includeDcgm then [Named(DCGM_EXPORTER, cr.gpu.exporter)] else [])
    + (if includeDcgm && cr.gpu.hostEngine.Some? then [Named(DCGM_HOSTENGINE, cr.gpu.hostEngine.value)] else [])
  }

  function Labels(name: string, includeDcgm: bool, podLabels: map<string, string>): map<string, string> {
    map[NAME_LABEL := name] + (if includeDcgm then map[GPU_LABEL := "true"] else map[]) + podLabels
  }

  const DEFAULT_SECURITY :=
    map["runAsUser" := "0", "runAsGroup" := "0", "fsGroup" := "0", "seccompProfile" := "RuntimeDefault"]

  function WithAllDefaults(cs: seq<Container>): seq<Container> {
    seq(|cs|, i requires 0 <= i < |cs| => WithDefaults(cs[i]))
  }

  /** Containers after the step: defaulted when the DaemonSet is new, merged when it is live. */
  predicate ContainersFrom(live: Option<DaemonSet>, desired: seq<Container>, userSet: bool, order: seq<string>,
                           final: seq<Container>) {
    match live
    case None => final == WithAllDefaults(desired)
    case Some(ds) => Merged(ds.template.containers, desired, userSet, order, final)
  }

  /** What the step makes of a DaemonSet, given the placement and the security fields it rendered. */
  predicate Rendered(live: Option<DaemonSet>, cr: Resource, name: string, includeDcgm: bool, placement: Placement,
                     security: map<string, string>, order: seq<string>, ds: DaemonSet) {
    && ds.selector == map[NAME_LABEL := name]
    && ds.template.placement == placement
    && ds.template.security == LiveSecurity(live) + security
    && ds.template.labels ==
       (if live.Some? then live.value.template.labels else map[]) + Labels(name, includeDcgm, cr.podLabels)
    && ContainersFrom(live, Desired(cr, includeDcgm), !ResourcesEmpty(cr.resources), order, ds.template.containers)
    && ds.template.initContainers == (if live.Some? then live.value.template.initContainers else [])
  }

  /** Adds or replaces every entry of `over`, in the arbitrary order of a Go map. */
  method Overlay(base: map<string, string>, over: map<string, string>) returns (result: map<string, string>)
    ensures result == base + over
  {
    result := base;
    var keys := Iterate(over.Keys);
    ghost var done: set<string> := {};
    for i := 0 to |keys|
      invariant done <= over.Keys && forall k | 0 <= k < i :: keys[k] in done
      invariant result == base + map k | k in done :: over[k]
    {
      assert keys[i] in keys;
      result := result[keys[i] := over[keys[i]]];
      done := done + {keys[i]};
    }
    assert done == over.Keys;
  }

  /** Adds the entries of `old` that are missing. */
  method FillMissing(base: map<string, string>, old': map<string, string>) returns (result: map<string, string>)
    ensures result == old' + base
  {
    result := base;
    var keys := Iterate(old'.Keys);
    for i := 0 to |keys|
      invariant forall k :: k in result <==> k in base || k in keys[..i]
      invariant forall k | k in result :: result[k] == if k in base then base[k] else old'[k]
    {
      if keys[i] !in result {
        result := result[keys[i] := old'[keys[i]]];
      }
    }
  }

  method RenderLabels(live: Option<DaemonSet>, name: string, includeDcgm: bool, podLabels: map<string, string>)
      returns (labels: map<string, string>)
    ensures labels ==
            (if live.Some? then live.value.template.labels else map[]) + Labels(name, includeDcgm, podLabels)
  {
    labels := map[NAME_LABEL := name];
    if includeDcgm {
      labels := labels[GPU_LABEL := "true"];
    }
    labels := Overlay(labels, podLabels);
    assert labels == Labels(name, includeDcgm, podLabels);
    if live.Some? {
      labels := FillMissing(labels, live.value.template.labels);
    }
  }

  function PlacementFor(cr: Resource, own: Option<seq<Term>>, nodeSelector: Option<map<string, string>>,
                        terms: seq<Term>): Placement
  {
    Placement(nodeSelector.GetOr(cr.nodeSelector), if terms == [] then own else Some(Distribute(own.GetOr([]), terms)))
  }

  function Written(cr: Resource, own: Option<seq<Term>>, terms: seq<Term>): Option<seq<Term>> {
    if terms == [] || cr.affinity == null then own else Some(Distribute(own.GetOr([]), terms))
  }

  method RenderPlacement(cr: Resource, nodeSelector: Option<map<string, string>>, terms: seq<Term>)
      returns (placement: Placement)
    modifies Reach(cr.affinity)
    ensures placement == PlacementFor(cr, old(RequiredTerms(cr.affinity)), nodeSelector, terms)
    ensures placement.nodeSelector == if nodeSelector.Some? then nodeSelector.value else cr.nodeSelector
    ensures RequiredTerms(cr.affinity) == Written(cr, old(RequiredTerms(cr.affinity)), terms)
    ensures fresh(Reach(cr.affinity) - old(Reach(cr.affinity)))
  {
    var selector := if nodeSelector.Some? then nodeSelector.value else cr.nodeSelector;
    var affinity := cr.affinity;
    if |terms| > 0 {
      affinity := OverrideAffinity(affinity, terms);
    }
    placement := Placement(selector, RequiredTerms(affinity));
  }

  function LiveSecurity(live: Option<DaemonSet>): map<string, string> {
    if live.Some? then live.value.template.security else map[]
  }

  ghost function OwnSecurity(cr: Resource): map<string, string>
    reads cr.security
  {
    if cr.security != null then cr.security.fields else DEFAULT_SECURITY
  }

  method RenderSecurity(live: Option<DaemonSet>, cr: Resource) returns (fields: map<string, string>)
    modifies cr.security
    ensures fields == LiveSecurity(live) + old(OwnSecurity(cr))
    ensures cr.security != null ==> cr.security.fields == fields
  {
    var security := cr.security;
    if security == null {
      security := new SecurityContext(DEFAULT_SECURITY);
    }
    if live.Some? {
      security.fields := FillMissing(security.fields, live.value.template.security);
    }
    fields := security.fields;
  }

  method RenderContainers(live: Option<DaemonSet>, desired: seq<Container>, userSet: bool)
      returns (containers: seq<Container>, order: seq<string>)
    ensures ContainersFrom(live, desired, userSet, order, containers)
  {
    order := [];
    if live.Some? {
      containers, order := MergeContainers(desired, live.value.template.containers, userSet);
    } else {
      containers := WithAllDefaults(desired);
    }
  }

  /** Renders one DaemonSet, writing through the shared affinity and security context. */
  method Render(live: Option<DaemonSet>, cr: Resource, name: string, includeDcgm: bool,
                nodeSelector: Option<map<string, string>>, terms: seq<Term>)
      returns (ds: DaemonSet, order: seq<string>)
    modifies Reach(cr.affinity), cr.security
    ensures Rendered(live, cr, name, includeDcgm,
                     PlacementFor(cr, old(RequiredTerms(cr.affinity)), nodeSelector, terms),
                     old(OwnSecurity(cr)), order, ds)
    ensures RequiredTerms(cr.affinity) == Written(cr, old(RequiredTerms(cr.affinity)), terms)
    ensures fresh(Reach(cr.affinity) - old(Reach(cr.affinity)))
    ensures cr.security != null ==> cr.security.fields == LiveSecurity(live) + old(cr.security.fields)
  {
    var labels := RenderLabels(live, name, includeDcgm, cr.podLabels);
    var placement := RenderPlacement(cr, nodeSelector, terms);
    var security := RenderSecurity(live, cr);
    var containers;
    containers, order := RenderContainers(live, Desired(cr, includeDcgm), !ResourcesEmpty(cr.resources));
    var initContainers := if live.Some? then live.value.template.initContainers else [];
    ds := DaemonSet(map[NAME_LABEL := name], Template(labels, placement, security, containers, initContainers));
  }

  // ------------------------------------------------------------------- the step

  /**
   How an API call ends: done, failed before rendering, failed when storing what was rendered, or stored although
   an error came back.
   */
  datatype Outcome = Done | ReadFailed | WriteFailed | Unacknowledged {
    predicate Stores() {
      Done? || Unacknowledged?
    }
  }

  datatype Api = Api(gpuWrite: Outcome, gpuDelete: bool, normalWrite: Outcome, service: bool)

  /** The cluster after a step, whichever call failed: a failed call ends the step, a failed deletion does not. */
  predicate Outcomes(was: map<string, DaemonSet>, now: map<string, DaemonSet>, split: bool, api: Api, sent: Sent) {
    if split then
      && (sent.gpu.Some? <==> !api.gpuWrite.ReadFailed?)
      && (sent.normal.Some? <==> api.gpuWrite.Done? && !api.normalWrite.ReadFailed?)
      && now == if !api.gpuWrite.Stores() then was
                else if !api.gpuWrite.Done? || !api.normalWrite.Stores() then was[GPU := sent.gpu.value]
                else was[GPU := sent.gpu.value][NORMAL := sent.normal.value]
    else
      var left := if api.gpuDelete then was - {GPU} else was;
      && sent.gpu.None? && (sent.normal.Some? <==> !api.normalWrite.ReadFailed?)
      && now == if api.normalWrite.Stores() then left[NORMAL := sent.normal.value] else left
  }

  /** What the step handed to the API, and the map orders it happened to use. */
  datatype Sent = Sent(gpu: Option<DaemonSet>, normal: Option<DaemonSet>, labelOrder: seq<string>,
                       gpuOrder: seq<string>, normalOrder: seq<string>)

  function Live(daemonSets: map<string, DaemonSet>, name: string): Option<DaemonSet> {
    if name in daemonSets then Some(daemonSets[name]) else None
  }

  /** GPU monitoring is on and restricted by a node selector or by required affinity. */
  predicate Split(cr: Resource)
    reads cr.gpu.affinity
    reads if cr.gpu.affinity != null then {cr.gpu.affinity.nodeAffinity} else {}
    reads if cr.gpu.affinity != null && cr.gpu.affinity.nodeAffinity != null
          then {cr.gpu.affinity.nodeAffinity.required} else {}
  {
    cr.gpu.enabled && (cr.gpu.nodeSelector.GetOr(map[]) != map[] || RequiredTerms(cr.gpu.affinity).Some?)
  }

  /** The placement request a custom resource amounts to when the step starts. */
  function RequestOf(cr: Resource): Request
    reads cr.affinity
    reads if cr.affinity != null then {cr.affinity.nodeAffinity} else {}
    reads if cr.affinity != null && cr.affinity.nodeAffinity != null then {cr.affinity.nodeAffinity.required} else {}
    reads cr.gpu.affinity
    reads if cr.gpu.affinity != null then {cr.gpu.affinity.nodeAffinity} else {}
    reads if cr.gpu.affinity != null && cr.gpu.affinity.nodeAffinity != null
          then {cr.gpu.affinity.nodeAffinity.required} else {}
  {
    Request(cr.nodeSelector, cr.affinity != null, RequiredTerms(cr.affinity),
            cr.gpu.nodeSelector, RequiredTerms(cr.gpu.affinity).GetOr([]))
  }

  /** The request and the split, field by field of the custom resource. */
  lemma RequestExactly(cr: Resource)
    ensures var own, gpu, r := cr.affinity, cr.gpu.affinity, RequestOf(cr);
            var gpuRequires := gpu != null && gpu.nodeAffinity != null && gpu.nodeAffinity.required != null;
            && r.ownSelector == cr.nodeSelector && r.gpuSelector == cr.gpu.nodeSelector
            && (r.shared <==> own != null)
            && r.ownTerms == (if own != null && own.nodeAffinity != null && own.nodeAffinity.required != null
                              then Some(own.nodeAffinity.required.terms) else None)
            && r.gpuTerms == (if gpuRequires then gpu.nodeAffinity.required.terms else [])
            && (Split(cr) <==>
                && cr.gpu.enabled
                && ((cr.gpu.nodeSelector.Some? && cr.gpu.nodeSelector.value != map[]) || gpuRequires))
  {}

  class Cluster {
    var daemonSets: map<string, DaemonSet>

    constructor (daemonSets: map<string, DaemonSet>)
      ensures this.daemonSets == daemonSets
    {
      this.daemonSets := daemonSets;
    }

    method ReconcileNodeAgentDaemonSet(cr: Resource, name: string, includeDcgm: bool,
                                       nodeSelector: Option<map<string, string>>, terms: seq<Term>, outcome: Outcome)
        returns (ok: bool, sent: Option<DaemonSet>, order: seq<string>)
      modifies this, Reach(cr.affinity), cr.security
      ensures ok == outcome.Done? && sent.Some? == !outcome.ReadFailed?
      ensures daemonSets == if outcome.Stores() then old(daemonSets)[name := sent.value] else old(daemonSets)
      ensures sent.Some? ==>
                && Rendered(Live(old(daemonSets), name), cr, name, includeDcgm,
                            PlacementFor(cr, old(RequiredTerms(cr.affinity)), nodeSelector, terms),
                            old(OwnSecurity(cr)), order, sent.value)
                && RequiredTerms(cr.affinity) == Written(cr, old(RequiredTerms(cr.affinity)), terms)
                && (cr.security != null ==>
                      cr.security.fields == LiveSecurity(Live(old(daemonSets), name)) + old(cr.security.fields))
      ensures fresh(Reach(cr.affinity) - old(Reach(cr.affinity)))
    {
      order := [];
      if outcome.ReadFailed? {
        return false, None, [];
      }
      var live := Live(daemonSets, name);
      var ds;
      ds, order := Render(live, cr, name, includeDcgm, nodeSelector, terms);
      if outcome.Stores() {
        daemonSets := daemonSets[name := ds];
      }
      ok, sent := outcome.Done?, Some(ds);
    }

    /** The GPU DaemonSet first, then the normal one, which reads what the first pass wrote. */
    method CreateSplit(cr: Resource, gpuTerms: seq<Term>, api: Api) returns (ok: bool, sent: Sent)
      modifies this, Reach(cr.affinity), cr.security
      ensures var r := Request(cr.nodeSelector, cr.affinity != null, old(RequiredTerms(cr.affinity)),
                               cr.gpu.nodeSelector, gpuTerms);
              && (sent.gpu.Some? ==>
                    Rendered(Live(old(daemonSets), GPU), cr, GPU, true, r.Gpu(), old(OwnSecurity(cr)),
                             sent.gpuOrder, sent.gpu.value))
              && (sent.normal.Some? ==>
                    && Enumerates(sent.labelOrder, r.Labels().Keys)
                    && Rendered(Live(old(daemonSets), NORMAL), cr, NORMAL, false, r.Normal(sent.labelOrder),
                                SecuritySeenByNormal(cr, Live(old(daemonSets), GPU), old(OwnSecurity(cr))),
                                sent.normalOrder, sent.normal.value))
              && Outcomes(old(daemonSets), daemonSets, true, api, sent)
              && (ok <==> api.gpuWrite.Done? && api.normalWrite.Done?)
    {
      sent := Sent(None, None, [], [], []);
      ghost var own := RequiredTerms(cr.affinity);
      var ds, order;
      ok, ds, order := ReconcileNodeAgentDaemonSet(cr, GPU, true, cr.gpu.nodeSelector, gpuTerms, api.gpuWrite);
      sent := sent.(gpu := ds, gpuOrder := order);
      if !ok {
        return;
      }
      assert Live(daemonSets, NORMAL) == Live(old(daemonSets), NORMAL);
      ghost var seen := RequiredTerms(cr.affinity);
      var terms, labelOrder := AntiAffinityTerms(cr.gpu.nodeSelector.GetOr(map[]), gpuTerms);
      ok, ds, order := ReconcileNodeAgentDaemonSet(cr, NORMAL, false, None, terms, api.normalWrite);
      sent := sent.(normal := ds, labelOrder := labelOrder, normalOrder := order);
      ghost var r := Request(cr.nodeSelector, cr.affinity != null, own, cr.gpu.nodeSelector, gpuTerms);
      assert seen == r.Seen() && PlacementFor(cr, seen, None, terms) == r.Normal(labelOrder);
    }

    method CreateSingle(cr: Resource, api: Api) returns (ok: bool, sent: Sent)
      modifies this, Reach(cr.affinity), cr.security
      ensures Outcomes(old(daemonSets), daemonSets, false, api, sent) && (ok <==> api.normalWrite.Done?)
      ensures sent.normal.Some? ==>
                Rendered(Live(old(daemonSets), NORMAL), cr, NORMAL, cr.gpu.enabled,
                         Placement(cr.nodeSelector, old(RequiredTerms(cr.affinity))),
                         old(OwnSecurity(cr)), sent.normalOrder, sent.normal.value)
    {
      if api.gpuDelete {
        daemonSets := daemonSets - {GPU};
      }
      assert Live(daemonSets, NORMAL) == Live(old(daemonSets), NORMAL);
      var ds, order;
      ok, ds, order := ReconcileNodeAgentDaemonSet(cr, NORMAL, cr.gpu.enabled, None, [], api.normalWrite);
      sent := Sent(None, ds, [], [], order);
    }

    method CreateOrUpdateNodeAgent(cr: Resource, api: Api) returns (ok: bool, sent: Sent)
      modifies this, Reach(cr.affinity), cr.security
      ensures old(Split(cr)) ==>
                && (sent.gpu.Some? ==>
                      Rendered(Live(old(daemonSets), GPU), cr, GPU, true, old(RequestOf(cr)).Gpu(),
                               old(OwnSecurity(cr)), sent.gpuOrder, sent.gpu.value))
                && (sent.normal.Some? ==>
                      && Enumerates(sent.labelOrder, old(RequestOf(cr)).Labels().Keys)
                      && Rendered(Live(old(daemonSets), NORMAL), cr, NORMAL, false,
                                  old(RequestOf(cr)).Normal(sent.labelOrder),
                                  SecuritySeenByNormal(cr, Live(old(daemonSets), GPU), old(OwnSecurity(cr))),
                                  sent.normalOrder, sent.normal.value))
      ensures !old(Split(cr)) && sent.normal.Some? ==>
                Rendered(Live(old(daemonSets), NORMAL), cr, NORMAL, cr.gpu.enabled, old(RequestOf(cr)).Own(),
                         old(OwnSecurity(cr)), sent.normalOrder, sent.normal.value)
      ensures Outcomes(old(daemonSets), daemonSets, old(Split(cr)), api, sent)
      ensures old(Reach(cr.affinity)) !! old(Reach(cr.gpu.affinity)) ==> Split(cr) == old(Split(cr))
      ensures old(Split(cr)) <==>
                && cr.gpu.enabled
                && (|| (cr.gpu.nodeSelector.Some? && cr.gpu.nodeSelector.value != map[])
                    || old(RequiredTerms(cr.gpu.affinity)).Some?)
      ensures ok <==> && (old(Split(cr)) ==> api.gpuWrite.Done?) && api.normalWrite.Done?
                      && (cr.gpu.enabled ==> api.service)
      ensures api.gpuWrite.Done? && api.gpuDelete && api.normalWrite.Done? ==>
                var r, own := old(RequestOf(cr)), old(OwnSecurity(cr));
                var gpuAt := if old(Split(cr)) then r.Gpu() else r.Own();
                var normalAt := if old(Split(cr)) then r.Normal(sent.labelOrder) else r.Own();
                var normalSec :=
                  if old(Split(cr)) then SecuritySeenByNormal(cr, Live(old(daemonSets), GPU), own) else own;
                Stepped(old(daemonSets), daemonSets, cr, old(Split(cr)), gpuAt, normalAt, own, normalSec, sent)
    {
      hide Rendered, Enumerates;
      var hasNodeSelector := cr.gpu.nodeSelector.GetOr(map[]) != map[];
      var gpuRequired := RequiredTerms(cr.gpu.affinity);
      if cr.gpu.enabled && (hasNodeSelector || gpuRequired.Some?) {
        ok, sent := CreateSplit(cr, gpuRequired.GetOr([]), api);
      } else {
        ok, sent := CreateSingle(cr, api);
      }
      if ok && cr.gpu.enabled {
        ok := api.service;
      }
    }
  }

  /** The first pass fills the shared security context from the live GPU DaemonSet. */
  function SecuritySeenByNormal(cr: Resource, liveGpu: Option<DaemonSet>, own: map<string, string>)
    : map<string, string>
  {
    if cr.security != null then LiveSecurity(liveGpu) + own else DEFAULT_SECURITY
  }

  // --------------------------------------------------------- where the exporter is

  predicate Sound(live: Option<DaemonSet>) {
    live.Some? ==> UniqueNames(live.value.template.containers)
  }

  predicate HasContainer(ds: DaemonSet, name: string) {
    name in ContainerMerge.Names(ds.template.containers)
  }

  lemma DesiredNames(cr: Resource, includeDcgm: bool)
    ensures UniqueNames(Desired(cr, includeDcgm))
    ensures DCGM_EXPORTER in Names(Desired(cr, includeDcgm)) <==> includeDcgm
    ensures DCGM_HOSTENGINE in Names(Desired(cr, includeDcgm)) <==> includeDcgm && cr.gpu.hostEngine.Some?
    ensures NODE_AGENT in Names(Desired(cr, includeDcgm)) && NODE_HELPER in Names(Desired(cr, includeDcgm))
  {
    var names := Names(Desired(cr, includeDcgm));
    assert names == [NODE_HELPER, NODE_AGENT] + (if includeDcgm then [DCGM_EXPORTER] else [])
                    + (if includeDcgm && cr.gpu.hostEngine.Some? then [DCGM_HOSTENGINE] else []);
    assert names[0] == NODE_HELPER && names[1] == NODE_AGENT;
    if includeDcgm {
      assert names[2] == DCGM_EXPORTER;
      if cr.gpu.hostEngine.Some? {
        assert names[3] == DCGM_HOSTENGINE;
      }
    }
    UniqueIsDistinct(Desired(cr, includeDcgm));
  }

  lemma DefaultsKeepNames(cs: seq<Container>)
    ensures Names(WithAllDefaults(cs)) == Names(cs)
  {}

  /** The names a rendered DaemonSet has: unique, and the operator's ones exactly as desired. */
  lemma RenderedNames(live: Option<DaemonSet>, cr: Resource, name: string, includeDcgm: bool, placement: Placement,
                      security: map<string, string>, order: seq<string>, ds: DaemonSet)
    requires Sound(live) && Rendered(live, cr, name, includeDcgm, placement, security, order, ds)
    ensures UniqueNames(ds.template.containers)
    ensures HasContainer(ds, "dcgm-exporter") <==> includeDcgm
    ensures HasContainer(ds, "dcgm-hostengine") <==> includeDcgm && cr.gpu.hostEngine.Some?
    ensures HasContainer(ds, "whatap-node-agent") && HasContainer(ds, "whatap-node-helper")
  {
    var desired, final := Desired(cr, includeDcgm), ds.template.containers;
    DesiredNames(cr, includeDcgm);
    if live.Some? {
      MergedNames(live.value.template.containers, desired, !ResourcesEmpty(cr.resources), order, final);
    } else {
      DefaultsKeepNames(desired);
      UniqueIsDistinct(final);
      UniqueIsDistinct(desired);
    }
  }

  /** The container the custom resource asks for under an operator name. */
  function BodyOf(cr: Resource, name: string): Option<Body> {
    if name == "whatap-node-helper" then Some(cr.helper)
    else if name == "whatap-node-agent" then Some(cr.agent)
    else if name == "dcgm-exporter" then Some(cr.gpu.exporter)
    else if name == "dcgm-hostengine" then cr.gpu.hostEngine
    else None
  }

  lemma DesiredAt(cr: Resource, includeDcgm: bool, name: string)
    requires name in Names(Desired(cr, includeDcgm))
    ensures BodyOf(cr, name).Some?
    ensures exists i :: && 0 <= i < |Desired(cr, includeDcgm)|
                        && Desired(cr, includeDcgm)[i] == Named(name, BodyOf(cr, name).value)
  {
    var desired := Desired(cr, includeDcgm);
    var i :| 0 <= i < |desired| && desired[i].name == name;
    assert NODE_AGENT[12] != NODE_HELPER[12];
    assert DCGM_EXPORTER[0] != NODE_AGENT[0] && DCGM_HOSTENGINE[0] != NODE_AGENT[0];
    assert DCGM_EXPORTER[5] != DCGM_HOSTENGINE[5];
    assert desired[i] == Named(name, BodyOf(cr, name).value);
  }

  /** The containers of a list with none of the four names the operator gives, in order. */
  function Sidecars(cs: seq<Container>): seq<Container> {
    if cs == [] then []
    else if cs[0].name == "whatap-node-helper" || cs[0].name == "whatap-node-agent"
            || cs[0].name == "dcgm-exporter" || cs[0].name == "dcgm-hostengine" then Sidecars(cs[1..])
    else [cs[0]] + Sidecars(cs[1..])
  }

  lemma {:induction false} SidecarsOnly(cs: seq<Container>, names: set<string>)
    requires forall c | c in cs ::
               c.name in names <==> OfUser(c.name) && c.name != "whatap-node-helper"
    ensures Sidecars(cs) == Only(cs, names)
  {
    if cs != [] {
      SidecarsOnly(cs[1..], names);
    }
  }

  /** Rendering keeps exactly the sidecars users added to the live DaemonSet, unchanged and in order. */
  lemma RenderedKeepsSidecars(live: Option<DaemonSet>, cr: Resource, name: string, includeDcgm: bool,
                              placement: Placement, security: map<string, string>, order: seq<string>, ds: DaemonSet)
    requires Sound(live) && Rendered(live, cr, name, includeDcgm, placement, security, order, ds)
    ensures Sidecars(ds.template.containers) ==
            if live.Some? then Sidecars(live.value.template.containers) else []
  {
    var desired, final := Desired(cr, includeDcgm), ds.template.containers;
    var was := if live.Some? then live.value.template.containers else [];
    var names := set c: Container | c in was + final && OfUser(c.name) && c.name != "whatap-node-helper" :: c.name;
    SidecarsOnly(was, names);
    SidecarsOnly(final, names);
    forall n | n in names ensures n !in Names(desired) {
      DesiredNamed(cr, includeDcgm, n);
    }
    if live.Some? {
      MergedForeign(was, desired, !ResourcesEmpty(cr.resources), order, final, names);
    } else {
      DefaultsKeepNames(desired);
      forall c | c in final ensures c.name !in names {
        NameOf(final, c);
      }
      OnlyNone(final, names);
    }
  }

  lemma DesiredNamed(cr: Resource, includeDcgm: bool, n: string)
    requires OfUser(n) && n != "whatap-node-helper"
    ensures n !in Names(Desired(cr, includeDcgm))
  {
    if n in Names(Desired(cr, includeDcgm)) {
      DesiredAt(cr, includeDcgm, n);
    }
  }

  /** A container's resources: as asked for, but the node agent keeps its live ones unless the user sets some. */
  predicate Resourced(c: Container, cr: Resource, asked: Resources, live: Option<DaemonSet>) {
    if c.name == "whatap-node-agent" && cr.resources.limits == map[] && cr.resources.requests == map[]
       && live.Some? && HasContainer(live.value, c.name) then
      exists e | e in live.value.template.containers :: e.name == c.name && c.resources == e.resources
    else
      c.resources == asked
  }

  /**
   Every container of a rendered DaemonSet: one with an operator name is what the custom resource asks for under
   that name, and any other was live before, exactly as it is now.
   */
  lemma RenderedContent(live: Option<DaemonSet>, cr: Resource, name: string, includeDcgm: bool, placement: Placement,
                        security: map<string, string>, order: seq<string>, ds: DaemonSet, c: Container)
    requires Sound(live) && Rendered(live, cr, name, includeDcgm, placement, security, order, ds)
    requires c in ds.template.containers
    ensures c.name in Names(Desired(cr, includeDcgm)) ==>
              && BodyOf(cr, c.name).Some?
              && c.rest == BodyOf(cr, c.name).value.rest
              && c.terminationPath == "/dev/termination-log" && c.terminationPolicy == "File"
              && c.pullPolicy == (if BodyOf(cr, c.name).value.pullPolicy == "" then "IfNotPresent"
                                  else BodyOf(cr, c.name).value.pullPolicy)
              && Resourced(c, cr, BodyOf(cr, c.name).value.resources, live)
    ensures c.name !in Names(Desired(cr, includeDcgm)) ==> live.Some? && c in live.value.template.containers
  {
    var desired, final := Desired(cr, includeDcgm), ds.template.containers;
    var userSet := !ResourcesEmpty(cr.resources);
    DesiredNames(cr, includeDcgm);
    if live.None? {
      var i :| 0 <= i < |final| && final[i] == c;
      assert c == WithDefaults(desired[i]) && Names(desired)[i] == c.name;
      DesiredAt(cr, includeDcgm, c.name);
      var k :| 0 <= k < |desired| && desired[k] == Named(c.name, BodyOf(cr, c.name).value);
      assert k == i;
    } else if c.name in Names(desired) {
      DesiredAt(cr, includeDcgm, c.name);
      var i :| 0 <= i < |desired| && desired[i] == Named(c.name, BodyOf(cr, c.name).value);
      MergedContent(live.value.template.containers, desired, userSet, order, final, c, i);
    } else {
      MergedNames(live.value.template.containers, desired, userSet, order, final);
      NameOf(final, c);
      MergedForeign(live.value.template.containers, desired, userSet, order, final, {c.name});
      OnlyMembers(final, {c.name}, c);
      OnlyMembers(live.value.template.containers, {c.name}, c);
    }
  }

  /** The DaemonSet the generated scrape target points at. */
  function TargetAgentName(split: bool): string {
    if split then GPU else NORMAL
  }

  /** The state the step leaves when no API call fails. */
  predicate Stepped(was: map<string, DaemonSet>, now: map<string, DaemonSet>, cr: Resource, split: bool,
                    gpuAt: Placement, normalAt: Placement, gpuSec: map<string, string>, normalSec: map<string, string>,
                    sent: Sent) {
    && sent.normal.Some? && (sent.gpu.Some? <==> split)
    && (split ==> Rendered(Live(was, GPU), cr, GPU, true, gpuAt, gpuSec, sent.gpuOrder, sent.gpu.value))
    && Rendered(Live(was, NORMAL), cr, NORMAL, if split then false else cr.gpu.enabled, normalAt, normalSec,
                sent.normalOrder, sent.normal.value)
    && now == (if split then was[GPU := sent.gpu.value] else was - {GPU})[NORMAL := sent.normal.value]
  }

  /**
   From any earlier state with unique container names: after a step without failures the exporter sits in
   exactly one node-agent DaemonSet when GPU monitoring is on and in none when it is off. When the pod labels
   leave `name` alone, that DaemonSet is the one whose pods carry the name the scrape target selects.
   */
  lemma ExactlyOneExporter(was: map<string, DaemonSet>, now: map<string, DaemonSet>, cr: Resource, split: bool,
                           gpuAt: Placement, normalAt: Placement, gpuSec: map<string, string>,
                           normalSec: map<string, string>, sent: Sent, name: string)
    requires Stepped(was, now, cr, split, gpuAt, normalAt, gpuSec, normalSec, sent)
    requires split ==> cr.gpu.enabled
    requires Sound(Live(was, GPU)) && Sound(Live(was, NORMAL))
    requires name in now && (name == GPU || name == NORMAL)
    ensures UniqueNames(now[name].template.containers)
    ensures HasContainer(now[name], "dcgm-exporter") <==>
            cr.gpu.enabled && name == if split then "whatap-node-agent-gpu" else "whatap-node-agent"
    ensures (if split then "whatap-node-agent-gpu" else "whatap-node-agent") in now
    ensures "whatap-node-agent" in now && ("whatap-node-agent-gpu" in now <==> split)
    ensures "name" !in cr.podLabels ==>
              "name" in now[name].template.labels && now[name].template.labels["name"] == name
  {
    RenderedNames(Live(was, NORMAL), cr, NORMAL, if split then false else cr.gpu.enabled, normalAt, normalSec,
                  sent.normalOrder, sent.normal.value);
    if split {
      RenderedNames(Live(was, GPU), cr, GPU, true, gpuAt, gpuSec, sent.gpuOrder, sent.gpu.value);
    }
    assert NAME_LABEL != GPU_LABEL;
  }

  /**
   Every label of a rendered template: the pod labels of the custom resource win, then the operator's own two, then
   what was live. A GPU label once on a template stays there, even when the exporter moves to the other DaemonSet.
   */
  lemma TemplateLabels(live: Option<DaemonSet>, cr: Resource, name: string, includeDcgm: bool, placement: Placement,
                       security: map<string, string>, order: seq<string>, ds: DaemonSet, k: string)
    requires Rendered(live, cr, name, includeDcgm, placement, security, order, ds)
    ensures ds.selector == map["name" := name]
    ensures var now := ds.template.labels;
            if k in cr.podLabels then k in now && now[k] == cr.podLabels[k]
            else if k == "name" then k in now && now[k] == name
            else if k == "whatap-gpu" && includeDcgm then k in now && now[k] == "true"
            else
              var was := if live.Some? then live.value.template.labels else map[];
              if k in was then k in now && now[k] == was[k] else k !in now
  {
    assert "name" != "whatap-gpu";
  }

  lemma GpuLabelNeverRemoved(live: Option<DaemonSet>, cr: Resource, name: string, includeDcgm: bool,
                             placement: Placement, security: map<string, string>, order: seq<string>, ds: DaemonSet)
    requires Rendered(live, cr, name, includeDcgm, placement, security, order, ds)
    ensures "whatap-gpu" in ds.template.labels <==>
            includeDcgm || "whatap-gpu" in cr.podLabels || (live.Some? && "whatap-gpu" in live.value.template.labels)
  {
    TemplateLabels(live, cr, name, includeDcgm, placement, security, order, ds, "whatap-gpu");
    assert "name" != "whatap-gpu";
  }

  /** The security fields of a pod the custom resource says nothing about: the defaults over what was live. */
  lemma DefaultSecurity(live: Option<DaemonSet>, cr: Resource, name: string, includeDcgm: bool, placement: Placement,
                        order: seq<string>, ds: DaemonSet, field: string)
    requires Rendered(live, cr, name, includeDcgm, placement, DEFAULT_SECURITY, order, ds)
    ensures var now := ds.template.security;
            if field == "runAsUser" || field == "runAsGroup" || field == "fsGroup"
            then field in now && now[field] == "0"
            else if field == "seccompProfile" then field in now && now[field] == "RuntimeDefault"
            else
              var was := if live.Some? then live.value.template.security else map[];
              if field in was then field in now && now[field] == was[field] else field !in now
    ensures ds.template.initContainers == if live.Some? then live.value.template.initContainers else []
  {
    hide ContainersFrom, Desired, Labels;
    DefaultFields(field);
  }

  lemma DefaultFields(field: string)
    ensures field in DEFAULT_SECURITY <==>
            field == "runAsUser" || field == "runAsGroup" || field == "fsGroup" || field == "seccompProfile"
    ensures field in DEFAULT_SECURITY ==>
              DEFAULT_SECURITY[field] == if field == "seccompProfile" then "RuntimeDefault" else "0"
  {}

  // --------------------------------------------------------- placement, as submitted

  /** No node is eligible for both DaemonSets as submitted, sharing included, once anything is negated. */
  lemma SubmittedDisjoint(n: Node, r: Request, labelOrder: seq<string>, gpuDs: DaemonSet, normalDs: DaemonSet)
    requires Enumerates(labelOrder, r.Labels().Keys)
    requires gpuDs.template.placement == r.Gpu() && normalDs.template.placement == r.Normal(labelOrder)
    requires || r.Labels() != map[]
             || (|r.gpuTerms| == 1 && exists q | q in r.gpuTerms[0].matchExpressions :: !q.op.Unmanaged?)
    ensures !(Eligible(n, gpuDs.template.placement) && Eligible(n, normalDs.template.placement))
  {
    AntiTermsEmpty(r, labelOrder);
    Disjoint(n, r, labelOrder);
  }

  /** The same for the DaemonSets a step without failures stores. */
  lemma StoredDisjoint(n: Node, was: map<string, DaemonSet>, now: map<string, DaemonSet>, cr: Resource, r: Request,
                       gpuSec: map<string, string>, normalSec: map<string, string>, sent: Sent)
    requires Enumerates(sent.labelOrder, r.Labels().Keys)
    requires Stepped(was, now, cr, true, r.Gpu(), r.Normal(sent.labelOrder), gpuSec, normalSec, sent)
    requires || r.Labels() != map[]
             || (|r.gpuTerms| == 1 && exists q | q in r.gpuTerms[0].matchExpressions :: !q.op.Unmanaged?)
    ensures GPU in now && NORMAL in now
    ensures !(Eligible(n, now[GPU].template.placement) && Eligible(n, now[NORMAL].template.placement))
  {
    SubmittedDisjoint(n, r, sent.labelOrder, now[GPU], now[NORMAL]);
  }

  /**
   Where the two stored DaemonSets may run, for every node, whether or not it meets the node agent's own rules. The GPU
   selector replaces the own one; it is not merged with it.
   */
  lemma StoredEligibility(n: Node, was: map<string, DaemonSet>, now: map<string, DaemonSet>, cr: Resource, r: Request,
                          gpuSec: map<string, string>, normalSec: map<string, string>, sent: Sent)
    requires Enumerates(sent.labelOrder, r.Labels().Keys)
    requires Stepped(was, now, cr, true, r.Gpu(), r.Normal(sent.labelOrder), gpuSec, normalSec, sent)
    ensures "whatap-node-agent-gpu" in now && "whatap-node-agent" in now
    ensures Eligible(n, now["whatap-node-agent-gpu"].template.placement) <==>
            && HasLabels(n, if r.gpuSelector.Some? then r.gpuSelector.value else r.ownSelector)
            && TermsMet(n, r.ownTerms, r.gpuTerms)
    ensures Eligible(n, now["whatap-node-agent"].template.placement) <==>
            && HasLabels(n, r.ownSelector)
            && if Negated(r) then Excluded(n, r) && JoinedTermsMet(n, r)
               else TermsMet(n, r.ownTerms, if r.shared then r.gpuTerms else [])
  {
    GpuEligibleExactly(n, r);
    NormalEligibleExactly(n, r, sent.labelOrder);
  }

  /** Without a split there is one DaemonSet, and it may run exactly where the node agent's own rules say. */
  lemma SingleEligibility(n: Node, was: map<string, DaemonSet>, now: map<string, DaemonSet>, cr: Resource, r: Request,
                          gpuSec: map<string, string>, normalSec: map<string, string>, sent: Sent)
    requires Stepped(was, now, cr, false, r.Own(), r.Own(), gpuSec, normalSec, sent)
    ensures "whatap-node-agent-gpu" !in now && "whatap-node-agent" in now
    ensures Eligible(n, now["whatap-node-agent"].template.placement) <==>
            HasLabels(n, r.ownSelector) && (r.ownTerms.Some? ==> Matches(n, r.ownTerms.value))
  {}

  /**
   When only the second write fails, the new GPU DaemonSet runs beside whatever normal one was there: a node gets
   both exactly when the request selects it and the old placement, which knows nothing of the restriction, admits it.
   */
  lemma SecondWriteFailed(n: Node, was: map<string, DaemonSet>, now: map<string, DaemonSet>, cr: Resource, r: Request,
                          gpuSec: map<string, string>, api: Api, sent: Sent)
    requires api.gpuWrite.Done? && !api.normalWrite.Stores() && Outcomes(was, now, true, api, sent)
    requires Rendered(Live(was, GPU), cr, GPU, true, r.Gpu(), gpuSec, sent.gpuOrder, sent.gpu.value)
    requires Eligible(n, r.Own())
    ensures now == was[GPU := sent.gpu.value] && Live(now, NORMAL) == Live(was, NORMAL)
    ensures NORMAL in now ==>
              (Eligible(n, now[GPU].template.placement) && Eligible(n, now[NORMAL].template.placement) <==>
               && HasLabels(n, r.Labels()) && (r.gpuTerms != [] ==> Reached(n, r))
               && Eligible(n, was[NORMAL].template.placement))
  {
    GpuEligibility(n, r);
  }

  // ------------------------------------------------------------------- repetition

  lemma DefaultsAreMerged(desired: seq<Container>, userSet: bool, order: seq<string>, final: seq<Container>)
    requires UniqueNames(desired)
    requires Merged(WithAllDefaults(desired), desired, userSet, order, final)
    ensures final == WithAllDefaults(desired)
  {
    var cs, wanted := WithAllDefaults(desired), Wanted(desired);
    DefaultsKeepNames(desired);
    WantedNames(desired);
    UniqueIsDistinct(cs);
    UniqueIsDistinct(desired);
    forall c | c in cs ensures c.name in wanted && c == Refresh(wanted[c.name], c, userSet) {
      var i :| 0 <= i < |cs| && cs[i] == c;
      WantedContent(desired, i);
    }
    KeptFixed(cs, wanted, userSet);
    LeftMeaning(cs, wanted);
    assert Left(cs, wanted).Keys == {};
    EnumerationSize(order, {});
  }

  /** Rendering again from the same custom resource changes nothing, whatever the map orders. */
  lemma RenderFixpoint(live: Option<DaemonSet>, cr: Resource, name: string, includeDcgm: bool, placement: Placement,
                       security: map<string, string>, order: seq<string>, ds: DaemonSet,
                       order': seq<string>, ds': DaemonSet)
    requires Sound(live)
    requires Rendered(live, cr, name, includeDcgm, placement, security, order, ds)
    requires Rendered(Some(ds), cr, name, includeDcgm, placement, security, order', ds')
    ensures ds' == ds
  {
    var desired, userSet := Desired(cr, includeDcgm), !ResourcesEmpty(cr.resources);
    DesiredNames(cr, includeDcgm);
    if live.Some? {
      MergeFixpoint(live.value.template.containers, desired, userSet, order, ds.template.containers,
                    order', ds'.template.containers);
    } else {
      DefaultsAreMerged(desired, userSet, order', ds'.template.containers);
    }
  }

  /**
   The shared security context leaks: with one in the custom resource, a field it leaves unset takes the
   value of the live GPU DaemonSet in the normal one, over the normal one's own live value.
   */
  lemma SecurityLeaks(was: map<string, DaemonSet>, now: map<string, DaemonSet>, cr: Resource, gpuAt: Placement,
                      normalAt: Placement, own: map<string, string>, sent: Sent, field: string)
    requires cr.security != null
    requires Stepped(was, now, cr, true, gpuAt, normalAt, own, SecuritySeenByNormal(cr, Live(was, GPU), own), sent)
    ensures var live, liveGpu := LiveSecurity(Live(was, NORMAL)), LiveSecurity(Live(was, GPU));
            && (field in now[NORMAL].template.security <==> field in own || field in liveGpu || field in live)
            && (field in now[NORMAL].template.security ==>
                  now[NORMAL].template.security[field] ==
                  if field in own then own[field] else if field in liveGpu then liveGpu[field] else live[field])
  {}

  /** A failed call ends the step: after a failed GPU write the normal DaemonSet is not touched. */
  lemma FirstWriteFailed(was: map<string, DaemonSet>, now: map<string, DaemonSet>, api: Api, sent: Sent)
    requires Outcomes(was, now, true, api, sent) && !api.gpuWrite.Done?
    ensures sent.normal.None? && Live(now, "whatap-node-agent") == Live(was, "whatap-node-agent")
    ensures now != was ==> api.gpuWrite.Unacknowledged? && now == was["whatap-node-agent-gpu" := sent.gpu.value]
  {
    assert "whatap-node-agent" != "whatap-node-agent-gpu";
  }

  /** A failed deletion of the GPU DaemonSet does not end it: the single one is written beside it. */
  lemma DeletionFailed(was: map<string, DaemonSet>, now: map<string, DaemonSet>, api: Api, sent: Sent)
    requires Outcomes(was, now, false, api, sent) && !api.gpuDelete && api.normalWrite.Done?
    ensures sent.normal.Some? && now == was["whatap-node-agent" := sent.normal.value]
  {}

  /** A whole step repeated with the same custom resource leaves both DaemonSets as they are. */
  lemma StepFixpoint(was: map<string, DaemonSet>, now: map<string, DaemonSet>, again: map<string, DaemonSet>,
                     cr: Resource, split: bool, gpuAt: Placement, normalAt: Placement, own: map<string, string>,
                     sent: Sent, sent': Sent)
    requires Sound(Live(was, GPU)) && Sound(Live(was, NORMAL))
    requires Stepped(was, now, cr, split, gpuAt, normalAt, own,
                     if split then SecuritySeenByNormal(cr, Live(was, GPU), own) else own, sent)
    requires Stepped(now, again, cr, split, gpuAt, normalAt, own,
                     if split then SecuritySeenByNormal(cr, Live(now, GPU), own) else own, sent')
    ensures again == now
  {
    var normalSec := if split then SecuritySeenByNormal(cr, Live(was, GPU), own) else own;
    if split {
      RenderFixpoint(Live(was, GPU), cr, GPU, true, gpuAt, own, sent.gpuOrder, sent.gpu.value,
                     sent'.gpuOrder, sent'.gpu.value);
      assert SecuritySeenByNormal(cr, Live(now, GPU), own) == normalSec;
    }
    RenderFixpoint(Live(was, NORMAL), cr, NORMAL, if split then false else cr.gpu.enabled, normalAt, normalSec,
                   sent.normalOrder, sent.normal.value, sent'.normalOrder, sent'.normal.value);
  }
}
