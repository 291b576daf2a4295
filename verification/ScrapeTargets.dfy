/**
 The generated scrape targets: one ordered tree per enabled target, and the automatic GPU target, which is
 appended unless some target already covers the pods that carry the exporter.
 */
module ScrapeTargets {
  import opened Maybe
  import opened Enumeration
  import opened LabelSets
  import opened OrderedYaml
  import TlsSecrets
  import NodePlacement
  import NodeAgent

  // ------------------------------------------------------------------- entities

  datatype Expression = Expression(key: string, operator: string, values: seq<string>)

  datatype Selector = Selector(matchLabels: map<string, string>, matchExpressions: seq<Expression>)

  datatype NamespaceSelector = NamespaceSelector(matchNames: seq<string>, matchLabels: map<string, string>,
                                                 matchExpressions: seq<Expression>)

  /** A target of the custom resource, or a monitor resource; relabelling rules are already rendered. */
  datatype Target =
    | Inline(targetName: string, kind: string, enabled: bool, inNamespaces: NamespaceSelector, selector: Selector,
             relabel: seq<Value>, endpoints: seq<TlsSecrets.Endpoint>)
    | Monitor(kind: string, namespace: string, name: string, namespaces: Option<NamespaceSelector>, selector: Selector,
              relabel: seq<Value>, endpoints: seq<TlsSecrets.Endpoint>)
    | Static(namespace: string, name: string, relabel: seq<Value>, endpoints: seq<TlsSecrets.Endpoint>)

  const AUTO := "dcgm-exporter-auto"

  // ------------------------------------------------------------------ rendering

  function ExpressionMap(e: Expression): Value {
    AnyMap(map["key" := Text(e.key), "operator" := Text(e.operator), "values" := Texts(e.values)])
  }

  function ExpressionList(es: seq<Expression>): Value {
    List(seq(|es|, i requires 0 <= i < |es| => ExpressionMap(es[i])))
  }

  function SelectorMap(s: Selector): Value {
    AnyMap((if s.matchLabels != map[] then map["matchLabels" := TextMap(s.matchLabels)] else map[])
           + (if s.matchExpressions != [] then map["matchExpressions" := ExpressionList(s.matchExpressions)]
              else map[]))
  }

  function NamespaceMap(s: NamespaceSelector): Value {
    AnyMap(Optional("matchNames", if s.matchNames != [] then Some(Texts(s.matchNames)) else None)
           + Optional("matchLabels", if s.matchLabels != map[] then Some(TextMap(s.matchLabels)) else None)
           + Optional("matchExpressions",
                      if s.matchExpressions != [] then Some(ExpressionList(s.matchExpressions)) else None))
  }

  function EndpointList(es: seq<TlsSecrets.Endpoint>): Value {
    List(TlsSecrets.EndpointMaps(es))
  }

  function Header(name: string, kind: string): map<string, Value> {
    map["targetName" := Text(name), "type" := Text(kind), "enabled" := Opaque("true")]
  }

  function Trailer(relabel: seq<Value>, endpoints: seq<TlsSecrets.Endpoint>): map<string, Value> {
    (if relabel != [] then map["relabelConfigs" := List(relabel)] else map[])
    + (if endpoints != [] then map["endpoints" := EndpointList(endpoints)] else map[])
  }

  function TargetName(t: Target): string {
    if t.Inline? then t.targetName else t.namespace + "/" + t.name
  }

  /** The labels a target selects by; a static endpoint selects by none. */
  function SelectorLabels(t: Target): map<string, string> {
    if t.Static? then map[] else t.selector.matchLabels
  }

  predicate Namespaced(s: NamespaceSelector) {
    s.matchNames != [] || s.matchLabels != map[] || s.matchExpressions != []
  }

  predicate Selective(s: Selector) {
    s.matchLabels != map[] || s.matchExpressions != []
  }

  function TargetEntries(t: Target): map<string, Value> {
    match t
    case Inline(name, kind, _, ns, selector, relabel, endpoints) =>
      Header(name, kind)
      + Optional("namespaceSelector", if Namespaced(ns) then Some(NamespaceMap(ns)) else None)
      + Optional("selector", if Selective(selector) then Some(SelectorMap(selector)) else None)
      + Trailer(relabel, endpoints)
    case Monitor(kind, namespace, name, ns, selector, relabel, endpoints) =>
      Header(namespace + "/" + name, kind)
      + map["namespaceSelector" := if ns.Some? then NamespaceMap(ns.value)
                                   else AnyMap(map["matchNames" := Texts([namespace])])]
      + map["selector" := SelectorMap(selector)]
      + Trailer(relabel, endpoints)
    case Static(namespace, name, relabel, endpoints) =>
      Header(namespace + "/" + name, "StaticEndpoints") + Trailer(relabel, endpoints)
  }

  function TargetMap(t: Target): Value {
    AnyMap(TargetEntries(t))
  }

  /** A disabled inline target is skipped; monitors and static endpoints are always on. */
  predicate Active(t: Target) {
    t.Inline? ==> t.enabled
  }

  function ActiveOnes(ts: seq<Target>): seq<Target> {
    if ts == [] then []
    else ActiveOnes(ts[..|ts| - 1]) + if Active(ts[|ts| - 1]) then [ts[|ts| - 1]] else []
  }

  // ------------------------------------------------------- duplicate detection

  predicate IdentityKey(k: string) {
    || k == "name" || k == "whatap-gpu" || k == "app"
    || k == "app.kubernetes.io/name" || k == "app.kubernetes.io/instance"
  }

  /** The labels select the agent's pods, by at least one identifying key. */
  predicate Covers(labels: map<string, string>, agentLabels: map<string, string>) {
    && labels != map[]
    && (forall k | k in labels :: k in agentLabels && agentLabels[k] == labels[k])
    && exists k | k in labels :: IdentityKey(k)
  }

  /** Visits the labels in any order and stops at the first mismatch. */
  method CheckDuplicate(matchLabels: map<string, string>, agentLabels: map<string, string>) returns (duplicate: bool)
    ensures duplicate == Covers(matchLabels, agentLabels)
  {
    if |matchLabels| == 0 {
      return false;
    }
    var matching, hasIdentityKey := true, false;
    var keys := Iterate(matchLabels.Keys);
    for i := 0 to |keys|
      invariant matching
      invariant forall j | 0 <= j < i :: keys[j] in agentLabels && agentLabels[keys[j]] == matchLabels[keys[j]]
      invariant hasIdentityKey <==> exists j | 0 <= j < i :: IdentityKey(keys[j])
    {
      var k := keys[i];
      if k !in agentLabels || agentLabels[k] != matchLabels[k] {
        matching := false;
        break;
      }
      if IdentityKey(k) {
        hasIdentityKey := true;
      }
    }
    duplicate := matching && hasIdentityKey;
    if hasIdentityKey && matching {
      var j :| 0 <= j < |keys| && IdentityKey(keys[j]);
      assert keys[j] in matchLabels;
    }
  }

  /** The value under a key: of a map, or of the last pair of an ordered list with that key. */
  function Field(v: Value, key: string): Option<Value> {
    match v
    case AnyMap(m) => if key in m then Some(m[key]) else None
    case Ordered(pairs) => LastPair(pairs, key)
    case _ => None
  }

  function LastPair(pairs: seq<Pair>, key: string): Option<Value> {
    if pairs == [] then None
    else if pairs[|pairs| - 1].key == key then Some(pairs[|pairs| - 1].value)
    else LastPair(pairs[..|pairs| - 1], key)
  }

  function TextPairs(pairs: seq<Pair>): map<string, string> {
    if pairs == [] then map[]
    else
      var front, last := TextPairs(pairs[..|pairs| - 1]), pairs[|pairs| - 1];
      if last.value.Text? then front[last.key := last.value.s] else front
  }

  /** The labels read from the `matchLabels` of an unordered, respectively ordered, selector. */
  function LabelsOfMap(v: Value): map<string, string> {
    match v
    case TextMap(m) => m
    case AnyMap(m) => map k | k in m && m[k].Text? :: m[k].s
    case _ => map[]
  }

  function LabelsOfOrdered(v: Value): map<string, string> {
    match v
    case TextMap(m) => m
    case Ordered(pairs) => TextPairs(pairs)
    case _ => map[]
  }

  predicate SelectorCovers(sel: Value, agentLabels: map<string, string>) {
    match sel
    case AnyMap(m) => "matchLabels" in m && Covers(LabelsOfMap(m["matchLabels"]), agentLabels)
    case Ordered(pairs) =>
      exists i :: && 0 <= i < |pairs| && pairs[i].key == "matchLabels"
                  && Covers(LabelsOfOrdered(pairs[i].value), agentLabels)
    case _ => false
  }

  /** The verdict on one target, in either representation. */
  predicate Duplicate(target: Value, agentLabels: map<string, string>) {
    || Field(target, "targetName") == Some(Text(AUTO))
    || (Field(target, "selector").Some? && SelectorCovers(Field(target, "selector").value, agentLabels))
  }

  method FindField(v: Value, key: string) returns (found: Option<Value>)
    ensures found == Field(v, key)
  {
    found := None;
    match v {
      case AnyMap(m) =>
        if key in m {
          found := Some(m[key]);
        }
      case Ordered(pairs) =>
        for i := 0 to |pairs|
          invariant found == LastPair(pairs[..i], key)
        {
          assert pairs[..i + 1][..i] == pairs[..i];
          if pairs[i].key == key {
            found := Some(pairs[i].value);
          }
        }
        assert pairs[..|pairs|] == pairs;
      case _ =>
    }
  }

  method ReadPairs(pairs: seq<Pair>) returns (labels: map<string, string>)
    ensures labels == TextPairs(pairs)
  {
    labels := map[];
    for i := 0 to |pairs|
      invariant labels == TextPairs(pairs[..i])
    {
      assert pairs[..i + 1][..i] == pairs[..i];
      if pairs[i].value.Text? {
        labels := labels[pairs[i].key := pairs[i].value.s];
      }
    }
    assert pairs[..|pairs|] == pairs;
  }

  method SelectorIsDuplicate(sel: Value, agentLabels: map<string, string>) returns (duplicate: bool)
    ensures duplicate == SelectorCovers(sel, agentLabels)
  {
    duplicate := false;
    match sel {
      case AnyMap(m) =>
        if "matchLabels" in m {
          duplicate := CheckDuplicate(LabelsOfMap(m["matchLabels"]), agentLabels);
        }
      case Ordered(pairs) =>
        for i := 0 to |pairs|
          invariant duplicate <==> exists k :: 0 <= k < i && pairs[k].key == "matchLabels"
                                               && Covers(LabelsOfOrdered(pairs[k].value), agentLabels)
        {
          if pairs[i].key != "matchLabels" {
            continue;
          }
          var converted := map[];
          match pairs[i].value {
            case TextMap(m) => converted := m;
            case Ordered(ml) => converted := ReadPairs(ml);
            case _ =>
          }
          var covers := CheckDuplicate(converted, agentLabels);
          if covers {
            duplicate := true;
          }
        }
      case _ =>
    }
  }

  method DetectDuplicate(targets: seq<Value>, agentLabels: map<string, string>) returns (isDuplicate: bool)
    ensures isDuplicate <==> exists i :: 0 <= i < |targets| && Duplicate(targets[i], agentLabels)
  {
    isDuplicate := false;
    for i := 0 to |targets|
      invariant !isDuplicate && forall k | 0 <= k < i :: !Duplicate(targets[k], agentLabels)
    {
      var name := FindField(targets[i], "targetName");
      if name == Some(Text(AUTO)) {
        return true;
      }
      var selector := FindField(targets[i], "selector");
      if selector.None? {
        continue;
      }
      var covers := SelectorIsDuplicate(selector.value, agentLabels);
      if covers {
        return true;
      }
    }
  }

  // ------------------------------------- the verdict survives canonical ordering

  lemma {:induction false} LastPairMeaning(pairs: seq<Pair>, i: nat)
    requires KeysIncreasing(pairs) && i < |pairs|
    ensures LastPair(pairs, pairs[i].key) == Some(pairs[i].value)
  {
    if i < |pairs| - 1 {
      LessTotal(pairs[i].key, pairs[|pairs| - 1].key);
      LastPairMeaning(pairs[..|pairs| - 1], i);
    }
  }

  lemma {:induction false} LastPairAbsent(pairs: seq<Pair>, key: string)
    requires forall i | 0 <= i < |pairs| :: pairs[i].key != key
    ensures LastPair(pairs, key) == None
  {
    if pairs != [] {
      LastPairAbsent(pairs[..|pairs| - 1], key);
    }
  }

  /** A field of a map and the same field of its canonical form. */
  lemma CanonicalField(m: map<string, Value>, r: Value, key: string)
    requires Canonical(AnyMap(m), r)
    ensures Field(r, key).Some? <==> key in m
    ensures key in m ==> Canonical(m[key], Field(r, key).value)
  {
    if key in m {
      var i :| 0 <= i < |r.pairs| && r.pairs[i].key == key;
      LastPairMeaning(r.pairs, i);
    } else {
      assert forall i | 0 <= i < |r.pairs| :: r.pairs[i] in r.pairs;
      LastPairAbsent(r.pairs, key);
    }
  }

  lemma TextPairsMeaning(pairs: seq<Pair>, labels: map<string, string>)
    requires forall p | p in pairs && p.value.Text? :: p.key in labels && labels[p.key] == p.value.s
    requires forall k | k in labels :: Pair(k, Text(labels[k])) in pairs
    ensures TextPairs(pairs) == labels
  {
    TextPairsEntries(pairs);
    forall k | k in TextPairs(pairs) ensures k in labels && labels[k] == TextPairs(pairs)[k] {
      assert Pair(k, Text(TextPairs(pairs)[k])) in pairs;
    }
    assert TextPairs(pairs).Keys == labels.Keys by {
      forall k | k in labels ensures k in TextPairs(pairs) {
        assert Pair(k, Text(labels[k])) in pairs;
      }
    }
  }

  lemma {:induction false} TextPairsEntries(pairs: seq<Pair>)
    ensures forall k | k in TextPairs(pairs) :: Pair(k, Text(TextPairs(pairs)[k])) in pairs
    ensures forall p | p in pairs && p.value.Text? :: p.key in TextPairs(pairs)
  {
    if pairs != [] {
      var front, last := pairs[..|pairs| - 1], pairs[|pairs| - 1];
      TextPairsEntries(front);
      assert forall p :: p in pairs <==> p in front || p == last;
    }
  }

  lemma GeneralLabels(m: map<string, Value>, r: Value)
    requires Canonical(AnyMap(m), r)
    ensures TextPairs(r.pairs) == LabelsOfMap(AnyMap(m))
  {
    var labels := LabelsOfMap(AnyMap(m));
    forall p | p in r.pairs && p.value.Text? ensures p.key in labels && labels[p.key] == p.value.s {
      var i :| 0 <= i < |r.pairs| && r.pairs[i] == p;
      SameText(m[p.key], r.pairs[i].value);
    }
    forall k | k in labels ensures Pair(k, Text(labels[k])) in r.pairs {
      var i :| 0 <= i < |r.pairs| && r.pairs[i].key == k;
      SameText(m[k], r.pairs[i].value);
    }
    TextPairsMeaning(r.pairs, labels);
  }

  lemma PlainLabels(m: map<string, string>, r: Value)
    requires Canonical(TextMap(m), r)
    ensures TextPairs(r.pairs) == m
  {
    forall k | k in m ensures Pair(k, Text(m[k])) in r.pairs {
      var i :| 0 <= i < |r.pairs| && r.pairs[i].key == k;
      assert r.pairs[i] in r.pairs;
    }
    TextPairsMeaning(r.pairs, m);
  }

  lemma NoLabels(m: map<string, seq<string>>, r: Value)
    requires Canonical(TextsMap(m), r)
    ensures TextPairs(r.pairs) == map[]
  {
    TextPairsMeaning(r.pairs, map[]);
  }

  /** Labels read from a canonical form are the ones read from the map. */
  lemma CanonicalLabels(v: Value, r: Value)
    requires Raw(v) && Canonical(v, r)
    ensures LabelsOfOrdered(r) == LabelsOfMap(v)
  {
    match v {
      case TextMap(m) => PlainLabels(m, r);
      case AnyMap(m) => GeneralLabels(m, r);
      case TextsMap(m) => NoLabels(m, r);
      case _ =>
    }
  }

  lemma SameText(v: Value, r: Value)
    requires Canonical(v, r)
    ensures r.Text? <==> v.Text?
    ensures r.Text? ==> r == v
  {}

  /** Some pair with this key holds covering labels exactly when the map's value under the key does. */
  lemma CanonicalCover(m: map<string, Value>, r: Value, key: string, agentLabels: map<string, string>)
    requires Canonical(AnyMap(m), r)
    requires key in m ==> Raw(m[key])
    ensures (exists i :: && 0 <= i < |r.pairs| && r.pairs[i].key == key
                         && Covers(LabelsOfOrdered(r.pairs[i].value), agentLabels))
            <==> key in m && Covers(LabelsOfMap(m[key]), agentLabels)
  {
    hide Covers, LabelsOfOrdered, LabelsOfMap, Raw;
    forall i | 0 <= i < |r.pairs| && r.pairs[i].key == key
      ensures key in m && LabelsOfOrdered(r.pairs[i].value) == LabelsOfMap(m[key])
    {
      assert r.pairs[i] in r.pairs;
      CanonicalLabels(m[key], r.pairs[i].value);
    }
    if key in m {
      var i :| 0 <= i < |r.pairs| && r.pairs[i].key == key;
    }
  }

  lemma NoCover(pairs: seq<Pair>, agentLabels: map<string, string>)
    requires forall p | p in pairs :: p.value.Text? || p.value.Texts?
    ensures !SelectorCovers(Ordered(pairs), agentLabels)
  {
    forall i | 0 <= i < |pairs| ensures !Covers(LabelsOfOrdered(pairs[i].value), agentLabels) {
      assert pairs[i] in pairs;
    }
  }

  lemma CanonicalSelector(sel: Value, r: Value, agentLabels: map<string, string>)
    requires Raw(sel) && Canonical(sel, r)
    ensures SelectorCovers(r, agentLabels) <==> SelectorCovers(sel, agentLabels)
  {
    hide Covers, LabelsOfOrdered, LabelsOfMap;
    match sel {
      case AnyMap(m) => CanonicalCover(m, r, "matchLabels", agentLabels);
      case TextMap(m) => NoCover(r.pairs, agentLabels);
      case TextsMap(m) => NoCover(r.pairs, agentLabels);
      case _ =>
    }
  }

  /** The verdict on an ordered target is the verdict on the target map it came from. */
  lemma VerdictSurvivesOrdering(m: map<string, Value>, r: Value, agentLabels: map<string, string>)
    requires Canonical(AnyMap(m), r)
    requires "selector" in m ==> Raw(m["selector"])
    ensures Duplicate(r, agentLabels) <==> Duplicate(AnyMap(m), agentLabels)
  {
    CanonicalField(m, r, "targetName");
    CanonicalField(m, r, "selector");
    if "targetName" in m {
      SameText(m["targetName"], Field(r, "targetName").value);
    }
    if "selector" in m {
      CanonicalSelector(m["selector"], Field(r, "selector").value, agentLabels);
    }
  }

  /** The verdict in terms of the target itself. */
  predicate CoversAgent(t: Target, agentLabels: map<string, string>) {
    TargetName(t) == AUTO || Covers(SelectorLabels(t), agentLabels)
  }

  lemma SelectorMapVerdict(s: Selector, agentLabels: map<string, string>)
    ensures Raw(SelectorMap(s))
    ensures SelectorCovers(SelectorMap(s), agentLabels) <==> Covers(s.matchLabels, agentLabels)
  {
    assert "matchLabels" != "matchExpressions";
    var es := s.matchExpressions;
    assert Raw(ExpressionList(es)) by {
      forall i | 0 <= i < |es| ensures Raw(ExpressionMap(es[i])) {}
      var l := ExpressionList(es);
      assert forall i | 0 <= i < |l.items| :: l.items[i] == ExpressionMap(es[i]);
    }
  }

  lemma TrailerFields(relabel: seq<Value>, endpoints: seq<TlsSecrets.Endpoint>)
    ensures "endpoints" in Trailer(relabel, endpoints) <==> endpoints != []
    ensures endpoints != [] ==> Trailer(relabel, endpoints)["endpoints"] == EndpointList(endpoints)
    ensures "targetName" !in Trailer(relabel, endpoints) && "selector" !in Trailer(relabel, endpoints)
  {}

  lemma HeaderFields(name: string, kind: string)
    ensures "targetName" in Header(name, kind) && Header(name, kind)["targetName"] == Text(name)
    ensures "selector" !in Header(name, kind) && "namespaceSelector" !in Header(name, kind)
    ensures "endpoints" !in Header(name, kind)
  {}

  lemma TargetFields(t: Target)
    ensures "targetName" in TargetEntries(t) && TargetEntries(t)["targetName"] == Text(TargetName(t))
    ensures t.Static? ==> "selector" !in TargetEntries(t)
    ensures "selector" in TargetEntries(t) ==> !t.Static? && TargetEntries(t)["selector"] == SelectorMap(t.selector)
    ensures "selector" !in TargetEntries(t) ==> SelectorLabels(t) == map[]
    ensures "endpoints" in TargetEntries(t) <==> t.endpoints != []
    ensures t.endpoints != [] ==> TargetEntries(t)["endpoints"] == EndpointList(t.endpoints)
  {
    hide Header, Trailer, SelectorMap, NamespaceMap;
    HeaderFields(TargetName(t), if t.Static? then "StaticEndpoints" else t.kind);
    TrailerFields(t.relabel, t.endpoints);
  }

  lemma TargetVerdict(t: Target, r: Value, agentLabels: map<string, string>)
    requires Canonical(TargetMap(t), r)
    ensures Duplicate(r, agentLabels) <==> CoversAgent(t, agentLabels)
  {
    var m := TargetEntries(t);
    TargetFields(t);
    if "selector" in m {
      SelectorMapVerdict(t.selector, agentLabels);
    }
    VerdictSurvivesOrdering(m, r, agentLabels);
    NameVerdict(t, m, agentLabels);
  }

  lemma NameVerdict(t: Target, m: map<string, Value>, agentLabels: map<string, string>)
    requires "targetName" in m && m["targetName"] == Text(TargetName(t))
    requires "selector" in m ==>
               (SelectorCovers(m["selector"], agentLabels) <==> Covers(SelectorLabels(t), agentLabels))
    requires "selector" !in m ==> SelectorLabels(t) == map[]
    ensures Duplicate(AnyMap(m), agentLabels) <==> CoversAgent(t, agentLabels)
  {}

  // ----------------------------------------------------------------- generation

  /** Scrape settings that do not decide anything: the agent's namespace, the interval and relabelling rules. */
  datatype Settings = Settings(namespace: string, interval: string, relabel: seq<Value>, metricRelabel: seq<Value>)

  datatype GpuScrape = GpuScrape(enabled: bool, split: bool, podLabels: map<string, string>, settings: Settings)

  /** What the generator reads from the custom resource. */
  function ScrapeOf(cr: NodeAgent.Resource, settings: Settings): GpuScrape
    reads cr.gpu.affinity
    reads if cr.gpu.affinity != null then {cr.gpu.affinity.nodeAffinity} else {}
    reads if cr.gpu.affinity != null && cr.gpu.affinity.nodeAffinity != null
          then {cr.gpu.affinity.nodeAffinity.required} else {}
  {
    var hasNodeSelector := cr.gpu.nodeSelector.GetOr(map[]) != map[];
    var hasAffinity := NodePlacement.RequiredTerms(cr.gpu.affinity).Some?;
    GpuScrape(cr.gpu.enabled, hasNodeSelector || hasAffinity, cr.podLabels, settings)
  }

  /** The labels of the pods that carry the exporter. */
  function AgentLabels(g: GpuScrape): map<string, string> {
    NodeAgent.Labels(NodeAgent.TargetAgentName(g.split), true, g.podLabels)
  }

  function AutoLabels(g: GpuScrape): map<string, string> {
    map["name" := NodeAgent.TargetAgentName(g.split)]
  }

  function AutoTarget(g: GpuScrape): Value {
    var endpoint := AnyMap(map["port" := Text("9400"), "path" := Text("/metrics"),
                               "interval" := Text(if g.settings.interval != "" then g.settings.interval else "30s"),
                               "scheme" := Text("http"), "addNodeLabel" := Opaque("true"),
                               "metricRelabelConfigs" := List(g.settings.metricRelabel)]);
    AnyMap(Header(AUTO, "PodMonitor")
           + map["namespaceSelector" := AnyMap(map["matchNames" := Texts([g.settings.namespace])])]
           + map["selector" := AnyMap(map["matchLabels" := TextMap(AutoLabels(g))])]
           + (if g.settings.relabel != [] then map["relabelConfigs" := List(g.settings.relabel)] else map[])
           + map["endpoints" := List([endpoint])])
  }

  lemma AutoFields(g: GpuScrape)
    ensures AutoTarget(g).AnyMap? && Field(AutoTarget(g), "targetName") == Some(Text(AUTO))
    ensures Field(AutoTarget(g), "selector") == Some(AnyMap(map["matchLabels" := TextMap(AutoLabels(g))]))
  {
    hide Header;
    HeaderFields(AUTO, "PodMonitor");
  }

  /** The automatic target is itself a duplicate for the next look: at most one is ever added. */
  lemma AutoVerdict(g: GpuScrape, r: Value)
    requires Canonical(AutoTarget(g), r)
    ensures Duplicate(r, AgentLabels(g))
  {
    hide AutoTarget, Covers;
    AutoFields(g);
    VerdictSurvivesOrdering(AutoTarget(g).entries, r, AgentLabels(g));
  }

  method RenderExpressions(es: seq<Expression>) returns (v: Value)
    ensures v == ExpressionList(es)
  {
    var matchExpressions := [];
    for i := 0 to |es|
      invariant matchExpressions == ExpressionList(es).items[..i]
    {
      var exprMap := map["key" := Text(es[i].key)];
      exprMap := exprMap["operator" := Text(es[i].operator)];
      exprMap := exprMap["values" := Texts(es[i].values)];
      assert AnyMap(exprMap) == ExpressionMap(es[i]);
      matchExpressions := matchExpressions + [AnyMap(exprMap)];
    }
    v := List(matchExpressions);
  }

  method RenderSelector(s: Selector) returns (v: Value)
    ensures v == SelectorMap(s)
  {
    var selector := map[];
    if |s.matchLabels| > 0 {
      selector := selector["matchLabels" := TextMap(s.matchLabels)];
    }
    if |s.matchExpressions| > 0 {
      var expressions := RenderExpressions(s.matchExpressions);
      selector := selector["matchExpressions" := expressions];
    }
    v := AnyMap(selector);
  }

  method RenderNamespaces(s: NamespaceSelector) returns (v: Value)
    ensures v == NamespaceMap(s)
  {
    hide Optional;
    var nsSelector := Put(map[], "matchNames", if |s.matchNames| > 0 then Some(Texts(s.matchNames)) else None);
    Unit(Optional("matchNames", if s.matchNames != [] then Some(Texts(s.matchNames)) else None));
    nsSelector := Put(nsSelector, "matchLabels", if |s.matchLabels| > 0 then Some(TextMap(s.matchLabels)) else None);
    if |s.matchExpressions| > 0 {
      var expressions := RenderExpressions(s.matchExpressions);
      nsSelector := Put(nsSelector, "matchExpressions", Some(expressions));
    } else {
      nsSelector := Put(nsSelector, "matchExpressions", None);
    }
    v := AnyMap(nsSelector);
  }

  /** Adds what every kind of target has last: relabelling rules and endpoints. */
  method RenderTrailer(m: map<string, Value>, relabel: seq<Value>, endpoints: seq<TlsSecrets.Endpoint>)
      returns (r: map<string, Value>)
    ensures r == m + Trailer(relabel, endpoints)
  {
    r := m;
    if |relabel| > 0 {
      r := r["relabelConfigs" := List(relabel)];
    }
    if |endpoints| > 0 {
      var converted := TlsSecrets.ConvertEndpoints(endpoints);
      r := r["endpoints" := List(converted)];
    }
  }

  /** Selectors of an inline target are rendered only when they say something. */
  method RenderInlineSelectors(t: Target) returns (nsSelector: Option<Value>, selector: Option<Value>)
    requires t.Inline?
    ensures nsSelector == if Namespaced(t.inNamespaces) then Some(NamespaceMap(t.inNamespaces)) else None
    ensures selector == if Selective(t.selector) then Some(SelectorMap(t.selector)) else None
  {
    hide NamespaceMap, SelectorMap;
    nsSelector, selector := None, None;
    if |t.inNamespaces.matchNames| > 0 || |t.inNamespaces.matchLabels| > 0 || |t.inNamespaces.matchExpressions| > 0 {
      var rendered := RenderNamespaces(t.inNamespaces);
      nsSelector := Some(rendered);
    }
    if |t.selector.matchLabels| > 0 || |t.selector.matchExpressions| > 0 {
      var rendered := RenderSelector(t.selector);
      selector := Some(rendered);
    }
  }

  method RenderInline(t: Target) returns (m: map<string, Value>)
    requires t.Inline?
    ensures m == TargetEntries(t)
  {
    hide Header, NamespaceMap, SelectorMap, Trailer, Optional, Namespaced, Selective;
    m := RenderHeader(t.targetName, t.kind);
    var nsSelector, selector := RenderInlineSelectors(t);
    m := Put(m, "namespaceSelector", nsSelector);
    m := Put(m, "selector", selector);
    m := RenderTrailer(m, t.relabel, t.endpoints);
  }

  method RenderMonitor(t: Target) returns (m: map<string, Value>)
    requires t.Monitor?
    ensures m == TargetEntries(t)
  {
    hide Header, NamespaceMap, SelectorMap, Trailer;
    m := RenderHeader(t.namespace + "/" + t.name, t.kind);
    if t.namespaces.Some? {
      var nsSelector := RenderNamespaces(t.namespaces.value);
      m := m["namespaceSelector" := nsSelector];
    } else {
      m := m["namespaceSelector" := AnyMap(map["matchNames" := Texts([t.namespace])])];
    }
    var selector := RenderSelector(t.selector);
    m := m["selector" := selector];
    m := RenderTrailer(m, t.relabel, t.endpoints);
  }

  method RenderHeader(name: string, kind: string) returns (m: map<string, Value>)
    ensures m == Header(name, kind)
  {
    m := map["targetName" := Text(name)];
    m := m["type" := Text(kind)];
    m := m["enabled" := Opaque("true")];
  }

  method RenderTarget(t: Target) returns (v: Value)
    ensures v == TargetMap(t)
  {
    var m;
    if t.Inline? {
      m := RenderInline(t);
    } else if t.Monitor? {
      m := RenderMonitor(t);
    } else {
      m := RenderHeader(t.namespace + "/" + t.name, "StaticEndpoints");
      m := RenderTrailer(m, t.relabel, t.endpoints);
    }
    v := AnyMap(m);
  }

  method ConvertTargets(ts: seq<Target>) returns (out: seq<Value>)
    ensures |out| == |ActiveOnes(ts)|
    ensures forall i | 0 <= i < |out| :: Canonical(TargetMap(ActiveOnes(ts)[i]), out[i])
  {
    out := [];
    for i := 0 to |ts|
      invariant |out| == |ActiveOnes(ts[..i])|
      invariant forall k | 0 <= k < |out| :: Canonical(TargetMap(ActiveOnes(ts[..i])[k]), out[k])
    {
      assert ts[..i + 1][..i] == ts[..i];
      if !Active(ts[i]) {
        continue;
      }
      var targetMap := RenderTarget(ts[i]);
      var r := ToOrderedYAML(targetMap);
      out := out + [r];
    }
    assert ts[..|ts|] == ts;
  }

  /**
   The targets of the configuration: the active ones in order, and the automatic GPU target exactly when GPU
   monitoring is on and no active target covers the exporter's pods or has its name.
   */
  ghost predicate Generated(ts: seq<Target>, g: GpuScrape, out: seq<Value>) {
    var active := ActiveOnes(ts);
    && |active| <= |out|
    && (forall i | 0 <= i < |active| :: Canonical(TargetMap(active[i]), out[i]))
    && (if g.enabled && forall t | t in active :: !CoversAgent(t, AgentLabels(g))
        then |out| == |active| + 1 && Canonical(AutoTarget(g), out[|active|])
        else |out| == |active|)
  }

  method GenerateTargets(ts: seq<Target>, g: GpuScrape) returns (out: seq<Value>)
    ensures Generated(ts, g, out)
    ensures g.enabled ==> exists i :: 0 <= i < |out| && Duplicate(out[i], AgentLabels(g))
  {
    out := ConvertTargets(ts);
    if g.enabled {
      var active := ActiveOnes(ts);
      var isDuplicate := DetectDuplicate(out, AgentLabels(g));
      forall i | 0 <= i < |active|
        ensures Duplicate(out[i], AgentLabels(g)) <==> CoversAgent(active[i], AgentLabels(g))
      {
        TargetVerdict(active[i], out[i], AgentLabels(g));
      }
      if !isDuplicate {
        var auto := ToOrderedYAML(AutoTarget(g));
        out := out + [auto];
        AutoVerdict(g, auto);
        assert Duplicate(out[|active|], AgentLabels(g));
      } else {
        var i :| 0 <= i < |out| && Duplicate(out[i], AgentLabels(g));
        assert active[i] in active;
      }
    }
  }

  // ---------------------------------------------------- certificate paths in the output

  /** What the generated tree holds under `endpoints`, item `i`, `tlsConfig`, `field`. */
  function OutputPath(target: Value, i: nat, field: string): Option<Value> {
    match Field(target, "endpoints")
    case Some(List(items)) =>
      if i < |items| && Field(items[i], "tlsConfig").Some? then Field(Field(items[i], "tlsConfig").value, field)
      else None
    case _ => None
  }

  lemma EndpointPath(e: TlsSecrets.Endpoint, r: Value, field: string)
    requires Canonical(TlsSecrets.EndpointMap(e), r)
    ensures Field(r, "tlsConfig").Some? <==> e.tls.Some?
    ensures e.tls.Some? ==>
              Canonical(AnyMap(TlsSecrets.TlsEntries(e.tls.value)), Field(r, "tlsConfig").value)
    ensures e.tls.Some? ==>
              var entries, config := TlsSecrets.TlsEntries(e.tls.value), Field(r, "tlsConfig").value;
              && (Field(config, field).Some? <==> field in entries)
              && (field in entries ==> Canonical(entries[field], Field(config, field).value))
  {
    hide TlsSecrets.EndpointEntries, TlsSecrets.TlsEntries;
    CanonicalField(TlsSecrets.EndpointEntries(e), r, "tlsConfig");
    TlsSecrets.EndpointTls(e);
    if e.tls.Some? {
      CanonicalField(TlsSecrets.TlsEntries(e.tls.value), Field(r, "tlsConfig").value, field);
    }
  }

  lemma TargetEndpoints(t: Target, r: Value)
    requires Canonical(TargetMap(t), r)
    ensures Field(r, "endpoints").Some? <==> t.endpoints != []
    ensures t.endpoints != [] ==>
              var list := Field(r, "endpoints").value;
              && list.List? && |list.items| == |t.endpoints|
              && forall i | 0 <= i < |t.endpoints| :: Canonical(TlsSecrets.EndpointMap(t.endpoints[i]), list.items[i])
  {
    hide TargetEntries, TlsSecrets.EndpointMap;
    TargetFields(t);
    CanonicalField(TargetEntries(t), r, "endpoints");
    if t.endpoints != [] {
      var es := EndpointList(t.endpoints);
      assert forall i | 0 <= i < |t.endpoints| :: es.items[i] == TlsSecrets.EndpointMap(t.endpoints[i]);
    }
  }

  /** The certificate settings of the output tree are those of the target's endpoints, and of no others. */
  lemma OutputPathOrigin(t: Target, r: Value, i: nat, field: string)
    requires Canonical(TargetMap(t), r)
    ensures OutputPath(r, i, field).Some? ==>
              && i < |t.endpoints| && t.endpoints[i].tls.Some?
              && field in TlsSecrets.TlsEntries(t.endpoints[i].tls.value)
              && Canonical(TlsSecrets.TlsEntries(t.endpoints[i].tls.value)[field], OutputPath(r, i, field).value)
  {
    hide TargetMap, TlsSecrets.EndpointMap, TlsSecrets.TlsEntries, Canonical;
    TargetEndpoints(t, r);
    if OutputPath(r, i, field).Some? {
      EndpointPath(t.endpoints[i], Field(r, "endpoints").value.items[i], field);
    }
  }

  /** The certificate settings at this place of the tree are those of the target's endpoint there, all backed. */
  ghost predicate PathsBacked(t: Target, r: Value, i: nat, volumes: seq<TlsSecrets.Volume>,
                              mounts: seq<TlsSecrets.Mount>) {
    var ca, cert, key := OutputPath(r, i, "caFile"), OutputPath(r, i, "certFile"), OutputPath(r, i, "keyFile");
    if i < |t.endpoints| && t.endpoints[i].tls.Some?
    then TlsSecrets.SettingsBacked(ca, cert, key, t.endpoints[i].tls.value, volumes, mounts)
    else ca == None && cert == None && key == None
  }

  /**
   Every certificate setting in the generated targets, for an inline target or a monitor, is the file its endpoint
   names, or the mounted file of the secret its endpoint names, and is there exactly when the endpoint names one.
   */
  lemma GeneratedPathsBacked(ts: seq<Target>, g: GpuScrape, out: seq<Value>, k: nat, i: nat,
                             lists: seq<seq<TlsSecrets.Endpoint>>, keys: map<string, seq<string>>, order: seq<string>)
    requires TlsSecrets.Collects(keys, TlsSecrets.AllRefs(lists)) && Enumerates(order, keys.Keys)
    requires forall t | t in ts && !t.Static? :: t.endpoints in lists
    ensures Generated(ts, g, out) && k < |ActiveOnes(ts)| && !ActiveOnes(ts)[k].Static? ==>
              PathsBacked(ActiveOnes(ts)[k], out[k], i, TlsSecrets.VolumesFor(order, keys),
                          TlsSecrets.MountsFor(order))
  {
    if Generated(ts, g, out) && k < |ActiveOnes(ts)| && !ActiveOnes(ts)[k].Static? {
      ActiveIn(ts, ActiveOnes(ts)[k]);
      TargetPathsBacked(ActiveOnes(ts)[k], out[k], i, lists, keys, order);
    }
  }

  lemma TargetPathsBacked(t: Target, r: Value, i: nat, lists: seq<seq<TlsSecrets.Endpoint>>,
                          keys: map<string, seq<string>>, order: seq<string>)
    requires Canonical(TargetMap(t), r) && t.endpoints in lists
    requires TlsSecrets.Collects(keys, TlsSecrets.AllRefs(lists)) && Enumerates(order, keys.Keys)
    ensures PathsBacked(t, r, i, TlsSecrets.VolumesFor(order, keys), TlsSecrets.MountsFor(order))
  {
    hide TargetMap, TlsSecrets.TlsEntries, OutputPath, TlsSecrets.SettingBacked;
    OutputSetting(t, r, i, "caFile");
    OutputSetting(t, r, i, "certFile");
    OutputSetting(t, r, i, "keyFile");
    if i < |t.endpoints| && t.endpoints[i].tls.Some? {
      var l :| 0 <= l < |lists| && lists[l] == t.endpoints;
      TlsSecrets.CertificatePathsBacked(lists, l, t.endpoints[i], keys, order);
    }
  }

  /** A certificate setting in the tree is the one of the endpoint at its place. */
  lemma OutputSetting(t: Target, r: Value, i: nat, field: string)
    requires Canonical(TargetMap(t), r)
    requires field == "caFile" || field == "certFile" || field == "keyFile"
    ensures OutputPath(r, i, field) ==
            if i < |t.endpoints| && t.endpoints[i].tls.Some?
            then TlsSecrets.Lookup(TlsSecrets.TlsEntries(t.endpoints[i].tls.value), field) else None
  {
    hide TargetMap, TlsSecrets.TlsEntries, Canonical, TlsSecrets.EndpointMap;
    OutputPathOrigin(t, r, i, field);
    if i < |t.endpoints| && t.endpoints[i].tls.Some? {
      TargetEndpoints(t, r);
      EndpointPath(t.endpoints[i], Field(r, "endpoints").value.items[i], field);
      TlsSecrets.TlsSettings(t.endpoints[i].tls.value, field);
      if OutputPath(r, i, field).Some? {
        SameText(TlsSecrets.TlsEntries(t.endpoints[i].tls.value)[field], OutputPath(r, i, field).value);
      }
    }
  }

  lemma {:induction false} ActiveIn(ts: seq<Target>, t: Target)
    requires t in ActiveOnes(ts)
    ensures t in ts && Active(t)
  {
    if ts != [] && t in ActiveOnes(ts[..|ts| - 1]) {
      ActiveIn(ts[..|ts| - 1], t);
    }
  }

  // ---------------------------------------------------------- the exporter is scraped

  /** The labels a generated target selects by. */
  function OutputLabels(target: Value): map<string, string> {
    var selector := Field(target, "selector");
    if selector.Some? && Field(selector.value, "matchLabels").Some?
    then LabelsOfOrdered(Field(selector.value, "matchLabels").value) else map[]
  }

  lemma OutputLabelsOf(m: map<string, Value>, r: Value)
    requires Canonical(AnyMap(m), r) && "selector" in m && m["selector"].AnyMap? && Raw(m["selector"])
    ensures OutputLabels(r) ==
            if "matchLabels" in m["selector"].entries then LabelsOfMap(m["selector"].entries["matchLabels"]) else map[]
  {
    hide LabelsOfOrdered, LabelsOfMap;
    CanonicalField(m, r, "selector");
    var selector := m["selector"].entries;
    CanonicalField(selector, Field(r, "selector").value, "matchLabels");
    if "matchLabels" in selector {
      CanonicalLabels(selector["matchLabels"], Field(Field(r, "selector").value, "matchLabels").value);
    }
  }

  lemma SelectorMapLabels(s: Selector)
    ensures Raw(SelectorMap(s))
    ensures "matchLabels" in SelectorMap(s).entries <==> s.matchLabels != map[]
    ensures s.matchLabels != map[] ==> SelectorMap(s).entries["matchLabels"] == TextMap(s.matchLabels)
  {
    SelectorMapVerdict(s, map[]);
    assert "matchLabels" != "matchExpressions";
  }

  lemma TargetOutputLabels(t: Target, r: Value)
    requires Canonical(TargetMap(t), r)
    ensures OutputLabels(r) == SelectorLabels(t)
  {
    var m := TargetEntries(t);
    TargetFields(t);
    SelectedLabels(m, r, t);
  }

  lemma SelectedLabels(m: map<string, Value>, r: Value, t: Target)
    requires Canonical(AnyMap(m), r)
    requires "selector" in m ==> !t.Static? && m["selector"] == SelectorMap(t.selector)
    requires "selector" !in m ==> SelectorLabels(t) == map[]
    ensures OutputLabels(r) == SelectorLabels(t)
  {
    hide Canonical, SelectorMap, Raw, LabelsOfOrdered;
    if "selector" in m {
      SelectorMapLabels(t.selector);
      SelectorIsMap(t.selector);
      OutputLabelsOf(m, r);
    } else {
      CanonicalField(m, r, "selector");
    }
  }

  lemma SelectorIsMap(s: Selector)
    ensures SelectorMap(s).AnyMap?
  {}

  lemma AutoOutputLabels(g: GpuScrape, r: Value)
    requires Canonical(AutoTarget(g), r)
    ensures OutputLabels(r) == AutoLabels(g)
  {
    hide AutoTarget, Canonical, AutoLabels, LabelsOfOrdered, OutputLabels;
    AutoFields(g);
    var selector := map["matchLabels" := TextMap(AutoLabels(g))];
    LabelsRaw(selector, AutoLabels(g));
    OutputLabelsOf(AutoTarget(g).entries, r);
  }

  lemma LabelsRaw(selector: map<string, Value>, labels: map<string, string>)
    requires selector == map["matchLabels" := TextMap(labels)]
    ensures Raw(AnyMap(selector)) && "matchLabels" in selector && LabelsOfMap(selector["matchLabels"]) == labels
  {}

  /** The labels of every pod of the DaemonSet that carries the exporter. */
  lemma ExporterLabels(g: GpuScrape, live: Option<NodeAgent.DaemonSet>, cr: NodeAgent.Resource,
                       placement: NodePlacement.Placement, security: map<string, string>, order: seq<string>,
                       ds: NodeAgent.DaemonSet)
    requires cr.podLabels == g.podLabels
    requires NodeAgent.Rendered(live, cr, NodeAgent.TargetAgentName(g.split), true, placement, security, order, ds)
    ensures Contains(ds.template.labels, AgentLabels(g))
  {}

  /** Labels that cover the agent select every pod of the DaemonSet that carries the exporter. */
  lemma CoveringSelectsExporter(labels: map<string, string>, g: GpuScrape, pod: map<string, string>)
    requires Covers(labels, AgentLabels(g)) && Contains(pod, AgentLabels(g))
    ensures labels != map[] && Contains(pod, labels)
  {}

  /** The automatic target selects the exporter's pods exactly when the pod labels do not rename them. */
  lemma AutoSelectsExporterExactly(g: GpuScrape, r: Value, pod: map<string, string>)
    requires Canonical(AutoTarget(g), r) && Contains(pod, AgentLabels(g))
    ensures Contains(pod, OutputLabels(r)) <==>
            ("name" in g.podLabels ==> g.podLabels["name"] == NodeAgent.TargetAgentName(g.split))
  {
    AutoOutputLabels(g, r);
    assert "name" in AutoLabels(g) && "name" in AgentLabels(g);
    assert NodeAgent.NAME_LABEL != NodeAgent.GPU_LABEL;
  }

  /** Some generated target selects these pods, by a non-empty set of labels. */
  predicate Scraped(out: seq<Value>, pod: map<string, string>) {
    exists i :: 0 <= i < |out| && ScrapedBy(out[i], pod)
  }

  predicate ScrapedBy(target: Value, pod: map<string, string>) {
    OutputLabels(target) != map[] && Contains(pod, OutputLabels(target))
  }

  /** An active target selects these pods by its own labels. */
  predicate ActiveSelects(ts: seq<Target>, pod: map<string, string>) {
    exists t | t in ActiveOnes(ts) :: SelectorLabels(t) != map[] && Contains(pod, SelectorLabels(t))
  }

  /** The automatic target is added, and the pod labels leave alone the name it selects by. */
  predicate AutoSelects(ts: seq<Target>, g: GpuScrape) {
    && (forall t | t in ActiveOnes(ts) :: !CoversAgent(t, AgentLabels(g)))
    && ("name" in g.podLabels ==> g.podLabels["name"] == NodeAgent.TargetAgentName(g.split))
  }

  /**
   Exactly when the exporter's pods are scraped: an active target selects them, or the automatic target is added and
   the pod labels do not rename them.
   */
  lemma ScrapedExactly(ts: seq<Target>, g: GpuScrape, out: seq<Value>, pod: map<string, string>)
    requires Generated(ts, g, out) && g.enabled && Contains(pod, AgentLabels(g))
    ensures Scraped(out, pod) <==> ActiveSelects(ts, pod) || AutoSelects(ts, g)
  {
    hide Canonical, Covers, OutputLabels, Contains, AutoTarget, AgentLabels, CoversAgent;
    var active := ActiveOnes(ts);
    forall i | 0 <= i < |active| ensures OutputLabels(out[i]) == SelectorLabels(active[i]) {
      TargetOutputLabels(active[i], out[i]);
    }
    if |out| > |active| {
      AutoScrapedExactly(g, out[|active|], pod);
    }
    if ActiveSelects(ts, pod) {
      var t :| t in active && SelectorLabels(t) != map[] && Contains(pod, SelectorLabels(t));
      var i :| 0 <= i < |active| && active[i] == t;
      assert ScrapedBy(out[i], pod);
    } else if AutoSelects(ts, g) {
      assert ScrapedBy(out[|active|], pod);
    }
    if i :| 0 <= i < |out| && ScrapedBy(out[i], pod) {
      if i < |active| {
        assert active[i] in active;
      }
    }
  }

  lemma AutoScrapedExactly(g: GpuScrape, r: Value, pod: map<string, string>)
    requires Canonical(AutoTarget(g), r) && Contains(pod, AgentLabels(g))
    ensures ScrapedBy(r, pod) <==>
            ("name" in g.podLabels ==> g.podLabels["name"] == NodeAgent.TargetAgentName(g.split))
  {
    AutoSelectsExporterExactly(g, r, pod);
    AutoOutputLabels(g, r);
    assert "name" in AutoLabels(g);
  }

  /** An active target that covers the agent by its labels is enough. */
  lemma CoveringScrapes(ts: seq<Target>, g: GpuScrape, pod: map<string, string>, t: Target)
    requires t in ActiveOnes(ts) && Covers(SelectorLabels(t), AgentLabels(g)) && Contains(pod, AgentLabels(g))
    ensures ActiveSelects(ts, pod)
  {
    CoveringSelectsExporter(SelectorLabels(t), g, pod);
  }

  /**
   A name is enough to lose the exporter: one enabled target called like the automatic one, without a selector,
   keeps the automatic one away, and nothing selects the exporter's pods.
   */
  lemma NameSuppressesScraping(g: GpuScrape, kind: string, endpoints: seq<TlsSecrets.Endpoint>, out: seq<Value>,
                               pod: map<string, string>)
    requires g.enabled && Contains(pod, AgentLabels(g))
    ensures var t := Inline(AUTO, kind, true, NamespaceSelector([], map[], []), Selector(map[], []), [], endpoints);
            Generated([t], g, out) ==> |out| == 1 && !Scraped(out, pod)
  {
    var t := Inline(AUTO, kind, true, NamespaceSelector([], map[], []), Selector(map[], []), [], endpoints);
    if Generated([t], g, out) {
      hide Canonical, Covers, OutputLabels, Contains, AutoTarget, AgentLabels;
      assert ActiveOnes([t]) == [t] by {
        assert [t][..0] == [];
      }
      assert t in [t] && CoversAgent(t, AgentLabels(g));
      ScrapedExactly([t], g, out, pod);
    }
  }

  /** The DaemonSet that carries the exporter, after a step without failures. */
  lemma ExporterPods(was: map<string, NodeAgent.DaemonSet>, now: map<string, NodeAgent.DaemonSet>,
                     cr: NodeAgent.Resource, g: GpuScrape, gpuAt: NodePlacement.Placement,
                     normalAt: NodePlacement.Placement, gpuSec: map<string, string>, normalSec: map<string, string>,
                     sent: NodeAgent.Sent)
    requires NodeAgent.Stepped(was, now, cr, g.split, gpuAt, normalAt, gpuSec, normalSec, sent)
    requires cr.gpu.enabled && cr.podLabels == g.podLabels
    ensures NodeAgent.TargetAgentName(g.split) in now
    ensures Contains(now[NodeAgent.TargetAgentName(g.split)].template.labels, AgentLabels(g))
  {
    hide NodeAgent.Rendered;
    if g.split {
      ExporterLabels(g, NodeAgent.Live(was, NodeAgent.GPU), cr, gpuAt, gpuSec, sent.gpuOrder, sent.gpu.value);
    } else {
      ExporterLabels(g, NodeAgent.Live(was, NodeAgent.NORMAL), cr, normalAt, normalSec, sent.normalOrder,
                     sent.normal.value);
    }
  }

  /**
   The node-agent step and then the generator, for one custom resource, as in a pass. With GPU monitoring on and no
   failure, the exporter is in the DaemonSet the generator computes, and a generated target selects its stored pods
   exactly when an active target does, or the automatic one is added and the pod labels do not rename them.
   */
  method InstallAndGenerate(cluster: NodeAgent.Cluster, cr: NodeAgent.Resource, api: NodeAgent.Api, ts: seq<Target>,
                            settings: Settings) returns (ok: bool, out: seq<Value>)
    requires NodePlacement.Reach(cr.affinity) !! NodePlacement.Reach(cr.gpu.affinity)
    requires NodeAgent.Sound(NodeAgent.Live(cluster.daemonSets, NodeAgent.GPU))
    requires NodeAgent.Sound(NodeAgent.Live(cluster.daemonSets, NodeAgent.NORMAL))
    modifies cluster, NodePlacement.Reach(cr.affinity), cr.security
    ensures ok && api.gpuDelete && cr.gpu.enabled ==>
              var g := old(ScrapeOf(cr, settings));
              var name := NodeAgent.TargetAgentName(old(NodeAgent.Split(cr)));
              && Generated(ts, g, out) && name in cluster.daemonSets
              && NodeAgent.HasContainer(cluster.daemonSets[name], NodeAgent.ContainerMerge.DCGM_EXPORTER)
              && var pod := cluster.daemonSets[name].template.labels;
                 (Scraped(out, pod) <==> ActiveSelects(ts, pod) || AutoSelects(ts, g))
  {
    hide NodeAgent.Rendered, Generated, Scraped, ActiveSelects, AutoSelects, AgentLabels, Contains;
    ghost var was, g' := cluster.daemonSets, ScrapeOf(cr, settings);
    ghost var split, r, own := NodeAgent.Split(cr), NodeAgent.RequestOf(cr), NodeAgent.OwnSecurity(cr);
    out := [];
    var sent;
    ok, sent := cluster.CreateOrUpdateNodeAgent(cr, api);
    if !ok {
      return;
    }
    var g := ScrapeOf(cr, settings);
    out := GenerateTargets(ts, g);
    if api.gpuDelete && cr.gpu.enabled {
      assert g.split == split && g == g';
      ghost var gpuAt := if split then r.Gpu() else r.Own();
      ghost var normalAt := if split then r.Normal(sent.labelOrder) else r.Own();
      ghost var normalSec :=
        if split then NodeAgent.SecuritySeenByNormal(cr, NodeAgent.Live(was, NodeAgent.GPU), own) else own;
      ghost var name := NodeAgent.TargetAgentName(split);
      ExporterPods(was, cluster.daemonSets, cr, g, gpuAt, normalAt, own, normalSec, sent);
      NodeAgent.ExactlyOneExporter(was, cluster.daemonSets, cr, split, gpuAt, normalAt, own, normalSec, sent, name);
      ScrapedExactly(ts, g, out, cluster.daemonSets[name].template.labels);
    }
  }
}
