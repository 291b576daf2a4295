/**
 What the generated trees say: every field of every tree, in terms of the target it was made from, and exactly when
 the automatic GPU target is among them.
 */
module ScrapeOutput {
  import opened Maybe
  import opened OrderedYaml
  import opened ScrapeTargets
  import TlsSecrets
  import NodeAgent

  /** A field of the tree: there exactly when there is a value, in canonical form. */
  ghost predicate Written(tree: Value, key: string, value: Option<Value>) {
    && (Field(tree, key).Some? <==> value.Some?)
    && (value.Some? ==> Canonical(value.value, Field(tree, key).value))
  }

  function Entry(m: map<string, Value>, key: string): Option<Value> {
    TlsSecrets.Lookup(m, key)
  }

  lemma WrittenEntry(m: map<string, Value>, r: Value, key: string)
    requires Canonical(AnyMap(m), r)
    ensures Written(r, key, Entry(m, key))
  {
    CanonicalField(m, r, key);
  }

  // -------------------------------------------------------------------- selectors

  /** Expressions are written one for one, with exactly their three parts. */
  lemma ExpressionsWritten(es: seq<Expression>, r: Value, i: nat, key: string)
    requires Canonical(ExpressionList(es), r) && i < |es|
    ensures r.List? && |r.items| == |es|
    ensures Written(r.items[i], key, match key
                                     case "key" => Some(Text(es[i].key))
                                     case "operator" => Some(Text(es[i].operator))
                                     case "values" => Some(Texts(es[i].values))
                                     case _ => None)
  {
    assert ExpressionList(es).items[i] == ExpressionMap(es[i]);
    WrittenEntry(ExpressionMap(es[i]).entries, r.items[i], key);
  }

  lemma SelectorWritten(s: Selector, r: Value, key: string)
    requires Canonical(SelectorMap(s), r)
    ensures Written(r, key, match key
                            case "matchLabels" => if s.matchLabels == map[] then None else Some(TextMap(s.matchLabels))
                            case "matchExpressions" => if s.matchExpressions == [] then None
                                                       else Some(ExpressionList(s.matchExpressions))
                            case _ => None)
  {
    hide ExpressionList, Canonical;
    WrittenEntry(SelectorMap(s).entries, r, key);
  }

  lemma NamespacesWritten(s: NamespaceSelector, r: Value, key: string)
    requires Canonical(NamespaceMap(s), r)
    ensures Written(r, key, match key
                            case "matchNames" => if s.matchNames == [] then None else Some(Texts(s.matchNames))
                            case "matchLabels" => if s.matchLabels == map[] then None else Some(TextMap(s.matchLabels))
                            case "matchExpressions" => if s.matchExpressions == [] then None
                                                       else Some(ExpressionList(s.matchExpressions))
                            case _ => None)
  {
    hide ExpressionList, Canonical;
    WrittenEntry(NamespaceMap(s).entries, r, key);
  }

  // ---------------------------------------------------------------------- targets

  lemma HeaderEntries(name: string, kind: string, key: string)
    ensures Entry(Header(name, kind), key) ==
            match key
            case "targetName" => Some(Text(name))
            case "type" => Some(Text(kind))
            case "enabled" => Some(Opaque("true"))
            case _ => None
  {}

  lemma TrailerEntries(relabel: seq<Value>, endpoints: seq<TlsSecrets.Endpoint>, key: string)
    ensures Entry(Trailer(relabel, endpoints), key) ==
            match key
            case "relabelConfigs" => if relabel == [] then None else Some(List(relabel))
            case "endpoints" => if endpoints == [] then None else Some(List(TlsSecrets.EndpointMaps(endpoints)))
            case _ => None
  {}

  /** The tree of a target of the custom resource: selectors only when they say something. */
  lemma InlineWritten(t: Target, r: Value, key: string)
    requires t.Inline? && Canonical(TargetMap(t), r)
    ensures Written(r, key,
                    match key
                    case "targetName" => Some(Text(t.targetName))
                    case "type" => Some(Text(t.kind))
                    case "enabled" => Some(Opaque("true"))
                    case "namespaceSelector" =>
                      if t.inNamespaces == NamespaceSelector([], map[], []) then None
                      else Some(NamespaceMap(t.inNamespaces))
                    case "selector" => if t.selector == Selector(map[], []) then None else Some(SelectorMap(t.selector))
                    case "relabelConfigs" => if t.relabel == [] then None else Some(List(t.relabel))
                    case "endpoints" =>
                      if t.endpoints == [] then None else Some(List(TlsSecrets.EndpointMaps(t.endpoints)))
                    case _ => None)
  {
    hide NamespaceMap, SelectorMap, Header, Trailer, Canonical;
    HeaderEntries(t.targetName, t.kind, key);
    TrailerEntries(t.relabel, t.endpoints, key);
    WrittenEntry(TargetEntries(t), r, key);
  }

  /** The tree of a monitor: it selects in its own namespace unless it says otherwise. */
  lemma MonitorWritten(t: Target, r: Value, key: string)
    requires t.Monitor? && Canonical(TargetMap(t), r)
    ensures Written(r, key,
                    match key
                    case "targetName" => Some(Text(t.namespace + "/" + t.name))
                    case "type" => Some(Text(t.kind))
                    case "enabled" => Some(Opaque("true"))
                    case "namespaceSelector" =>
                      if t.namespaces.Some? then Some(NamespaceMap(t.namespaces.value))
                      else Some(AnyMap(map["matchNames" := Texts([t.namespace])]))
                    case "selector" => Some(SelectorMap(t.selector))
                    case "relabelConfigs" => if t.relabel == [] then None else Some(List(t.relabel))
                    case "endpoints" =>
                      if t.endpoints == [] then None else Some(List(TlsSecrets.EndpointMaps(t.endpoints)))
                    case _ => None)
  {
    hide NamespaceMap, SelectorMap, Header, Trailer, Canonical;
    HeaderEntries(t.namespace + "/" + t.name, t.kind, key);
    TrailerEntries(t.relabel, t.endpoints, key);
    WrittenEntry(TargetEntries(t), r, key);
  }

  /** The tree of a static endpoint: no selector. */
  lemma StaticWritten(t: Target, r: Value, key: string)
    requires t.Static? && Canonical(TargetMap(t), r)
    ensures Written(r, key,
                    match key
                    case "targetName" => Some(Text(t.namespace + "/" + t.name))
                    case "type" => Some(Text("StaticEndpoints"))
                    case "enabled" => Some(Opaque("true"))
                    case "relabelConfigs" => if t.relabel == [] then None else Some(List(t.relabel))
                    case "endpoints" =>
                      if t.endpoints == [] then None else Some(List(TlsSecrets.EndpointMaps(t.endpoints)))
                    case _ => None)
  {
    hide Header, Trailer, Canonical;
    HeaderEntries(t.namespace + "/" + t.name, "StaticEndpoints", key);
    TrailerEntries(t.relabel, t.endpoints, key);
    WrittenEntry(TargetEntries(t), r, key);
  }

  /** The endpoints of a tree are the target's, one for one, with every entry an endpoint says something about. */
  lemma EndpointWritten(t: Target, r: Value, i: nat, key: string)
    requires Canonical(TargetMap(t), r) && i < |t.endpoints|
    ensures Field(r, "endpoints").Some? && Field(r, "endpoints").value.List?
    ensures |Field(r, "endpoints").value.items| == |t.endpoints|
    ensures var e := t.endpoints[i];
            Written(Field(r, "endpoints").value.items[i], key,
                    match key
                    case "port" => Plain(e.port)
                    case "address" => Plain(e.address)
                    case "path" => Plain(e.path)
                    case "interval" => Plain(e.interval)
                    case "scheme" => Plain(e.scheme)
                    case "basicAuth" => e.basicAuth
                    case "authorization" => e.authorization
                    case "tlsConfig" => if e.tls.Some? then Some(AnyMap(TlsSecrets.TlsEntries(e.tls.value))) else None
                    case "params" => if e.params == map[] then None else Some(TextsMap(e.params))
                    case "addNodeLabel" => if e.addNodeLabel then Some(Opaque("true")) else None
                    case "metricRelabelConfigs" => if e.metricRelabel == [] then None else Some(List(e.metricRelabel))
                    case _ => None)
  {
    hide TargetMap, TlsSecrets.EndpointEntries, TlsSecrets.TlsEntries, Canonical;
    TargetEndpoints(t, r);
    TlsSecrets.EndpointSettings(t.endpoints[i], key);
    WrittenEntry(TlsSecrets.EndpointEntries(t.endpoints[i]), Field(r, "endpoints").value.items[i], key);
  }

  /** A text that is not empty. */
  function Plain(text: string): Option<Value> {
    if text == "" then None else Some(Text(text))
  }

  // ------------------------------------------------------------ the automatic target

  /** The tree of the automatic target. */
  lemma AutoWritten(g: GpuScrape, r: Value, key: string)
    requires Canonical(AutoTarget(g), r)
    ensures Written(r, key,
                    match key
                    case "targetName" => Some(Text("dcgm-exporter-auto"))
                    case "type" => Some(Text("PodMonitor"))
                    case "enabled" => Some(Opaque("true"))
                    case "namespaceSelector" => Some(AnyMap(map["matchNames" := Texts([g.settings.namespace])]))
                    case "selector" =>
                      Some(AnyMap(map["matchLabels" := TextMap(map["name" := AgentName(g)])]))
                    case "relabelConfigs" => if g.settings.relabel == [] then None else Some(List(g.settings.relabel))
                    case "endpoints" => Some(List([AutoEndpoint(g)]))
                    case _ => None)
  {
    hide Header, Canonical, Entry, AutoEndpoint;
    HeaderEntries("dcgm-exporter-auto", "PodMonitor", key);
    AutoEndpoints(g);
    var named := AnyMap(map["matchNames" := Texts([g.settings.namespace])]);
    var selected := AnyMap(map["matchLabels" := TextMap(AutoLabels(g))]);
    AfterHeader(Header("dcgm-exporter-auto", "PodMonitor"), named, selected, g.settings.relabel,
                AutoTarget(g).entries["endpoints"], key);
    WrittenEntry(AutoTarget(g).entries, r, key);
  }

  lemma AfterHeader(header: map<string, Value>, named: Value, selected: Value, relabel: seq<Value>, endpoints: Value,
                    key: string)
    ensures Entry(header + map["namespaceSelector" := named] + map["selector" := selected]
                  + (if relabel != [] then map["relabelConfigs" := List(relabel)] else map[])
                  + map["endpoints" := endpoints], key) ==
            match key
            case "namespaceSelector" => Some(named)
            case "selector" => Some(selected)
            case "relabelConfigs" => if relabel == [] then Entry(header, key) else Some(List(relabel))
            case "endpoints" => Some(endpoints)
            case _ => Entry(header, key)
  {}

  lemma AutoEndpoints(g: GpuScrape)
    ensures AutoTarget(g).entries["endpoints"] == List([AutoEndpoint(g)])
  {
    assert AutoTarget(g).entries["endpoints"].items[0].entries == AutoEndpoint(g).entries;
  }

  /** The exporter's port, every thirty seconds unless another interval is given. */
  function AutoEndpoint(g: GpuScrape): Value {
    AnyMap(map["port" := Text("9400"), "path" := Text("/metrics"), "scheme" := Text("http"),
               "interval" := Text(if g.settings.interval == "" then "30s" else g.settings.interval),
               "addNodeLabel" := Opaque("true"), "metricRelabelConfigs" := List(g.settings.metricRelabel)])
  }

  /** The DaemonSet that carries the exporter. */
  function AgentName(g: GpuScrape): string {
    if g.split then "whatap-node-agent-gpu" else "whatap-node-agent"
  }

  /** The label of the agent's pods under a key, if they have one: the pod labels win. */
  function AgentLabel(g: GpuScrape, key: string): Option<string> {
    if key in g.podLabels then Some(g.podLabels[key])
    else if key == "name" then Some(AgentName(g))
    else if key == "whatap-gpu" then Some("true")
    else None
  }

  /** Labels that only the agent's pods can be meant by: all of them theirs, and one of five keys among them. */
  predicate Identifies(labels: map<string, string>, g: GpuScrape) {
    && (forall k | k in labels :: AgentLabel(g, k) == Some(labels[k]))
    && exists k | k in labels ::
         k in ["name", "whatap-gpu", "app", "app.kubernetes.io/name", "app.kubernetes.io/instance"]
  }

  /** A target the custom resource keeps from being generated is a disabled inline one; there are no others. */
  predicate Disabled(t: Target) {
    t.Inline? && !t.enabled
  }

  lemma CoversExactly(labels: map<string, string>, g: GpuScrape)
    ensures Covers(labels, AgentLabels(g)) <==> Identifies(labels, g)
  {
    forall k ensures (k in AgentLabels(g) <==> AgentLabel(g, k).Some?)
                     && (k in AgentLabels(g) ==> AgentLabel(g, k) == Some(AgentLabels(g)[k])) {
      AgentLabelOf(g, k);
    }
    if Identifies(labels, g) {
      var k :| k in labels
               && k in ["name", "whatap-gpu", "app", "app.kubernetes.io/name", "app.kubernetes.io/instance"];
      assert IdentityKey(k);
    }
  }

  lemma AgentLabelOf(g: GpuScrape, k: string)
    ensures k in AgentLabels(g) <==> AgentLabel(g, k).Some?
    ensures k in AgentLabels(g) ==> AgentLabel(g, k) == Some(AgentLabels(g)[k])
  {}

  /** The active targets are those that are not disabled, in order. */
  lemma {:induction false} ActiveExactly(ts: seq<Target>, us: seq<Target>, t: Target)
    ensures ActiveOnes(ts + us) == ActiveOnes(ts) + ActiveOnes(us)
    ensures ActiveOnes([t]) == if Disabled(t) then [] else [t]
    ensures t in ActiveOnes(ts) <==> t in ts && !Disabled(t)
    decreases |us|
  {
    assert [t][..0] == [];
    ActiveMembers(ts, t);
    if us == [] {
      assert ts + us == ts;
    } else {
      ActiveExactly(ts, us[..|us| - 1], t);
      assert (ts + us)[..|ts + us| - 1] == ts + us[..|us| - 1];
    }
  }

  lemma {:induction false} ActiveMembers(ts: seq<Target>, t: Target)
    ensures t in ActiveOnes(ts) <==> t in ts && !Disabled(t)
  {
    if ts != [] {
      ActiveMembers(ts[..|ts| - 1], t);
      assert ts == ts[..|ts| - 1] + [ts[|ts| - 1]];
    }
  }

  /**
   The automatic target is added exactly when GPU monitoring is on and no target that is not disabled has its name or
   selects by labels that identify the agent's pods.
   */
  lemma AutoAddedExactly(ts: seq<Target>, g: GpuScrape, out: seq<Value>)
    requires Generated(ts, g, out)
    ensures |out| > |ActiveOnes(ts)| <==>
            && g.enabled
            && forall t | t in ts && !Disabled(t) ::
                 && (if t.Inline? then t.targetName else t.namespace + "/" + t.name) != "dcgm-exporter-auto"
                 && !Identifies(if t.Static? then map[] else t.selector.matchLabels, g)
  {
    hide Covers, Identifies, AgentLabels, Canonical;
    forall t ensures t in ActiveOnes(ts) <==> t in ts && !Disabled(t) {
      ActiveMembers(ts, t);
    }
    forall t: Target
      ensures CoversAgent(t, AgentLabels(g)) <==>
              || (if t.Inline? then t.targetName else t.namespace + "/" + t.name) == "dcgm-exporter-auto"
              || Identifies(if t.Static? then map[] else t.selector.matchLabels, g)
    {
      CoversExactly(SelectorLabels(t), g);
    }
  }
}
