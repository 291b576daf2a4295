/**
 TLS material of scrape endpoints: how a secret reference becomes a file path in the generated
 configuration, and which secret volumes are mounted so that the file exists.
 */
module TlsSecrets {
  import opened Maybe
  import opened Enumeration
  import opened OrderedYaml

  datatype SecretKey = SecretKey(name: string, key: string)

  datatype Tls = Tls(insecureSkipVerify: bool, caSecret: Option<SecretKey>, certSecret: Option<SecretKey>,
                     keySecret: Option<SecretKey>, caFile: string, certFile: string, keyFile: string,
                     serverName: string)

  /** An endpoint; credentials and relabelling rules are already rendered. */
  datatype Endpoint = Endpoint(port: string, address: string, path: string, interval: string, scheme: string,
                               basicAuth: Option<Value>, authorization: Option<Value>, tls: Option<Tls>,
                               params: map<string, seq<string>>, addNodeLabel: bool, metricRelabel: seq<Value>)

  const CERT_ROOT := "/etc/ssl/certs/"

  // ------------------------------------------------------------------ rendering

  function SecretPath(s: SecretKey): string {
    CERT_ROOT + s.name + "/" + s.key
  }

  /** An explicit file wins over a secret. */
  function FileFor(file: string, secret: Option<SecretKey>): Option<string> {
    if file != "" then Some(file) else if secret.Some? then Some(SecretPath(secret.value)) else None
  }

  function Entry(key: string, value: Option<string>): map<string, Value> {
    if value.Some? then map[key := Text(value.value)] else map[]
  }

  function NonEmpty(s: string): Option<string> {
    if s == "" then None else Some(s)
  }

  function TlsEntries(t: Tls): map<string, Value> {
    map["insecureSkipVerify" := Opaque(if t.insecureSkipVerify then "true" else "false")]
    + Entry("caFile", FileFor(t.caFile, t.caSecret))
    + Entry("certFile", FileFor(t.certFile, t.certSecret))
    + Entry("keyFile", FileFor(t.keyFile, t.keySecret))
    + Entry("serverName", NonEmpty(t.serverName))
  }

  function PlainEntries(e: Endpoint): map<string, Value> {
    Entry("port", NonEmpty(e.port)) + Entry("address", NonEmpty(e.address)) + Entry("path", NonEmpty(e.path))
    + Entry("interval", NonEmpty(e.interval)) + Entry("scheme", NonEmpty(e.scheme))
  }

  function TlsConfig(e: Endpoint): Option<Value> {
    if e.tls.Some? then Some(AnyMap(TlsEntries(e.tls.value))) else None
  }

  function RestEntries(e: Endpoint): map<string, Value> {
    Optional("params", if e.params != map[] then Some(TextsMap(e.params)) else None)
    + Optional("addNodeLabel", if e.addNodeLabel then Some(Opaque("true")) else None)
    + Optional("metricRelabelConfigs", if e.metricRelabel != [] then Some(List(e.metricRelabel)) else None)
  }

  function EndpointEntries(e: Endpoint): map<string, Value> {
    PlainEntries(e) + Optional("basicAuth", e.basicAuth) + Optional("authorization", e.authorization)
    + Optional("tlsConfig", TlsConfig(e)) + RestEntries(e)
  }

  function EndpointMap(e: Endpoint): Value {
    AnyMap(EndpointEntries(e))
  }

  function EndpointMaps(es: seq<Endpoint>): seq<Value> {
    seq(|es|, i requires 0 <= i < |es| => EndpointMap(es[i]))
  }

  /** Sets the entry when the text is not empty. */
  method PutText(m: map<string, Value>, key: string, text: string) returns (r: map<string, Value>)
    ensures r == m + Entry(key, NonEmpty(text))
  {
    r := m;
    if text != "" {
      r := r[key := Text(text)];
    }
  }

  /** An explicit file, else the path of the secret, else nothing. */
  method PutFile(m: map<string, Value>, key: string, file: string, secret: Option<SecretKey>)
      returns (r: map<string, Value>)
    ensures r == m + Entry(key, FileFor(file, secret))
  {
    r := m;
    if file != "" {
      r := r[key := Text(file)];
    } else if secret.Some? {
      r := r[key := Text("/etc/ssl/certs/" + secret.value.name + "/" + secret.value.key)];
    }
  }

  method ConvertTls(t: Tls) returns (m: map<string, Value>)
    ensures m == TlsEntries(t)
  {
    hide Entry, FileFor;
    m := map["insecureSkipVerify" := Opaque(if t.insecureSkipVerify then "true" else "false")];
    m := PutFile(m, "caFile", t.caFile, t.caSecret);
    m := PutFile(m, "certFile", t.certFile, t.certSecret);
    m := PutFile(m, "keyFile", t.keyFile, t.keySecret);
    m := PutText(m, "serverName", t.serverName);
  }

  method ConvertPlain(e: Endpoint) returns (m: map<string, Value>)
    ensures m == PlainEntries(e)
  {
    hide Entry;
    m := PutText(map[], "port", e.port);
    Unit(Entry("port", NonEmpty(e.port)));
    m := PutText(m, "address", e.address);
    m := PutText(m, "path", e.path);
    m := PutText(m, "interval", e.interval);
    m := PutText(m, "scheme", e.scheme);
  }

  method ConvertRest(e: Endpoint) returns (m: map<string, Value>)
    ensures m == RestEntries(e)
  {
    hide Optional;
    m := Put(map[], "params", if |e.params| > 0 then Some(TextsMap(e.params)) else None);
    Unit(Optional("params", if e.params != map[] then Some(TextsMap(e.params)) else None));
    m := Put(m, "addNodeLabel", if e.addNodeLabel then Some(Opaque("true")) else None);
    m := Put(m, "metricRelabelConfigs", if |e.metricRelabel| > 0 then Some(List(e.metricRelabel)) else None);
  }

  method ConvertEndpoint(e: Endpoint) returns (endpointMap: map<string, Value>)
    ensures endpointMap == EndpointEntries(e)
  {
    hide Optional, PlainEntries, TlsEntries;
    endpointMap := ConvertPlain(e);
    endpointMap := Put(endpointMap, "basicAuth", e.basicAuth);
    endpointMap := Put(endpointMap, "authorization", e.authorization);
    if e.tls.Some? {
      var tlsConfig := ConvertTls(e.tls.value);
      endpointMap := Put(endpointMap, "tlsConfig", Some(AnyMap(tlsConfig)));
    } else {
      endpointMap := Put(endpointMap, "tlsConfig", None);
    }
    var rest := ConvertRest(e);
    endpointMap := endpointMap + rest;
  }

  method ConvertEndpoints(endpoints: seq<Endpoint>) returns (result: seq<Value>)
    ensures result == EndpointMaps(endpoints)
  {
    result := [];
    for i := 0 to |endpoints|
      invariant result == EndpointMaps(endpoints)[..i]
    {
      var endpointMap := ConvertEndpoint(endpoints[i]);
      result := result + [AnyMap(endpointMap)];
    }
  }

  /** Where an endpoint's certificate settings are. */
  lemma EndpointTls(e: Endpoint)
    ensures "tlsConfig" in EndpointEntries(e) <==> e.tls.Some?
    ensures e.tls.Some? ==> EndpointEntries(e)["tlsConfig"] == AnyMap(TlsEntries(e.tls.value))
  {
    hide EndpointEntries, TlsEntries;
    EndpointSettings(e, "tlsConfig");
  }

  // ------------------------------------------------------------------ collection

  function Ref(s: Option<SecretKey>): set<SecretKey> {
    if s.Some? then {s.value} else {}
  }

  /** The secrets an endpoint references. */
  function EndpointRefs(e: Endpoint): set<SecretKey> {
    if e.tls.None? then {}
    else Ref(e.tls.value.caSecret) + Ref(e.tls.value.certSecret) + Ref(e.tls.value.keySecret)
  }

  /** The secrets referenced by some endpoint of a list. */
  function Refs(endpoints: seq<Endpoint>): set<SecretKey> {
    set e, s | e in endpoints && s in EndpointRefs(e) :: s
  }

  /** The secrets referenced by some endpoint of some list. */
  function AllRefs(lists: seq<seq<Endpoint>>): set<SecretKey> {
    set l, s | l in lists && s in Refs(l) :: s
  }

  /** A reference is one that some endpoint of some list makes for one of its three certificate settings. */
  lemma RefsExactly(lists: seq<seq<Endpoint>>, s: SecretKey)
    ensures s in AllRefs(lists) <==>
            exists l, e | l in lists && e in l ::
              && e.tls.Some?
              && (e.tls.value.caSecret == Some(s) || e.tls.value.certSecret == Some(s)
                  || e.tls.value.keySecret == Some(s))
  {
    if l, e :| && l in lists && e in l && e.tls.Some?
               && (e.tls.value.caSecret == Some(s) || e.tls.value.certSecret == Some(s)
                   || e.tls.value.keySecret == Some(s)) {
      assert s in EndpointRefs(e) && s in Refs(l);
    }
    if s in AllRefs(lists) {
      var l :| l in lists && s in Refs(l);
      var e :| e in l && s in EndpointRefs(e);
    }
  }

  /** Each reference is listed once under its secret, each listed key was referenced, no secret is empty. */
  ghost predicate Collects(m: map<string, seq<string>>, refs: set<SecretKey>) {
    && (forall s | s in refs :: s.name in m && s.key in m[s.name])
    && (forall n, k | n in m && k in m[n] :: SecretKey(n, k) in refs)
    && (forall n | n in m :: Distinct(m[n]) && m[n] != [])
  }

  class Secrets {
    var keys: map<string, seq<string>>

    constructor ()
      ensures keys == map[]
    {
      keys := map[];
    }

    method Add(sel: Option<SecretKey>, ghost refs: set<SecretKey>)
      requires Collects(keys, refs)
      modifies this
      ensures Collects(keys, refs + Ref(sel))
    {
      if sel.None? {
        return;
      }
      var name, key := sel.value.name, sel.value.key;
      assert sel.value == SecretKey(name, key);
      if name !in keys {
        keys := keys[name := []];
      }
      if key !in keys[name] {
        keys := keys[name := keys[name] + [key]];
        assert Distinct(keys[name]);
      }
    }

    method AddEndpoint(endpoint: Endpoint, ghost refs: set<SecretKey>)
      requires Collects(keys, refs)
      modifies this
      ensures Collects(keys, refs + EndpointRefs(endpoint))
    {
      assert endpoint.tls.None? ==> refs + EndpointRefs(endpoint) == refs;
      if endpoint.tls.None? {
        return;
      }
      var tls := endpoint.tls.value;
      ghost var ca := refs + Ref(tls.caSecret);
      ghost var cert := ca + Ref(tls.certSecret);
      Add(tls.caSecret, refs);
      Add(tls.certSecret, ca);
      Add(tls.keySecret, cert);
      assert refs + EndpointRefs(endpoint) == cert + Ref(tls.keySecret);
    }

    method AddTLSSecretsFromEndpoints(endpoints: seq<Endpoint>, ghost refs: set<SecretKey>)
      requires Collects(keys, refs)
      modifies this
      ensures Collects(keys, refs + Refs(endpoints))
    {
      hide Collects;
      assert refs + Refs([]) == refs;
      for i := 0 to |endpoints|
        invariant Collects(keys, refs + Refs(endpoints[..i]))
      {
        assert endpoints[..i + 1] == endpoints[..i] + [endpoints[i]];
        RefsSnoc(endpoints[..i], endpoints[i]);
        assert refs + Refs(endpoints[..i + 1]) == refs + Refs(endpoints[..i]) + EndpointRefs(endpoints[i]);
        AddEndpoint(endpoints[i], refs + Refs(endpoints[..i]));
      }
      assert endpoints[..|endpoints|] == endpoints;
    }
  }

  lemma RefsSnoc(endpoints: seq<Endpoint>, e: Endpoint)
    ensures Refs(endpoints + [e]) == Refs(endpoints) + EndpointRefs(e)
  {}

  /** Endpoint lists of the inline targets, the pod monitors and the service monitors. */
  method CollectAllTLSSecrets(inline: seq<seq<Endpoint>>, podMonitors: seq<seq<Endpoint>>,
                              serviceMonitors: seq<seq<Endpoint>>) returns (keys: map<string, seq<string>>)
    ensures Collects(keys, AllRefs(inline + podMonitors + serviceMonitors))
  {
    var secrets := new Secrets();
    var all := inline + podMonitors + serviceMonitors;
    for i := 0 to |all|
      invariant fresh(secrets)
      invariant Collects(secrets.keys, AllRefs(all[..i]))
    {
      assert all[..i + 1] == all[..i] + [all[i]];
      assert AllRefs(all[..i + 1]) == AllRefs(all[..i]) + Refs(all[i]);
      secrets.AddTLSSecretsFromEndpoints(all[i], AllRefs(all[..i]));
    }
    assert all[..|all|] == all;
    keys := secrets.keys;
  }

  // --------------------------------------------------------------------- volumes

  datatype Volume = Volume(name: string, secretName: string, items: seq<string>)

  datatype Mount = Mount(name: string, path: string)

  function VolumeName(secret: string): string {
    "tls-secret-" + secret
  }

  function VolumesFor(order: seq<string>, keys: map<string, seq<string>>): seq<Volume>
    requires forall n | n in order :: n in keys
  {
    seq(|order|, i requires 0 <= i < |order| => Volume(VolumeName(order[i]), order[i], keys[order[i]]))
  }

  function MountsFor(order: seq<string>): seq<Mount> {
    seq(|order|, i requires 0 <= i < |order| => Mount(VolumeName(order[i]), CERT_ROOT + order[i]))
  }

  method SecretVolumes(keys: map<string, seq<string>>)
      returns (volumes: seq<Volume>, mounts: seq<Mount>, order: seq<string>)
    ensures Enumerates(order, keys.Keys)
    ensures volumes == VolumesFor(order, keys) && mounts == MountsFor(order)
    ensures forall i | 0 <= i < |order| ::
              && volumes[i] == Volume("tls-secret-" + order[i], order[i], keys[order[i]])
              && mounts[i] == Mount("tls-secret-" + order[i], "/etc/ssl/certs/" + order[i])
  {
    order := Iterate(keys.Keys);
    volumes, mounts := [], [];
    for i := 0 to |order|
      invariant volumes == VolumesFor(order, keys)[..i] && mounts == MountsFor(order)[..i]
    {
      var items := [];
      for j := 0 to |keys[order[i]]|
        invariant items == keys[order[i]][..j]
      {
        items := items + [keys[order[i]][j]];
      }
      assert items == keys[order[i]];
      volumes := volumes + [Volume("tls-secret-" + order[i], order[i], items)];
      mounts := mounts + [Mount("tls-secret-" + order[i], CERT_ROOT + order[i])];
    }
  }

  /** A volume of this secret holds this key, and is mounted so that the key is the file at this path. */
  ghost predicate Backed(s: SecretKey, path: string, volumes: seq<Volume>, mounts: seq<Mount>) {
    exists i, j, k :: && 0 <= i < |volumes| && volumes[i].secretName == s.name
                      && 0 <= j < |volumes[i].items| && volumes[i].items[j] == s.key
                      && 0 <= k < |mounts| && mounts[k].name == volumes[i].name
                      && path == mounts[k].path + "/" + volumes[i].items[j]
  }

  /**
   The key of a secret is the file at a path exactly when it was referenced and the path is the one of the secret and
   the key, in whatever order the volumes come.
   */
  lemma BackedExactly(keys: map<string, seq<string>>, refs: set<SecretKey>, order: seq<string>, s: SecretKey,
                      path: string)
    requires Collects(keys, refs) && Enumerates(order, keys.Keys)
    ensures Backed(s, path, VolumesFor(order, keys), MountsFor(order)) <==>
            s in refs && path == "/etc/ssl/certs/" + s.name + "/" + s.key
  {
    var volumes, mounts := VolumesFor(order, keys), MountsFor(order);
    if s in refs && path == "/etc/ssl/certs/" + s.name + "/" + s.key {
      assert s.name in keys.Keys;
      var i :| 0 <= i < |order| && order[i] == s.name;
      var j :| 0 <= j < |keys[s.name]| && keys[s.name][j] == s.key;
      assert mounts[i].name == volumes[i].name && volumes[i].items[j] == s.key;
      assert path == mounts[i].path + "/" + volumes[i].items[j];
    }
    if Backed(s, path, volumes, mounts) {
      var i, j, k :| && 0 <= i < |volumes| && volumes[i].secretName == s.name
                     && 0 <= j < |volumes[i].items| && volumes[i].items[j] == s.key
                     && 0 <= k < |mounts| && mounts[k].name == volumes[i].name
                     && path == mounts[k].path + "/" + volumes[i].items[j];
      VolumeNameInjective(order[i], order[k]);
      assert s == SecretKey(order[i], keys[order[i]][j]);
    }
  }

  lemma VolumeNameInjective(a: string, b: string)
    ensures VolumeName(a) == VolumeName(b) ==> a == b
  {
    assert VolumeName(a)[11..] == a && VolumeName(b)[11..] == b;
  }

  /** Each item of a volume is a referenced key of the secret the volume holds, and no item is repeated. */
  lemma VolumeItems(keys: map<string, seq<string>>, refs: set<SecretKey>, order: seq<string>, v: Volume)
    requires Collects(keys, refs) && Enumerates(order, keys.Keys) && v in VolumesFor(order, keys)
    ensures Distinct(v.items) && v.items != []
    ensures forall k :: k in v.items <==> SecretKey(v.secretName, k) in refs
  {
    var i :| 0 <= i < |order| && VolumesFor(order, keys)[i] == v;
    assert order[i] in keys.Keys;
    forall k ensures k in v.items <==> SecretKey(v.secretName, k) in refs {
      assert SecretKey(v.secretName, k) in refs ==> SecretKey(v.secretName, k).name == v.secretName;
    }
  }

  /** Volume names are distinct. */
  lemma VolumeNamesDistinct(keys: map<string, seq<string>>, order: seq<string>, i: nat, j: nat)
    requires Enumerates(order, keys.Keys) && i < j < |order|
    ensures VolumesFor(order, keys)[i].name != VolumesFor(order, keys)[j].name
  {
    VolumeNameInjective(order[i], order[j]);
  }

  /** The entry of a map under a key. */
  function Lookup(m: map<string, Value>, key: string): Option<Value> {
    if key in m then Some(m[key]) else None
  }

  lemma OverEntry(m: map<string, Value>, k: string, v: Option<string>, key: string)
    ensures Lookup(m + Entry(k, v), key) == if key == k && v.Some? then Some(Text(v.value)) else Lookup(m, key)
  {}

  lemma OverOptional(m: map<string, Value>, k: string, v: Option<Value>, key: string)
    ensures Lookup(m + Optional(k, v), key) == if key == k && v.Some? then v else Lookup(m, key)
  {}

  /** The TLS settings of an endpoint, entry by entry, and no others. */
  lemma TlsSettings(t: Tls, key: string)
    ensures Lookup(TlsEntries(t), key) ==
            match key
            case "insecureSkipVerify" => Some(Opaque(if t.insecureSkipVerify then "true" else "false"))
            case "caFile" => OfText(FileFor(t.caFile, t.caSecret))
            case "certFile" => OfText(FileFor(t.certFile, t.certSecret))
            case "keyFile" => OfText(FileFor(t.keyFile, t.keySecret))
            case "serverName" => if t.serverName == "" then None else Some(Text(t.serverName))
            case _ => None
  {
    hide FileFor, Entry;
    var m := map["insecureSkipVerify" := Opaque(if t.insecureSkipVerify then "true" else "false")];
    var ca, cert := FileFor(t.caFile, t.caSecret), FileFor(t.certFile, t.certSecret);
    var file := FileFor(t.keyFile, t.keySecret);
    OverEntry(m, "caFile", ca, key);
    OverEntry(m + Entry("caFile", ca), "certFile", cert, key);
    OverEntry(m + Entry("caFile", ca) + Entry("certFile", cert), "keyFile", file, key);
    OverEntry(m + Entry("caFile", ca) + Entry("certFile", cert) + Entry("keyFile", file), "serverName",
              NonEmpty(t.serverName), key);
  }

  function OfText(text: Option<string>): Option<Value> {
    if text.Some? then Some(Text(text.value)) else None
  }

  /** A certificate setting: the explicit file, else the mounted file of the endpoint's own secret, else nothing. */
  ghost predicate SettingBacked(setting: Option<Value>, file: string, secret: Option<SecretKey>, volumes: seq<Volume>,
                                mounts: seq<Mount>) {
    if file != "" then setting == Some(Text(file))
    else match secret
      case None => setting == None
      case Some(s) =>
        && setting == Some(Text("/etc/ssl/certs/" + s.name + "/" + s.key))
        && Backed(s, "/etc/ssl/certs/" + s.name + "/" + s.key, volumes, mounts)
  }

  /** The three certificate settings an endpoint is rendered with. */
  ghost predicate SettingsBacked(ca: Option<Value>, cert: Option<Value>, key: Option<Value>, t: Tls,
                                 volumes: seq<Volume>, mounts: seq<Mount>) {
    && SettingBacked(ca, t.caFile, t.caSecret, volumes, mounts)
    && SettingBacked(cert, t.certFile, t.certSecret, volumes, mounts)
    && SettingBacked(key, t.keyFile, t.keySecret, volumes, mounts)
  }

  lemma FileBacked(file: string, secret: Option<SecretKey>, refs: set<SecretKey>, keys: map<string, seq<string>>,
                   order: seq<string>)
    requires Ref(secret) <= refs && Collects(keys, refs) && Enumerates(order, keys.Keys)
    ensures var f := FileFor(file, secret);
            SettingBacked(if f.Some? then Some(Text(f.value)) else None, file, secret, VolumesFor(order, keys),
                          MountsFor(order))
  {
    if secret.Some? {
      var s := secret.value;
      BackedExactly(keys, refs, order, s, "/etc/ssl/certs/" + s.name + "/" + s.key);
    }
  }

  /**
   Every certificate path rendered for an endpoint of an inline target, a pod monitor or a service monitor is the
   explicit file, or the mounted file of the secret the endpoint names for that setting.
   */
  lemma CertificatePathsBacked(lists: seq<seq<Endpoint>>, i: nat, e: Endpoint, keys: map<string, seq<string>>,
                               order: seq<string>)
    requires i < |lists| && e in lists[i] && e.tls.Some?
    requires Collects(keys, AllRefs(lists)) && Enumerates(order, keys.Keys)
    ensures var m := TlsEntries(e.tls.value);
            SettingsBacked(Lookup(m, "caFile"), Lookup(m, "certFile"), Lookup(m, "keyFile"), e.tls.value,
                           VolumesFor(order, keys), MountsFor(order))
  {
    hide TlsEntries, FileFor, SettingBacked, Collects;
    var t, refs := e.tls.value, AllRefs(lists);
    assert EndpointRefs(e) <= Refs(lists[i]) <= refs;
    TlsSettings(t, "caFile");
    TlsSettings(t, "certFile");
    TlsSettings(t, "keyFile");
    FileBacked(t.caFile, t.caSecret, refs, keys, order);
    FileBacked(t.certFile, t.certSecret, refs, keys, order);
    FileBacked(t.keyFile, t.keySecret, refs, keys, order);
  }

  // ------------------------------------------------------------ every entry of an endpoint

  /** The entries of an endpoint: texts that are not empty, rendered parts that are there, and no others. */
  lemma EndpointSettings(e: Endpoint, key: string)
    ensures Lookup(EndpointEntries(e), key) ==
            match key
            case "port" => Plain(e.port)
            case "address" => Plain(e.address)
            case "path" => Plain(e.path)
            case "interval" => Plain(e.interval)
            case "scheme" => Plain(e.scheme)
            case "basicAuth" => e.basicAuth
            case "authorization" => e.authorization
            case "tlsConfig" => if e.tls.Some? then Some(AnyMap(TlsEntries(e.tls.value))) else None
            case "params" => if e.params == map[] then None else Some(TextsMap(e.params))
            case "addNodeLabel" => if e.addNodeLabel then Some(Opaque("true")) else None
            case "metricRelabelConfigs" => if e.metricRelabel == [] then None else Some(List(e.metricRelabel))
            case _ => None
  {
    hide TlsEntries, PlainEntries, RestEntries, Plain, Optional;
    PlainSettings(e, key);
    RestSettings(e, key);
    var m := PlainEntries(e);
    OverOptional(m, "basicAuth", e.basicAuth, key);
    OverOptional(m + Optional("basicAuth", e.basicAuth), "authorization", e.authorization, key);
    OverOptional(m + Optional("basicAuth", e.basicAuth) + Optional("authorization", e.authorization), "tlsConfig",
                 TlsConfig(e), key);
  }

  lemma PlainSettings(e: Endpoint, key: string)
    ensures Lookup(PlainEntries(e), key) ==
            match key
            case "port" => Plain(e.port)
            case "address" => Plain(e.address)
            case "path" => Plain(e.path)
            case "interval" => Plain(e.interval)
            case "scheme" => Plain(e.scheme)
            case _ => None
  {
    hide Entry;
    var m := Entry("port", NonEmpty(e.port));
    Unit(m);
    OverEntry(map[], "port", NonEmpty(e.port), key);
    OverEntry(m, "address", NonEmpty(e.address), key);
    m := m + Entry("address", NonEmpty(e.address));
    OverEntry(m, "path", NonEmpty(e.path), key);
    m := m + Entry("path", NonEmpty(e.path));
    OverEntry(m, "interval", NonEmpty(e.interval), key);
    OverEntry(m + Entry("interval", NonEmpty(e.interval)), "scheme", NonEmpty(e.scheme), key);
  }

  lemma RestSettings(e: Endpoint, key: string)
    ensures Lookup(RestEntries(e), key) ==
            match key
            case "params" => if e.params == map[] then None else Some(TextsMap(e.params))
            case "addNodeLabel" => if e.addNodeLabel then Some(Opaque("true")) else None
            case "metricRelabelConfigs" => if e.metricRelabel == [] then None else Some(List(e.metricRelabel))
            case _ => None
  {}

  /** A text as an entry: none when empty. */
  function Plain(text: string): Option<Value> {
    if text == "" then None else Some(Text(text))
  }
}
