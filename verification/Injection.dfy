/**
 The environment the admission webhook gives a container: one injector per language, then the
 user's entries from the custom resource combined on top.
 */
module Injection {
  import opened Maybe
  import opened EnvVars
  import opened EnvOverlay

  const WHATAP_LICENSE := "WHATAP_LICENSE"
  const WHATAP_HOST := "WHATAP_HOST"
  const WHATAP_PORT := "WHATAP_PORT"
  const NODE_IP := "NODE_IP"
  const NODE_NAME := "NODE_NAME"
  const POD_NAME := "POD_NAME"
  const MICRO_ENABLED := "whatap.micro.enabled"
  const LICENSE := "license"
  const JAVA_HOST := "whatap.server.host"
  const JAVA_PORT := "whatap.server.port"
  const JAVA_AGENT_PATH := "WHATAP_JAVA_AGENT_PATH"
  const JAVA_TOOL_OPTIONS := "JAVA_TOOL_OPTIONS"
  const JAVA_AGENT_JAR := "/whatap-agent/whatap.agent.java.jar"
  const JAVA_AGENT_OPTION := "-javaagent:/whatap-agent/whatap.agent.java.jar"
  const PYTHON_HOST := "whatap_server_host"
  const PYTHON_PORT := "whatap_server_port"
  const PYTHON_AGENT_PATH := "WHATAP_PYTHON_AGENT_PATH"
  const WHATAP_HOME := "WHATAP_HOME"
  const PYTHONPATH := "PYTHONPATH"
  const APP_NAME := "app_name"
  const APP_PROCESS_NAME := "app_process_name"
  const OKIND := "OKIND"
  const NODEJS_HOST := "WHATAP_SERVER_HOST"
  const NODEJS_PORT := "WHATAP_SERVER_PORT"
  const NODEJS_AGENT_PATH := "WHATAP_NODEJS_AGENT_PATH"
  const NODE_OPTIONS := "NODE_OPTIONS"
  const NODE_PATH := "NODE_PATH"

  /** Every name the operator itself produces. */
  predicate ManagedName(n: string) {
    || n == WHATAP_LICENSE || n == WHATAP_HOST || n == WHATAP_PORT
    || n == NODE_IP || n == NODE_NAME || n == POD_NAME || n == MICRO_ENABLED
    || n == LICENSE || n == JAVA_HOST || n == JAVA_PORT || n == JAVA_AGENT_PATH || n == JAVA_TOOL_OPTIONS
    || n == PYTHON_HOST || n == PYTHON_PORT || n == PYTHON_AGENT_PATH || n == WHATAP_HOME || n == PYTHONPATH
    || n == APP_NAME || n == APP_PROCESS_NAME || n == OKIND
    || n == NODEJS_HOST || n == NODEJS_PORT || n == NODEJS_AGENT_PATH || n == NODE_OPTIONS || n == NODE_PATH
  }

  // --------------------------------------------------------- names never clash

  /** Places every produced name: below 8 the forced ones, from 8 to 13 the ones only added. */
  function Rank(n: string): int {
    if n == LICENSE || n == WHATAP_LICENSE then 0
    else if n == JAVA_HOST || n == PYTHON_HOST || n == NODEJS_HOST then 1
    else if n == JAVA_PORT || n == PYTHON_PORT || n == NODEJS_PORT then 2
    else if n == WHATAP_HOME then 3
    else if n == MICRO_ENABLED then 4
    else if n == NODE_IP then 5
    else if n == NODE_NAME then 6
    else if n == POD_NAME then 7
    else if n == APP_NAME then 8
    else if n == APP_PROCESS_NAME then 9
    else if n == OKIND then 10
    else if n == JAVA_TOOL_OPTIONS || n == PYTHONPATH || n == NODE_PATH then 11
    else if n == NODE_OPTIONS then 12
    else if n == JAVA_AGENT_PATH || n == PYTHON_AGENT_PATH || n == NODEJS_AGENT_PATH then 13
    else 14
  }

  lemma ConnectionRanks()
    ensures Rank(LICENSE) == Rank(WHATAP_LICENSE) == 0
    ensures Rank(JAVA_HOST) == Rank(PYTHON_HOST) == Rank(NODEJS_HOST) == 1
    ensures Rank(JAVA_PORT) == Rank(PYTHON_PORT) == Rank(NODEJS_PORT) == 2
  {
    assert JAVA_PORT[14] != JAVA_HOST[14] && JAVA_PORT[6] != PYTHON_HOST[6];
    assert PYTHON_PORT[14] != PYTHON_HOST[14] && PYTHON_PORT[6] != JAVA_HOST[6];
    assert NODEJS_PORT[14] != NODEJS_HOST[14];
  }

  lemma MetadataRanks()
    ensures Rank(WHATAP_HOME) == 3 && Rank(MICRO_ENABLED) == 4 && Rank(NODE_IP) == 5
    ensures Rank(NODE_NAME) == 6 && Rank(POD_NAME) == 7
  {
    assert NODE_IP[0] != LICENSE[0];
  }

  lemma AddedRanks()
    ensures Rank(APP_NAME) == 8 && Rank(APP_PROCESS_NAME) == 9 && Rank(OKIND) == 10
    ensures Rank(JAVA_TOOL_OPTIONS) == Rank(PYTHONPATH) == Rank(NODE_PATH) == 11
    ensures Rank(NODE_OPTIONS) == 12
    ensures Rank(JAVA_AGENT_PATH) == Rank(PYTHON_AGENT_PATH) == Rank(NODEJS_AGENT_PATH) == 13
  {
    assert APP_NAME[0] != POD_NAME[0];
    assert NODE_PATH[5] != NODE_NAME[5];
  }

  /** The operator's own connection settings, used when the target names none. */
  datatype Operator = Operator(license: string, host: string, port: string)

  // ------------------------------------------------------- connection settings

  function FirstAlias(envs: seq<EnvVar>, keys: seq<string>): Option<string> {
    if keys == [] then None
    else match Effective(envs, keys[0])
      case Some(e) => Some(e.value)
      case None => FirstAlias(envs, keys[1..])
  }

  method FindEnvValueByKeys(envs: seq<EnvVar>, keys: seq<string>) returns (found: Option<string>)
    ensures found == FirstAlias(envs, keys)
  {
    for i := 0 to |keys|
      invariant FirstAlias(envs, keys[i..]) == FirstAlias(envs, keys)
    {
      assert keys[i..][0] == keys[i] && keys[i..][1..] == keys[i + 1..];
      for j := 0 to |envs|
        invariant Entries(envs[j..], keys[i]) == Entries(envs, keys[i])
      {
        assert envs[j..][0] == envs[j] && envs[j..][1..] == envs[j + 1..];
        if envs[j].name == keys[i] {
          return Some(envs[j].value);
        }
      }
      assert envs[|envs|..] == [];
    }
    found := None;
  }

  /** The first hit in key-priority order; absent exactly when no key is present. */
  lemma {:induction false} FirstAliasMeaning(envs: seq<EnvVar>, keys: seq<string>, i: nat)
    requires i <= |keys|
    requires forall j | 0 <= j < i :: !Has(envs, keys[j])
    requires i < |keys| ==> Has(envs, keys[i])
    ensures i < |keys| ==> Effective(envs, keys[i]).Some?
    ensures FirstAlias(envs, keys) ==
            if i == |keys| then None else Some(Effective(envs, keys[i]).value.value)
  {
    if keys != [] {
      EntriesNonEmpty(envs, keys[0]);
      if i > 0 {
        FirstAliasMeaning(envs, keys[1..], i - 1);
      }
    }
  }

  const LICENSE_KEYS := [WHATAP_LICENSE, LICENSE]
  const HOST_KEYS := [WHATAP_HOST, JAVA_HOST, PYTHON_HOST, NODEJS_HOST]
  const PORT_KEYS := [WHATAP_PORT, JAVA_PORT, PYTHON_PORT, NODEJS_PORT]

  function Connection(names: seq<string>, user: seq<EnvVar>, op: Operator): seq<EnvVar>
    requires |names| == 3
  {
    [Plain(names[0], FirstAlias(user, LICENSE_KEYS).GetOr(op.license)),
     Plain(names[1], FirstAlias(user, HOST_KEYS).GetOr(op.host)),
     Plain(names[2], FirstAlias(user, PORT_KEYS).GetOr(op.port))]
  }

  method ConnectionEnvVars(names: seq<string>, user: seq<EnvVar>, op: Operator) returns (envs: seq<EnvVar>)
    requires |names| == 3
    ensures envs == Connection(names, user, op)
  {
    var license := FindEnvValueByKeys(user, LICENSE_KEYS);
    var host := FindEnvValueByKeys(user, HOST_KEYS);
    var port := FindEnvValueByKeys(user, PORT_KEYS);
    envs := [Plain(names[0], license.GetOr(op.license)), Plain(names[1], host.GetOr(op.host)),
             Plain(names[2], port.GetOr(op.port))];
  }

  function Metadata(): seq<EnvVar> {
    [Plain(MICRO_ENABLED, "true"), FromField(NODE_IP, "status.hostIP"), FromField(NODE_NAME, "spec.nodeName"),
     FromField(POD_NAME, "metadata.name")]
  }

  // ---------------------------------------------------------------------- Java

  const JAVA_NAMES := [LICENSE, JAVA_HOST, JAVA_PORT]

  /** The first entry with the name gets the option appended to its value. */
  function AugmentFirst(envs: seq<EnvVar>, name: string, option: string): seq<EnvVar> {
    if envs == [] then []
    else if envs[0].name == name then [envs[0].(value := envs[0].value + " " + option)] + envs[1..]
    else [envs[0]] + AugmentFirst(envs[1..], name, option)
  }

  function ToolOptions(envs: seq<EnvVar>, option: string := JAVA_AGENT_OPTION): seq<EnvVar> {
    if Has(envs, JAVA_TOOL_OPTIONS) then AugmentFirst(envs, JAVA_TOOL_OPTIONS, option)
    else envs + [Plain(JAVA_TOOL_OPTIONS, option)]
  }

  lemma {:induction false} AugmentFirstAt(envs: seq<EnvVar>, name: string, option: string, i: nat)
    requires i <= |envs| && (i < |envs| ==> envs[i].name == name)
    requires forall k | 0 <= k < i :: envs[k].name != name
    ensures AugmentFirst(envs, name, option) ==
            if i == |envs| then envs else envs[i := envs[i].(value := envs[i].value + " " + option)]
  {
    if i > 0 {
      AugmentFirstAt(envs[1..], name, option, i - 1);
    }
  }

  /** Writes into the container's own storage when the variable exists. */
  method InjectJavaToolOptions(env: array<EnvVar>, agentOption: string) returns (envVars: seq<EnvVar>)
    modifies env
    ensures envVars == ToolOptions(old(env[..]), agentOption)
    ensures env[..] == AugmentFirst(old(env[..]), JAVA_TOOL_OPTIONS, agentOption)
  {
    ghost var was := env[..];
    for i := 0 to env.Length
      invariant env[..] == was
      invariant forall k | 0 <= k < i :: was[k].name != JAVA_TOOL_OPTIONS
    {
      if env[i].name == JAVA_TOOL_OPTIONS {
        AugmentFirstAt(was, JAVA_TOOL_OPTIONS, agentOption, i);
        assert was[i] in was;
        env[i] := env[i].(value := env[i].value + " " + agentOption);
        assert env[..] == was[i := env[i]];
        return env[..];
      }
    }
    AugmentFirstAt(was, JAVA_TOOL_OPTIONS, agentOption, |was|);
    envVars := env[..] + [Plain(JAVA_TOOL_OPTIONS, agentOption)];
  }

  predicate SameNames(a: seq<EnvVar>, b: seq<EnvVar>) {
    |a| == |b| && forall i | 0 <= i < |a| :: a[i].name == b[i].name
  }

  lemma {:induction false} AugmentFirstMeaning(envs: seq<EnvVar>, name: string, option: string, k: string)
    ensures Entries(AugmentFirst(envs, name, option), k) ==
            if k == name then AugmentFirst(Entries(envs, k), name, option) else Entries(envs, k)
    ensures SameNames(AugmentFirst(envs, name, option), envs)
  {
    if envs != [] {
      var e, rest := envs[0], envs[1..];
      if e.name == name {
        EntriesCons(e.(value := e.value + " " + option), rest, k);
        assert k == name ==> Entries(envs, k)[1..] == Entries(rest, k);
      } else {
        AugmentFirstMeaning(rest, name, option, k);
        EntriesCons(e, AugmentFirst(rest, name, option), k);
      }
    }
  }

  lemma SameNamesHas(a: seq<EnvVar>, b: seq<EnvVar>, n: string)
    requires SameNames(a, b)
    ensures Has(a, n) <==> Has(b, n)
  {
    if Has(a, n) {
      var i :| 0 <= i < |a| && a[i].name == n;
      assert b[i] in b;
    }
    if Has(b, n) {
      var i :| 0 <= i < |b| && b[i].name == n;
      assert a[i] in a;
    }
  }

  function IfAbsent(env: seq<EnvVar>, e: EnvVar): seq<EnvVar> {
    if Has(env, e.name) then [] else [e]
  }

  function JavaEnv(env: seq<EnvVar>, user: seq<EnvVar>, op: Operator): seq<EnvVar> {
    Upsert(ToolOptions(env) + IfAbsent(env, Plain(JAVA_AGENT_PATH, JAVA_AGENT_JAR)),
           Connection(JAVA_NAMES, user, op) + Metadata())
  }

  method HasName(envs: seq<EnvVar>, name: string) returns (has: bool)
    ensures has == Has(envs, name)
  {
    has := false;
    for i := 0 to |envs|
      invariant !Has(envs[..i], name)
    {
      assert envs[..i + 1] == envs[..i] + [envs[i]];
      if envs[i].name == name {
        assert envs[i] in envs;
        return true;
      }
    }
    assert envs[..|envs|] == envs;
  }

  method InjectJavaEnvVars(env: array<EnvVar>, user: seq<EnvVar>, op: Operator) returns (envs: seq<EnvVar>)
    modifies env
    ensures envs == JavaEnv(old(env[..]), user, op)
  {
    ghost var was := env[..];
    var envVars := InjectJavaToolOptions(env, JAVA_AGENT_OPTION);
    AugmentFirstMeaning(was, JAVA_TOOL_OPTIONS, JAVA_AGENT_OPTION, JAVA_AGENT_PATH);
    SameNamesHas(env[..], was, JAVA_AGENT_PATH);
    var hasAgentPath := HasName(env[..], JAVA_AGENT_PATH);
    if !hasAgentPath {
      hasAgentPath := HasName(envVars, JAVA_AGENT_PATH);
      ToolOptionsHas(was, JAVA_AGENT_PATH);
      if !hasAgentPath {
        envVars := envVars + [Plain(JAVA_AGENT_PATH, JAVA_AGENT_JAR)];
      }
    }
    assert envVars == ToolOptions(was) + IfAbsent(was, Plain(JAVA_AGENT_PATH, JAVA_AGENT_JAR));
    var connection := ConnectionEnvVars(JAVA_NAMES, user, op);
    envs := UpsertEnvVars(envVars, connection + Metadata());
  }

  lemma ToolOptionsHas(env: seq<EnvVar>, n: string)
    requires n != JAVA_TOOL_OPTIONS
    ensures Has(ToolOptions(env), n) <==> Has(env, n)
  {
    AugmentFirstMeaning(env, JAVA_TOOL_OPTIONS, JAVA_AGENT_OPTION, n);
    if Has(env, JAVA_TOOL_OPTIONS) {
      SameNamesHas(ToolOptions(env), env, n);
    }
  }

  // ----------------------------------------------------------- Python, Node.js

  datatype SearchPath = SearchPath(name: string, addition: string, separator: string)

  /** What distinguishes the two script-language injectors. */
  datatype Dialect = Dialect(names: seq<string>, paths: seq<SearchPath>, agentPath: string, agentLocation: string)

  const PYTHON := Dialect([LICENSE, PYTHON_HOST, PYTHON_PORT],
                          [SearchPath(PYTHONPATH, "/whatap-agent/whatap/bootstrap", ":")],
                          PYTHON_AGENT_PATH, "/whatap-agent/whatap_python")

  const NODEJS := Dialect([WHATAP_LICENSE, NODEJS_HOST, NODEJS_PORT],
                          [SearchPath(NODE_PATH, "/whatap-agent/node_modules", ":"),
                           SearchPath(NODE_OPTIONS, "-r whatap", " ")],
                          NODEJS_AGENT_PATH, "/whatap-agent/node_modules/whatap/agent/whatap_nodejs")

  function LastValue(envs: seq<EnvVar>, name: string): string {
    match Last(envs, name)
    case None => ""
    case Some(e) => e.value
  }

  lemma LastValueSnoc(envs: seq<EnvVar>, e: EnvVar, name: string)
    ensures LastValue(envs + [e], name) == if e.name == name then e.value else LastValue(envs, name)
  {
    EntriesConcat(envs, [e], name);
  }

  method GetAppConfig(envs: seq<EnvVar>) returns (appName: string, appProcessName: string, okind: string)
    ensures appName == LastValue(envs, APP_NAME)
    ensures appProcessName == LastValue(envs, APP_PROCESS_NAME)
    ensures okind == LastValue(envs, OKIND)
  {
    appName, appProcessName, okind := "", "", "";
    for i := 0 to |envs|
      invariant appName == LastValue(envs[..i], APP_NAME)
      invariant appProcessName == LastValue(envs[..i], APP_PROCESS_NAME)
      invariant okind == LastValue(envs[..i], OKIND)
    {
      var e := envs[i];
      assert envs[..i + 1] == envs[..i] + [e];
      LastValueSnoc(envs[..i], e, APP_NAME);
      LastValueSnoc(envs[..i], e, APP_PROCESS_NAME);
      LastValueSnoc(envs[..i], e, OKIND);
      if e.name == APP_NAME {
        appName := e.value;
      } else if e.name == APP_PROCESS_NAME {
        appProcessName := e.value;
      } else if e.name == OKIND {
        okind := e.value;
      }
    }
    assert envs[..|envs|] == envs;
  }

  /** Prepends to the first entry of that name unless it has an indirect value; appends when there is none. */
  function WithPath(envs: seq<EnvVar>, p: SearchPath): seq<EnvVar> {
    if envs == [] then [Plain(p.name, p.addition)]
    else if envs[0].name == p.name then
      (if envs[0].from.Some? then envs
       else [envs[0].(value := p.addition + p.separator + envs[0].value)] + envs[1..])
    else [envs[0]] + WithPath(envs[1..], p)
  }

  lemma {:induction false} WithPathAt(envs: seq<EnvVar>, p: SearchPath, i: nat)
    requires i < |envs| && envs[i].name == p.name
    requires forall k | 0 <= k < i :: envs[k].name != p.name
    ensures WithPath(envs, p) ==
            if envs[i].from.Some? then envs
            else envs[i := envs[i].(value := p.addition + p.separator + envs[i].value)]
  {
    if i > 0 {
      WithPathAt(envs[1..], p, i - 1);
    }
  }

  method InjectSearchPath(envs: seq<EnvVar>, p: SearchPath) returns (envVars: seq<EnvVar>)
    ensures envVars == WithPath(envs, p)
  {
    for i := 0 to |envs|
      invariant forall k | 0 <= k < i :: envs[k].name != p.name
    {
      if envs[i].name == p.name {
        WithPathAt(envs, p, i);
        if envs[i].from.Some? {
          return envs;
        }
        envVars := envs[i := envs[i].(value := p.addition + p.separator + envs[i].value)];
        return;
      }
    }
    WithNewPath(envs, p);
    envVars := envs + [Plain(p.name, p.addition)];
  }

  lemma {:induction false} WithNewPath(envs: seq<EnvVar>, p: SearchPath)
    requires !Has(envs, p.name)
    ensures WithPath(envs, p) == envs + [Plain(p.name, p.addition)]
  {
    if envs != [] {
      assert envs[0] in envs;
      assert !Has(envs[1..], p.name) by {
        assert forall e | e in envs[1..] :: e in envs;
      }
      WithNewPath(envs[1..], p);
    }
  }

  function HomeAndMetadata(): seq<EnvVar> {
    [Plain(WHATAP_HOME, "/whatap-agent")] + Metadata()
  }

  function Forced(d: Dialect, user: seq<EnvVar>, op: Operator): seq<EnvVar>
    requires |d.names| == 3
  {
    Connection(d.names, user, op) + HomeAndMetadata()
  }

  /** The application's identity: the user's last value, and the container's name when that is empty. */
  function Identity(containerName: string, user: seq<EnvVar>): seq<EnvVar> {
    var appName := LastValue(user, APP_NAME);
    [Plain(APP_NAME, if appName == "" then containerName else appName),
     Plain(APP_PROCESS_NAME, LastValue(user, APP_PROCESS_NAME))]
  }

  function Kind(user: seq<EnvVar>): seq<EnvVar> {
    var okind := LastValue(user, OKIND);
    if okind == "" then [] else [Plain(OKIND, okind)]
  }

  function PathEntries(paths: seq<SearchPath>): seq<EnvVar> {
    seq(|paths|, i requires 0 <= i < |paths| => Plain(paths[i].name, paths[i].addition))
  }

  /** What the operator adds only to containers that do not already set it. */
  function Added(d: Dialect, containerName: string, user: seq<EnvVar>): seq<EnvVar> {
    Identity(containerName, user) + (Kind(user) + PathEntries(d.paths)) + [Plain(d.agentPath, d.agentLocation)]
  }

  predicate ForcedName(d: Dialect, n: string)
    requires |d.names| == 3
  {
    || n == d.names[0] || n == d.names[1] || n == d.names[2]
    || n == WHATAP_HOME || n == MICRO_ENABLED || n == NODE_IP || n == NODE_NAME || n == POD_NAME
  }

  function ForceOf(d: Dialect): string -> bool
    requires |d.names| == 3
  {
    n => ForcedName(d, n)
  }

  function Base(d: Dialect, containerName: string, user: seq<EnvVar>, op: Operator): seq<EnvVar>
    requires |d.names| == 3
  {
    Connection(d.names, user, op) + Identity(containerName, user) + HomeAndMetadata() + Kind(user)
  }

  function WithPaths(envs: seq<EnvVar>, paths: seq<SearchPath>): seq<EnvVar> {
    if paths == [] then envs else WithPath(WithPaths(envs, paths[..|paths| - 1]), paths[|paths| - 1])
  }

  function ScriptLocal(d: Dialect, env: seq<EnvVar>, containerName: string, user: seq<EnvVar>, op: Operator)
    : seq<EnvVar>
    requires |d.names| == 3
  {
    var envs := WithPaths(Base(d, containerName, user, op), d.paths);
    envs + if Has(env, d.agentPath) || Has(envs, d.agentPath) then [] else [Plain(d.agentPath, d.agentLocation)]
  }

  function ScriptEnv(d: Dialect, env: seq<EnvVar>, containerName: string, user: seq<EnvVar>, op: Operator): seq<EnvVar>
    requires |d.names| == 3
  {
    Combine(env, ScriptLocal(d, env, containerName, user, op), ForceOf(d))
  }

  method ScriptBase(d: Dialect, containerName: string, user: seq<EnvVar>, op: Operator) returns (envVars: seq<EnvVar>)
    requires |d.names| == 3
    ensures envVars == Base(d, containerName, user, op)
  {
    var appName, appProcessName, okind := GetAppConfig(user);
    if appName == "" {
      appName := containerName;
    }
    var connection := ConnectionEnvVars(d.names, user, op);
    envVars := connection + [Plain(APP_NAME, appName), Plain(APP_PROCESS_NAME, appProcessName)] + HomeAndMetadata();
    if okind != "" {
      envVars := envVars + [Plain(OKIND, okind)];
    }
  }

  method InjectSearchPaths(envs: seq<EnvVar>, paths: seq<SearchPath>) returns (envVars: seq<EnvVar>)
    ensures envVars == WithPaths(envs, paths)
  {
    envVars := envs;
    for i := 0 to |paths|
      invariant envVars == WithPaths(envs, paths[..i])
    {
      assert paths[..i + 1][..i] == paths[..i];
      envVars := InjectSearchPath(envVars, paths[i]);
    }
    assert paths[..|paths|] == paths;
  }

  method InjectScriptEnvVars(d: Dialect, env: seq<EnvVar>, containerName: string, user: seq<EnvVar>, op: Operator)
      returns (envs: seq<EnvVar>)
    requires |d.names| == 3
    ensures envs == ScriptEnv(d, env, containerName, user, op)
  {
    var envVars := ScriptBase(d, containerName, user, op);
    envVars := InjectSearchPaths(envVars, d.paths);
    assert envVars + [] == envVars;
    var hasAgentPath := HasName(env, d.agentPath);
    if !hasAgentPath {
      hasAgentPath := HasName(envVars, d.agentPath);
      if !hasAgentPath {
        envVars := envVars + [Plain(d.agentPath, d.agentLocation)];
      }
    }
    assert envVars == ScriptLocal(d, env, containerName, user, op);
    envs := CombineEnvVars(env, envVars, ForceOf(d));
  }

  // ------------------------------------------------- what a dialect contributes

  /** The names both dialects use and the dialect's own occupy their own places. */
  ghost predicate Placed(d: Dialect, rank: string -> int) {
    && |d.names| == 3 && |d.paths| <= 2
    && (forall i | 0 <= i < 3 :: rank(d.names[i]) == i)
    && rank(WHATAP_HOME) == 3 && rank(MICRO_ENABLED) == 4 && rank(NODE_IP) == 5
    && rank(NODE_NAME) == 6 && rank(POD_NAME) == 7
    && rank(APP_NAME) == 8 && rank(APP_PROCESS_NAME) == 9 && rank(OKIND) == 10
    && (forall i | 0 <= i < |d.paths| :: rank(d.paths[i].name) == 11 + i)
    && rank(d.agentPath) == 13
  }

  lemma DialectsPlaced()
    ensures Placed(PYTHON, Rank) && Placed(NODEJS, Rank)
  {
    ConnectionRanks();
    MetadataRanks();
    AddedRanks();
  }

  lemma {:induction false} PathsAppended(envs: seq<EnvVar>, paths: seq<SearchPath>, rank: string -> int)
    requires forall e | e in envs :: rank(e.name) < 11
    requires forall i | 0 <= i < |paths| :: rank(paths[i].name) == 11 + i
    ensures WithPaths(envs, paths) == envs + PathEntries(paths)
  {
    if paths != [] {
      var front, last := paths[..|paths| - 1], paths[|paths| - 1];
      PathsAppended(envs, front, rank);
      assert !Has(envs + PathEntries(front), last.name);
      WithNewPath(envs + PathEntries(front), last);
      assert PathEntries(paths) == PathEntries(front) + [Plain(last.name, last.addition)];
    }
  }

  lemma ForcedPartsRanked(d: Dialect, user: seq<EnvVar>, op: Operator, rank: string -> int)
    requires Placed(d, rank)
    ensures Ranked(Connection(d.names, user, op), rank, 0, 3)
    ensures Ranked([Plain(WHATAP_HOME, "/whatap-agent")], rank, 3, 4)
    ensures Ranked(Metadata(), rank, 4, 8)
  {}

  lemma PathsRanked(d: Dialect, rank: string -> int)
    requires Placed(d, rank)
    ensures Ranked(PathEntries(d.paths), rank, 11, 13)
    ensures Ranked([Plain(d.agentPath, d.agentLocation)], rank, 13, 14)
  {
    var paths := PathEntries(d.paths);
    assert forall i | 0 <= i < |paths| :: rank(paths[i].name) == 11 + i;
  }

  lemma AddedPartsRanked(d: Dialect, containerName: string, user: seq<EnvVar>, rank: string -> int)
    requires Placed(d, rank)
    ensures Ranked(Identity(containerName, user), rank, 8, 10)
    ensures Ranked(Kind(user), rank, 10, 11)
    ensures Ranked(PathEntries(d.paths), rank, 11, 13)
    ensures Ranked([Plain(d.agentPath, d.agentLocation)], rank, 13, 14)
  {
    PathsRanked(d, rank);
    assert |Kind(user)| <= 1;
    assert |Identity(containerName, user)| == 2;
  }

  lemma SkipSuffix(a: seq<EnvVar>, b: seq<EnvVar>, rank: string -> int, lo: int, hi: int, n: string)
    requires Ranked(b, rank, lo, hi) && !(lo <= rank(n) < hi)
    ensures Entries(a + b, n) == Entries(a, n)
  {
    AbsentByRank(b, rank, n, lo, hi);
    EntriesConcat(a, b, n);
  }

  lemma SkipPrefix(a: seq<EnvVar>, b: seq<EnvVar>, rank: string -> int, lo: int, hi: int, n: string)
    requires Ranked(a, rank, lo, hi) && !(lo <= rank(n) < hi)
    ensures Entries(a + b, n) == Entries(b, n)
  {
    AbsentByRank(a, rank, n, lo, hi);
    EntriesConcat(a, b, n);
  }

  /** Blocks in the order of the code: forced, added, forced, added. */
  lemma BlocksEntries(conn: seq<EnvVar>, id: seq<EnvVar>, meta: seq<EnvVar>, rest: seq<EnvVar>,
                      rank: string -> int, n: string)
    requires Ranked(conn, rank, 0, 3) && Ranked(meta, rank, 3, 8)
    requires Ranked(id, rank, 8, 10) && Ranked(rest, rank, 10, 14)
    ensures Entries(conn + id + meta + rest, n) ==
            if rank(n) < 8 then Entries(conn + meta, n) else Entries(id + rest, n)
  {
    if rank(n) < 8 {
      SkipSuffix(conn + id + meta, rest, rank, 10, 14, n);
      EntriesConcat(conn + id, meta, n);
      SkipSuffix(conn, id, rank, 8, 10, n);
      EntriesConcat(conn, meta, n);
    } else {
      EntriesConcat(conn + id + meta, rest, n);
      SkipSuffix(conn + id, meta, rank, 3, 8, n);
      SkipPrefix(conn, id, rank, 0, 3, n);
      EntriesConcat(id, rest, n);
    }
  }

  lemma BaseBelow(d: Dialect, containerName: string, user: seq<EnvVar>, op: Operator, rank: string -> int)
    requires Placed(d, rank)
    ensures forall e | e in Base(d, containerName, user, op) :: rank(e.name) < 11
  {
    ForcedPartsRanked(d, user, op, rank);
    AddedPartsRanked(d, containerName, user, rank);
    BlocksRanked(d, user, rank);
    assert forall e | e in Base(d, containerName, user, op) ::
        || e in Connection(d.names, user, op) || e in Identity(containerName, user)
        || e in HomeAndMetadata() || e in Kind(user);
  }

  /** The search paths and the agent path are appended: nothing produced before them has their names. */
  lemma LocalBlocks(d: Dialect, env: seq<EnvVar>, containerName: string, user: seq<EnvVar>, op: Operator,
                    rank: string -> int)
    requires Placed(d, rank)
    ensures ScriptLocal(d, env, containerName, user, op) ==
            Base(d, containerName, user, op) + PathEntries(d.paths)
            + if Has(env, d.agentPath) then [] else [Plain(d.agentPath, d.agentLocation)]
  {
    hide Base, Has, PathEntries;
    var base, paths := Base(d, containerName, user, op), PathEntries(d.paths);
    BaseBelow(d, containerName, user, op, rank);
    PathsAppended(base, d.paths, rank);
    PathsBelow(base, d, rank);
    AbsentAbove(base + paths, rank, d.agentPath, 13);
  }

  lemma PathsBelow(base: seq<EnvVar>, d: Dialect, rank: string -> int)
    requires Placed(d, rank) && forall e | e in base :: rank(e.name) < 11
    ensures forall e | e in base + PathEntries(d.paths) :: rank(e.name) < 13
  {
    PathsRanked(d, rank);
    forall e | e in base + PathEntries(d.paths) ensures rank(e.name) < 13 {
      assert e in base || e in PathEntries(d.paths);
    }
  }

  lemma AbsentAbove(envs: seq<EnvVar>, rank: string -> int, name: string, bound: int)
    requires forall e | e in envs :: rank(e.name) < bound
    requires rank(name) >= bound
    ensures !Has(envs, name)
  {}

  /** Without its agent-path entry, the list still has every other name's entries. */
  lemma WithoutAgent(id: seq<EnvVar>, added: seq<EnvVar>, agent: EnvVar, rank: string -> int, n: string)
    requires Ranked(id, rank, 8, 10) && Ranked(added, rank, 10, 13) && rank(agent.name) == 13
    ensures Entries(id + added, n) == if n == agent.name then [] else Entries(id + added + [agent], n)
  {
    EntriesConcat(id + added, [agent], n);
    if n == agent.name {
      RankedConcat(id, added, rank, 8, 10, 13);
      AbsentByRank(id + added, rank, n, 8, 13);
    }
  }

  lemma Regroup(a: seq<EnvVar>, b: seq<EnvVar>, c: seq<EnvVar>, d: seq<EnvVar>)
    ensures a + b + c + d == a + (b + c + d)
  {}

  lemma BlocksRanked(d: Dialect, user: seq<EnvVar>, rank: string -> int)
    requires Placed(d, rank)
    ensures Ranked(HomeAndMetadata(), rank, 3, 8)
    ensures Ranked(Kind(user) + PathEntries(d.paths), rank, 10, 13)
  {
    RankedConcat([Plain(WHATAP_HOME, "/whatap-agent")], Metadata(), rank, 3, 4, 8);
    PathsRanked(d, rank);
    RankedConcat(Kind(user), PathEntries(d.paths), rank, 10, 11, 13);
  }

  /** The local list holds the forced entries and the added ones, minus an agent path the container sets. */
  lemma LocalEntries(d: Dialect, env: seq<EnvVar>, containerName: string, user: seq<EnvVar>, op: Operator,
                     rank: string -> int, n: string)
    requires Placed(d, rank)
    ensures Entries(ScriptLocal(d, env, containerName, user, op), n) ==
            if rank(n) < 8 then Entries(Forced(d, user, op), n)
            else if n == d.agentPath && Has(env, n) then []
            else Entries(Added(d, containerName, user), n)
  {
    var conn, id, meta := Connection(d.names, user, op), Identity(containerName, user), HomeAndMetadata();
    var added, agent := Kind(user) + PathEntries(d.paths), Plain(d.agentPath, d.agentLocation);
    var tail := if Has(env, d.agentPath) then [] else [agent];
    LocalBlocks(d, env, containerName, user, op, rank);
    Regroup(conn + id + meta, Kind(user), PathEntries(d.paths), tail);
    ForcedPartsRanked(d, user, op, rank);
    AddedPartsRanked(d, containerName, user, rank);
    BlocksRanked(d, user, rank);
    TailEntries(conn, id, meta, added, agent, tail, rank, n);
  }

  lemma TailEntries(conn: seq<EnvVar>, id: seq<EnvVar>, meta: seq<EnvVar>, added: seq<EnvVar>, agent: EnvVar,
                    tail: seq<EnvVar>, rank: string -> int, n: string)
    requires Ranked(conn, rank, 0, 3) && Ranked(meta, rank, 3, 8) && Ranked(id, rank, 8, 10)
    requires Ranked(added, rank, 10, 13) && rank(agent.name) == 13
    requires tail == [] || tail == [agent]
    ensures Entries(conn + id + meta + (added + tail), n) ==
            if rank(n) < 8 then Entries(conn + meta, n)
            else if n == agent.name && tail == [] then []
            else Entries(id + added + [agent], n)
  {
    if tail == [] {
      assert added + tail == added;
      BlocksEntries(conn, id, meta, added, rank, n);
      WithoutAgent(id, added, agent, rank, n);
    } else {
      RankedConcat(added, tail, rank, 10, 13, 14);
      BlocksEntries(conn, id, meta, added + tail, rank, n);
      assert id + (added + tail) == id + added + tail;
    }
  }

  lemma ContributionRanked(d: Dialect, containerName: string, user: seq<EnvVar>, op: Operator, rank: string -> int)
    requires Placed(d, rank)
    ensures Ranked(Forced(d, user, op), rank, 0, 8)
    ensures Ranked(Added(d, containerName, user), rank, 8, 14)
  {
    ForcedPartsRanked(d, user, op, rank);
    AddedPartsRanked(d, containerName, user, rank);
    BlocksRanked(d, user, rank);
    RankedConcat(Connection(d.names, user, op), HomeAndMetadata(), rank, 0, 3, 8);
    var added := Kind(user) + PathEntries(d.paths);
    RankedConcat(Identity(containerName, user), added, rank, 8, 10, 13);
    RankedConcat(Identity(containerName, user) + added, [Plain(d.agentPath, d.agentLocation)], rank, 8, 13, 14);
  }

  lemma ConnectionNames(d: Dialect, user: seq<EnvVar>, op: Operator, n: string)
    requires |d.names| == 3
    ensures Has(Connection(d.names, user, op), n) <==> n == d.names[0] || n == d.names[1] || n == d.names[2]
  {
    var c := Connection(d.names, user, op);
    assert c[0].name == d.names[0] && c[1].name == d.names[1] && c[2].name == d.names[2];
  }

  lemma HomeNames(n: string)
    ensures Has(HomeAndMetadata(), n) <==>
            n == WHATAP_HOME || n == MICRO_ENABLED || n == NODE_IP || n == NODE_NAME || n == POD_NAME
  {
    var h := HomeAndMetadata();
    assert h[0].name == WHATAP_HOME && h[1].name == MICRO_ENABLED && h[2].name == NODE_IP;
    assert h[3].name == NODE_NAME && h[4].name == POD_NAME;
  }

  lemma HasConcat(a: seq<EnvVar>, b: seq<EnvVar>, n: string)
    ensures Has(a + b, n) <==> Has(a, n) || Has(b, n)
  {
    assert forall e :: e in a + b <==> e in a || e in b;
  }

  lemma ForcedNames(d: Dialect, user: seq<EnvVar>, op: Operator, rank: string -> int, n: string)
    requires Placed(d, rank)
    ensures ForcedName(d, n) <==> Has(Forced(d, user, op), n)
    ensures ForcedName(d, n) ==> rank(n) < 8
  {
    hide Connection, HomeAndMetadata, Has;
    ConnectionNames(d, user, op, n);
    HomeNames(n);
    HasConcat(Connection(d.names, user, op), HomeAndMetadata(), n);
  }

  /** Combining a local list made of forced and added entries onto the container's own. */
  lemma CombineContribution(env: seq<EnvVar>, local: seq<EnvVar>, forced: seq<EnvVar>, added: seq<EnvVar>,
                            force: string -> bool, rank: string -> int, n: string)
    requires n != "" && Ranked(forced, rank, 0, 8) && Ranked(added, rank, 8, 14)
    requires force(n) <==> Has(forced, n)
    requires rank(n) < 8 ==> Entries(local, n) == Entries(forced, n)
    requires rank(n) >= 8 && !Has(env, n) ==> Entries(local, n) == Entries(added, n)
    ensures Entries(Combine(env, local, force), n) ==
            if Has(forced, n) then Entries(forced, n) else if Has(env, n) then Entries(env, n) else Entries(added, n)
  {
    CombineEntries(env, local, force, n);
    EntriesNonEmpty(local, n);
    EntriesNonEmpty(forced, n);
    AtMostOneEntry(added, rank, 8, 14, n);
    if rank(n) < 8 {
      AbsentByRank(added, rank, n, 8, 14);
    } else {
      AbsentByRank(forced, rank, n, 0, 8);
    }
  }

  /** Every entry a script-language injector leaves, name by name. */
  lemma ScriptEntries(d: Dialect, env: seq<EnvVar>, containerName: string, user: seq<EnvVar>, op: Operator,
                      rank: string -> int, n: string)
    requires Placed(d, rank) && n != ""
    ensures Entries(ScriptEnv(d, env, containerName, user, op), n) ==
            if Has(Forced(d, user, op), n) then Entries(Forced(d, user, op), n)
            else if Has(env, n) then Entries(env, n)
            else Entries(Added(d, containerName, user), n)
  {
    LocalEntries(d, env, containerName, user, op, rank, n);
    ForcedNames(d, user, op, rank, n);
    ContributionRanked(d, containerName, user, op, rank);
    CombineContribution(env, ScriptLocal(d, env, containerName, user, op), Forced(d, user, op),
                        Added(d, containerName, user), ForceOf(d), rank, n);
  }

  lemma {:induction false} AtMostOneEntry(envs: seq<EnvVar>, rank: string -> int, lo: int, hi: int, n: string)
    requires Ranked(envs, rank, lo, hi)
    ensures AtMostOne(Entries(envs, n)) == Entries(envs, n)
  {
    if Has(envs, n) {
      var e :| e in envs && e.name == n;
      var i :| 0 <= i < |envs| && envs[i] == e;
      assert Unique(envs);
      UniqueEntries(envs, i);
    } else {
      EntriesNonEmpty(envs, n);
    }
  }

  // ----------------------------------------------------- what Java contributes

  function JavaForced(user: seq<EnvVar>, op: Operator): seq<EnvVar> {
    Connection(JAVA_NAMES, user, op) + Metadata()
  }

  function JavaAdded(): seq<EnvVar> {
    [Plain(JAVA_TOOL_OPTIONS, JAVA_AGENT_OPTION), Plain(JAVA_AGENT_PATH, JAVA_AGENT_JAR)]
  }

  /** The container's own entries, the first `JAVA_TOOL_OPTIONS` augmented. */
  function Augmented(env: seq<EnvVar>): seq<EnvVar> {
    AugmentFirst(env, JAVA_TOOL_OPTIONS, JAVA_AGENT_OPTION)
  }

  lemma ToolOptionsEntries(env: seq<EnvVar>, n: string)
    ensures Entries(ToolOptions(env), n) ==
            if Has(env, n) then Entries(Augmented(env), n)
            else Entries([Plain(JAVA_TOOL_OPTIONS, JAVA_AGENT_OPTION)], n)
  {
    var option := Plain(JAVA_TOOL_OPTIONS, JAVA_AGENT_OPTION);
    AugmentFirstMeaning(env, JAVA_TOOL_OPTIONS, JAVA_AGENT_OPTION, n);
    SameNamesHas(Augmented(env), env, n);
    EntriesNonEmpty(Augmented(env), n);
    if !Has(env, JAVA_TOOL_OPTIONS) {
      NothingToAugment(env);
      EntriesConcat(env, [option], n);
    }
  }

  lemma JavaEntries(env: seq<EnvVar>, user: seq<EnvVar>, op: Operator, n: string)
    requires n != ""
    ensures Entries(JavaEnv(env, user, op), n) ==
            if Has(JavaForced(user, op), n) then Entries(JavaForced(user, op), n)
            else if Has(env, n) then Entries(Augmented(env), n)
            else Entries(JavaAdded(), n)
  {
    var option, agent := Plain(JAVA_TOOL_OPTIONS, JAVA_AGENT_OPTION), Plain(JAVA_AGENT_PATH, JAVA_AGENT_JAR);
    UpsertEntries(ToolOptions(env) + IfAbsent(env, agent), JavaForced(user, op), n);
    EntriesConcat(ToolOptions(env), IfAbsent(env, agent), n);
    ToolOptionsEntries(env, n);
    EntriesConcat([option], [agent], n);
    assert JavaAdded() == [option] + [agent];
    assert Entries(IfAbsent(env, agent), n) == if Has(env, n) then [] else Entries([agent], n);
  }

  lemma {:induction false} NothingToAugment(env: seq<EnvVar>)
    requires !Has(env, JAVA_TOOL_OPTIONS)
    ensures Augmented(env) == env
  {
    if env != [] {
      assert forall e | e in env[1..] :: e in env;
      NothingToAugment(env[1..]);
    }
  }

  // ------------------------------------------------------- the whole injection

  function LanguageEnv(lang: string, env: seq<EnvVar>, containerName: string, user: seq<EnvVar>, op: Operator)
    : seq<EnvVar>
  {
    match lang
    case "java" => JavaEnv(env, user, op)
    case "python" => ScriptEnv(PYTHON, env, containerName, user, op)
    case "nodejs" => ScriptEnv(NODEJS, env, containerName, user, op)
    case _ => env
  }

  function UserForce(): string -> bool {
    n => !ManagedName(n)
  }

  function FinalEnv(lang: string, env: seq<EnvVar>, containerName: string, user: seq<EnvVar>, op: Operator)
    : seq<EnvVar>
  {
    var envs := LanguageEnv(lang, env, containerName, user, op);
    if user == [] then envs else Combine(envs, user, UserForce())
  }

  method InjectLanguageSpecificEnvVars(lang: string, env: array<EnvVar>, containerName: string, user: seq<EnvVar>,
                                       op: Operator) returns (envs: seq<EnvVar>)
    modifies env
    ensures envs == FinalEnv(lang, old(env[..]), containerName, user, op)
  {
    match lang {
      case "java" => envs := InjectJavaEnvVars(env, user, op);
      case "python" => envs := InjectScriptEnvVars(PYTHON, env[..], containerName, user, op);
      case "nodejs" => envs := InjectScriptEnvVars(NODEJS, env[..], containerName, user, op);
      case _ => envs := env[..];
    }
    if |user| > 0 {
      envs := CombineEnvVars(envs, user, UserForce());
    }
  }

  predicate Supported(lang: string) {
    lang == "java" || lang == "python" || lang == "nodejs"
  }

  /** What a language forces. */
  function LanguageForced(lang: string, user: seq<EnvVar>, op: Operator): seq<EnvVar> {
    match lang
    case "java" => JavaForced(user, op)
    case "python" => Forced(PYTHON, user, op)
    case "nodejs" => Forced(NODEJS, user, op)
    case _ => []
  }

  /** What a language adds to containers that do not set it. */
  function LanguageAdded(lang: string, containerName: string, user: seq<EnvVar>): seq<EnvVar> {
    match lang
    case "java" => JavaAdded()
    case "python" => Added(PYTHON, containerName, user)
    case "nodejs" => Added(NODEJS, containerName, user)
    case _ => []
  }

  /** What a language leaves of the container's own entries. */
  function Retained(lang: string, env: seq<EnvVar>): seq<EnvVar> {
    if lang == "java" then Augmented(env) else env
  }

  lemma LanguageEntries(lang: string, env: seq<EnvVar>, containerName: string, user: seq<EnvVar>, op: Operator,
                        n: string)
    requires n != ""
    ensures Entries(LanguageEnv(lang, env, containerName, user, op), n) ==
            if Has(LanguageForced(lang, user, op), n) then Entries(LanguageForced(lang, user, op), n)
            else if Has(env, n) then Entries(Retained(lang, env), n)
            else Entries(LanguageAdded(lang, containerName, user), n)
  {
    match lang {
      case "java" => JavaEntries(env, user, op, n);
      case "python" =>
        DialectsPlaced();
        ScriptEntries(PYTHON, env, containerName, user, op, Rank, n);
      case "nodejs" =>
        DialectsPlaced();
        ScriptEntries(NODEJS, env, containerName, user, op, Rank, n);
      case _ => EntriesNonEmpty(env, n);
    }
  }

  lemma ManagedByRank(n: string)
    requires Rank(n) < 14
    ensures ManagedName(n)
  {}

  lemma JavaForcedRanked(user: seq<EnvVar>, op: Operator)
    ensures Ranked(JavaForced(user, op), Rank, 0, 8)
  {
    ConnectionRanks();
    MetadataRanks();
    AddedRanks();
    var java := Dialect(JAVA_NAMES, [], JAVA_AGENT_PATH, JAVA_AGENT_JAR);
    assert Placed(java, Rank);
    ForcedPartsRanked(java, user, op, Rank);
    RankedConcat(Connection(JAVA_NAMES, user, op), Metadata(), Rank, 0, 4, 8);
  }

  lemma LanguageForcedRanked(lang: string, user: seq<EnvVar>, op: Operator)
    ensures Ranked(LanguageForced(lang, user, op), Rank, 0, 8)
  {
    match lang {
      case "java" => JavaForcedRanked(user, op);
      case "python" =>
        DialectsPlaced();
        ContributionRanked(PYTHON, "", user, op, Rank);
      case "nodejs" =>
        DialectsPlaced();
        ContributionRanked(NODEJS, "", user, op, Rank);
      case _ =>
    }
  }

  /**
   Every entry of the final environment, for any container environment (duplicates included), any user
   entries and any language: forced entries first, then unmanaged user entries, then what the container
   had, then what the operator adds, then the first user entry.
   */
  lemma FinalEntries(lang: string, env: seq<EnvVar>, containerName: string, user: seq<EnvVar>, op: Operator, n: string)
    requires n != ""
    ensures Entries(FinalEnv(lang, env, containerName, user, op), n) ==
            if Has(LanguageForced(lang, user, op), n) then Entries(LanguageForced(lang, user, op), n)
            else if !ManagedName(n) && Has(user, n) then Entries(user, n)
            else if Has(env, n) then Entries(Retained(lang, env), n)
            else if Has(LanguageAdded(lang, containerName, user), n) then
              Entries(LanguageAdded(lang, containerName, user), n)
            else AtMostOne(Entries(user, n))
  {
    var envs, forced := LanguageEnv(lang, env, containerName, user, op), LanguageForced(lang, user, op);
    LanguageEntries(lang, env, containerName, user, op, n);
    CombineEntries(envs, user, UserForce(), n);
    EntriesNonEmpty(envs, n);
    EntriesNonEmpty(forced, n);
    EntriesNonEmpty(user, n);
    EntriesNonEmpty(LanguageAdded(lang, containerName, user), n);
    RetainedHas(lang, env, n);
    if Has(forced, n) {
      LanguageForcedRanked(lang, user, op);
      ManagedByRank(n);
    }
  }

  lemma RetainedHas(lang: string, env: seq<EnvVar>, n: string)
    ensures Entries(Retained(lang, env), n) != [] <==> Has(env, n)
  {
    EntriesNonEmpty(Retained(lang, env), n);
    AugmentFirstMeaning(env, JAVA_TOOL_OPTIONS, JAVA_AGENT_OPTION, n);
    SameNamesHas(Augmented(env), env, n);
  }

  /** Each forced key occurs exactly once, with the operator's entry. */
  lemma ForcedExactlyOnce(lang: string, env: seq<EnvVar>, containerName: string, user: seq<EnvVar>, op: Operator,
                          i: nat)
    requires i < |LanguageForced(lang, user, op)|
    ensures var e := LanguageForced(lang, user, op)[i];
            Entries(FinalEnv(lang, env, containerName, user, op), e.name) == [e]
  {
    var forced := LanguageForced(lang, user, op);
    LanguageForcedRanked(lang, user, op);
    assert forced[i] in forced;
    assert Rank("") == 14;
    FinalEntries(lang, env, containerName, user, op, forced[i].name);
    assert Unique(forced);
    UniqueEntries(forced, i);
  }

  /** The three connection settings: how each language calls it, which user keys set it, and its default. */
  function ConnectionName(lang: string, which: nat): string
    requires which < 3
  {
    match lang
    case "java" => ["license", "whatap.server.host", "whatap.server.port"][which]
    case "python" => ["license", "whatap_server_host", "whatap_server_port"][which]
    case _ => ["WHATAP_LICENSE", "WHATAP_SERVER_HOST", "WHATAP_SERVER_PORT"][which]
  }

  function ConnectionKeys(which: nat): seq<string>
    requires which < 3
  {
    [["WHATAP_LICENSE", "license"],
     ["WHATAP_HOST", "whatap.server.host", "whatap_server_host", "WHATAP_SERVER_HOST"],
     ["WHATAP_PORT", "whatap.server.port", "whatap_server_port", "WHATAP_SERVER_PORT"]][which]
  }

  function ConnectionDefault(op: Operator, which: nat): string
    requires which < 3
  {
    [op.license, op.host, op.port][which]
  }

  /**
   License, host and port occur exactly once, whatever the container already had, and carry the value of
   the first key present among the user's entries in key-priority order, or else the operator's setting.
   */
  lemma ConnectionExactlyOnce(lang: string, env: seq<EnvVar>, containerName: string, user: seq<EnvVar>, op: Operator,
                              which: nat, i: nat)
    requires Supported(lang) && which < 3
    requires i <= |ConnectionKeys(which)|
    requires forall j | 0 <= j < i :: !Has(user, ConnectionKeys(which)[j])
    requires i < |ConnectionKeys(which)| ==> Has(user, ConnectionKeys(which)[i])
    ensures i < |ConnectionKeys(which)| ==> Effective(user, ConnectionKeys(which)[i]).Some?
    ensures var name := ConnectionName(lang, which);
            Entries(FinalEnv(lang, env, containerName, user, op), name) ==
            [Plain(name, if i == |ConnectionKeys(which)| then ConnectionDefault(op, which)
                         else Effective(user, ConnectionKeys(which)[i]).value.value)]
  {
    FirstAliasMeaning(user, ConnectionKeys(which), i);
    var e := Plain(ConnectionName(lang, which),
                   FirstAlias(user, ConnectionKeys(which)).GetOr(ConnectionDefault(op, which)));
    assert LanguageForced(lang, user, op)[which] == e;
    ForcedExactlyOnce(lang, env, containerName, user, op, which);
  }

  /** The names the operator manages, written out. */
  predicate Listed(n: string) {
    || n == "WHATAP_LICENSE" || n == "WHATAP_HOST" || n == "WHATAP_PORT"
    || n == "NODE_IP" || n == "NODE_NAME" || n == "POD_NAME" || n == "whatap.micro.enabled"
    || n == "license" || n == "whatap.server.host" || n == "whatap.server.port"
    || n == "WHATAP_JAVA_AGENT_PATH" || n == "JAVA_TOOL_OPTIONS"
    || n == "whatap_server_host" || n == "whatap_server_port"
    || n == "WHATAP_PYTHON_AGENT_PATH" || n == "WHATAP_HOME" || n == "PYTHONPATH"
    || n == "app_name" || n == "app_process_name" || n == "OKIND"
    || n == "WHATAP_SERVER_HOST" || n == "WHATAP_SERVER_PORT"
    || n == "WHATAP_NODEJS_AGENT_PATH" || n == "NODE_OPTIONS" || n == "NODE_PATH"
  }

  /** A user entry under any name but those replaces whatever the container had. */
  lemma UserEntryWins(lang: string, env: seq<EnvVar>, containerName: string, user: seq<EnvVar>, op: Operator, n: string)
    requires n != "" && !Listed(n) && Has(user, n)
    ensures Entries(FinalEnv(lang, env, containerName, user, op), n) == Entries(user, n)
  {
    FinalEntries(lang, env, containerName, user, op, n);
    if Has(LanguageForced(lang, user, op), n) {
      LanguageForcedRanked(lang, user, op);
      ManagedByRank(n);
    }
  }

  /** A user entry under one of those names never displaces one that the injector left. */
  lemma ManagedEntryStays(lang: string, env: seq<EnvVar>, containerName: string, user: seq<EnvVar>, op: Operator,
                          n: string)
    requires Listed(n)
    ensures var injected := LanguageEnv(lang, env, containerName, user, op);
            Entries(FinalEnv(lang, env, containerName, user, op), n) ==
            if Has(injected, n) then Entries(injected, n) else AtMostOne(Entries(user, n))
  {
    var injected := LanguageEnv(lang, env, containerName, user, op);
    CombineEntries(injected, user, UserForce(), n);
    EntriesNonEmpty(injected, n);
  }

  lemma JavaAddedRanked()
    ensures Ranked(JavaAdded(), Rank, 8, 14)
  {
    AddedRanks();
  }

  lemma LanguageAddedRanked(lang: string, containerName: string, user: seq<EnvVar>, op: Operator)
    ensures Ranked(LanguageAdded(lang, containerName, user), Rank, 8, 14)
  {
    match lang {
      case "java" => JavaAddedRanked();
      case "python" =>
        DialectsPlaced();
        ContributionRanked(PYTHON, containerName, user, op, Rank);
      case "nodejs" =>
        DialectsPlaced();
        ContributionRanked(NODEJS, containerName, user, op, Rank);
      case _ =>
    }
  }

  /** What the operator adds reaches the process exactly when the container does not set the variable itself. */
  lemma AddedOnlyIfUnset(lang: string, env: seq<EnvVar>, containerName: string, user: seq<EnvVar>, op: Operator, i: nat)
    requires i < |LanguageAdded(lang, containerName, user)|
    ensures var e := LanguageAdded(lang, containerName, user)[i];
            Entries(FinalEnv(lang, env, containerName, user, op), e.name) ==
            if Has(env, e.name) then Entries(Retained(lang, env), e.name) else [e]
  {
    hide LanguageAdded, LanguageForced, FinalEnv, Retained, ManagedName, Rank, Has;
    var added := LanguageAdded(lang, containerName, user);
    LanguageAddedRanked(lang, containerName, user, op);
    LanguageForcedRanked(lang, user, op);
    EmptyNameUnranked();
    FinalEntries(lang, env, containerName, user, op, added[i].name);
    ManagedByRank(added[i].name);
    AbsentByRank(LanguageForced(lang, user, op), Rank, added[i].name, 0, 8);
    EntriesNonEmpty(LanguageForced(lang, user, op), added[i].name);
    RankedEntry(added, Rank, 8, 14, i);
  }

  lemma EmptyNameUnranked()
    ensures Rank("") == 14
  {}

  /** The search paths of the script languages, in the order they are added. */
  function SearchPathEntry(lang: string, j: nat): EnvVar {
    if lang == "python" then Plain("PYTHONPATH", "/whatap-agent/whatap/bootstrap")
    else if j == 0 then Plain("NODE_PATH", "/whatap-agent/node_modules")
    else Plain("NODE_OPTIONS", "-r whatap")
  }

  /**
   A search path reaches the process exactly when the container does not set the variable itself: an
   existing value is kept as it is, nothing is put in front of it.
   */
  lemma SearchPathOnlyIfUnset(lang: string, env: seq<EnvVar>, containerName: string, user: seq<EnvVar>, op: Operator,
                              j: nat)
    requires (lang == "python" && j == 0) || (lang == "nodejs" && j < 2)
    ensures var p := SearchPathEntry(lang, j);
            Entries(FinalEnv(lang, env, containerName, user, op), p.name) ==
            if Has(env, p.name) then Entries(env, p.name) else [p]
  {
    hide FinalEnv, Has, Entries;
    var d := if lang == "python" then PYTHON else NODEJS;
    var k := 2 + |Kind(user)| + j;
    InMiddle(Identity(containerName, user), Kind(user), PathEntries(d.paths), [Plain(d.agentPath, d.agentLocation)], j);
    assert LanguageAdded(lang, containerName, user)[k] == SearchPathEntry(lang, j);
    AddedOnlyIfUnset(lang, env, containerName, user, op, k);
  }

  lemma InMiddle(a: seq<EnvVar>, b: seq<EnvVar>, c: seq<EnvVar>, d: seq<EnvVar>, j: nat)
    requires j < |c|
    ensures (a + (b + c) + d)[|a| + |b| + j] == c[j]
  {}

  lemma RankedEntry(envs: seq<EnvVar>, rank: string -> int, lo: int, hi: int, i: nat)
    requires Ranked(envs, rank, lo, hi) && i < |envs|
    ensures Has(envs, envs[i].name) && lo <= rank(envs[i].name) < hi
    ensures Entries(envs, envs[i].name) == [envs[i]]
  {
    assert envs[i] in envs;
    RankedUnique(envs, rank, lo, hi);
    UniqueEntries(envs, i);
  }

  /** The application's name: the container's own, else the user's last, if not empty, else the container's name. */
  lemma ApplicationName(lang: string, env: seq<EnvVar>, containerName: string, user: seq<EnvVar>, op: Operator)
    requires lang == "python" || lang == "nodejs"
    ensures Entries(FinalEnv(lang, env, containerName, user, op), APP_NAME) ==
            if Has(env, APP_NAME) then Entries(env, APP_NAME)
            else if Last(user, APP_NAME).Some? && Last(user, APP_NAME).value.value != ""
            then [Plain(APP_NAME, Last(user, APP_NAME).value.value)]
            else [Plain(APP_NAME, containerName)]
  {
    hide FinalEnv, Has, Entries;
    assert LanguageAdded(lang, containerName, user)[0] == Identity(containerName, user)[0];
    AddedOnlyIfUnset(lang, env, containerName, user, op, 0);
  }

  function AgentPath(lang: string): EnvVar {
    match lang
    case "java" => Plain("WHATAP_JAVA_AGENT_PATH", "/whatap-agent/whatap.agent.java.jar")
    case "python" => Plain("WHATAP_PYTHON_AGENT_PATH", "/whatap-agent/whatap_python")
    case _ => Plain("WHATAP_NODEJS_AGENT_PATH", "/whatap-agent/node_modules/whatap/agent/whatap_nodejs")
  }

  /** The agent's location is added once to containers that do not set it, and left alone in the others. */
  lemma AgentPathOnlyIfUnset(lang: string, env: seq<EnvVar>, containerName: string, user: seq<EnvVar>, op: Operator)
    requires Supported(lang)
    ensures Entries(FinalEnv(lang, env, containerName, user, op), AgentPath(lang).name) ==
            if Has(env, AgentPath(lang).name) then Entries(env, AgentPath(lang).name) else [AgentPath(lang)]
  {
    hide FinalEnv, Has, Entries;
    var added := LanguageAdded(lang, containerName, user);
    assert added[|added| - 1] == AgentPath(lang);
    AddedOnlyIfUnset(lang, env, containerName, user, op, |added| - 1);
    AddedRanks();
    AugmentFirstMeaning(env, JAVA_TOOL_OPTIONS, JAVA_AGENT_OPTION, JAVA_AGENT_PATH);
  }

  /** Pod metadata occurs exactly once, from the field each name stands for. */
  lemma MetadataExactlyOnce(lang: string, env: seq<EnvVar>, containerName: string, user: seq<EnvVar>, op: Operator)
    requires Supported(lang)
    ensures var final := FinalEnv(lang, env, containerName, user, op);
            && Entries(final, "NODE_IP") == [FromField("NODE_IP", "status.hostIP")]
            && Entries(final, "NODE_NAME") == [FromField("NODE_NAME", "spec.nodeName")]
            && Entries(final, "POD_NAME") == [FromField("POD_NAME", "metadata.name")]
            && Entries(final, "whatap.micro.enabled") == [Plain("whatap.micro.enabled", "true")]
  {
    hide FinalEnv, Entries;
    var n := if lang == "java" then 3 else 4;
    var forced := LanguageForced(lang, user, op);
    assert forced[n..] == Metadata();
    assert forced[n] == Metadata()[0] && forced[n + 1] == Metadata()[1];
    assert forced[n + 2] == Metadata()[2] && forced[n + 3] == Metadata()[3];
    ForcedExactlyOnce(lang, env, containerName, user, op, n);
    ForcedExactlyOnce(lang, env, containerName, user, op, n + 1);
    ForcedExactlyOnce(lang, env, containerName, user, op, n + 2);
    ForcedExactlyOnce(lang, env, containerName, user, op, n + 3);
  }

  /** The agent option is appended to the first `JAVA_TOOL_OPTIONS` and no user entry displaces it. */
  lemma ToolOptionsAugmented(env: seq<EnvVar>, containerName: string, user: seq<EnvVar>, op: Operator)
    ensures Entries(FinalEnv("java", env, containerName, user, op), JAVA_TOOL_OPTIONS) ==
            if Has(env, JAVA_TOOL_OPTIONS)
            then AugmentFirst(Entries(env, JAVA_TOOL_OPTIONS), JAVA_TOOL_OPTIONS, JAVA_AGENT_OPTION)
            else [Plain(JAVA_TOOL_OPTIONS, JAVA_AGENT_OPTION)]
  {
    hide FinalEnv, Has, Entries;
    assert LanguageAdded("java", containerName, user)[0] == Plain(JAVA_TOOL_OPTIONS, JAVA_AGENT_OPTION);
    AddedOnlyIfUnset("java", env, containerName, user, op, 0);
    AugmentFirstMeaning(env, JAVA_TOOL_OPTIONS, JAVA_AGENT_OPTION, JAVA_TOOL_OPTIONS);
  }

  // ------------------------------------------------- what the API server accepts

  /** Entries without a name are the container's own. */
  lemma NamelessEntries(lang: string, env: seq<EnvVar>, containerName: string, user: seq<EnvVar>, op: Operator)
    ensures Entries(FinalEnv(lang, env, containerName, user, op), "") == Entries(env, "")
  {
    var envs := LanguageEnv(lang, env, containerName, user, op);
    CombineEntries(envs, user, UserForce(), "");
    match lang {
      case "java" => NamelessJava(env, user, op);
      case "python" => CombineEntries(env, ScriptLocal(PYTHON, env, containerName, user, op), ForceOf(PYTHON), "");
      case "nodejs" => CombineEntries(env, ScriptLocal(NODEJS, env, containerName, user, op), ForceOf(NODEJS), "");
      case _ =>
    }
  }

  lemma NamelessJava(env: seq<EnvVar>, user: seq<EnvVar>, op: Operator)
    ensures Entries(JavaEnv(env, user, op), "") == Entries(env, "")
  {
    var agent := Plain(JAVA_AGENT_PATH, JAVA_AGENT_JAR);
    UpsertEntries(ToolOptions(env) + IfAbsent(env, agent), JavaForced(user, op), "");
    EntriesConcat(ToolOptions(env), IfAbsent(env, agent), "");
    ToolOptionsEntries(env, "");
    AugmentFirstMeaning(env, JAVA_TOOL_OPTIONS, JAVA_AGENT_OPTION, "");
    EntriesNonEmpty(env, "");
    assert Entries(IfAbsent(env, agent), "") == [];
    assert Entries([Plain(JAVA_TOOL_OPTIONS, JAVA_AGENT_OPTION)], "") == [];
  }

  lemma ForcedSingle(lang: string, user: seq<EnvVar>, op: Operator)
    ensures AllSingle(LanguageForced(lang, user, op))
  {}

  lemma AddedSingle(lang: string, containerName: string, user: seq<EnvVar>)
    ensures AllSingle(LanguageAdded(lang, containerName, user))
  {
    assert AllSingle(Identity(containerName, user)) && AllSingle(Kind(user));
    assert AllSingle(PathEntries(PYTHON.paths)) && AllSingle(PathEntries(NODEJS.paths));
  }

  /** The Java option is appended to a variable that has an indirect source. */
  predicate AppendsToIndirect(lang: string, env: seq<EnvVar>) {
    lang == "java" && Effective(env, JAVA_TOOL_OPTIONS).Some? && Effective(env, JAVA_TOOL_OPTIONS).value.from.Some?
  }

  lemma RetainedSingle(lang: string, env: seq<EnvVar>, n: string)
    requires AllSingle(env) && !AppendsToIndirect(lang, env)
    ensures AllSingle(Entries(Retained(lang, env), n))
  {
    EntriesSingle(env, n);
    AugmentFirstMeaning(env, JAVA_TOOL_OPTIONS, JAVA_AGENT_OPTION, n);
    if lang == "java" && n == JAVA_TOOL_OPTIONS && Entries(env, n) != [] {
      var was := Entries(env, n);
      EntriesNonEmpty(env, n);
      assert was[0] in was;
      assert forall e | e in was[1..] :: e in was;
      assert AugmentFirst(was, n, JAVA_AGENT_OPTION) ==
             [was[0].(value := was[0].value + " " + JAVA_AGENT_OPTION)] + was[1..];
    }
  }

  lemma FinalSingle(lang: string, env: seq<EnvVar>, containerName: string, user: seq<EnvVar>, op: Operator, n: string)
    requires AllSingle(env) && AllSingle(user) && !AppendsToIndirect(lang, env)
    ensures AllSingle(Entries(FinalEnv(lang, env, containerName, user, op), n))
  {
    hide FinalEnv, LanguageForced, LanguageAdded, Retained, ManagedName, Single, AppendsToIndirect;
    EntriesSingle(env, n);
    if n == "" {
      NamelessEntries(lang, env, containerName, user, op);
    } else {
      FinalEntries(lang, env, containerName, user, op, n);
      ForcedSingle(lang, user, op);
      EntriesSingle(LanguageForced(lang, user, op), n);
      EntriesSingle(user, n);
      RetainedSingle(lang, env, n);
      AddedSingle(lang, containerName, user);
      EntriesSingle(LanguageAdded(lang, containerName, user), n);
    }
  }

  /**
   From entries with at most one of a value and a source, injection yields such entries exactly when it does not append
   the Java option to a variable that has a source: such a pod is refused.
   */
  lemma AcceptedExactly(lang: string, env: seq<EnvVar>, containerName: string, user: seq<EnvVar>, op: Operator)
    requires AllSingle(env) && AllSingle(user)
    ensures AllSingle(FinalEnv(lang, env, containerName, user, op)) <==> !AppendsToIndirect(lang, env)
  {
    hide FinalEnv;
    var final := FinalEnv(lang, env, containerName, user, op);
    if AppendsToIndirect(lang, env) {
      var was := Entries(env, JAVA_TOOL_OPTIONS);
      EntriesNonEmpty(env, JAVA_TOOL_OPTIONS);
      ToolOptionsAugmented(env, containerName, user, op);
      var bad := was[0].(value := was[0].value + " " + JAVA_AGENT_OPTION);
      assert was[0] in was;
      assert Entries(final, JAVA_TOOL_OPTIONS)[0] == bad;
      EntriesNonEmpty(final, JAVA_TOOL_OPTIONS);
      assert bad in final && !Single(bad);
    } else {
      forall n ensures AllSingle(Entries(final, n)) {
        FinalSingle(lang, env, containerName, user, op, n);
      }
      AllSingleByName(final);
    }
  }

  /** Other languages leave `JAVA_TOOL_OPTIONS` alone: a user entry of that name counts only when there is none. */
  lemma ToolOptionsElsewhere(lang: string, env: seq<EnvVar>, containerName: string, user: seq<EnvVar>, op: Operator)
    requires lang != "java"
    ensures var was := Entries(env, JAVA_TOOL_OPTIONS);
            Entries(FinalEnv(lang, env, containerName, user, op), JAVA_TOOL_OPTIONS) ==
            if was != [] then was else AtMostOne(Entries(user, JAVA_TOOL_OPTIONS))
  {
    hide FinalEnv;
    FinalEntries(lang, env, containerName, user, op, JAVA_TOOL_OPTIONS);
    EntriesNonEmpty(env, JAVA_TOOL_OPTIONS);
    NoToolOptions(lang, containerName, user);
    LanguageForcedRanked(lang, user, op);
    AddedRanks();
    ManagedByRank(JAVA_TOOL_OPTIONS);
  }

  lemma NoToolOptions(lang: string, containerName: string, user: seq<EnvVar>)
    requires lang != "java"
    ensures !Has(LanguageAdded(lang, containerName, user), JAVA_TOOL_OPTIONS)
  {
    var added := LanguageAdded(lang, containerName, user);
    assert forall e | e in Identity(containerName, user) + Kind(user) :: e.name[0] != 'J';
    assert forall e | e in PathEntries(PYTHON.paths) :: e.name[0] != 'J';
    assert forall e | e in PathEntries(NODEJS.paths) :: e.name[0] != 'J';
    assert JAVA_TOOL_OPTIONS[0] == 'J';
  }

  // ------------------------------------------------- the whole injection, written out

  /** The value of a connection setting: the first key present, in this order, or the operator's own. */
  function Setting(user: seq<EnvVar>, op: Operator, which: nat): string
    requires which < 3
  {
    FirstAlias(user, ConnectionKeys(which)).GetOr(ConnectionDefault(op, which))
  }

  function ForcedConnection(lang: string, n: string, user: seq<EnvVar>, op: Operator): Option<EnvVar> {
    if n == ConnectionName(lang, 0) then Some(Plain(n, Setting(user, op, 0)))
    else if n == ConnectionName(lang, 1) then Some(Plain(n, Setting(user, op, 1)))
    else if n == ConnectionName(lang, 2) then Some(Plain(n, Setting(user, op, 2)))
    else None
  }

  function ForcedMetadata(lang: string, n: string): Option<EnvVar> {
    if n == "WHATAP_HOME" && lang != "java" then Some(Plain(n, "/whatap-agent"))
    else if n == "whatap.micro.enabled" then Some(Plain(n, "true"))
    else if n == "NODE_IP" then Some(FromField(n, "status.hostIP"))
    else if n == "NODE_NAME" then Some(FromField(n, "spec.nodeName"))
    else if n == "POD_NAME" then Some(FromField(n, "metadata.name"))
    else None
  }

  /** The entry a language forces under a name, if any. */
  function ForcedEntry(lang: string, n: string, user: seq<EnvVar>, op: Operator): Option<EnvVar> {
    if !Supported(lang) then None
    else if ForcedConnection(lang, n, user, op).Some? then ForcedConnection(lang, n, user, op)
    else ForcedMetadata(lang, n)
  }

  /** The entry a language adds under a name the container does not set, if any. */
  function AddedEntry(lang: string, n: string, containerName: string, user: seq<EnvVar>): Option<EnvVar> {
    if !Supported(lang) then None
    else if n == AgentPath(lang).name then Some(AgentPath(lang))
    else if lang == "java" then
      if n == "JAVA_TOOL_OPTIONS" then Some(Plain(n, "-javaagent:/whatap-agent/whatap.agent.java.jar")) else None
    else if n == "app_name" then
      Some(Plain(n, if LastValue(user, "app_name") != "" then LastValue(user, "app_name") else containerName))
    else if n == "app_process_name" then Some(Plain(n, LastValue(user, "app_process_name")))
    else if n == "OKIND" && LastValue(user, "OKIND") != "" then Some(Plain(n, LastValue(user, "OKIND")))
    else if n == SearchPathEntry(lang, 0).name then Some(SearchPathEntry(lang, 0))
    else if lang == "nodejs" && n == "NODE_OPTIONS" then Some(SearchPathEntry(lang, 1))
    else None
  }

  function ListOf(e: Option<EnvVar>): seq<EnvVar> {
    if e.Some? then [e.value] else []
  }

  /** A list whose entries a table gives, name by name. */
  lemma TableEntries(envs: seq<EnvVar>, rank: string -> int, lo: int, hi: int, n: string, e: Option<EnvVar>)
    requires Ranked(envs, rank, lo, hi)
    requires forall i | 0 <= i < |envs| && envs[i].name == n :: e == Some(envs[i])
    requires e.Some? ==> exists i :: 0 <= i < |envs| && envs[i].name == n
    ensures Entries(envs, n) == ListOf(e)
  {
    if i :| 0 <= i < |envs| && envs[i].name == n {
      RankedEntry(envs, rank, lo, hi, i);
    } else {
      EntriesNonEmpty(envs, n);
    }
  }

  lemma ForcedTable(lang: string, user: seq<EnvVar>, op: Operator, n: string)
    ensures Entries(LanguageForced(lang, user, op), n) == ListOf(ForcedEntry(lang, n, user, op))
  {
    hide FirstAlias, Entries;
    var f := LanguageForced(lang, user, op);
    LanguageForcedRanked(lang, user, op);
    if Supported(lang) {
      ForcedSpelled(lang, user, op);
      DistinctForced(lang);
    }
    TableEntries(f, Rank, 0, 8, n, ForcedEntry(lang, n, user, op));
  }

  /** The forced entries, in order. */
  lemma ForcedSpelled(lang: string, user: seq<EnvVar>, op: Operator)
    requires Supported(lang)
    ensures var f, k := LanguageForced(lang, user, op), if lang == "java" then 3 else 4;
            && |f| == k + 4
            && f[0] == Plain(ConnectionName(lang, 0), Setting(user, op, 0))
            && f[1] == Plain(ConnectionName(lang, 1), Setting(user, op, 1))
            && f[2] == Plain(ConnectionName(lang, 2), Setting(user, op, 2))
            && (lang != "java" ==> f[3] == Plain("WHATAP_HOME", "/whatap-agent"))
            && f[k] == Plain("whatap.micro.enabled", "true") && f[k + 1] == FromField("NODE_IP", "status.hostIP")
            && f[k + 2] == FromField("NODE_NAME", "spec.nodeName") && f[k + 3] == FromField("POD_NAME", "metadata.name")
  {
    hide FirstAlias;
  }

  lemma DistinctForced(lang: string)
    requires Supported(lang)
    ensures Rank(ConnectionName(lang, 0)) == 0 && Rank(ConnectionName(lang, 1)) == 1
    ensures Rank(ConnectionName(lang, 2)) == 2
    ensures Rank("WHATAP_HOME") == 3 && Rank("whatap.micro.enabled") == 4 && Rank("NODE_IP") == 5
    ensures Rank("NODE_NAME") == 6 && Rank("POD_NAME") == 7
  {
    ConnectionRanks();
    MetadataRanks();
  }

  /** The added entries, in order. */
  lemma AddedSpelled(lang: string, containerName: string, user: seq<EnvVar>)
    requires Supported(lang)
    ensures var a, k := LanguageAdded(lang, containerName, user), 2 + |Kind(user)|;
            if lang == "java" then
              a == [Plain("JAVA_TOOL_OPTIONS", "-javaagent:/whatap-agent/whatap.agent.java.jar"), AgentPath(lang)]
            else
              && |a| == k + (if lang == "python" then 2 else 3)
              && a[0] == AddedEntry(lang, "app_name", containerName, user).value
              && a[1] == Plain("app_process_name", LastValue(user, "app_process_name"))
              && (|Kind(user)| == 1 ==>
                    LastValue(user, "OKIND") != "" && a[2] == Plain("OKIND", LastValue(user, "OKIND")))
              && (|Kind(user)| == 0 ==> LastValue(user, "OKIND") == "") && |Kind(user)| <= 1
              && a[k] == SearchPathEntry(lang, 0)
              && (lang == "nodejs" ==> a[k + 1] == SearchPathEntry(lang, 1))
              && a[|a| - 1] == AgentPath(lang)
  {
    hide LastValue;
    assert "app_name" != AgentPath(lang).name;
  }

  lemma AddedTable(lang: string, containerName: string, user: seq<EnvVar>, op: Operator, n: string)
    ensures Entries(LanguageAdded(lang, containerName, user), n) == ListOf(AddedEntry(lang, n, containerName, user))
  {
    hide LastValue, Entries, Kind;
    var a := LanguageAdded(lang, containerName, user);
    LanguageAddedRanked(lang, containerName, user, op);
    if Supported(lang) {
      AddedSpelled(lang, containerName, user);
      AddedRanks();
    }
    TableEntries(a, Rank, 8, 14, n, AddedEntry(lang, n, containerName, user));
  }

  /** What Java makes of a container's own entries under a name. */
  function OwnEntries(lang: string, env: seq<EnvVar>, n: string): seq<EnvVar> {
    var was := Entries(env, n);
    if lang == "java" && n == "JAVA_TOOL_OPTIONS" && was != [] then
      [was[0].(value := was[0].value + " " + "-javaagent:/whatap-agent/whatap.agent.java.jar")] + was[1..]
    else was
  }

  /**
   The final environment, written out for every name: what the language forces; else the user's entries, unless the
   name is the operator's; else the container's own; else what the language adds; else the user's first entry.
   */
  lemma FinalExactly(lang: string, env: seq<EnvVar>, containerName: string, user: seq<EnvVar>, op: Operator, n: string)
    requires n != ""
    ensures Entries(FinalEnv(lang, env, containerName, user, op), n) ==
            if ForcedEntry(lang, n, user, op).Some? then [ForcedEntry(lang, n, user, op).value]
            else if !Listed(n) && Has(user, n) then Entries(user, n)
            else if Has(env, n) then OwnEntries(lang, env, n)
            else if AddedEntry(lang, n, containerName, user).Some? then [AddedEntry(lang, n, containerName, user).value]
            else AtMostOne(Entries(user, n))
  {
    hide FinalEnv, LanguageForced, LanguageAdded, ForcedEntry, AddedEntry;
    FinalEntries(lang, env, containerName, user, op, n);
    ForcedTable(lang, user, op, n);
    AddedTable(lang, containerName, user, op, n);
    EntriesNonEmpty(LanguageForced(lang, user, op), n);
    EntriesNonEmpty(LanguageAdded(lang, containerName, user), n);
    EntriesNonEmpty(user, n);
    OwnExactly(lang, env, n);
  }

  lemma OwnExactly(lang: string, env: seq<EnvVar>, n: string)
    ensures Entries(Retained(lang, env), n) == OwnEntries(lang, env, n)
  {
    AugmentFirstMeaning(env, JAVA_TOOL_OPTIONS, JAVA_AGENT_OPTION, n);
    EntriesNonEmpty(env, n);
  }

  /** The search-path injector alone: only the first entry of the name changes, and only when it has a plain value. */
  lemma {:induction false} WithPathEntries(envs: seq<EnvVar>, p: SearchPath, n: string)
    ensures var was := Entries(envs, n);
            Entries(WithPath(envs, p), n) ==
            if n != p.name then was
            else if was == [] then [Plain(p.name, p.addition)]
            else if was[0].from.Some? then was
            else [was[0].(value := p.addition + p.separator + was[0].value)] + was[1..]
  {
    if envs != [] {
      if envs[0].name == p.name {
        EntriesCons(envs[0].(value := p.addition + p.separator + envs[0].value), envs[1..], n);
      } else {
        WithPathEntries(envs[1..], p, n);
        EntriesCons(envs[0], WithPath(envs[1..], p), n);
      }
    }
  }
}
