/**
 Patching a pod spec for APM injection: pull secrets, the agent's init container with its optional
 config and plugin volumes, the shared agent volume, and every container's environment and mount.
 */
module PodPatch {
  import opened Maybe
  import opened Enumeration
  import opened EnvVars
  import Injection

  datatype VolumeSource = ConfigMap(name: string) | EmptyDir | OtherSource(text: string)

  datatype Volume = Volume(name: string, source: VolumeSource)

  datatype Mount = Mount(name: string, path: string)

  datatype Security = Security(runAsNonRoot: Option<bool>, runAsUser: Option<int>)

  /** `resources` and `rest` stand for fields that are copied as a whole. */
  datatype Container = Container(name: string, image: string, env: seq<EnvVar>, mounts: seq<Mount>,
                                 command: seq<string>, args: seq<string>, security: Security,
                                 resources: string, rest: string)

  datatype Spec = Spec(pullSecrets: seq<string>, volumes: seq<Volume>, initContainers: seq<Container>,
                       containers: seq<Container>)

  datatype Config = Config(mode: string, configMapRef: Option<string>, volumeName: string, mountPath: string,
                           pluginConfigMapRef: Option<string>)

  datatype Patch = Patch(language: string, versions: map<string, string>, customImageFullName: string,
                         customImageName: string, envs: seq<EnvVar>, config: Config, pullSecrets: seq<string>,
                         initSecurity: Option<Security>, initResources: Option<string>)

  /** Instrumentation-wide fallbacks, and the operator's connection settings. */
  datatype Defaults = Defaults(initSecurity: Option<Security>, initResources: Option<string>,
                               operator: Injection.Operator)

  const AGENT_VOLUME := "whatap-agent-volume"
  const AGENT_PATH := "/whatap-agent"
  const PLUGIN_VOLUME := "whatap-plugin-volume"
  const PLUGIN_PATH := "/whatap-plugin"
  const PLUGIN_DIR := "/whatap-agent/plugin"
  const INIT_NAME := "whatap-agent-init"
  const DEFAULT_INIT_RESOURCES := "limits: cpu 200m, memory 256Mi"

  // ---------------------------------------------------------- the init container

  function Version(t: Patch): string {
    var v := if t.language in t.versions then t.versions[t.language] else "";
    if v == "" then "latest" else v
  }

  function AgentImage(t: Patch): string {
    if t.customImageFullName != "" then t.customImageFullName
    else if t.customImageName != "" then t.customImageName
    else "public.ecr.aws/whatap/apm-init-" + t.language + ":" + Version(t)
  }

  predicate Overrides(s: Option<Security>) {
    s.Some? && (s.value.runAsNonRoot.Some? || s.value.runAsUser.Some?)
  }

  /** Target overrides instrumentation overrides the non-root default; the two levels are never mixed. */
  function InitSecurity(t: Patch, d: Defaults): Security {
    if Overrides(t.initSecurity) then t.initSecurity.value
    else if Overrides(d.initSecurity) then d.initSecurity.value
    else Security(Some(true), None)
  }

  function InitResources(t: Patch, d: Defaults): string {
    if t.initResources.Some? then t.initResources.value else d.initResources.GetOr(DEFAULT_INIT_RESOURCES)
  }

  function InitEnv(t: Patch, d: Defaults): seq<EnvVar> {
    var connection := Injection.Connection([Injection.WHATAP_LICENSE, Injection.WHATAP_HOST, Injection.WHATAP_PORT],
                                           t.envs, d.operator);
    match t.language
    case "java" => connection
    case "python" => connection + AppInfo(t)
    case "nodejs" => connection + AppInfo(t)
    case _ => []
  }

  function AppInfo(t: Patch): seq<EnvVar> {
    [Plain(Injection.APP_NAME, Injection.LastValue(t.envs, Injection.APP_NAME)),
     Plain(Injection.APP_PROCESS_NAME, Injection.LastValue(t.envs, Injection.APP_PROCESS_NAME)),
     Plain(Injection.OKIND, Injection.LastValue(t.envs, Injection.OKIND))]
  }

  function AgentInit(t: Patch, d: Defaults): Container {
    Container(INIT_NAME, AgentImage(t), InitEnv(t, d), [Mount(AGENT_VOLUME, AGENT_PATH)], [], [],
              InitSecurity(t, d), InitResources(t, d), "imagePullPolicy: Always")
  }

  // ------------------------------------------------------------- specification

  predicate HasVolume(volumes: seq<Volume>, name: string) {
    exists v | v in volumes :: v.name == name
  }

  function AddSecrets(existing: seq<string>, extra: seq<string>): seq<string>
    decreases |extra|
  {
    if extra == [] then existing
    else AddSecrets(if extra[0] in existing then existing else existing + [extra[0]], extra[1..])
  }

  predicate WantsConfig(c: Config) {
    c.mode == "custom" && c.configMapRef.Some?
  }

  function ConfigVolume(c: Config): string {
    if c.volumeName == "" then "config-volume" else c.volumeName
  }

  function ConfigPath(c: Config): string {
    if c.mountPath == "" then "/config-volume" else c.mountPath
  }

  predicate InjectsConfig(c: Config, volumes: seq<Volume>) {
    WantsConfig(c) && !HasVolume(volumes, ConfigVolume(c))
  }

  function AfterConfig(c: Config, volumes: seq<Volume>): seq<Volume> {
    if InjectsConfig(c, volumes) then volumes + [Volume(ConfigVolume(c), ConfigMap(c.configMapRef.value))] else volumes
  }

  predicate InjectsPlugin(c: Config, volumes: seq<Volume>) {
    c.pluginConfigMapRef.Some? && !HasVolume(AfterConfig(c, volumes), PLUGIN_VOLUME)
  }

  function AfterPlugin(c: Config, volumes: seq<Volume>): seq<Volume> {
    AfterConfig(c, volumes)
    + if InjectsPlugin(c, volumes) then [Volume(PLUGIN_VOLUME, ConfigMap(c.pluginConfigMapRef.value))] else []
  }

  function FinalVolumes(c: Config, volumes: seq<Volume>): seq<Volume> {
    var vs := AfterPlugin(c, volumes);
    if HasVolume(vs, AGENT_VOLUME) then vs else vs + [Volume(AGENT_VOLUME, EmptyDir)]
  }

  function PreSteps(c: Config, volumes: seq<Volume>): seq<string> {
    if !InjectsConfig(c, volumes) then []
    else ["cp " + ConfigPath(c) + "/whatap.conf " + AGENT_PATH + "/", "chmod 644 " + AGENT_PATH + "/whatap.conf"]
  }

  function PostSteps(c: Config, volumes: seq<Volume>): seq<string> {
    if !InjectsPlugin(c, volumes) then []
    else ["mkdir -p " + PLUGIN_DIR,
          "cp -L " + PLUGIN_PATH + "/* " + PLUGIN_DIR + "/ 2>/dev/null || true",
          "chmod 644 " + PLUGIN_DIR + "/* 2>/dev/null || true"]
  }

  const RUN_INIT := "if [ -x /init.sh ]; then /init.sh; fi"

  function Join(steps: seq<string>, separator: string): string {
    if steps == [] then ""
    else if |steps| == 1 then steps[0]
    else steps[0] + separator + Join(steps[1..], separator)
  }

  function ExtraMounts(c: Config, volumes: seq<Volume>): seq<Mount> {
    (if InjectsConfig(c, volumes) then [Mount(ConfigVolume(c), ConfigPath(c))] else [])
    + (if InjectsPlugin(c, volumes) then [Mount(PLUGIN_VOLUME, PLUGIN_PATH)] else [])
  }

  function FinalInit(t: Patch, d: Defaults, volumes: seq<Volume>): Container {
    var init := AgentInit(t, d);
    var pre, post := PreSteps(t.config, volumes), PostSteps(t.config, volumes);
    var mounted := init.(mounts := init.mounts + ExtraMounts(t.config, volumes));
    if pre == [] && post == [] then mounted
    else mounted.(command := ["sh", "-c"], args := [Join(pre + [RUN_INIT] + post, " && ")])
  }

  function PatchContainer(c: Container, t: Patch, d: Defaults): Container {
    c.(env := Injection.FinalEnv(t.language, c.env, c.name, t.envs, d.operator),
       mounts := c.mounts + [Mount(AGENT_VOLUME, AGENT_PATH)])
  }

  function PatchContainers(cs: seq<Container>, t: Patch, d: Defaults): seq<Container> {
    seq(|cs|, i requires 0 <= i < |cs| => PatchContainer(cs[i], t, d))
  }

  function Patched(s: Spec, t: Patch, d: Defaults): Spec {
    Spec(AddSecrets(s.pullSecrets, t.pullSecrets),
         FinalVolumes(t.config, s.volumes),
         s.initContainers + [FinalInit(t, d, s.volumes)],
         PatchContainers(s.containers, t, d))
  }

  // --------------------------------------------------------------- the patching

  /** The injected environment of a container; `storage` is the backing array of its own list. */
  method InjectedEnv(container: Container, t: Patch, d: Defaults) returns (env: seq<EnvVar>)
    ensures env == Injection.FinalEnv(t.language, container.env, container.name, t.envs, d.operator)
  {
    var storage := new EnvVar[|container.env|](k requires 0 <= k < |container.env| => container.env[k]);
    assert storage[..] == container.env;
    env := Injection.InjectLanguageSpecificEnvVars(t.language, storage, container.name, t.envs, d.operator);
  }

  class PodSpec {
    var pullSecrets: seq<string>
    var volumes: seq<Volume>
    var initContainers: seq<Container>
    var containers: seq<Container>

    constructor (s: Spec)
      ensures View() == s
    {
      pullSecrets, volumes, initContainers, containers := s.pullSecrets, s.volumes, s.initContainers, s.containers;
    }

    function View(): Spec
      reads this
    {
      Spec(pullSecrets, volumes, initContainers, containers)
    }

    method EnsurePullSecrets(extra: seq<string>)
      modifies this
      ensures View() == old(View()).(pullSecrets := AddSecrets(old(pullSecrets), extra))
    {
      for i := 0 to |extra|
        invariant View() == old(View()).(pullSecrets := pullSecrets)
        invariant AddSecrets(pullSecrets, extra[i..]) == AddSecrets(old(pullSecrets), extra)
      {
        assert extra[i..][0] == extra[i] && extra[i..][1..] == extra[i + 1..];
        if extra[i] !in pullSecrets {
          pullSecrets := pullSecrets + [extra[i]];
        }
      }
    }

    method VolumeExists(name: string) returns (exists': bool)
      ensures exists' == HasVolume(volumes, name)
    {
      for i := 0 to |volumes|
        invariant forall k | 0 <= k < i :: volumes[k].name != name
      {
        if volumes[i].name == name {
          assert volumes[i] in volumes;
          return true;
        }
      }
      exists' := false;
    }

    /** Adds the config and plugin volumes that do not collide, and completes the init container. */
    method MergeConfig(t: Patch, init: Container) returns (container: Container)
      modifies this
      ensures View() == old(View()).(volumes := AfterPlugin(t.config, old(volumes)))
      ensures container ==
              var pre, post := PreSteps(t.config, old(volumes)), PostSteps(t.config, old(volumes));
              var mounted := init.(mounts := init.mounts + ExtraMounts(t.config, old(volumes)));
              if pre == [] && post == [] then mounted
              else mounted.(command := ["sh", "-c"], args := [Join(pre + [RUN_INIT] + post, " && ")])
    {
      container := init;
      var preInitSteps, postInitSteps := [], [];
      if t.config.mode == "custom" && t.config.configMapRef.Some? {
        var volName := if t.config.volumeName == "" then "config-volume" else t.config.volumeName;
        var mountPath := if t.config.mountPath == "" then "/config-volume" else t.config.mountPath;
        var collides := VolumeExists(volName);
        if !collides {
          volumes := volumes + [Volume(volName, ConfigMap(t.config.configMapRef.value))];
          container := container.(mounts := container.mounts + [Mount(volName, mountPath)]);
          preInitSteps := ["cp " + mountPath + "/whatap.conf " + AGENT_PATH + "/",
                           "chmod 644 " + AGENT_PATH + "/whatap.conf"];
        }
      }
      assert volumes == AfterConfig(t.config, old(volumes));
      if t.config.pluginConfigMapRef.Some? {
        var collides := VolumeExists(PLUGIN_VOLUME);
        if !collides {
          volumes := volumes + [Volume(PLUGIN_VOLUME, ConfigMap(t.config.pluginConfigMapRef.value))];
          container := container.(mounts := container.mounts + [Mount(PLUGIN_VOLUME, PLUGIN_PATH)]);
          postInitSteps := ["mkdir -p " + PLUGIN_DIR,
                            "cp -L " + PLUGIN_PATH + "/* " + PLUGIN_DIR + "/ 2>/dev/null || true",
                            "chmod 644 " + PLUGIN_DIR + "/* 2>/dev/null || true"];
        }
      }
      assert container.mounts == init.mounts + ExtraMounts(t.config, old(volumes));
      assert preInitSteps == PreSteps(t.config, old(volumes)) && postInitSteps == PostSteps(t.config, old(volumes));
      if preInitSteps != [] || postInitSteps != [] {
        container := container.(command := ["sh", "-c"],
                                args := [Join(preInitSteps + [RUN_INIT] + postInitSteps, " && ")]);
      }
    }

    method PatchEachContainer(t: Patch, d: Defaults)
      modifies this`containers
      ensures containers == PatchContainers(old(containers), t, d)
    {
      ghost var was := containers;
      for i := 0 to |containers|
        invariant |containers| == |was|
        invariant forall k | 0 <= k < i :: containers[k] == PatchContainer(was[k], t, d)
        invariant forall k | i <= k < |was| :: containers[k] == was[k]
      {
        var container := containers[i];
        var env := InjectedEnv(container, t, d);
        containers := containers[i := container.(env := env)];
        containers := containers[i := containers[i].(mounts := container.mounts + [Mount(AGENT_VOLUME, AGENT_PATH)])];
      }
    }

    method PatchPodTemplateSpec(t: Patch, d: Defaults)
      modifies this
      ensures View() == Patched(old(View()), t, d)
    {
      EnsurePullSecrets(t.pullSecrets);
      var init := AgentInit(t, d);
      init := MergeConfig(t, init);
      initContainers := initContainers + [init];
      var shared := VolumeExists(AGENT_VOLUME);
      if !shared {
        volumes := volumes + [Volume(AGENT_VOLUME, EmptyDir)];
      }
      PatchEachContainer(t, d);
    }
  }

  // ------------------------------------------------------------ well-formedness

  predicate UniqueVolumes(volumes: seq<Volume>) {
    forall i, j | 0 <= i < j < |volumes| :: volumes[i].name != volumes[j].name
  }

  lemma {:induction false} AddSecretsMeaning(existing: seq<string>, extra: seq<string>)
    ensures existing <= AddSecrets(existing, extra)
    ensures Distinct(existing) ==> Distinct(AddSecrets(existing, extra))
    ensures forall s :: s in AddSecrets(existing, extra) <==> s in existing || s in extra
    decreases |extra|
  {
    if extra != [] {
      AddSecretsMeaning(if extra[0] in existing then existing else existing + [extra[0]], extra[1..]);
    }
  }

  /** Secrets are taken in order, each one the list does not have yet. */
  lemma {:induction false} AddSecretsInOrder(existing: seq<string>, extra: seq<string>, s: string)
    ensures AddSecrets(existing, []) == existing
    ensures var before := AddSecrets(existing, extra);
            AddSecrets(existing, extra + [s]) == if s in existing || s in extra then before else before + [s]
    decreases |extra|
  {
    if extra == [] {
      assert extra + [s] == [s] && [s][1..] == [];
    } else {
      assert (extra + [s])[1..] == extra[1..] + [s];
      AddSecretsInOrder(if extra[0] in existing then existing else existing + [extra[0]], extra[1..], s);
    }
  }

  lemma AppendVolume(volumes: seq<Volume>, v: Volume)
    requires !HasVolume(volumes, v.name)
    ensures UniqueVolumes(volumes) ==> UniqueVolumes(volumes + [v])
    ensures forall n :: HasVolume(volumes + [v], n) <==> HasVolume(volumes, n) || n == v.name
  {
    assert forall i | 0 <= i < |volumes| :: volumes[i] in volumes;
    forall n ensures HasVolume(volumes + [v], n) <==> HasVolume(volumes, n) || n == v.name {
      if n == v.name {
        assert (volumes + [v])[|volumes|] == v;
      }
    }
  }

  /** Volumes only grow, stay uniquely named, and contain everything the patch mounts. */
  lemma VolumesMeaning(c: Config, volumes: seq<Volume>)
    ensures volumes <= FinalVolumes(c, volumes)
    ensures UniqueVolumes(volumes) ==> UniqueVolumes(FinalVolumes(c, volumes))
    ensures HasVolume(FinalVolumes(c, volumes), AGENT_VOLUME)
    ensures forall m | m in ExtraMounts(c, volumes) :: HasVolume(FinalVolumes(c, volumes), m.name)
  {
    if InjectsConfig(c, volumes) {
      AppendVolume(volumes, Volume(ConfigVolume(c), ConfigMap(c.configMapRef.value)));
    }
    var middle := AfterConfig(c, volumes);
    if InjectsPlugin(c, volumes) {
      AppendVolume(middle, Volume(PLUGIN_VOLUME, ConfigMap(c.pluginConfigMapRef.value)));
    } else {
      assert AfterPlugin(c, volumes) == middle;
    }
    if !HasVolume(AfterPlugin(c, volumes), AGENT_VOLUME) {
      AppendVolume(AfterPlugin(c, volumes), Volume(AGENT_VOLUME, EmptyDir));
    }
  }

  /** Every mount of the new init container names a volume of the pod. */
  lemma InitMounted(s: Spec, t: Patch, d: Defaults)
    ensures forall m | m in FinalInit(t, d, s.volumes).mounts :: HasVolume(FinalVolumes(t.config, s.volumes), m.name)
  {
    hide FinalVolumes, ExtraMounts;
    VolumesMeaning(t.config, s.volumes);
    var init := FinalInit(t, d, s.volumes);
    assert init.mounts == [Mount(AGENT_VOLUME, AGENT_PATH)] + ExtraMounts(t.config, s.volumes);
  }

  /** Containers keep their mounts, and every new one names a volume of the pod. */
  lemma ContainerMounted(s: Spec, t: Patch, d: Defaults, i: nat)
    requires i < |s.containers|
    ensures |PatchContainers(s.containers, t, d)| == |s.containers|
    ensures var was, now := s.containers[i].mounts, PatchContainers(s.containers, t, d)[i].mounts;
            && was <= now
            && forall m | m in now[|was|..] :: HasVolume(FinalVolumes(t.config, s.volumes), m.name)
  {
    hide FinalVolumes, HasVolume;
    VolumesMeaning(t.config, s.volumes);
    var was, now := s.containers[i].mounts, PatchContainers(s.containers, t, d)[i].mounts;
    assert now[|was|..] == [Mount(AGENT_VOLUME, AGENT_PATH)];
  }

  /**
   A patched pod spec is well formed: names stay unique, old volumes and init containers are a prefix, and
   every mount the patch adds names a volume of the pod.
   */
  lemma PatchedWellFormed(s: Spec, t: Patch, d: Defaults)
    ensures var p := Patched(s, t, d);
            && s.pullSecrets <= p.pullSecrets && (Distinct(s.pullSecrets) ==> Distinct(p.pullSecrets))
            && (forall x | x in t.pullSecrets :: x in p.pullSecrets)
            && s.volumes <= p.volumes && (UniqueVolumes(s.volumes) ==> UniqueVolumes(p.volumes))
            && s.initContainers <= p.initContainers && |p.initContainers| == |s.initContainers| + 1
            && (forall m | m in p.initContainers[|s.initContainers|].mounts :: HasVolume(p.volumes, m.name))
            && |p.containers| == |s.containers|
            && (forall i | 0 <= i < |s.containers| ::
                  && s.containers[i].mounts <= p.containers[i].mounts
                  && forall m | m in p.containers[i].mounts[|s.containers[i].mounts|..] :: HasVolume(p.volumes, m.name))
  {
    hide AddSecrets, Distinct, FinalVolumes, UniqueVolumes, HasVolume, FinalInit, PatchContainer;
    AddSecretsMeaning(s.pullSecrets, t.pullSecrets);
    VolumesMeaning(t.config, s.volumes);
    InitMounted(s, t, d);
    forall i | 0 <= i < |s.containers|
      ensures s.containers[i].mounts <= PatchContainers(s.containers, t, d)[i].mounts
      ensures forall m | m in PatchContainers(s.containers, t, d)[i].mounts[|s.containers[i].mounts|..] ::
                HasVolume(FinalVolumes(t.config, s.volumes), m.name)
    {
      ContainerMounted(s, t, d, i);
    }
  }

  /** A config volume is injected: custom mode, a ConfigMap, and no volume of that name in the pod. */
  predicate ConfigCopied(c: Config, volumes: seq<Volume>) {
    && c.mode == "custom" && c.configMapRef.Some?
    && !HasVolume(volumes, if c.volumeName == "" then "config-volume" else c.volumeName)
  }

  /** A plugin volume is injected: a ConfigMap, and no volume of that name in the pod or just injected. */
  predicate PluginCopied(c: Config, volumes: seq<Volume>) {
    && c.pluginConfigMapRef.Some? && !HasVolume(volumes, "whatap-plugin-volume")
    && !(ConfigCopied(c, volumes) && c.volumeName == "whatap-plugin-volume")
  }

  const AGENT_SCRIPT := "if [ -x /init.sh ]; then /init.sh; fi"

  function ConfigScript(path: string): string {
    "cp " + path + "/whatap.conf /whatap-agent/" + " && " + "chmod 644 /whatap-agent/whatap.conf" + " && "
  }

  const MAKE_PLUGIN_DIR := "mkdir -p " + "/whatap-agent/plugin"
  const COPY_PLUGINS := "cp -L " + "/whatap-plugin" + "/* " + "/whatap-agent/plugin" + "/ 2>/dev/null || true"
  const SHARE_PLUGINS := "chmod 644 " + "/whatap-agent/plugin" + "/* 2>/dev/null || true"
  const PLUGIN_SCRIPT := " && " + (MAKE_PLUGIN_DIR + " && " + (COPY_PLUGINS + " && " + SHARE_PLUGINS))

  /** Steps joined: the ones before the image's script, the script, and the ones after it. */
  lemma Assembled(config: bool, plugin: bool, a: string, b: string, run: string, x: string, y: string, z: string,
                  and: string)
    ensures Join((if config then [a, b] else []) + [run] + (if plugin then [x, y, z] else []), and) ==
            (if config then a + and + b + and else "") + run + (if plugin then and + (x + and + (y + and + z)) else "")
  {
    AssembledAfter(plugin, run, x, y, z, and);
    var tail := [run] + if plugin then [x, y, z] else [];
    if config {
      assert [a, b] + [run] + (if plugin then [x, y, z] else []) == [a, b] + tail;
      assert ([a, b] + tail)[1..] == [b] + tail && ([b] + tail)[1..] == tail;
      var rest := Join(tail, and);
      assert Join([b] + tail, and) == b + and + rest;
      assert a + and + (b + and + rest) == a + and + b + and + rest;
    } else {
      assert [] + [run] + (if plugin then [x, y, z] else []) == tail;
    }
  }

  lemma AssembledAfter(plugin: bool, run: string, x: string, y: string, z: string, and: string)
    ensures Join([run] + (if plugin then [x, y, z] else []), and) ==
            run + (if plugin then and + (x + and + (y + and + z)) else "")
  {
    if plugin {
      assert ([run] + [x, y, z])[1..] == [x, y, z] && [x, y, z][1..] == [y, z] && [y, z][1..] == [z];
      assert Join([y, z], and) == y + and + Join([z], and);
      assert Join([x, y, z], and) == x + and + Join([y, z], and);
    }
  }

  lemma CopiedVolumes(c: Config, volumes: seq<Volume>)
    ensures InjectsConfig(c, volumes) <==> ConfigCopied(c, volumes)
    ensures InjectsPlugin(c, volumes) <==> PluginCopied(c, volumes)
  {
    assert "config-volume"[0] != PLUGIN_VOLUME[0];
    if InjectsConfig(c, volumes) {
      AppendVolume(volumes, Volume(ConfigVolume(c), ConfigMap(c.configMapRef.value)));
    }
  }

  lemma ConfigTexts(path: string)
    ensures "cp " + path + "/whatap.conf " + AGENT_PATH + "/" == "cp " + path + "/whatap.conf /whatap-agent/"
    ensures "chmod 644 " + AGENT_PATH + "/whatap.conf" == "chmod 644 /whatap-agent/whatap.conf"
  {
    assert "/whatap.conf " + AGENT_PATH + "/" == "/whatap.conf /whatap-agent/";
    assert "cp " + path + "/whatap.conf " + AGENT_PATH + "/" == "cp " + path + ("/whatap.conf " + AGENT_PATH + "/");
  }

  /**
   The init command is overridden exactly when a config or plugin volume was injected. The assembled script copies
   the configuration before it runs the image's own script, and the plugins after it.
   */
  lemma InitCommand(s: Spec, t: Patch, d: Defaults)
    ensures var init := Patched(s, t, d).initContainers[|s.initContainers|];
            var config, plugin := ConfigCopied(t.config, s.volumes), PluginCopied(t.config, s.volumes);
            var path := if t.config.mountPath == "" then "/config-volume" else t.config.mountPath;
            if !config && !plugin then
              init.command == [] && init.args == []
            else
              && init.command == ["sh", "-c"]
              && init.args == [(if config then ConfigScript(path) else "") + AGENT_SCRIPT
                               + (if plugin then PLUGIN_SCRIPT else "")]
  {
    hide HasVolume;
    var config, plugin := InjectsConfig(t.config, s.volumes), InjectsPlugin(t.config, s.volumes);
    CopiedVolumes(t.config, s.volumes);
    ConfigTexts(ConfigPath(t.config));
    Assembled(config, plugin, "cp " + ConfigPath(t.config) + "/whatap.conf /whatap-agent/",
              "chmod 644 /whatap-agent/whatap.conf", RUN_INIT, MAKE_PLUGIN_DIR,
              COPY_PLUGINS, SHARE_PLUGINS, " && ");
  }

  /** The volumes of the patched pod: what it had, and each of three volumes whose name was still free. */
  lemma PatchedVolumes(s: Spec, t: Patch, d: Defaults)
    ensures var c := t.config;
            var name := if c.volumeName == "" then "config-volume" else c.volumeName;
            var config, plugin := ConfigCopied(c, s.volumes), PluginCopied(c, s.volumes);
            Patched(s, t, d).volumes ==
            s.volumes
            + (if config then [Volume(name, ConfigMap(c.configMapRef.value))] else [])
            + (if plugin then [Volume("whatap-plugin-volume", ConfigMap(c.pluginConfigMapRef.value))] else [])
            + (if HasVolume(s.volumes, "whatap-agent-volume") || (config && name == "whatap-agent-volume") then []
               else [Volume("whatap-agent-volume", EmptyDir)])
  {
    CopiedVolumes(t.config, s.volumes);
    var c := t.config;
    if InjectsConfig(c, s.volumes) {
      AppendVolume(s.volumes, Volume(ConfigVolume(c), ConfigMap(c.configMapRef.value)));
    }
    if InjectsPlugin(c, s.volumes) {
      AppendVolume(AfterConfig(c, s.volumes), Volume(PLUGIN_VOLUME, ConfigMap(c.pluginConfigMapRef.value)));
    }
    assert PLUGIN_VOLUME[7] != AGENT_VOLUME[7];
  }

  /** A patched container is the container with its injected environment and the agent volume mounted last. */
  lemma PatchedContainer(s: Spec, t: Patch, d: Defaults, i: nat)
    requires i < |s.containers|
    ensures |Patched(s, t, d).containers| == |s.containers|
    ensures var c := s.containers[i];
            Patched(s, t, d).containers[i] ==
            Container(c.name, c.image, Injection.FinalEnv(t.language, c.env, c.name, t.envs, d.operator),
                      c.mounts + [Mount("whatap-agent-volume", "/whatap-agent")],
                      c.command, c.args, c.security, c.resources, c.rest)
  {
    hide Injection.FinalEnv;
  }

  /** The first of two settings that sets something. */
  predicate Sets(s: Option<Security>) {
    s.Some? && !(s.value == Security(None, None))
  }

  /**
   The init container the patch adds: its image, its mounts, its security and its resources, the target's own before
   the instrumentation's.
   */
  lemma InitContainer(s: Spec, t: Patch, d: Defaults)
    ensures |Patched(s, t, d).initContainers| == |s.initContainers| + 1
    ensures var init, c := Patched(s, t, d).initContainers[|s.initContainers|], t.config;
            var version := if t.language in t.versions && t.versions[t.language] != "" then t.versions[t.language]
                           else "latest";
            && init.name == "whatap-agent-init" && init.rest == "imagePullPolicy: Always"
            && init.image == (if t.customImageFullName != "" then t.customImageFullName
                              else if t.customImageName != "" then t.customImageName
                              else "public.ecr.aws/whatap/apm-init-" + t.language + ":" + version)
            && init.mounts == [Mount("whatap-agent-volume", "/whatap-agent")]
                              + (if ConfigCopied(c, s.volumes)
                                 then [Mount(if c.volumeName == "" then "config-volume" else c.volumeName,
                                             if c.mountPath == "" then "/config-volume" else c.mountPath)] else [])
                              + (if PluginCopied(c, s.volumes) then [Mount("whatap-plugin-volume", "/whatap-plugin")]
                                 else [])
            && init.security == (if Sets(t.initSecurity) then t.initSecurity.value
                                 else if Sets(d.initSecurity) then d.initSecurity.value
                                 else Security(Some(true), None))
            && init.resources == (if t.initResources.Some? then t.initResources.value
                                  else if d.initResources.Some? then d.initResources.value
                                  else "limits: cpu 200m, memory 256Mi")
  {
    hide InitEnv, Join, PreSteps, PostSteps, ExtraMounts, AgentImage, InitSecurity, InitResources, PatchContainers;
    InitMounts(t.config, s.volumes);
    InitSettings(t, d);
    assert FinalInit(t, d, s.volumes).mounts == AgentInit(t, d).mounts + ExtraMounts(t.config, s.volumes);
  }

  lemma InitMounts(c: Config, volumes: seq<Volume>)
    ensures ExtraMounts(c, volumes) ==
            (if ConfigCopied(c, volumes)
             then [Mount(if c.volumeName == "" then "config-volume" else c.volumeName,
                         if c.mountPath == "" then "/config-volume" else c.mountPath)] else [])
            + (if PluginCopied(c, volumes) then [Mount("whatap-plugin-volume", "/whatap-plugin")] else [])
  {
    hide HasVolume;
    CopiedVolumes(c, volumes);
  }

  lemma InitSettings(t: Patch, d: Defaults)
    ensures AgentImage(t) == (if t.customImageFullName != "" then t.customImageFullName
                              else if t.customImageName != "" then t.customImageName
                              else "public.ecr.aws/whatap/apm-init-" + t.language + ":"
                                   + (if t.language in t.versions && t.versions[t.language] != ""
                                      then t.versions[t.language] else "latest"))
    ensures InitSecurity(t, d) == (if Sets(t.initSecurity) then t.initSecurity.value
                                   else if Sets(d.initSecurity) then d.initSecurity.value
                                   else Security(Some(true), None))
    ensures InitResources(t, d) == (if t.initResources.Some? then t.initResources.value
                                    else if d.initResources.Some? then d.initResources.value
                                    else "limits: cpu 200m, memory 256Mi")
  {}

  /** The environment of the init container: connection settings, and the application's for two of the languages. */
  lemma InitEnvironment(s: Spec, t: Patch, d: Defaults)
    ensures var env := Patched(s, t, d).initContainers[|s.initContainers|].env;
            var connection := [Plain("WHATAP_LICENSE", Injection.Setting(t.envs, d.operator, 0)),
                               Plain("WHATAP_HOST", Injection.Setting(t.envs, d.operator, 1)),
                               Plain("WHATAP_PORT", Injection.Setting(t.envs, d.operator, 2))];
            env == if t.language == "java" then connection
                   else if t.language == "python" || t.language == "nodejs" then
                     connection + [Plain("app_name", Injection.LastValue(t.envs, "app_name")),
                                   Plain("app_process_name", Injection.LastValue(t.envs, "app_process_name")),
                                   Plain("OKIND", Injection.LastValue(t.envs, "OKIND"))]
                   else []
  {
    hide HasVolume, Injection.FirstAlias, Injection.LastValue;
    assert FinalInit(t, d, s.volumes).env == InitEnv(t, d);
  }

  /**
   The init container and every patched container agree on license, host and port, under their own names, and no
   container has a second value for them.
   */
  lemma InitAgreesWithContainers(s: Spec, t: Patch, d: Defaults, which: nat, c: nat)
    requires Injection.Supported(t.language) && which < 3 && c < |s.containers|
    ensures var p := Patched(s, t, d);
            var init := p.initContainers[|s.initContainers|].env;
            var found := Entries(p.containers[c].env, Injection.ConnectionName(t.language, which));
            && |init| >= 3 && init[which].name == ["WHATAP_LICENSE", "WHATAP_HOST", "WHATAP_PORT"][which]
            && |found| == 1 && found[0].value == init[which].value
  {
    hide Entries, Injection.FinalEnv;
    var init := InitEnv(t, d);
    var forced := Injection.LanguageForced(t.language, t.envs, d.operator);
    assert forced[which].name == Injection.ConnectionName(t.language, which);
    assert forced[which].value == init[which].value;
    Injection.ForcedExactlyOnce(t.language, s.containers[c].env, s.containers[c].name, t.envs, d.operator, which);
    assert FinalInit(t, d, s.volumes).env == init;
  }

  /**
   The pod has the scratch volume for the agent files exactly when it had it before, or no volume of the pod, and no
   injected config volume, has that name.
   */
  lemma AgentVolumeIsScratch(s: Spec, t: Patch, d: Defaults)
    ensures Volume(AGENT_VOLUME, EmptyDir) in Patched(s, t, d).volumes <==>
            || Volume(AGENT_VOLUME, EmptyDir) in s.volumes
            || (&& !HasVolume(s.volumes, AGENT_VOLUME)
                && !(WantsConfig(t.config) && ConfigVolume(t.config) == AGENT_VOLUME))
  {
    var c := t.config;
    if InjectsConfig(c, s.volumes) {
      AppendVolume(s.volumes, Volume(ConfigVolume(c), ConfigMap(c.configMapRef.value)));
    }
    if InjectsPlugin(c, s.volumes) {
      AppendVolume(AfterConfig(c, s.volumes), Volume(PLUGIN_VOLUME, ConfigMap(c.pluginConfigMapRef.value)));
    }
    assert PLUGIN_VOLUME[7] != AGENT_VOLUME[7];
    var vs := AfterPlugin(c, s.volumes);
    assert HasVolume(vs, AGENT_VOLUME) <==>
           HasVolume(s.volumes, AGENT_VOLUME) || (WantsConfig(c) && ConfigVolume(c) == AGENT_VOLUME);
  }
}
