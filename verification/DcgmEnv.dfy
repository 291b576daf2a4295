/**
 The environment of the dcgm-exporter container: defaults from the custom resource, then the user's
 entries folded over them in place. An explicitly empty remote host-engine address removes the entry.
 */
module DcgmEnv {
  import opened Maybe
  import opened EnvVars

  const HOSTENGINE_INFO := "DCGM_REMOTE_HOSTENGINE_INFO"

  datatype HostEngine = HostEngine(enabled: bool, port: int)

  datatype GpuSpec = GpuSpec(groupLabel: string, allowlistRegex: string, clusterName: string, devices: string,
                             hostEngine: Option<HostEngine>, remoteHostEngineInfo: string, envs: seq<EnvVar>)

  predicate Clears(u: EnvVar) {
    u.name == HOSTENGINE_INFO && u.value == "" && u.from == None
  }

  // ----------------------------------------------------------- specification

  function ReplaceFirst(envs: seq<EnvVar>, u: EnvVar): seq<EnvVar> {
    if envs == [] then []
    else if envs[0].name == u.name then [u] + envs[1..]
    else [envs[0]] + ReplaceFirst(envs[1..], u)
  }

  function Apply(envs: seq<EnvVar>, u: EnvVar): seq<EnvVar> {
    if Clears(u) then Outside(envs, {u.name})
    else if Has(envs, u.name) then ReplaceFirst(envs, u)
    else envs + [u]
  }

  function ApplyAll(envs: seq<EnvVar>, user: seq<EnvVar>): seq<EnvVar> {
    if user == [] then envs else Apply(ApplyAll(envs, user[..|user| - 1]), user[|user| - 1])
  }

  // --------------------------------------------------------- the in-place fold

  /** Keeps the entries with another name at the front of the buffer, reusing its storage. */
  method FilterInPlace(buf: array<EnvVar>, n: nat, name: string) returns (m: nat)
    requires n <= buf.Length
    modifies buf
    ensures m <= n
    ensures buf[..m] == Outside(old(buf[..n]), {name})
  {
    ghost var was := buf[..n];
    m := 0;
    for i := 0 to n
      invariant m <= i
      invariant forall k | i <= k < n :: buf[k] == was[k]
      invariant buf[..m] == Outside(was[..i], {name})
    {
      var env := buf[i];
      OutsideSnoc(was[..i], env, {name});
      assert was[..i + 1] == was[..i] + [env];
      if env.name != name {
        ghost var kept := buf[..m];
        buf[m] := env;
        m := m + 1;
        assert buf[..m] == kept + [env];
      }
    }
    assert was[..n] == was;
  }

  lemma {:induction false} ReplaceFirstAt(envs: seq<EnvVar>, u: EnvVar, i: nat)
    requires i < |envs| && envs[i].name == u.name
    requires forall k | 0 <= k < i :: envs[k].name != u.name
    ensures ReplaceFirst(envs, u) == envs[i := u]
  {
    if i > 0 {
      ReplaceFirstAt(envs[1..], u, i - 1);
    }
  }

  /** Replaces the first entry with the user's name, if there is one. */
  method ReplaceInPlace(buf: array<EnvVar>, n: nat, u: EnvVar) returns (found: bool)
    requires n <= buf.Length
    modifies buf
    ensures found == Has(old(buf[..n]), u.name)
    ensures buf[..n] == if found then ReplaceFirst(old(buf[..n]), u) else old(buf[..n])
  {
    ghost var was := buf[..n];
    for i := 0 to n
      invariant buf[..n] == was
      invariant forall k | 0 <= k < i :: was[k].name != u.name
    {
      if buf[i].name == u.name {
        ReplaceFirstAt(was, u, i);
        assert was[i] in was;
        buf[i] := u;
        assert buf[..n] == was[i := u];
        return true;
      }
    }
    found := false;
  }

  method ApplyUserEnvs(defaults: seq<EnvVar>, user: seq<EnvVar>) returns (envs: seq<EnvVar>)
    ensures envs == ApplyAll(defaults, user)
  {
    hide Outside, ReplaceFirst, Has;
    var buf := new EnvVar[|defaults| + |user|](i => if 0 <= i < |defaults| then defaults[i] else Plain("", ""));
    var n: nat := |defaults|;
    assert buf[..n] == defaults;
    for i := 0 to |user|
      invariant n <= |defaults| + i
      invariant buf[..n] == ApplyAll(defaults, user[..i])
    {
      var u := user[i];
      assert user[..i + 1][..i] == user[..i];
      if Clears(u) {
        n := FilterInPlace(buf, n, u.name);
        continue;
      }
      var found := ReplaceInPlace(buf, n, u);
      if !found {
        buf[n] := u;
        n := n + 1;
      }
    }
    assert user[..|user|] == user;
    envs := buf[..n];
  }

  // ------------------------------------------------- the fold is a map overlay

  lemma {:induction false} OutsideUnique(envs: seq<EnvVar>, name: string)
    requires Unique(envs)
    ensures Unique(Outside(envs, {name}))
    ensures forall e | e in Outside(envs, {name}) :: e in envs
  {
    if envs != [] {
      var rest := envs[1..];
      var kept := Outside(rest, {name});
      OutsideUnique(rest, name);
      forall i | 0 <= i < |kept| ensures kept[i].name != envs[0].name {
        assert kept[i] in kept;
        var j :| 0 <= j < |rest| && rest[j] == kept[i];
        assert envs[j + 1] == kept[i];
      }
      assert forall e | e in rest :: e in envs;
    }
  }

  lemma {:induction false} ReplaceFirstMeaning(envs: seq<EnvVar>, u: EnvVar, k: string)
    requires Unique(envs) && Has(envs, u.name)
    ensures Entries(ReplaceFirst(envs, u), k) == if k == u.name then [u] else Entries(envs, k)
    ensures |ReplaceFirst(envs, u)| == |envs|
    ensures forall i | 0 <= i < |envs| :: ReplaceFirst(envs, u)[i].name == envs[i].name
  {
    var rest := envs[1..];
    if envs[0].name == u.name {
      EntriesConcat([u], rest, k);
      EntriesNonEmpty(rest, u.name);
    } else {
      assert Has(rest, u.name) by {
        var e :| e in envs && e.name == u.name;
        assert e in rest;
      }
      ReplaceFirstMeaning(rest, u, k);
      EntriesConcat([envs[0]], ReplaceFirst(rest, u), k);
    }
  }

  lemma ApplyMeaning(envs: seq<EnvVar>, u: EnvVar, k: string)
    requires Unique(envs)
    ensures Unique(Apply(envs, u))
    ensures Effective(Apply(envs, u), k) ==
            if k != u.name then Effective(envs, k) else if Clears(u) then None else Some(u)
  {
    EntriesNonEmpty(envs, k);
    if Clears(u) {
      OutsideEntries(envs, {u.name}, k);
      OutsideUnique(envs, u.name);
    } else if Has(envs, u.name) {
      ReplaceFirstMeaning(envs, u, k);
    } else {
      EntriesConcat(envs, [u], k);
    }
  }

  /**
   The folded list has unique names, and each name carries its last user entry, or its default when the
   user has none; a last entry that is an empty host-engine address means absence.
   */
  lemma {:induction false} FoldIsOverlay(defaults: seq<EnvVar>, user: seq<EnvVar>, k: string)
    requires Unique(defaults)
    ensures Unique(ApplyAll(defaults, user))
    ensures Effective(ApplyAll(defaults, user), k) ==
            match Last(user, k)
            case None => Effective(defaults, k)
            case Some(u) => if Clears(u) then None else Some(u)
  {
    if user != [] {
      var front, u := user[..|user| - 1], user[|user| - 1];
      FoldIsOverlay(defaults, front, k);
      ApplyMeaning(ApplyAll(defaults, front), u, k);
      assert user == front + [u];
      EntriesConcat(front, [u], k);
    }
  }

  // ------------------------------------------------------------- the defaults

  function Digits(n: nat): string {
    if n < 10 then ["0123456789"[n]] else Digits(n / 10) + ["0123456789"[n % 10]]
  }

  function Decimal(n: int): string {
    if n < 0 then "-" + Digits(-n) else Digits(n)
  }

  /** A regular expression matching the text literally. */
  function QuoteMeta(s: string): string {
    if s == "" then ""
    else (if s[0] in "\\.+*?()|[]{}^$" then ['\\', s[0]] else [s[0]]) + QuoteMeta(s[1..])
  }

  predicate HostEngineOn(g: GpuSpec) {
    g.hostEngine.Some? && g.hostEngine.value.enabled
  }

  function GroupLabelEnvs(g: GpuSpec): seq<EnvVar> {
    if g.groupLabel == "" then []
    else [Plain("DCGM_EXPORTER_KUBERNETES_ENABLE_POD_LABELS", "true"),
          Plain("DCGM_EXPORTER_KUBERNETES_POD_LABEL_ALLOWLIST_REGEX",
                if g.allowlistRegex != "" then g.allowlistRegex else "^(" + QuoteMeta(g.groupLabel) + ")$")]
  }

  function ClusterNameEnvs(g: GpuSpec): seq<EnvVar> {
    if g.clusterName == "" then [] else [Plain("DCGM_EXPORTER_KUBERNETES_CLUSTER_NAME", g.clusterName)]
  }

  function DeviceEnvs(g: GpuSpec): seq<EnvVar> {
    if g.devices == "" || g.devices == "f" then [] else [Plain("DCGM_EXPORTER_DEVICES_STR", g.devices)]
  }

  function HostEngineEnvs(g: GpuSpec): seq<EnvVar> {
    if HostEngineOn(g) then
      var port := if g.hostEngine.value.port != 0 then g.hostEngine.value.port else 5555;
      [Plain(HOSTENGINE_INFO, "localhost:" + Decimal(port))]
    else if g.remoteHostEngineInfo != "" then [Plain(HOSTENGINE_INFO, g.remoteHostEngineInfo)]
    else []
  }

  function FixedEnvs(): seq<EnvVar> {
    [Plain("DCGM_EXPORTER_LISTEN", ":9400"),
     Plain("DCGM_EXPORTER_KUBERNETES", "true"),
     Plain("DCGM_EXPORTER_COLLECTORS", "/etc/dcgm-exporter/whatap-dcgm-exporter.csv"),
     FromField("NODE_NAME", "spec.nodeName")]
  }

  function ExporterSettings(g: GpuSpec): seq<EnvVar> {
    FixedEnvs() + GroupLabelEnvs(g) + ClusterNameEnvs(g) + DeviceEnvs(g)
  }

  function Defaults(g: GpuSpec): seq<EnvVar> {
    ExporterSettings(g) + HostEngineEnvs(g)
  }

  /** Ranks the default names: a later default always has a higher rank, so no name repeats. */
  function Rank(name: string): int {
    if name == "DCGM_EXPORTER_LISTEN" then 0
    else if name == "DCGM_EXPORTER_KUBERNETES" then 1
    else if name == "DCGM_EXPORTER_COLLECTORS" then 2
    else if name == "NODE_NAME" then 3
    else if name == "DCGM_EXPORTER_KUBERNETES_ENABLE_POD_LABELS" then 4
    else if name == "DCGM_EXPORTER_KUBERNETES_POD_LABEL_ALLOWLIST_REGEX" then 5
    else if name == "DCGM_EXPORTER_KUBERNETES_CLUSTER_NAME" then 6
    else if name == "DCGM_EXPORTER_DEVICES_STR" then 7
    else if name == HOSTENGINE_INFO then 8
    else 9
  }

  ghost predicate Placed(rank: string -> int) {
    && rank("DCGM_EXPORTER_LISTEN") == 0
    && rank("DCGM_EXPORTER_KUBERNETES") == 1
    && rank("DCGM_EXPORTER_COLLECTORS") == 2
    && rank("NODE_NAME") == 3
    && rank("DCGM_EXPORTER_KUBERNETES_ENABLE_POD_LABELS") == 4
    && rank("DCGM_EXPORTER_KUBERNETES_POD_LABEL_ALLOWLIST_REGEX") == 5
    && rank("DCGM_EXPORTER_KUBERNETES_CLUSTER_NAME") == 6
    && rank("DCGM_EXPORTER_DEVICES_STR") == 7
    && rank(HOSTENGINE_INFO) == 8
  }

  lemma RanksDiffer()
    ensures Placed(Rank)
  {
    assert "DCGM_EXPORTER_KUBERNETES"[14] != "DCGM_EXPORTER_COLLECTORS"[14];
  }

  lemma FixedRanked(rank: string -> int)
    requires Placed(rank)
    ensures Ranked(FixedEnvs(), rank, 0, 4)
  {}

  lemma GroupRanked(g: GpuSpec, rank: string -> int)
    requires Placed(rank)
    ensures Ranked(GroupLabelEnvs(g), rank, 4, 6)
  {}

  lemma SingleRanked(g: GpuSpec, rank: string -> int)
    requires Placed(rank)
    ensures Ranked(ClusterNameEnvs(g), rank, 6, 7) && Ranked(DeviceEnvs(g), rank, 7, 8)
  {}

  lemma HostEngineRanked(g: GpuSpec, rank: string -> int)
    requires Placed(rank)
    ensures Ranked(HostEngineEnvs(g), rank, 8, 9)
  {}

  lemma SettingsRanked(g: GpuSpec, rank: string -> int)
    requires Placed(rank)
    ensures Ranked(ExporterSettings(g), rank, 0, 8)
  {
    var fixed, group, cluster, devices := FixedEnvs(), GroupLabelEnvs(g), ClusterNameEnvs(g), DeviceEnvs(g);
    FixedRanked(rank);
    GroupRanked(g, rank);
    SingleRanked(g, rank);
    RankedConcat(fixed, group, rank, 0, 4, 6);
    RankedConcat(fixed + group, cluster, rank, 0, 6, 7);
    RankedConcat(fixed + group + cluster, devices, rank, 0, 7, 8);
  }

  lemma DefaultsUnique(g: GpuSpec)
    ensures Unique(Defaults(g))
  {
    RanksDiffer();
    HostEngineRanked(g, Rank);
    SettingsRanked(g, Rank);
    RankedConcat(ExporterSettings(g), HostEngineEnvs(g), Rank, 0, 8, 9);
    RankedUnique(Defaults(g), Rank, 0, 9);
  }

  // ------------------------------------------------- the defaults, name by name

  lemma FixedEntries(name: string)
    ensures Entries(FixedEnvs(), name) ==
            match name
            case "DCGM_EXPORTER_LISTEN" => [Plain(name, ":9400")]
            case "DCGM_EXPORTER_KUBERNETES" => [Plain(name, "true")]
            case "DCGM_EXPORTER_COLLECTORS" => [Plain(name, "/etc/dcgm-exporter/whatap-dcgm-exporter.csv")]
            case "NODE_NAME" => [FromField(name, "spec.nodeName")]
            case _ => []
  {
    RanksDiffer();
    FourEntries(FixedEnvs(), name);
  }

  lemma FourEntries(envs: seq<EnvVar>, name: string)
    requires |envs| == 4
    ensures Entries(envs, name) ==
            (if envs[0].name == name then [envs[0]] else []) + (if envs[1].name == name then [envs[1]] else [])
            + (if envs[2].name == name then [envs[2]] else []) + (if envs[3].name == name then [envs[3]] else [])
  {
    TwoEntries(envs[..2], name);
    TwoEntries(envs[2..], name);
    EntriesConcat(envs[..2], envs[2..], name);
    assert envs == envs[..2] + envs[2..];
  }

  lemma TwoEntries(envs: seq<EnvVar>, name: string)
    requires |envs| == 2
    ensures Entries(envs, name) ==
            (if envs[0].name == name then [envs[0]] else []) + (if envs[1].name == name then [envs[1]] else [])
  {
    assert envs == [envs[0]] + ([envs[1]] + []);
    EntriesCons(envs[1], [], name);
    EntriesCons(envs[0], [envs[1]] + [], name);
  }

  lemma GroupEntries(g: GpuSpec, name: string)
    ensures Entries(GroupLabelEnvs(g), name) ==
            if g.groupLabel == "" then []
            else match name
              case "DCGM_EXPORTER_KUBERNETES_ENABLE_POD_LABELS" => [Plain(name, "true")]
              case "DCGM_EXPORTER_KUBERNETES_POD_LABEL_ALLOWLIST_REGEX" =>
                [Plain(name, if g.allowlistRegex != "" then g.allowlistRegex
                             else "^(" + QuoteMeta(g.groupLabel) + ")$")]
              case _ => []
  {
    RanksDiffer();
    if g.groupLabel != "" {
      TwoEntries(GroupLabelEnvs(g), name);
    }
  }

  lemma SingleEntries(g: GpuSpec, name: string)
    ensures Entries(ClusterNameEnvs(g), name) ==
            if name == "DCGM_EXPORTER_KUBERNETES_CLUSTER_NAME" && g.clusterName != "" then [Plain(name, g.clusterName)]
            else []
    ensures Entries(DeviceEnvs(g), name) ==
            if name == "DCGM_EXPORTER_DEVICES_STR" && g.devices != "" && g.devices != "f"
            then [Plain(name, g.devices)] else []
  {}

  lemma HostEngineEntries(g: GpuSpec, name: string)
    ensures Entries(HostEngineEnvs(g), name) ==
            if name != "DCGM_REMOTE_HOSTENGINE_INFO" then []
            else if g.hostEngine.Some? && g.hostEngine.value.enabled then
              [Plain(name, if g.hostEngine.value.port == 0 then "localhost:5555"
                           else "localhost:" + Decimal(g.hostEngine.value.port))]
            else if g.remoteHostEngineInfo == "" then []
            else [Plain(name, g.remoteHostEngineInfo)]
  {
    DecimalPort();
  }

  /** Every default, by name: which names have one, and what it is. The sidecar wins over a remote address. */
  lemma DefaultsExactly(g: GpuSpec, name: string)
    ensures Effective(Defaults(g), name) ==
            match name
            case "DCGM_EXPORTER_LISTEN" => Some(Plain(name, ":9400"))
            case "DCGM_EXPORTER_KUBERNETES" => Some(Plain(name, "true"))
            case "DCGM_EXPORTER_COLLECTORS" => Some(Plain(name, "/etc/dcgm-exporter/whatap-dcgm-exporter.csv"))
            case "NODE_NAME" => Some(FromField(name, "spec.nodeName"))
            case "DCGM_EXPORTER_KUBERNETES_ENABLE_POD_LABELS" =>
              if g.groupLabel == "" then None else Some(Plain(name, "true"))
            case "DCGM_EXPORTER_KUBERNETES_POD_LABEL_ALLOWLIST_REGEX" =>
              if g.groupLabel == "" then None
              else Some(Plain(name, if g.allowlistRegex != "" then g.allowlistRegex
                                    else "^(" + QuoteMeta(g.groupLabel) + ")$"))
            case "DCGM_EXPORTER_KUBERNETES_CLUSTER_NAME" =>
              if g.clusterName == "" then None else Some(Plain(name, g.clusterName))
            case "DCGM_EXPORTER_DEVICES_STR" =>
              if g.devices == "" || g.devices == "f" then None else Some(Plain(name, g.devices))
            case "DCGM_REMOTE_HOSTENGINE_INFO" =>
              if g.hostEngine.Some? && g.hostEngine.value.enabled then
                Some(Plain(name, if g.hostEngine.value.port == 0 then "localhost:5555"
                                 else "localhost:" + Decimal(g.hostEngine.value.port)))
              else if g.remoteHostEngineInfo == "" then None
              else Some(Plain(name, g.remoteHostEngineInfo))
            case _ => None
  {
    hide FixedEnvs, GroupLabelEnvs, ClusterNameEnvs, DeviceEnvs, HostEngineEnvs, QuoteMeta, Decimal, Rank, Entries;
    RanksDiffer();
    FixedEntries(name);
    GroupEntries(g, name);
    SingleEntries(g, name);
    HostEngineEntries(g, name);
    EntriesConcat(FixedEnvs(), GroupLabelEnvs(g), name);
    EntriesConcat(FixedEnvs() + GroupLabelEnvs(g), ClusterNameEnvs(g), name);
    EntriesConcat(FixedEnvs() + GroupLabelEnvs(g) + ClusterNameEnvs(g), DeviceEnvs(g), name);
    EntriesConcat(ExporterSettings(g), HostEngineEnvs(g), name);
  }

  lemma DecimalPort()
    ensures "localhost:" + Decimal(5555) == "localhost:5555"
  {
    assert Digits(5) == "5" && Digits(55) == Digits(5) + "5" && Digits(555) == Digits(55) + "5";
    assert Digits(5555) == Digits(555) + "5";
  }

  /** The number a text of digits denotes. */
  function Number(s: string): int {
    if s == "" then 0 else 10 * Number(s[..|s| - 1]) + (s[|s| - 1] as int - '0' as int)
  }

  /** A number is written in digits, without leading zeros, and reads back as itself. */
  lemma {:induction false} DecimalReads(n: nat)
    ensures Number(Decimal(n)) == n
    ensures Decimal(n) != "" && (Decimal(n)[0] == '0' ==> n == 0)
    ensures forall c | c in Decimal(n) :: '0' <= c <= '9'
  {
    if n >= 10 {
      DecimalReads(n / 10);
      assert Decimal(n)[..|Decimal(n)| - 1] == Decimal(n / 10);
    }
  }

  /** The one text a regular expression of plain and escaped characters matches; none if an operator is left. */
  function Matched(regex: string): Option<string> {
    if regex == "" then Some("")
    else if regex[0] == '\\' then
      if |regex| == 1 then None
      else match Matched(regex[2..])
        case None => None
        case Some(rest) => Some([regex[1]] + rest)
    else if regex[0] in ".+*?()|[]{}^$" then None
    else match Matched(regex[1..])
      case None => None
      case Some(rest) => Some([regex[0]] + rest)
  }

  /** The quoted label matches the label and nothing else. */
  lemma {:induction false} QuotedMatches(s: string)
    ensures Matched(QuoteMeta(s)) == Some(s)
  {
    if s != "" {
      QuotedMatches(s[1..]);
      var quoted := QuoteMeta(s);
      if s[0] in "\\.+*?()|[]{}^$" {
        assert quoted[0] == '\\' && quoted[1] == s[0] && quoted[2..] == QuoteMeta(s[1..]);
      } else {
        assert quoted[0] == s[0] && quoted[1..] == QuoteMeta(s[1..]);
        assert s[0] !in ".+*?()|[]{}^$";
      }
      assert [s[0]] + s[1..] == s;
    }
  }

  /** The default address is set exactly when the sidecar is on or an address was given. */
  lemma DefaultHostEngine(g: GpuSpec)
    ensures Effective(Defaults(g), HOSTENGINE_INFO).Some? <==> HostEngineOn(g) || g.remoteHostEngineInfo != ""
  {
    RanksDiffer();
    SettingsRanked(g, Rank);
    AbsentByRank(ExporterSettings(g), Rank, HOSTENGINE_INFO, 0, 8);
    EntriesConcat(ExporterSettings(g), HostEngineEnvs(g), HOSTENGINE_INFO);
  }

  function ExporterEnv(g: GpuSpec): seq<EnvVar> {
    ApplyAll(Defaults(g), g.envs)
  }

  /** The exporter runs embedded DCGM exactly when the last user entry is empty, or nobody gives an address. */
  lemma EmbeddedModeExactly(g: GpuSpec)
    ensures Effective(ExporterEnv(g), HOSTENGINE_INFO) == None <==>
            match Last(g.envs, HOSTENGINE_INFO)
            case Some(u) => u.value == "" && u.from == None
            case None => !HostEngineOn(g) && g.remoteHostEngineInfo == ""
  {
    DefaultsUnique(g);
    DefaultHostEngine(g);
    FoldIsOverlay(Defaults(g), g.envs, HOSTENGINE_INFO);
    EntriesNonEmpty(g.envs, HOSTENGINE_INFO);
  }

  lemma ExporterEnvUnique(g: GpuSpec, name: string)
    ensures Unique(ExporterEnv(g))
    ensures Effective(ExporterEnv(g), name) ==
            match Last(g.envs, name)
            case Some(u) => if Clears(u) then None else Some(u)
            case None => Effective(Defaults(g), name)
  {
    DefaultsUnique(g);
    FoldIsOverlay(Defaults(g), g.envs, name);
  }

  /** Only an empty plain host-engine address clears: every other last entry of the user's is what its name carries. */
  lemma UserEnvExactly(g: GpuSpec, name: string)
    ensures Effective(ExporterEnv(g), name) ==
            match Last(g.envs, name)
            case None => Effective(Defaults(g), name)
            case Some(u) =>
              if name == "DCGM_REMOTE_HOSTENGINE_INFO" && u.value == "" && u.from == None then None else Some(u)
  {
    ExporterEnvUnique(g, name);
    EntriesNonEmpty(g.envs, name);
  }

  /** The exporter's environment: the defaults, and the user's entries folded over them in one buffer. */
  method ExporterEnvVars(g: GpuSpec) returns (envs: seq<EnvVar>)
    ensures Unique(envs)
    ensures forall name :: Effective(envs, name) ==
              match Last(g.envs, name)
              case Some(u) => if Clears(u) then None else Some(u)
              case None => Effective(Defaults(g), name)
  {
    envs := ApplyUserEnvs(Defaults(g), g.envs);
    ExporterEnvUnique(g, "");
    forall name
      ensures Effective(envs, name) ==
              match Last(g.envs, name)
              case Some(u) => if Clears(u) then None else Some(u)
              case None => Effective(Defaults(g), name)
    {
      ExporterEnvUnique(g, name);
    }
  }
}
