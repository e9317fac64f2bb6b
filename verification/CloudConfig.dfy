/**
 The vSphere cloud provider config: reading its servers, the two consistency checks
 against the Infrastructure spec (pkg/vsphere/cloud_config.go), and the merge that
 Apply performs (mergeCloudProviderConfig in pkg/lab/credentials.go).
 YAML is a pair of functions; what is assumed of it is Inverse.
 */
module CloudConfig {
  import opened Wrappers
  import opened MergePatch
  import opened Infrastructure

  datatype VCenterEntry = VCenterEntry(server: string, port: int, datacenters: seq<string>, insecure: bool)

  /** rest holds labels, nodes and unknown keys. */
  datatype Config = Config(global: map<string, Json>, vcenter: map<string, VCenterEntry>, rest: map<string, Json>)

  datatype Codec = Codec(parse: string -> Option<Config>, render: Config -> string)

  /** The inlined keys are none of the struct's own: YAML has one map for both. */
  predicate Representable(c: Config) {
    "global" !in c.rest && "vcenter" !in c.rest
  }

  /** Parsing inverts rendering on the configs that YAML can hold, and yields only such configs. */
  ghost predicate Inverse(y: Codec) {
    && (forall c: Config :: Representable(c) ==> y.parse(y.render(c)) == Some(c))
    && (forall text :: y.parse(text).Some? ==> Representable(y.parse(text).value))
  }

  /** An entry without a server counts under its key. */
  function ServerOf(cfg: Config, k: string): string
    requires k in cfg.vcenter
  {
    if cfg.vcenter[k].server != "" then cfg.vcenter[k].server else k
  }

  function ConfigServers(cfg: Config): set<string> {
    set k | k in cfg.vcenter :: ServerOf(cfg, k)
  }

  // ---------------------------------------------------------------- the checks

  lemma ServersSpelledOut(cfg: Config, servers: seq<string>)
    requires (set s | s in servers) == ConfigServers(cfg)
    ensures forall s :: s in servers <==>
      exists k :: k in cfg.vcenter && s == (if cfg.vcenter[k].server != "" then cfg.vcenter[k].server else k)
  {
    forall s
      ensures s in servers <==>
        exists k :: k in cfg.vcenter && s == (if cfg.vcenter[k].server != "" then cfg.vcenter[k].server else k)
    {
      assert s in servers <==> s in (set x | x in servers);
      if s in servers {
        assert s in ConfigServers(cfg);
        var k :| k in cfg.vcenter && s == ServerOf(cfg, k);
      }
      if k :| k in cfg.vcenter && s == (if cfg.vcenter[k].server != "" then cfg.vcenter[k].server else k) {
        assert ServerOf(cfg, k) in ConfigServers(cfg);
      }
    }
  }

  method VCenterServersFromConfig(cfg: Config) returns (servers: seq<string>)
    ensures |servers| == |cfg.vcenter|
    ensures (set s | s in servers) == ConfigServers(cfg)
    ensures forall s :: s in servers <==>
      exists k :: k in cfg.vcenter && s == (if cfg.vcenter[k].server != "" then cfg.vcenter[k].server else k)
  {
    servers := [];
    var keys := cfg.vcenter.Keys;
    while keys != {}
      invariant keys <= cfg.vcenter.Keys && |servers| + |keys| == |cfg.vcenter|
      invariant (set s | s in servers) == set k | k in cfg.vcenter && k !in keys :: ServerOf(cfg, k)
    {
      var k :| k in keys;
      var s := if cfg.vcenter[k].server != "" then cfg.vcenter[k].server else k;
      ghost var before, walked := servers, keys;
      servers, keys := servers + [s], keys - {k};
      assert (set x | x in servers) == (set x | x in before) + {s};
      assert (set x | x in cfg.vcenter && x !in keys :: ServerOf(cfg, x))
        == (set x | x in cfg.vcenter && x !in walked :: ServerOf(cfg, x)) + {ServerOf(cfg, k)};
    }
    ServersSpelledOut(cfg, servers);
  }

  /** Every server of the spec is served by some entry or is itself a key. */
  predicate Present(spec: Spec, cfg: Config) {
    spec.vsphere.Some? && forall s :: s in Servers(VCentersOf(spec)) ==> s in ConfigServers(cfg) || s in cfg.vcenter
  }

  /** No entry stands for a server outside the spec. */
  predicate NoStale(spec: Spec, cfg: Config) {
    spec.vsphere.Some? && ConfigServers(cfg) <= Servers(VCentersOf(spec))
  }

  lemma PresentMeans(spec: Spec, cfg: Config)
    ensures Present(spec, cfg) <==>
      spec.vsphere.Some? && forall i :: 0 <= i < |spec.vsphere.value.vcenters| ==>
        var s := spec.vsphere.value.vcenters[i].server;
        s in cfg.vcenter || (s != "" && exists k :: k in cfg.vcenter && cfg.vcenter[k].server == s)
  {
    forall s
      ensures s in ConfigServers(cfg) || s in cfg.vcenter <==>
        s in cfg.vcenter || (s != "" && exists k :: k in cfg.vcenter && cfg.vcenter[k].server == s)
    {
      if k :| k in cfg.vcenter && cfg.vcenter[k].server == s && s != "" {
        assert ServerOf(cfg, k) in ConfigServers(cfg);
      }
    }
    hide ConfigServers;
    if spec.vsphere.Some? {
      var vcs := spec.vsphere.value.vcenters;
      assert forall i :: 0 <= i < |vcs| ==> vcs[i].server in Servers(VCentersOf(spec));
    }
  }

  lemma NoStaleMeans(spec: Spec, cfg: Config)
    ensures NoStale(spec, cfg) <==>
      spec.vsphere.Some? && forall k :: k in cfg.vcenter ==>
        var s := if cfg.vcenter[k].server != "" then cfg.vcenter[k].server else k;
        exists i :: 0 <= i < |spec.vsphere.value.vcenters| && spec.vsphere.value.vcenters[i].server == s
  {
    if spec.vsphere.Some? {
      assert forall k :: k in cfg.vcenter ==> ServerOf(cfg, k) in ConfigServers(cfg);
    }
  }

  method AssertInfrastructureVCentersPresent(spec: Spec, cfg: Config) returns (ok: bool)
    ensures ok <==> Present(spec, cfg)
    ensures ok <==>
      spec.vsphere.Some? && forall i :: 0 <= i < |spec.vsphere.value.vcenters| ==>
        var s := spec.vsphere.value.vcenters[i].server;
        s in cfg.vcenter || (s != "" && exists k :: k in cfg.vcenter && cfg.vcenter[k].server == s)
  {
    PresentMeans(spec, cfg);
    if spec.vsphere.None? {
      return false;
    }
    var configServers := VCenterServersFromConfig(cfg);
    var vcs := spec.vsphere.value.vcenters;
    for i := 0 to |vcs|
      invariant forall j :: 0 <= j < i ==> vcs[j].server in ConfigServers(cfg) || vcs[j].server in cfg.vcenter
    {
      if vcs[i].server !in configServers && vcs[i].server !in cfg.vcenter {
        assert vcs[i].server !in (set s | s in configServers);
        assert vcs[i].server in Servers(vcs);
        return false;
      }
      assert vcs[i].server in configServers ==> vcs[i].server in (set s | s in configServers);
    }
    return true;
  }

  method AssertNoStaleVCenters(spec: Spec, cfg: Config) returns (ok: bool)
    ensures ok <==> NoStale(spec, cfg)
    ensures ok <==>
      spec.vsphere.Some? && forall k :: k in cfg.vcenter ==>
        var s := if cfg.vcenter[k].server != "" then cfg.vcenter[k].server else k;
        exists i :: 0 <= i < |spec.vsphere.value.vcenters| && spec.vsphere.value.vcenters[i].server == s
  {
    NoStaleMeans(spec, cfg);
    if spec.vsphere.None? {
      return false;
    }
    var allowed: set<string> := {};
    var vcs := spec.vsphere.value.vcenters;
    for i := 0 to |vcs|
      invariant allowed == set j | 0 <= j < i :: vcs[j].server
    {
      allowed := allowed + {vcs[i].server};
    }
    var keys := cfg.vcenter.Keys;
    while keys != {}
      invariant keys <= cfg.vcenter.Keys
      invariant forall k :: k in cfg.vcenter && k !in keys ==> ServerOf(cfg, k) in allowed
    {
      var k :| k in keys;
      var server := cfg.vcenter[k].server;
      if server == "" {
        server := k;
      }
      if server !in allowed {
        assert ServerOf(cfg, k) in ConfigServers(cfg);
        return false;
      }
      keys := keys - {k};
    }
    return true;
  }

  // ---------------------------------------------------------------- the merge

  const SECRET_REF_KEYS := ["secretName", "secret-name", "secretNamespace", "secret-namespace"]

  /** cloudConfigUsesSecretRef: a value prints as the empty string only when it is the empty string. */
  predicate UsesSecretRef(global: map<string, Json>) {
    exists k :: k in SECRET_REF_KEYS && k in global && global[k] != Str("")
  }

  function EntryFor(vc: VCenter): VCenterEntry {
    VCenterEntry(vc.server, vc.port, vc.datacenters, false)
  }

  /** The config used when the existing one does not parse: one entry per vCenter, later ones winning. */
  function FromVCenters(vcs: seq<VCenter>): map<string, VCenterEntry> {
    if vcs == [] then map[] else
      FromVCenters(vcs[..|vcs| - 1])[vcs[|vcs| - 1].server := EntryFor(vcs[|vcs| - 1])]
  }

  function Base(parsed: Option<Config>, spec: Spec): Config {
    if parsed.Some? then parsed.value else Config(map[], FromVCenters(VCentersOf(spec)), map[])
  }

  function MergeConfig(parsed: Option<Config>, spec: Spec, vc: VCenterConfig, password: string): Config {
    var base := Base(parsed, spec);
    base.(
      global := if UsesSecretRef(base.global) then base.global
                else base.global["user" := Str(vc.username)]["password" := Str(password)],
      vcenter := base.vcenter[vc.server := VCenterEntry(vc.server, vc.port, vc.datacenters, false)])
  }

  method MergeCloudProviderConfig(existing: string, y: Codec, spec: Spec, vc: VCenterConfig) returns (r: Result<string>)
    ensures r == if vc.password.None? then Err
                 else Ok(y.render(MergeConfig(y.parse(existing), spec, vc, vc.password.value)))
    ensures Inverse(y) && vc.password.Some? ==>
      && y.parse(r.value).Some?
      && Carries(y.parse(existing), y.parse(r.value).value, spec, vc, vc.password.value)
  {
    if Inverse(y) && vc.password.Some? {
      MergedIsReadBack(existing, y, spec, vc, vc.password.value);
      MergeCarries(y.parse(existing), spec, vc, vc.password.value);
    }
    if vc.password.None? {
      return Err;
    }
    var parsed := y.parse(existing);
    var cfg;
    if parsed.Some? {
      cfg := parsed.value;
    } else {
      var entries: map<string, VCenterEntry> := map[];
      if spec.vsphere.Some? {
        var vcs := spec.vsphere.value.vcenters;
        for i := 0 to |vcs|
          invariant entries == FromVCenters(vcs[..i])
        {
          assert vcs[..i + 1][..i] == vcs[..i];
          entries := entries[vcs[i].server := VCenterEntry(vcs[i].server, vcs[i].port, vcs[i].datacenters, false)];
        }
        assert vcs[..|vcs|] == vcs;
      }
      cfg := Config(map[], entries, map[]);
    }
    if !UsesSecretRef(cfg.global) {
      cfg := cfg.(global := cfg.global["user" := Str(vc.username)]["password" := Str(vc.password.value)]);
    }
    cfg := cfg.(vcenter := cfg.vcenter[vc.server := VCenterEntry(vc.server, vc.port, vc.datacenters, false)]);
    return Ok(y.render(cfg));
  }

  // ---------------------------------------------------------------- what the merged config says

  /** The login is kept in a secret elsewhere. */
  ghost predicate RefersToSecret(global: map<string, Json>) {
    || ("secretName" in global && global["secretName"] != Str(""))
    || ("secret-name" in global && global["secret-name"] != Str(""))
    || ("secretNamespace" in global && global["secretNamespace"] != Str(""))
    || ("secret-namespace" in global && global["secret-namespace"] != Str(""))
  }

  /** The login in the global section: exactly two keys are written, and none when it is kept elsewhere. */
  ghost predicate CarriesLogin(before: map<string, Json>, after: map<string, Json>, username: string,
      password: string) {
    if RefersToSecret(before) then after == before
    else
      && after.Keys == before.Keys + {"user", "password"}
      && after["user"] == Str(username) && after["password"] == Str(password)
      && forall k :: k in before && k != "user" && k != "password" ==> after[k] == before[k]
  }

  /** The entry of the added vCenter. */
  ghost predicate CarriesEntry(after: map<string, VCenterEntry>, vc: VCenterConfig) {
    && vc.server in after
    && var e := after[vc.server];
    e.server == vc.server && e.port == vc.port && e.datacenters == vc.datacenters && !e.insecure
  }

  /** No later vCenter has the same server. */
  ghost predicate IsLastOf(vcs: seq<VCenter>, i: int) {
    0 <= i < |vcs| && forall j :: i < j < |vcs| ==> vcs[j].server != vcs[i].server
  }

  /** The entry stands for this vCenter. */
  ghost predicate StandsFor(e: VCenterEntry, vc: VCenter) {
    e.server == vc.server && e.port == vc.port && e.datacenters == vc.datacenters && !e.insecure
  }

  /** The entries made up for an unreadable config: one for the last vCenter of each server. */
  ghost predicate CarriesVCenters(after: map<string, VCenterEntry>, vcs: seq<VCenter>, added: string) {
    && (forall k :: k in after <==> k == added || exists i :: 0 <= i < |vcs| && vcs[i].server == k)
    && (forall i :: IsLastOf(vcs, i) && vcs[i].server != added ==>
      vcs[i].server in after && StandsFor(after[vcs[i].server], vcs[i]))
  }

  /** What the config after the merge says, compared to the one before (None: it could not be read). */
  ghost predicate Carries(before: Option<Config>, after: Config, spec: Spec, vc: VCenterConfig, password: string) {
    && CarriesEntry(after.vcenter, vc)
    && match before
       case Some(b) =>
         && CarriesLogin(b.global, after.global, vc.username, password)
         && after.rest == b.rest && after.vcenter.Keys == b.vcenter.Keys + {vc.server}
         && (forall k :: k in b.vcenter && k != vc.server ==> after.vcenter[k] == b.vcenter[k])
       case None =>
         && after.global == map["user" := Str(vc.username), "password" := Str(password)] && after.rest == map[]
         && CarriesVCenters(after.vcenter, VCentersOf(spec), vc.server)
  }

  lemma RefersIff(global: map<string, Json>)
    ensures UsesSecretRef(global) <==> RefersToSecret(global)
  {
    assert SECRET_REF_KEYS[0] in SECRET_REF_KEYS && SECRET_REF_KEYS[1] in SECRET_REF_KEYS;
    assert SECRET_REF_KEYS[2] in SECRET_REF_KEYS && SECRET_REF_KEYS[3] in SECRET_REF_KEYS;
  }

  lemma {:induction false} RebuiltKeys(vcs: seq<VCenter>, k: string)
    ensures k in FromVCenters(vcs) <==> exists i :: 0 <= i < |vcs| && vcs[i].server == k
  {
    if vcs != [] {
      var n := |vcs| - 1;
      RebuiltKeys(vcs[..n], k);
      assert forall i :: 0 <= i < n ==> vcs[..n][i] == vcs[i];
    }
  }

  lemma {:induction false} RebuiltEntry(vcs: seq<VCenter>, i: int)
    requires IsLastOf(vcs, i)
    ensures vcs[i].server in FromVCenters(vcs) && StandsFor(FromVCenters(vcs)[vcs[i].server], vcs[i])
  {
    var n := |vcs| - 1;
    if i < n {
      assert vcs[..n][i] == vcs[i] && vcs[n].server != vcs[i].server;
      RebuiltEntry(vcs[..n], i);
    }
  }

  lemma VCentersCarried(vcs: seq<VCenter>, added: string, entry: VCenterEntry)
    ensures CarriesVCenters(FromVCenters(vcs)[added := entry], vcs, added)
  {
    hide FromVCenters, StandsFor;
    forall k
      ensures k in FromVCenters(vcs) <==> exists i :: 0 <= i < |vcs| && vcs[i].server == k
    {
      RebuiltKeys(vcs, k);
    }
    forall i | IsLastOf(vcs, i)
      ensures vcs[i].server in FromVCenters(vcs) && StandsFor(FromVCenters(vcs)[vcs[i].server], vcs[i])
    {
      RebuiltEntry(vcs, i);
    }
  }

  /** The merge says what it should, whatever was there. */
  lemma MergeCarries(parsed: Option<Config>, spec: Spec, vc: VCenterConfig, password: string)
    ensures Carries(parsed, MergeConfig(parsed, spec, vc, password), spec, vc, password)
  {
    var base := Base(parsed, spec);
    RefersIff(base.global);
    hide FromVCenters, RefersToSecret, UsesSecretRef, CarriesVCenters;
    if parsed.None? {
      NoLoginNoReference();
      VCentersCarried(VCentersOf(spec), vc.server, VCenterEntry(vc.server, vc.port, vc.datacenters, false));
    }
  }

  lemma NoLoginNoReference()
    ensures !RefersToSecret(map[])
  {
  }

  /** What the merge renders can be read back. */
  lemma MergedIsReadBack(existing: string, y: Codec, spec: Spec, vc: VCenterConfig, password: string)
    requires Inverse(y)
    ensures var merged := MergeConfig(y.parse(existing), spec, vc, password);
      Representable(merged) && y.parse(y.render(merged)) == Some(merged)
  {
  }

  /** Merging the same vCenter into the merged config again changes nothing. */
  lemma MergeAgain(parsed: Option<Config>, spec: Spec, spec': Spec, vc: VCenterConfig, password: string)
    ensures var merged := MergeConfig(parsed, spec, vc, password);
      MergeConfig(Some(merged), spec', vc, password) == merged
  {
    var merged := MergeConfig(parsed, spec, vc, password);
    var again := MergeConfig(Some(merged), spec', vc, password);
    assert UsesSecretRef(merged.global) <==> UsesSecretRef(Base(parsed, spec).global) by {
      SecretRefAfterLogin(Base(parsed, spec).global, vc.username, password);
    }
    assert again.global == merged.global;
    assert again.vcenter == merged.vcenter;
  }

  lemma SecretRefAfterLogin(global: map<string, Json>, user: string, password: string)
    ensures UsesSecretRef(global["user" := Str(user)]["password" := Str(password)]) <==> UsesSecretRef(global)
  {
    var after := global["user" := Str(user)]["password" := Str(password)];
    forall k | k in SECRET_REF_KEYS
      ensures k != "user" && k != "password"
    {
      assert "user"[0] == 'u' && "password"[0] == 'p';
      assert forall i :: 0 <= i < |SECRET_REF_KEYS| ==> SECRET_REF_KEYS[i][0] == 's';
    }
  }

  // ---------------------------------------------------------------- what the merge does to the checks

  predicate WellKeyed(cfg: Config) {
    forall k :: k in cfg.vcenter ==> cfg.vcenter[k].server == "" || cfg.vcenter[k].server == k
  }

  /** Only the entry that the merge overwrites can take a server away. */
  predicate ServedWithout(cfg: Config, overwritten: string, server: string) {
    server in cfg.vcenter || exists k :: k in cfg.vcenter && k != overwritten && ServerOf(cfg, k) == server
  }

  lemma MergedServers(cfg: Config, spec: Spec, vc: VCenterConfig, password: string)
    requires vc.server != ""
    ensures var m := MergeConfig(Some(cfg), spec, vc, password);
      && m.vcenter.Keys == cfg.vcenter.Keys + {vc.server}
      && ConfigServers(m) == {vc.server} + set k | k in cfg.vcenter && k != vc.server :: ServerOf(cfg, k)
  {
    var m := MergeConfig(Some(cfg), spec, vc, password);
    assert ServerOf(m, vc.server) == vc.server;
    forall k | k in cfg.vcenter && k != vc.server
      ensures k in m.vcenter && ServerOf(m, k) == ServerOf(cfg, k)
    {
    }
    forall s | s in {vc.server} + set k | k in cfg.vcenter && k != vc.server :: ServerOf(cfg, k)
      ensures s in ConfigServers(m)
    {
      if s != vc.server {
        var k :| k in cfg.vcenter && k != vc.server && ServerOf(cfg, k) == s;
        assert ServerOf(m, k) == s;
      }
    }
  }

  /**
   The merged config against the spec Apply builds: nothing becomes stale, and every
   server is present exactly when no other server was served by the overwritten entry alone.
   */
  lemma MergeKeepsChecksIff(cfg: Config, spec: Spec, lab: LabConfig, password: string)
    requires lab.second.server != "" && Build(spec, lab).Some?
    requires Present(spec, cfg) && NoStale(spec, cfg)
    ensures var m, spec' := MergeConfig(Some(cfg), spec, lab.second, password), Build(spec, lab).value;
      && NoStale(spec', m)
      && (Present(spec', m) <==>
            forall s :: s in Servers(VCentersOf(spec)) && s != lab.second.server ==>
              ServedWithout(cfg, lab.second.server, s))
  {
    var server := lab.second.server;
    var m, spec' := MergeConfig(Some(cfg), spec, lab.second, password), Build(spec, lab).value;
    MergedServers(cfg, spec, lab.second, password);
    BuiltServers(spec, lab);
    forall k | k in cfg.vcenter
      ensures ServerOf(cfg, k) in Servers(VCentersOf(spec))
    {
      assert ServerOf(cfg, k) in ConfigServers(cfg);
    }
    forall s | s in Servers(VCentersOf(spec)) && s != server
      ensures (s in ConfigServers(m) || s in m.vcenter) <==> ServedWithout(cfg, server, s)
    {
    }
  }

  lemma BuiltServers(spec: Spec, lab: LabConfig)
    requires Build(spec, lab).Some?
    ensures Servers(VCentersOf(Build(spec, lab).value)) == Servers(VCentersOf(spec)) + {lab.second.server}
  {
    var vcs, vcs' := VCentersOf(spec), VCentersOf(Build(spec, lab).value);
    assert vcs'[|vcs|].server == lab.second.server;
    forall i | 0 <= i < |vcs|
      ensures vcs[i].server in Servers(vcs')
    {
      assert vcs'[i] == vcs[i];
    }
  }

  /** Well-keyed configs keep both checks. */
  lemma WellKeyedMergeKeepsChecks(cfg: Config, spec: Spec, lab: LabConfig, password: string)
    requires lab.second.server != "" && Build(spec, lab).Some?
    requires WellKeyed(cfg) && Present(spec, cfg) && NoStale(spec, cfg)
    ensures var m, spec' := MergeConfig(Some(cfg), spec, lab.second, password), Build(spec, lab).value;
      WellKeyed(m) && Present(spec', m) && NoStale(spec', m)
  {
    MergeKeepsChecksIff(cfg, spec, lab, password);
    forall s | s in Servers(VCentersOf(spec)) && s != lab.second.server
      ensures ServedWithout(cfg, lab.second.server, s)
    {
      if s !in cfg.vcenter {
        var k :| k in cfg.vcenter && ServerOf(cfg, k) == s;
      }
    }
  }

  /** Without well-keyed entries the merge can lose a vCenter: the new server's key already stood for another one. */
  lemma MiskeyedMergeLosesVCenter(password: string)
    ensures var spec := Spec("VSphere", Some(VSphere([VCenter("a", 443, ["dc"])], [], map[])), map[], map[]);
      var cfg := Config(map[], map["b" := VCenterEntry("a", 443, ["dc"], false)], map[]);
      var lab := LabConfig(VCenterConfig("b", 443, ["dc"], "u", Some(password)), None);
      && Present(spec, cfg) && NoStale(spec, cfg)
      && !Present(Build(spec, lab).value, MergeConfig(Some(cfg), spec, lab.second, password))
  {
    var spec := Spec("VSphere", Some(VSphere([VCenter("a", 443, ["dc"])], [], map[])), map[], map[]);
    var cfg := Config(map[], map["b" := VCenterEntry("a", 443, ["dc"], false)], map[]);
    var lab := LabConfig(VCenterConfig("b", 443, ["dc"], "u", Some(password)), None);
    assert ServerOf(cfg, "b") == "a" && VCentersOf(spec)[0].server == "a";
    assert Servers(VCentersOf(spec)) == {"a"};
    MergeKeepsChecksIff(cfg, spec, lab, password);
    assert !ServedWithout(cfg, "b", "a");
  }

  lemma {:induction false} FromVCentersIsWellKeyed(vcs: seq<VCenter>)
    ensures FromVCenters(vcs).Keys == Servers(vcs)
    ensures forall k :: k in FromVCenters(vcs) ==> FromVCenters(vcs)[k].server == k
  {
    if vcs != [] {
      var n := |vcs| - 1;
      FromVCentersIsWellKeyed(vcs[..n]);
      assert Servers(vcs) == Servers(vcs[..n]) + {vcs[n].server};
    }
  }

  /** When the old config does not parse, the config rebuilt from the spec passes both checks, whatever it held. */
  lemma RebuiltConfigPassesChecks(spec: Spec, lab: LabConfig, password: string)
    requires lab.second.server != "" && Build(spec, lab).Some?
    ensures var m, spec' := MergeConfig(None, spec, lab.second, password), Build(spec, lab).value;
      WellKeyed(m) && Present(spec', m) && NoStale(spec', m)
  {
    var vcs := VCentersOf(spec);
    FromVCentersIsWellKeyed(vcs);
    BuiltServers(spec, lab);
    var m := MergeConfig(None, spec, lab.second, password);
    assert m.vcenter.Keys == Servers(vcs) + {lab.second.server};
    forall s | s in ConfigServers(m)
      ensures s in m.vcenter
    {
      var k :| k in m.vcenter && ServerOf(m, k) == s;
    }
  }

  /** For well-keyed configs the two checks together say that config and spec name the same servers. */
  lemma ChecksMeanSameServers(spec: Spec, cfg: Config)
    requires WellKeyed(cfg) && spec.vsphere.Some?
    ensures Present(spec, cfg) && NoStale(spec, cfg) <==> ConfigServers(cfg) == Servers(VCentersOf(spec))
  {
    forall k | k in cfg.vcenter
      ensures k in ConfigServers(cfg)
    {
      assert ServerOf(cfg, k) == k;
    }
  }
}
