/**
 What a finished Apply means, from the config as it was written down and the cluster it
 found: which Applies get to their end, and what each object holds afterwards. Nothing here
 mentions a plan's parts; server names, ports, logins, keys and object names are spelled out.
 */
module LabOutcome {
  import opened Wrappers
  import opened Text
  import opened Infrastructure
  import opened LabPlan
  import opened LabChecks
  import CloudConfig
  import Credentials
  import LabRetry
  import LabSafety

  // ---------------------------------------------------------------- the config

  /** A blank string is empty or white space only. */
  predicate Given(s: string) {
    TrimSpace(s) != ""
  }

  /** What a config must give. */
  predicate Complete(cfg: LabConfig) {
    && Given(cfg.second.server) && cfg.second.datacenters != [] && Given(cfg.second.username)
    && cfg.second.password.Some? && cfg.second.password.value != ""
    && match cfg.failureDomain
       case None => true
       case Some(fd) =>
         && Given(fd.name) && Given(fd.region) && Given(fd.zone)
         && Given(fd.topology.datacenter) && Given(fd.topology.computeCluster) && Given(fd.topology.datastore)
         && fd.topology.networks != [] && Given(fd.topology.resourcePool)
  }

  /** The config that Apply works with: the server without outer white space, port 443 when none is given. */
  ghost predicate Normalizes(cfg: LabConfig, used: LabConfig) {
    && used.failureDomain == cfg.failureDomain
    && used.second.server == TrimSpace(cfg.second.server)
    && used.second.port == (if cfg.second.port == 0 then 443 else cfg.second.port)
    && used.second.datacenters == cfg.second.datacenters
    && used.second.username == cfg.second.username && used.second.password == cfg.second.password
  }

  /** Validation accepts exactly the complete configs. */
  lemma ValidateIff(cfg: LabConfig)
    ensures Validate(cfg).Some? <==> Complete(cfg)
    ensures Validate(cfg).Some? ==> Normalizes(cfg, Validate(cfg).value)
  {
    hide TrimSpace;
  }

  // ---------------------------------------------------------------- which Applies finish

  /** The cluster takes another vCenter. */
  ghost predicate Admits(w: World, server: string) {
    && (match w.infra.platformStatus
        case Some(platform) => platform == "VSphere"
        case None => w.infra.spec.platformType == "VSphere")
    && w.gate && w.infra.spec.vsphere.Some?
    && |w.infra.spec.vsphere.value.vcenters| < 3
    && forall i :: 0 <= i < |w.infra.spec.vsphere.value.vcenters| ==>
      w.infra.spec.vsphere.value.vcenters[i].server != server
  }

  /** The YAML secret is missing, or its key is missing or empty, or what is there parses. */
  predicate Readable(t: Tools, w: World, key: string) {
    var k := ObjectKey("openshift-config", "cloud-credentials");
    k in w.secrets && key in w.secrets[k] && w.secrets[k][key] != "" ==> t.creds.parse(w.secrets[k][key]).Some?
  }

  lemma AdmitsIff(w: World, cfg: LabConfig)
    ensures Admitted(w, cfg) && w.infra.spec.vsphere.Some? <==> Admits(w, cfg.second.server)
  {
  }

  lemma ReadableIff(t: Tools, w: World, vc: VCenterConfig, key: string)
    requires vc.password.Some?
    ensures Mergeable(t, w, vc, key) <==> Readable(t, w, key)
  {
    hide Credentials.Upsert;
  }

  /** All that an Apply needs. */
  ghost predicate CanBeApplied(t: Tools, w: World, cfg: LabConfig, key: string) {
    && Complete(cfg) && Admits(w, TrimSpace(cfg.second.server))
    && ObjectKey("openshift-config", "cloud-provider-config") in w.configMaps
    && Readable(t, w, key)
  }

  /** An Apply that nothing disturbs gets to its end exactly when all this is there. */
  lemma FinishesExactlyWhen(t: Tools, w: World, cfg: LabConfig, key: string)
    ensures ApplyPlan(t, w, cfg, false, key).complete <==> CanBeApplied(t, w, cfg, key)
  {
    ApplyFinishesIff(t, w, cfg, key);
    ValidateIff(cfg);
    if Complete(cfg) {
      AdmitsIff(w, Validate(cfg).value);
      ReadableIff(t, w, Validate(cfg).value.second, key);
    }
    hide ApplyPlan, Validate, TrimSpace, Admits, Admitted, Readable, Mergeable;
  }

  // ---------------------------------------------------------------- what they leave

  /** The config map: one data key is written, and what it says is what the merge should say. */
  ghost predicate ConfigWritten(t: Tools, before: ConfigMap, after: ConfigMap, spec: Spec, vc: VCenterConfig) {
    && vc.password.Some? && after.binaryData == before.binaryData
    && after.data.Keys == before.data.Keys + {"config"}
    && (forall k :: k in before.data && k != "config" ==> after.data[k] == before.data[k])
    && var parsed := t.cloud.parse(after.data["config"]);
    && parsed.Some?
    && var was := t.cloud.parse(if "config" in before.data then before.data["config"] else "");
    CloudConfig.Carries(was, parsed.value, spec, vc, vc.password.value)
  }

  /** The root secret: the two keys of the server are written. */
  ghost predicate RootWritten(before: Data, after: Data, vc: VCenterConfig) {
    var user, pass := vc.server + ".username", vc.server + ".password";
    && vc.password.Some? && after.Keys == before.Keys + {user, pass}
    && after[user] == vc.username && after[pass] == vc.password.value
    && forall k :: k in before && k !in {user, pass} ==> after[k] == before[k]
  }

  /** The YAML secret: the list under one key has the login of the server. */
  ghost predicate CloudWritten(t: Tools, before: Data, after: Data, vc: VCenterConfig, key: string) {
    && vc.password.Some? && after.Keys == before.Keys + {key}
    && (forall k :: k in before && k != key ==> after[k] == before[k])
    && t.creds.parse(after[key]).Some?
    && var was := if key in before && before[key] != "" then t.creds.parse(before[key]) else Some([]);
    && was.Some?
    && Credentials.CarriesCredential(
      t.creds, was.value, t.creds.parse(after[key]).value, vc.server, vc.username, vc.password.value)
  }

  ghost predicate SecretsWritten(t: Tools, before: map<ObjectKey, Data>, after: map<ObjectKey, Data>,
      vc: VCenterConfig, key: string)
  {
    var root, cloud := ObjectKey("kube-system", "vsphere-creds"), ObjectKey("openshift-config", "cloud-credentials");
    && after.Keys == before.Keys
    && (root in before ==> RootWritten(before[root], after[root], vc))
    && (cloud in before ==> CloudWritten(t, before[cloud], after[cloud], vc, key))
    && forall k :: k in before && k != root && k != cloud ==> after[k] == before[k]
  }

  /** The state file holds what was there before: the Infrastructure, the config map, and the secrets that exist. */
  ghost predicate BacksUp(w: World, st: ClusterState) {
    var source := ObjectKey("openshift-config", "cloud-provider-config");
    && source in w.configMaps
    && st.infra == Some(w.infra)
    && st.configMaps == map["openshift-config" + "/" + "cloud-provider-config" := w.configMaps[source]]
    && var root := "kube-system" + "/" + "vsphere-creds";
    && var cloud := "openshift-config" + "/" + "cloud-credentials";
    && var machine := "openshift-machine-api" + "/" + "vsphere-cloud-credentials";
    && Keeps(st.secrets, root, w.secrets, ObjectKey("kube-system", "vsphere-creds"))
    && Keeps(st.secrets, cloud, w.secrets, ObjectKey("openshift-config", "cloud-credentials"))
    && Keeps(st.secrets, machine, w.secrets, ObjectKey("openshift-machine-api", "vsphere-cloud-credentials"))
    && forall s :: s in st.secrets ==> s in {root, cloud, machine}
  }

  predicate Keeps(saved: map<string, Data>, name: string, secrets: map<ObjectKey, Data>, k: ObjectKey) {
    (name in saved <==> k in secrets) && (k in secrets ==> saved[name] == secrets[k])
  }

  /** Everything that a finished Apply leaves. */
  ghost predicate Leaves(t: Tools, w: World, cfg: LabConfig, key: string, w': World) {
    var source := ObjectKey("openshift-config", "cloud-provider-config");
    && w'.gate == w.gate && w'.infra.platformStatus == w.infra.platformStatus
    && Adds(w.infra.spec, w'.infra.spec, cfg)
    && source in w.configMaps && w'.configMaps.Keys == w.configMaps.Keys
    && ConfigWritten(t, w.configMaps[source], w'.configMaps[source], w.infra.spec, cfg.second)
    && (forall k :: k in w.configMaps && k != source ==> w'.configMaps[k] == w.configMaps[k])
    && SecretsWritten(t, w.secrets, w'.secrets, cfg.second, key)
    && (if w.file.Missing? then w'.file.Saved? && BacksUp(w, w'.file.state) else w'.file == w.file)
  }

  lemma ConfigIsWritten(t: Tools, w: World, vc: VCenterConfig)
    requires CloudConfig.Inverse(t.cloud) && vc.password.Some? && SOURCE_CONFIG in w.configMaps
    ensures ConfigWritten(t, w.configMaps[SOURCE_CONFIG], MergedConfigMap(t, w, vc), w.infra.spec, vc)
  {
    hide CloudConfig.Inverse, CloudConfig.MergeConfig, CloudConfig.Carries;
    CloudConfig.MergedIsReadBack(ConfigText(w), t.cloud, w.infra.spec, vc, vc.password.value);
    CloudConfig.MergeCarries(t.cloud.parse(ConfigText(w)), w.infra.spec, vc, vc.password.value);
  }

  lemma RootIsWritten(data: Data, vc: VCenterConfig)
    requires vc.password.Some?
    ensures RootWritten(data, Credentials.PerVCenter(data, vc), vc)
  {
    Credentials.KeysOfServers(vc.server, vc.server);
  }

  lemma CloudIsWritten(t: Tools, data: Data, vc: VCenterConfig, key: string)
    requires Credentials.Inverse(t.creds) && Credentials.MergeAt(t.creds, data, vc, key).Ok?
    ensures CloudWritten(t, data, Credentials.MergeAt(t.creds, data, vc, key).value, vc, key)
  {
    Credentials.MergeCarries(t.creds, data, vc, key);
    hide Credentials.MergeAt, Credentials.CarriesCredential;
  }

  lemma SecretsAreWritten(t: Tools, w: World, vc: VCenterConfig, key: string)
    requires Credentials.Inverse(t.creds) && vc.password.Some? && Mergeable(t, w, vc, key)
    ensures SecretsWritten(t, w.secrets, MergedSecrets(t, w, vc, key), vc, key)
  {
    hide MergedSecrets, RootWritten, CloudWritten, Credentials.MergeAt, Credentials.PerVCenter, Credentials.Inverse;
    LabRetry.MergedOneByOne(t, w, vc, key);
    assert |ROOT_CREDS.name| != |CLOUD_CREDS.name|;
    if ROOT_CREDS in w.secrets { RootIsWritten(w.secrets[ROOT_CREDS], vc); }
    if CLOUD_CREDS in w.secrets { CloudIsWritten(t, w.secrets[CLOUD_CREDS], vc, key); }
  }

  lemma TargetNames()
    ensures MakeKey(SOURCE_CONFIG) == "openshift-config" + "/" + "cloud-provider-config"
    ensures MakeKey(ROOT_CREDS) == "kube-system" + "/" + "vsphere-creds"
    ensures MakeKey(CLOUD_CREDS) == "openshift-config" + "/" + "cloud-credentials"
    ensures MakeKey(MACHINE_CREDS) == "openshift-machine-api" + "/" + "vsphere-cloud-credentials"
  {
  }

  lemma BackupIsMade(w: World)
    requires SOURCE_CONFIG in w.configMaps
    ensures BacksUp(w, Capture(w))
  {
    TargetNames();
    assert BACKUP_TARGETS == [ROOT_CREDS, CLOUD_CREDS, MACHINE_CREDS];
    assert ROOT_CREDS in BACKUP_TARGETS && CLOUD_CREDS in BACKUP_TARGETS && MACHINE_CREDS in BACKUP_TARGETS;
    hide MakeKey, BackedUp;
    LabSafety.BackedUpFacts(w.secrets, BACKUP_TARGETS);
    var saved := Capture(w).secrets;
    TargetIsKept(w, saved, ROOT_CREDS);
    TargetIsKept(w, saved, CLOUD_CREDS);
    TargetIsKept(w, saved, MACHINE_CREDS);
    hide Keeps;
  }

  lemma TargetIsKept(w: World, saved: map<string, Data>, k: ObjectKey)
    requires k in [ROOT_CREDS, CLOUD_CREDS, MACHINE_CREDS] && saved == BackedUp(w.secrets, BACKUP_TARGETS)
    ensures Keeps(saved, MakeKey(k), w.secrets, k)
  {
    assert |MakeKey(ROOT_CREDS)| == 25 && |MakeKey(CLOUD_CREDS)| == 34 && |MakeKey(MACHINE_CREDS)| == 47;
    hide MakeKey, BackedUp;
    LabSafety.BackedUpFacts(w.secrets, BACKUP_TARGETS);
  }

  /** What an Apply that finishes leaves, in the words of the config that was given. */
  lemma FinishedApplyLeaves(t: Tools, w: World, cfg: LabConfig, key: string)
    requires CloudConfig.Inverse(t.cloud) && Credentials.Inverse(t.creds)
    requires ApplyPlan(t, w, cfg, false, key).complete
    ensures Validate(cfg).Some? && Normalizes(cfg, Validate(cfg).value)
    ensures Leaves(t, w, Validate(cfg).value, key, DoAll(w, ApplyPlan(t, w, cfg, false, key).writes))
  {
    ApplyFinishesIff(t, w, cfg, key);
    WholeApply(t, w, cfg, key);
    ValidateIff(cfg);
    hide Validate, Normalizes, ApplyPlan, DoAll;
    AfterApplyLeaves(t, w, Validate(cfg).value, key);
  }

  lemma AfterApplyLeaves(t: Tools, w: World, cfg: LabConfig, key: string)
    requires CloudConfig.Inverse(t.cloud) && Credentials.Inverse(t.creds) && CanFinish(t, w, cfg, key)
    ensures Leaves(t, w, cfg, key, AfterApply(t, w, cfg, key))
  {
    hide Capture, MergedConfigMap, MergedSecrets, Mergeable, Build, Adds, ConfigWritten, SecretsWritten, BacksUp,
      Admitted, CloudConfig.Inverse, Credentials.Inverse;
    ConfigIsWritten(t, w, cfg.second);
    SecretsAreWritten(t, w, cfg.second, key);
    BackupIsMade(w);
    BuildAdds(w.infra.spec, cfg);
  }
}
