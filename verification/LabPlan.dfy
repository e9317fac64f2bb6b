/**
 What one Apply and one Restore of pkg/lab intend to do, as a list of writes computed
 from the world they start in. A call that fails or dies performs a prefix of its list;
 a state file caught half-written is Torn. The methods of module Lab are proved against
 these plans; module LabSafety proves what every run keeps.
 */
module LabPlan {
  import opened Wrappers
  import opened Seqs
  import opened Text
  import opened Infrastructure
  import CloudConfig
  import Credentials

  type Data = map<string, string>

  datatype ObjectKey = ObjectKey(namespace: string, name: string)

  datatype ConfigMap = ConfigMap(data: Data, binaryData: Data)

  datatype Infra = Infra(spec: Spec, platformStatus: Option<string>)

  /** The backup; its maps are keyed by "namespace/name". */
  datatype ClusterState = ClusterState(
    infra: Option<Infra>, configMaps: map<string, ConfigMap>, secrets: map<string, Data>)

  datatype File = Missing | Torn | Saved(state: ClusterState)

  datatype World = World(
    infra: Infra, configMaps: map<ObjectKey, ConfigMap>, secrets: map<ObjectKey, Data>, gate: bool, file: File)

  datatype Tools = Tools(cloud: CloudConfig.Codec, creds: Credentials.Format)

  const SOURCE_CONFIG := ObjectKey("openshift-config", "cloud-provider-config")
  const ROOT_CREDS := ObjectKey("kube-system", "vsphere-creds")
  const CLOUD_CREDS := ObjectKey("openshift-config", "cloud-credentials")
  const MACHINE_CREDS := ObjectKey("openshift-machine-api", "vsphere-cloud-credentials")
  const CONFIG_KEY := "config"
  const BACKUP_TARGETS := [ROOT_CREDS, CLOUD_CREDS, MACHINE_CREDS]

  // ---------------------------------------------------------------- object keys

  /** objectKey. */
  function MakeKey(k: ObjectKey): string {
    k.namespace + "/" + k.name
  }

  /** splitKey: at the first slash. */
  function SplitKey(s: string): Option<ObjectKey> {
    var i := Index(s, '/');
    if i.None? then None else Some(ObjectKey(s[..i.value], s[i.value + 1..]))
  }

  lemma IndexOfFirst(s: string, c: char, i: nat)
    requires i < |s| && s[i] == c && c !in s[..i]
    ensures Index(s, c) == Some(i)
  {
    forall j | 0 <= j < i
      ensures s[j] != c
    {
      assert s[j] == s[..i][j];
    }
    assert forall n :: i < n <= |s| ==> s[..n][i] == c;
  }

  /**
   Splitting gives back the object exactly when its namespace has no slash; joining a split key
   always gives it back.
   */
  lemma SplitKeyIff(k: ObjectKey)
    ensures SplitKey(MakeKey(k)) == Some(k) <==> '/' !in k.namespace
  {
    var s, n := MakeKey(k), |k.namespace|;
    assert s[..n] == k.namespace && s[n] == '/' && s[n + 1..] == k.name;
    if '/' !in k.namespace {
      IndexOfFirst(s, '/', n);
    }
  }

  lemma JoinOfSplit(s: string)
    requires SplitKey(s).Some?
    ensures MakeKey(SplitKey(s).value) == s
  {
    var i := Index(s, '/').value;
    assert s == s[..i] + [s[i]] + s[i + 1..];
  }

  // ---------------------------------------------------------------- writes and plans

  datatype Write =
    | Save(state: ClusterState)
    | PutConfigMap(key: ObjectKey, configMap: ConfigMap)
    | PutSecret(key: ObjectKey, data: Data)
    | PatchSpec(spec: Spec)
    | PutInfra(infra: Infra)

  /** complete says whether the call, when nothing fails, gets to its end. */
  datatype Plan = Plan(writes: seq<Write>, complete: bool)

  const STOP := Plan([], false)
  const SKIP := Plan([], true)

  function Single(x: Write): Plan {
    Plan([x], true)
  }

  function Then(a: Plan, b: Plan): Plan {
    if a.complete then Plan(a.writes + b.writes, b.complete) else a
  }

  function Do(w: World, x: Write): World {
    match x
    case Save(st) => w.(file := Saved(st))
    case PutConfigMap(k, cm) => w.(configMaps := w.configMaps[k := cm])
    case PutSecret(k, d) => w.(secrets := w.secrets[k := d])
    case PatchSpec(spec) => w.(infra := w.infra.(spec := spec))
    case PutInfra(infra) => w.(infra := infra)
  }

  function DoAll(w: World, writes: seq<Write>): World
    decreases |writes|
  {
    if writes == [] then w else DoAll(Do(w, writes[0]), writes[1..])
  }

  /** The worlds in which a call with these writes may leave things. */
  predicate Prefix(w: World, writes: seq<Write>, w': World)
    decreases |writes|
  {
    || w' == w
    || (writes != [] && ((writes[0].Save? && w' == w.(file := Torn)) || Prefix(Do(w, writes[0]), writes[1..], w')))
  }

  lemma {:induction false} DoAllAppend(w: World, a: seq<Write>, b: seq<Write>)
    ensures DoAll(w, a + b) == DoAll(DoAll(w, a), b)
    decreases |a|
  {
    if a == [] {
      assert a + b == b;
    } else {
      assert (a + b)[1..] == a[1..] + b;
      DoAllAppend(Do(w, a[0]), a[1..], b);
    }
  }

  lemma {:induction false} PrefixAppend(w: World, a: seq<Write>, b: seq<Write>, w': World)
    ensures Prefix(w, a + b, w') <==> Prefix(w, a, w') || Prefix(DoAll(w, a), b, w')
    decreases |a|
  {
    if a == [] {
      assert a + b == b;
    } else {
      assert (a + b)[1..] == a[1..] + b && (a + b)[0] == a[0];
      PrefixAppend(Do(w, a[0]), a[1..], b, w');
    }
  }

  lemma FullIsPrefix(w: World, a: seq<Write>)
    ensures Prefix(w, a, DoAll(w, a))
  {
    PrefixAppend(w, a, [], DoAll(w, a));
    assert a + [] == a;
  }

  /** A dry run makes the same decisions and writes nothing. */
  function Dry(p: Plan, dryRun: bool): Plan {
    if dryRun then Plan([], p.complete) else p
  }

  /** How a call that planned p ends: it does all of it, or dies on the way. */
  predicate Performed(w: World, p: Plan, w': World, ok: bool, died: bool) {
    if died then !ok && Prefix(w, p.writes, w') else w' == DoAll(w, p.writes) && ok == p.complete
  }

  lemma DoOne(w: World, x: Write)
    ensures DoAll(w, [x]) == Do(w, x)
  {
    assert [x][1..] == [];
  }

  /** A single write: done, or not, or (for the file) half done. */
  lemma Written(w: World, x: Write)
    ensures Performed(w, Single(x), Do(w, x), true, false)
    ensures Performed(w, Single(x), w, false, true) && Performed(w, Single(x), Do(w, x), false, true)
    ensures x.Save? ==> Performed(w, Single(x), w.(file := Torn), false, true)
  {
    assert Single(x).writes[1..] == [];
  }

  lemma Chain(w: World, a: Plan, w1: World, b: Plan, w2: World, ok: bool, died: bool)
    requires Performed(w, a, w1, true, false) && Performed(w1, b, w2, ok, died)
    ensures Performed(w, Then(a, b), w2, ok, died)
  {
    hide Prefix, DoAll;
    DoAllAppend(w, a.writes, b.writes);
    PrefixAppend(w, a.writes, b.writes, w2);
  }

  lemma Halt(w: World, a: Plan, b: Plan, w1: World, died: bool)
    requires Performed(w, a, w1, false, died)
    ensures Performed(w, Then(a, b), w1, false, died)
  {
    hide Prefix, DoAll;
    PrefixAppend(w, a.writes, b.writes, w1);
  }

  /** The same for a call that may be a dry run. */
  lemma ChainDry(w: World, a: Plan, w1: World, b: Plan, w2: World, ok: bool, died: bool, dryRun: bool)
    requires Performed(w, Dry(a, dryRun), w1, true, false) && Performed(w1, Dry(b, dryRun), w2, ok, died)
    ensures Performed(w, Dry(Then(a, b), dryRun), w2, ok, died)
  {
    Chain(w, Dry(a, dryRun), w1, Dry(b, dryRun), w2, ok, died);
    assert Performed(w, Dry(a, dryRun), w1, true, false) ==> a.complete;
    hide Performed;
  }

  lemma HaltDry(w: World, a: Plan, b: Plan, w1: World, died: bool, dryRun: bool)
    requires Performed(w, Dry(a, dryRun), w1, false, died)
    ensures Performed(w, Dry(Then(a, b), dryRun), w1, false, died)
  {
    Halt(w, Dry(a, dryRun), Dry(b, dryRun), w1, died);
  }

  // ---------------------------------------------------------------- Apply

  function NonBlank(s: string): bool {
    TrimSpace(s) != ""
  }

  /** LabConfig.Validate: the accepted config, with the server trimmed and the port defaulted. */
  function Validate(cfg: LabConfig): Option<LabConfig> {
    var vc := cfg.second;
    if !NonBlank(vc.server) || vc.datacenters == [] || !NonBlank(vc.username) || vc.password.GetOr("") == "" then None
    else if cfg.failureDomain.Some? && !FailureDomainOk(cfg.failureDomain.value) then None
    else Some(cfg.(second := vc.(server := TrimSpace(vc.server), port := if vc.port == 0 then 443 else vc.port)))
  }

  predicate FailureDomainOk(fd: FailureDomainConfig) {
    && NonBlank(fd.name) && NonBlank(fd.region) && NonBlank(fd.zone)
    && NonBlank(fd.topology.datacenter) && NonBlank(fd.topology.computeCluster) && NonBlank(fd.topology.datastore)
    && fd.topology.networks != [] && NonBlank(fd.topology.resourcePool)
  }

  predicate IsVSphere(infra: Infra) {
    infra.platformStatus.GetOr(infra.spec.platformType) == "VSphere"
  }

  function Lookup<K, V>(m: map<K, V>, k: K): Option<V> {
    if k in m then Some(m[k]) else None
  }

  function BackedUp(secrets: map<ObjectKey, Data>, targets: seq<ObjectKey>): map<string, Data> {
    if targets == [] then map[] else
      var k, m := targets[|targets| - 1], BackedUp(secrets, targets[..|targets| - 1]);
      if k in secrets then m[MakeKey(k) := secrets[k]] else m
  }

  /** captureState. */
  function Capture(w: World): ClusterState
    requires SOURCE_CONFIG in w.configMaps
  {
    ClusterState(Some(w.infra), map[MakeKey(SOURCE_CONFIG) := w.configMaps[SOURCE_CONFIG]],
      BackedUp(w.secrets, BACKUP_TARGETS))
  }

  function BackupPlan(w: World): Plan {
    if w.file != Missing then SKIP
    else if SOURCE_CONFIG !in w.configMaps then STOP
    else Single(Save(Capture(w)))
  }

  function ConfigPlan(t: Tools, cm: Option<ConfigMap>, spec: Spec, vc: VCenterConfig): Plan {
    if cm.None? || vc.password.None? then STOP
    else
      var existing := Lookup(cm.value.data, CONFIG_KEY).GetOr("");
      var merged := CloudConfig.MergeConfig(t.cloud.parse(existing), spec, vc, vc.password.value);
      Single(PutConfigMap(SOURCE_CONFIG, cm.value.(data := cm.value.data[CONFIG_KEY := t.cloud.render(merged)])))
  }

  function SecretPlan(target: ObjectKey, merged: Result<Data>): Plan {
    if merged.Err? then STOP else Single(PutSecret(target, merged.value))
  }

  function RootSecretPlan(secret: Option<Data>, vc: VCenterConfig): Plan {
    if secret.None? then SKIP
    else SecretPlan(ROOT_CREDS, if vc.password.None? then Err else Ok(Credentials.PerVCenter(secret.value, vc)))
  }

  /** key is the data key that the map order made pickCredsKey return. */
  function CloudSecretPlan(t: Tools, secret: Option<Data>, vc: VCenterConfig, key: string): Plan {
    if secret.None? then SKIP else SecretPlan(CLOUD_CREDS, Credentials.MergeAt(t.creds, secret.value, vc, key))
  }

  function SecretsPlan(t: Tools, root: Option<Data>, cloud: Option<Data>, vc: VCenterConfig, key: string): Plan {
    Then(RootSecretPlan(root, vc), CloudSecretPlan(t, cloud, vc, key))
  }

  function CredentialsPlan(t: Tools, w: World, vc: VCenterConfig, key: string): Plan {
    Then(ConfigPlan(t, Lookup(w.configMaps, SOURCE_CONFIG), w.infra.spec, vc),
         SecretsPlan(t, Lookup(w.secrets, ROOT_CREDS), Lookup(w.secrets, CLOUD_CREDS), vc, key))
  }

  function SpecPlan(spec: Spec, cfg: LabConfig): Plan {
    var built := Build(spec, cfg);
    if built.None? then STOP else Single(PatchSpec(built.value))
  }

  /** Every check Apply makes before it touches anything. */
  predicate Admitted(w: World, cfg: LabConfig) {
    && IsVSphere(w.infra) && w.gate
    && cfg.second.server !in Servers(VCentersOf(w.infra.spec))
    && |VCentersOf(w.infra.spec)| < MAX_VCENTERS
  }

  function UpdatePlan(t: Tools, w: World, cfg: LabConfig, key: string): Plan {
    Then(CredentialsPlan(t, w, cfg.second, key), SpecPlan(w.infra.spec, cfg))
  }

  function ApplyPlan(t: Tools, w: World, cfg: LabConfig, dryRun: bool, key: string): Plan {
    var valid := Validate(cfg);
    if valid.None? || !Admitted(w, valid.value) then STOP
    else Then(if dryRun then SKIP else BackupPlan(w), Dry(UpdatePlan(t, w, valid.value, key), dryRun))
  }

  predicate KeyPicked(w: World, key: string) {
    CLOUD_CREDS in w.secrets ==> Credentials.CanPick(w.secrets[CLOUD_CREDS], key)
  }

  // ---------------------------------------------------------------- Restore

  function ConfigMapRestore(existing: set<ObjectKey>, saved: map<string, ConfigMap>, s: string): Plan {
    var k := SplitKey(s);
    if k.None? || k.value !in existing || s !in saved then STOP else Single(PutConfigMap(k.value, saved[s]))
  }

  function ConfigMapsRestore(existing: set<ObjectKey>, saved: map<string, ConfigMap>, order: seq<string>): Plan {
    if order == [] then SKIP else
      var n := |order| - 1;
      Then(ConfigMapsRestore(existing, saved, order[..n]), ConfigMapRestore(existing, saved, order[n]))
  }

  /** The machine-api secret is left to the credentials operator. */
  function SecretRestore(existing: set<ObjectKey>, saved: map<string, Data>, s: string): Plan {
    var k := SplitKey(s);
    if k.None? then STOP
    else if k.value == MACHINE_CREDS then SKIP
    else if k.value !in existing || s !in saved then STOP
    else Single(PutSecret(k.value, saved[s]))
  }

  function SecretsRestore(existing: set<ObjectKey>, saved: map<string, Data>, order: seq<string>): Plan {
    if order == [] then SKIP else
      var n := |order| - 1;
      Then(SecretsRestore(existing, saved, order[..n]), SecretRestore(existing, saved, order[n]))
  }

  function InfraRestore(infra: Option<Infra>): Plan {
    if infra.None? then SKIP else Single(PutInfra(infra.value))
  }

  function RestorePlan(w: World, configMapOrder: seq<string>, secretOrder: seq<string>): Plan {
    if !w.file.Saved? then STOP
    else
      var st := w.file.state;
      Then(Then(InfraRestore(st.infra), ConfigMapsRestore(w.configMaps.Keys, st.configMaps, configMapOrder)),
           SecretsRestore(w.secrets.Keys, st.secrets, secretOrder))
  }

  /** order is one of the orders in which a map with these keys can be walked. */
  predicate Enumerates(order: seq<string>, keys: set<string>) {
    && Distinct(order)
    && (set s | s in order) == keys
  }
}
