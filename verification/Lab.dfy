/**
 Apply and Restore (pkg/lab/apply.go, credential_secrets.go, state.go) against a cluster
 and a state file. Every API call and every disk write may be the one that fails: calls
 counts down the calls that still succeed, and the failing write may have taken effect.
 Each method performs its plan, or dies after a prefix of it.
 */
module Lab {
  import opened Wrappers
  import opened Infrastructure
  import opened LabPlan
  import opened LabOutcome
  import CloudConfig
  import Credentials

  /** The requests and disk operations, and the things that the tool waits for. */
  datatype Request =
    | ReadInfrastructure
    | ReadFeatureGate
    | ReadConfigMap(key: ObjectKey)
    | ReadSecret(key: ObjectKey)
    | MakeStateDir
    | Send(x: Write, dryRun: bool)
    | Await(what: string)

  /** waitForClusterReady. */
  const READY := [
    "operator cloud-controller-manager", "operator config-operator", "operator machine-api", "operator storage",
    "CSI driver", "CSI driver pods", "machines Running", "nodes Ready", "machine labels"]

  /** The last things that were done: the four operators, the CSI driver, machines, nodes and labels became ready. */
  ghost predicate EndsReady(asked: seq<Request>) {
    |asked| >= 9 && asked[|asked| - 9..] == [
      Await("operator cloud-controller-manager"), Await("operator config-operator"),
      Await("operator machine-api"), Await("operator storage"), Await("CSI driver"), Await("CSI driver pods"),
      Await("machines Running"), Await("nodes Ready"), Await("machine labels")]
  }

  /** The last request patched the Infrastructure with the configured vCenter added, as a dry run or not. */
  ghost predicate PatchSent(asked: seq<Request>, spec: Spec, cfg: LabConfig, dryRun: bool) {
    && asked != []
    && var last := asked[|asked| - 1];
    last.Send? && last.x.PatchSpec? && Adds(spec, last.x.spec, cfg) && last.dryRun == dryRun
  }

  class Cluster {
    var infra: Infra
    var configMaps: map<ObjectKey, ConfigMap>
    var secrets: map<ObjectKey, Data>
    const gate: bool
    var file: File
    var calls: nat
    var dead: bool
    /** What was asked for and done, in order. */
    var asked: seq<Request>
    /** Whether a failing save leaves a half-written file. */
    const tears: bool
    /** Whether a write that fails has taken effect all the same: the request was served, its answer was lost. */
    const late: bool

    constructor (w: World, calls: nat, tears: bool, late: bool)
      ensures State() == w && this.calls == calls && !dead && asked == []
      ensures this.tears == tears && this.late == late
    {
      infra, configMaps, secrets, gate, file := w.infra, w.configMaps, w.secrets, w.gate, w.file;
      this.calls, this.tears, this.late, dead, asked := calls, tears, late, false, [];
    }

    function State(): World
      reads this
    {
      World(infra, configMaps, secrets, gate, file)
    }

    /** A dead call has run out of successful calls. */
    ghost predicate Ran(w: World, p: Plan, ok: bool)
      reads this
    {
      Performed(w, p, State(), ok, dead) && (dead ==> !ok && calls == 0)
    }

    /** One request or disk operation: it succeeds, or the caller gives up here. */
    method Call(request: Request) returns (ok: bool)
      requires !dead
      modifies `calls, `dead, `asked
      ensures ok <==> old(calls) > 0
      ensures dead == !ok && calls == if ok then old(calls) - 1 else 0
      ensures asked == if ok then old(asked) + [request] else old(asked)
    {
      if calls == 0 {
        dead := true;
        return false;
      }
      calls := calls - 1;
      asked := asked + [request];
      return true;
    }

    method GetInfrastructure() returns (r: Option<Infra>)
      requires !dead
      modifies `calls, `dead, `asked
      ensures old(asked) <= asked
      ensures r == (if dead then None else Some(infra)) && (dead ==> calls == 0)
      ensures !dead ==> asked == old(asked) + [ReadInfrastructure]
    {
      var ok := Call(ReadInfrastructure);
      return if ok then Some(infra) else None;
    }

    method GetConfigMap(key: ObjectKey) returns (r: Option<ConfigMap>)
      requires !dead
      modifies `calls, `dead, `asked
      ensures old(asked) <= asked
      ensures r == (if dead then None else Lookup(configMaps, key)) && (dead ==> calls == 0)
    {
      var ok := Call(ReadConfigMap(key));
      return if ok then Lookup(configMaps, key) else None;
    }

    /** found distinguishes a missing secret from a failed request. */
    method GetSecret(key: ObjectKey) returns (ok: bool, found: Option<Data>)
      requires !dead
      modifies `calls, `dead, `asked
      ensures old(asked) <= asked
      ensures ok == !dead && found == (if dead then None else Lookup(secrets, key)) && (dead ==> calls == 0)
    {
      ok := Call(ReadSecret(key));
      found := if ok then Lookup(secrets, key) else None;
    }

    method UpdateConfigMap(key: ObjectKey, configMap: ConfigMap) returns (ok: bool)
      requires !dead
      modifies `configMaps, `calls, `dead, `asked
      ensures old(asked) <= asked
      ensures Ran(old(State()), Single(PutConfigMap(key, configMap)), ok)
      ensures configMaps == if ok || late then old(configMaps)[key := configMap] else old(configMaps)
    {
      hide Performed;
      Written(State(), PutConfigMap(key, configMap));
      ok := Call(Send(PutConfigMap(key, configMap), false));
      if ok || late {
        configMaps := configMaps[key := configMap];
      }
    }

    method UpdateSecret(key: ObjectKey, data: Data) returns (ok: bool)
      requires !dead
      modifies `secrets, `calls, `dead, `asked
      ensures old(asked) <= asked
      ensures Ran(old(State()), Single(PutSecret(key, data)), ok)
      ensures secrets == if ok || late then old(secrets)[key := data] else old(secrets)
    {
      hide Performed;
      Written(State(), PutSecret(key, data));
      ok := Call(Send(PutSecret(key, data), false));
      if ok || late {
        secrets := secrets[key := data];
      }
    }

    /** The merge patch, which module Infrastructure shows to be a replacement of the spec. */
    method ReplaceInfrastructureSpec(spec: Spec, dryRun: bool) returns (ok: bool)
      requires !dead
      modifies `infra, `calls, `dead, `asked
      ensures old(asked) <= asked
      ensures Ran(old(State()), Dry(Single(PatchSpec(spec)), dryRun), ok)
      ensures ok ==> asked == old(asked) + [Send(PatchSpec(spec), dryRun)]
    {
      hide Performed;
      Written(State(), PatchSpec(spec));
      DoNothing(State(), Dry(Single(PatchSpec(spec)), true));
      ok := Call(Send(PatchSpec(spec), dryRun));
      if (ok || late) && !dryRun {
        infra := infra.(spec := spec);
      }
    }

    method RestoreInfrastructure(backup: Infra) returns (ok: bool)
      requires !dead
      modifies `infra, `calls, `dead, `asked
      ensures old(asked) <= asked
      ensures Ran(old(State()), Single(PutInfra(backup)), ok)
    {
      hide Performed;
      Written(State(), PutInfra(backup));
      var current := GetInfrastructure();
      if current.None? {
        return false;
      }
      ok := Call(Send(PutInfra(backup), false));
      if ok || late {
        var restored := current.value;
        restored := restored.(spec := backup.spec);
        restored := restored.(platformStatus := backup.platformStatus);
        infra := restored;
      }
    }

    method SaveState(state: ClusterState) returns (ok: bool)
      requires !dead
      modifies `file, `calls, `dead, `asked
      ensures old(asked) <= asked
      ensures Ran(old(State()), Single(Save(state)), ok)
    {
      hide Performed;
      Written(State(), Save(state));
      ok := Call(MakeStateDir);
      if !ok {
        return;
      }
      ok := Call(Send(Save(state), false));
      if ok || late {
        file := Saved(state);
      } else if tears {
        file := Torn;
      }
    }

    method WaitForClusterReady() returns (ok: bool)
      requires !dead
      modifies `calls, `dead, `asked
      ensures dead == !ok && (dead ==> calls == 0)
      ensures old(asked) <= asked
      ensures ok ==> EndsReady(asked)
    {
      for i := 0 to |READY|
        invariant !dead && asked == old(asked) + seq(i, j requires 0 <= j < i => Await(READY[j]))
      {
        ok := Call(Await(READY[i]));
        if !ok {
          return;
        }
      }
      return true;
    }

    // -------------------------------------------------------------- Apply

    method BackupCredentialSecrets() returns (r: Option<map<string, Data>>)
      requires !dead
      modifies `calls, `dead, `asked
      ensures old(asked) <= asked
      ensures r == (if dead then None else Some(BackedUp(secrets, BACKUP_TARGETS))) && (dead ==> calls == 0)
    {
      var saved: map<string, Data> := map[];
      for i := 0 to |BACKUP_TARGETS|
        invariant old(asked) <= asked
        invariant !dead && saved == BackedUp(secrets, BACKUP_TARGETS[..i])
      {
        var target := BACKUP_TARGETS[i];
        assert BACKUP_TARGETS[..i + 1][..i] == BACKUP_TARGETS[..i];
        var ok, secret := GetSecret(target);
        if !ok {
          return None;
        }
        if secret.None? {
          continue;
        }
        saved := saved[MakeKey(target) := secret.value];
      }
      assert BACKUP_TARGETS[..|BACKUP_TARGETS|] == BACKUP_TARGETS;
      return Some(saved);
    }

    method CaptureState(current: Infra) returns (r: Option<ClusterState>)
      requires !dead && current == infra
      modifies `calls, `dead, `asked
      ensures old(asked) <= asked
      ensures dead ==> r.None? && calls == 0
      ensures !dead ==> r == if SOURCE_CONFIG in configMaps then Some(Capture(State())) else None
    {
      var cm := GetConfigMap(SOURCE_CONFIG);
      if cm.None? {
        return None;
      }
      var saved := BackupCredentialSecrets();
      if saved.None? {
        return None;
      }
      return Some(ClusterState(Some(current), map[MakeKey(SOURCE_CONFIG) := cm.value], saved.value));
    }

    method Backup(current: Infra) returns (ok: bool)
      requires !dead && current == infra
      modifies `file, `calls, `dead, `asked
      ensures old(asked) <= asked
      ensures Ran(old(State()), BackupPlan(old(State())), ok)
    {
      if file == Missing {
        var state := CaptureState(current);
        if state.None? {
          return false;
        }
        ok := SaveState(state.value);
        return;
      }
      return true;
    }

    method UpdateRootSecret(vc: VCenterConfig, dryRun: bool) returns (ok: bool)
      requires !dead
      modifies `secrets, `calls, `dead, `asked
      ensures old(asked) <= asked
      ensures Ran(old(State()), Dry(RootSecretPlan(Lookup(old(secrets), ROOT_CREDS), vc), dryRun), ok)
    {
      var got, secret := GetSecret(ROOT_CREDS);
      if !got {
        return false;
      }
      if secret.None? {
        return true;
      }
      var merged := Credentials.MergeVSphereCreds(secret.value, vc);
      if merged.Err? {
        return false;
      }
      if dryRun {
        return true;
      }
      ok := UpdateSecret(ROOT_CREDS, merged.value);
    }

    method UpdateCloudSecret(t: Tools, vc: VCenterConfig, dryRun: bool) returns (ok: bool, ghost key: string)
      requires !dead
      modifies `secrets, `calls, `dead, `asked
      ensures old(asked) <= asked
      ensures KeyPicked(old(State()), key)
      ensures Ran(old(State()), Dry(CloudSecretPlan(t, Lookup(old(secrets), CLOUD_CREDS), vc, key), dryRun), ok)
    {
      hide Credentials.MergeAt, Credentials.CanPick;
      key := AnyPick(State());
      var got, secret := GetSecret(CLOUD_CREDS);
      if !got {
        return false, key;
      }
      if secret.None? {
        return true, key;
      }
      var merged := Credentials.MergeCloudCredentials(t.creds, secret.value, vc);
      key :| Credentials.CanPick(secret.value, key) && merged == Credentials.MergeAt(t.creds, secret.value, vc, key);
      if merged.Err? {
        return false, key;
      }
      if dryRun {
        return true, key;
      }
      ok := UpdateSecret(CLOUD_CREDS, merged.value);
    }

    method UpdateCredentialSecrets(t: Tools, vc: VCenterConfig, dryRun: bool) returns (ok: bool, ghost key: string)
      requires !dead
      modifies `secrets, `calls, `dead, `asked
      ensures old(asked) <= asked
      ensures KeyPicked(old(State()), key)
      ensures Ran(old(State()),
        Dry(SecretsPlan(t, Lookup(old(secrets), ROOT_CREDS), Lookup(old(secrets), CLOUD_CREDS), vc, key), dryRun), ok)
    {
      hide Credentials.MergeAt, Credentials.CanPick, Credentials.PerVCenter, CloudSecretPlan, Performed;
      ghost var w0 := State();
      ghost var first := RootSecretPlan(Lookup(secrets, ROOT_CREDS), vc);
      key := AnyPick(w0);
      ok := UpdateRootSecret(vc, dryRun);
      ghost var w1 := State();
      if !ok {
        HaltDry(w0, first, CloudSecretPlan(t, Lookup(old(secrets), CLOUD_CREDS), vc, key), w1, dead, dryRun);
        return;
      }
      SameCloudSecret(w0, Dry(first, dryRun), w1, dead);
      ok, key := UpdateCloudSecret(t, vc, dryRun);
      ChainDry(w0, first, w1, CloudSecretPlan(t, Lookup(old(secrets), CLOUD_CREDS), vc, key), State(), ok, dead,
        dryRun);
    }

    method UpdateConfig(t: Tools, current: Infra, vc: VCenterConfig, dryRun: bool) returns (ok: bool)
      requires !dead
      modifies `configMaps, `calls, `dead, `asked
      ensures old(asked) <= asked
      ensures Ran(old(State()),
        Dry(ConfigPlan(t, Lookup(old(configMaps), SOURCE_CONFIG), current.spec, vc), dryRun), ok)
    {
      var cm := GetConfigMap(SOURCE_CONFIG);
      if cm.None? {
        return false;
      }
      var existing := if CONFIG_KEY in cm.value.data then cm.value.data[CONFIG_KEY] else "";
      var merged := CloudConfig.MergeCloudProviderConfig(existing, t.cloud, current.spec, vc);
      if merged.Err? {
        return false;
      }
      if dryRun {
        return true;
      }
      var update := cm.value;
      update := update.(data := update.data[CONFIG_KEY := merged.value]);
      ok := UpdateConfigMap(SOURCE_CONFIG, update);
    }

    method UpdateCredentials(t: Tools, current: Infra, vc: VCenterConfig, dryRun: bool)
      returns (ok: bool, ghost key: string)
      requires !dead && current == infra
      modifies `configMaps, `secrets, `calls, `dead, `asked
      ensures old(asked) <= asked
      ensures KeyPicked(old(State()), key)
      ensures Ran(old(State()), Dry(CredentialsPlan(t, old(State()), vc, key), dryRun), ok)
    {
      hide Credentials.CanPick, ConfigPlan, SecretsPlan, Performed;
      ghost var w0 := State();
      ghost var first := ConfigPlan(t, Lookup(configMaps, SOURCE_CONFIG), current.spec, vc);
      key := AnyPick(w0);
      ok := UpdateConfig(t, current, vc, dryRun);
      ghost var w1 := State();
      if !ok {
        HaltDry(w0, first, SecretsPlan(t, Lookup(secrets, ROOT_CREDS), Lookup(secrets, CLOUD_CREDS), vc, key), w1,
          dead, dryRun);
        return;
      }
      ok, key := UpdateCredentialSecrets(t, vc, dryRun);
      ghost var second := SecretsPlan(t, Lookup(old(secrets), ROOT_CREDS), Lookup(old(secrets), CLOUD_CREDS), vc, key);
      ChainDry(w0, first, w1, second, State(), ok, dead, dryRun);
    }

    method UpdateSpec(current: Infra, cfg: LabConfig, dryRun: bool) returns (ok: bool)
      requires !dead
      modifies `infra, `calls, `dead, `asked
      ensures old(asked) <= asked
      ensures Ran(old(State()), Dry(SpecPlan(current.spec, cfg), dryRun), ok)
      ensures ok ==> PatchSent(asked, current.spec, cfg, dryRun)
    {
      hide Build;
      var newSpec, fdName := BuildInfrastructureSpec(current.spec, cfg);
      if newSpec.None? {
        return false;
      }
      ok := ReplaceInfrastructureSpec(newSpec.value, dryRun);
    }

    method Update(t: Tools, current: Infra, cfg: LabConfig, dryRun: bool) returns (ok: bool, ghost key: string)
      requires !dead && current == infra
      modifies this
      ensures old(asked) <= asked
      ensures KeyPicked(old(State()), key)
      ensures Ran(old(State()), Dry(UpdatePlan(t, old(State()), cfg, key), dryRun), ok)
      ensures ok ==> PatchSent(asked, current.spec, cfg, dryRun)
    {
      hide Credentials.CanPick, CredentialsPlan, SpecPlan, Performed;
      ghost var w0 := State();
      ok, key := UpdateCredentials(t, current, cfg.second, dryRun);
      ghost var first, second := CredentialsPlan(t, w0, cfg.second, key), SpecPlan(current.spec, cfg);
      ghost var w1 := State();
      if !ok {
        HaltDry(w0, first, second, w1, dead, dryRun);
        return;
      }
      ok := UpdateSpec(current, cfg, dryRun);
      ChainDry(w0, first, w1, second, State(), ok, dead, dryRun);
    }

    /** The checks that Apply makes before it touches anything. */
    method Admit(cfg: LabConfig) returns (current: Option<Infra>)
      requires !dead
      modifies `calls, `dead, `asked
      ensures dead ==> current.None? && calls == 0
      ensures !dead ==> current == if Admitted(State(), cfg) then Some(infra) else None
      ensures current.Some? ==> asked == old(asked) + [ReadInfrastructure, ReadFeatureGate]
      ensures old(asked) <= asked
    {
      current := GetInfrastructure();
      if current.None? || !IsVSphere(current.value) {
        return None;
      }
      var answered := Call(ReadFeatureGate);
      if !answered || !gate {
        return None;
      }
      var has := HasServer(VCentersOf(current.value.spec), cfg.second.server);
      if has || |VCentersOf(current.value.spec)| >= 3 {
        return None;
      }
    }

    method Apply(t: Tools, cfg: LabConfig, dryRun: bool) returns (ok: bool, ghost key: string)
      requires !dead
      modifies this
      ensures old(asked) <= asked
      ensures KeyPicked(old(State()), key)
      ensures Ran(old(State()), ApplyPlan(t, old(State()), cfg, dryRun, key), ok)
      ensures !dead ==> (ok <==> CanBeApplied(t, old(State()), cfg, key))
      ensures ok && dryRun ==> State() == old(State())
      ensures ok && !dryRun && CloudConfig.Inverse(t.cloud) && Credentials.Inverse(t.creds) ==>
        exists used :: Normalizes(cfg, used) && Leaves(t, old(State()), used, key, State())
      ensures ok ==> old(asked) + [ReadInfrastructure, ReadFeatureGate] <= asked
      ensures ok && dryRun ==>
        exists used :: Normalizes(cfg, used) && PatchSent(asked, old(State()).infra.spec, used, true)
      ensures ok && !dryRun ==> EndsReady(asked)
    {
      hide Credentials.CanPick, UpdatePlan, Capture, Performed, Validate, CanBeApplied, Normalizes, Leaves, PatchSent,
        EndsReady, Admitted;
      ghost var w0 := State();
      ApplyOutcomes(t, w0, cfg, dryRun);
      key := AnyPick(w0);
      DoNothing(w0, ApplyPlan(t, w0, cfg, dryRun, key));
      var valid := Validate(cfg);
      if valid.None? {
        return false, key;
      }
      var current := Admit(valid.value);
      if current.None? {
        return false, key;
      }
      ghost var first := if dryRun then SKIP else BackupPlan(w0);
      DoNothing(w0, first);
      ok := true;
      if !dryRun {
        ok := Backup(current.value);
      }
      ghost var w1 := State();
      if !ok {
        Halt(w0, first, Dry(UpdatePlan(t, w0, valid.value, key), dryRun), w1, dead);
        return;
      }
      BackupOnlySaves(w0, first, w1, t, valid.value, dead);
      ok, key := Update(t, current.value, valid.value, dryRun);
      Chain(w0, first, w1, Dry(UpdatePlan(t, w0, valid.value, key), dryRun), State(), ok, dead);
      if ok && !dryRun {
        ok := WaitForClusterReady();
        Finished(w0, ApplyPlan(t, w0, cfg, dryRun, key), State(), !ok);
      }
    }

    // -------------------------------------------------------------- Restore

    /** The parameters are the orders in which the two maps happen to be walked. */
    method Restore(configMapOrder: seq<string>, secretOrder: seq<string>) returns (ok: bool)
      requires !dead
      requires file.Saved? ==>
        Enumerates(configMapOrder, file.state.configMaps.Keys) && Enumerates(secretOrder, file.state.secrets.Keys)
      modifies this
      ensures old(asked) <= asked
      ensures Ran(old(State()), RestorePlan(old(State()), configMapOrder, secretOrder), ok)
      ensures ok ==> EndsReady(asked)
    {
      hide Performed, Enumerates, EndsReady;
      ghost var w0 := State();
      DoNothing(w0, STOP);
      if !file.Saved? {
        return false;
      }
      var state := file.state;
      ghost var first := InfraRestore(state.infra);
      ghost var second := ConfigMapsRestore(configMaps.Keys, state.configMaps, configMapOrder);
      ghost var third := SecretsRestore(secrets.Keys, state.secrets, secretOrder);
      DoNothing(w0, SKIP);
      ok := true;
      if state.infra.Some? {
        ok := RestoreInfrastructure(state.infra.value);
      }
      if !ok {
        Halt(w0, first, second, State(), dead);
        Halt(w0, Then(first, second), third, State(), dead);
        return;
      }
      ghost var w1 := State();
      ok := RestoreConfigMaps(state.configMaps, configMapOrder);
      if !ok {
        Chain(w0, first, w1, second, State(), ok, dead);
        Halt(w0, Then(first, second), third, State(), dead);
        return;
      }
      ghost var w2 := State();
      Chain(w0, first, w1, second, w2, true, false);
      ok := RestoreSecrets(state.secrets, secretOrder);
      Chain(w0, Then(first, second), w2, third, State(), ok, dead);
      if ok {
        ok := WaitForClusterReady();
        Finished(w0, RestorePlan(w0, configMapOrder, secretOrder), State(), !ok);
      }
    }

    method RestoreConfigMap(saved: map<string, ConfigMap>, s: string) returns (ok: bool)
      requires !dead && s in saved
      modifies `configMaps, `calls, `dead, `asked
      ensures old(asked) <= asked
      ensures Ran(old(State()), ConfigMapRestore(old(configMaps).Keys, saved, s), ok)
      ensures !dead ==> configMaps.Keys == old(configMaps).Keys
    {
      var key := SplitKey(s);
      if key.None? {
        return false;
      }
      var current := GetConfigMap(key.value);
      if current.None? {
        return false;
      }
      var restored := current.value;
      restored := restored.(data := saved[s].data);
      restored := restored.(binaryData := saved[s].binaryData);
      ok := UpdateConfigMap(key.value, restored);
    }

    method RestoreConfigMaps(saved: map<string, ConfigMap>, order: seq<string>) returns (ok: bool)
      requires !dead && Enumerates(order, saved.Keys)
      modifies `configMaps, `calls, `dead, `asked
      ensures old(asked) <= asked
      ensures Ran(old(State()), ConfigMapsRestore(old(configMaps).Keys, saved, order), ok)
      ensures !dead ==> configMaps.Keys == old(configMaps).Keys
    {
      hide Performed, ConfigMapRestore;
      ghost var w0, keys := State(), configMaps.Keys;
      assert forall i :: 0 <= i < |order| ==> order[i] in (set s | s in order);
      DoNothing(w0, SKIP);
      for i := 0 to |order|
        invariant !dead && configMaps.Keys == keys && old(asked) <= asked
        invariant Performed(w0, ConfigMapsRestore(keys, saved, order[..i]), State(), true, false)
      {
        ghost var w1 := State();
        assert order[..i + 1][..i] == order[..i];
        ok := RestoreConfigMap(saved, order[i]);
        Chain(w0, ConfigMapsRestore(keys, saved, order[..i]), w1, ConfigMapRestore(keys, saved, order[i]), State(), ok,
          dead);
        if !ok {
          HaltConfigMaps(w0, keys, saved, order, i + 1, State(), dead);
          return;
        }
      }
      assert order[..|order|] == order;
      return true;
    }

    method RestoreSecret(saved: map<string, Data>, s: string) returns (ok: bool)
      requires !dead && s in saved
      modifies `secrets, `calls, `dead, `asked
      ensures old(asked) <= asked
      ensures Ran(old(State()), SecretRestore(old(secrets).Keys, saved, s), ok)
      ensures !dead ==> secrets.Keys == old(secrets).Keys
    {
      var key := SplitKey(s);
      if key.None? {
        return false;
      }
      if key.value.namespace == MACHINE_CREDS.namespace && key.value.name == MACHINE_CREDS.name {
        return true;
      }
      var got, current := GetSecret(key.value);
      if !got || current.None? {
        return false;
      }
      ok := UpdateSecret(key.value, saved[s]);
    }

    method RestoreSecrets(saved: map<string, Data>, order: seq<string>) returns (ok: bool)
      requires !dead && Enumerates(order, saved.Keys)
      modifies `secrets, `calls, `dead, `asked
      ensures old(asked) <= asked
      ensures Ran(old(State()), SecretsRestore(old(secrets).Keys, saved, order), ok)
    {
      hide Performed, SecretRestore;
      ghost var w0, keys := State(), secrets.Keys;
      assert forall i :: 0 <= i < |order| ==> order[i] in (set s | s in order);
      DoNothing(w0, SKIP);
      for i := 0 to |order|
        invariant !dead && secrets.Keys == keys && old(asked) <= asked
        invariant Performed(w0, SecretsRestore(keys, saved, order[..i]), State(), true, false)
      {
        ghost var w1 := State();
        assert order[..i + 1][..i] == order[..i];
        ok := RestoreSecret(saved, order[i]);
        Chain(w0, SecretsRestore(keys, saved, order[..i]), w1, SecretRestore(keys, saved, order[i]), State(), ok, dead);
        if !ok {
          HaltSecrets(w0, keys, saved, order, i + 1, State(), dead);
          return;
        }
      }
      assert order[..|order|] == order;
      return true;
    }
  }

  // ---------------------------------------------------------------- steps of the proofs

  /** What it means to have performed the plan of an Apply. */
  lemma ApplyOutcomes(t: Tools, w: World, cfg: LabConfig, dryRun: bool)
    ensures Validate(cfg).Some? ==> Normalizes(cfg, Validate(cfg).value)
    ensures forall key, w', ok :: Performed(w, ApplyPlan(t, w, cfg, dryRun, key), w', ok, false) ==>
      && (ok <==> CanBeApplied(t, w, cfg, key))
      && (ok ==> Validate(cfg).Some?)
      && (ok && dryRun ==> w' == w)
      && (ok && !dryRun && CloudConfig.Inverse(t.cloud) && Credentials.Inverse(t.creds) ==>
        Leaves(t, w, Validate(cfg).value, key, w'))
  {
    ValidateIff(cfg);
    forall key, w', ok | Performed(w, ApplyPlan(t, w, cfg, dryRun, key), w', ok, false)
      ensures
        && (ok <==> CanBeApplied(t, w, cfg, key))
        && (ok ==> Validate(cfg).Some?)
        && (ok && dryRun ==> w' == w)
        && (ok && !dryRun && CloudConfig.Inverse(t.cloud) && Credentials.Inverse(t.creds) ==>
          Leaves(t, w, Validate(cfg).value, key, w'))
    {
      FinishesExactlyWhen(t, w, cfg, key);
      hide Validate, Normalizes, ApplyPlan, DoAll, CanBeApplied, Leaves;
      DryRunMeans(t, w, cfg, dryRun, key);
      if ok && !dryRun && CloudConfig.Inverse(t.cloud) && Credentials.Inverse(t.creds) {
        FinishedApplyLeaves(t, w, cfg, key);
      }
    }
  }

  lemma DryRunMeans(t: Tools, w: World, cfg: LabConfig, dryRun: bool, key: string)
    ensures ApplyPlan(t, w, cfg, dryRun, key).complete <==> ApplyPlan(t, w, cfg, false, key).complete
    ensures dryRun ==> DoAll(w, ApplyPlan(t, w, cfg, dryRun, key).writes) == w
    ensures ApplyPlan(t, w, cfg, false, key).complete ==> Validate(cfg).Some?
  {
    hide Validate, Admitted, SecretsPlan, SpecPlan, Capture, CloudConfig.MergeConfig;
  }

  lemma PickExists(data: Data)
    ensures exists k :: Credentials.CanPick(data, k)
  {
    assert forall k :: k in Credentials.NAMED_KEYS && k in data ==> k in data;
    var n0, n1, n2 := Credentials.NAMED_KEYS[0], Credentials.NAMED_KEYS[1], Credentials.NAMED_KEYS[2];
    if n0 in data { assert Credentials.CanPick(data, n0); }
    else if n1 in data { assert Credentials.CanPick(data, n1); }
    else if n2 in data { assert Credentials.CanPick(data, n2); }
    else if k :| k in Credentials.YamlKeys(data) { assert Credentials.CanPick(data, k); }
    else { assert Credentials.CanPick(data, n0); }
  }

  ghost function AnyPick(w: World): (key: string)
    ensures KeyPicked(w, key)
  {
    if CLOUD_CREDS !in w.secrets then ""
    else
      PickExists(w.secrets[CLOUD_CREDS]);
      var key :| Credentials.CanPick(w.secrets[CLOUD_CREDS], key);
      key
  }

  /** Ending without having written anything fits any plan on death, and an empty plan otherwise. */
  lemma DoNothing(w: World, p: Plan)
    ensures Performed(w, p, w, false, true)
    ensures p.writes == [] ==> Performed(w, p, w, p.complete, false)
  {
  }

  lemma Finished(w: World, p: Plan, w': World, died: bool)
    requires Performed(w, p, w', true, false)
    ensures Performed(w, p, w', !died, died)
  {
    FullIsPrefix(w, p.writes);
  }

  lemma SameCloudSecret(w: World, p: Plan, w': World, died: bool)
    requires p.writes == [] || exists d :: p.writes == [PutSecret(ROOT_CREDS, d)]
    requires Performed(w, p, w', true, died)
    ensures Lookup(w'.secrets, CLOUD_CREDS) == Lookup(w.secrets, CLOUD_CREDS)
  {
    assert |ROOT_CREDS.name| != |CLOUD_CREDS.name|;
    if p.writes != [] { DoOne(w, p.writes[0]); }
  }

  /** The backup leaves alone everything the updates look at. */
  lemma BackupOnlySaves(w: World, p: Plan, w': World, t: Tools, cfg: LabConfig, died: bool)
    requires p.writes == [] || exists st :: p.writes == [Save(st)]
    requires Performed(w, p, w', true, died)
    ensures w' == w.(file := w'.file)
    ensures forall key :: UpdatePlan(t, w', cfg, key) == UpdatePlan(t, w, cfg, key)
  {
    if p.writes != [] { DoOne(w, p.writes[0]); }
    hide ConfigPlan, SecretsPlan, SpecPlan;
  }

  lemma {:induction false} HaltConfigMaps(w: World, keys: set<ObjectKey>, saved: map<string, ConfigMap>,
      order: seq<string>, i: nat, w': World, died: bool)
    requires i <= |order| && Performed(w, ConfigMapsRestore(keys, saved, order[..i]), w', false, died)
    ensures Performed(w, ConfigMapsRestore(keys, saved, order), w', false, died)
    decreases |order| - i
  {
    hide Performed, ConfigMapRestore;
    if i == |order| {
      assert order[..i] == order;
    } else {
      assert order[..i + 1][..i] == order[..i];
      Halt(w, ConfigMapsRestore(keys, saved, order[..i]), ConfigMapRestore(keys, saved, order[i]), w', died);
      HaltConfigMaps(w, keys, saved, order, i + 1, w', died);
    }
  }

  lemma {:induction false} HaltSecrets(w: World, keys: set<ObjectKey>, saved: map<string, Data>, order: seq<string>,
      i: nat, w': World, died: bool)
    requires i <= |order| && Performed(w, SecretsRestore(keys, saved, order[..i]), w', false, died)
    ensures Performed(w, SecretsRestore(keys, saved, order), w', false, died)
    decreases |order| - i
  {
    hide Performed, SecretRestore;
    if i == |order| {
      assert order[..i] == order;
    } else {
      assert order[..i + 1][..i] == order[..i];
      Halt(w, SecretsRestore(keys, saved, order[..i]), SecretRestore(keys, saved, order[i]), w', died);
      HaltSecrets(w, keys, saved, order, i + 1, w', died);
    }
  }
}
