/**
 What every run of the lab tool keeps. A run is any sequence of Apply calls (any config,
 dry or not), Restore calls and reconciliations of the machine-api secret by the
 credentials operator; each call may die anywhere. Runs start without a state file.
 */
module LabSafety {
  import opened Wrappers
  import opened Seqs
  import opened Infrastructure
  import opened LabPlan
  import CloudConfig
  import Credentials

  datatype Event =
    | Applied(cfg: LabConfig, dryRun: bool, key: string)
    | Restored(configMapOrder: seq<string>, secretOrder: seq<string>)
    | Reconciled(data: Data)

  datatype Entry = Entry(event: Event, after: World)

  predicate Step(t: Tools, w: World, ev: Event, w': World) {
    match ev
    case Applied(cfg, dryRun, key) =>
      KeyPicked(w, key) && Prefix(w, ApplyPlan(t, w, cfg, dryRun, key).writes, w')
    case Restored(configMapOrder, secretOrder) =>
      && WalksBackup(w, configMapOrder, secretOrder)
      && Prefix(w, RestorePlan(w, configMapOrder, secretOrder).writes, w')
    case Reconciled(data) =>
      w' == if MACHINE_CREDS in w.secrets then w.(secrets := w.secrets[MACHINE_CREDS := data]) else w
  }

  predicate WalksBackup(w: World, configMapOrder: seq<string>, secretOrder: seq<string>) {
    w.file.Saved? ==>
      Enumerates(configMapOrder, w.file.state.configMaps.Keys) && Enumerates(secretOrder, w.file.state.secrets.Keys)
  }

  function After(w: World, h: seq<Entry>): World {
    if h == [] then w else h[|h| - 1].after
  }

  predicate Runs(t: Tools, w: World, h: seq<Entry>) {
    h == [] ||
    (Runs(t, w, h[..|h| - 1]) && Step(t, After(w, h[..|h| - 1]), h[|h| - 1].event, h[|h| - 1].after))
  }

  // ---------------------------------------------------------------- the invariant

  function BackupKeys(existing: set<ObjectKey>, targets: seq<ObjectKey>): set<string> {
    set k | k in targets && k in existing :: MakeKey(k)
  }

  /** The backup holds what the world held at the start (the operator's own secret may have moved). */
  predicate Faithful(w0: World, st: ClusterState) {
    && SOURCE_CONFIG in w0.configMaps
    && st.infra == Some(w0.infra)
    && st.configMaps == map[MakeKey(SOURCE_CONFIG) := w0.configMaps[SOURCE_CONFIG]]
    && st.secrets.Keys == BackupKeys(w0.secrets.Keys, BACKUP_TARGETS)
    && (forall k :: k in BACKUP_TARGETS && k in w0.secrets && k != MACHINE_CREDS ==>
      st.secrets[MakeKey(k)] == w0.secrets[k])
  }

  predicate SameSecrets(w0: World, w: World) {
    && w.secrets.Keys == w0.secrets.Keys
    && forall k :: k in w0.secrets && k != ObjectKey("openshift-machine-api", "vsphere-cloud-credentials") ==>
      w.secrets[k] == w0.secrets[k]
  }

  ghost predicate SpecFollows(a: Spec, b: Spec) {
    (SpecOk(a) ==> SpecOk(b)) && (RestOk(a) ==> RestOk(b))
  }

  ghost predicate Inv(w0: World, w: World) {
    && w.gate == w0.gate && w.infra.platformStatus == w0.infra.platformStatus
    && SpecFollows(w0.infra.spec, w.infra.spec)
    && w.configMaps.Keys == w0.configMaps.Keys
    && (forall k :: k in w0.configMaps && k != SOURCE_CONFIG ==> w.configMaps[k] == w0.configMaps[k])
    && w.secrets.Keys == w0.secrets.Keys
    && (forall k :: k in w0.secrets && k !in BACKUP_TARGETS ==> w.secrets[k] == w0.secrets[k])
    && (w.file.Missing? ==> w.infra == w0.infra && w.configMaps == w0.configMaps && SameSecrets(w0, w))
    && (w.file.Saved? ==> Faithful(w0, w.file.state))
  }

  /** The writes that come after the backup. */
  ghost predicate BodyWrite(w0: World, x: Write) {
    match x
    case Save(_) => false
    case PutConfigMap(k, _) => k == SOURCE_CONFIG && k in w0.configMaps
    case PutSecret(k, _) => k in [ROOT_CREDS, CLOUD_CREDS] && k in w0.secrets
    case PatchSpec(spec) => SpecFollows(w0.infra.spec, spec)
    case PutInfra(infra) => infra == w0.infra
  }

  lemma BodyWriteKeepsInv(w0: World, w: World, x: Write)
    requires Inv(w0, w) && !w.file.Missing? && BodyWrite(w0, x)
    ensures Inv(w0, Do(w, x)) && Do(w, x).file == w.file
  {
    hide SpecFollows, Faithful, SameSecrets;
    assert ROOT_CREDS in BACKUP_TARGETS && CLOUD_CREDS in BACKUP_TARGETS by {
      assert BACKUP_TARGETS[0] == ROOT_CREDS && BACKUP_TARGETS[1] == CLOUD_CREDS;
    }
    if x.PutInfra? { SpecFollowsSelf(w0.infra.spec); }
  }

  lemma SpecFollowsSelf(a: Spec)
    ensures SpecFollows(a, a)
  {
  }

  lemma {:induction false} PrefixKeepsInv(w0: World, w: World, writes: seq<Write>, w': World)
    requires Inv(w0, w) && !w.file.Missing? && Prefix(w, writes, w')
    requires forall x :: x in writes ==> BodyWrite(w0, x)
    ensures Inv(w0, w') && w'.file == w.file
    decreases |writes|
  {
    hide Inv, BodyWrite;
    if w' != w {
      assert writes[0] in writes;
      BodyWriteKeepsInv(w0, w, writes[0]);
      assert !writes[0].Save? by { NoSave(w0, writes[0]); }
      PrefixKeepsInv(w0, Do(w, writes[0]), writes[1..], w');
    }
  }

  lemma NoSave(w0: World, x: Write)
    requires BodyWrite(w0, x)
    ensures !x.Save?
  {
  }

  // ---------------------------------------------------------------- Apply

  lemma UpdateWrites(t: Tools, w0: World, w: World, cfg: LabConfig, key: string)
    requires Inv(w0, w) && Admitted(w, cfg)
    ensures forall x :: x in UpdatePlan(t, w, cfg, key).writes ==> BodyWrite(w0, x)
  {
    CredentialWrites(t, w0, w, cfg.second, key);
    var built := Build(w.infra.spec, cfg);
    if built.Some? { BuildFollows(w0, w, cfg); }
    hide CredentialsPlan, Build, Inv, SpecFollows;
    assert forall x :: x in SpecPlan(w.infra.spec, cfg).writes ==> BodyWrite(w0, x);
  }

  lemma CredentialWrites(t: Tools, w0: World, w: World, vc: VCenterConfig, key: string)
    requires Inv(w0, w)
    ensures forall x :: x in CredentialsPlan(t, w, vc, key).writes ==> BodyWrite(w0, x)
  {
    hide Credentials.MergeAt, CloudConfig.MergeConfig, Credentials.PerVCenter, Faithful, SameSecrets, SpecFollows;
    assert ROOT_CREDS in [ROOT_CREDS, CLOUD_CREDS] && CLOUD_CREDS in [ROOT_CREDS, CLOUD_CREDS] by {
      assert [ROOT_CREDS, CLOUD_CREDS][0] == ROOT_CREDS && [ROOT_CREDS, CLOUD_CREDS][1] == CLOUD_CREDS;
    }
    assert forall x :: x in ConfigPlan(t, Lookup(w.configMaps, SOURCE_CONFIG), w.infra.spec, vc).writes ==>
      BodyWrite(w0, x);
    assert forall x :: x in RootSecretPlan(Lookup(w.secrets, ROOT_CREDS), vc).writes ==> BodyWrite(w0, x);
    assert forall x :: x in CloudSecretPlan(t, Lookup(w.secrets, CLOUD_CREDS), vc, key).writes ==> BodyWrite(w0, x);
  }

  lemma BuildFollows(w0: World, w: World, cfg: LabConfig)
    requires Inv(w0, w) && Admitted(w, cfg) && Build(w.infra.spec, cfg).Some?
    ensures SpecFollows(w0.infra.spec, Build(w.infra.spec, cfg).value)
  {
    hide SpecOk;
    if SpecOk(w.infra.spec) { BuildKeepsSpecOk(w.infra.spec, cfg); }
  }

  lemma {:induction false} BackedUpFacts(secrets: map<ObjectKey, Data>, targets: seq<ObjectKey>)
    requires forall i, j :: 0 <= i < j < |targets| ==> MakeKey(targets[i]) != MakeKey(targets[j])
    ensures var m := BackedUp(secrets, targets);
      && m.Keys == BackupKeys(secrets.Keys, targets)
      && (forall k :: k in targets && k in secrets ==> m[MakeKey(k)] == secrets[k])
  {
    hide MakeKey;
    if targets != [] {
      var n := |targets| - 1;
      BackedUpFacts(secrets, targets[..n]);
      assert targets == targets[..n] + [targets[n]];
      assert BackupKeys(secrets.Keys, targets) ==
        BackupKeys(secrets.Keys, targets[..n]) + if targets[n] in secrets then {MakeKey(targets[n])} else {};
    }
  }

  lemma CaptureIsFaithful(w0: World, w: World)
    requires Inv(w0, w) && w.file.Missing? && SOURCE_CONFIG in w.configMaps
    ensures Faithful(w0, Capture(w))
  {
    hide SpecFollows;
    assert |MakeKey(ROOT_CREDS)| == 25 && |MakeKey(CLOUD_CREDS)| == 34 && |MakeKey(MACHINE_CREDS)| == 47;
    hide MakeKey;
    BackedUpFacts(w.secrets, BACKUP_TARGETS);
  }

  lemma ApplyKeepsInv(t: Tools, w0: World, w: World, cfg: LabConfig, dryRun: bool, key: string, w': World)
    requires Inv(w0, w) && Prefix(w, ApplyPlan(t, w, cfg, dryRun, key).writes, w')
    ensures Inv(w0, w') && (!w.file.Missing? ==> w'.file == w.file)
  {
    hide Inv, BodyWrite, UpdatePlan, Capture, Admitted, Validate, Prefix;
    var writes := ApplyPlan(t, w, cfg, dryRun, key).writes;
    if writes == [] {
      assert w' == w by { PrefixOfNothing(w, w'); }
    } else {
      var valid := Validate(cfg).value;
      UpdateWrites(t, w0, w, valid, key);
      var upd := UpdatePlan(t, w, valid, key).writes;
      if w.file.Missing? {
        assert writes == [Save(Capture(w))] + upd;
        var saved := w.(file := Saved(Capture(w)));
        SavedOrTorn(w0, w, Capture(w));
        PrefixOfSave(w, Capture(w), upd, w');
        if Prefix(saved, upd, w') {
          PrefixKeepsInv(w0, saved, upd, w');
        }
      } else {
        assert writes == [] + upd == upd;
        PrefixKeepsInv(w0, w, upd, w');
      }
    }
  }

  lemma PrefixOfNothing(w: World, w': World)
    requires Prefix(w, [], w')
    ensures w' == w
  {
  }

  lemma PrefixOfSave(w: World, st: ClusterState, rest: seq<Write>, w': World)
    requires Prefix(w, [Save(st)] + rest, w')
    ensures w' == w || w' == w.(file := Torn) || Prefix(w.(file := Saved(st)), rest, w')
  {
    assert ([Save(st)] + rest)[0] == Save(st) && ([Save(st)] + rest)[1..] == rest;
  }

  lemma SavedOrTorn(w0: World, w: World, st: ClusterState)
    requires Inv(w0, w) && w.file.Missing? && SOURCE_CONFIG in w.configMaps && st == Capture(w)
    ensures Inv(w0, w.(file := Saved(st))) && Inv(w0, w.(file := Torn))
  {
    CaptureIsFaithful(w0, w);
    hide Faithful, SpecFollows, SameSecrets, Capture;
  }

  // ---------------------------------------------------------------- Restore

  lemma TargetsSplit()
    ensures forall k :: k in BACKUP_TARGETS + [SOURCE_CONFIG] ==> SplitKey(MakeKey(k)) == Some(k)
  {
    RootSplits();
    OpenshiftConfigSplits(CLOUD_CREDS.name);
    OpenshiftConfigSplits(SOURCE_CONFIG.name);
    MachineSplits();
    hide SplitKey, MakeKey;
  }

  lemma RootSplits()
    ensures SplitKey(MakeKey(ROOT_CREDS)) == Some(ROOT_CREDS)
  {
    SplitKeyIff(ROOT_CREDS);
  }

  lemma OpenshiftConfigSplits(name: string)
    ensures var k := ObjectKey("openshift-config", name); SplitKey(MakeKey(k)) == Some(k)
  {
    SplitKeyIff(ObjectKey("openshift-config", name));
  }

  lemma MachineSplits()
    ensures SplitKey(MakeKey(MACHINE_CREDS)) == Some(MACHINE_CREDS)
  {
    SplitKeyIff(MACHINE_CREDS);
  }

  lemma {:induction false} ConfigMapsRestoreWrites(w0: World, keys: set<ObjectKey>, saved: map<string, ConfigMap>,
      order: seq<string>)
    requires forall s :: s in saved ==> SplitKey(s) == Some(SOURCE_CONFIG)
    requires keys == w0.configMaps.Keys && SOURCE_CONFIG in keys && forall s :: s in order ==> s in saved
    ensures ConfigMapsRestore(keys, saved, order).complete
    ensures forall x :: x in ConfigMapsRestore(keys, saved, order).writes ==>
      BodyWrite(w0, x) && x.PutConfigMap? && x.key == SOURCE_CONFIG && exists s :: s in saved && x.configMap == saved[s]
  {
    hide SplitKey;
    if order != [] {
      var n := |order| - 1;
      assert order[n] in order;
      ConfigMapsRestoreWrites(w0, keys, saved, order[..n]);
    }
  }

  lemma {:induction false} SecretsRestoreWrites(w0: World, keys: set<ObjectKey>, saved: map<string, Data>,
      order: seq<string>)
    requires forall s :: s in saved ==>
      SplitKey(s).Some? && SplitKey(s).value in BACKUP_TARGETS && SplitKey(s).value in keys
    requires keys == w0.secrets.Keys && forall s :: s in order ==> s in saved
    ensures SecretsRestore(keys, saved, order).complete
    ensures forall x :: x in SecretsRestore(keys, saved, order).writes ==> BodyWrite(w0, x) && x.PutSecret?
  {
    hide SplitKey;
    if order != [] {
      var n := |order| - 1;
      assert order[n] in order;
      SecretsRestoreWrites(w0, keys, saved, order[..n]);
    }
  }

  lemma FaithfulSplits(w0: World, st: ClusterState)
    requires Faithful(w0, st)
    ensures forall s :: s in st.configMaps ==> SplitKey(s) == Some(SOURCE_CONFIG)
    ensures forall s :: s in st.secrets ==>
      SplitKey(s).Some? && SplitKey(s).value in BACKUP_TARGETS && SplitKey(s).value in w0.secrets
  {
    TargetsSplit();
    hide SplitKey, MakeKey;
    assert SOURCE_CONFIG in BACKUP_TARGETS + [SOURCE_CONFIG] by {
      assert (BACKUP_TARGETS + [SOURCE_CONFIG])[|BACKUP_TARGETS|] == SOURCE_CONFIG;
    }
    forall s | s in st.secrets
      ensures SplitKey(s).Some? && SplitKey(s).value in BACKUP_TARGETS && SplitKey(s).value in w0.secrets
    {
      var k :| k in BACKUP_TARGETS && k in w0.secrets && s == MakeKey(k);
      assert k in BACKUP_TARGETS + [SOURCE_CONFIG];
    }
  }

  lemma EnumeratedAreKeys(order: seq<string>, keys: set<string>)
    requires Enumerates(order, keys)
    ensures forall s :: s in order <==> s in keys
    ensures Distinct(order)
  {
    assert forall s :: s in order <==> s in (set x | x in order);
  }

  /** The writes of a Restore, and that they are all there. */
  lemma RestoreWrites(w0: World, w: World, configMapOrder: seq<string>, secretOrder: seq<string>)
    requires Inv(w0, w) && w.file.Saved? && WalksBackup(w, configMapOrder, secretOrder)
    ensures var st := w.file.state;
      var maps := ConfigMapsRestore(w.configMaps.Keys, st.configMaps, configMapOrder);
      var secrets := SecretsRestore(w.secrets.Keys, st.secrets, secretOrder);
      && SOURCE_CONFIG in w0.configMaps && maps.complete && secrets.complete
      && RestorePlan(w, configMapOrder, secretOrder) == Plan([PutInfra(w0.infra)] + maps.writes + secrets.writes, true)
      && (forall x :: x in maps.writes ==>
        BodyWrite(w0, x) && x == PutConfigMap(SOURCE_CONFIG, w0.configMaps[SOURCE_CONFIG]))
      && (forall x :: x in secrets.writes ==> BodyWrite(w0, x) && x.PutSecret?)
  {
    var st := w.file.state;
    FaithfulSplits(w0, st);
    EnumeratedAreKeys(configMapOrder, st.configMaps.Keys);
    EnumeratedAreKeys(secretOrder, st.secrets.Keys);
    hide SplitKey, MakeKey, Enumerates, BodyWrite, SpecFollows;
    ConfigMapsRestoreWrites(w0, w.configMaps.Keys, st.configMaps, configMapOrder);
    SecretsRestoreWrites(w0, w.secrets.Keys, st.secrets, secretOrder);
  }

  lemma RestoreKeepsInv(w0: World, w: World, configMapOrder: seq<string>, secretOrder: seq<string>, w': World)
    requires Inv(w0, w) && WalksBackup(w, configMapOrder, secretOrder)
    requires Prefix(w, RestorePlan(w, configMapOrder, secretOrder).writes, w')
    ensures Inv(w0, w') && w'.file == w.file
  {
    hide Inv, BodyWrite, WalksBackup, ConfigMapsRestore, SecretsRestore;
    if w.file.Saved? {
      RestoreWrites(w0, w, configMapOrder, secretOrder);
      var plan := RestorePlan(w, configMapOrder, secretOrder);
      forall x | x in plan.writes
        ensures BodyWrite(w0, x)
      {
        if x == PutInfra(w0.infra) { PutInfraIsBody(w0); }
      }
      PrefixKeepsInv(w0, w, plan.writes, w');
    }
  }

  lemma PutInfraIsBody(w0: World)
    ensures BodyWrite(w0, PutInfra(w0.infra))
  {
  }

  // ---------------------------------------------------------------- over whole runs

  lemma StartInv(w0: World)
    requires w0.file.Missing?
    ensures Inv(w0, w0)
  {
    SpecFollowsSelf(w0.infra.spec);
    hide SpecFollows;
  }

  lemma StepKeepsInv(t: Tools, w0: World, w: World, ev: Event, w': World)
    requires Inv(w0, w) && Step(t, w, ev, w')
    ensures Inv(w0, w') && (!w.file.Missing? ==> w'.file == w.file)
  {
    hide ApplyPlan, RestorePlan, Prefix, KeyPicked, WalksBackup, SpecFollows, Faithful;
    match ev
    case Applied(cfg, dryRun, key) => hide Inv; ApplyKeepsInv(t, w0, w, cfg, dryRun, key, w');
    case Restored(configMapOrder, secretOrder) => hide Inv; RestoreKeepsInv(w0, w, configMapOrder, secretOrder, w');
    case Reconciled(data) =>
      assert MACHINE_CREDS in BACKUP_TARGETS by { assert BACKUP_TARGETS[2] == MACHINE_CREDS; }
  }

  lemma {:induction false} RunKeepsInv(t: Tools, w0: World, h: seq<Entry>)
    requires Runs(t, w0, h) && w0.file.Missing?
    ensures Inv(w0, After(w0, h))
  {
    hide Inv, Step;
    if h == [] {
      StartInv(w0);
    } else {
      var n := |h| - 1;
      RunKeepsInv(t, w0, h[..n]);
      StepKeepsInv(t, w0, After(w0, h[..n]), h[n].event, h[n].after);
    }
  }

  /** Once the state file exists it never changes again. */
  lemma {:induction false} BackupIsWrittenOnce(t: Tools, w0: World, h: seq<Entry>, i: nat)
    requires Runs(t, w0, h) && w0.file.Missing? && i <= |h|
    ensures !After(w0, h[..i]).file.Missing? ==> After(w0, h).file == After(w0, h[..i]).file
  {
    hide Inv, Step;
    if i == |h| {
      assert h[..i] == h;
    } else {
      var n := |h| - 1;
      assert h[..n][..i] == h[..i];
      BackupIsWrittenOnce(t, w0, h[..n], i);
      RunKeepsInv(t, w0, h[..n]);
      StepKeepsInv(t, w0, After(w0, h[..n]), h[n].event, h[n].after);
    }
  }

  /** Until the backup is on disk nothing is touched, and what is on disk is the starting point. */
  lemma BackupComesFirst(t: Tools, w0: World, h: seq<Entry>)
    requires Runs(t, w0, h) && w0.file.Missing?
    ensures var w := After(w0, h);
      && (w.file.Missing? ==> w.infra == w0.infra && w.configMaps == w0.configMaps && SameSecrets(w0, w))
      && (w.file.Saved? ==> Faithful(w0, w.file.state))
  {
    RunKeepsInv(t, w0, h);
    hide SpecFollows, SameSecrets, Faithful;
  }

  function Splits(order: seq<string>): set<Option<ObjectKey>> {
    set s | s in order :: SplitKey(s)
  }

  /** after is before with the saved value under every split key of order, except the skipped ones. */
  ghost predicate Overwritten<V>(before: map<ObjectKey, V>, saved: map<string, V>, order: seq<string>,
      skip: set<ObjectKey>, after: map<ObjectKey, V>) {
    && (forall s :: s in order ==>
          && SplitKey(s).Some?
          && (SplitKey(s).value in skip || (s in saved && Lookup(after, SplitKey(s).value) == Some(saved[s]))))
    && (forall k :: Some(k) !in Splits(order) || k in skip ==> Lookup(after, k) == Lookup(before, k))
  }

  lemma OverwriteOneMore<V>(before: map<ObjectKey, V>, saved: map<string, V>, order: seq<string>, skip: set<ObjectKey>,
      after: map<ObjectKey, V>, s: string)
    requires Overwritten(before, saved, order, skip, after) && s !in order && SplitKey(s).Some?
    ensures SplitKey(s).value in skip ==> Overwritten(before, saved, order + [s], skip, after)
    ensures SplitKey(s).value !in skip && s in saved ==>
      Overwritten(before, saved, order + [s], skip, after[SplitKey(s).value := saved[s]])
  {
    forall r | r in order
      ensures SplitKey(r).Some? && SplitKey(r) != SplitKey(s)
    {
      JoinOfSplit(r);
      JoinOfSplit(s);
    }
    hide SplitKey, MakeKey;
    assert Splits(order + [s]) == Splits(order) + {SplitKey(s)};
  }

  lemma ConfigMapsOneMore(keys: set<ObjectKey>, saved: map<string, ConfigMap>, order: seq<string>)
    requires order != [] && ConfigMapsRestore(keys, saved, order).complete
    ensures var n := |order| - 1;
      && SplitKey(order[n]).Some? && order[n] in saved
      && ConfigMapsRestore(keys, saved, order[..n]).complete
      && ConfigMapsRestore(keys, saved, order).writes ==
        ConfigMapsRestore(keys, saved, order[..n]).writes + [PutConfigMap(SplitKey(order[n]).value, saved[order[n]])]
  {
    hide SplitKey;
  }

  lemma {:induction false} ConfigMapsRestored(w: World, keys: set<ObjectKey>, saved: map<string, ConfigMap>,
      order: seq<string>)
    requires ConfigMapsRestore(keys, saved, order).complete
    requires Distinct(order)
    ensures var w' := DoAll(w, ConfigMapsRestore(keys, saved, order).writes);
      w' == w.(configMaps := w'.configMaps) && Overwritten(w.configMaps, saved, order, {}, w'.configMaps)
  {
    hide SplitKey;
    if order != [] {
      hide Overwritten, DoAll, ConfigMapsRestore, Distinct;
      var n := |order| - 1;
      DistinctInit(order);
      ConfigMapsOneMore(keys, saved, order);
      ConfigMapsRestored(w, keys, saved, order[..n]);
      var s, before := order[n], ConfigMapsRestore(keys, saved, order[..n]).writes;
      var put := PutConfigMap(SplitKey(s).value, saved[s]);
      DoAllAppend(w, before, [put]);
      DoOne(DoAll(w, before), put);
      OverwriteOneMore(w.configMaps, saved, order[..n], {}, DoAll(w, before).configMaps, s);
      assert order == order[..n] + [s];
    }
  }

  lemma {:induction false} SecretsRestored(w: World, keys: set<ObjectKey>, saved: map<string, Data>, order: seq<string>)
    requires SecretsRestore(keys, saved, order).complete
    requires Distinct(order)
    ensures var w' := DoAll(w, SecretsRestore(keys, saved, order).writes);
      w' == w.(secrets := w'.secrets) && Overwritten(w.secrets, saved, order, {MACHINE_CREDS}, w'.secrets)
  {
    hide SplitKey;
    if order != [] {
      hide Overwritten, Distinct;
      var n := |order| - 1;
      DistinctInit(order);
      SecretsRestored(w, keys, saved, order[..n]);
      var w1 := DoAll(w, SecretsRestore(keys, saved, order[..n]).writes);
      var last := SecretRestore(keys, saved, order[n]);
      DoAllAppend(w, SecretsRestore(keys, saved, order[..n]).writes, last.writes);
      if last.writes != [] { DoOne(w1, last.writes[0]); }
      OverwriteOneMore(w.secrets, saved, order[..n], {MACHINE_CREDS}, w1.secrets, order[n]);
      assert order == order[..n] + [order[n]];
    }
  }

  /** In any world a run can reach, a Restore can get to its end exactly when the backup is whole. */
  lemma {:induction false} RestoreCompletesIff(t: Tools, w0: World, h: seq<Entry>, configMapOrder: seq<string>,
      secretOrder: seq<string>)
    requires Runs(t, w0, h) && w0.file.Missing? && WalksBackup(After(w0, h), configMapOrder, secretOrder)
    ensures RestorePlan(After(w0, h), configMapOrder, secretOrder).complete <==> After(w0, h).file.Saved?
  {
    RunKeepsInv(t, w0, h);
    if After(w0, h).file.Saved? {
      RestoreWrites(w0, After(w0, h), configMapOrder, secretOrder);
    }
  }

  /**
   A Restore that finishes its writes brings back the first Infrastructure, the first
   config maps and every first credential secret, whatever ran before and whatever order
   the maps are walked in.
   */
  lemma {:induction false} RestoreReturnsToStart(t: Tools, w0: World, h: seq<Entry>, configMapOrder: seq<string>,
      secretOrder: seq<string>)
    requires Runs(t, w0, h) && w0.file.Missing? && WalksBackup(After(w0, h), configMapOrder, secretOrder)
    requires After(w0, h).file.Saved?
    ensures var w' := DoAll(After(w0, h), RestorePlan(After(w0, h), configMapOrder, secretOrder).writes);
      w'.infra == w0.infra && w'.configMaps == w0.configMaps && SameSecrets(w0, w')
  {
    var w := After(w0, h);
    RunKeepsInv(t, w0, h);
    RestoreWrites(w0, w, configMapOrder, secretOrder);
    RestoredWorld(w0, w, configMapOrder, secretOrder);
  }

  lemma RestoredWorld(w0: World, w: World, configMapOrder: seq<string>, secretOrder: seq<string>)
    requires Inv(w0, w) && w.file.Saved? && WalksBackup(w, configMapOrder, secretOrder)
    ensures var w' := DoAll(w, RestorePlan(w, configMapOrder, secretOrder).writes);
      w'.infra == w0.infra && w'.configMaps == w0.configMaps && SameSecrets(w0, w')
  {
    hide Inv, Overwritten, Enumerates, ConfigMapsRestore, SecretsRestore, RestorePlan, BodyWrite, SameSecrets;
    RestoreWrites(w0, w, configMapOrder, secretOrder);
    var st := w.file.state;
    var maps := ConfigMapsRestore(w.configMaps.Keys, st.configMaps, configMapOrder);
    var secrets := SecretsRestore(w.secrets.Keys, st.secrets, secretOrder);
    var w1 := w.(infra := w0.infra);
    var w2 := DoAll(w1, maps.writes);
    var w3 := DoAll(w2, secrets.writes);
    EnumeratedAreKeys(configMapOrder, st.configMaps.Keys);
    EnumeratedAreKeys(secretOrder, st.secrets.Keys);
    ConfigMapsRestored(w1, w.configMaps.Keys, st.configMaps, configMapOrder);
    SecretsRestored(w2, w.secrets.Keys, st.secrets, secretOrder);
    RestoredConfigMaps(w0, w, w2.configMaps, configMapOrder);
    RestoredSecrets(w0, w, w3.secrets, secretOrder);
    DoOne(w, PutInfra(w0.infra));
    DoAllAppend(w, [PutInfra(w0.infra)], maps.writes);
    DoAllAppend(w, [PutInfra(w0.infra)] + maps.writes, secrets.writes);
    SameSecretsOf(w0, w.(secrets := w3.secrets), w3);
  }

  lemma SameSecretsOf(w0: World, a: World, b: World)
    requires SameSecrets(w0, a) && a.secrets == b.secrets
    ensures SameSecrets(w0, b)
  {
  }

  lemma RestoredConfigMaps(w0: World, w: World, after: map<ObjectKey, ConfigMap>, order: seq<string>)
    requires Inv(w0, w) && w.file.Saved? && forall s :: s in order <==> s in w.file.state.configMaps
    requires Overwritten(w.configMaps, w.file.state.configMaps, order, {}, after)
    ensures after == w0.configMaps
  {
    FaithfulSplits(w0, w.file.state);
    hide SplitKey, MakeKey, SpecFollows;
    assert MakeKey(SOURCE_CONFIG) in w.file.state.configMaps;
    SameMap(after, w0.configMaps);
  }

  lemma SameMap<K, V>(m: map<K, V>, n: map<K, V>)
    ensures (forall k :: Lookup(m, k) == Lookup(n, k)) ==> m == n
  {
    assert forall k :: k in m <==> Lookup(m, k).Some?;
    assert forall k :: k in n <==> Lookup(n, k).Some?;
  }

  lemma RestoredSecrets(w0: World, w: World, after: map<ObjectKey, Data>, order: seq<string>)
    requires Inv(w0, w) && w.file.Saved? && forall s :: s in order <==> s in w.file.state.secrets
    requires Overwritten(w.secrets, w.file.state.secrets, order, {MACHINE_CREDS}, after)
    ensures SameSecrets(w0, w.(secrets := after))
  {
    hide Inv, Overwritten;
    forall k
      ensures Lookup(after, k).Some? <==> k in w0.secrets
      ensures k in w0.secrets && k != MACHINE_CREDS ==> Lookup(after, k) == Some(w0.secrets[k])
    {
      if k in BACKUP_TARGETS && k != MACHINE_CREDS && k in w0.secrets {
        SavedSecretIsBack(w0, w, after, order, k);
      } else {
        OtherSecretStays(w0, w, after, order, k);
      }
    }
    assert forall k :: k in after <==> Lookup(after, k).Some?;
  }

  lemma OtherSecretStays(w0: World, w: World, after: map<ObjectKey, Data>, order: seq<string>, k: ObjectKey)
    requires Inv(w0, w) && w.file.Saved? && forall s :: s in order <==> s in w.file.state.secrets
    requires Overwritten(w.secrets, w.file.state.secrets, order, {MACHINE_CREDS}, after)
    requires !(k in BACKUP_TARGETS && k != MACHINE_CREDS && k in w0.secrets)
    ensures Lookup(after, k).Some? <==> k in w0.secrets
    ensures k in w0.secrets && k != MACHINE_CREDS ==> Lookup(after, k) == Some(w0.secrets[k])
  {
    FaithfulSplits(w0, w.file.state);
    hide SplitKey, MakeKey, SpecFollows, Faithful, SameSecrets;
    assert k != MACHINE_CREDS ==> Some(k) !in Splits(order);
  }

  lemma SavedSecretIsBack(w0: World, w: World, after: map<ObjectKey, Data>, order: seq<string>, k: ObjectKey)
    requires Inv(w0, w) && w.file.Saved? && forall s :: s in order <==> s in w.file.state.secrets
    requires Overwritten(w.secrets, w.file.state.secrets, order, {MACHINE_CREDS}, after)
    requires k in BACKUP_TARGETS && k != MACHINE_CREDS && k in w0.secrets
    ensures Lookup(after, k) == Some(w0.secrets[k])
  {
    TargetsSplit();
    hide SplitKey, MakeKey, SpecFollows;
    assert k in BACKUP_TARGETS + [SOURCE_CONFIG];
    assert MakeKey(k) in order;
  }
}
