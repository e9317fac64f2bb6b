/**
 More that holds over runs of the lab tool: the spec stays valid and every patch is a
 replacement; no vCenter of the Infrastructure is ever missing from the cloud provider
 config, because Apply writes the config before the spec and Restore the spec before the
 config; a dry run predicts the real one; and what a half-written state file costs.
 */
module LabChecks {
  import opened Wrappers
  import opened MergePatch
  import opened Infrastructure
  import opened LabPlan
  import opened LabSafety
  import CloudConfig
  import Credentials

  /** Servers stay distinct, at most three, and no failure domain points outside them. */
  lemma SpecStaysOk(t: Tools, w0: World, h: seq<Entry>)
    requires Runs(t, w0, h) && w0.file.Missing? && SpecOk(w0.infra.spec)
    ensures SpecOk(After(w0, h).infra.spec)
  {
    RunKeepsInv(t, w0, h);
    hide SpecOk, Faithful, SameSecrets;
  }

  /** In every reachable world the merge patch that an Apply would send replaces the spec with the one it built. */
  lemma EveryPatchReplaces(t: Tools, w0: World, h: seq<Entry>, cfg: LabConfig, e: Elements,
      infraJson: map<string, Json>)
    requires Runs(t, w0, h) && w0.file.Missing? && RestOk(w0.infra.spec)
    requires "spec" in infraJson && infraJson["spec"] == EncodeSpec(e, After(w0, h).infra.spec)
    requires Build(After(w0, h).infra.spec, cfg).Some?
    ensures var patch := Obj(map["spec" := EncodeSpec(e, Build(After(w0, h).infra.spec, cfg).value)]);
      Merge(Obj(infraJson), patch) == Obj(infraJson["spec" := EncodeSpec(e, Build(After(w0, h).infra.spec, cfg).value)])
  {
    RunKeepsInv(t, w0, h);
    hide SpecOk, RestOk, Faithful, SameSecrets, EncodeSpec, Build;
    ApplyPatchReplacesSpec(e, infraJson, After(w0, h).infra.spec, cfg);
  }

  /** A dry run changes nothing, and gets to its end exactly when the real call can. */
  lemma DryRunPredicts(t: Tools, w: World, cfg: LabConfig, key: string, w': World)
    requires Prefix(w, ApplyPlan(t, w, cfg, true, key).writes, w')
    ensures w' == w
    ensures ApplyPlan(t, w, cfg, true, key).complete <==> ApplyPlan(t, w, cfg, false, key).complete
  {
    hide Validate, Admitted, SecretsPlan, SpecPlan, Capture, CloudConfig.MergeConfig;
  }

  /**
   When saving the backup dies half-way, the next Apply takes the torn file for a backup:
   it goes through, and from then on no Restore can succeed.
   */
  lemma TornBackupLosesStart(t: Tools, w: World, cfg: LabConfig, key: string, configMapOrder: seq<string>,
      secretOrder: seq<string>)
    requires w.file.Missing? && KeyPicked(w, key) && ApplyPlan(t, w, cfg, false, key).complete
    ensures var torn := w.(file := Torn);
      var done := DoAll(torn, ApplyPlan(t, torn, cfg, false, key).writes);
      var h := [Entry(Applied(cfg, false, key), torn), Entry(Applied(cfg, false, key), done)];
      && Runs(t, w, h) && ApplyPlan(t, torn, cfg, false, key).complete
      && done.infra.spec == Build(w.infra.spec, Validate(cfg).value).value != w.infra.spec
      && done.file.Torn? && !RestorePlan(done, configMapOrder, secretOrder).complete
  {
    var torn := w.(file := Torn);
    var plan := ApplyPlan(t, torn, cfg, false, key);
    var done := DoAll(torn, plan.writes);
    var built := Build(w.infra.spec, Validate(cfg).value).value;
    TornPlan(t, w, cfg, key);
    hide ApplyPlan, KeyPicked, DoAll, Prefix, Build, Validate;
    LastPatch(torn, plan.writes, built);
    FullIsPrefix(torn, plan.writes);
    SameKeyPicked(w, torn, key);
    DiesSaving(w, ApplyPlan(t, w, cfg, false, key).writes);
    TwoSteps(t, w, Entry(Applied(cfg, false, key), torn), Entry(Applied(cfg, false, key), done));
  }

  lemma DiesSaving(w: World, writes: seq<Write>)
    requires writes != [] && writes[0].Save?
    ensures Prefix(w, writes, w.(file := Torn))
  {
  }

  lemma TwoSteps(t: Tools, w: World, e0: Entry, e1: Entry)
    requires Step(t, w, e0.event, e0.after) && Step(t, e0.after, e1.event, e1.after)
    ensures Runs(t, w, [e0, e1]) && After(w, [e0, e1]) == e1.after
  {
    hide Step;
    assert [e0, e1][..1] == [e0] && [e0][..0] == [];
    assert Runs(t, w, [e0]);
  }

  lemma SameKeyPicked(w: World, w': World, key: string)
    requires KeyPicked(w, key) && w.secrets == w'.secrets
    ensures KeyPicked(w', key)
  {
  }

  lemma TornPlan(t: Tools, w: World, cfg: LabConfig, key: string)
    requires w.file.Missing? && ApplyPlan(t, w, cfg, false, key).complete
    ensures var torn := w.(file := Torn);
      var plan := ApplyPlan(t, torn, cfg, false, key);
      && Validate(cfg).Some? && Build(w.infra.spec, Validate(cfg).value).Some?
      && Build(w.infra.spec, Validate(cfg).value).value != w.infra.spec
      && plan.complete && plan.writes != []
      && plan.writes[|plan.writes| - 1] == PatchSpec(Build(w.infra.spec, Validate(cfg).value).value)
      && (forall x :: x in plan.writes ==> !x.Save?)
      && ApplyPlan(t, w, cfg, false, key).writes != [] && ApplyPlan(t, w, cfg, false, key).writes[0].Save?
  {
    hide Validate, Capture, CloudConfig.MergeConfig, Credentials.PerVCenter, Credentials.MergeAt;
    var valid := Validate(cfg).value;
    var built := Build(w.infra.spec, valid).value;
    assert |VCentersOf(built)| == |VCentersOf(w.infra.spec)| + 1;
    hide Build;
    assert forall x :: x in CredentialsPlan(t, w, valid.second, key).writes ==> !x.Save?;
  }

  lemma LastPatch(w: World, writes: seq<Write>, built: Spec)
    requires writes != [] && writes[|writes| - 1] == PatchSpec(built) && forall x :: x in writes ==> !x.Save?
    ensures DoAll(w, writes).infra.spec == built && DoAll(w, writes).file == w.file
  {
    var init := writes[..|writes| - 1];
    assert writes == init + [PatchSpec(built)];
    DoAllAppend(w, init, [PatchSpec(built)]);
    DoOne(DoAll(w, init), PatchSpec(built));
    SameFile(w, init);
  }

  lemma {:induction false} SameFile(w: World, writes: seq<Write>)
    requires forall x :: x in writes ==> !x.Save?
    ensures DoAll(w, writes).file == w.file
    decreases |writes|
  {
    if writes != [] {
      assert writes[0] in writes;
      SameFile(Do(w, writes[0]), writes[1..]);
    }
  }

  // ---------------------------------------------------------------- the cloud provider config

  function ConfigText(w: World): string {
    Lookup(Lookup(w.configMaps, SOURCE_CONFIG).GetOr(ConfigMap(map[], map[])).data, CONFIG_KEY).GetOr("")
  }

  /** The config parses, each entry serves its own key, and it serves every vCenter of the two specs. */
  predicate Serves(t: Tools, text: string, a: Spec, b: Spec) {
    var cfg := t.cloud.parse(text);
    && cfg.Some? && CloudConfig.WellKeyed(cfg.value)
    && CloudConfig.Present(a, cfg.value) && CloudConfig.Present(b, cfg.value)
  }

  /** Merging keeps every vCenter of any spec and adds the new one. */
  lemma MergeStillServes(t: Tools, text: string, a: Spec, b: Spec, cfg: LabConfig)
    requires CloudConfig.Inverse(t.cloud) && Serves(t, text, a, b)
    requires cfg.second.server != "" && cfg.second.password.Some? && Build(b, cfg).Some?
    ensures var merged := CloudConfig.MergeConfig(t.cloud.parse(text), b, cfg.second, cfg.second.password.value);
      Serves(t, t.cloud.render(merged), a, b) && Serves(t, t.cloud.render(merged), a, Build(b, cfg).value)
  {
    var before := t.cloud.parse(text).value;
    var merged := CloudConfig.MergeConfig(Some(before), b, cfg.second, cfg.second.password.value);
    CloudConfig.MergedIsReadBack(text, t.cloud, b, cfg.second, cfg.second.password.value);
    CloudConfig.BuiltServers(b, cfg);
    hide Build;
    WellKeyedServers(before);
    WellKeyedServers(merged);
  }

  lemma WellKeyedServers(cfg: CloudConfig.Config)
    requires CloudConfig.WellKeyed(cfg)
    ensures CloudConfig.ConfigServers(cfg) == cfg.vcenter.Keys
  {
    forall k | k in cfg.vcenter
      ensures k in CloudConfig.ConfigServers(cfg)
    {
      assert CloudConfig.ServerOf(cfg, k) == k;
    }
  }

  /** Writes that leave the Infrastructure and the config maps alone. */
  lemma {:induction false} QuietPrefix(w: World, writes: seq<Write>, w': World)
    requires Prefix(w, writes, w') && forall x :: x in writes ==> x.Save? || x.PutSecret?
    ensures w'.infra == w.infra && w'.configMaps == w.configMaps
    decreases |writes|
  {
    if w' != w {
      assert writes[0] in writes;
      if Prefix(Do(w, writes[0]), writes[1..], w') { QuietPrefix(Do(w, writes[0]), writes[1..], w'); }
    }
  }

  lemma UpdateKeepsServing(t: Tools, w: World, w1: World, cfg: LabConfig, key: string, start: Spec, w': World)
    requires CloudConfig.Inverse(t.cloud) && Serves(t, ConfigText(w), start, w.infra.spec) && cfg.second.server != ""
    requires w1.infra == w.infra && w1.configMaps == w.configMaps && Prefix(w1, UpdatePlan(t, w, cfg, key).writes, w')
    ensures Serves(t, ConfigText(w'), start, w'.infra.spec)
  {
    hide Serves, Prefix, CloudConfig.Inverse, CloudConfig.MergeConfig, RootSecretPlan, CloudSecretPlan, Build;
    var cm := Lookup(w.configMaps, SOURCE_CONFIG);
    if cm.None? || cfg.second.password.None? {
      PrefixOfNothing(w1, w');
    } else {
      var put := ConfigPlan(t, cm, w.infra.spec, cfg.second).writes[0];
      var secrets := SecretsPlan(t, Lookup(w.secrets, ROOT_CREDS), Lookup(w.secrets, CLOUD_CREDS), cfg.second, key);
      var last := if secrets.complete then SpecPlan(w.infra.spec, cfg).writes else [];
      assert UpdatePlan(t, w, cfg, key).writes == [put] + (secrets.writes + last);
      PrefixAppend(w1, [put], secrets.writes + last, w');
      DoOne(w1, put);
      var w2 := Do(w1, put);
      if Prefix(w1, [put], w') {
        PrefixOfOne(w1, put, w');
      }
      ConfigWritten(t, w, w2, cfg, start);
      SecretsPlanQuiet(t, Lookup(w.secrets, ROOT_CREDS), Lookup(w.secrets, CLOUD_CREDS), cfg.second, key);
      if Prefix(w2, secrets.writes + last, w') {
        SecretsAndSpec(t, w2, secrets, last, start, w');
      }
    }
  }

  lemma SecretsPlanQuiet(t: Tools, root: Option<Data>, cloud: Option<Data>, vc: VCenterConfig, key: string)
    ensures forall x :: x in SecretsPlan(t, root, cloud, vc, key).writes ==> x.PutSecret?
  {
    hide Credentials.MergeAt, Credentials.PerVCenter;
  }

  lemma PrefixOfOne(w: World, x: Write, w': World)
    requires Prefix(w, [x], w') && !x.Save?
    ensures w' == w || w' == Do(w, x)
  {
    assert [x][1..] == [];
  }

  /** The merged config serves the old spec and the one about to be patched in. */
  lemma ConfigWritten(t: Tools, w: World, w2: World, cfg: LabConfig, start: Spec)
    requires CloudConfig.Inverse(t.cloud) && Serves(t, ConfigText(w), start, w.infra.spec)
    requires SOURCE_CONFIG in w.configMaps && cfg.second.password.Some? && cfg.second.server != ""
    requires w2.infra == w.infra
    requires var put := ConfigPlan(t, Lookup(w.configMaps, SOURCE_CONFIG), w.infra.spec, cfg.second).writes[0];
      w2.configMaps == w.configMaps[SOURCE_CONFIG := put.configMap]
    ensures Serves(t, ConfigText(w2), start, w2.infra.spec)
    ensures Build(w.infra.spec, cfg).Some? ==> Serves(t, ConfigText(w2), start, Build(w.infra.spec, cfg).value)
  {
    hide CloudConfig.MergeConfig, CloudConfig.Inverse;
    assert Build(w.infra.spec, cfg).Some? by {
      assert CloudConfig.Present(w.infra.spec, t.cloud.parse(ConfigText(w)).value);
    }
    hide Serves;
    MergeStillServes(t, ConfigText(w), start, w.infra.spec, cfg);
  }

  lemma SecretsAndSpec(t: Tools, w: World, secrets: Plan, last: seq<Write>, start: Spec, w': World)
    requires Serves(t, ConfigText(w), start, w.infra.spec)
    requires last == [] || exists spec :: last == [PatchSpec(spec)] && Serves(t, ConfigText(w), start, spec)
    requires (forall x :: x in secrets.writes ==> x.PutSecret?) && Prefix(w, secrets.writes + last, w')
    ensures Serves(t, ConfigText(w'), start, w'.infra.spec)
  {
    hide Serves, Prefix;
    PrefixAppend(w, secrets.writes, last, w');
    var w3 := DoAll(w, secrets.writes);
    FullIsPrefix(w, secrets.writes);
    QuietPrefix(w, secrets.writes, w3);
    if Prefix(w, secrets.writes, w') {
      QuietPrefix(w, secrets.writes, w');
    } else if last == [] {
      PrefixOfNothing(w3, w');
    } else {
      PrefixOfOne(w3, last[0], w');
    }
  }

  lemma ApplyKeepsServing(t: Tools, w: World, cfg: LabConfig, dryRun: bool, key: string, start: Spec, w': World)
    requires CloudConfig.Inverse(t.cloud) && Serves(t, ConfigText(w), start, w.infra.spec)
    requires Prefix(w, ApplyPlan(t, w, cfg, dryRun, key).writes, w')
    ensures Serves(t, ConfigText(w'), start, w'.infra.spec)
  {
    hide Serves, Prefix, CloudConfig.Inverse, UpdatePlan, Capture, ConfigText, Admitted;
    var valid := Validate(cfg);
    if ApplyPlan(t, w, cfg, dryRun, key).writes == [] {
      PrefixOfNothing(w, w');
    } else {
      var backup, upd := BackupPlan(w).writes, UpdatePlan(t, w, valid.value, key).writes;
      assert ApplyPlan(t, w, cfg, dryRun, key).writes == backup + upd;
      PrefixAppend(w, backup, upd, w');
      var w1 := DoAll(w, backup);
      FullIsPrefix(w, backup);
      QuietPrefix(w, backup, w1);
      if Prefix(w, backup, w') {
        QuietPrefix(w, backup, w');
        SameConfigText(w, w');
      } else {
        UpdateKeepsServing(t, w, w1, valid.value, key, start, w');
      }
    }
  }

  lemma SameConfigText(w: World, w': World)
    requires w'.configMaps == w.configMaps
    ensures ConfigText(w') == ConfigText(w)
  {
  }

  /** Writes of a Restore after the Infrastructure: the config is the one before or the first one. */
  lemma {:induction false} RestoringPrefix(w0: World, w: World, writes: seq<Write>, w': World)
    requires Prefix(w, writes, w') && SOURCE_CONFIG in w0.configMaps
    requires forall x :: x in writes ==> x.PutSecret? || x == PutConfigMap(SOURCE_CONFIG, w0.configMaps[SOURCE_CONFIG])
    ensures w'.infra == w.infra && (ConfigText(w') == ConfigText(w) || ConfigText(w') == ConfigText(w0))
    decreases |writes|
  {
    if w' != w {
      assert writes[0] in writes;
      RestoringPrefix(w0, Do(w, writes[0]), writes[1..], w');
    }
  }

  lemma RestoreKeepsServing(t: Tools, w0: World, w: World, configMapOrder: seq<string>, secretOrder: seq<string>,
      w': World)
    requires Inv(w0, w) && WalksBackup(w, configMapOrder, secretOrder)
    requires Serves(t, ConfigText(w0), w0.infra.spec, w0.infra.spec)
    requires Serves(t, ConfigText(w), w0.infra.spec, w.infra.spec)
    requires Prefix(w, RestorePlan(w, configMapOrder, secretOrder).writes, w')
    ensures Serves(t, ConfigText(w'), w0.infra.spec, w'.infra.spec)
  {
    hide Inv, Prefix, WalksBackup, ConfigMapsRestore, SecretsRestore, BodyWrite, ConfigText, CloudConfig.WellKeyed,
      CloudConfig.Present;
    if !w.file.Saved? {
      PrefixOfNothing(w, w');
    } else {
      RestoreWrites(w0, w, configMapOrder, secretOrder);
      var maps := ConfigMapsRestore(w.configMaps.Keys, w.file.state.configMaps, configMapOrder).writes;
      var secrets := SecretsRestore(w.secrets.Keys, w.file.state.secrets, secretOrder).writes;
      var put := PutInfra(w0.infra);
      hide RestorePlan;
      assert [put] + maps + secrets == [put] + (maps + secrets);
      PrefixAppend(w, [put], maps + secrets, w');
      DoOne(w, put);
      var w1 := Do(w, put);
      SameConfigText(w, w1);
      if Prefix(w, [put], w') {
        PrefixOfOne(w, put, w');
      } else {
        RestoringPrefix(w0, w1, maps + secrets, w');
      }
    }
  }

  /**
   At every point of every run, whatever died where, each vCenter of the Infrastructure
   (and each of the first one) is served by the cloud provider config, if it was at the start.
   */
  lemma {:induction false} NoDanglingVCenter(t: Tools, w0: World, h: seq<Entry>)
    requires CloudConfig.Inverse(t.cloud) && Runs(t, w0, h) && w0.file.Missing?
    requires Serves(t, ConfigText(w0), w0.infra.spec, w0.infra.spec)
    ensures Serves(t, ConfigText(After(w0, h)), w0.infra.spec, After(w0, h).infra.spec)
  {
    hide Serves, CloudConfig.Inverse, Inv, ApplyPlan, RestorePlan, Prefix, KeyPicked, WalksBackup, ConfigText;
    if h != [] {
      var n := |h| - 1;
      var w, w' := After(w0, h[..n]), h[n].after;
      NoDanglingVCenter(t, w0, h[..n]);
      RunKeepsInv(t, w0, h[..n]);
      match h[n].event
      case Applied(cfg, dryRun, key) => ApplyKeepsServing(t, w, cfg, dryRun, key, w0.infra.spec, w');
      case Restored(configMapOrder, secretOrder) => RestoreKeepsServing(t, w0, w, configMapOrder, secretOrder, w');
      case Reconciled(_) => SameConfigText(w, w');
    }
  }

  lemma AdmittedServer(cfg: LabConfig)
    requires Validate(cfg).Some?
    ensures Validate(cfg).value.second.server != "" && Validate(cfg).value.second.password.Some?
  {
  }

  /** The YAML secret, when there is one, can be merged under this key. */
  predicate Mergeable(t: Tools, w: World, vc: VCenterConfig, key: string) {
    CLOUD_CREDS in w.secrets ==> Credentials.MergeAt(t.creds, w.secrets[CLOUD_CREDS], vc, key).Ok?
  }

  function MergedConfigMap(t: Tools, w: World, vc: VCenterConfig): ConfigMap
    requires vc.password.Some? && SOURCE_CONFIG in w.configMaps
  {
    var cm := w.configMaps[SOURCE_CONFIG];
    var merged := CloudConfig.MergeConfig(t.cloud.parse(ConfigText(w)), w.infra.spec, vc, vc.password.value);
    cm.(data := cm.data[CONFIG_KEY := t.cloud.render(merged)])
  }

  function MergedSecrets(t: Tools, w: World, vc: VCenterConfig, key: string): map<ObjectKey, Data>
    requires vc.password.Some? && Mergeable(t, w, vc, key)
  {
    var s := if ROOT_CREDS in w.secrets
             then w.secrets[ROOT_CREDS := Credentials.PerVCenter(w.secrets[ROOT_CREDS], vc)]
             else w.secrets;
    if CLOUD_CREDS in w.secrets
    then s[CLOUD_CREDS := Credentials.MergeAt(t.creds, w.secrets[CLOUD_CREDS], vc, key).value]
    else s
  }

  /** When Apply can get to its end, for a config that is valid. */
  predicate CanFinish(t: Tools, w: World, cfg: LabConfig, key: string) {
    && cfg.second.password.Some? && Admitted(w, cfg)
    && SOURCE_CONFIG in w.configMaps && w.infra.spec.vsphere.Some? && Mergeable(t, w, cfg.second, key)
  }

  /** Everything a whole Apply changes, for a config that is valid. */
  function AfterApply(t: Tools, w: World, cfg: LabConfig, key: string): World
    requires CanFinish(t, w, cfg, key)
  {
    World(
      w.infra.(spec := Build(w.infra.spec, cfg).value),
      w.configMaps[SOURCE_CONFIG := MergedConfigMap(t, w, cfg.second)],
      MergedSecrets(t, w, cfg.second, key),
      w.gate,
      if w.file.Missing? then Saved(Capture(w)) else w.file)
  }

  lemma ApplyFinishesIff(t: Tools, w: World, cfg: LabConfig, key: string)
    ensures ApplyPlan(t, w, cfg, false, key).complete <==>
      Validate(cfg).Some? && CanFinish(t, w, Validate(cfg).value, key)
  {
    hide Validate, Admitted, Capture, CloudConfig.MergeConfig, Credentials.PerVCenter, Credentials.MergeAt;
    if Validate(cfg).Some? { AdmittedServer(cfg); }
  }

  lemma WholePlan(t: Tools, w: World, cfg: LabConfig, key: string)
    requires Validate(cfg).Some? && CanFinish(t, w, Validate(cfg).value, key)
    ensures var valid := Validate(cfg).value;
      ApplyPlan(t, w, cfg, false, key).writes ==
        BackupPlan(w).writes
        + (([PutConfigMap(SOURCE_CONFIG, MergedConfigMap(t, w, valid.second))]
            + (RootSecretPlan(Lookup(w.secrets, ROOT_CREDS), valid.second).writes
               + CloudSecretPlan(t, Lookup(w.secrets, CLOUD_CREDS), valid.second, key).writes))
           + [PatchSpec(Build(w.infra.spec, valid).value)])
  {
    hide Validate, Admitted, Capture, CloudConfig.MergeConfig, Credentials.PerVCenter, Credentials.MergeAt;
  }

  /** The complete effect of an Apply that finishes. */
  lemma {:induction false} WholeApply(t: Tools, w: World, cfg: LabConfig, key: string)
    requires ApplyPlan(t, w, cfg, false, key).complete
    ensures Validate(cfg).Some? && CanFinish(t, w, Validate(cfg).value, key)
    ensures DoAll(w, ApplyPlan(t, w, cfg, false, key).writes) == AfterApply(t, w, Validate(cfg).value, key)
  {
    ApplyFinishesIff(t, w, cfg, key);
    WholePlan(t, w, cfg, key);
    hide Validate, Admitted, Build, Capture, MergedConfigMap, MergedSecrets, Mergeable,
      ApplyPlan, BackupPlan, RootSecretPlan, CloudSecretPlan, DoAll;
    var vc := Validate(cfg).value.second;
    var root := RootSecretPlan(Lookup(w.secrets, ROOT_CREDS), vc);
    var cloud := CloudSecretPlan(t, Lookup(w.secrets, CLOUD_CREDS), vc, key);
    var put := PutConfigMap(SOURCE_CONFIG, MergedConfigMap(t, w, vc));
    Segments(w, BackupPlan(w).writes, put, root.writes, cloud.writes,
      PatchSpec(Build(w.infra.spec, Validate(cfg).value).value));
    BackupDone(w);
    SecretsDone(t, w, Do(DoAll(w, BackupPlan(w).writes), put), vc, key);
  }

  lemma BackupDone(w: World)
    requires SOURCE_CONFIG in w.configMaps
    ensures DoAll(w, BackupPlan(w).writes) == w.(file := if w.file.Missing? then Saved(Capture(w)) else w.file)
  {
    hide Capture;
    if w.file.Missing? { DoOne(w, Save(Capture(w))); }
  }

  lemma SecretsDone(t: Tools, w: World, x: World, vc: VCenterConfig, key: string)
    requires x.secrets == w.secrets && vc.password.Some? && Mergeable(t, w, vc, key)
    ensures DoAll(DoAll(x, RootSecretPlan(Lookup(w.secrets, ROOT_CREDS), vc).writes),
        CloudSecretPlan(t, Lookup(w.secrets, CLOUD_CREDS), vc, key).writes)
      == x.(secrets := MergedSecrets(t, w, vc, key))
  {
    hide Credentials.MergeAt, Credentials.PerVCenter;
    var root := RootSecretPlan(Lookup(w.secrets, ROOT_CREDS), vc).writes;
    var cloud := CloudSecretPlan(t, Lookup(w.secrets, CLOUD_CREDS), vc, key).writes;
    var x1 := DoAll(x, root);
    if root != [] { DoOne(x, root[0]); }
    if cloud != [] { DoOne(x1, cloud[0]); }
  }

  lemma Segments(w: World, backup: seq<Write>, put: Write, root: seq<Write>, cloud: seq<Write>, patch: Write)
    ensures DoAll(w, backup + (([put] + (root + cloud)) + [patch])) ==
      Do(DoAll(DoAll(Do(DoAll(w, backup), put), root), cloud), patch)
  {
    hide DoAll, Do;
    var w1 := DoAll(w, backup);
    DoAllAppend(w, backup, ([put] + (root + cloud)) + [patch]);
    DoAllAppend(w1, [put] + (root + cloud), [patch]);
    DoAllAppend(w1, [put], root + cloud);
    DoAllAppend(Do(w1, put), root, cloud);
    DoOne(w1, put);
    DoOne(DoAll(DoAll(Do(w1, put), root), cloud), patch);
  }

  /** A whole Apply also leaves nothing stale; an unreadable config is rebuilt so that it passes. */
  lemma WholeApplyPassesChecks(t: Tools, w: World, cfg: LabConfig, key: string)
    requires CloudConfig.Inverse(t.cloud) && ApplyPlan(t, w, cfg, false, key).complete
    requires var before := t.cloud.parse(ConfigText(w));
      before.Some? ==>
        && CloudConfig.WellKeyed(before.value)
        && CloudConfig.Present(w.infra.spec, before.value) && CloudConfig.NoStale(w.infra.spec, before.value)
    ensures var w' := DoAll(w, ApplyPlan(t, w, cfg, false, key).writes);
      var merged := t.cloud.parse(ConfigText(w'));
      && merged.Some? && CloudConfig.WellKeyed(merged.value)
      && CloudConfig.Present(w'.infra.spec, merged.value) && CloudConfig.NoStale(w'.infra.spec, merged.value)
  {
    hide CloudConfig.MergeConfig, CloudConfig.WellKeyed, CloudConfig.Present, CloudConfig.NoStale;
    WholeApply(t, w, cfg, key);
    var valid := Validate(cfg).value;
    AdmittedServer(cfg);
    hide ApplyPlan, Validate;
    var before, password := t.cloud.parse(ConfigText(w)), valid.second.password.value;
    CloudConfig.MergedIsReadBack(ConfigText(w), t.cloud, w.infra.spec, valid.second, password);
    if before.Some? {
      CloudConfig.WellKeyedMergeKeepsChecks(before.value, w.infra.spec, valid, password);
    } else {
      CloudConfig.RebuiltConfigPassesChecks(w.infra.spec, valid, password);
    }
  }
}
