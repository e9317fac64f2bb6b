/**
 Repeating Apply: what any number of Applies with the same config, each of which may die
 anywhere, leaves of the Infrastructure, the config maps and the secrets.
 */
module LabRetry {
  import opened Wrappers
  import opened Seqs
  import opened Infrastructure
  import opened LabPlan
  import opened LabChecks
  import CloudConfig
  import Credentials

  // ---------------------------------------------------------------- a world between two

  /** m holds for each key the value of one of two maps. */
  ghost predicate Between<V>(a: map<ObjectKey, V>, b: map<ObjectKey, V>, m: map<ObjectKey, V>) {
    a.Keys == b.Keys == m.Keys && forall k :: k in m ==> m[k] == a[k] || m[k] == b[k]
  }

  /** Some of the writes of an Apply are done, the patch of the spec is not. */
  ghost predicate Partly(w: World, done: World, x: World) {
    && x.infra == w.infra && x.gate == w.gate
    && Between(w.configMaps, done.configMaps, x.configMaps)
    && Between(w.secrets, done.secrets, x.secrets)
  }

  predicate Towards(done: World, x: Write) {
    match x
    case Save(_) => true
    case PutConfigMap(k, cm) => k in done.configMaps && cm == done.configMaps[k]
    case PutSecret(k, d) => k in done.secrets && d == done.secrets[k]
    case _ => false
  }

  lemma {:induction false} PrefixIsPartly(w: World, done: World, x: World, writes: seq<Write>, x': World)
    requires Partly(w, done, x) && Prefix(x, writes, x') && forall y :: y in writes ==> Towards(done, y)
    ensures Partly(w, done, x')
    decreases |writes|
  {
    if x' != x {
      assert writes[0] in writes;
      if Prefix(Do(x, writes[0]), writes[1..], x') {
        PrefixIsPartly(w, done, Do(x, writes[0]), writes[1..], x');
      }
    }
  }

  /** The writes of an Apply before the patch. */
  function FrontWrites(t: Tools, w: World, cfg: LabConfig, key: string): seq<Write>
    requires CanFinish(t, w, cfg, key)
  {
    BackupPlan(w).writes
    + ([PutConfigMap(SOURCE_CONFIG, MergedConfigMap(t, w, cfg.second))]
       + (RootSecretPlan(Lookup(w.secrets, ROOT_CREDS), cfg.second).writes
          + CloudSecretPlan(t, Lookup(w.secrets, CLOUD_CREDS), cfg.second, key).writes))
  }

  lemma FrontIsTowards(t: Tools, w: World, cfg: LabConfig, key: string)
    requires CanFinish(t, w, cfg, key)
    ensures forall y :: y in FrontWrites(t, w, cfg, key) ==> Towards(AfterApply(t, w, cfg, key), y)
  {
    hide Admitted, Capture, MergedConfigMap, Credentials.PerVCenter, Credentials.MergeAt;
    assert |ROOT_CREDS.name| != |CLOUD_CREDS.name|;
  }

  lemma StartIsPartly(t: Tools, w: World, cfg: LabConfig, key: string)
    requires CanFinish(t, w, cfg, key)
    ensures Partly(w, AfterApply(t, w, cfg, key), w)
  {
    hide Admitted, Capture, MergedConfigMap, Credentials.PerVCenter, Credentials.MergeAt;
  }

  lemma FrontThenPatch(t: Tools, w: World, cfg: LabConfig, key: string)
    requires Validate(cfg).Some? && CanFinish(t, w, Validate(cfg).value, key)
    ensures ApplyPlan(t, w, cfg, false, key).writes ==
      FrontWrites(t, w, Validate(cfg).value, key) + [PatchSpec(Build(w.infra.spec, Validate(cfg).value).value)]
  {
    WholePlan(t, w, cfg, key);
    hide Validate, CanFinish, Build, ApplyPlan, BackupPlan, MergedConfigMap, RootSecretPlan, CloudSecretPlan;
  }

  /** Until the last write changes the spec only the front has run, and then all of it has. */
  lemma PatchComesLast(w: World, done: World, front: seq<Write>, built: Spec, x: World)
    requires Partly(w, done, w) && forall y :: y in front ==> Towards(done, y)
    requires Prefix(w, front + [PatchSpec(built)], x) && built != w.infra.spec
    ensures if x.infra == w.infra then Partly(w, done, x) else x == DoAll(w, front + [PatchSpec(built)])
    ensures DoAll(w, front).infra == w.infra
    ensures DoAll(w, front + [PatchSpec(built)]) == Do(DoAll(w, front), PatchSpec(built))
  {
    hide Prefix, Towards, DoAll;
    PrefixAppend(w, front, [PatchSpec(built)], x);
    DoAllAppend(w, front, [PatchSpec(built)]);
    var before := DoAll(w, front);
    DoOne(before, PatchSpec(built));
    FullIsPrefix(w, front);
    PrefixIsPartly(w, done, w, front, before);
    if Prefix(w, front, x) {
      PrefixIsPartly(w, done, w, front, x);
    } else {
      PrefixOfOne(before, PatchSpec(built), x);
    }
  }

  /** What one Apply that died anywhere leaves behind. */
  lemma DeadApply(t: Tools, w: World, cfg: LabConfig, key: string, x: World)
    requires Validate(cfg).Some? && CanFinish(t, w, Validate(cfg).value, key)
    requires Prefix(w, ApplyPlan(t, w, cfg, false, key).writes, x)
    ensures var done := AfterApply(t, w, Validate(cfg).value, key);
      done.infra != w.infra && if x.infra == w.infra then Partly(w, done, x) else x == done
  {
    var valid := Validate(cfg).value;
    var built := Build(w.infra.spec, valid).value;
    assert |VCentersOf(built)| == |VCentersOf(w.infra.spec)| + 1;
    FrontThenPatch(t, w, cfg, key);
    FrontIsTowards(t, w, valid, key);
    StartIsPartly(t, w, valid, key);
    ApplyFinishesIff(t, w, cfg, key);
    WholeApply(t, w, cfg, key);
    hide Prefix, Build, Towards, Validate, CanFinish, Partly, ApplyPlan, FrontWrites, DoAll;
    PatchComesLast(w, AfterApply(t, w, valid, key), FrontWrites(t, w, valid, key), built, x);
  }

  // ---------------------------------------------------------------- doing it again

  /** The config map comes out the same, whether or not it was already written. */
  lemma SameConfigMap(t: Tools, w: World, x: World, cfg: LabConfig, key: string)
    requires CloudConfig.Inverse(t.cloud) && CanFinish(t, w, cfg, key) && Partly(w, AfterApply(t, w, cfg, key), x)
    ensures SOURCE_CONFIG in x.configMaps
    ensures x.configMaps[SOURCE_CONFIG := MergedConfigMap(t, x, cfg.second)] == AfterApply(t, w, cfg, key).configMaps
  {
    var vc, spec := cfg.second, w.infra.spec;
    var done := MergedConfigMap(t, w, vc);
    var merged := CloudConfig.MergeConfig(t.cloud.parse(ConfigText(w)), spec, vc, vc.password.value);
    CloudConfig.MergedIsReadBack(ConfigText(w), t.cloud, spec, vc, vc.password.value);
    CloudConfig.MergeAgain(t.cloud.parse(ConfigText(w)), spec, spec, vc, vc.password.value);
    hide CloudConfig.MergeConfig, CloudConfig.Inverse, MergedSecrets, Mergeable, Admitted, Capture;
    var cm := x.configMaps[SOURCE_CONFIG];
    assert cm == w.configMaps[SOURCE_CONFIG] || cm == done;
    if cm == done {
      assert ConfigText(x) == t.cloud.render(merged);
      assert done.data[CONFIG_KEY := t.cloud.render(merged)] == done.data;
    } else {
      assert ConfigText(x) == ConfigText(w);
    }
    assert MergedConfigMap(t, x, vc) == done;
  }

  lemma PerVCenterAgain(data: Data, vc: VCenterConfig)
    requires vc.password.Some?
    ensures Credentials.PerVCenter(Credentials.PerVCenter(data, vc), vc) == Credentials.PerVCenter(data, vc)
  {
    Credentials.PerVCenterCommutesIff(data, vc, vc);
    Credentials.KeysOfServers(vc.server, vc.server);
  }

  /** Only one key of the YAML secret is ever rewritten. */
  predicate Anchored(t: Tools, w: World, vc: VCenterConfig, u: string)
    requires vc.password.Some?
  {
    CLOUD_CREDS in w.secrets ==> Credentials.Anchor(t.creds, w.secrets[CLOUD_CREDS], vc, u)
  }

  /** What the merge makes of one secret. */
  function MergedSecret(t: Tools, k: ObjectKey, data: Data, vc: VCenterConfig, key: string): Data
    requires vc.password.Some? && (k == CLOUD_CREDS ==> Credentials.MergeAt(t.creds, data, vc, key).Ok?)
  {
    if k == CLOUD_CREDS then Credentials.MergeAt(t.creds, data, vc, key).value
    else if k == ROOT_CREDS then Credentials.PerVCenter(data, vc)
    else data
  }

  lemma MergedOneByOne(t: Tools, w: World, vc: VCenterConfig, key: string)
    requires vc.password.Some? && Mergeable(t, w, vc, key)
    ensures MergedSecrets(t, w, vc, key).Keys == w.secrets.Keys
    ensures forall k :: k in w.secrets ==> MergedSecrets(t, w, vc, key)[k] == MergedSecret(t, k, w.secrets[k], vc, key)
  {
    hide Credentials.PerVCenter, Credentials.MergeAt;
    assert |ROOT_CREDS.name| != |CLOUD_CREDS.name|;
  }

  lemma KeyIsForCloud(t: Tools, s: ObjectKey, data: Data, vc: VCenterConfig, key: string, key': string)
    requires vc.password.Some? && s != CLOUD_CREDS
    ensures MergedSecret(t, s, data, vc, key) == MergedSecret(t, s, data, vc, key')
  {
  }

  /** One secret comes out as one Apply leaves it, whether or not it was already written. */
  lemma RetriedSecret(t: Tools, s: ObjectKey, data: Data, now: Data, vc: VCenterConfig, u: string, key: string)
      returns (k: string)
    requires Credentials.Inverse(t.creds) && vc.password.Some?
    requires s == CLOUD_CREDS ==> Credentials.Anchor(t.creds, data, vc, u) && Credentials.CanPick(now, key)
    requires now == data || now == MergedSecret(t, s, data, vc, u)
    ensures s == CLOUD_CREDS ==>
      && Credentials.CanPick(data, k)
      && Credentials.MergeAt(t.creds, data, vc, k).Ok? && Credentials.MergeAt(t.creds, now, vc, key).Ok?
    ensures MergedSecret(t, s, now, vc, key) == MergedSecret(t, s, data, vc, k)
    ensures MergedSecret(t, s, now, vc, key) in {data, MergedSecret(t, s, data, vc, u)}
  {
    k := key;
    if s == CLOUD_CREDS {
      k := Credentials.MergeAfterAnchor(t.creds, data, vc, u, now, key);
    } else if s == ROOT_CREDS {
      PerVCenterAgain(data, vc);
    }
  }

  lemma RetriedCloudSecret(t: Tools, w: World, x: World, vc: VCenterConfig, u: string, key: string) returns (k: string)
    requires Credentials.Inverse(t.creds) && vc.password.Some? && Mergeable(t, w, vc, u)
    requires Anchored(t, w, vc, u) && KeyPicked(x, key) && Between(w.secrets, MergedSecrets(t, w, vc, u), x.secrets)
    ensures KeyPicked(w, k) && Mergeable(t, w, vc, k) && Mergeable(t, x, vc, key)
    ensures CLOUD_CREDS in w.secrets ==>
      var data, now := w.secrets[CLOUD_CREDS], x.secrets[CLOUD_CREDS];
      && MergedSecret(t, CLOUD_CREDS, now, vc, key) == MergedSecret(t, CLOUD_CREDS, data, vc, k)
      && MergedSecret(t, CLOUD_CREDS, now, vc, key) in {data, MergedSecret(t, CLOUD_CREDS, data, vc, u)}
  {
    hide MergedSecrets, MergedSecret, Credentials.MergeAt, Credentials.CanPick, Credentials.Anchor;
    MergedOneByOne(t, w, vc, u);
    k := key;
    if CLOUD_CREDS in w.secrets {
      k := RetriedSecret(t, CLOUD_CREDS, w.secrets[CLOUD_CREDS], x.secrets[CLOUD_CREDS], vc, u, key);
    }
  }

  /** The secrets come out as one Apply leaves them, under whatever key. */
  lemma RetriedSecrets(t: Tools, w: World, x: World, vc: VCenterConfig, u: string, key: string) returns (k: string)
    requires Credentials.Inverse(t.creds) && vc.password.Some? && Mergeable(t, w, vc, u)
    requires Anchored(t, w, vc, u) && KeyPicked(x, key) && Between(w.secrets, MergedSecrets(t, w, vc, u), x.secrets)
    ensures KeyPicked(w, k) && Mergeable(t, w, vc, k) && Mergeable(t, x, vc, key)
    ensures MergedSecrets(t, x, vc, key) == MergedSecrets(t, w, vc, k)
    ensures Between(w.secrets, MergedSecrets(t, w, vc, u), MergedSecrets(t, x, vc, key))
  {
    k := RetriedCloudSecret(t, w, x, vc, u, key);
    hide MergedSecrets, MergedSecret, Mergeable, KeyPicked, Anchored;
    MergedOneByOne(t, w, vc, u);
    MergedOneByOne(t, w, vc, k);
    MergedOneByOne(t, x, vc, key);
    forall s | s in w.secrets
      ensures MergedSecrets(t, x, vc, key)[s] == MergedSecrets(t, w, vc, k)[s]
      ensures MergedSecrets(t, x, vc, key)[s] in {w.secrets[s], MergedSecrets(t, w, vc, u)[s]}
    {
      if s != CLOUD_CREDS {
        var same := RetriedSecret(t, s, w.secrets[s], x.secrets[s], vc, u, key);
        KeyIsForCloud(t, s, w.secrets[s], vc, k, same);
      }
    }
  }

  predicate SameObjects(a: World, b: World) {
    a.infra == b.infra && a.configMaps == b.configMaps && a.secrets == b.secrets
  }

  /** A whole Apply from a world between two ends like one from the first, and between the same two. */
  lemma Retried(t: Tools, w: World, x: World, cfg: LabConfig, u: string, key: string) returns (k: string)
    requires CloudConfig.Inverse(t.cloud) && Credentials.Inverse(t.creds)
    requires CanFinish(t, w, cfg, u) && Partly(w, AfterApply(t, w, cfg, u), x)
    requires Anchored(t, w, cfg.second, u) && KeyPicked(x, key)
    ensures CanFinish(t, x, cfg, key) && KeyPicked(w, k) && CanFinish(t, w, cfg, k)
    ensures SameObjects(AfterApply(t, x, cfg, key), AfterApply(t, w, cfg, k))
    ensures Between(w.configMaps, AfterApply(t, w, cfg, u).configMaps, AfterApply(t, x, cfg, key).configMaps)
    ensures Between(w.secrets, AfterApply(t, w, cfg, u).secrets, AfterApply(t, x, cfg, key).secrets)
  {
    SameConfigMap(t, w, x, cfg, u);
    k := RetriedSecrets(t, w, x, cfg.second, u, key);
    StillAdmitted(w, x, cfg);
    StartIsPartly(t, w, cfg, u);
    hide Build, MergedConfigMap, MergedSecrets, Mergeable, Anchored, KeyPicked, Admitted, Capture;
  }

  lemma StillAdmitted(w: World, x: World, cfg: LabConfig)
    requires Admitted(w, cfg) && x.infra == w.infra && x.gate == w.gate
    ensures Admitted(x, cfg)
  {
  }

  // ---------------------------------------------------------------- any number of dead Applies

  /** One Apply that may die anywhere: the key it picks, and the world it leaves. */
  datatype Try = Try(key: string, after: World)

  function Left(w: World, tries: seq<Try>): World {
    if tries == [] then w else Last(tries).after
  }

  predicate Tried(t: Tools, w: World, cfg: LabConfig, tries: seq<Try>) {
    tries == [] ||
    (Tried(t, w, cfg, Init(tries)) &&
     var before := Left(w, Init(tries));
     && KeyPicked(before, Last(tries).key)
     && Prefix(before, ApplyPlan(t, before, cfg, false, Last(tries).key).writes, Last(tries).after))
  }

  /** Every write of one Apply, in order. */
  function Whole(t: Tools, w: World, cfg: LabConfig, key: string): World {
    DoAll(w, ApplyPlan(t, w, cfg, false, key).writes)
  }

  /** A call for an added server is refused, so a retry after the patch changes nothing. */
  lemma NoRetryAfterPatch(t: Tools, w: World, x: World, cfg: LabConfig, key: string, key': string)
    requires Validate(cfg).Some? && CanFinish(t, w, Validate(cfg).value, key)
    requires x.infra == AfterApply(t, w, Validate(cfg).value, key).infra
    ensures ApplyPlan(t, x, cfg, false, key') == STOP
  {
    hide Validate, Capture, MergedConfigMap, MergedSecrets, Mergeable;
    CloudConfig.BuiltServers(w.infra.spec, Validate(cfg).value);
  }

  // ---------------------------------------------------------------- what they leave

  lemma BetweenTwo<V>(a: map<ObjectKey, V>, b: map<ObjectKey, V>, m: map<ObjectKey, V>, n: map<ObjectKey, V>,
      x: map<ObjectKey, V>)
    requires Between(a, b, m) && Between(a, b, n) && Between(m, n, x)
    ensures Between(a, b, x)
  {
  }

  lemma StillPartly(w: World, done: World, v: World, again: World, x: World)
    requires Partly(w, done, v) && Partly(v, again, x)
    requires Between(w.configMaps, done.configMaps, again.configMaps) && Between(w.secrets, done.secrets, again.secrets)
    ensures Partly(w, done, x)
  {
    hide Between;
    BetweenTwo(w.configMaps, done.configMaps, v.configMaps, again.configMaps, x.configMaps);
    BetweenTwo(w.secrets, done.secrets, v.secrets, again.secrets, x.secrets);
  }

  /** x has the objects that one undisturbed Apply leaves. */
  ghost predicate AfterOne(t: Tools, w: World, valid: LabConfig, x: World) {
    exists k :: KeyPicked(w, k) && CanFinish(t, w, valid, k) && SameObjects(x, AfterApply(t, w, valid, k))
  }

  /** What any number of Applies that died anywhere leaves behind. */
  lemma {:induction false} TriesLeave(t: Tools, w: World, cfg: LabConfig, u: string, tries: seq<Try>)
    requires CloudConfig.Inverse(t.cloud) && Credentials.Inverse(t.creds)
    requires Validate(cfg).Some? && CanFinish(t, w, Validate(cfg).value, u)
    requires Anchored(t, w, Validate(cfg).value.second, u) && Tried(t, w, cfg, tries)
    ensures var valid, x := Validate(cfg).value, Left(w, tries);
      if x.infra == w.infra then Partly(w, AfterApply(t, w, valid, u), x) else AfterOne(t, w, valid, x)
    decreases |tries|
  {
    var valid := Validate(cfg).value;
    hide Validate, CanFinish, AfterApply, Anchored, KeyPicked, ApplyPlan, Prefix, Partly, SameObjects;
    if tries == [] {
      StartIsPartly(t, w, valid, u);
    } else {
      TriesLeave(t, w, cfg, u, Init(tries));
      TryLeaves(t, w, Left(w, Init(tries)), cfg, u, Last(tries).key, Last(tries).after);
    }
  }

  lemma TryLeaves(t: Tools, w: World, v: World, cfg: LabConfig, u: string, key: string, x: World)
    requires CloudConfig.Inverse(t.cloud) && Credentials.Inverse(t.creds)
    requires Validate(cfg).Some? && CanFinish(t, w, Validate(cfg).value, u)
    requires var valid := Validate(cfg).value;
      && Anchored(t, w, valid.second, u)
      && if v.infra == w.infra then Partly(w, AfterApply(t, w, valid, u), v) else AfterOne(t, w, valid, v)
    requires KeyPicked(v, key) && Prefix(v, ApplyPlan(t, v, cfg, false, key).writes, x)
    ensures var valid := Validate(cfg).value;
      if x.infra == w.infra then Partly(w, AfterApply(t, w, valid, u), x) else AfterOne(t, w, valid, x)
  {
    var valid := Validate(cfg).value;
    hide Validate, CanFinish, AfterApply, Anchored, KeyPicked, ApplyPlan, Partly, Between;
    if v.infra == w.infra {
      var k := Retried(t, w, v, valid, u, key);
      DeadApply(t, v, cfg, key, x);
      if x.infra == v.infra {
        StillPartly(w, AfterApply(t, w, valid, u), v, AfterApply(t, v, valid, key), x);
      }
    } else {
      var k :| KeyPicked(w, k) && CanFinish(t, w, valid, k) && SameObjects(v, AfterApply(t, w, valid, k));
      NoRetryAfterPatch(t, w, v, cfg, k, key);
    }
  }

  /** An Apply that dies right before it patches the spec. */
  lemma DeadAtPatch(t: Tools, w: World, cfg: LabConfig, key: string) returns (x: World)
    requires Validate(cfg).Some? && CanFinish(t, w, Validate(cfg).value, key)
    ensures Prefix(w, ApplyPlan(t, w, cfg, false, key).writes, x)
    ensures var done := AfterApply(t, w, Validate(cfg).value, key);
      x.infra == w.infra && x.gate == w.gate && x.configMaps == done.configMaps && x.secrets == done.secrets
  {
    var valid := Validate(cfg).value;
    var built := Build(w.infra.spec, valid).value;
    assert |VCentersOf(built)| == |VCentersOf(w.infra.spec)| + 1;
    FrontThenPatch(t, w, cfg, key);
    FrontIsTowards(t, w, valid, key);
    StartIsPartly(t, w, valid, key);
    ApplyFinishesIff(t, w, cfg, key);
    WholeApply(t, w, cfg, key);
    var front := FrontWrites(t, w, valid, key);
    x := DoAll(w, front);
    hide Prefix, Build, Towards, Validate, CanFinish, Partly, ApplyPlan, FrontWrites, DoAll,
      MergedSecrets, MergedConfigMap;
    FullIsPrefix(w, front);
    PrefixAppend(w, front, [PatchSpec(built)], x);
    PatchComesLast(w, AfterApply(t, w, valid, key), front, built, x);
  }
}
