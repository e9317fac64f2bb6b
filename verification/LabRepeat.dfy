/**
 When a dead Apply can be repeated: the exact condition on the YAML credentials secret for
 every retry to end like some undisturbed Apply, the one for a single outcome, and a
 concrete secret with which the retry goes wrong.
 */
module LabRepeat {
  import opened Wrappers
  import opened Seqs
  import opened Text
  import opened Infrastructure
  import opened LabPlan
  import opened LabChecks
  import opened LabRetry
  import CloudConfig
  import Credentials

  /** An undisturbed Apply that picks this key gets to its end. */
  predicate Finishes(t: Tools, w: World, cfg: LabConfig, key: string) {
    KeyPicked(w, key) && ApplyPlan(t, w, cfg, false, key).complete
  }

  /** x has the objects that one undisturbed Apply leaves, for some map order. */
  ghost predicate LikeOne(t: Tools, w: World, cfg: LabConfig, x: World) {
    exists key :: Finishes(t, w, cfg, key) && SameObjects(x, Whole(t, w, cfg, key))
  }

  /** x has the objects that every undisturbed Apply leaves. */
  ghost predicate LikeAll(t: Tools, w: World, cfg: LabConfig, x: World) {
    forall key :: Finishes(t, w, cfg, key) ==> SameObjects(x, Whole(t, w, cfg, key))
  }

  /**
   However many Applies died, the next one can finish and leaves what some undisturbed
   Apply leaves; once the spec is patched that is already the case.
   */
  ghost predicate Repeatable(t: Tools, w: World, cfg: LabConfig) {
    forall tries :: Tried(t, w, cfg, tries) ==>
      var x := Left(w, tries);
      if x.infra == w.infra then
        forall key :: KeyPicked(x, key) ==>
          ApplyPlan(t, x, cfg, false, key).complete && LikeOne(t, w, cfg, Whole(t, x, cfg, key))
      else LikeOne(t, w, cfg, x)
  }

  /** The same with one outcome for all map orders. */
  ghost predicate Convergent(t: Tools, w: World, cfg: LabConfig) {
    forall tries :: Tried(t, w, cfg, tries) ==>
      var x := Left(w, tries);
      if x.infra == w.infra then
        forall key :: KeyPicked(x, key) ==>
          ApplyPlan(t, x, cfg, false, key).complete && LikeAll(t, w, cfg, Whole(t, x, cfg, key))
      else LikeAll(t, w, cfg, x)
  }

  // ---------------------------------------------------------------- enough for a retry

  /** At most one data key of the YAML secret can ever be rewritten by an Apply, and every one can be merged. */
  ghost predicate AtMostOneOpen(t: Tools, w: World, vc: VCenterConfig)
    requires vc.password.Some?
  {
    CLOUD_CREDS in w.secrets ==>
      var data := w.secrets[CLOUD_CREDS];
      Credentials.KeyDetermined(data) || Credentials.OneOpen(t.creds, data, vc)
  }

  lemma AfterOneIsLikeOne(t: Tools, w: World, cfg: LabConfig, x: World)
    requires Validate(cfg).Some? && AfterOne(t, w, Validate(cfg).value, x)
    ensures LikeOne(t, w, cfg, x)
  {
    hide Validate, CanFinish, AfterApply, SameObjects, ApplyPlan, KeyPicked;
    var valid := Validate(cfg).value;
    var k :| KeyPicked(w, k) && CanFinish(t, w, valid, k) && SameObjects(x, AfterApply(t, w, valid, k));
    ApplyFinishesIff(t, w, cfg, k);
    assert Finishes(t, w, cfg, k);
    WholeApply(t, w, cfg, k);
  }

  lemma OneOpenRepeats(t: Tools, w: World, cfg: LabConfig, key: string)
    requires CloudConfig.Inverse(t.cloud) && Credentials.Inverse(t.creds)
    requires KeyPicked(w, key) && Validate(cfg).Some? && CanFinish(t, w, Validate(cfg).value, key)
    requires AtMostOneOpen(t, w, Validate(cfg).value.second)
    ensures Repeatable(t, w, cfg)
  {
    var valid := Validate(cfg).value;
    var u := AnchorOf(t, w, valid, key);
    forall tries | Tried(t, w, cfg, tries)
      ensures var x := Left(w, tries);
        if x.infra == w.infra then
          forall again :: KeyPicked(x, again) ==>
            ApplyPlan(t, x, cfg, false, again).complete && LikeOne(t, w, cfg, Whole(t, x, cfg, again))
        else LikeOne(t, w, cfg, x)
    {
      hide Validate, CanFinish, AfterApply, Anchored, AtMostOneOpen, KeyPicked, ApplyPlan, Partly,
        Between, LikeOne, SameObjects, Whole;
      var x := Left(w, tries);
      TriesLeave(t, w, cfg, u, tries);
      if x.infra == w.infra {
        forall again | KeyPicked(x, again)
          ensures ApplyPlan(t, x, cfg, false, again).complete && LikeOne(t, w, cfg, Whole(t, x, cfg, again))
        {
          LastTry(t, w, x, cfg, u, again);
        }
      } else {
        AfterOneIsLikeOne(t, w, cfg, x);
      }
    }
  }

  lemma LastTry(t: Tools, w: World, x: World, cfg: LabConfig, u: string, key: string)
    requires CloudConfig.Inverse(t.cloud) && Credentials.Inverse(t.creds)
    requires Validate(cfg).Some? && CanFinish(t, w, Validate(cfg).value, u)
    requires Anchored(t, w, Validate(cfg).value.second, u) && KeyPicked(x, key)
    requires Partly(w, AfterApply(t, w, Validate(cfg).value, u), x)
    ensures ApplyPlan(t, x, cfg, false, key).complete && LikeOne(t, w, cfg, Whole(t, x, cfg, key))
  {
    var valid := Validate(cfg).value;
    hide Validate, CanFinish, AfterApply, Anchored, KeyPicked, ApplyPlan, Partly, Between, LikeOne, SameObjects;
    var k := Retried(t, w, x, valid, u, key);
    ApplyFinishesIff(t, x, cfg, key);
    WholeApply(t, x, cfg, key);
    AfterOneIsLikeOne(t, w, cfg, Whole(t, x, cfg, key));
  }

  lemma AnchorOf(t: Tools, w: World, valid: LabConfig, key: string) returns (u: string)
    requires KeyPicked(w, key) && CanFinish(t, w, valid, key) && AtMostOneOpen(t, w, valid.second)
    ensures CanFinish(t, w, valid, u) && Anchored(t, w, valid.second, u)
  {
    hide Admitted, Credentials.OneOpen, Credentials.KeyDetermined, Credentials.CanPick, Credentials.Settled,
      Credentials.YamlKeys;
    u := key;
    if CLOUD_CREDS in w.secrets {
      u := Credentials.AnchorExists(t.creds, w.secrets[CLOUD_CREDS], valid.second, key);
    }
  }

  // ---------------------------------------------------------------- needed for a retry

  lemma CloudSecretAfter(t: Tools, w: World, cfg: LabConfig, key: string)
    requires Validate(cfg).Some? && CanFinish(t, w, Validate(cfg).value, key) && CLOUD_CREDS in w.secrets
    ensures ApplyPlan(t, w, cfg, false, key).complete && CLOUD_CREDS in Whole(t, w, cfg, key).secrets
    ensures Ok(Whole(t, w, cfg, key).secrets[CLOUD_CREDS]) ==
      Credentials.MergeAt(t.creds, w.secrets[CLOUD_CREDS], Validate(cfg).value.second, key)
  {
    hide Validate, Admitted, Capture, MergedConfigMap, ApplyPlan, DoAll, Credentials.MergeAt, Credentials.PerVCenter;
    ApplyFinishesIff(t, w, cfg, key);
    WholeApply(t, w, cfg, key);
  }

  /**
   With two open keys a retry can go wrong: one Apply dies after it wrote the first, the
   next one writes the second, and no single Apply writes both.
   */
  lemma OpenKeysCollide(t: Tools, w: World, cfg: LabConfig, k: string, k': string) returns (x: World)
    requires Credentials.Inverse(t.creds) && Validate(cfg).Some? && CLOUD_CREDS in w.secrets
    requires CanFinish(t, w, Validate(cfg).value, k) && CanFinish(t, w, Validate(cfg).value, k')
    requires var data, vc := w.secrets[CLOUD_CREDS], Validate(cfg).value.second;
      !Credentials.KeyDetermined(data) && Credentials.BothOpen(t.creds, data, vc, k, k')
    ensures Tried(t, w, cfg, [Try(k, x)]) && x.infra == w.infra
    ensures Finishes(t, x, cfg, k')
    ensures !LikeOne(t, w, cfg, Whole(t, x, cfg, k'))
  {
    var data, vc := w.secrets[CLOUD_CREDS], Validate(cfg).value.second;
    x := DeadAtPatch(t, w, cfg, k);
    Credentials.PickFree(data);
    var now := x.secrets[CLOUD_CREDS];
    SecondKeyIsFree(t, data, vc, k, k');
    CloudSecretAfter(t, w, cfg, k);
    OneTry(t, w, cfg, k, x);
    StillAdmitted(w, x, Validate(cfg).value);
    CloudSecretAfter(t, x, cfg, k');
    if LikeOne(t, w, cfg, Whole(t, x, cfg, k')) {
      var single :| Finishes(t, w, cfg, single) && SameObjects(Whole(t, x, cfg, k'), Whole(t, w, cfg, single));
      ApplyFinishesIff(t, w, cfg, single);
      CloudSecretAfter(t, w, cfg, single);
      Credentials.TwoMergesShow(t.creds, data, vc, k, k', single);
    }
  }

  lemma OneTry(t: Tools, w: World, cfg: LabConfig, key: string, x: World)
    requires KeyPicked(w, key) && Prefix(w, ApplyPlan(t, w, cfg, false, key).writes, x)
    ensures Tried(t, w, cfg, [Try(key, x)])
  {
    hide KeyPicked, Prefix, ApplyPlan;
    assert Init([Try(key, x)]) == [];
    assert Tried(t, w, cfg, []);
  }

  lemma SecondKeyIsFree(t: Tools, data: Data, vc: VCenterConfig, k: string, k': string)
    requires !Credentials.KeyDetermined(data) && k != k'
    requires k in Credentials.YamlKeys(data) && k' in Credentials.YamlKeys(data)
    requires Credentials.MergeAt(t.creds, data, vc, k).Ok? && Credentials.MergeAt(t.creds, data, vc, k').Ok?
    ensures var now := Credentials.MergeAt(t.creds, data, vc, k).value;
      Credentials.CanPick(now, k') && Credentials.MergeAt(t.creds, now, vc, k').Ok?
  {
    hide Credentials.Upsert, Credentials.CanPick, Credentials.KeyDetermined;
    Credentials.PickFree(data);
    var now := Credentials.MergeAt(t.creds, data, vc, k).value;
    assert now == data[k := now[k]];
    Credentials.PickStays(data, k, now[k], k');
  }

  lemma CollisionBreaks(t: Tools, w: World, cfg: LabConfig, k: string, x: World, k': string)
    requires Tried(t, w, cfg, [Try(k, x)]) && x.infra == w.infra
    requires Finishes(t, x, cfg, k') && !LikeOne(t, w, cfg, Whole(t, x, cfg, k'))
    ensures !Repeatable(t, w, cfg)
  {
    hide Tried, KeyPicked, LikeOne, Whole, ApplyPlan;
    assert Left(w, [Try(k, x)]) == x;
  }

  /** Without any death, every key that can be picked has to be mergeable. */
  lemma PicksFinish(t: Tools, w: World, cfg: LabConfig, key: string)
    requires Repeatable(t, w, cfg) && KeyPicked(w, key)
    ensures Validate(cfg).Some? && CanFinish(t, w, Validate(cfg).value, key)
  {
    hide KeyPicked, LikeOne, Whole, ApplyPlan, Validate, CanFinish;
    assert Tried(t, w, cfg, []) && Left(w, []) == w;
    ApplyFinishesIff(t, w, cfg, key);
  }

  lemma RepeatsMeansOneOpen(t: Tools, w: World, cfg: LabConfig)
    requires Credentials.Inverse(t.creds) && Validate(cfg).Some? && Validate(cfg).value.second.password.Some?
    requires Repeatable(t, w, cfg)
    ensures AtMostOneOpen(t, w, Validate(cfg).value.second)
  {
    var vc := Validate(cfg).value.second;
    hide Validate, Admitted, Repeatable, Credentials.MergeAt, Credentials.KeyDetermined, Credentials.Settled,
      Credentials.YamlKeys, ApplyPlan, Whole, LikeOne, Tried;
    if CLOUD_CREDS in w.secrets && !Credentials.KeyDetermined(w.secrets[CLOUD_CREDS]) {
      var data := w.secrets[CLOUD_CREDS];
      Credentials.PickFree(data);
      forall k | k in Credentials.YamlKeys(data)
        ensures CanFinish(t, w, Validate(cfg).value, k) && Credentials.Listed(t.creds, data, k).Some?
      {
        PicksFinish(t, w, cfg, k);
        MergedIsListed(t, data, vc, k);
      }
      if k, k' :| Credentials.BothOpen(t.creds, data, vc, k, k') {
        var x := OpenKeysCollide(t, w, cfg, k, k');
        CollisionBreaks(t, w, cfg, k, x, k');
      }
    }
  }

  lemma MergedIsListed(t: Tools, data: Data, vc: VCenterConfig, key: string)
    requires Credentials.MergeAt(t.creds, data, vc, key).Ok?
    ensures Credentials.Listed(t.creds, data, key).Some?
  {
  }

  // ---------------------------------------------------------------- the exact conditions

  /**
   Applies that died can be repeated exactly when the key is determined, or all YAML keys
   can be merged and at most one of them is not settled yet.
   */
  lemma RepeatableIff(t: Tools, w: World, cfg: LabConfig, key: string)
    requires CloudConfig.Inverse(t.cloud) && Credentials.Inverse(t.creds)
    requires Finishes(t, w, cfg, key)
    ensures Validate(cfg).Some? && Validate(cfg).value.second.password.Some?
    ensures Repeatable(t, w, cfg) <==> AtMostOneOpen(t, w, Validate(cfg).value.second)
  {
    ApplyFinishesIff(t, w, cfg, key);
    hide Validate, Admitted, Repeatable, AtMostOneOpen, ApplyPlan, KeyPicked;
    if Repeatable(t, w, cfg) {
      RepeatsMeansOneOpen(t, w, cfg);
    } else if AtMostOneOpen(t, w, Validate(cfg).value.second) {
      OneOpenRepeats(t, w, cfg, key);
    }
  }

  /** All picks leave the same secret. */
  ghost predicate OneOutcome(t: Tools, w: World, vc: VCenterConfig)
    requires vc.password.Some?
  {
    CLOUD_CREDS in w.secrets ==>
      var data := w.secrets[CLOUD_CREDS];
      Credentials.KeyDetermined(data) || Credentials.AllSettled(t.creds, data, vc)
  }

  /** Then an undisturbed Apply leaves the same objects whatever key it picks. */
  lemma SameWhole(t: Tools, w: World, cfg: LabConfig, k: string, k': string)
    requires Credentials.Inverse(t.creds) && KeyPicked(w, k) && KeyPicked(w, k')
    requires Validate(cfg).Some? && CanFinish(t, w, Validate(cfg).value, k) && CanFinish(t, w, Validate(cfg).value, k')
    requires OneOutcome(t, w, Validate(cfg).value.second)
    ensures SameObjects(Whole(t, w, cfg, k), Whole(t, w, cfg, k'))
  {
    var vc := Validate(cfg).value.second;
    hide Validate, Admitted, Capture, MergedConfigMap, ApplyPlan, DoAll, Build,
      Credentials.MergeAt, Credentials.PerVCenter, Credentials.CanPick, Credentials.Settled, Credentials.YamlKeys;
    ApplyFinishesIff(t, w, cfg, k);
    ApplyFinishesIff(t, w, cfg, k');
    WholeApply(t, w, cfg, k);
    WholeApply(t, w, cfg, k');
    if CLOUD_CREDS in w.secrets {
      Credentials.PicksAgree(t.creds, w.secrets[CLOUD_CREDS], vc, k, k');
    }
  }

  lemma LikeOneIsLikeAll(t: Tools, w: World, cfg: LabConfig, x: World)
    requires Credentials.Inverse(t.creds) && Validate(cfg).Some? && Validate(cfg).value.second.password.Some?
    requires OneOutcome(t, w, Validate(cfg).value.second) && LikeOne(t, w, cfg, x)
    ensures LikeAll(t, w, cfg, x)
  {
    hide Validate, CanFinish, OneOutcome, ApplyPlan, KeyPicked, Whole;
    var key :| Finishes(t, w, cfg, key) && SameObjects(x, Whole(t, w, cfg, key));
    ApplyFinishesIff(t, w, cfg, key);
    forall k | Finishes(t, w, cfg, k)
      ensures SameObjects(x, Whole(t, w, cfg, k))
    {
      ApplyFinishesIff(t, w, cfg, k);
      SameWhole(t, w, cfg, key, k);
    }
  }

  lemma OneOutcomeConverges(t: Tools, w: World, cfg: LabConfig)
    requires Credentials.Inverse(t.creds) && Validate(cfg).Some? && Validate(cfg).value.second.password.Some?
    requires OneOutcome(t, w, Validate(cfg).value.second) && Repeatable(t, w, cfg)
    ensures Convergent(t, w, cfg)
  {
    hide Validate, OneOutcome, ApplyPlan, KeyPicked, Whole, LikeOne, LikeAll, Tried;
    forall x | LikeOne(t, w, cfg, x)
      ensures LikeAll(t, w, cfg, x)
    {
      LikeOneIsLikeAll(t, w, cfg, x);
    }
  }

  lemma ConvergentAtOnce(t: Tools, w: World, cfg: LabConfig, k: string, k': string)
    requires Convergent(t, w, cfg) && KeyPicked(w, k) && KeyPicked(w, k')
    ensures Finishes(t, w, cfg, k) && SameObjects(Whole(t, w, cfg, k), Whole(t, w, cfg, k'))
  {
    hide ApplyPlan, KeyPicked, Whole, SameObjects;
    assert Tried(t, w, cfg, []) && Left(w, []) == w;
  }

  lemma ConvergesMeansOneOutcome(t: Tools, w: World, cfg: LabConfig)
    requires Credentials.Inverse(t.creds) && Validate(cfg).Some? && Validate(cfg).value.second.password.Some?
    requires Convergent(t, w, cfg)
    ensures OneOutcome(t, w, Validate(cfg).value.second)
  {
    var vc := Validate(cfg).value.second;
    hide Validate, CanFinish, Convergent, Credentials.MergeAt, Credentials.KeyDetermined, Credentials.AllSettled,
      Credentials.YamlKeys, ApplyPlan, Whole;
    if CLOUD_CREDS in w.secrets && !Credentials.KeyDetermined(w.secrets[CLOUD_CREDS]) {
      var data := w.secrets[CLOUD_CREDS];
      Credentials.PickFree(data);
      forall k, k' | k in Credentials.YamlKeys(data) && k' in Credentials.YamlKeys(data)
        ensures Credentials.MergeAt(t.creds, data, vc, k).Ok?
        ensures Credentials.MergeAt(t.creds, data, vc, k) == Credentials.MergeAt(t.creds, data, vc, k')
      {
        ConvergentAtOnce(t, w, cfg, k, k');
        ConvergentAtOnce(t, w, cfg, k', k);
        ApplyFinishesIff(t, w, cfg, k);
        ApplyFinishesIff(t, w, cfg, k');
        CloudSecretAfter(t, w, cfg, k);
        CloudSecretAfter(t, w, cfg, k');
      }
      Credentials.SameOutcomeSettles(t.creds, data, vc);
    }
  }

  lemma OneOutcomeIsOneOpen(t: Tools, w: World, vc: VCenterConfig)
    requires Credentials.Inverse(t.creds) && vc.password.Some? && OneOutcome(t, w, vc)
    ensures AtMostOneOpen(t, w, vc)
  {
    hide Credentials.Settled, Credentials.YamlKeys, Credentials.KeyDetermined, Credentials.Listed;
    if CLOUD_CREDS in w.secrets && Credentials.AllSettled(t.creds, w.secrets[CLOUD_CREDS], vc) {
      forall k | k in Credentials.YamlKeys(w.secrets[CLOUD_CREDS])
        ensures Credentials.Listed(t.creds, w.secrets[CLOUD_CREDS], k).Some?
      {
        Credentials.SettledParses(t.creds, w.secrets[CLOUD_CREDS], vc, k);
      }
    }
  }

  /**
   They lead to one and the same outcome, whatever died and whatever the map orders,
   exactly when the key is determined or all YAML keys are settled already.
   */
  lemma ConvergentIff(t: Tools, w: World, cfg: LabConfig, key: string)
    requires CloudConfig.Inverse(t.cloud) && Credentials.Inverse(t.creds)
    requires Finishes(t, w, cfg, key)
    ensures Validate(cfg).Some? && Validate(cfg).value.second.password.Some?
    ensures Convergent(t, w, cfg) <==> OneOutcome(t, w, Validate(cfg).value.second)
  {
    ApplyFinishesIff(t, w, cfg, key);
    hide Validate, Repeatable, Convergent, AtMostOneOpen, OneOutcome, ApplyPlan, KeyPicked;
    if Convergent(t, w, cfg) {
      ConvergesMeansOneOutcome(t, w, cfg);
    } else if OneOutcome(t, w, Validate(cfg).value.second) {
      OneOutcomeIsOneOpen(t, w, Validate(cfg).value.second);
      RepeatableIff(t, w, cfg, key);
      OneOutcomeConverges(t, w, cfg);
    }
  }

  /** In particular, with a determined key one retry leaves what the Apply that died would have left. */
  lemma RetryConverges(t: Tools, w: World, cfg: LabConfig, key: string, x: World, key': string)
    requires CloudConfig.Inverse(t.cloud) && Credentials.Inverse(t.creds) && Finishes(t, w, cfg, key)
    requires CLOUD_CREDS in w.secrets ==> Credentials.KeyDetermined(w.secrets[CLOUD_CREDS])
    requires Prefix(w, ApplyPlan(t, w, cfg, false, key).writes, x) && x.infra == w.infra && KeyPicked(x, key')
    ensures ApplyPlan(t, x, cfg, false, key').complete
    ensures SameObjects(Whole(t, x, cfg, key'), Whole(t, w, cfg, key))
  {
    ConvergentIff(t, w, cfg, key);
    hide KeyPicked, Prefix, ApplyPlan, Whole, SameObjects, Tried;
    OneTry(t, w, cfg, key, x);
    assert Left(w, [Try(key, x)]) == x;
  }

  // ---------------------------------------------------------------- a secret with which it goes wrong

  const PLAIN_SPEC := Spec("VSphere", Some(VSphere([], [], map[])), map[], map[])
  const TWO_FILES := map["a.yaml" := "", "b.yaml" := ""]
  const TWO_FILE_WORLD := World(
    Infra(PLAIN_SPEC, None), map[SOURCE_CONFIG := ConfigMap(map[], map[])], map[CLOUD_CREDS := TWO_FILES], true,
    Missing)
  const PLAIN_CONFIG := LabConfig(VCenterConfig("vc", 443, ["dc"], "user", Some("pw")), None)

  lemma PlainConfigIsValid()
    ensures Validate(PLAIN_CONFIG) == Some(PLAIN_CONFIG)
  {
    TrimSpaceId("vc");
    TrimSpaceId("user");
  }

  lemma TwoFilesAreOpen(t: Tools)
    ensures Credentials.YamlKeys(TWO_FILES) == {"a.yaml", "b.yaml"} && !Credentials.KeyDetermined(TWO_FILES)
    ensures forall k :: k in TWO_FILES ==> Credentials.MergeAt(t.creds, TWO_FILES, PLAIN_CONFIG.second, k).Ok?
  {
    assert Credentials.HasSuffix("a.yaml", ".yaml") && Credentials.HasSuffix("b.yaml", ".yaml");
    assert Credentials.YamlKeys(TWO_FILES) == {"a.yaml", "b.yaml"};
    assert "a.yaml" != "b.yaml" by { assert "a.yaml"[0] != "b.yaml"[0]; }
    var n0, n1, n2 := Credentials.NAMED_KEYS[0], Credentials.NAMED_KEYS[1], Credentials.NAMED_KEYS[2];
    assert n0[0] == 'v' && n1[1] == 'r' && n2[1] == 'r';
  }

  /** Two empty YAML files: one Apply dies after it wrote the first, and the retry writes the second as well. */
  lemma TwoFilesDoNotConverge(t: Tools) returns (x: World)
    requires Credentials.Inverse(t.creds)
    ensures Finishes(t, TWO_FILE_WORLD, PLAIN_CONFIG, "a.yaml")
    ensures Tried(t, TWO_FILE_WORLD, PLAIN_CONFIG, [Try("a.yaml", x)]) && x.infra == TWO_FILE_WORLD.infra
    ensures Finishes(t, x, PLAIN_CONFIG, "b.yaml")
    ensures !LikeOne(t, TWO_FILE_WORLD, PLAIN_CONFIG, Whole(t, x, PLAIN_CONFIG, "b.yaml"))
  {
    PlainConfigIsValid();
    TwoFilesAreOpen(t);
    hide Validate, Credentials.MergeAt, Credentials.KeyDetermined, Credentials.YamlKeys,
      ApplyPlan, Whole, LikeOne, Tried;
    var vc := PLAIN_CONFIG.second;
    assert Admitted(TWO_FILE_WORLD, PLAIN_CONFIG);
    Credentials.PickFree(TWO_FILES);
    ApplyFinishesIff(t, TWO_FILE_WORLD, PLAIN_CONFIG, "a.yaml");
    x := OpenKeysCollide(t, TWO_FILE_WORLD, PLAIN_CONFIG, "a.yaml", "b.yaml");
  }
}
