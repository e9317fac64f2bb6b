/**
 The two credential secrets that Apply rewrites (pkg/lab/credentials.go): the root
 secret with one pair of keys per vCenter, and the YAML list of credentials whose key
 is picked from the data in map order. Secret data is a map from keys to text; YAML and
 lower-casing are parameters.
 */
module Credentials {
  import opened Wrappers
  import opened Infrastructure
  import opened Text

  datatype Credential = Credential(url: string, username: string, password: string)

  type Data = map<string, string>

  /** The YAML codec of the credentials file, and unicode.ToLower. */
  datatype Format = Format(parse: string -> Option<seq<Credential>>, render: seq<Credential> -> string,
      lower: char -> char)

  /** Rendering is never empty (it prints the field name) and parses back. */
  ghost predicate Inverse(f: Format) {
    forall cs: seq<Credential> :: f.render(cs) != "" && f.parse(f.render(cs)) == Some(cs)
  }

  // ---------------------------------------------------------------- one pair of keys per vCenter

  method MergeVSphereCreds(data: Data, vc: VCenterConfig) returns (r: Result<Data>)
    ensures r.Err? <==> vc.password.None?
    ensures r.Ok? ==> r.value == PerVCenter(data, vc)
    ensures r.Ok? ==>
      var user, pass := vc.server + ".username", vc.server + ".password";
      && r.value.Keys == data.Keys + {user, pass}
      && r.value[user] == vc.username && r.value[pass] == vc.password.value
      && forall k :: k in data && k !in {user, pass} ==> r.value[k] == data[k]
  {
    KeysOfServers(vc.server, vc.server);
    if vc.password.None? {
      return Err;
    }
    var out := data;
    out := out[vc.server + ".username" := vc.username];
    out := out[vc.server + ".password" := vc.password.value];
    return Ok(out);
  }

  function PerVCenter(data: Data, vc: VCenterConfig): Data
    requires vc.password.Some?
  {
    data[vc.server + ".username" := vc.username][vc.server + ".password" := vc.password.value]
  }

  lemma KeysOfServers(a: string, b: string)
    ensures a + ".username" != b + ".password"
    ensures a + ".username" == b + ".username" <==> a == b
    ensures a + ".password" == b + ".password" <==> a == b
  {
    var u, p := a + ".username", b + ".password";
    assert u[|u| - 1] == 'e' && p[|p| - 1] == 'd';
    if a + ".username" == b + ".username" {
      assert (a + ".username")[..|a|] == (b + ".username")[..|b|];
    }
    if a + ".password" == b + ".password" {
      assert (a + ".password")[..|a|] == (b + ".password")[..|b|];
    }
  }

  /** Two vCenters can be added in either order exactly when they are different servers (or the same login). */
  lemma PerVCenterCommutesIff(data: Data, a: VCenterConfig, b: VCenterConfig)
    requires a.password.Some? && b.password.Some?
    ensures PerVCenter(PerVCenter(data, a), b) == PerVCenter(PerVCenter(data, b), a) <==>
      a.server != b.server || (a.username == b.username && a.password == b.password)
  {
    KeysOfServers(a.server, b.server);
    KeysOfServers(b.server, a.server);
    KeysOfServers(a.server, a.server);
    KeysOfServers(b.server, b.server);
    var ab, ba := PerVCenter(PerVCenter(data, a), b), PerVCenter(PerVCenter(data, b), a);
    assert ab[b.server + ".username"] == b.username && ab[b.server + ".password"] == b.password.value;
    assert ba[a.server + ".username"] == a.username && ba[a.server + ".password"] == a.password.value;
    if a.server != b.server || (a.username == b.username && a.password == b.password) {
      assert ab.Keys == ba.Keys;
      assert forall k :: k in ab ==> ab[k] == ba[k];
    }
  }

  // ---------------------------------------------------------------- the YAML list

  function Lower(f: Format, s: string): string {
    seq(|s|, i requires 0 <= i < |s| => f.lower(s[i]))
  }

  function NormalizeURL(f: Format, url: string): string {
    TrimSuffix(TrimSpace(Lower(f, url)), '/')
  }

  /** Case, outer white space and one trailing slash do not matter, and nothing else is lost. */
  lemma NormalizedIs(f: Format, before: string, url: string, slash: string, after: string, core: string)
    requires forall c :: c in before || c in after ==> IsSpace(f.lower(c))
    requires (slash == "" || slash == "/") && f.lower('/') == '/'
    requires |url| == |core| && forall i :: 0 <= i < |url| ==> f.lower(url[i]) == core[i]
    requires core != "" ==> !IsSpace(core[0]) && !IsSpace(core[|core| - 1]) && core[|core| - 1] != '/'
    ensures NormalizeURL(f, before + url + slash + after) == core
  {
    var all := before + url + slash + after;
    assert Lower(f, all) == Lower(f, before) + (core + slash) + Lower(f, after);
    TrimSpaceMeans(Lower(f, before), core + slash, Lower(f, after));
    assert (core + "/")[..|core|] == core;
  }

  predicate SameServer(f: Format, c: Credential, server: string) {
    NormalizeURL(f, c.url) == NormalizeURL(f, server)
  }

  const NAMED_KEYS := ["vsphere-creds.yaml", "credentials.yaml", "creds.yaml"]

  predicate IsYamlKey(k: string) {
    HasSuffix(k, ".yaml") || HasSuffix(k, ".yml")
  }

  predicate HasSuffix(s: string, suffix: string) {
    |suffix| <= |s| && s[|s| - |suffix|..] == suffix
  }

  predicate HasNamedKey(data: Data) {
    exists k :: k in NAMED_KEYS && k in data
  }

  function YamlKeys(data: Data): set<string> {
    set k | k in data && IsYamlKey(k)
  }

  /** What pickCredsKey may return, over all map orders. */
  predicate CanPick(data: Data, k: string) {
    if NAMED_KEYS[0] in data then k == NAMED_KEYS[0]
    else if NAMED_KEYS[1] in data then k == NAMED_KEYS[1]
    else if NAMED_KEYS[2] in data then k == NAMED_KEYS[2]
    else if YamlKeys(data) != {} then k in YamlKeys(data)
    else k == NAMED_KEYS[0]
  }

  /** Every map order picks the same key. */
  predicate KeyDetermined(data: Data) {
    HasNamedKey(data) || |YamlKeys(data)| <= 1
  }

  method PickCredsKey(data: Data) returns (key: string)
    ensures CanPick(data, key)
    ensures
      if "vsphere-creds.yaml" in data then key == "vsphere-creds.yaml"
      else if "credentials.yaml" in data then key == "credentials.yaml"
      else if "creds.yaml" in data then key == "creds.yaml"
      else if exists k :: k in data && (HasSuffix(k, ".yaml") || HasSuffix(k, ".yml"))
      then key in data && (HasSuffix(key, ".yaml") || HasSuffix(key, ".yml"))
      else key == "vsphere-creds.yaml"
  {
    for i := 0 to |NAMED_KEYS|
      invariant forall j :: 0 <= j < i ==> NAMED_KEYS[j] !in data
    {
      if NAMED_KEYS[i] in data {
        return NAMED_KEYS[i];
      }
    }
    var keys := data.Keys;
    while keys != {}
      invariant keys <= data.Keys && YamlKeys(data) <= keys
    {
      var k :| k in keys;
      if IsYamlKey(k) {
        return k;
      }
      keys := keys - {k};
    }
    assert forall k :: k in data && IsYamlKey(k) ==> k in YamlKeys(data);
    return "vsphere-creds.yaml";
  }

  /** The credentials under a key: none for a missing or empty value. */
  function Listed(f: Format, data: Data, key: string): Option<seq<Credential>> {
    if key in data && data[key] != "" then f.parse(data[key]) else Some([])
  }

  function Login(f: Format, c: Credential, vc: VCenterConfig, password: string): Credential {
    if SameServer(f, c, vc.server) then c.(username := vc.username, password := password) else c
  }

  function Upsert(f: Format, cs: seq<Credential>, vc: VCenterConfig, password: string): seq<Credential> {
    if exists i :: 0 <= i < |cs| && SameServer(f, cs[i], vc.server)
    then seq(|cs|, i requires 0 <= i < |cs| => Login(f, cs[i], vc, password))
    else cs + [Credential(vc.server, vc.username, password)]
  }

  /** mergeCloudCredentialsSecret for one choice of key. */
  function MergeAt(f: Format, data: Data, vc: VCenterConfig, key: string): Result<Data> {
    if vc.password.None? then Err
    else
      var listed := Listed(f, data, key);
      if listed.None? then Err
      else Ok(data[key := f.render(Upsert(f, listed.value, vc, vc.password.value))])
  }

  /** The update loop of the merge. */
  method UpdateMatching(f: Format, creds: array<Credential>, vc: VCenterConfig, password: string)
    returns (replaced: bool)
    modifies creds
    ensures forall j :: 0 <= j < creds.Length ==> creds[j] == Login(f, old(creds[j]), vc, password)
    ensures replaced <==> exists j :: 0 <= j < creds.Length && SameServer(f, old(creds[j]), vc.server)
  {
    hide NormalizeURL;
    replaced := false;
    for i := 0 to creds.Length
      invariant forall j :: 0 <= j < i ==> creds[j] == Login(f, old(creds[j]), vc, password)
      invariant forall j :: i <= j < creds.Length ==> creds[j] == old(creds[j])
      invariant replaced <==> exists j :: 0 <= j < i && SameServer(f, old(creds[j]), vc.server)
    {
      if NormalizeURL(f, creds[i].url) == NormalizeURL(f, vc.server) {
        creds[i] := creds[i].(username := vc.username);
        creds[i] := creds[i].(password := password);
        assert SameServer(f, old(creds[i]), vc.server);
        replaced := true;
      }
    }
  }

  method UpsertInPlace(f: Format, listed: seq<Credential>, vc: VCenterConfig, password: string)
    returns (list: seq<Credential>)
    ensures list == Upsert(f, listed, vc, password)
    ensures CarriesCredential(f, listed, list, vc.server, vc.username, password)
  {
    UpsertCarries(f, listed, vc, password);
    hide SameServer, CarriesCredential;
    var creds := new Credential[|listed|](i requires 0 <= i < |listed| => listed[i]);
    assert forall i :: 0 <= i < |listed| ==> creds[i] == listed[i];
    var replaced := UpdateMatching(f, creds, vc, password);
    list := creds[..];
    if !replaced {
      assert list == listed;
      list := list + [Credential(vc.server, vc.username, password)];
    }
  }

  /** mergeCloudCredentialsSecret: the merge at a key that some map order picks. */
  method MergeCloudCredentials(f: Format, data: Data, vc: VCenterConfig) returns (r: Result<Data>)
    ensures exists key :: CanPick(data, key) && r == MergeAt(f, data, vc, key)
  {
    hide Upsert, CanPick;
    var key := PickCredsKey(data);
    if vc.password.None? {
      assert MergeAt(f, data, vc, key) == Err;
      return Err;
    }
    var out := data;
    var listed: seq<Credential> := [];
    if key in out && |out[key]| > 0 {
      var parsed := f.parse(out[key]);
      if parsed.None? {
        assert MergeAt(f, data, vc, key) == Err;
        return Err;
      }
      listed := parsed.value;
    }
    var list := UpsertInPlace(f, listed, vc, vc.password.value);
    assert MergeAt(f, data, vc, key) == Ok(out[key := f.render(list)]);
    return Ok(out[key := f.render(list)]);
  }

  // ---------------------------------------------------------------- what the merge promises

  /** Entries for the server get the login and keep their URL; without one, an entry is added at the end. */
  ghost predicate CarriesCredential(f: Format, before: seq<Credential>, after: seq<Credential>, server: string,
      username: string, password: string)
  {
    if exists i :: 0 <= i < |before| && NormalizeURL(f, before[i].url) == NormalizeURL(f, server) then
      && |after| == |before|
      && forall i :: 0 <= i < |before| ==>
        if NormalizeURL(f, before[i].url) == NormalizeURL(f, server)
        then after[i].url == before[i].url && after[i].username == username && after[i].password == password
        else after[i] == before[i]
    else
      && |after| == |before| + 1 && after[..|before|] == before
      && var e := after[|before|];
      e.url == server && e.username == username && e.password == password
  }

  lemma UpsertCarries(f: Format, cs: seq<Credential>, vc: VCenterConfig, password: string)
    ensures CarriesCredential(f, cs, Upsert(f, cs, vc, password), vc.server, vc.username, password)
  {
    hide NormalizeURL;
    var r := Upsert(f, cs, vc, password);
    if i :| 0 <= i < |cs| && NormalizeURL(f, cs[i].url) == NormalizeURL(f, vc.server) {
      assert SameServer(f, cs[i], vc.server);
      assert forall j :: 0 <= j < |cs| ==> r[j] == Login(f, cs[j], vc, password);
    } else {
      assert forall i :: 0 <= i < |cs| ==> !SameServer(f, cs[i], vc.server);
    }
  }

  /** The YAML secret after a merge, read back: one key was written, with the credentials that were there carried on. */
  lemma MergeCarries(f: Format, data: Data, vc: VCenterConfig, key: string)
    requires Inverse(f) && MergeAt(f, data, vc, key).Ok?
    ensures var out := MergeAt(f, data, vc, key).value;
      && vc.password.Some? && out.Keys == data.Keys + {key} && (forall k :: k in data && k != key ==> out[k] == data[k])
      && f.parse(out[key]).Some?
      && (key in data && data[key] != "" ==> f.parse(data[key]).Some?)
      && var before := if key in data && data[key] != "" then f.parse(data[key]).value else [];
      CarriesCredential(f, before, f.parse(out[key]).value, vc.server, vc.username, vc.password.value)
  {
    UpsertCarries(f, Listed(f, data, key).value, vc, vc.password.value);
    hide CarriesCredential, Upsert;
  }

  predicate UpToDate(f: Format, cs: seq<Credential>, vc: VCenterConfig, password: string) {
    && (exists i :: 0 <= i < |cs| && SameServer(f, cs[i], vc.server))
    && forall i :: 0 <= i < |cs| && SameServer(f, cs[i], vc.server) ==>
      cs[i].username == vc.username && cs[i].password == password
  }

  /** The entries for other servers, in order. */
  function Others(f: Format, cs: seq<Credential>, server: string): seq<Credential> {
    if cs == [] then [] else
      Others(f, cs[..|cs| - 1], server) + if SameServer(f, cs[|cs| - 1], server) then [] else [cs[|cs| - 1]]
  }

  lemma {:induction false} OthersOfLogins(f: Format, cs: seq<Credential>, ds: seq<Credential>, vc: VCenterConfig,
      password: string)
    requires |cs| == |ds| && forall i :: 0 <= i < |cs| ==> ds[i] == Login(f, cs[i], vc, password)
    ensures Others(f, cs, vc.server) == Others(f, ds, vc.server)
  {
    hide NormalizeURL;
    if cs != [] {
      OthersOfLogins(f, cs[..|cs| - 1], ds[..|cs| - 1], vc, password);
    }
  }

  lemma {:induction false} UpsertFacts(f: Format, cs: seq<Credential>, vc: VCenterConfig, password: string)
    ensures var r := Upsert(f, cs, vc, password);
      && UpToDate(f, r, vc, password)
      && Others(f, r, vc.server) == Others(f, cs, vc.server)
      && (r == cs <==> UpToDate(f, cs, vc, password))
  {
    hide NormalizeURL;
    var r := Upsert(f, cs, vc, password);
    if i :| 0 <= i < |cs| && SameServer(f, cs[i], vc.server) {
      OthersOfLogins(f, cs, r, vc, password);
      assert SameServer(f, r[i], vc.server);
      if r == cs {
        forall j | 0 <= j < |cs| && SameServer(f, cs[j], vc.server)
          ensures cs[j].username == vc.username && cs[j].password == password
        {
          assert r[j] == Login(f, cs[j], vc, password);
        }
      }
    } else {
      assert r[..|r| - 1] == cs;
      assert SameServer(f, r[|cs|], vc.server);
    }
  }

  /**
   A successful merge touches one key, keeps every other server's entries in order, and leaves the
   server up to date.
   */
  lemma MergeTouchesOnlyTheServer(f: Format, data: Data, vc: VCenterConfig, key: string)
    requires Inverse(f) && CanPick(data, key) && MergeAt(f, data, vc, key).Ok?
    ensures var out := MergeAt(f, data, vc, key).value;
      && out.Keys == data.Keys + {key}
      && (forall k :: k in data && k != key ==> out[k] == data[k])
      && Listed(f, out, key).Some?
      && UpToDate(f, Listed(f, out, key).value, vc, vc.password.value)
      && Others(f, Listed(f, out, key).value, vc.server) == Others(f, Listed(f, data, key).value, vc.server)
  {
    hide SameServer, Upsert, UpToDate, Others;
    UpsertFacts(f, Listed(f, data, key).value, vc, vc.password.value);
  }

  /** The value under the key is exactly what the merge would write there. */
  predicate Settled(f: Format, data: Data, vc: VCenterConfig, key: string)
    requires vc.password.Some?
  {
    key in data &&
    var parsed := f.parse(data[key]);
    parsed.Some? && data[key] == f.render(parsed.value) && UpToDate(f, parsed.value, vc, vc.password.value)
  }

  /** Running the merge again changes nothing, whichever keys the two runs pick. */
  ghost predicate IdempotentOn(f: Format, data: Data, vc: VCenterConfig) {
    forall k, k' ::
      CanPick(data, k) && MergeAt(f, data, vc, k).Ok? && CanPick(MergeAt(f, data, vc, k).value, k') ==>
        MergeAt(f, MergeAt(f, data, vc, k).value, vc, k') == MergeAt(f, data, vc, k)
  }

  lemma SettledIff(f: Format, data: Data, vc: VCenterConfig, key: string)
    requires Inverse(f) && vc.password.Some?
    ensures Settled(f, data, vc, key) <==> MergeAt(f, data, vc, key) == Ok(data)
  {
    hide SameServer, Upsert, UpToDate, CanPick, YamlKeys;
    var listed := Listed(f, data, key);
    if listed.Some? {
      UpsertFacts(f, listed.value, vc, vc.password.value);
      assert key in data ==> data[key := data[key]] == data;
      if MergeAt(f, data, vc, key) == Ok(data) {
        assert data[key] == f.render(Upsert(f, listed.value, vc, vc.password.value));
        assert f.parse(data[key]) == Some(Upsert(f, listed.value, vc, vc.password.value));
      }
    }
  }

  lemma SameKeyAgain(f: Format, data: Data, vc: VCenterConfig, key: string)
    requires Inverse(f) && MergeAt(f, data, vc, key).Ok?
    ensures MergeAt(f, MergeAt(f, data, vc, key).value, vc, key) == MergeAt(f, data, vc, key)
  {
    hide SameServer, Upsert, UpToDate, CanPick, YamlKeys;
    var pw := vc.password.value;
    var cs := Listed(f, data, key).value;
    UpsertFacts(f, cs, vc, pw);
    UpsertFacts(f, Upsert(f, cs, vc, pw), vc, pw);
    var text := f.render(Upsert(f, cs, vc, pw));
    assert data[key := text][key := text] == data[key := text];
  }

  /**
   mergeCloudCredentialsSecret is idempotent exactly when the key is determined (a named
   key exists, or at most one YAML key does), or no YAML key parses so that every run
   fails, or every YAML key is already settled.
   */
  lemma IdempotentIff(f: Format, data: Data, vc: VCenterConfig)
    requires Inverse(f) && vc.password.Some?
    ensures IdempotentOn(f, data, vc) <==>
      || KeyDetermined(data)
      || (forall k :: k in YamlKeys(data) ==> Listed(f, data, k).None?)
      || (forall k :: k in YamlKeys(data) ==> Settled(f, data, vc, k))
  {
    hide *;
    if KeyDetermined(data) {
      PickDetermined(f, data, vc);
    } else {
      PickFree(data);
      if forall k :: k in YamlKeys(data) ==> Listed(f, data, k).None? {
        AllFail(f, data, vc);
      } else if forall k :: k in YamlKeys(data) ==> Settled(f, data, vc, k) {
        SettledIsIdempotent(f, data, vc);
      } else {
        SomeUnsettled(f, data, vc);
      }
    }
  }

  lemma PickFree(data: Data)
    requires !KeyDetermined(data)
    ensures forall k :: CanPick(data, k) <==> k in YamlKeys(data)
  {
    assert NAMED_KEYS[0] in NAMED_KEYS && NAMED_KEYS[1] in NAMED_KEYS && NAMED_KEYS[2] in NAMED_KEYS;
    assert NAMED_KEYS[0] !in data && NAMED_KEYS[1] !in data && NAMED_KEYS[2] !in data;
  }

  lemma PickDetermined(f: Format, data: Data, vc: VCenterConfig)
    requires Inverse(f) && KeyDetermined(data)
    ensures IdempotentOn(f, data, vc)
  {
    forall k, k' | CanPick(data, k) && MergeAt(f, data, vc, k).Ok? && CanPick(MergeAt(f, data, vc, k).value, k')
      ensures MergeAt(f, MergeAt(f, data, vc, k).value, vc, k') == MergeAt(f, data, vc, k)
    {
      SamePick(data, MergeAt(f, data, vc, k).value, k, k');
      SameKeyAgain(f, data, vc, k);
    }
  }

  lemma SamePick(data: Data, out: Data, k: string, k': string)
    requires KeyDetermined(data) && out.Keys == data.Keys + {k}
    requires CanPick(data, k) && CanPick(out, k')
    ensures k == k'
  {
    var n0, n1, n2 := NAMED_KEYS[0], NAMED_KEYS[1], NAMED_KEYS[2];
    assert HasNamedKey(data) <==> n0 in data || n1 in data || n2 in data;
    if !HasNamedKey(data) && YamlKeys(data) != {} {
      assert k in YamlKeys(data) && YamlKeys(out) == YamlKeys(data);
      assert YamlKeys(data) - {k} == {} by {
        assert |YamlKeys(data) - {k}| == 0;
      }
    }
  }

  /** A determined key is the same in every map order. */
  lemma OnePick(data: Data, k: string, k': string)
    requires KeyDetermined(data) && CanPick(data, k) && CanPick(data, k')
    ensures k == k'
  {
    var n0, n1, n2 := NAMED_KEYS[0], NAMED_KEYS[1], NAMED_KEYS[2];
    assert HasNamedKey(data) <==> n0 in data || n1 in data || n2 in data;
    if !HasNamedKey(data) && YamlKeys(data) != {} {
      assert k in YamlKeys(data) && k' in YamlKeys(data);
      assert YamlKeys(data) - {k} == {} by {
        assert |YamlKeys(data) - {k}| == 0;
      }
    }
  }

  lemma AllFail(f: Format, data: Data, vc: VCenterConfig)
    requires forall k :: CanPick(data, k) <==> k in YamlKeys(data)
    requires forall k :: k in YamlKeys(data) ==> Listed(f, data, k).None?
    ensures IdempotentOn(f, data, vc)
  {
    forall k | CanPick(data, k)
      ensures MergeAt(f, data, vc, k).Err?
    {
    }
  }

  lemma SettledIsIdempotent(f: Format, data: Data, vc: VCenterConfig)
    requires Inverse(f) && vc.password.Some?
    requires forall k :: CanPick(data, k) <==> k in YamlKeys(data)
    requires forall k :: k in YamlKeys(data) ==> Settled(f, data, vc, k)
    ensures IdempotentOn(f, data, vc)
  {
    hide Settled, MergeAt, YamlKeys;
    forall k | CanPick(data, k)
      ensures MergeAt(f, data, vc, k) == Ok(data)
    {
      SettledIff(f, data, vc, k);
    }
  }

  /** One key parses and another is not settled: merging under the first and then the second writes twice. */
  lemma SomeUnsettled(f: Format, data: Data, vc: VCenterConfig)
    requires Inverse(f) && vc.password.Some? && !KeyDetermined(data)
    requires forall k :: CanPick(data, k) <==> k in YamlKeys(data)
    requires exists k :: k in YamlKeys(data) && Listed(f, data, k).Some?
    requires exists k :: k in YamlKeys(data) && !Settled(f, data, vc, k)
    ensures !IdempotentOn(f, data, vc)
  {
    var k1 :| k1 in YamlKeys(data) && Listed(f, data, k1).Some?;
    var k2 :| k2 in YamlKeys(data) && !Settled(f, data, vc, k2);
    if k1 == k2 {
      k2 := OtherKey(YamlKeys(data), k1);
      if Settled(f, data, vc, k2) {
        SettledIff(f, data, vc, k2);
        NotIdempotentAt(f, data, vc, k2, k1);
      } else {
        NotIdempotentAt(f, data, vc, k1, k2);
      }
    } else {
      NotIdempotentAt(f, data, vc, k1, k2);
    }
  }

  lemma OtherKey(keys: set<string>, k: string) returns (other: string)
    requires |keys| > 1 && k in keys
    ensures other in keys && other != k
  {
    assert |keys - {k}| > 0;
    other :| other in keys - {k};
  }

  lemma NotIdempotentAt(f: Format, data: Data, vc: VCenterConfig, k1: string, k2: string)
    requires Inverse(f) && vc.password.Some? && !KeyDetermined(data)
    requires CanPick(data, k1) && k1 in YamlKeys(data) && k2 in YamlKeys(data) && k1 != k2
    requires Listed(f, data, k1).Some? && !Settled(f, data, vc, k2)
    ensures !IdempotentOn(f, data, vc)
  {
    hide SameServer, Upsert, UpToDate;
    var out := MergeAt(f, data, vc, k1).value;
    assert out.Keys == data.Keys && out[k2] == data[k2];
    assert YamlKeys(out) == YamlKeys(data);
    assert HasNamedKey(out) <==> HasNamedKey(data);
    PickFree(out);
    assert CanPick(out, k2);
    assert Settled(f, out, vc, k2) <==> Settled(f, data, vc, k2);
    SettledIff(f, out, vc, k2);
  }

  // ---------------------------------------------------------------- merging again after a merge that may have happened

  predicate AllSettled(f: Format, data: Data, vc: VCenterConfig)
    requires vc.password.Some?
  {
    forall k :: k in YamlKeys(data) ==> Settled(f, data, vc, k)
  }

  predicate BothOpen(f: Format, data: Data, vc: VCenterConfig, k: string, k': string)
    requires vc.password.Some?
  {
    && k != k' && k in YamlKeys(data) && k' in YamlKeys(data)
    && !Settled(f, data, vc, k) && !Settled(f, data, vc, k')
  }

  /** Every YAML key can be merged, and at most one of them is not settled. */
  ghost predicate OneOpen(f: Format, data: Data, vc: VCenterConfig)
    requires vc.password.Some?
  {
    && (forall k :: k in YamlKeys(data) ==> Listed(f, data, k).Some?)
    && forall k, k' :: !BothOpen(f, data, vc, k, k')
  }

  /** Only u is ever rewritten: it is the determined key, or no other key is open. */
  predicate Anchor(f: Format, data: Data, vc: VCenterConfig, u: string)
    requires vc.password.Some?
  {
    && CanPick(data, u) && Listed(f, data, u).Some?
    && (KeyDetermined(data) || forall k :: k in YamlKeys(data) && k != u ==> Settled(f, data, vc, k))
  }

  lemma AnchorExists(f: Format, data: Data, vc: VCenterConfig, key: string) returns (u: string)
    requires vc.password.Some? && CanPick(data, key) && Listed(f, data, key).Some?
    requires KeyDetermined(data) || OneOpen(f, data, vc)
    ensures Anchor(f, data, vc, u)
  {
    hide Listed, Settled, CanPick, YamlKeys;
    u := key;
    if !KeyDetermined(data) {
      PickFree(data);
      if k :| k in YamlKeys(data) && !Settled(f, data, vc, k) {
        u := k;
        forall k' | k' in YamlKeys(data) && k' != k
          ensures Settled(f, data, vc, k')
        {
          assert !BothOpen(f, data, vc, k, k');
        }
      }
    }
  }

  lemma SettledParses(f: Format, data: Data, vc: VCenterConfig, key: string)
    requires Inverse(f) && vc.password.Some? && Settled(f, data, vc, key)
    ensures Listed(f, data, key).Some?
  {
  }

  lemma SettledStays(f: Format, data: Data, vc: VCenterConfig, u: string, text: string, k: string)
    requires vc.password.Some? && k != u
    ensures Settled(f, data[u := text], vc, k) <==> Settled(f, data, vc, k)
  {
    hide UpToDate;
  }

  lemma PickStays(data: Data, u: string, text: string, k: string)
    requires CanPick(data, u) && !KeyDetermined(data)
    ensures CanPick(data[u := text], k) <==> CanPick(data, k)
    ensures CanPick(data, k) <==> k in YamlKeys(data)
  {
    var out := data[u := text];
    PickFree(data);
    assert out.Keys == data.Keys;
    assert YamlKeys(out) == YamlKeys(data) && (HasNamedKey(out) <==> HasNamedKey(data));
    PickFree(out);
  }

  /** Whatever key the second merge picks, it leaves what one merge leaves. */
  lemma MergeAfterAnchor(f: Format, data: Data, vc: VCenterConfig, u: string, now: Data, key: string)
      returns (k: string)
    requires Inverse(f) && vc.password.Some? && Anchor(f, data, vc, u) && CanPick(now, key)
    requires now == data || Ok(now) == MergeAt(f, data, vc, u)
    ensures CanPick(data, k) && MergeAt(f, data, vc, k).Ok? && MergeAt(f, now, vc, key) == MergeAt(f, data, vc, k)
    ensures MergeAt(f, data, vc, k) in {Ok(data), MergeAt(f, data, vc, u)}
  {
    var merged := MergeAt(f, data, vc, u).value;
    if KeyDetermined(data) {
      k := u;
      SameKeyAgain(f, data, vc, u);
      hide KeyDetermined, CanPick;
      if now == data {
        OnePick(data, u, key);
      } else {
        SamePick(data, merged, u, key);
      }
    } else {
      PickStays(data, u, merged[u], key);
      assert merged == data[u := merged[u]];
      if key == u {
        k := u;
        SameKeyAgain(f, data, vc, u);
      } else {
        SettledStays(f, data, vc, u, merged[u], key);
        SettledIff(f, data, vc, key);
        SettledIff(f, now, vc, key);
        k := if now == data then key else u;
      }
    }
  }

  lemma PicksAgree(f: Format, data: Data, vc: VCenterConfig, k: string, k': string)
    requires Inverse(f) && vc.password.Some? && CanPick(data, k) && CanPick(data, k')
    requires KeyDetermined(data) || AllSettled(f, data, vc)
    ensures MergeAt(f, data, vc, k) == MergeAt(f, data, vc, k')
  {
    hide Settled, MergeAt;
    if KeyDetermined(data) {
      OnePick(data, k, k');
    } else {
      PickFree(data);
      SettledIff(f, data, vc, k);
      SettledIff(f, data, vc, k');
    }
  }

  /** When all picks leave the same, all YAML keys are settled, or there was only one pick. */
  lemma SameOutcomeSettles(f: Format, data: Data, vc: VCenterConfig)
    requires Inverse(f) && vc.password.Some? && !KeyDetermined(data)
    requires forall k, k' :: k in YamlKeys(data) && k' in YamlKeys(data) ==>
      MergeAt(f, data, vc, k).Ok? && MergeAt(f, data, vc, k) == MergeAt(f, data, vc, k')
    ensures AllSettled(f, data, vc)
  {
    hide Listed, Upsert, Settled;
    forall k | k in YamlKeys(data)
      ensures Settled(f, data, vc, k)
    {
      var k' := OtherKey(YamlKeys(data), k);
      var a, b := MergeAt(f, data, vc, k).value, MergeAt(f, data, vc, k').value;
      assert a[k] == b[k] == data[k];
      assert a == data;
      SettledIff(f, data, vc, k);
    }
  }

  /** Two open keys merged one after the other leave what no single merge leaves. */
  lemma TwoMergesShow(f: Format, data: Data, vc: VCenterConfig, k: string, k': string, single: string)
    requires Inverse(f) && vc.password.Some? && k in data && k' in data && k != k'
    requires !Settled(f, data, vc, k) && !Settled(f, data, vc, k')
    requires MergeAt(f, data, vc, k).Ok? && MergeAt(f, data, vc, k').Ok?
    ensures MergeAt(f, MergeAt(f, data, vc, k).value, vc, k') != MergeAt(f, data, vc, single)
  {
    hide Upsert, Settled;
    SettledIff(f, data, vc, k);
    SettledIff(f, data, vc, k');
    var once := MergeAt(f, data, vc, k).value;
    assert once == data[k := once[k]];
    assert data[k := data[k]] == data && data[k' := data[k']] == data;
    var other := MergeAt(f, data, vc, k').value;
    assert other == data[k' := other[k']];
    var twice := MergeAt(f, once, vc, k').value;
    assert Listed(f, once, k') == Listed(f, data, k');
    assert twice[k] != data[k] && twice[k'] != data[k'];
  }
}
