/**
 The Infrastructure spec as far as the lab tool reads and writes it, its JSON
 encoding, the append-only spec that Apply builds, and the removal helpers of
 pkg/vsphere/types.go.
 */
module Infrastructure {
  import opened Wrappers
  import opened MergePatch

  datatype VCenter = VCenter(server: string, port: int, datacenters: seq<string>)

  datatype Topology = Topology(
    computeCluster: string, datacenter: string, datastore: string, networks: seq<string>, resourcePool: string)

  datatype FailureDomain = FailureDomain(name: string, region: string, zone: string, server: string, topology: Topology)

  /** rest holds the encoded members that the tool only carries along. */
  datatype VSphere = VSphere(vcenters: seq<VCenter>, failureDomains: seq<FailureDomain>, rest: map<string, Json>)

  datatype Spec = Spec(platformType: string, vsphere: Option<VSphere>, platformRest: map<string, Json>,
      rest: map<string, Json>)

  /** labconfig.VCenterConfig; password is None when the password file cannot be read. */
  datatype VCenterConfig = VCenterConfig(
    server: string, port: int, datacenters: seq<string>, username: string, password: Option<string>)

  datatype FailureDomainConfig = FailureDomainConfig(name: string, region: string, zone: string, topology: Topology)

  datatype LabConfig = LabConfig(second: VCenterConfig, failureDomain: Option<FailureDomainConfig>)

  const MAX_VCENTERS: nat := 3

  function VCentersOf(spec: Spec): seq<VCenter> {
    if spec.vsphere.Some? then spec.vsphere.value.vcenters else []
  }

  function FailureDomainsOf(spec: Spec): seq<FailureDomain> {
    if spec.vsphere.Some? then spec.vsphere.value.failureDomains else []
  }

  function Servers(vcs: seq<VCenter>): set<string> {
    set i | 0 <= i < |vcs| :: vcs[i].server
  }

  // ---------------------------------------------------------------- the spec Apply builds

  function NewVCenter(cfg: LabConfig): VCenter {
    VCenter(cfg.second.server, cfg.second.port, cfg.second.datacenters)
  }

  function NewFailureDomains(cfg: LabConfig): seq<FailureDomain> {
    if cfg.failureDomain.None? then [] else
      var fd := cfg.failureDomain.value;
      [FailureDomain(fd.name, fd.region, fd.zone, cfg.second.server, fd.topology)]
  }

  function Build(spec: Spec, cfg: LabConfig): Option<Spec> {
    if spec.vsphere.None? then None else
      var vs := spec.vsphere.value;
      Some(spec.(vsphere := Some(vs.(
        vcenters := vs.vcenters + [NewVCenter(cfg)],
        failureDomains := vs.failureDomains + NewFailureDomains(cfg)))))
  }

  /** after is before with the configured vCenter at the end, the failure domain if there is one, and nothing else. */
  ghost predicate Adds(before: Spec, after: Spec, cfg: LabConfig) {
    && before.vsphere.Some? && after.vsphere.Some?
    && after.platformType == before.platformType && after.platformRest == before.platformRest
    && after.rest == before.rest && after.vsphere.value.rest == before.vsphere.value.rest
    && var vcs, vcs' := before.vsphere.value.vcenters, after.vsphere.value.vcenters;
    && |vcs'| == |vcs| + 1 && vcs'[..|vcs|] == vcs
    && var vc := vcs'[|vcs|];
    && vc.server == cfg.second.server && vc.port == cfg.second.port && vc.datacenters == cfg.second.datacenters
    && var fds, fds' := before.vsphere.value.failureDomains, after.vsphere.value.failureDomains;
    match cfg.failureDomain
    case None => fds' == fds
    case Some(given) =>
      && |fds'| == |fds| + 1 && fds'[..|fds|] == fds
      && var fd := fds'[|fds|];
      && fd.name == given.name && fd.region == given.region && fd.zone == given.zone
      && fd.server == cfg.second.server && fd.topology == given.topology
  }

  lemma BuildAdds(spec: Spec, cfg: LabConfig)
    ensures Build(spec, cfg).Some? <==> spec.vsphere.Some?
    ensures Build(spec, cfg).Some? ==> Adds(spec, Build(spec, cfg).value, cfg)
  {
  }

  method BuildInfrastructureSpec(spec: Spec, cfg: LabConfig) returns (r: Option<Spec>, fdName: string)
    ensures r == Build(spec, cfg)
    ensures fdName == if r.Some? && cfg.failureDomain.Some? then cfg.failureDomain.value.name else ""
    ensures r.Some? <==> spec.vsphere.Some?
    ensures r.Some? ==> Adds(spec, r.value, cfg)
  {
    BuildAdds(spec, cfg);
    fdName := "";
    if spec.vsphere.None? {
      return None, fdName;
    }
    var vs := spec.vsphere.value;
    vs := vs.(vcenters := vs.vcenters + [VCenter(cfg.second.server, cfg.second.port, cfg.second.datacenters)]);
    if cfg.failureDomain.Some? {
      var fd := cfg.failureDomain.value;
      var added := FailureDomain(fd.name, fd.region, fd.zone, cfg.second.server, fd.topology);
      vs := vs.(failureDomains := vs.failureDomains + [added]);
      fdName := fd.name;
    }
    assert spec.vsphere.value.failureDomains + [] == spec.vsphere.value.failureDomains;
    return Some(spec.(vsphere := Some(vs))), fdName;
  }

  /** vsphereHasServer. */
  method HasServer(vcs: seq<VCenter>, server: string) returns (found: bool)
    ensures found <==> server in Servers(vcs)
    ensures found <==> exists i :: 0 <= i < |vcs| && vcs[i].server == server
  {
    for i := 0 to |vcs|
      invariant forall j :: 0 <= j < i ==> vcs[j].server != server
    {
      if vcs[i].server == server {
        return true;
      }
    }
    return false;
  }

  /** What the cluster must satisfy: distinct servers, at most three, no failure domain on an unknown server. */
  ghost predicate SpecOk(spec: Spec) {
    && (forall i, j :: 0 <= i < j < |VCentersOf(spec)| ==> VCentersOf(spec)[i].server != VCentersOf(spec)[j].server)
    && |VCentersOf(spec)| <= MAX_VCENTERS
    && forall i :: 0 <= i < |FailureDomainsOf(spec)| ==> FailureDomainsOf(spec)[i].server in Servers(VCentersOf(spec))
  }

  /** The two guards of Apply are what keeps the spec valid. */
  lemma BuildKeepsSpecOk(spec: Spec, cfg: LabConfig)
    requires SpecOk(spec) && Build(spec, cfg).Some?
    ensures SpecOk(Build(spec, cfg).value) <==>
      cfg.second.server !in Servers(VCentersOf(spec)) && |VCentersOf(spec)| < 3
  {
    var spec' := Build(spec, cfg).value;
    var vcs, vcs' := VCentersOf(spec), VCentersOf(spec');
    assert vcs'[|vcs|] == NewVCenter(cfg);
    assert Servers(vcs') == Servers(vcs) + {cfg.second.server} by {
      forall i | 0 <= i < |vcs|
        ensures vcs[i].server in Servers(vcs')
      {
        assert vcs'[i] == vcs[i];
      }
    }
    if cfg.second.server in Servers(vcs) {
      var i :| 0 <= i < |vcs| && vcs[i].server == cfg.second.server;
      assert vcs'[i].server == vcs'[|vcs|].server;
    } else {
      forall i, j | 0 <= i < j < |vcs'|
        ensures vcs'[i].server != vcs'[j].server
      {
        assert vcs'[i] == vcs[i] && vcs[i].server in Servers(vcs);
        if j < |vcs| { assert vcs'[j] == vcs[j]; }
      }
      var fds, fds' := FailureDomainsOf(spec), FailureDomainsOf(spec');
      forall i | 0 <= i < |fds'|
        ensures fds'[i].server in Servers(vcs')
      {
        if i < |fds| { assert fds'[i] == fds[i]; }
      }
    }
  }

  // ---------------------------------------------------------------- removing what was added

  function WithoutRegionZone(fds: seq<FailureDomain>, region: string, zone: string): seq<FailureDomain> {
    if fds == [] then [] else
      var n := |fds| - 1;
      WithoutRegionZone(fds[..n], region, zone)
      + if fds[n].region == region && fds[n].zone == zone then [] else [fds[n]]
  }

  function WithoutServer(vcs: seq<VCenter>, server: string): seq<VCenter> {
    if vcs == [] then [] else
      var n := |vcs| - 1;
      WithoutServer(vcs[..n], server) + if vcs[n].server == server then [] else [vcs[n]]
  }

  /** out is xs at the positions kept, in order. */
  predicate Picked<T(==)>(xs: seq<T>, kept: seq<nat>, out: seq<T>) {
    && |out| == |kept|
    && (forall j :: 0 <= j < |kept| ==> kept[j] < |xs| && out[j] == xs[kept[j]])
    && forall j, k :: 0 <= j < k < |kept| ==> kept[j] < kept[k]
  }

  predicate AllBelow(kept: seq<nat>, i: nat) {
    forall j :: 0 <= j < |kept| ==> kept[j] < i
  }

  lemma PickedOneMore<T>(xs: seq<T>, kept: seq<nat>, out: seq<T>, i: nat)
    requires Picked(xs, kept, out) && AllBelow(kept, i) && i < |xs|
    ensures Picked(xs, kept + [i], out + [xs[i]]) && AllBelow(kept + [i], i + 1) && i !in kept
  {
  }

  /** kept are the positions of the failure domains that stay. */
  method RemoveFailureDomainByRegionZone(fds: seq<FailureDomain>, region: string, zone: string)
    returns (out: seq<FailureDomain>, ghost kept: seq<nat>)
    ensures out == WithoutRegionZone(fds, region, zone) && Picked(fds, kept, out)
    ensures forall i :: 0 <= i < |fds| ==> (i in kept <==> fds[i].region != region || fds[i].zone != zone)
  {
    out, kept := [], [];
    for i := 0 to |fds|
      invariant out == WithoutRegionZone(fds[..i], region, zone)
      invariant Picked(fds, kept, out) && AllBelow(kept, i)
      invariant forall j :: 0 <= j < i ==> (j in kept <==> fds[j].region != region || fds[j].zone != zone)
    {
      assert fds[..i + 1][..i] == fds[..i];
      assert i !in kept;
      if fds[i].region == region && fds[i].zone == zone {
        continue;
      }
      PickedOneMore(fds, kept, out, i);
      out, kept := out + [fds[i]], kept + [i];
    }
    assert fds[..|fds|] == fds;
  }

  /** kept are the positions of the vCenters that stay. */
  method RemoveVCenterByServer(vcs: seq<VCenter>, server: string) returns (out: seq<VCenter>, ghost kept: seq<nat>)
    ensures out == WithoutServer(vcs, server) && Picked(vcs, kept, out)
    ensures forall i :: 0 <= i < |vcs| ==> (i in kept <==> vcs[i].server != server)
  {
    out, kept := [], [];
    for i := 0 to |vcs|
      invariant out == WithoutServer(vcs[..i], server)
      invariant Picked(vcs, kept, out) && AllBelow(kept, i)
      invariant forall j :: 0 <= j < i ==> (j in kept <==> vcs[j].server != server)
    {
      assert vcs[..i + 1][..i] == vcs[..i];
      assert i !in kept;
      if vcs[i].server == server {
        continue;
      }
      PickedOneMore(vcs, kept, out, i);
      out, kept := out + [vcs[i]], kept + [i];
    }
    assert vcs[..|vcs|] == vcs;
  }

  /** Nothing is removed exactly when nothing matches; never more than the list itself remains. */
  lemma {:induction false} WithoutRegionZoneIff(fds: seq<FailureDomain>, region: string, zone: string)
    ensures |WithoutRegionZone(fds, region, zone)| <= |fds|
    ensures WithoutRegionZone(fds, region, zone) == fds <==>
      forall i :: 0 <= i < |fds| ==> !(fds[i].region == region && fds[i].zone == zone)
  {
    if fds != [] {
      var n := |fds| - 1;
      WithoutRegionZoneIff(fds[..n], region, zone);
      assert fds == fds[..n] + [fds[n]];
    }
  }

  lemma {:induction false} WithoutServerIff(vcs: seq<VCenter>, server: string)
    ensures |WithoutServer(vcs, server)| <= |vcs|
    ensures WithoutServer(vcs, server) == vcs <==> server !in Servers(vcs)
  {
    if vcs != [] {
      var n := |vcs| - 1;
      WithoutServerIff(vcs[..n], server);
      assert vcs == vcs[..n] + [vcs[n]];
      assert Servers(vcs) == Servers(vcs[..n]) + {vcs[n].server};
    }
  }

  /** Remove the added region/zone, then the added server: the lists are back exactly when that region/zone was new. */
  lemma RemoveUndoesBuildIff(spec: Spec, cfg: LabConfig)
    requires cfg.second.server !in Servers(VCentersOf(spec)) && Build(spec, cfg).Some? && cfg.failureDomain.Some?
    ensures var spec', fd := Build(spec, cfg).value, cfg.failureDomain.value;
      && WithoutServer(VCentersOf(spec'), cfg.second.server) == VCentersOf(spec)
      && (WithoutRegionZone(FailureDomainsOf(spec'), fd.region, fd.zone) == FailureDomainsOf(spec) <==>
            forall i :: 0 <= i < |FailureDomainsOf(spec)| ==>
              !(FailureDomainsOf(spec)[i].region == fd.region && FailureDomainsOf(spec)[i].zone == fd.zone))
  {
    var spec', fd := Build(spec, cfg).value, cfg.failureDomain.value;
    var vcs, fds := VCentersOf(spec), FailureDomainsOf(spec);
    assert VCentersOf(spec')[..|vcs|] == vcs;
    WithoutServerIff(vcs, cfg.second.server);
    assert FailureDomainsOf(spec')[..|fds|] == fds;
    WithoutRegionZoneIff(fds, fd.region, fd.zone);
  }

  // ---------------------------------------------------------------- the spec as JSON, and the merge patch

  /** How one list element is encoded; array elements are never merged, so any encoding will do. */
  datatype Elements = Elements(vcenter: VCenter -> Json, failureDomain: FailureDomain -> Json)

  function EncodeAll<T>(xs: seq<T>, f: T -> Json): Json {
    Arr(seq(|xs|, i requires 0 <= i < |xs| => f(xs[i])))
  }

  /** Empty lists are omitted ("omitempty"). */
  function EncodeVSphere(e: Elements, vs: VSphere): Json {
    var m := if vs.vcenters == [] then vs.rest else vs.rest["vcenters" := EncodeAll(vs.vcenters, e.vcenter)];
    Obj(if vs.failureDomains == [] then m else m["failureDomains" := EncodeAll(vs.failureDomains, e.failureDomain)])
  }

  function EncodePlatform(e: Elements, spec: Spec): Json {
    var m := spec.platformRest["type" := Str(spec.platformType)];
    Obj(if spec.vsphere.None? then m else m["vsphere" := EncodeVSphere(e, spec.vsphere.value)])
  }

  function EncodeSpec(e: Elements, spec: Spec): Json {
    Obj(spec.rest["platformSpec" := EncodePlatform(e, spec)])
  }

  /** Where the two lists stand in the document; an empty one stands nowhere. */
  lemma ListsInDocument(e: Elements, spec: Spec)
    requires spec.vsphere.Some?
    requires "vcenters" !in spec.vsphere.value.rest && "failureDomains" !in spec.vsphere.value.rest
    ensures var platform := Fields(Fields(EncodeSpec(e, spec))["platformSpec"]);
      && platform["type"] == Str(spec.platformType)
      && var vs, vcs, fds := Fields(platform["vsphere"]), VCentersOf(spec), FailureDomainsOf(spec);
      && (if vcs == [] then "vcenters" !in vs
          else vs["vcenters"] == Arr(seq(|vcs|, i requires 0 <= i < |vcs| => e.vcenter(vcs[i]))))
      && (if fds == [] then "failureDomains" !in vs
          else vs["failureDomains"] == Arr(seq(|fds|, i requires 0 <= i < |fds| => e.failureDomain(fds[i]))))
  {
    var platform := EncodePlatform(e, spec);
    assert platform.fields["vsphere"] == EncodeVSphere(e, spec.vsphere.value);
  }

  /** The carried members avoid the tool's own keys and hold no null. */
  predicate RestOk(spec: Spec) {
    && "platformSpec" !in spec.rest && NullFree(Obj(spec.rest))
    && "type" !in spec.platformRest && "vsphere" !in spec.platformRest && NullFree(Obj(spec.platformRest))
    && (spec.vsphere.Some? ==>
          && "vcenters" !in spec.vsphere.value.rest && "failureDomains" !in spec.vsphere.value.rest
          && NullFree(Obj(spec.vsphere.value.rest)))
  }

  lemma VSphereNullFree(e: Elements, vs: VSphere)
    requires NullFree(Obj(vs.rest))
    ensures NullFree(EncodeVSphere(e, vs))
  {
  }

  lemma PlatformNullFree(e: Elements, spec: Spec)
    requires RestOk(spec)
    ensures NullFree(EncodePlatform(e, spec))
  {
    if spec.vsphere.Some? { VSphereNullFree(e, spec.vsphere.value); }
  }

  lemma SpecNullFree(e: Elements, spec: Spec)
    requires RestOk(spec)
    ensures NullFree(EncodeSpec(e, spec))
  {
    PlatformNullFree(e, spec);
  }

  /** The two specs carry the same other members. */
  predicate SameRest(a: Spec, b: Spec) {
    && a.rest == b.rest && a.platformRest == b.platformRest
    && (a.vsphere.Some? && b.vsphere.Some? ==> a.vsphere.value.rest == b.vsphere.value.rest)
  }

  /** Going from a to b drops no section and empties no list. */
  predicate EmptiesNothing(a: Spec, b: Spec) {
    && (a.vsphere.Some? ==> b.vsphere.Some?)
    && (VCentersOf(a) != [] ==> VCentersOf(b) != [])
    && (FailureDomainsOf(a) != [] ==> FailureDomainsOf(b) != [])
  }

  lemma VSphereCovered(e: Elements, a: VSphere, b: VSphere)
    requires a.rest == b.rest && "vcenters" !in a.rest && "failureDomains" !in a.rest
    ensures Covered(EncodeVSphere(e, a), EncodeVSphere(e, b)) <==>
      (a.vcenters != [] ==> b.vcenters != []) && (a.failureDomains != [] ==> b.failureDomains != [])
  {
    var x, y := EncodeVSphere(e, a).fields, EncodeVSphere(e, b).fields;
    assert "vcenters" in x <==> a.vcenters != [];
    assert "vcenters" in y <==> b.vcenters != [];
    assert "failureDomains" in x <==> a.failureDomains != [];
    assert "failureDomains" in y <==> b.failureDomains != [];
    forall k | k in x && k in y
      ensures Covered(x[k], y[k])
    {
      if k in a.rest { CoveredSelf(a.rest[k]); }
    }
  }

  lemma PlatformCovered(e: Elements, a: Spec, b: Spec)
    requires RestOk(a) && RestOk(b) && SameRest(a, b)
    ensures Covered(EncodePlatform(e, a), EncodePlatform(e, b)) <==> EmptiesNothing(a, b)
  {
    var x, y := EncodePlatform(e, a).fields, EncodePlatform(e, b).fields;
    if a.vsphere.Some? && b.vsphere.Some? {
      VSphereCovered(e, a.vsphere.value, b.vsphere.value);
    }
    forall k | k in a.platformRest
      ensures Covered(x[k], y[k])
    {
      CoveredSelf(a.platformRest[k]);
    }
    assert "vsphere" in x <==> a.vsphere.Some?;
  }

  lemma SpecCovered(e: Elements, a: Spec, b: Spec)
    requires RestOk(a) && RestOk(b) && SameRest(a, b)
    ensures Covered(EncodeSpec(e, a), EncodeSpec(e, b)) <==> Covered(EncodePlatform(e, a), EncodePlatform(e, b))
  {
    hide EncodePlatform;
    var x, y := EncodeSpec(e, a).fields, EncodeSpec(e, b).fields;
    forall k | k in a.rest
      ensures Covered(x[k], y[k])
    {
      CoveredSelf(a.rest[k]);
    }
    assert x["platformSpec"] == EncodePlatform(e, a) && y["platformSpec"] == EncodePlatform(e, b);
    assert x.Keys == y.Keys;
    assert "platformSpec" in x && "platformSpec" in y;
  }

  /**
   ReplaceInfrastructureSpec: between specs that differ only in vCenters and failure
   domains, the merge patch is a replacement exactly when it does not empty a list
   (or drop the vSphere section); an emptied list is omitted and the old one stays.
   */
  lemma PatchReplacesIff(e: Elements, a: Spec, b: Spec)
    requires RestOk(a) && RestOk(b) && SameRest(a, b)
    ensures Merge(EncodeSpec(e, a), EncodeSpec(e, b)) == EncodeSpec(e, b) <==> EmptiesNothing(a, b)
  {
    SpecNullFree(e, b);
    hide EncodeSpec, EncodePlatform;
    ReplacesIff(EncodeSpec(e, a), EncodeSpec(e, b));
    SpecCovered(e, a, b);
    PlatformCovered(e, a, b);
  }

  /** The patch Apply sends sets the spec to the built one and leaves every other member of the object alone. */
  lemma ApplyPatchReplacesSpec(e: Elements, infra: map<string, Json>, spec: Spec, cfg: LabConfig)
    requires "spec" in infra && infra["spec"] == EncodeSpec(e, spec) && RestOk(spec) && Build(spec, cfg).Some?
    ensures Merge(Obj(infra), Obj(map["spec" := EncodeSpec(e, Build(spec, cfg).value)])) ==
      Obj(infra["spec" := EncodeSpec(e, Build(spec, cfg).value)])
  {
    var spec' := Build(spec, cfg).value;
    PatchReplacesIff(e, spec, spec');
    MergeOneField(infra, "spec", EncodeSpec(e, spec'));
  }

  lemma MergeOneField(target: map<string, Json>, k: string, v: Json)
    requires !v.Null?
    ensures Merge(Obj(target), Obj(map[k := v])) == Obj(target[k := Merge(if k in target then target[k] else Null, v)])
  {
    MergeStep(target, map[k := v]);
    hide Merge;
    assert MergedFields(target, map[k := v]) == target[k := Merge(if k in target then target[k] else Null, v)];
  }
}
