/** The storage provisioning chain: reuse an existing claim, else claim a
    pre-labelled available volume, else provision through a storage class
    found by name, by label or as the cluster default. */
module K8sStorage {
  import opened K8sApi
  import opened K8sResources
  import opened K8sNaming
  import opened K8sCluster

  /** A request for durable storage; `accessMode` `None` is Go's empty mode. */
  datatype VolumeParams = VolumeParams(
    storageLabels: seq<string>, storageClassName: string, pvcName: string,
    volumeName: string, volumeSize: string, labels: Labels, accessMode: Option<AccessMode>)

  /** The selector `juju-storage in (labels...)`. */
  function StorageSelector(labels: seq<string>): Selector
  {
    In(LabelStorage, labels)
  }

  /** A list request: the items the selector picks, in list order. */
  function ListVolumes(vs: seq<PersistentVolume>, sel: Selector): (r: seq<PersistentVolume>)
    ensures forall v :: v in r <==> v in vs && Selects(sel, v.labels)
  {
    if |vs| == 0 then []
    else (if Selects(sel, vs[0].labels) then [vs[0]] else []) + ListVolumes(vs[1..], sel)
  }

  function ListClasses(cs: seq<StorageClass>, sel: Selector): (r: seq<StorageClass>)
    ensures forall c :: c in r <==> c in cs && Selects(sel, c.labels)
  {
    if |cs| == 0 then []
    else (if Selects(sel, cs[0].labels) then [cs[0]] else []) + ListClasses(cs[1..], sel)
  }

  // ---- getAvailableVolume -----------------------------------------------------

  /** A listed volume `getAvailableVolume` may take. */
  predicate AvailableWith(pv: PersistentVolume, className: string)
  {
    pv.phase == VolumeAvailable && (className == "" || pv.storageClassName == className)
  }

  /** The name and class of the first volume of `pvs` that may be taken. */
  function FirstAvailable(pvs: seq<PersistentVolume>, className: string): (r: Result<(string, string)>)
    ensures r.Ok? <==> exists i :: 0 <= i < |pvs| && AvailableWith(pvs[i], className)
    ensures r.Ok? ==> exists i :: (0 <= i < |pvs| && AvailableWith(pvs[i], className) &&
      r.value == (pvs[i].name, pvs[i].storageClassName) &&
      forall j :: 0 <= j < i ==> !AvailableWith(pvs[j], className))
    ensures r.Err? ==> r.error == NotFound(VolumeKind, "")
  {
    if |pvs| == 0 then Err(NotFound(VolumeKind, ""))
    else if AvailableWith(pvs[0], className) then Ok((pvs[0].name, pvs[0].storageClassName))
    else
      var r := FirstAvailable(pvs[1..], className);
      assert forall i :: 1 <= i < |pvs| ==> pvs[i] == pvs[1..][i - 1];
      if r.Ok? then
        var i :| 0 <= i < |pvs[1..]| && AvailableWith(pvs[1..][i], className) &&
          r.value == (pvs[1..][i].name, pvs[1..][i].storageClassName) &&
          forall j :: 0 <= j < i ==> !AvailableWith(pvs[1..][j], className);
        assert AvailableWith(pvs[i + 1], className);
        r
      else r
  }

  function AvailableVolumeFor(e: Env, vs: seq<PersistentVolume>, className: string, labels: seq<string>)
    : Result<(string, string)>
  {
    if e.Faulted(List, VolumeKind) then Err(ApiFailure(List, VolumeKind))
    else FirstAvailable(ListVolumes(vs, StorageSelector(labels)), className)
  }

  /** `getAvailableVolume`: the first labelled volume that is available and,
      when a class is named, of that class. */
  method GetAvailableVolume(k: Cluster, className: string, labels: seq<string>)
    returns (r: Result<(string, string)>)
    ensures r == AvailableVolumeFor(k.env, k.volumes, className, labels)
  {
    if k.env.Faulted(List, VolumeKind) {
      return Err(ApiFailure(List, VolumeKind));
    }
    var pvs := ListVolumes(k.volumes, StorageSelector(labels));
    var i := 0;
    while i < |pvs|
      invariant 0 <= i <= |pvs|
      invariant forall j :: 0 <= j < i ==> !AvailableWith(pvs[j], className)
    {
      if pvs[i].phase != VolumeAvailable {
        i := i + 1;
        continue;
      }
      if className != "" && pvs[i].storageClassName != className {
        i := i + 1;
        continue;
      }
      return Ok((pvs[i].name, pvs[i].storageClassName));
    }
    return Err(NotFound(VolumeKind, ""));
  }

  /** A volume of the cluster that `getAvailableVolume` may take: one the
      label selector picks and that is available with the class. */
  predicate Takeable(v: PersistentVolume, sel: Selector, className: string)
  {
    Selects(sel, v.labels) && AvailableWith(v, className)
  }

  /** The index of the earliest takeable volume of `vs`, or `|vs|` when
      there is none. */
  function FirstTakeable(vs: seq<PersistentVolume>, sel: Selector, className: string): (i: nat)
    ensures i <= |vs|
    ensures i < |vs| ==> Takeable(vs[i], sel, className)
    ensures forall j :: 0 <= j < i ==> !Takeable(vs[j], sel, className)
  {
    if |vs| == 0 then 0
    else if Takeable(vs[0], sel, className) then 0
    else
      var k := FirstTakeable(vs[1..], sel, className);
      assert forall j :: 1 <= j < |vs| ==> vs[j] == vs[1..][j - 1];
      1 + k
  }

  /** `r` is the volume at index `i` of `vs`, or not found when `i` is past
      the end. */
  predicate FoundAt(r: Result<(string, string)>, vs: seq<PersistentVolume>, i: nat)
  {
    (r.Ok? <==> i < |vs|) && (i < |vs| ==> r.value == (vs[i].name, vs[i].storageClassName))
  }

  lemma FoundAtCons(r: Result<(string, string)>, vs: seq<PersistentVolume>, k: nat)
    requires |vs| > 0 && FoundAt(r, vs[1..], k)
    ensures FoundAt(r, vs, k + 1)
  {
    if k < |vs| - 1 {
      assert vs[1..][k] == vs[k + 1];
    }
  }

  /** Listing and then taking the first available volume takes the earliest
      takeable volume of the cluster's own list. */
  lemma {:induction false} FirstListedAvailable(vs: seq<PersistentVolume>, sel: Selector, className: string)
    ensures FoundAt(FirstAvailable(ListVolumes(vs, sel), className), vs, FirstTakeable(vs, sel, className))
  {
    if |vs| == 0 {
      FirstListedEmpty(vs, sel, className);
    } else if Takeable(vs[0], sel, className) {
      FirstListedHead(vs, sel, className);
    } else {
      FirstListedAvailable(vs[1..], sel, className);
      FirstListedSkip(vs, sel, className);
    }
  }

  lemma FirstListedEmpty(vs: seq<PersistentVolume>, sel: Selector, className: string)
    requires |vs| == 0
    ensures FoundAt(FirstAvailable(ListVolumes(vs, sel), className), vs, FirstTakeable(vs, sel, className))
  {
    assert ListVolumes(vs, sel) == [];
  }

  lemma FirstListedHead(vs: seq<PersistentVolume>, sel: Selector, className: string)
    requires |vs| > 0 && Takeable(vs[0], sel, className)
    ensures FoundAt(FirstAvailable(ListVolumes(vs, sel), className), vs, FirstTakeable(vs, sel, className))
  {
    var l := ListVolumes(vs, sel);
    assert l[0] == vs[0];
    assert FirstAvailable(l, className) == Ok((vs[0].name, vs[0].storageClassName));
    assert FirstTakeable(vs, sel, className) == 0;
  }

  lemma FirstListedSkip(vs: seq<PersistentVolume>, sel: Selector, className: string)
    requires |vs| > 0 && !Takeable(vs[0], sel, className)
    requires FoundAt(FirstAvailable(ListVolumes(vs[1..], sel), className), vs[1..], FirstTakeable(vs[1..], sel, className))
    ensures FoundAt(FirstAvailable(ListVolumes(vs, sel), className), vs, FirstTakeable(vs, sel, className))
  {
    ListedSkip(vs, sel, className);
    FoundAtCons(FirstAvailable(ListVolumes(vs[1..], sel), className), vs, FirstTakeable(vs[1..], sel, className));
  }

  /** A volume that cannot be taken changes neither what is found nor,
      but for the shift, where. */
  lemma ListedSkip(vs: seq<PersistentVolume>, sel: Selector, className: string)
    requires |vs| > 0 && !Takeable(vs[0], sel, className)
    ensures FirstAvailable(ListVolumes(vs, sel), className) == FirstAvailable(ListVolumes(vs[1..], sel), className)
    ensures FirstTakeable(vs, sel, className) == FirstTakeable(vs[1..], sel, className) + 1
  {
    var l := ListVolumes(vs, sel);
    if Selects(sel, vs[0].labels) {
      assert l[1..] == ListVolumes(vs[1..], sel);
    } else {
      assert l == ListVolumes(vs[1..], sel);
    }
  }

  /** `getAvailableVolume` in terms of the cluster's volumes: a failed list
      is reported; otherwise the earliest labelled volume that is available
      with the class is taken, and none is not-found. */
  lemma AvailableVolumeInListOrder(e: Env, vs: seq<PersistentVolume>, className: string, labels: seq<string>)
    ensures var r := AvailableVolumeFor(e, vs, className, labels);
      var sel := StorageSelector(labels);
      && (e.Faulted(List, VolumeKind) ==> r == Err(ApiFailure(List, VolumeKind)))
      && (!e.Faulted(List, VolumeKind) ==>
            && (r.Ok? <==> exists i :: 0 <= i < |vs| && Takeable(vs[i], sel, className))
            && (r.Ok? ==> exists i :: (0 <= i < |vs| && Takeable(vs[i], sel, className) &&
                  r.value == (vs[i].name, vs[i].storageClassName) &&
                  forall j :: 0 <= j < i ==> !Takeable(vs[j], sel, className)))
            && (r.Err? ==> r.error == NotFound(VolumeKind, "")))
  {
    var sel := StorageSelector(labels);
    FirstListedAvailable(vs, sel, className);
    var i := FirstTakeable(vs, sel, className);
    if i < |vs| {
      assert Takeable(vs[i], sel, className);
    }
  }

  // ---- maybeGetStorageClass ----------------------------------------------------

  /** A class that carries the default-class annotation with a value other
      than "false". */
  predicate IsDefaultClass(sc: StorageClass)
  {
    DefaultClassAnnotation in sc.annotations && sc.annotations[DefaultClassAnnotation] != "false"
  }

  /** The first of `cs` satisfying `IsDefaultClass`. */
  function FirstDefault(cs: seq<StorageClass>): (r: Option<StorageClass>)
    ensures r.Some? <==> exists i :: 0 <= i < |cs| && IsDefaultClass(cs[i])
    ensures r.Some? ==> exists i :: (0 <= i < |cs| && r.value == cs[i] && IsDefaultClass(cs[i]) &&
      forall j :: 0 <= j < i ==> !IsDefaultClass(cs[j]))
  {
    if |cs| == 0 then None
    else if IsDefaultClass(cs[0]) then Some(cs[0])
    else
      var r := FirstDefault(cs[1..]);
      assert forall i :: 1 <= i < |cs| ==> cs[i] == cs[1..][i - 1];
      if r.Some? then
        var i :| 0 <= i < |cs[1..]| && r.value == cs[1..][i] && IsDefaultClass(cs[1..][i]) &&
          forall j :: 0 <= j < i ==> !IsDefaultClass(cs[1..][j]);
        assert r.value == cs[i + 1];
        r
      else r
  }

  /** The first class of that name. */
  function Named(cs: seq<StorageClass>, name: string): (r: Option<StorageClass>)
    ensures r.Some? <==> exists i :: 0 <= i < |cs| && cs[i].name == name
    ensures r.Some? ==> r.value in cs && r.value.name == name
  {
    if |cs| == 0 then None
    else if cs[0].name == name then Some(cs[0])
    else
      var r := Named(cs[1..], name);
      assert forall i :: 1 <= i < |cs| ==> cs[i] == cs[1..][i - 1];
      r
  }

  /** Get of a storage class by name. */
  function GetClass(e: Env, cs: seq<StorageClass>, name: string): Result<StorageClass>
  {
    if e.Faulted(Get, StorageClassKind) then Err(ApiFailure(Get, StorageClassKind))
    else match Named(cs, name)
      case Some(sc) => Ok(sc)
      case None => Err(NotFound(StorageClassKind, name))
  }

  /** After the lookup by name: the first labelled class, else the default. */
  function ClassByLabelOrDefault(e: Env, cs: seq<StorageClass>, labels: seq<string>): Result<StorageClass>
  {
    if e.Faulted(List, StorageClassKind) then Err(ApiFailure(List, StorageClassKind))
    else
      var labelled := ListClasses(cs, StorageSelector(labels));
      if |labelled| > 0 then Ok(labelled[0])
      else match FirstDefault(cs)
        case Some(sc) => Ok(sc)
        case None => Err(NoStorageClass)
  }

  function StorageClassFor(e: Env, cs: seq<StorageClass>, name: string, labels: seq<string>)
    : Result<StorageClass>
  {
    if name != "" then
      var g := GetClass(e, cs, name);
      if g.Ok? then g
      else if !g.error.NotFound? then g
      else ClassByLabelOrDefault(e, cs, labels)
    else ClassByLabelOrDefault(e, cs, labels)
  }

  /** `maybeGetStorageClass` */
  method MaybeGetStorageClass(k: Cluster, name: string, labels: seq<string>)
    returns (r: Result<StorageClass>)
    ensures r == StorageClassFor(k.env, k.storageClasses, name, labels)
  {
    if name != "" {
      var g := GetClass(k.env, k.storageClasses, name);
      if g.Ok? {
        return g;
      }
      if !g.error.NotFound? {
        return g;
      }
    }
    if k.env.Faulted(List, StorageClassKind) {
      return Err(ApiFailure(List, StorageClassKind));
    }
    var labelled := ListClasses(k.storageClasses, StorageSelector(labels));
    if |labelled| > 0 {
      return Ok(labelled[0]);
    }
    var all := k.storageClasses;
    for i := 0 to |all|
      invariant forall j :: 0 <= j < i ==> !IsDefaultClass(all[j])
    {
      if DefaultClassAnnotation in all[i].annotations && all[i].annotations[DefaultClassAnnotation] != "false" {
        assert FirstDefault(all[i..]) == Some(all[i]);
        FirstDefaultSkips(all, i);
        return Ok(all[i]);
      }
    }
    assert all[|all|..] == [];
    FirstDefaultSkips(all, |all|);
    return Err(NoStorageClass);
  }

  /** Classes that are not defaults do not change which default is first. */
  lemma {:induction false} FirstDefaultSkips(cs: seq<StorageClass>, i: nat)
    requires i <= |cs|
    requires forall j :: 0 <= j < i ==> !IsDefaultClass(cs[j])
    ensures FirstDefault(cs) == FirstDefault(cs[i..])
    decreases i
  {
    if i > 0 {
      assert cs[1..][i - 1..] == cs[i..];
      FirstDefaultSkips(cs[1..], i - 1);
    }
  }

  /** The resolution order of `maybeGetStorageClass`: a class of the given
      name; else the first class labelled with one of the labels; else the
      first default class; else not-found. */
  lemma StorageClassResolutionOrder(e: Env, cs: seq<StorageClass>, name: string, labels: seq<string>)
    requires !e.Faulted(Get, StorageClassKind) && !e.Faulted(List, StorageClassKind)
    ensures var r := StorageClassFor(e, cs, name, labels);
      var labelled := ListClasses(cs, StorageSelector(labels));
      && (name != "" && Named(cs, name).Some? ==> r == Ok(Named(cs, name).value))
      && ((name == "" || Named(cs, name).None?) && |labelled| > 0 ==> r == Ok(labelled[0]))
      && ((name == "" || Named(cs, name).None?) && |labelled| == 0 && FirstDefault(cs).Some? ==>
            r == Ok(FirstDefault(cs).value))
      && ((name == "" || Named(cs, name).None?) && |labelled| == 0 && FirstDefault(cs).None? ==>
            r == Err(NoStorageClass))
  {
  }

  /** A labelled class is one whose storage label is among the labels, and it
      is the earliest such class in list order. */
  lemma {:induction false} LabelledClassIsFirst(cs: seq<StorageClass>, labels: seq<string>)
    requires |ListClasses(cs, StorageSelector(labels))| > 0
    ensures var c := ListClasses(cs, StorageSelector(labels))[0];
      exists i :: 0 <= i < |cs| && cs[i] == c &&
        LabelStorage in c.labels && c.labels[LabelStorage] in labels &&
        forall j :: 0 <= j < i ==> !Selects(StorageSelector(labels), cs[j].labels)
  {
    var sel := StorageSelector(labels);
    if Selects(sel, cs[0].labels) {
      assert ListClasses(cs, sel)[0] == cs[0];
    } else {
      assert ListClasses(cs, sel) == ListClasses(cs[1..], sel);
      LabelledClassIsFirst(cs[1..], labels);
      var c := ListClasses(cs, sel)[0];
      var i :| 0 <= i < |cs[1..]| && cs[1..][i] == c &&
        LabelStorage in c.labels && c.labels[LabelStorage] in labels &&
        forall j :: 0 <= j < i ==> !Selects(sel, cs[1..][j].labels);
      assert cs[i + 1] == c;
      forall j | 0 <= j < i + 1 ensures !Selects(sel, cs[j].labels) {
        if j > 0 { assert cs[j] == cs[1..][j - 1]; }
      }
    }
  }

  // ---- maybeGetVolume ------------------------------------------------------------

  /** The pod volume that mounts claim `pvcName`, named after its volume. */
  function ClaimVolume(volumeName: string, pvcName: string): Volume
  {
    Volume(volumeName, ClaimSource(pvcName))
  }

  /** The volume and class a new claim is bound to: an available volume, or
      no volume and a class that will provision one. */
  function ChooseBacking(e: Env, s: State, p: VolumeParams): Result<(string, string)>
  {
    var av := AvailableVolumeFor(e, s.volumes, p.storageClassName, p.storageLabels);
    if av.Ok? then av
    else if !av.error.IsNotFound() then Err(av.error)
    else
      var sc := StorageClassFor(e, s.storageClasses, p.storageClassName, p.storageLabels);
      if sc.Err? && sc.error.IsNotFound() then Err(NoStorageClass)
      else if sc.Err? then Err(sc.error)
      else Ok(("", sc.value.name))
  }

  /** The claim created for a request bound to volume `pvName` of class `scName`. */
  function NewClaim(p: VolumeParams, pvName: string, scName: string, q: Quantity): Claim
  {
    Claim(p.pvcName, p.labels, pvName, scName, q, [p.accessMode.GetOr(ReadWriteOnce)])
  }

  function MaybeGetVolumeStep(s: State, e: Env, p: VolumeParams): Step<Result<Volume>>
  {
    var g := MapGet(e, ClaimKind, s.claims, p.pvcName);
    if g.Ok? then Step(Ok(ClaimVolume(g.value.volumeName, p.pvcName)), s)
    else if !g.error.NotFound? then Step(Err(g.error), s)
    else CreateClaimStep(s, e, p, ChooseBacking(e, s, p), ParseQuantity(p.volumeSize))
  }

  /** The tail of the chain once the claim is known to be missing: create it
      bound to the backing `b` that was chosen, for the size `q` parsed from
      the request. */
  function CreateClaimStep(s: State, e: Env, p: VolumeParams, b: Result<(string, string)>, q: Result<Quantity>)
    : Step<Result<Volume>>
  {
    if b.Err? then Step(Err(b.error), s)
    else
      if q.Err? then Step(Err(q.error), s)
      else
        var claim := NewClaim(p, b.value.0, b.value.1, q.value);
        var c := MapCreate(e, ClaimKind, s.claims, p.pvcName, claim);
        if c.outcome.Fail? then Step(Err(c.outcome.error), s)
        else Step(Ok(ClaimVolume(claim.volumeName, p.pvcName)), s.(claims := c.store))
  }

  /** `maybeGetVolume` */
  method MaybeGetVolume(k: Cluster, p: VolumeParams) returns (r: Result<Volume>)
    modifies k
    ensures Step(r, k.Snapshot()) == MaybeGetVolumeStep(old(k.Snapshot()), k.env, p)
  {
    var g := MapGet(k.env, ClaimKind, k.claims, p.pvcName);
    if g.Ok? {
      return Ok(ClaimVolume(g.value.volumeName, p.pvcName));
    }
    if !g.error.NotFound? {
      return Err(g.error);
    }
    var pvName, scName := "", "";
    var av := GetAvailableVolume(k, p.storageClassName, p.storageLabels);
    if av.Err? && !av.error.IsNotFound() {
      return Err(av.error);
    }
    if av.Err? {
      var sc := MaybeGetStorageClass(k, p.storageClassName, p.storageLabels);
      if sc.Err? && sc.error.IsNotFound() {
        return Err(NoStorageClass);
      }
      if sc.Err? {
        return Err(sc.error);
      }
      scName := sc.value.name;
    } else {
      pvName, scName := av.value.0, av.value.1;
    }
    var accessMode := if p.accessMode.None? then ReadWriteOnce else p.accessMode.value;
    var q := ParseQuantity(p.volumeSize);
    if q.Err? {
      return Err(q.error);
    }
    var claim := Claim(p.pvcName, p.labels, pvName, scName, q.value, [accessMode]);
    var c := MapCreate(k.env, ClaimKind, k.claims, p.pvcName, claim);
    if c.outcome.Fail? {
      return Err(c.outcome.error);
    }
    k.claims := c.store;
    return Ok(ClaimVolume(claim.volumeName, p.pvcName));
  }

  // ---- properties of the chain -------------------------------------------------

  /** Claim reuse: an existing claim is used as it is, bound to the volume it
      names, and nothing is created or resolved. */
  lemma ClaimReuse(s: State, e: Env, p: VolumeParams)
    requires p.pvcName in s.claims && !e.Faulted(Get, ClaimKind)
    ensures MaybeGetVolumeStep(s, e, p) ==
      Step(Ok(Volume(s.claims[p.pvcName].volumeName, ClaimSource(p.pvcName))), s)
  {
  }

  /** The chain changes at most the claim of the request: it writes nothing
      else, and it writes that claim only when there was none. */
  lemma MaybeGetVolumeFrame(s: State, e: Env, p: VolumeParams)
    ensures var t := MaybeGetVolumeStep(s, e, p).state;
      && t == s.(claims := t.claims)
      && t.claims.Keys <= s.claims.Keys + {p.pvcName}
      && forall n :: n in s.claims ==> n in t.claims && t.claims[n] == s.claims[n]
  {
    CreateClaimFrame(s, e, p, ChooseBacking(e, s, p), ParseQuantity(p.volumeSize));
  }

  lemma CreateClaimFrame(s: State, e: Env, p: VolumeParams, b: Result<(string, string)>, q: Result<Quantity>)
    ensures var t := CreateClaimStep(s, e, p, b, q).state;
      && t == s.(claims := t.claims)
      && t.claims.Keys <= s.claims.Keys + {p.pvcName}
      && forall n :: n in s.claims ==> n in t.claims && t.claims[n] == s.claims[n]
  {
  }

  /** A claim created by the chain asks for single-writer access unless the
      request names a mode, for the parsed size, and is bound either to the
      available volume found (and its class) or, when there is none, to no
      volume and the resolved class. */
  lemma NewClaimShape(s: State, e: Env, p: VolumeParams)
    requires p.pvcName !in s.claims
    requires MaybeGetVolumeStep(s, e, p).result.Ok?
    ensures var t := MaybeGetVolumeStep(s, e, p).state;
      var c := t.claims[p.pvcName];
      var av := AvailableVolumeFor(e, s.volumes, p.storageClassName, p.storageLabels);
      && p.pvcName in t.claims
      && c.accessModes == [if p.accessMode.Some? then p.accessMode.value else ReadWriteOnce]
      && ParseQuantity(p.volumeSize) == Ok(c.request)
      && c.labels == p.labels
      && (av.Ok? ==> c.volumeName == av.value.0 && c.storageClassName == av.value.1)
      && (av.Err? ==>
            var sc := StorageClassFor(e, s.storageClasses, p.storageClassName, p.storageLabels);
            c.volumeName == "" && sc.Ok? && c.storageClassName == sc.value.name)
  {
  }

  /** The volume returned for a claim provisioned through a storage class is
      named after the claim's volume, which is still empty: the pod volume has
      an empty name until the cluster binds the claim. */
  lemma ProvisionedVolumeUnnamed(s: State, e: Env, p: VolumeParams)
    requires p.pvcName !in s.claims
    requires AvailableVolumeFor(e, s.volumes, p.storageClassName, p.storageLabels).Err?
    requires MaybeGetVolumeStep(s, e, p).result.Ok?
    ensures MaybeGetVolumeStep(s, e, p).result.value == Volume("", ClaimSource(p.pvcName))
  {
  }

  /** Once the chain has succeeded, asking again with the same request
      returns the same volume and changes nothing. */
  lemma MaybeGetVolumeIdempotent(s: State, e: Env, p: VolumeParams)
    requires MaybeGetVolumeStep(s, e, p).result.Ok?
    ensures var first := MaybeGetVolumeStep(s, e, p);
      MaybeGetVolumeStep(first.state, e, p) == first
  {
    var first := MaybeGetVolumeStep(s, e, p);
    if p.pvcName !in s.claims {
      assert !e.Faulted(Get, ClaimKind);
      assert p.pvcName in first.state.claims;
    }
  }

  /** A request that succeeds leaves its claim in the store. */
  lemma MaybeGetVolumeClaimPresent(s: State, e: Env, p: VolumeParams)
    requires MaybeGetVolumeStep(s, e, p).result.Ok?
    ensures p.pvcName in MaybeGetVolumeStep(s, e, p).state.claims
  {
  }

  /** The volume the chain returns mounts the request's claim. */
  lemma MaybeGetVolumeMountsClaim(s: State, e: Env, p: VolumeParams)
    requires MaybeGetVolumeStep(s, e, p).result.Ok?
    ensures MaybeGetVolumeStep(s, e, p).result.value.source == ClaimSource(p.pvcName)
  {
  }
}
