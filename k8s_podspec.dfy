/** Pod specs from the charm's container specs: `makeUnitSpec` turns them
    into cluster containers, and `configurePodFiles` writes each declared
    file set to a config map and mounts it into its container. */
module K8sPodSpec {
  import opened K8sApi
  import opened K8sResources
  import opened K8sNaming
  import opened K8sCluster

  /** Files to appear under `mountPath` in a container. */
  datatype FileSet = FileSet(name: string, mountPath: string, files: map<string, string>)

  /** The provider-specific part of a container spec: absent, the cluster's
      own kind, or a kind this provider does not know. */
  datatype ProviderContainer =
    | NoProviderContainer
    | K8sContainer(imagePullPolicy: string, livenessProbe: Option<Probe>, readinessProbe: Option<Probe>)
    | OtherProviderContainer

  /** A container as the charm declares it. */
  datatype ContainerSpec = ContainerSpec(
    name: string, image: string, ports: seq<ContainerPort>, config: map<string, string>,
    files: seq<FileSet>, provider: ProviderContainer)

  datatype CaasPodSpec = CaasPodSpec(containers: seq<ContainerSpec>, omitServiceFrontend: bool)

  // ---- makeUnitSpec ------------------------------------------------------------

  /** The container the pod template renders: name, image, ports and the
      config as environment, nothing else. */
  function TemplatedContainer(c: ContainerSpec): Container
  {
    Container(c.name, c.image, c.ports, c.config, [], "", None, None)
  }

  /** The provider overlay: the pull policy always, probes only when given. */
  function WithProvider(t: Container, p: ProviderContainer): Container
  {
    match p
    case K8sContainer(policy, liveness, readiness) =>
      t.(imagePullPolicy := policy,
         livenessProbe := if liveness.Some? then liveness else t.livenessProbe,
         readinessProbe := if readiness.Some? then readiness else t.readinessProbe)
    case _ => t
  }

  predicate HasForeignProvider(cs: seq<ContainerSpec>)
  {
    exists i :: 0 <= i < |cs| && cs[i].provider.OtherProviderContainer?
  }

  function UnitSpecOf(spec: CaasPodSpec): (r: Result<PodSpec>)
    ensures r.Err? <==> HasForeignProvider(spec.containers)
    ensures r.Err? ==> r.error == UnexpectedProviderSpec
    ensures r.Ok? ==> r.value.volumes == [] && |r.value.containers| == |spec.containers|
    ensures r.Ok? ==> forall i :: 0 <= i < |spec.containers| ==>
      var c, cs := r.value.containers[i], spec.containers[i];
      && c.name == cs.name && c.image == cs.image && c.ports == cs.ports && c.env == cs.config
      && c.volumeMounts == []
      && c.imagePullPolicy == (if cs.provider.K8sContainer? then cs.provider.imagePullPolicy else "")
      && c.livenessProbe == (if cs.provider.K8sContainer? then cs.provider.livenessProbe else None)
      && c.readinessProbe == (if cs.provider.K8sContainer? then cs.provider.readinessProbe else None)
  {
    if HasForeignProvider(spec.containers) then Err(UnexpectedProviderSpec)
    else
      var cs := spec.containers;
      Ok(PodSpec(seq(|cs|, i requires 0 <= i < |cs| => WithProvider(TemplatedContainer(cs[i]), cs[i].provider)), []))
  }

  /** `makeUnitSpec`: render the template, then apply each container's
      provider overlay in order, failing on a foreign one. */
  method MakeUnitSpec(spec: CaasPodSpec) returns (r: Result<PodSpec>)
    ensures r == UnitSpecOf(spec)
  {
    var cs := spec.containers;
    var containers := seq(|cs|, i requires 0 <= i < |cs| => TemplatedContainer(cs[i]));
    var i := 0;
    while i < |cs|
      invariant 0 <= i <= |cs| && |containers| == |cs|
      invariant forall j :: 0 <= j < i ==> !cs[j].provider.OtherProviderContainer?
      invariant forall j :: 0 <= j < |cs| ==>
        containers[j] == if j < i then WithProvider(TemplatedContainer(cs[j]), cs[j].provider)
                         else TemplatedContainer(cs[j])
    {
      match cs[i].provider {
        case NoProviderContainer =>
        case OtherProviderContainer =>
          return Err(UnexpectedProviderSpec);
        case K8sContainer(policy, liveness, readiness) =>
          var c := containers[i].(imagePullPolicy := policy);
          if liveness.Some? {
            c := c.(livenessProbe := liveness);
          }
          if readiness.Some? {
            c := c.(readinessProbe := readiness);
          }
          containers := containers[i := c];
      }
      i := i + 1;
    }
    assert !HasForeignProvider(cs);
    assert containers == UnitSpecOf(spec).value.containers;
    return Ok(PodSpec(containers, []));
  }

  // ---- configurePodFiles -----------------------------------------------------

  function FilesetConfigMap(name: string, fs: FileSet): (cm: ConfigMap)
    ensures cm.name == name && cm.data == fs.files
  {
    ConfigMap(name, fs.files)
  }

  /** Whose pod the files are for, which decides the config map names. */
  datatype ConfigMapNaming = ForApplication(appName: string) | ForUnit(unitName: string)
  {
    function Name(fileSetName: string): string
    {
      match this
      case ForApplication(app) => ApplicationConfigMapName(app, fileSetName)
      case ForUnit(unit) => UnitConfigMapName(unit, fileSetName)
    }
  }

  /** The file sets of the containers from index `base` on, each tagged with
      the index of its container, in declaration order. */
  function Tagged(base: nat, files: seq<FileSet>): (r: seq<(nat, FileSet)>)
    ensures |r| == |files| && forall j :: 0 <= j < |r| ==> r[j] == (base, files[j])
  {
    if |files| == 0 then [] else [(base, files[0])] + Tagged(base, files[1..])
  }

  function FileSetsFrom(base: nat, cs: seq<ContainerSpec>): seq<(nat, FileSet)>
    decreases |cs|
  {
    if |cs| == 0 then [] else Tagged(base, cs[0].files) + FileSetsFrom(base + 1, cs[1..])
  }

  /** Container `i` with the config map volume `name` added to the pod and
      mounted at `mountPath`. */
  function Mounted(spec: PodSpec, i: nat, name: string, mountPath: string): PodSpec
    requires i < |spec.containers|
  {
    spec.(volumes := spec.volumes + [Volume(name, ConfigMapSource(name, []))],
          containers := spec.containers[i := spec.containers[i].(
            volumeMounts := spec.containers[i].volumeMounts + [VolumeMount(name, mountPath, "")])])
  }

  function PodFilesFrom(s: State, e: Env, spec: PodSpec, items: seq<(nat, FileSet)>, naming: ConfigMapNaming)
    : Step<Result<PodSpec>>
    decreases |items|
  {
    if |items| == 0 then Step(Ok(spec), s)
    else
      var (i, fs) := items[0];
      var name := naming.Name(fs.name);
      var w := EnsureConfigMapStep(s, e, FilesetConfigMap(name, fs));
      if w.result.Fail? then Step(Err(w.result.error), w.state)
      else if i >= |spec.containers| then Step(Err(IndexOutOfRange), w.state)
      else PodFilesFrom(w.state, e, Mounted(spec, i, name, fs.mountPath), items[1..], naming)
  }

  function PodFilesStep(s: State, e: Env, spec: PodSpec, cs: seq<ContainerSpec>, naming: ConfigMapNaming)
    : Step<Result<PodSpec>>
  {
    PodFilesFrom(s, e, spec, FileSetsFrom(0, cs), naming)
  }

  lemma TaggedStep(base: nat, files: seq<FileSet>, j: nat, rest: seq<(nat, FileSet)>)
    requires j < |files|
    ensures Tagged(base, files[j..]) + rest == [(base, files[j])] + (Tagged(base, files[j + 1..]) + rest)
  {
    assert files[j..][1..] == files[j + 1..];
  }

  lemma FileSetsFromCons(cs: seq<ContainerSpec>, i: nat)
    requires i < |cs|
    ensures FileSetsFrom(i, cs[i..]) == Tagged(i, cs[i].files) + FileSetsFrom(i + 1, cs[i + 1..])
  {
    assert cs[i..][0] == cs[i] && cs[i..][1..] == cs[i + 1..];
  }

  /** One file set of `PodFilesFrom`. */
  lemma PodFilesCons(s: State, e: Env, spec: PodSpec, i: nat, fs: FileSet, rest: seq<(nat, FileSet)>,
                     naming: ConfigMapNaming)
    ensures var name := naming.Name(fs.name);
      var w := EnsureConfigMapStep(s, e, FilesetConfigMap(name, fs));
      PodFilesFrom(s, e, spec, [(i, fs)] + rest, naming) ==
        if w.result.Fail? then Step(Err(w.result.error), w.state)
        else if i >= |spec.containers| then Step(Err(IndexOutOfRange), w.state)
        else PodFilesFrom(w.state, e, Mounted(spec, i, name, fs.mountPath), rest, naming)
  {
    assert ([(i, fs)] + rest)[1..] == rest;
  }

  /** `configurePodFiles`: for each container in order and each of its file
      sets in order, write the config map, add the volume, mount it. */
  method ConfigurePodFiles(k: Cluster, spec: PodSpec, cs: seq<ContainerSpec>, naming: ConfigMapNaming)
    returns (r: Result<PodSpec>)
    modifies k
    ensures Step(r, k.Snapshot()) == PodFilesStep(old(k.Snapshot()), k.env, spec, cs, naming)
  {
    ghost var target := PodFilesStep(k.Snapshot(), k.env, spec, cs, naming);
    var cur := spec;
    for i := 0 to |cs|
      invariant PodFilesFrom(k.Snapshot(), k.env, cur, FileSetsFrom(i, cs[i..]), naming) == target
    {
      FileSetsFromCons(cs, i);
      ghost var later := FileSetsFrom(i + 1, cs[i + 1..]);
      var files := cs[i].files;
      assert files[0..] == files;
      for j := 0 to |files|
        invariant PodFilesFrom(k.Snapshot(), k.env, cur, Tagged(i, files[j..]) + later, naming) == target
      {
        TaggedStep(i, files, j, later);
        var fs := files[j];
        var name := naming.Name(fs.name);
        ghost var before := k.Snapshot();
        PodFilesCons(before, k.env, cur, i, fs, Tagged(i, files[j + 1..]) + later, naming);
        var o := k.EnsureConfigMap(FilesetConfigMap(name, fs));
        if o.Fail? {
          return Err(o.error);
        }
        if i >= |cur.containers| {
          return Err(IndexOutOfRange);
        }
        cur := Mounted(cur, i, name, fs.mountPath);
      }
      assert Tagged(i, files[|files|..]) + later == later;
    }
    assert cs[|cs|..] == [];
    return Ok(cur);
  }

  // ---- properties --------------------------------------------------------------

  /** The config map volumes that the file sets `items` add, in order. */
  function ConfigMapVolumes(items: seq<(nat, FileSet)>, naming: ConfigMapNaming): (r: seq<Volume>)
    ensures |r| == |items|
    ensures forall j :: 0 <= j < |items| ==>
      r[j] == Volume(naming.Name(items[j].1.name), ConfigMapSource(naming.Name(items[j].1.name), []))
  {
    if |items| == 0 then []
    else
      var name := naming.Name(items[0].1.name);
      [Volume(name, ConfigMapSource(name, []))] + ConfigMapVolumes(items[1..], naming)
  }

  /** `b` holds the containers of `a`, in order, changed at most in what
      they mount. */
  predicate SameContainersButMounts(a: seq<Container>, b: seq<Container>)
  {
    |a| == |b| && forall c :: 0 <= c < |a| ==> b[c] == a[c].(volumeMounts := b[c].volumeMounts)
  }

  lemma SameContainersButMountsTrans(a: seq<Container>, b: seq<Container>, c: seq<Container>)
    requires SameContainersButMounts(a, b) && SameContainersButMounts(b, c)
    ensures SameContainersButMounts(a, c)
  {
  }

  lemma MountedKeepsContainers(spec: PodSpec, i: nat, name: string, mountPath: string)
    requires i < |spec.containers|
    ensures SameContainersButMounts(spec.containers, Mounted(spec, i, name, mountPath).containers)
  {
  }

  /** On success the pod keeps its containers and its volumes and gains one
      config map volume per file set, in order; every file set's container
      exists. */
  lemma {:induction false} PodFilesAddsVolumes(
    s: State, e: Env, spec: PodSpec, items: seq<(nat, FileSet)>, naming: ConfigMapNaming)
    requires PodFilesFrom(s, e, spec, items, naming).result.Ok?
    ensures var out := PodFilesFrom(s, e, spec, items, naming).result.value;
      && |out.containers| == |spec.containers|
      && out.volumes == spec.volumes + ConfigMapVolumes(items, naming)
      && forall j :: 0 <= j < |items| ==> items[j].0 < |spec.containers|
    decreases |items|
  {
    if |items| > 0 {
      var (i, fs) := items[0];
      var name := naming.Name(fs.name);
      var w := EnsureConfigMapStep(s, e, FilesetConfigMap(name, fs));
      var next := Mounted(spec, i, name, fs.mountPath);
      PodFilesAddsVolumes(w.state, e, next, items[1..], naming);
      assert ConfigMapVolumes(items, naming) == [Volume(name, ConfigMapSource(name, []))] + ConfigMapVolumes(items[1..], naming);
      forall j | 0 <= j < |items| ensures items[j].0 < |spec.containers| {
        if j > 0 { assert items[j] == items[1..][j - 1]; }
      }
    }
  }

  /** File sets change the containers only in what they mount. */
  lemma {:induction false} PodFilesKeepsContainers(
    s: State, e: Env, spec: PodSpec, items: seq<(nat, FileSet)>, naming: ConfigMapNaming)
    requires PodFilesFrom(s, e, spec, items, naming).result.Ok?
    ensures SameContainersButMounts(spec.containers, PodFilesFrom(s, e, spec, items, naming).result.value.containers)
    decreases |items|
  {
    if |items| == 0 {
      assert SameContainersButMounts(spec.containers, spec.containers);
    } else {
      var (i, fs) := items[0];
      var name := naming.Name(fs.name);
      var w := EnsureConfigMapStep(s, e, FilesetConfigMap(name, fs));
      var next := Mounted(spec, i, name, fs.mountPath);
      assert PodFilesFrom(s, e, spec, items, naming) == PodFilesFrom(w.state, e, next, items[1..], naming);
      PodFilesKeepsContainers(w.state, e, next, items[1..], naming);
      MountedKeepsContainers(spec, i, name, fs.mountPath);
      SameContainersButMountsTrans(spec.containers, next.containers,
                                   PodFilesFrom(w.state, e, next, items[1..], naming).result.value.containers);
    }
  }

  /** On success every file set's config map is in the store. */
  lemma {:induction false} PodFilesWritesConfigMaps(
    s: State, e: Env, spec: PodSpec, items: seq<(nat, FileSet)>, naming: ConfigMapNaming)
    requires PodFilesFrom(s, e, spec, items, naming).result.Ok?
    ensures var t := PodFilesFrom(s, e, spec, items, naming).state;
      forall j :: 0 <= j < |items| ==> naming.Name(items[j].1.name) in t.configMaps
    decreases |items|
  {
    if |items| > 0 {
      var (i, fs) := items[0];
      var name := naming.Name(fs.name);
      var w := EnsureConfigMapStep(s, e, FilesetConfigMap(name, fs));
      var next := Mounted(spec, i, name, fs.mountPath);
      PodFilesWritesConfigMaps(w.state, e, next, items[1..], naming);
      PodFilesKeepsConfigMaps(w.state, e, next, items[1..], naming, name);
      var t := PodFilesFrom(s, e, spec, items, naming).state;
      forall j | 0 <= j < |items| ensures naming.Name(items[j].1.name) in t.configMaps {
        if j > 0 { assert items[j] == items[1..][j - 1]; }
      }
    }
  }

  /** Writing further file sets never removes a config map. */
  lemma {:induction false} PodFilesKeepsConfigMaps(
    s: State, e: Env, spec: PodSpec, items: seq<(nat, FileSet)>, naming: ConfigMapNaming, name: string)
    requires name in s.configMaps
    ensures name in PodFilesFrom(s, e, spec, items, naming).state.configMaps
    decreases |items|
  {
    if |items| > 0 {
      var (i, fs) := items[0];
      var w := EnsureConfigMapStep(s, e, FilesetConfigMap(naming.Name(fs.name), fs));
      if w.result.Pass? && i < |spec.containers| {
        PodFilesKeepsConfigMaps(w.state, e, Mounted(spec, i, naming.Name(fs.name), fs.mountPath), items[1..], naming, name);
      }
    }
  }

  /** Files are written to config maps only: nothing but config maps changes. */
  lemma {:induction false} PodFilesFrame(
    s: State, e: Env, spec: PodSpec, items: seq<(nat, FileSet)>, naming: ConfigMapNaming)
    ensures var t := PodFilesFrom(s, e, spec, items, naming).state;
      t == s.(configMaps := t.configMaps)
    decreases |items|
  {
    if |items| > 0 {
      var (i, fs) := items[0];
      var w := EnsureConfigMapStep(s, e, FilesetConfigMap(naming.Name(fs.name), fs));
      if w.result.Pass? && i < |spec.containers| {
        PodFilesFrame(w.state, e, Mounted(spec, i, naming.Name(fs.name), fs.mountPath), items[1..], naming);
      }
    }
  }

  /** The config maps the file sets write, as one overlay: for a name that
      several file sets share, the last of them wins. */
  function ConfigMapOverlay(items: seq<(nat, FileSet)>, naming: ConfigMapNaming): (r: map<string, ConfigMap>)
    ensures forall j :: 0 <= j < |items| ==> naming.Name(items[j].1.name) in r
    decreases |items|
  {
    if |items| == 0 then map[]
    else
      var name := naming.Name(items[0].1.name);
      var rest := ConfigMapOverlay(items[1..], naming);
      map[name := FilesetConfigMap(name, items[0].1)] + rest
  }

  lemma OverlayCons(m: map<string, ConfigMap>, items: seq<(nat, FileSet)>, naming: ConfigMapNaming)
    requires |items| > 0
    ensures var name := naming.Name(items[0].1.name);
      m[name := FilesetConfigMap(name, items[0].1)] + ConfigMapOverlay(items[1..], naming) ==
      m + ConfigMapOverlay(items, naming)
  {
    var name := naming.Name(items[0].1.name);
    var c := FilesetConfigMap(name, items[0].1);
    var o := ConfigMapOverlay(items[1..], naming);
    assert ConfigMapOverlay(items, naming) == map[name := c] + o;
    MapUpdateThenMerge(m, name, c, o);
  }

  lemma MapUpdateThenMerge<V>(m: map<string, V>, k: string, v: V, o: map<string, V>)
    ensures m[k := v] + o == m + (map[k := v] + o)
  {
    var a, b := m[k := v] + o, m + (map[k := v] + o);
    assert a.Keys == b.Keys;
    forall n | n in a ensures a[n] == b[n] {
    }
  }

  /** Writing the same overlay twice is writing it once. */
  lemma OverlayTwice(m: map<string, ConfigMap>, o: map<string, ConfigMap>)
    ensures (m + o) + o == m + o
  {
  }

  /** On success the file sets' config maps are written over the store, in
      order, and the last write of a shared name wins. */
  lemma {:induction false} PodFilesState(
    s: State, e: Env, spec: PodSpec, items: seq<(nat, FileSet)>, naming: ConfigMapNaming)
    requires PodFilesFrom(s, e, spec, items, naming).result.Ok?
    ensures PodFilesFrom(s, e, spec, items, naming).state ==
      s.(configMaps := s.configMaps + ConfigMapOverlay(items, naming))
    decreases |items|
  {
    if |items| == 0 {
      assert s.configMaps + map[] == s.configMaps;
    } else {
      var (i, fs) := items[0];
      var name := naming.Name(fs.name);
      var w := EnsureConfigMapStep(s, e, FilesetConfigMap(name, fs));
      PodFilesState(w.state, e, Mounted(spec, i, name, fs.mountPath), items[1..], naming);
      OverlayCons(s.configMaps, items, naming);
    }
  }

  /** Writing the file sets again, in a store where all their config maps
      exist, gives the same pod spec; the stored config maps are overwritten
      with the same overlay. */
  lemma {:induction false} PodFilesRerun(
    s: State, u: State, e: Env, spec: PodSpec, items: seq<(nat, FileSet)>, naming: ConfigMapNaming)
    requires PodFilesFrom(s, e, spec, items, naming).result.Ok?
    requires forall j :: 0 <= j < |items| ==> naming.Name(items[j].1.name) in u.configMaps
    ensures PodFilesFrom(u, e, spec, items, naming) ==
      Step(PodFilesFrom(s, e, spec, items, naming).result, u.(configMaps := u.configMaps + ConfigMapOverlay(items, naming)))
    decreases |items|
  {
    if |items| == 0 {
      assert u.configMaps + map[] == u.configMaps;
    } else {
      var (i, fs) := items[0];
      var name := naming.Name(fs.name);
      var cm := FilesetConfigMap(name, fs);
      var w := EnsureConfigMapStep(s, e, cm);
      var wu := EnsureConfigMapStep(u, e, cm);
      assert name in u.configMaps;
      assert wu == Step(Pass, u.(configMaps := u.configMaps[name := cm]));
      forall j | 0 <= j < |items| - 1 ensures naming.Name(items[1..][j].1.name) in wu.state.configMaps {
        assert items[1..][j] == items[j + 1];
      }
      PodFilesRerun(w.state, wu.state, e, Mounted(spec, i, name, fs.mountPath), items[1..], naming);
      OverlayCons(u.configMaps, items, naming);
    }
  }
}
