/** Applications: `EnsureService` builds a deployment controller (with
    storage and file sets) and a service in front of it; `ExposeService`
    puts an ingress rule in front of the service. */
module K8sApplication {
  import opened K8sApi
  import opened K8sResources
  import opened K8sNaming
  import opened K8sCluster
  import opened K8sStorage
  import opened K8sPodSpec

  /** A filesystem the application's units need; `attachmentPath` `None`
      is a filesystem without an attachment. */
  datatype Filesystem = Filesystem(
    tagId: string, tagString: string, size: nat, attachmentPath: Option<string>,
    attributes: map<string, string>)

  datatype ServiceParams = ServiceParams(podSpec: Option<CaasPodSpec>, filesystems: seq<Filesystem>)

  /** The application's settings, each already resolved to its value or the
      documented default by the caller, except `targetPort`, whose default is
      the container's own port, and `hostname`, which is empty when unset. */
  datatype AppConfig = AppConfig(
    targetPort: Option<int>, serviceType: string, externalIPs: seq<string>,
    loadBalancerIP: string, loadBalancerSourceRanges: seq<string>, externalName: string,
    hostname: string, ingressClass: string, sslRedirect: bool, sslPassthrough: bool,
    allowHTTP: bool, applicationPath: string)

  function AppLabels(appName: string): Labels
  {
    map[LabelApplication := appName]
  }

  // ---- 32-bit replica counts ---------------------------------------------------

  const TwoTo31: int := 0x8000_0000
  const TwoTo32: int := 0x1_0000_0000

  /** Go's `int32(n)`: the low 32 bits, read as two's complement. */
  function Int32(n: int): (r: int)
    ensures -TwoTo31 <= r < TwoTo31
    ensures (r - n) % TwoTo32 == 0
  {
    (n + TwoTo31) % TwoTo32 - TwoTo31
  }

  lemma Int32Small(n: int)
    requires -TwoTo31 <= n < TwoTo31
    ensures Int32(n) == n
  {
  }

  /** A unit count of 2^31 becomes a negative replica count. */
  lemma Int32Wraps()
    ensures Int32(TwoTo31) == -TwoTo31
  {
  }

  // ---- configureStorage ----------------------------------------------------

  /** Where a filesystem is mounted: its attachment path, else a directory
      named after the application and the filesystem under the storage
      directory. */
  function FilesystemMountPath(baseDir: string, appName: string, fs: Filesystem): string
  {
    if fs.attachmentPath.Some? && fs.attachmentPath.value != "" then fs.attachmentPath.value
    else baseDir + "/fs/" + appName + "/" + fs.tagId
  }

  function FilesystemVolumeName(appName: string, i: nat): string
  {
    appName + "-fsvolume-" + NatToDecimal(i)
  }

  /** The storage request for the `i`th filesystem. */
  function FilesystemVolumeParams(e: Env, appName: string, fs: Filesystem, i: nat): VolumeParams
  {
    var volName := FilesystemVolumeName(appName, i);
    var base := [appName + "-unit-storage", e.namespace, "default"];
    VolumeParams(
      if JujuStorageLabelKey in fs.attributes then [fs.attributes[JujuStorageLabelKey]] + base else base,
      if JujuStorageClassKey in fs.attributes then fs.attributes[JujuStorageClassKey] else "",
      volName + "-claim", volName, NatToDecimal(fs.size) + "Mi", AppLabels(appName), None)
  }

  /** The pod spec with `vol` added and mounted into its first container. */
  function AttachVolume(spec: PodSpec, vol: Volume, mountPath: string): PodSpec
    requires |spec.containers| > 0
  {
    var c := spec.containers[0];
    spec.(volumes := spec.volumes + [vol],
          containers := spec.containers[0 := c.(volumeMounts := c.volumeMounts + [VolumeMount(vol.name, mountPath, "")])])
  }

  function StorageFrom(s: State, e: Env, spec: PodSpec, appName: string, baseDir: string,
                       fss: seq<Filesystem>, i: nat): Step<Result<PodSpec>>
    requires i <= |fss|
    decreases |fss| - i
  {
    if i == |fss| then Step(Ok(spec), s)
    else
      var v := MaybeGetVolumeStep(s, e, FilesystemVolumeParams(e, appName, fss[i], i));
      if v.result.Err? then Step(Err(v.result.error), v.state)
      else if |spec.containers| == 0 then Step(Err(IndexOutOfRange), v.state)
      else StorageFrom(v.state, e, AttachVolume(spec, v.result.value, FilesystemMountPath(baseDir, appName, fss[i])),
                       appName, baseDir, fss, i + 1)
  }

  /** `storageDir` is the storage directory the host's path layout gives,
      or the error looking it up gave. */
  function ConfigureStorageStep(s: State, e: Env, spec: PodSpec, appName: string,
                                fss: seq<Filesystem>, storageDir: Result<string>): Step<Result<PodSpec>>
  {
    if storageDir.Err? then Step(Err(storageDir.error), s)
    else StorageFrom(s, e, spec, appName, storageDir.value, fss, 0)
  }

  /** `configureStorage` */
  method ConfigureStorage(k: Cluster, spec: PodSpec, appName: string, fss: seq<Filesystem>,
                          storageDir: Result<string>) returns (r: Result<PodSpec>)
    modifies k
    ensures Step(r, k.Snapshot()) == ConfigureStorageStep(old(k.Snapshot()), k.env, spec, appName, fss, storageDir)
  {
    if storageDir.Err? {
      return Err(storageDir.error);
    }
    var baseDir := storageDir.value;
    ghost var target := StorageFrom(k.Snapshot(), k.env, spec, appName, baseDir, fss, 0);
    var cur := spec;
    for i := 0 to |fss|
      invariant StorageFrom(k.Snapshot(), k.env, cur, appName, baseDir, fss, i) == target
    {
      var mountPath := FilesystemMountPath(baseDir, appName, fss[i]);
      var vol := MaybeGetVolume(k, FilesystemVolumeParams(k.env, appName, fss[i], i));
      if vol.Err? {
        return Err(vol.error);
      }
      if |cur.containers| == 0 {
        return Err(IndexOutOfRange);
      }
      cur := AttachVolume(cur, vol.value, mountPath);
    }
    return Ok(cur);
  }

  // ---- configureDeployment -----------------------------------------------------

  function DeploymentOf(appName: string, podSpec: PodSpec, replicas: int): Deployment
  {
    Deployment(DeploymentName(appName), AppLabels(appName), replicas, AppLabels(appName),
               ResourceNamePrefix(appName), AppLabels(appName), podSpec)
  }

  function ConfigureDeploymentStep(s: State, e: Env, appName: string, unitSpec: PodSpec,
                                   cs: seq<ContainerSpec>, replicas: int): Step<Outcome>
  {
    var f := PodFilesStep(s, e, unitSpec, cs, ForApplication(appName));
    if f.result.Err? then Step(Fail(f.result.error), f.state)
    else EnsureDeploymentStep(f.state, e, DeploymentOf(appName, f.result.value, replicas))
  }

  /** `configureDeployment` */
  method ConfigureDeployment(k: Cluster, appName: string, unitSpec: PodSpec, cs: seq<ContainerSpec>,
                             replicas: int) returns (o: Outcome)
    modifies k
    ensures Step(o, k.Snapshot()) == ConfigureDeploymentStep(old(k.Snapshot()), k.env, appName, unitSpec, cs, replicas)
  {
    var podSpec := ConfigurePodFiles(k, unitSpec, cs, ForApplication(appName));
    if podSpec.Err? {
      return Fail(podSpec.error);
    }
    o := k.EnsureDeployment(DeploymentOf(appName, podSpec.value, replicas));
  }

  // ---- ports and configureService ------------------------------------------------

  /** The ports of `ps` other than port 0, in order. */
  function NonzeroPorts(ps: seq<ContainerPort>): seq<ContainerPort>
  {
    if |ps| == 0 then []
    else NonzeroPorts(ps[..|ps| - 1]) + (if ps[|ps| - 1].containerPort == 0 then [] else [ps[|ps| - 1]])
  }

  /** The ports of all containers other than port 0, container by container. */
  function ExposedPorts(cs: seq<Container>): seq<ContainerPort>
  {
    if |cs| == 0 then [] else ExposedPorts(cs[..|cs| - 1]) + NonzeroPorts(cs[|cs| - 1].ports)
  }

  lemma {:induction false} NonzeroPortsMembers(ps: seq<ContainerPort>)
    ensures forall p :: p in NonzeroPorts(ps) <==> p in ps && p.containerPort != 0
  {
    if |ps| > 0 {
      NonzeroPortsMembers(ps[..|ps| - 1]);
      assert ps == ps[..|ps| - 1] + [ps[|ps| - 1]];
    }
  }

  /** Exactly the nonzero ports of the containers are exposed. */
  lemma {:induction false} ExposedPortsMembers(cs: seq<Container>)
    ensures forall p :: p in ExposedPorts(cs) <==>
      p.containerPort != 0 && exists i :: 0 <= i < |cs| && p in cs[i].ports
  {
    forall p ensures p in ExposedPorts(cs) <==> p.containerPort != 0 && exists i :: 0 <= i < |cs| && p in cs[i].ports
    {
      ExposedPortMember(cs, p);
    }
  }

  lemma {:induction false} ExposedPortMember(cs: seq<Container>, p: ContainerPort)
    ensures p in ExposedPorts(cs) <==> p.containerPort != 0 && exists i :: 0 <= i < |cs| && p in cs[i].ports
  {
    if |cs| > 0 {
      var n := |cs| - 1;
      ExposedPortMember(cs[..n], p);
      NonzeroPortsMembers(cs[n].ports);
      if p.containerPort != 0 && exists i :: 0 <= i < |cs| && p in cs[i].ports {
        var i :| 0 <= i < |cs| && p in cs[i].ports;
        if i < n { assert cs[..n][i] == cs[i]; }
      }
      if p in ExposedPorts(cs[..n]) {
        var i :| 0 <= i < n && p in cs[..n][i].ports;
        assert cs[..n][i] == cs[i];
      }
    }
  }

  /** The service port for the `i`th exposed port: only the first may be
      given a target port, which defaults to the container port. */
  function ServicePortOf(cp: ContainerPort, i: nat, targetPort: Option<int>): ServicePort
  {
    ServicePort(cp.protocol, cp.containerPort, if i == 0 then targetPort.GetOr(cp.containerPort) else 0)
  }

  function ServicePortsOf(ps: seq<ContainerPort>, targetPort: Option<int>): seq<ServicePort>
  {
    seq(|ps|, i requires 0 <= i < |ps| => ServicePortOf(ps[i], i, targetPort))
  }

  /** Every exposed port is a service port on the same number and protocol;
      the first one targets the configured port or else itself, the others
      leave the target unset. */
  lemma ServicePortsShape(ps: seq<ContainerPort>, cfg: AppConfig)
    ensures var r := ServicePortsOf(ps, cfg.targetPort);
      && |r| == |ps|
      && (forall i :: 0 <= i < |ps| ==> r[i].port == ps[i].containerPort && r[i].protocol == ps[i].protocol)
      && (|ps| > 0 && cfg.targetPort.Some? ==> r[0].targetPort == cfg.targetPort.value)
      && (|ps| > 0 && cfg.targetPort.None? ==> r[0].targetPort == ps[0].containerPort)
      && (forall i :: 1 <= i < |ps| ==> r[i].targetPort == 0)
  {
  }

  function ServiceOf(appName: string, ps: seq<ContainerPort>, cfg: AppConfig): Service
  {
    Service(DeploymentName(appName), AppLabels(appName), "", "", AppLabels(appName), cfg.serviceType,
            ServicePortsOf(ps, cfg.targetPort), cfg.externalIPs, cfg.loadBalancerIP,
            cfg.loadBalancerSourceRanges, cfg.externalName, "")
  }

  function ConfigureServiceStep(s: State, e: Env, appName: string, ps: seq<ContainerPort>, cfg: AppConfig)
    : Step<Outcome>
  {
    EnsureServiceResourceStep(s, e, ServiceOf(appName, ps, cfg))
  }

  /** `configureService` */
  method ConfigureService(k: Cluster, appName: string, ps: seq<ContainerPort>, cfg: AppConfig)
    returns (o: Outcome)
    modifies k
    ensures Step(o, k.Snapshot()) == ConfigureServiceStep(old(k.Snapshot()), k.env, appName, ps, cfg)
  {
    var ports: seq<ServicePort> := [];
    for i := 0 to |ps|
      invariant ports == ServicePortsOf(ps[..i], cfg.targetPort)
    {
      var target := 0;
      if i == 0 {
        target := if cfg.targetPort.Some? then cfg.targetPort.value else ps[i].containerPort;
      }
      ports := ports + [ServicePort(ps[i].protocol, ps[i].containerPort, target)];
      assert ps[..i + 1][..i] == ps[..i];
    }
    assert ps[..|ps|] == ps;
    o := k.EnsureServiceResource(
      Service(DeploymentName(appName), AppLabels(appName), "", "", AppLabels(appName), cfg.serviceType,
              ports, cfg.externalIPs, cfg.loadBalancerIP, cfg.loadBalancerSourceRanges, cfg.externalName, ""));
  }

  // ---- EnsureService / DeleteService ---------------------------------------------

  lemma NonzeroPortsSnoc(ps: seq<ContainerPort>, j: nat)
    requires j < |ps|
    ensures NonzeroPorts(ps[..j + 1]) ==
      NonzeroPorts(ps[..j]) + (if ps[j].containerPort == 0 then [] else [ps[j]])
  {
    assert ps[..j + 1][..j] == ps[..j];
  }

  lemma ExposedPortsSnoc(cs: seq<Container>, i: nat)
    requires i < |cs|
    ensures ExposedPorts(cs[..i + 1]) == ExposedPorts(cs[..i]) + NonzeroPorts(cs[i].ports)
  {
    assert cs[..i + 1][..i] == cs[..i];
  }

  /** The loop of `EnsureService` that collects the ports to expose. */
  method CollectPorts(cs: seq<Container>) returns (ports: seq<ContainerPort>)
    ensures ports == ExposedPorts(cs)
  {
    ports := [];
    for i := 0 to |cs|
      invariant ports == ExposedPorts(cs[..i])
    {
      ExposedPortsSnoc(cs, i);
      var cps := cs[i].ports;
      ghost var done := ExposedPorts(cs[..i]);
      assert cps[..0] == [];
      for j := 0 to |cps|
        invariant ports == done + NonzeroPorts(cps[..j])
      {
        NonzeroPortsSnoc(cps, j);
        if cps[j].containerPort == 0 {
          continue;
        }
        ports := ports + [cps[j]];
      }
      assert cps[..|cps|] == cps;
    }
    assert cs[..|cs|] == cs;
  }

  function EnsureServiceStep(s: State, e: Env, appName: string, params: ServiceParams, numUnits: int,
                             cfg: AppConfig, storageDir: Result<string>): Step<Outcome>
  {
    if numUnits <= 0 then Step(Fail(InvalidInput("number of units must be > 0")), s)
    else if params.podSpec.None? then Step(Fail(InvalidInput("missing pod spec")), s)
    else
      var ps := params.podSpec.value;
      var u := UnitSpecOf(ps);
      if u.Err? then Step(Fail(u.error), s)
      else
        var st := ConfigureStorageStep(s, e, u.value, appName, params.filesystems, storageDir);
        if st.result.Err? then Step(Fail(st.result.error), st.state)
        else DeployAndServeStep(st.state, e, appName, st.result.value, ps, Int32(numUnits), cfg)
  }

  /** The second half of `EnsureService`, once the pod spec has its storage:
      the deployment, then the service unless the spec omits it, deleting
      the deployment again when the service cannot be written. */
  function DeployAndServeStep(s: State, e: Env, appName: string, spec: PodSpec, ps: CaasPodSpec,
                              replicas: int, cfg: AppConfig): Step<Outcome>
  {
    var d := ConfigureDeploymentStep(s, e, appName, spec, ps.containers, replicas);
    if d.result.Fail? then d
    else if ps.omitServiceFrontend then d
    else
      var sv := ConfigureServiceStep(d.state, e, appName, ExposedPorts(spec.containers), cfg);
      if sv.result.Pass? then sv
      else Step(sv.result, DeleteDeploymentStep(sv.state, e, DeploymentName(appName)).state)
  }

  /** `EnsureService`: when the service cannot be written, the deployment
      just written is deleted again (the outcome of that delete is not
      reported). */
  method EnsureService(k: Cluster, appName: string, params: ServiceParams, numUnits: int,
                       cfg: AppConfig, storageDir: Result<string>) returns (o: Outcome)
    modifies k
    ensures Step(o, k.Snapshot()) ==
      EnsureServiceStep(old(k.Snapshot()), k.env, appName, params, numUnits, cfg, storageDir)
  {
    if numUnits <= 0 {
      return Fail(InvalidInput("number of units must be > 0"));
    }
    if params.podSpec.None? {
      return Fail(InvalidInput("missing pod spec"));
    }
    var ps := params.podSpec.value;
    var unitSpec := MakeUnitSpec(ps);
    if unitSpec.Err? {
      return Fail(unitSpec.error);
    }
    var withStorage := ConfigureStorage(k, unitSpec.value, appName, params.filesystems, storageDir);
    if withStorage.Err? {
      return Fail(withStorage.error);
    }
    var numPods := Int32(numUnits);
    o := ConfigureDeployment(k, appName, withStorage.value, ps.containers, numPods);
    if o.Fail? {
      return;
    }
    var ports := CollectPorts(withStorage.value.containers);
    if !ps.omitServiceFrontend {
      o := ConfigureService(k, appName, ports, cfg);
      if o.Fail? {
        var _ := k.DeleteDeployment(DeploymentName(appName));
      }
    }
  }

  function DeleteServiceStep(s: State, e: Env, appName: string): Step<Outcome>
  {
    var a := DeleteServiceResourceStep(s, e, DeploymentName(appName));
    if a.result.Fail? then a else DeleteDeploymentStep(a.state, e, DeploymentName(appName))
  }

  /** `DeleteService`: the service, then the deployment. */
  method DeleteService(k: Cluster, appName: string) returns (o: Outcome)
    modifies k
    ensures Step(o, k.Snapshot()) == DeleteServiceStep(old(k.Snapshot()), k.env, appName)
  {
    o := k.DeleteServiceResource(DeploymentName(appName));
    if o.Fail? {
      return;
    }
    o := k.DeleteDeployment(DeploymentName(appName));
  }

  // ---- ExposeService / UnexposeService -------------------------------------------

  /** The ingress path: `$appname` stands for the application's name, and a
      leading `/` is added when missing. */
  function IngressPath(appName: string, path: string): (r: string)
    ensures |r| > 0 && r[0] == '/'
  {
    var p := if path == "$appname" then appName else path;
    if |p| > 0 && p[0] == '/' then p else "/" + p
  }

  lemma IngressPathIdempotent(appName: string, path: string)
    ensures IngressPath(appName, IngressPath(appName, path)) == IngressPath(appName, path)
  {
    var r := IngressPath(appName, path);
    assert r != "$appname" by { assert r[0] != "$appname"[0]; }
  }

  /** A path that names the application lands on `/<name>`, or on the name
      itself when that is already rooted; a rooted path is kept as it is. */
  lemma IngressPathCases(appName: string, path: string)
    ensures (|appName| == 0 || appName[0] != '/') ==> IngressPath(appName, "$appname") == "/" + appName
    ensures |appName| > 0 && appName[0] == '/' ==> IngressPath(appName, "$appname") == appName
    ensures |path| > 0 && path[0] == '/' ==> IngressPath(appName, path) == path
  {
  }

  function FormatBool(b: bool): string
  {
    if b then "true" else "false"
  }

  function IngressAnnotations(cfg: AppConfig): map<string, string>
  {
    map["ingress.kubernetes.io/rewrite-target" := "",
        "ingress.kubernetes.io/ssl-redirect" := FormatBool(cfg.sslRedirect),
        "kubernetes.io/ingress.class" := cfg.ingressClass,
        "kubernetes.io/ingress.allow-http" := FormatBool(cfg.allowHTTP),
        "ingress.kubernetes.io/ssl-passthrough" := FormatBool(cfg.sslPassthrough)]
  }

  /** The ingress rule for `svc`: one host, one path, to the target port of
      the service's first port. */
  function IngressOf(appName: string, cfg: AppConfig, svc: Service): Ingress
    requires |svc.ports| > 0
  {
    Ingress(DeploymentName(appName), AppLabels(appName), IngressAnnotations(cfg), cfg.hostname,
            IngressPath(appName, cfg.applicationPath), svc.name, svc.ports[0].targetPort)
  }

  function ExposeServiceStep(s: State, e: Env, appName: string, cfg: AppConfig): Step<Outcome>
  {
    if cfg.hostname == "" then Step(Fail(InvalidInput("external hostname required")), s)
    else
      var g := MapGet(e, ServiceKind, s.services, DeploymentName(appName));
      if g.Err? then Step(Fail(g.error), s)
      else if |g.value.ports| == 0 then Step(Fail(InvalidInput("service without a port")), s)
      else EnsureIngressStep(s, e, IngressOf(appName, cfg, g.value))
  }

  /** `ExposeService` */
  method ExposeService(k: Cluster, appName: string, cfg: AppConfig) returns (o: Outcome)
    modifies k
    ensures Step(o, k.Snapshot()) == ExposeServiceStep(old(k.Snapshot()), k.env, appName, cfg)
  {
    if cfg.hostname == "" {
      return Fail(InvalidInput("external hostname required"));
    }
    var path := cfg.applicationPath;
    if path == "$appname" {
      path := appName;
    }
    if !(|path| > 0 && path[0] == '/') {
      path := "/" + path;
    }
    var svc := MapGet(k.env, ServiceKind, k.services, DeploymentName(appName));
    if svc.Err? {
      return Fail(svc.error);
    }
    if |svc.value.ports| == 0 {
      return Fail(InvalidInput("service without a port"));
    }
    o := k.EnsureIngress(Ingress(DeploymentName(appName), AppLabels(appName), IngressAnnotations(cfg),
                                 cfg.hostname, path, svc.value.name, svc.value.ports[0].targetPort));
  }

  function UnexposeServiceStep(s: State, e: Env, appName: string): Step<Outcome>
  {
    DeleteIngressStep(s, e, DeploymentName(appName))
  }

  /** `UnexposeService` */
  method UnexposeService(k: Cluster, appName: string) returns (o: Outcome)
    modifies k
    ensures Step(o, k.Snapshot()) == UnexposeServiceStep(old(k.Snapshot()), k.env, appName)
  {
    o := k.DeleteIngress(DeploymentName(appName));
  }

  // ---- properties ------------------------------------------------------------------

  /** Storage only adds claims: it changes nothing else and keeps every claim. */
  lemma {:induction false} StorageFrame(s: State, e: Env, spec: PodSpec, appName: string, baseDir: string,
                                        fss: seq<Filesystem>, i: nat)
    requires i <= |fss|
    ensures var t := StorageFrom(s, e, spec, appName, baseDir, fss, i).state;
      && t == s.(claims := t.claims)
      && forall n :: n in s.claims ==> n in t.claims && t.claims[n] == s.claims[n]
    decreases |fss| - i
  {
    if i < |fss| {
      var p := FilesystemVolumeParams(e, appName, fss[i], i);
      var v := MaybeGetVolumeStep(s, e, p);
      MaybeGetVolumeFrame(s, e, p);
      if v.result.Ok? && |spec.containers| > 0 {
        StorageFrame(v.state, e, AttachVolume(spec, v.result.value, FilesystemMountPath(baseDir, appName, fss[i])),
                     appName, baseDir, fss, i + 1);
      }
    }
  }

  /** One filesystem of `StorageFrom`, once its volume has been found. */
  lemma StorageFromStep(s: State, e: Env, spec: PodSpec, appName: string, baseDir: string,
                        fss: seq<Filesystem>, i: nat)
    requires i < |fss|
    requires StorageFrom(s, e, spec, appName, baseDir, fss, i).result.Ok?
    ensures var v := MaybeGetVolumeStep(s, e, FilesystemVolumeParams(e, appName, fss[i], i));
      && v.result.Ok? && |spec.containers| > 0
      && StorageFrom(s, e, spec, appName, baseDir, fss, i) ==
         StorageFrom(v.state, e, AttachVolume(spec, v.result.value, FilesystemMountPath(baseDir, appName, fss[i])),
                     appName, baseDir, fss, i + 1)
  {
  }

  /** Successful storage gives every filesystem, in order, a volume on its
      own claim after the volumes already there. */
  lemma {:induction false} StorageAttaches(s: State, e: Env, spec: PodSpec, appName: string, baseDir: string,
                                           fss: seq<Filesystem>, i: nat)
    requires i <= |fss|
    requires StorageFrom(s, e, spec, appName, baseDir, fss, i).result.Ok?
    ensures var out := StorageFrom(s, e, spec, appName, baseDir, fss, i).result.value;
      && |out.volumes| == |spec.volumes| + (|fss| - i)
      && out.volumes[..|spec.volumes|] == spec.volumes
      && ClaimVolumes(out.volumes[|spec.volumes|..], appName, i)
    decreases |fss| - i
  {
    if i == |fss| {
      assert spec.volumes[..|spec.volumes|] == spec.volumes;
      assert spec.volumes[|spec.volumes|..] == [];
    } else {
      StorageFromStep(s, e, spec, appName, baseDir, fss, i);
      var p := FilesystemVolumeParams(e, appName, fss[i], i);
      var v := MaybeGetVolumeStep(s, e, p);
      MaybeGetVolumeMountsClaim(s, e, p);
      var next := AttachVolume(spec, v.result.value, FilesystemMountPath(baseDir, appName, fss[i]));
      AttachVolumeAppends(spec, v.result.value, FilesystemMountPath(baseDir, appName, fss[i]));
      StorageAttaches(v.state, e, next, appName, baseDir, fss, i + 1);
      assert p.pvcName == FilesystemVolumeName(appName, i) + "-claim";
      ClaimVolumesCons(StorageFrom(v.state, e, next, appName, baseDir, fss, i + 1).result.value.volumes,
                       spec.volumes, v.result.value, appName, i);
    }
  }

  /** `vols` mount, in order, the claims of the filesystems from the `i`th on. */
  predicate ClaimVolumes(vols: seq<Volume>, appName: string, i: nat)
  {
    forall j :: 0 <= j < |vols| ==> vols[j].source == ClaimSource(FilesystemVolumeName(appName, i + j) + "-claim")
  }

  lemma ClaimVolumesCons(out: seq<Volume>, before: seq<Volume>, vol: Volume, appName: string, i: nat)
    requires vol.source == ClaimSource(FilesystemVolumeName(appName, i) + "-claim")
    requires |out| >= |before| + 1
    requires out[..|before| + 1] == before + [vol]
    requires ClaimVolumes(out[|before| + 1..], appName, i + 1)
    ensures out[..|before|] == before
    ensures ClaimVolumes(out[|before|..], appName, i)
  {
    var k := |before|;
    assert out[..k] == out[..k + 1][..k];
    assert out[k] == out[..k + 1][k] == vol;
    var tail := out[k..];
    forall j | 0 <= j < |tail|
      ensures tail[j].source == ClaimSource(FilesystemVolumeName(appName, i + j) + "-claim")
    {
      if j > 0 {
        assert tail[j] == out[k + 1..][j - 1];
      }
    }
  }

  lemma AttachVolumeAppends(spec: PodSpec, vol: Volume, mountPath: string)
    requires |spec.containers| > 0
    ensures AttachVolume(spec, vol, mountPath).volumes == spec.volumes + [vol]
    ensures SameContainersButMounts(spec.containers, AttachVolume(spec, vol, mountPath).containers)
  {
  }

  /** Storage changes the containers only in what they mount. */
  lemma {:induction false} StorageKeepsContainers(s: State, e: Env, spec: PodSpec, appName: string, baseDir: string,
                                                  fss: seq<Filesystem>, i: nat)
    requires i <= |fss|
    requires StorageFrom(s, e, spec, appName, baseDir, fss, i).result.Ok?
    ensures var out := StorageFrom(s, e, spec, appName, baseDir, fss, i).result.value;
      && SameContainersButMounts(spec.containers, out.containers)
      && forall c :: 0 <= c < |spec.containers| ==> out.containers[c].ports == spec.containers[c].ports
    decreases |fss| - i
  {
    if i == |fss| {
      assert SameContainersButMounts(spec.containers, spec.containers);
    } else {
      StorageFromStep(s, e, spec, appName, baseDir, fss, i);
      var p := FilesystemVolumeParams(e, appName, fss[i], i);
      var v := MaybeGetVolumeStep(s, e, p);
      var next := AttachVolume(spec, v.result.value, FilesystemMountPath(baseDir, appName, fss[i]));
      AttachVolumeAppends(spec, v.result.value, FilesystemMountPath(baseDir, appName, fss[i]));
      StorageKeepsContainers(v.state, e, next, appName, baseDir, fss, i + 1);
      var out := StorageFrom(v.state, e, next, appName, baseDir, fss, i + 1).result.value;
      SameContainersButMountsTrans(spec.containers, next.containers, out.containers);
      forall c | 0 <= c < |spec.containers| ensures out.containers[c].ports == spec.containers[c].ports {
        assert out.containers[c] == spec.containers[c].(volumeMounts := out.containers[c].volumeMounts);
      }
    }
  }

  /** Successful storage leaves a claim for every filesystem. */
  lemma {:induction false} StorageClaims(s: State, e: Env, spec: PodSpec, appName: string, baseDir: string,
                                         fss: seq<Filesystem>, i: nat, j: nat)
    requires i <= j < |fss|
    requires StorageFrom(s, e, spec, appName, baseDir, fss, i).result.Ok?
    ensures FilesystemVolumeName(appName, j) + "-claim" in StorageFrom(s, e, spec, appName, baseDir, fss, i).state.claims
    decreases |fss| - i
  {
    StorageFromStep(s, e, spec, appName, baseDir, fss, i);
    var p := FilesystemVolumeParams(e, appName, fss[i], i);
    var v := MaybeGetVolumeStep(s, e, p);
    var next := AttachVolume(spec, v.result.value, FilesystemMountPath(baseDir, appName, fss[i]));
    if j == i {
      MaybeGetVolumeClaimPresent(s, e, p);
      StorageKeepsClaim(v.state, e, next, appName, baseDir, fss, i + 1, p.pvcName);
    } else {
      StorageClaims(v.state, e, next, appName, baseDir, fss, i + 1, j);
    }
  }

  /** Storage never removes a claim. */
  lemma {:induction false} StorageKeepsClaim(s: State, e: Env, spec: PodSpec, appName: string, baseDir: string,
                                             fss: seq<Filesystem>, i: nat, name: string)
    requires i <= |fss| && name in s.claims
    ensures name in StorageFrom(s, e, spec, appName, baseDir, fss, i).state.claims
    decreases |fss| - i
  {
    if i < |fss| {
      var p := FilesystemVolumeParams(e, appName, fss[i], i);
      var v := MaybeGetVolumeStep(s, e, p);
      MaybeGetVolumeFrame(s, e, p);
      if v.result.Ok? && |spec.containers| > 0 {
        StorageKeepsClaim(v.state, e, AttachVolume(spec, v.result.value, FilesystemMountPath(baseDir, appName, fss[i])),
                          appName, baseDir, fss, i + 1, name);
      }
    }
  }

  /** Only the ports of the containers decide what is exposed. */
  lemma {:induction false} ExposedPortsOfSamePorts(a: seq<Container>, b: seq<Container>)
    requires |a| == |b| && forall i :: 0 <= i < |a| ==> a[i].ports == b[i].ports
    ensures ExposedPorts(a) == ExposedPorts(b)
  {
    if |a| > 0 {
      ExposedPortsOfSamePorts(a[..|a| - 1], b[..|b| - 1]);
    }
  }

  /** `EnsureService` refuses a non-positive unit count and a missing pod
      spec without touching the cluster. */
  lemma EnsureServiceRejects(s: State, e: Env, appName: string, params: ServiceParams, numUnits: int,
                             cfg: AppConfig, storageDir: Result<string>)
    requires numUnits <= 0 || params.podSpec.None?
    ensures var r := EnsureServiceStep(s, e, appName, params, numUnits, cfg, storageDir);
      r.result.Fail? && r.state == s
  {
  }

  /** A failed `EnsureService` leaves no deployment of the application behind
      that was not there before, provided deletes of deployments work. */
  lemma EnsureServiceRollsBack(s: State, e: Env, appName: string, params: ServiceParams, numUnits: int,
                               cfg: AppConfig, storageDir: Result<string>)
    requires EnsureServiceStep(s, e, appName, params, numUnits, cfg, storageDir).result.Fail?
    requires DeploymentName(appName) !in s.deployments && !e.Faulted(Delete, DeploymentKind)
    ensures DeploymentName(appName) !in EnsureServiceStep(s, e, appName, params, numUnits, cfg, storageDir).state.deployments
  {
    if numUnits > 0 && params.podSpec.Some? && UnitSpecOf(params.podSpec.value).Ok? && storageDir.Ok? {
      var ps := params.podSpec.value;
      var u := UnitSpecOf(ps).value;
      StorageFrame(s, e, u, appName, storageDir.value, params.filesystems, 0);
      var st := ConfigureStorageStep(s, e, u, appName, params.filesystems, storageDir);
      if st.result.Ok? {
        DeployAndServeRollsBack(st.state, e, appName, st.result.value, ps, Int32(numUnits), cfg);
      }
    }
  }

  lemma DeployAndServeRollsBack(s: State, e: Env, appName: string, spec: PodSpec, ps: CaasPodSpec,
                                replicas: int, cfg: AppConfig)
    requires DeployAndServeStep(s, e, appName, spec, ps, replicas, cfg).result.Fail?
    requires DeploymentName(appName) !in s.deployments && !e.Faulted(Delete, DeploymentKind)
    ensures DeploymentName(appName) !in DeployAndServeStep(s, e, appName, spec, ps, replicas, cfg).state.deployments
  {
    PodFilesFrame(s, e, spec, FileSetsFrom(0, ps.containers), ForApplication(appName));
  }

  /** A successful `EnsureService` leaves a deployment controller that runs
      the requested number of units (as a 32-bit count) of the application's
      pods and, unless the pod spec omits it, a service that selects those
      pods on the nonzero ports of the pod spec. */
  lemma EnsureServiceWrites(s: State, e: Env, appName: string, params: ServiceParams, numUnits: int,
                            cfg: AppConfig, storageDir: Result<string>)
    requires EnsureServiceStep(s, e, appName, params, numUnits, cfg, storageDir).result.Pass?
    ensures var t := EnsureServiceStep(s, e, appName, params, numUnits, cfg, storageDir).state;
      var name := DeploymentName(appName);
      && params.podSpec.Some? && UnitSpecOf(params.podSpec.value).Ok?
      && name in t.deployments
      && t.deployments[name].replicas == Int32(numUnits)
      && t.deployments[name].selector == AppLabels(appName)
      && t.deployments[name].templateLabels == AppLabels(appName)
      && (!params.podSpec.value.omitServiceFrontend ==>
            && name in t.services
            && t.services[name].name == name
            && t.services[name].selector == AppLabels(appName)
            && t.services[name].ports ==
                 ServicePortsOf(ExposedPorts(UnitSpecOf(params.podSpec.value).value.containers), cfg.targetPort))
  {
    var ps := params.podSpec.value;
    var u := UnitSpecOf(ps).value;
    var st := ConfigureStorageStep(s, e, u, appName, params.filesystems, storageDir);
    StorageKeepsContainers(s, e, u, appName, storageDir.value, params.filesystems, 0);
    ExposedPortsOfSamePorts(st.result.value.containers, u.containers);
    DeployAndServeWrites(st.state, e, appName, st.result.value, ps, Int32(numUnits), cfg);
  }

  lemma DeployAndServeWrites(s: State, e: Env, appName: string, spec: PodSpec, ps: CaasPodSpec,
                             replicas: int, cfg: AppConfig)
    requires DeployAndServeStep(s, e, appName, spec, ps, replicas, cfg).result.Pass?
    ensures var t := DeployAndServeStep(s, e, appName, spec, ps, replicas, cfg).state;
      var name := DeploymentName(appName);
      && name in t.deployments
      && t.deployments[name].replicas == replicas
      && t.deployments[name].selector == AppLabels(appName)
      && t.deployments[name].templateLabels == AppLabels(appName)
      && (!ps.omitServiceFrontend ==>
            && name in t.services
            && t.services[name].name == name
            && t.services[name].selector == AppLabels(appName)
            && t.services[name].ports == ServicePortsOf(ExposedPorts(spec.containers), cfg.targetPort))
  {
  }

  /** `ExposeService` routes the ingress rule for the application's host
      and path to the application's service, on the target port of the
      service's first port. */
  lemma ExposeRoutesToService(t: State, e: Env, appName: string, cfg: AppConfig)
    requires DeploymentName(appName) in t.services && |t.services[DeploymentName(appName)].ports| > 0
    requires cfg.hostname != ""
    requires !e.Faulted(Get, ServiceKind) && !e.Faulted(Update, IngressKind) && !e.Faulted(Create, IngressKind)
    ensures var x := ExposeServiceStep(t, e, appName, cfg);
      var svc := t.services[DeploymentName(appName)];
      var ing := x.state.ingresses[DeploymentName(appName)];
      && x.result.Pass?
      && DeploymentName(appName) in x.state.ingresses
      && ing.backendService == svc.name && ing.backendPort == svc.ports[0].targetPort
      && ing.host == cfg.hostname && ing.path == IngressPath(appName, cfg.applicationPath)
      && ing.annotations["kubernetes.io/ingress.class"] == cfg.ingressClass
      && x.state == t.(ingresses := x.state.ingresses)
  {
  }

  /** Exposing an application after `EnsureService` routes the ingress rule
      to its service, on the configured target port or else the first
      exposed container port. */
  lemma ExposeAfterEnsure(s: State, e: Env, appName: string, params: ServiceParams, numUnits: int,
                          cfg: AppConfig, storageDir: Result<string>)
    requires EnsureServiceStep(s, e, appName, params, numUnits, cfg, storageDir).result.Pass?
    requires params.podSpec.Some? && !params.podSpec.value.omitServiceFrontend
    requires UnitSpecOf(params.podSpec.value).Ok?
    requires |ExposedPorts(UnitSpecOf(params.podSpec.value).value.containers)| > 0
    requires cfg.hostname != ""
    requires !e.Faulted(Get, ServiceKind) && !e.Faulted(Update, IngressKind) && !e.Faulted(Create, IngressKind)
    ensures var t := EnsureServiceStep(s, e, appName, params, numUnits, cfg, storageDir).state;
      var x := ExposeServiceStep(t, e, appName, cfg);
      var first := ExposedPorts(UnitSpecOf(params.podSpec.value).value.containers)[0];
      && x.result.Pass?
      && DeploymentName(appName) in x.state.ingresses
      && x.state.ingresses[DeploymentName(appName)].backendService == DeploymentName(appName)
      && x.state.ingresses[DeploymentName(appName)].backendPort == cfg.targetPort.GetOr(first.containerPort)
  {
    var t := EnsureServiceStep(s, e, appName, params, numUnits, cfg, storageDir).state;
    var ps := ExposedPorts(UnitSpecOf(params.podSpec.value).value.containers);
    EnsureServiceWrites(s, e, appName, params, numUnits, cfg, storageDir);
    assert t.services[DeploymentName(appName)].ports == ServicePortsOf(ps, cfg.targetPort);
    ExposeRoutesToService(t, e, appName, cfg);
  }

  /** With working deletes, `DeleteService` leaves neither the service nor
      the deployment, and `UnexposeService` leaves no ingress. */
  lemma DeleteServiceRemoves(s: State, e: Env, appName: string)
    requires !e.Faulted(Delete, ServiceKind) && !e.Faulted(Delete, DeploymentKind) && !e.Faulted(Delete, IngressKind)
    ensures var d := DeleteServiceStep(s, e, appName);
      d.result.Pass? && DeploymentName(appName) !in d.state.services && DeploymentName(appName) !in d.state.deployments
    ensures var u := UnexposeServiceStep(s, e, appName);
      u.result.Pass? && DeploymentName(appName) !in u.state.ingresses
  {
  }

  // ---- running EnsureService twice -------------------------------------------------

  /** Storage run again, in a cluster that holds every claim the first run
      left, reuses those claims and writes nothing. */
  lemma {:induction false} StorageRerun(s: State, u: State, e: Env, spec: PodSpec, appName: string, baseDir: string,
                                        fss: seq<Filesystem>, i: nat)
    requires i <= |fss|
    requires StorageFrom(s, e, spec, appName, baseDir, fss, i).result.Ok?
    requires var f := StorageFrom(s, e, spec, appName, baseDir, fss, i).state;
      forall n :: n in f.claims ==> n in u.claims && u.claims[n] == f.claims[n]
    ensures StorageFrom(u, e, spec, appName, baseDir, fss, i) == Step(StorageFrom(s, e, spec, appName, baseDir, fss, i).result, u)
    decreases |fss| - i
  {
    if i < |fss| {
      StorageFromStep(s, e, spec, appName, baseDir, fss, i);
      var p := FilesystemVolumeParams(e, appName, fss[i], i);
      var v := MaybeGetVolumeStep(s, e, p);
      var next := AttachVolume(spec, v.result.value, FilesystemMountPath(baseDir, appName, fss[i]));
      MaybeGetVolumeClaimPresent(s, e, p);
      MaybeGetVolumeIdempotent(s, e, p);
      ClaimReuse(v.state, e, p);
      StorageFrame(v.state, e, next, appName, baseDir, fss, i + 1);
      ClaimReuse(u, e, p);
      StorageRerun(v.state, u, e, next, appName, baseDir, fss, i + 1);
    }
  }

  /** `EnsureService` after the pod spec has its storage writes config maps,
      the deployment and the service, and nothing else. */
  lemma DeployAndServeFrame(s: State, e: Env, appName: string, spec: PodSpec, ps: CaasPodSpec,
                            replicas: int, cfg: AppConfig)
    ensures var t := DeployAndServeStep(s, e, appName, spec, ps, replicas, cfg).state;
      t == s.(configMaps := t.configMaps, deployments := t.deployments, services := t.services)
  {
    ConfigureDeploymentFrame(s, e, appName, spec, ps.containers, replicas);
    var d := ConfigureDeploymentStep(s, e, appName, spec, ps.containers, replicas);
    if d.result.Pass? && !ps.omitServiceFrontend {
      var sv := ConfigureServiceStep(d.state, e, appName, ExposedPorts(spec.containers), cfg);
      assert sv.state == d.state.(services := sv.state.services);
      if sv.result.Fail? {
        var x := DeleteDeploymentStep(sv.state, e, DeploymentName(appName));
        assert x.state == sv.state.(deployments := x.state.deployments);
      }
    }
  }

  lemma ConfigureDeploymentFrame(s: State, e: Env, appName: string, unitSpec: PodSpec,
                                 cs: seq<ContainerSpec>, replicas: int)
    ensures var t := ConfigureDeploymentStep(s, e, appName, unitSpec, cs, replicas).state;
      t == s.(configMaps := t.configMaps, deployments := t.deployments)
  {
    var f := PodFilesStep(s, e, unitSpec, cs, ForApplication(appName));
    PodFilesFrame(s, e, unitSpec, FileSetsFrom(0, cs), ForApplication(appName));
    var t := ConfigureDeploymentStep(s, e, appName, unitSpec, cs, replicas).state;
    assert t == f.state.(deployments := t.deployments);
  }

  /** The deployment written again over what the first write left passes
      and changes nothing. */
  lemma ConfigureDeploymentRerun(s: State, t: State, e: Env, appName: string, unitSpec: PodSpec,
                                 cs: seq<ContainerSpec>, replicas: int)
    requires ConfigureDeploymentStep(s, e, appName, unitSpec, cs, replicas).result.Pass?
    requires var d := ConfigureDeploymentStep(s, e, appName, unitSpec, cs, replicas).state;
      t.configMaps == d.configMaps && t.deployments == d.deployments
    ensures ConfigureDeploymentStep(t, e, appName, unitSpec, cs, replicas) == Step(Pass, t)
  {
    var items, naming := FileSetsFrom(0, cs), ForApplication(appName);
    var f := PodFilesStep(s, e, unitSpec, cs, naming);
    PodFilesWritesConfigMaps(s, e, unitSpec, items, naming);
    PodFilesState(s, e, unitSpec, items, naming);
    PodFilesRerun(s, t, e, unitSpec, items, naming);
    OverlayTwice(s.configMaps, ConfigMapOverlay(items, naming));
    assert t.(configMaps := t.configMaps + ConfigMapOverlay(items, naming)) == t;
    EnsureDeploymentRerun(f.state, t, e, DeploymentOf(appName, f.result.value, replicas));
  }

  lemma DeployAndServeIdempotent(s: State, e: Env, appName: string, spec: PodSpec, ps: CaasPodSpec,
                                 replicas: int, cfg: AppConfig)
    requires DeployAndServeStep(s, e, appName, spec, ps, replicas, cfg).result.Pass?
    ensures var t := DeployAndServeStep(s, e, appName, spec, ps, replicas, cfg).state;
      DeployAndServeStep(t, e, appName, spec, ps, replicas, cfg) == Step(Pass, t)
  {
    var d := ConfigureDeploymentStep(s, e, appName, spec, ps.containers, replicas);
    var t := DeployAndServeStep(s, e, appName, spec, ps, replicas, cfg).state;
    ConfigureDeploymentRerun(s, t, e, appName, spec, ps.containers, replicas);
    if !ps.omitServiceFrontend {
      EnsureServiceResourceRerun(d.state, t, e, ServiceOf(appName, ExposedPorts(spec.containers), cfg));
    }
  }

  /** `EnsureService` is idempotent: run again on the cluster it left, it
      passes and changes nothing. */
  lemma EnsureServiceIdempotent(s: State, e: Env, appName: string, params: ServiceParams, numUnits: int,
                                cfg: AppConfig, storageDir: Result<string>)
    requires EnsureServiceStep(s, e, appName, params, numUnits, cfg, storageDir).result.Pass?
    ensures var t := EnsureServiceStep(s, e, appName, params, numUnits, cfg, storageDir).state;
      EnsureServiceStep(t, e, appName, params, numUnits, cfg, storageDir) == Step(Pass, t)
  {
    var ps := params.podSpec.value;
    var u := UnitSpecOf(ps).value;
    var st := StorageFrom(s, e, u, appName, storageDir.value, params.filesystems, 0);
    var t := DeployAndServeStep(st.state, e, appName, st.result.value, ps, Int32(numUnits), cfg).state;
    DeployAndServeFrame(st.state, e, appName, st.result.value, ps, Int32(numUnits), cfg);
    StorageRerun(s, t, e, u, appName, storageDir.value, params.filesystems, 0);
    DeployAndServeIdempotent(st.state, e, appName, st.result.value, ps, Int32(numUnits), cfg);
  }

  // ---- failures and what they leave -------------------------------------------------

  /** A failed `EnsureService`, with working deletes of deployments, leaves
      the deployments as they were when it fails before or at the write of
      the deployment, and as they were less the application's own when the
      service write fails, even if that deployment existed before. */
  lemma EnsureServiceFailureDeployments(s: State, e: Env, appName: string, params: ServiceParams, numUnits: int,
                                        cfg: AppConfig, storageDir: Result<string>)
    requires EnsureServiceStep(s, e, appName, params, numUnits, cfg, storageDir).result.Fail?
    requires !e.Faulted(Delete, DeploymentKind)
    ensures var t := EnsureServiceStep(s, e, appName, params, numUnits, cfg, storageDir).state;
      t.deployments == s.deployments || t.deployments == s.deployments - {DeploymentName(appName)}
  {
    if numUnits > 0 && params.podSpec.Some? && UnitSpecOf(params.podSpec.value).Ok? && storageDir.Ok? {
      var ps := params.podSpec.value;
      var u := UnitSpecOf(ps).value;
      StorageFrame(s, e, u, appName, storageDir.value, params.filesystems, 0);
      var st := ConfigureStorageStep(s, e, u, appName, params.filesystems, storageDir);
      if st.result.Ok? {
        DeployAndServeFailureDeployments(st.state, e, appName, st.result.value, ps, Int32(numUnits), cfg);
      }
    }
  }

  lemma DeployAndServeFailureDeployments(s: State, e: Env, appName: string, spec: PodSpec, ps: CaasPodSpec,
                                         replicas: int, cfg: AppConfig)
    requires DeployAndServeStep(s, e, appName, spec, ps, replicas, cfg).result.Fail?
    requires !e.Faulted(Delete, DeploymentKind)
    ensures var t := DeployAndServeStep(s, e, appName, spec, ps, replicas, cfg).state;
      var d := ConfigureDeploymentStep(s, e, appName, spec, ps.containers, replicas);
      && (d.result.Fail? ==> t.deployments == s.deployments)
      && (d.result.Pass? ==> t.deployments == s.deployments - {DeploymentName(appName)})
  {
    var name := DeploymentName(appName);
    ConfigureDeploymentDeployments(s, e, appName, spec, ps.containers, replicas);
    var d := ConfigureDeploymentStep(s, e, appName, spec, ps.containers, replicas);
    if d.result.Pass? {
      var sv := ConfigureServiceStep(d.state, e, appName, ExposedPorts(spec.containers), cfg);
      assert sv.state.deployments == d.state.deployments;
      assert s.deployments[name := d.state.deployments[name]] - {name} == s.deployments - {name};
    }
  }

  /** The deployment write changes no deployment when it fails and only the
      application's own when it passes. */
  lemma ConfigureDeploymentDeployments(s: State, e: Env, appName: string, unitSpec: PodSpec,
                                       cs: seq<ContainerSpec>, replicas: int)
    ensures var d := ConfigureDeploymentStep(s, e, appName, unitSpec, cs, replicas);
      var name := DeploymentName(appName);
      && (d.result.Fail? ==> d.state.deployments == s.deployments)
      && (d.result.Pass? ==> name in d.state.deployments &&
                             d.state.deployments == s.deployments[name := d.state.deployments[name]])
  {
    var f := PodFilesStep(s, e, unitSpec, cs, ForApplication(appName));
    PodFilesFrame(s, e, unitSpec, FileSetsFrom(0, cs), ForApplication(appName));
    assert f.state.deployments == s.deployments;
  }

  /** The pod spec of the deployment is the storage's pod spec with the file
      sets' config maps added: same volumes first, one config map volume per
      file set after them, and the containers changed only in their mounts. */
  lemma DeployAndServePodSpec(s: State, e: Env, appName: string, spec: PodSpec, ps: CaasPodSpec,
                              replicas: int, cfg: AppConfig)
    requires DeployAndServeStep(s, e, appName, spec, ps, replicas, cfg).result.Pass?
    ensures var t := DeployAndServeStep(s, e, appName, spec, ps, replicas, cfg).state;
      var name := DeploymentName(appName);
      var f := PodFilesStep(s, e, spec, ps.containers, ForApplication(appName));
      && f.result.Ok?
      && name in t.deployments
      && t.deployments[name].podSpec == f.result.value
      && f.result.value.volumes == spec.volumes + ConfigMapVolumes(FileSetsFrom(0, ps.containers), ForApplication(appName))
      && SameContainersButMounts(spec.containers, f.result.value.containers)
  {
    PodFilesAddsVolumes(s, e, spec, FileSetsFrom(0, ps.containers), ForApplication(appName));
    PodFilesKeepsContainers(s, e, spec, FileSetsFrom(0, ps.containers), ForApplication(appName));
  }

  /** After a successful `EnsureService` the deployment's pods have the unit
      spec's containers, changed only in their mounts, one volume per
      filesystem on that filesystem's claim, in order, and after those one
      config map volume per file set, in order. */
  lemma EnsureServicePodSpec(s: State, e: Env, appName: string, params: ServiceParams, numUnits: int,
                             cfg: AppConfig, storageDir: Result<string>)
    requires EnsureServiceStep(s, e, appName, params, numUnits, cfg, storageDir).result.Pass?
    ensures var t := EnsureServiceStep(s, e, appName, params, numUnits, cfg, storageDir).state;
      var name := DeploymentName(appName);
      && params.podSpec.Some? && UnitSpecOf(params.podSpec.value).Ok?
      && name in t.deployments
      && var pod := t.deployments[name].podSpec;
         var n := |params.filesystems|;
         var items := FileSetsFrom(0, params.podSpec.value.containers);
         && SameContainersButMounts(UnitSpecOf(params.podSpec.value).value.containers, pod.containers)
         && |pod.volumes| == n + |items|
         && ClaimVolumes(pod.volumes[..n], appName, 0)
         && pod.volumes[n..] == ConfigMapVolumes(items, ForApplication(appName))
  {
    var ps := params.podSpec.value;
    var u := UnitSpecOf(ps).value;
    var n := |params.filesystems|;
    var st := StorageFrom(s, e, u, appName, storageDir.value, params.filesystems, 0);
    StorageAttaches(s, e, u, appName, storageDir.value, params.filesystems, 0);
    StorageKeepsContainers(s, e, u, appName, storageDir.value, params.filesystems, 0);
    DeployAndServePodSpec(st.state, e, appName, st.result.value, ps, Int32(numUnits), cfg);
    var out := st.result.value;
    var pod := PodFilesStep(st.state, e, out, ps.containers, ForApplication(appName)).result.value;
    assert out.volumes[0..] == out.volumes;
    assert pod.volumes[..n] == out.volumes;
    SameContainersButMountsTrans(u.containers, out.containers, pod.containers);
  }

  /** Once storage has succeeded, the claims of the application's
      filesystems stay in the cluster whatever happens next: a later failure
      of `EnsureService` does not take them back. No claim that was there
      before is changed. */
  lemma EnsureServiceKeepsClaims(s: State, e: Env, appName: string, params: ServiceParams, numUnits: int,
                                 cfg: AppConfig, storageDir: Result<string>)
    requires numUnits > 0 && params.podSpec.Some? && UnitSpecOf(params.podSpec.value).Ok?
    requires ConfigureStorageStep(s, e, UnitSpecOf(params.podSpec.value).value, appName, params.filesystems,
                                  storageDir).result.Ok?
    ensures var t := EnsureServiceStep(s, e, appName, params, numUnits, cfg, storageDir).state;
      && (forall j :: 0 <= j < |params.filesystems| ==> FilesystemVolumeName(appName, j) + "-claim" in t.claims)
      && (forall n :: n in s.claims ==> n in t.claims && t.claims[n] == s.claims[n])
  {
    var ps := params.podSpec.value;
    var u := UnitSpecOf(ps).value;
    var st := StorageFrom(s, e, u, appName, storageDir.value, params.filesystems, 0);
    StorageFrame(s, e, u, appName, storageDir.value, params.filesystems, 0);
    DeployAndServeFrame(st.state, e, appName, st.result.value, ps, Int32(numUnits), cfg);
    forall j | 0 <= j < |params.filesystems|
      ensures FilesystemVolumeName(appName, j) + "-claim" in st.state.claims
    {
      StorageClaims(s, e, u, appName, storageDir.value, params.filesystems, 0, j);
    }
  }

  /** Once the file sets' config maps are written, the deployment and the
      service writes leave them as they are, whether those writes pass or
      fail. */
  lemma DeployAndServeKeepsConfigMaps(s: State, e: Env, appName: string, spec: PodSpec, ps: CaasPodSpec,
                                      replicas: int, cfg: AppConfig)
    requires PodFilesStep(s, e, spec, ps.containers, ForApplication(appName)).result.Ok?
    ensures var t := DeployAndServeStep(s, e, appName, spec, ps, replicas, cfg).state;
      var items := FileSetsFrom(0, ps.containers);
      && t.configMaps == s.configMaps + ConfigMapOverlay(items, ForApplication(appName))
      && forall j :: 0 <= j < |items| ==> ForApplication(appName).Name(items[j].1.name) in t.configMaps
  {
    var items := FileSetsFrom(0, ps.containers);
    PodFilesState(s, e, spec, items, ForApplication(appName));
    var f := PodFilesStep(s, e, spec, ps.containers, ForApplication(appName));
    var d := ConfigureDeploymentStep(s, e, appName, spec, ps.containers, replicas);
    assert d.state.configMaps == f.state.configMaps;
    if d.result.Pass? && !ps.omitServiceFrontend {
      var sv := ConfigureServiceStep(d.state, e, appName, ExposedPorts(spec.containers), cfg);
      assert sv.state.configMaps == d.state.configMaps;
    }
  }

  /** Once storage and the file sets' config maps have been written, a later
      failure of `EnsureService` takes none of those config maps back: the
      cluster keeps its config maps with the file sets' written over them. */
  lemma EnsureServiceKeepsConfigMaps(s: State, e: Env, appName: string, params: ServiceParams, numUnits: int,
                                     cfg: AppConfig, storageDir: Result<string>)
    requires numUnits > 0 && params.podSpec.Some? && UnitSpecOf(params.podSpec.value).Ok?
    requires ConfigureStorageStep(s, e, UnitSpecOf(params.podSpec.value).value, appName, params.filesystems,
                                  storageDir).result.Ok?
    requires var st := ConfigureStorageStep(s, e, UnitSpecOf(params.podSpec.value).value, appName,
                                            params.filesystems, storageDir);
      PodFilesStep(st.state, e, st.result.value, params.podSpec.value.containers, ForApplication(appName)).result.Ok?
    ensures var t := EnsureServiceStep(s, e, appName, params, numUnits, cfg, storageDir).state;
      var items := FileSetsFrom(0, params.podSpec.value.containers);
      && t.configMaps == s.configMaps + ConfigMapOverlay(items, ForApplication(appName))
      && forall j :: 0 <= j < |items| ==> ForApplication(appName).Name(items[j].1.name) in t.configMaps
  {
    var ps := params.podSpec.value;
    var u := UnitSpecOf(ps).value;
    var st := StorageFrom(s, e, u, appName, storageDir.value, params.filesystems, 0);
    StorageFrame(s, e, u, appName, storageDir.value, params.filesystems, 0);
    DeployAndServeKeepsConfigMaps(st.state, e, appName, st.result.value, ps, Int32(numUnits), cfg);
  }

  /** `ExposeService` refuses, without touching the cluster, an empty host
      name, a service it cannot read or that is not there, and a service
      without a port. */
  lemma ExposeServiceRejects(s: State, e: Env, appName: string, cfg: AppConfig)
    ensures var x := ExposeServiceStep(s, e, appName, cfg);
      var name := DeploymentName(appName);
      && (cfg.hostname == "" ==> x == Step(Fail(InvalidInput("external hostname required")), s))
      && (cfg.hostname != "" && e.Faulted(Get, ServiceKind) ==> x == Step(Fail(ApiFailure(Get, ServiceKind)), s))
      && (cfg.hostname != "" && !e.Faulted(Get, ServiceKind) && name !in s.services ==>
            x == Step(Fail(NotFound(ServiceKind, name)), s))
      && (cfg.hostname != "" && name in s.services && |s.services[name].ports| == 0 ==> x.result.Fail? && x.state == s)
  {
  }

  /** `DeleteService` stops at the first delete that fails: a failed service
      delete leaves everything, a failed deployment delete leaves the
      service deleted. */
  lemma DeleteServiceStopsAtFirstFailure(s: State, e: Env, appName: string)
    ensures var name := DeploymentName(appName);
      && (e.Faulted(Delete, ServiceKind) ==>
            DeleteServiceStep(s, e, appName) == Step(Fail(ApiFailure(Delete, ServiceKind)), s))
      && (!e.Faulted(Delete, ServiceKind) && e.Faulted(Delete, DeploymentKind) ==>
            DeleteServiceStep(s, e, appName) ==
            Step(Fail(ApiFailure(Delete, DeploymentKind)), s.(services := s.services - {name})))
  {
  }
}
