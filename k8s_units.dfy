/** The operator pod of an application and the pods of its units, which the
    broker manages directly rather than through a deployment controller. */
module K8sUnits {
  import opened K8sApi
  import opened K8sResources
  import opened K8sNaming
  import opened K8sCluster
  import opened K8sStorage
  import opened K8sPodSpec
  import Ordering

  /** What the operator needs: its image, the agent version it runs, and the
      agent configuration it is started with. */
  datatype OperatorConfig = OperatorConfig(operatorImagePath: string, version: string, agentConf: string)

  /** The agents' directory under the data directory `dataDir`. */
  function AgentBaseDir(dataDir: string): string
  {
    dataDir + "/agents"
  }

  /** The directory of the agent with tag `tag`. */
  function AgentDir(dataDir: string, tag: string): string
  {
    AgentBaseDir(dataDir) + "/" + tag
  }

  const AgentConfFile := "agent.conf"
  const OperatorContainerName := "juju-operator"
  const PullIfNotPresent := "IfNotPresent"

  function NoStatus(): PodStatus
  {
    PodStatus(NoPhase, "", "")
  }

  // ---- operatorPod / operatorConfigMap ---------------------------------------------

  function OperatorConfigMap(appName: string, cfg: OperatorConfig): (cm: ConfigMap)
    ensures cm.name == OperatorConfigMapName(appName)
    ensures cm.data.Keys == {AgentConfFile} && cm.data[AgentConfFile] == cfg.agentConf
  {
    ConfigMap(OperatorConfigMapName(appName), map[AgentConfFile := cfg.agentConf])
  }

  /** The operator pod: one container running the operator image with the
      agent configuration mounted, as a single file, from the config map. */
  function OperatorPod(appName: string, dataDir: string, image: string, version: string): Pod
  {
    var configVolName := OperatorConfigMapName(appName) + "-volume";
    Pod(OperatorPodName(appName),
        map[LabelOperator := appName, LabelVersion := version],
        PodSpec(
          [Container(OperatorContainerName, image, [], map["JUJU_APPLICATION" := appName],
                     [VolumeMount(configVolName, AgentDir(dataDir, ApplicationTag(appName)) + "/" + AgentConfFile, AgentConfFile)],
                     PullIfNotPresent, None, None)],
          [Volume(configVolName, ConfigMapSource(OperatorConfigMapName(appName), [KeyToPath(AgentConfFile, AgentConfFile)]))]),
        "", NoStatus(), None)
  }

  /** The operator pod is found again by its operator label, mounts exactly
      the operator config map, and runs the operator image. */
  lemma OperatorPodShape(appName: string, dataDir: string, image: string, version: string)
    ensures var p := OperatorPod(appName, dataDir, image, version);
      && Selects(OperatorSelector(appName), p.labels)
      && Lookup(p.labels, LabelVersion) == version
      && |p.spec.containers| == 1 && p.spec.containers[0].image == image
      && |p.spec.volumes| == 1
      && p.spec.volumes[0].source == ConfigMapSource(OperatorConfigMapName(appName), [KeyToPath(AgentConfFile, AgentConfFile)])
      && p.spec.containers[0].volumeMounts[0].name == p.spec.volumes[0].name
  {
  }

  /** The operator's storage request. */
  function OperatorVolumeParams(e: Env, appName: string): VolumeParams
  {
    VolumeParams([appName + "-operator-storage", e.namespace, "default"], OperatorStorageClassName,
                 OperatorVolumeClaim(appName), appName + "-operator-volume", OperatorStorageSize,
                 map[LabelApplication := appName], None)
  }

  /** The pod with `vol` added and mounted at `mountPath` in its first container. */
  function WithVolume(p: Pod, vol: Volume, mountPath: string): Pod
    requires |p.spec.containers| > 0
  {
    var c := p.spec.containers[0];
    p.(spec := p.spec.(volumes := p.spec.volumes + [vol],
                       containers := p.spec.containers[0 := c.(volumeMounts := c.volumeMounts + [VolumeMount(vol.name, mountPath, "")])]))
  }

  // ---- maybeUpdatePodImage -------------------------------------------------------

  /** The names of the pods a selector picks. */
  function Matching(pods: map<string, Pod>, sel: Selector): (r: set<string>)
    ensures forall n :: n in r <==> n in pods && Selects(sel, pods[n].labels)
  {
    set n | n in pods && Selects(sel, pods[n].labels)
  }

  /** The image update: the first pod the selector picks has its first
      container's image replaced, provided the pod's label named by the
      version string holds that string. */
  function UpdatePodImageStep(s: State, e: Env, sel: Selector, version: string, image: string): Step<Outcome>
  {
    if e.Faulted(List, PodKind) then Step(Fail(ApiFailure(List, PodKind)), s)
    else
      var names := Matching(s.pods, sel);
      if names == {} then Step(Fail(NotFound(PodKind, Render(sel))), s)
      else
        var name := Ordering.MinName(names);
        var pod := s.pods[name];
        if Lookup(pod.labels, version) != version then Step(Fail(VersionMismatch), s)
        else if |pod.spec.containers| == 0 then Step(Fail(IndexOutOfRange), s)
        else
          var c := pod.spec.containers[0];
          var w := MapUpdate(e, PodKind, s.pods, name,
                             pod.(spec := pod.spec.(containers := pod.spec.containers[0 := c.(image := image)])));
          Step(w.outcome, s.(pods := w.store))
  }

  /** `maybeUpdatePodImage` */
  method MaybeUpdatePodImage(k: Cluster, sel: Selector, version: string, image: string) returns (o: Outcome)
    modifies k
    ensures Step(o, k.Snapshot()) == UpdatePodImageStep(old(k.Snapshot()), k.env, sel, version, image)
  {
    if k.env.Faulted(List, PodKind) {
      return Fail(ApiFailure(List, PodKind));
    }
    var names := Matching(k.pods, sel);
    if names == {} {
      return Fail(NotFound(PodKind, Render(sel)));
    }
    var name := Ordering.MinName(names);
    var pod := k.pods[name];
    if Lookup(pod.labels, version) != version {
      return Fail(VersionMismatch);
    }
    if |pod.spec.containers| == 0 {
      return Fail(IndexOutOfRange);
    }
    var c := pod.spec.containers[0];
    var w := MapUpdate(k.env, PodKind, k.pods, name,
                       pod.(spec := pod.spec.(containers := pod.spec.containers[0 := c.(image := image)])));
    if w.outcome.Pass? {
      k.pods := w.store;
    }
    return w.outcome;
  }

  /** The version check reads the pod's label whose key is the version
      string, not the version label: for any version other than the empty
      string and the two label keys the operator pod carries, an operator pod
      is never updated in place, whatever version it runs. */
  lemma VersionCheckReadsWrongLabel(s: State, e: Env, appName: string, dataDir: string, image: string,
                                    image2: string, version: string)
    requires version != "" && version != LabelOperator && version != LabelVersion
    requires !e.Faulted(List, PodKind)
    requires s.pods == map[OperatorPodName(appName) := OperatorPod(appName, dataDir, image, version)]
    ensures UpdatePodImageStep(s, e, OperatorSelector(appName), version, image2) == Step(Fail(VersionMismatch), s)
  {
    var names := Matching(s.pods, OperatorSelector(appName));
    assert OperatorPodName(appName) in names;
    assert names == {OperatorPodName(appName)};
  }

  /** A successful image update touches one pod, the one the selector picks
      first by name, and changes only its first container's image. */
  lemma UpdatePodImageTouchesOnePod(s: State, e: Env, sel: Selector, version: string, image: string)
    requires UpdatePodImageStep(s, e, sel, version, image).result.Pass?
    ensures var t := UpdatePodImageStep(s, e, sel, version, image).state;
      var name := Ordering.MinName(Matching(s.pods, sel));
      && t == s.(pods := t.pods) && t.pods.Keys == s.pods.Keys
      && Ordering.IsLeast(name, Matching(s.pods, sel))
      && Lookup(s.pods[name].labels, version) == version
      && (forall n :: n in s.pods && n != name ==> t.pods[n] == s.pods[n])
      && t.pods[name].labels == s.pods[name].labels
      && t.pods[name].spec.containers[0].image == image
  {
  }

  // ---- EnsureOperator / DeleteOperator ---------------------------------------------

  function EnsureOperatorStep(s: State, e: Env, appName: string, dataDir: string, cfg: OperatorConfig): Step<Outcome>
  {
    var n := EnsureNamespaceStep(s, e);
    if n.result.Fail? then n
    else
      var c := EnsureConfigMapStep(n.state, e, OperatorConfigMap(appName, cfg));
      if c.result.Fail? then c
      else
        var v := MaybeGetVolumeStep(c.state, e, OperatorVolumeParams(e, appName));
        if v.result.Err? && !v.result.error.IsNotFound() then Step(Fail(v.result.error), v.state)
        else
          var pod0 := OperatorPod(appName, dataDir, cfg.operatorImagePath, cfg.version);
          var pod := if v.result.Ok? then WithVolume(pod0, v.result.value, AgentBaseDir(dataDir)) else pod0;
          UpdateOrReplacePodStep(v.state, e, OperatorSelector(appName), cfg.version, pod)
  }

  /** Update the image of the pod the selector picks, else replace it by `pod`.
      A pod without containers panics in the update, so nothing replaces it. */
  function UpdateOrReplacePodStep(s: State, e: Env, sel: Selector, version: string, pod: Pod): Step<Outcome>
    requires |pod.spec.containers| > 0
  {
    var u := UpdatePodImageStep(s, e, sel, version, pod.spec.containers[0].image);
    if u.result.Fail? && !u.result.error.IndexOutOfRange? then EnsurePodStep(u.state, e, pod) else u
  }

  /** Some pod the selector picks runs `image` in its first container. */
  predicate RunsImage(pods: map<string, Pod>, sel: Selector, image: string)
  {
    exists n :: (n in pods && Selects(sel, pods[n].labels) && |pods[n].spec.containers| > 0
                 && pods[n].spec.containers[0].image == image)
  }

  /** A passing image update leaves the picked pod running `image`. */
  lemma UpdatedPodRunsImage(s: State, e: Env, sel: Selector, version: string, image: string)
    requires UpdatePodImageStep(s, e, sel, version, image).result.Pass?
    ensures var t := UpdatePodImageStep(s, e, sel, version, image).state;
      t == s.(pods := t.pods) && RunsImage(t.pods, sel, image)
  {
    UpdatePodImageTouchesOnePod(s, e, sel, version, image);
    var name := Ordering.MinName(Matching(s.pods, sel));
    var t := UpdatePodImageStep(s, e, sel, version, image).state;
    assert name in t.pods && Selects(sel, t.pods[name].labels) && |t.pods[name].spec.containers| > 0
           && t.pods[name].spec.containers[0].image == image;
  }

  /** A passing replacement leaves `pod` itself, which the selector picks. */
  lemma ReplacedPodRunsImage(s: State, e: Env, sel: Selector, pod: Pod)
    requires |pod.spec.containers| > 0 && Selects(sel, pod.labels)
    requires EnsurePodStep(s, e, pod).result.Pass?
    ensures var t := EnsurePodStep(s, e, pod).state;
      t == s.(pods := t.pods) && RunsImage(t.pods, sel, pod.spec.containers[0].image)
  {
    EnsurePodReplaces(s, e, pod);
    DeletePodKeepsOthers(s, e, pod.name);
    var t := EnsurePodStep(s, e, pod).state;
    assert pod.name in t.pods && t.pods[pod.name] == pod;
  }

  /** Either way some pod the selector picks is left running the image of
      `pod`'s first container, when the selector picks `pod`. */
  lemma UpdateOrReplaceLeavesPod(s: State, e: Env, sel: Selector, version: string, pod: Pod)
    requires |pod.spec.containers| > 0 && Selects(sel, pod.labels)
    requires UpdateOrReplacePodStep(s, e, sel, version, pod).result.Pass?
    ensures var t := UpdateOrReplacePodStep(s, e, sel, version, pod).state;
      && t == s.(pods := t.pods)
      && RunsImage(t.pods, sel, pod.spec.containers[0].image)
  {
    var image := pod.spec.containers[0].image;
    var u := UpdatePodImageStep(s, e, sel, version, image);
    if u.result.Pass? {
      UpdatedPodRunsImage(s, e, sel, version, image);
    } else {
      UpdateFailureReplacesPod(s, e, sel, version, pod);
      ReplacedPodRunsImage(s, e, sel, pod);
    }
  }

  /** Every returned error of the image update, not only a version mismatch,
      falls back to replacing the pod on the cluster as it was: a failed list,
      no pod the selector picks, a version mismatch and a failed update alike.
      A picked pod without containers is the panic, which ends the operation
      with the cluster unchanged. */
  lemma UpdateFailureReplacesPod(s: State, e: Env, sel: Selector, version: string, pod: Pod)
    requires |pod.spec.containers| > 0
    ensures var u := UpdatePodImageStep(s, e, sel, version, pod.spec.containers[0].image);
      var r := UpdateOrReplacePodStep(s, e, sel, version, pod);
      && (u.result.Fail? && u.result != Fail(IndexOutOfRange) ==> r == EnsurePodStep(s, e, pod))
      && (u.result == Fail(IndexOutOfRange) ==> r == Step(Fail(IndexOutOfRange), s))
      && (u.result.Pass? ==> r == u)
      && (e.Faulted(List, PodKind) ==> u.result == Fail(ApiFailure(List, PodKind)))
      && (!e.Faulted(List, PodKind) && Matching(s.pods, sel) == {} ==> u.result == Fail(NotFound(PodKind, Render(sel))))
  {
  }

  /** The operator pod already running at the requested version is replaced
      all the same, since the version check reads the wrong label. */
  lemma OperatorPodReplaced(s: State, e: Env, appName: string, dataDir: string, image: string, version: string, pod: Pod)
    requires version != "" && version != LabelOperator && version != LabelVersion
    requires !e.Faulted(List, PodKind)
    requires s.pods == map[OperatorPodName(appName) := OperatorPod(appName, dataDir, image, version)]
    requires |pod.spec.containers| > 0
    ensures UpdateOrReplacePodStep(s, e, OperatorSelector(appName), version, pod) == EnsurePodStep(s, e, pod)
  {
    VersionCheckReadsWrongLabel(s, e, appName, dataDir, image, pod.spec.containers[0].image, version);
  }

  /** `EnsureOperator`: any error the in-place image update returns, not
      only a version mismatch, falls back to replacing the pod; the panic on
      a pod without containers does not. */
  method EnsureOperator(k: Cluster, appName: string, dataDir: string, cfg: OperatorConfig) returns (o: Outcome)
    modifies k
    ensures Step(o, k.Snapshot()) == EnsureOperatorStep(old(k.Snapshot()), k.env, appName, dataDir, cfg)
  {
    o := k.EnsureNamespace();
    if o.Fail? {
      return;
    }
    o := k.EnsureConfigMap(OperatorConfigMap(appName, cfg));
    if o.Fail? {
      return;
    }
    var vol := MaybeGetVolume(k, OperatorVolumeParams(k.env, appName));
    if vol.Err? && !vol.error.IsNotFound() {
      return Fail(vol.error);
    }
    var pod := OperatorPod(appName, dataDir, cfg.operatorImagePath, cfg.version);
    if vol.Ok? {
      pod := WithVolume(pod, vol.value, AgentBaseDir(dataDir));
    }
    o := MaybeUpdatePodImage(k, OperatorSelector(appName), cfg.version, pod.spec.containers[0].image);
    if o.Fail? && !o.error.IndexOutOfRange? {
      o := k.EnsurePod(pod);
    }
  }

  function DeleteOperatorStep(s: State, e: Env, appName: string): Step<Outcome>
  {
    var d := MapDelete(e, ClaimKind, s.claims, OperatorVolumeClaim(appName));
    if d.outcome.Fail? && !d.outcome.error.NotFound? then Step(Pass, s)
    else
      var s1 := s.(claims := d.store);
      var c := MapDelete(e, ConfigMapKind, s1.configMaps, OperatorConfigMapName(appName));
      if c.outcome.Fail? && !c.outcome.error.NotFound? then Step(Pass, s1)
      else DeletePodStep(s1.(configMaps := c.store), e, OperatorPodName(appName))
  }

  /** `DeleteOperator`: the claim, the config map, then the pod.  A failed
      delete of the claim or the config map ends the operation with success. */
  method DeleteOperator(k: Cluster, appName: string) returns (o: Outcome)
    modifies k
    ensures Step(o, k.Snapshot()) == DeleteOperatorStep(old(k.Snapshot()), k.env, appName)
  {
    var d := MapDelete(k.env, ClaimKind, k.claims, OperatorVolumeClaim(appName));
    if d.outcome.Fail? && !d.outcome.error.NotFound? {
      return Pass;
    }
    k.claims := d.store;
    var c := MapDelete(k.env, ConfigMapKind, k.configMaps, OperatorConfigMapName(appName));
    if c.outcome.Fail? && !c.outcome.error.NotFound? {
      return Pass;
    }
    k.configMaps := c.store;
    o := k.DeletePod(OperatorPodName(appName));
  }

  /** A successful `EnsureOperator` leaves the namespace, the operator's
      config map holding the agent configuration, and a pod carrying the
      application's operator label whose first container runs the
      configured operator image. */
  lemma EnsureOperatorWrites(s: State, e: Env, appName: string, dataDir: string, cfg: OperatorConfig)
    requires EnsureOperatorStep(s, e, appName, dataDir, cfg).result.Pass?
    ensures var t := EnsureOperatorStep(s, e, appName, dataDir, cfg).state;
      && e.namespace in t.namespaces
      && OperatorConfigMapName(appName) in t.configMaps
      && t.configMaps[OperatorConfigMapName(appName)] == OperatorConfigMap(appName, cfg)
      && RunsImage(t.pods, OperatorSelector(appName), cfg.operatorImagePath)
  {
    OperatorPodShape(appName, dataDir, cfg.operatorImagePath, cfg.version);
    var n := EnsureNamespaceStep(s, e);
    var c := EnsureConfigMapStep(n.state, e, OperatorConfigMap(appName, cfg));
    var v := MaybeGetVolumeStep(c.state, e, OperatorVolumeParams(e, appName));
    MaybeGetVolumeFrame(c.state, e, OperatorVolumeParams(e, appName));
    var pod0 := OperatorPod(appName, dataDir, cfg.operatorImagePath, cfg.version);
    var pod := if v.result.Ok? then WithVolume(pod0, v.result.value, AgentBaseDir(dataDir)) else pod0;
    UpdateOrReplaceLeavesPod(v.state, e, OperatorSelector(appName), cfg.version, pod);
  }

  /** A delete of the claim or the config map that the cluster refuses is
      reported as success, with nothing deleted after it. */
  lemma DeleteOperatorSwallowsErrors(s: State, e: Env, appName: string)
    ensures e.Faulted(Delete, ClaimKind) ==> DeleteOperatorStep(s, e, appName) == Step(Pass, s)
    ensures !e.Faulted(Delete, ClaimKind) && e.Faulted(Delete, ConfigMapKind) ==>
      DeleteOperatorStep(s, e, appName) == Step(Pass, s.(claims := s.claims - {OperatorVolumeClaim(appName)}))
  {
    if !e.Faulted(Delete, ClaimKind) && OperatorVolumeClaim(appName) !in s.claims {
      assert s.claims - {OperatorVolumeClaim(appName)} == s.claims;
    }
  }

  /** With working deletes and polls, and an operator pod that terminates
      within the wait, `DeleteOperator` removes the claim, the config map and
      the pod. */
  lemma DeleteOperatorRemoves(s: State, e: Env, appName: string)
    requires !e.Faulted(Delete, ClaimKind) && !e.Faulted(Delete, ConfigMapKind)
    requires !e.Faulted(Delete, PodKind) && !e.Faulted(Get, PodKind)
    requires OperatorPodName(appName) in s.pods ==> Lingering(e, s.pods[OperatorPodName(appName)]) < PollAttempts
    ensures var r := DeleteOperatorStep(s, e, appName);
      && r.result.Pass?
      && OperatorVolumeClaim(appName) !in r.state.claims
      && OperatorConfigMapName(appName) !in r.state.configMaps
      && OperatorPodName(appName) !in r.state.pods
  {
    var d := MapDelete(e, ClaimKind, s.claims, OperatorVolumeClaim(appName));
    var s1 := s.(claims := d.store);
    var c := MapDelete(e, ConfigMapKind, s1.configMaps, OperatorConfigMapName(appName));
    var s2 := s1.(configMaps := c.store);
    assert OperatorVolumeClaim(appName) !in s2.claims;
    assert OperatorConfigMapName(appName) !in s2.configMaps;
    assert s2.pods == s.pods;
    assert DeleteOperatorStep(s, e, appName) == DeletePodStep(s2, e, OperatorPodName(appName));
    DeletePodBounded(s2, e, OperatorPodName(appName));
    DeletePodKeepsOthers(s2, e, OperatorPodName(appName));
  }

  /** Deleting a pod changes nothing but the pods. */
  lemma DeletePodKeepsOthers(s: State, e: Env, name: string)
    ensures var t := DeletePodStep(s, e, name).state; t == s.(pods := t.pods)
  {
    DeletePodBounded(s, e, name);
    if !e.Faulted(Delete, PodKind) && name in s.pods {
      var d := RequestPodDelete(e, s.pods, name);
      PollKeepsOthers(s.(pods := d.store), e, name, PollAttempts);
    }
  }

  lemma {:induction false} PollKeepsOthers(s: State, e: Env, name: string, attempts: nat)
    requires attempts >= 1
    ensures var t := PollStep(s, e, name, attempts).state; t == s.(pods := t.pods)
    decreases attempts
  {
    if attempts > 1 && !e.Faulted(Get, PodKind) && name in s.pods {
      PollKeepsOthers(s.(pods := TickPods(s.pods)), e, name, attempts - 1);
    }
  }

  // ---- EnsureUnit / DeleteUnit --------------------------------------------------

  function UnitLabels(appName: string, unitName: string): Labels
  {
    map[LabelApplication := appName, LabelUnit := UnitPodName(unitName)]
  }

  function EnsureUnitStep(s: State, e: Env, appName: string, unitName: string, spec: CaasPodSpec): Step<Outcome>
  {
    var u := UnitSpecOf(spec);
    if u.Err? then Step(Fail(u.error), s)
    else
      var f := PodFilesStep(s, e, u.value, spec.containers, ForUnit(unitName));
      if f.result.Err? then Step(Fail(f.result.error), f.state)
      else EnsurePodStep(f.state, e, Pod(UnitPodName(unitName), UnitLabels(appName, unitName), f.result.value,
                                         "", NoStatus(), None))
  }

  /** `EnsureUnit` */
  method EnsureUnit(k: Cluster, appName: string, unitName: string, spec: CaasPodSpec) returns (o: Outcome)
    modifies k
    ensures Step(o, k.Snapshot()) == EnsureUnitStep(old(k.Snapshot()), k.env, appName, unitName, spec)
  {
    var unitSpec := MakeUnitSpec(spec);
    if unitSpec.Err? {
      return Fail(unitSpec.error);
    }
    var podName := UnitPodName(unitName);
    var pod := Pod(podName, map[LabelApplication := appName, LabelUnit := podName], unitSpec.value, "", NoStatus(), None);
    var podSpec := ConfigurePodFiles(k, pod.spec, spec.containers, ForUnit(unitName));
    if podSpec.Err? {
      return Fail(podSpec.error);
    }
    o := k.EnsurePod(pod.(spec := podSpec.value));
  }

  function DeleteUnitStep(s: State, e: Env, unitName: string): Step<Outcome>
  {
    DeletePodStep(s, e, UnitPodName(unitName))
  }

  /** `DeleteUnit` */
  method DeleteUnit(k: Cluster, unitName: string) returns (o: Outcome)
    modifies k
    ensures Step(o, k.Snapshot()) == DeleteUnitStep(old(k.Snapshot()), k.env, unitName)
  {
    o := k.DeletePod(UnitPodName(unitName));
  }

  /** A successful `EnsureUnit` leaves the unit's pod, labelled with the
      application and with its own pod name, running the unit spec's
      containers with the unit's file sets mounted. */
  lemma EnsureUnitWrites(s: State, e: Env, appName: string, unitName: string, spec: CaasPodSpec)
    requires EnsureUnitStep(s, e, appName, unitName, spec).result.Pass?
    ensures var t := EnsureUnitStep(s, e, appName, unitName, spec).state;
      var name := UnitPodName(unitName);
      && UnitSpecOf(spec).Ok?
      && name in t.pods
      && t.pods[name].labels == UnitLabels(appName, unitName)
      && Selects(ApplicationSelector(appName), t.pods[name].labels)
      && |t.pods[name].spec.containers| == |spec.containers|
      && SameContainersButMounts(UnitSpecOf(spec).value.containers, t.pods[name].spec.containers)
      && t.pods[name].spec.volumes == ConfigMapVolumes(FileSetsFrom(0, spec.containers), ForUnit(unitName))
  {
    var u := UnitSpecOf(spec).value;
    var f := PodFilesStep(s, e, u, spec.containers, ForUnit(unitName));
    PodFilesAddsVolumes(s, e, u, FileSetsFrom(0, spec.containers), ForUnit(unitName));
    PodFilesKeepsContainers(s, e, u, FileSetsFrom(0, spec.containers), ForUnit(unitName));
    EnsurePodReplaces(f.state, e, Pod(UnitPodName(unitName), UnitLabels(appName, unitName), f.result.value,
                                      "", NoStatus(), None));
  }

  /** With working deletes and polls, and a unit pod that terminates within
      the wait, `DeleteUnit` removes the pod and nothing else. */
  lemma DeleteUnitRemoves(s: State, e: Env, unitName: string)
    requires !e.Faulted(Delete, PodKind) && !e.Faulted(Get, PodKind)
    requires UnitPodName(unitName) in s.pods ==> Lingering(e, s.pods[UnitPodName(unitName)]) < PollAttempts
    ensures var r := DeleteUnitStep(s, e, unitName);
      r.result.Pass? && UnitPodName(unitName) !in r.state.pods && r.state == s.(pods := r.state.pods)
  {
    DeletePodBounded(s, e, UnitPodName(unitName));
    DeletePodKeepsOthers(s, e, UnitPodName(unitName));
  }
}
