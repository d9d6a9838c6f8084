/** The cluster as an in-memory store, and the broker's reconciler
    primitives over it: update-else-create for namespaces, config maps,
    deployments, services and ingresses; delete that tolerates not-found; and
    pod deletion with its bounded wait for the pod to disappear.

    Each primitive is a method of `Cluster` proved against a pure function
    `...Step` of the store's contents, and the properties of the primitive
    are lemmas about that function. */
module K8sCluster {
  import opened K8sApi
  import opened K8sResources

  /** The contents of the broker's namespace, plus the cluster-wide
      persistent volumes and storage classes, in list order. */
  datatype State = State(
    namespaces: map<string, Namespace>,
    configMaps: map<string, ConfigMap>,
    claims: map<string, Claim>,
    volumes: seq<PersistentVolume>,
    storageClasses: seq<StorageClass>,
    deployments: map<string, Deployment>,
    services: map<string, Service>,
    ingresses: map<string, Ingress>,
    pods: map<string, Pod>)

  /** The result of an operation and the store afterwards. */
  datatype Step<T> = Step(result: T, state: State)

  /** The wait for a deleted pod: a 5 second delay and a 2 minute maximum.
      `retry.Call` gives up once the elapsed time plus one more delay would
      exceed the maximum; with instantaneous polls that allows 25 polls. */
  const PollDelaySeconds := 5
  const PollMaxSeconds := 120
  const PollAttempts: nat := PollMaxSeconds / PollDelaySeconds + 1

  // ---- pods: deletion in progress and the passing of time ------------------

  /** How many polls a pod stays visible once a delete has been requested. */
  function Lingering(e: Env, p: Pod): nat
  {
    match p.deletion
    case Some(n) => if n == 0 then 1 else n
    case None => e.terminationPolls
  }

  /** A pod delete request: the pod is marked as terminating (or removed at
      once when the cluster needs no time to stop it). */
  function RequestPodDelete(e: Env, pods: map<string, Pod>, name: string): (w: Write<Pod>)
    ensures w.outcome.Pass? <==> !e.Faulted(Delete, PodKind) && name in pods
    ensures w.outcome.Fail? ==> w.store == pods
    ensures w.outcome.Fail? && !e.Faulted(Delete, PodKind) ==> w.outcome.error == NotFound(PodKind, name)
    ensures w.outcome.Pass? ==> w.store.Keys <= pods.Keys
    ensures w.outcome.Pass? ==>
      (name in w.store <==> Lingering(e, pods[name]) > 0) &&
      (name in w.store ==> w.store[name].deletion == Some(Lingering(e, pods[name])))
  {
    if e.Faulted(Delete, PodKind) then Write(Fail(ApiFailure(Delete, PodKind)), pods)
    else if name !in pods then Write(Fail(NotFound(PodKind, name)), pods)
    else
      var p := pods[name];
      var n := Lingering(e, p);
      if n == 0 then Write(Pass, pods - {name})
      else Write(Pass, pods[name := p.(deletion := Some(n))])
  }

  /** One poll delay passes: terminating pods come one poll closer to being
      gone; those on their last poll disappear. */
  function TickPods(pods: map<string, Pod>): (r: map<string, Pod>)
    ensures forall n :: n in r <==> n in pods && (pods[n].deletion.None? || pods[n].deletion.value > 1)
    ensures forall n :: n in r ==>
      r[n] == if pods[n].deletion.None? then pods[n] else pods[n].(deletion := Some(pods[n].deletion.value - 1))
  {
    map n | n in pods && (pods[n].deletion.None? || pods[n].deletion.value > 1) ::
      if pods[n].deletion.None? then pods[n] else pods[n].(deletion := Some(pods[n].deletion.value - 1))
  }

  /** The polls of `deletePod`'s wait, `attempts` of them at most: a poll that
      finds the pod gone ends the wait with success, a poll that fails ends it
      with that failure, and a pod still there at the last poll is a timeout. */
  function PollStep(s: State, e: Env, name: string, attempts: nat): Step<Outcome>
    requires attempts >= 1
    decreases attempts
  {
    var g := MapGet(e, PodKind, s.pods, name);
    if g.Err? && g.error.NotFound? then Step(Pass, s)
    else if g.Err? then Step(Fail(g.error), s)
    else if attempts == 1 then Step(Fail(Timeout(name)), s)
    else PollStep(s.(pods := TickPods(s.pods)), e, name, attempts - 1)
  }

  function DeletePodStep(s: State, e: Env, name: string): Step<Outcome>
  {
    var d := RequestPodDelete(e, s.pods, name);
    if d.outcome.Fail? && d.outcome.error.NotFound? then Step(Pass, s)
    else if d.outcome.Fail? then Step(d.outcome, s)
    else PollStep(s.(pods := d.store), e, name, PollAttempts)
  }

  /** A pod that is visible for `c` more polls ends the wait successfully
      exactly when `c` is below the number of polls left. */
  lemma {:induction false} PollOutcome(s: State, e: Env, name: string, attempts: nat, c: nat)
    requires attempts >= 1 && !e.Faulted(Get, PodKind)
    requires name in s.pods && s.pods[name].deletion == Some(c) && c >= 1
    ensures var r := PollStep(s, e, name, attempts);
      (r.result.Pass? <==> c < attempts) &&
      (r.result.Fail? ==> r.result.error == Timeout(name)) &&
      (r.result.Pass? ==> name !in r.state.pods)
    decreases attempts
  {
    if attempts > 1 {
      var t := s.(pods := TickPods(s.pods));
      if c == 1 {
        assert name !in t.pods;
        assert PollStep(t, e, name, attempts - 1).result == Pass;
      } else {
        PollOutcome(t, e, name, attempts - 1, c - 1);
      }
    }
  }

  /** The bounded wait of `deletePod`: deleting an absent pod succeeds at once;
      deleting a present pod succeeds, with the pod gone, exactly when it
      lingers for fewer polls than the budget allows, and is otherwise a
      timeout; a failing delete or poll is returned as it is. */
  lemma DeletePodBounded(s: State, e: Env, name: string)
    ensures var r := DeletePodStep(s, e, name);
      && (e.Faulted(Delete, PodKind) ==> r == Step(Fail(ApiFailure(Delete, PodKind)), s))
      && (!e.Faulted(Delete, PodKind) && name !in s.pods ==> r == Step(Pass, s))
      && (!e.Faulted(Delete, PodKind) && !e.Faulted(Get, PodKind) && name in s.pods ==>
            (r.result.Pass? <==> Lingering(e, s.pods[name]) < PollAttempts) &&
            (r.result.Pass? ==> name !in r.state.pods) &&
            (r.result.Fail? ==> r.result.error == Timeout(name)))
  {
    if !e.Faulted(Delete, PodKind) && !e.Faulted(Get, PodKind) && name in s.pods {
      var d := RequestPodDelete(e, s.pods, name);
      var n := Lingering(e, s.pods[name]);
      var t := s.(pods := d.store);
      if n == 0 {
        assert PollStep(t, e, name, PollAttempts).result == Pass;
      } else {
        PollOutcome(t, e, name, PollAttempts, n);
      }
    }
  }

  // ---- the other primitives, as functions of the store ----------------------

  function EnsureNamespaceStep(s: State, e: Env): Step<Outcome>
  {
    var w := EnsureIn(e, NamespaceKind, s.namespaces, e.namespace, Namespace(e.namespace));
    Step(w.outcome, s.(namespaces := w.store))
  }

  /** Deleting the namespace removes everything inside it; the cluster-wide
      volumes and storage classes stay. */
  function DeleteNamespaceStep(s: State, e: Env): Step<Outcome>
  {
    var d := MapDelete(e, NamespaceKind, s.namespaces, e.namespace);
    if d.outcome.Pass? then
      Step(Pass, s.(namespaces := d.store, configMaps := map[], claims := map[],
                    deployments := map[], services := map[], ingresses := map[], pods := map[]))
    else if d.outcome.error.NotFound? then Step(Pass, s)
    else Step(d.outcome, s)
  }

  function EnsureConfigMapStep(s: State, e: Env, cm: ConfigMap): Step<Outcome>
  {
    var w := EnsureIn(e, ConfigMapKind, s.configMaps, cm.name, cm);
    Step(w.outcome, s.(configMaps := w.store))
  }

  function EnsureDeploymentStep(s: State, e: Env, d: Deployment): Step<Outcome>
  {
    var w := EnsureIn(e, DeploymentKind, s.deployments, d.name, d);
    Step(w.outcome, s.(deployments := w.store))
  }

  function DeleteDeploymentStep(s: State, e: Env, name: string): Step<Outcome>
  {
    var w := DeleteTolerant(e, DeploymentKind, s.deployments, name);
    Step(w.outcome, s.(deployments := w.store))
  }

  /** The service as it is written: an existing service's cluster IP and
      resource version are carried over when it can be read. */
  function ServiceToWrite(s: State, e: Env, svc: Service): Service
  {
    var existing := MapGet(e, ServiceKind, s.services, svc.name);
    if existing.Ok? then
      svc.(clusterIP := existing.value.clusterIP, resourceVersion := existing.value.resourceVersion)
    else svc
  }

  function EnsureServiceResourceStep(s: State, e: Env, svc: Service): Step<Outcome>
  {
    var spec := ServiceToWrite(s, e, svc);
    var w := EnsureIn(e, ServiceKind, s.services, spec.name, spec);
    Step(w.outcome, s.(services := w.store))
  }

  function DeleteServiceResourceStep(s: State, e: Env, name: string): Step<Outcome>
  {
    var w := DeleteTolerant(e, ServiceKind, s.services, name);
    Step(w.outcome, s.(services := w.store))
  }

  function EnsureIngressStep(s: State, e: Env, ing: Ingress): Step<Outcome>
  {
    var w := EnsureIn(e, IngressKind, s.ingresses, ing.name, ing);
    Step(w.outcome, s.(ingresses := w.store))
  }

  function DeleteIngressStep(s: State, e: Env, name: string): Step<Outcome>
  {
    var w := DeleteTolerant(e, IngressKind, s.ingresses, name);
    Step(w.outcome, s.(ingresses := w.store))
  }

  /** Pods cannot be updated in place: delete (and wait), then create. */
  function EnsurePodStep(s: State, e: Env, pod: Pod): Step<Outcome>
  {
    var d := DeletePodStep(s, e, pod.name);
    if d.result.Fail? then d
    else
      var c := MapCreate(e, PodKind, d.state.pods, pod.name, pod);
      Step(c.outcome, d.state.(pods := c.store))
  }

  // ---- properties of the primitives -----------------------------------------

  /** Writing an existing service keeps the cluster IP and resource version the
      cluster gave it, and takes everything else from the new spec. */
  lemma EnsureServiceKeepsServerFields(s: State, e: Env, svc: Service)
    requires svc.name in s.services && !e.Faulted(Get, ServiceKind)
    requires EnsureServiceResourceStep(s, e, svc).result.Pass?
    ensures var after := EnsureServiceResourceStep(s, e, svc).state.services[svc.name];
      && after.clusterIP == s.services[svc.name].clusterIP
      && after.resourceVersion == s.services[svc.name].resourceVersion
      && after == svc.(clusterIP := after.clusterIP, resourceVersion := after.resourceVersion)
  {
  }

  /** A deployment written successfully can be written again, in any state
      whose deployments are those the first write left: the write succeeds
      and changes nothing. */
  lemma EnsureDeploymentRerun(s: State, t: State, e: Env, d: Deployment)
    requires EnsureDeploymentStep(s, e, d).result.Pass?
    requires t.deployments == EnsureDeploymentStep(s, e, d).state.deployments
    ensures EnsureDeploymentStep(t, e, d) == Step(Pass, t)
  {
    assert t.deployments[d.name := d] == t.deployments;
  }

  /** The same for a service: the second write carries over the cluster IP
      and resource version the first one wrote, so it writes the very same
      service again. */
  lemma EnsureServiceResourceRerun(s: State, t: State, e: Env, svc: Service)
    requires EnsureServiceResourceStep(s, e, svc).result.Pass?
    requires t.services == EnsureServiceResourceStep(s, e, svc).state.services
    ensures EnsureServiceResourceStep(t, e, svc) == Step(Pass, t)
  {
    var first := ServiceToWrite(s, e, svc);
    assert t.services[svc.name] == first;
    assert ServiceToWrite(t, e, svc) == first;
    assert t.services[svc.name := first] == t.services;
  }

  /** Every delete primitive treats a missing resource as success and then
      changes nothing. */
  lemma DeletesTolerateNotFound(s: State, e: Env, name: string)
    requires !e.Faulted(Delete, DeploymentKind) && !e.Faulted(Delete, ServiceKind)
    requires !e.Faulted(Delete, IngressKind) && !e.Faulted(Delete, PodKind)
    requires !e.Faulted(Delete, NamespaceKind) && e.namespace !in s.namespaces
    requires name !in s.deployments && name !in s.services && name !in s.ingresses && name !in s.pods
    ensures DeleteDeploymentStep(s, e, name) == Step(Pass, s)
    ensures DeleteServiceResourceStep(s, e, name) == Step(Pass, s)
    ensures DeleteIngressStep(s, e, name) == Step(Pass, s)
    ensures DeletePodStep(s, e, name) == Step(Pass, s)
    ensures DeleteNamespaceStep(s, e) == Step(Pass, s)
  {
    DeleteTolerantAbsent(e, DeploymentKind, s.deployments, name);
    DeleteTolerantAbsent(e, ServiceKind, s.services, name);
    DeleteTolerantAbsent(e, IngressKind, s.ingresses, name);
  }

  /** A pod write replaces the pod: on success the new pod is stored under its
      name, whatever pod was there before. */
  lemma EnsurePodReplaces(s: State, e: Env, pod: Pod)
    requires EnsurePodStep(s, e, pod).result.Pass?
    ensures var r := EnsurePodStep(s, e, pod).state;
      pod.name in r.pods && r.pods[pod.name] == pod
  {
  }

  // ---- the store --------------------------------------------------------------

  class Cluster {
    const env: Env
    var namespaces: map<string, Namespace>
    var configMaps: map<string, ConfigMap>
    var claims: map<string, Claim>
    var volumes: seq<PersistentVolume>
    var storageClasses: seq<StorageClass>
    var deployments: map<string, Deployment>
    var services: map<string, Service>
    var ingresses: map<string, Ingress>
    var pods: map<string, Pod>

    function Snapshot(): State
      reads this
    {
      State(namespaces, configMaps, claims, volumes, storageClasses,
            deployments, services, ingresses, pods)
    }

    constructor (env: Env, initial: State)
      ensures this.env == env && Snapshot() == initial
    {
      this.env := env;
      namespaces, configMaps, claims := initial.namespaces, initial.configMaps, initial.claims;
      volumes, storageClasses := initial.volumes, initial.storageClasses;
      deployments, services := initial.deployments, initial.services;
      ingresses, pods := initial.ingresses, initial.pods;
    }

    /** One poll delay passes. */
    method Tick()
      modifies this
      ensures Snapshot() == old(Snapshot()).(pods := TickPods(old(pods)))
    {
      pods := TickPods(pods);
    }

    method EnsureNamespace() returns (o: Outcome)
      modifies this
      ensures Step(o, Snapshot()) == EnsureNamespaceStep(old(Snapshot()), env)
    {
      var ns := Namespace(env.namespace);
      var w := MapUpdate(env, NamespaceKind, namespaces, ns.name, ns);
      if w.outcome.Fail? && w.outcome.error.NotFound? {
        w := MapCreate(env, NamespaceKind, namespaces, ns.name, ns);
      }
      namespaces := w.store;
      o := w.outcome;
    }

    /** `Destroy`: delete the namespace, tolerating not-found. */
    method DeleteNamespace() returns (o: Outcome)
      modifies this
      ensures Step(o, Snapshot()) == DeleteNamespaceStep(old(Snapshot()), env)
    {
      var d := MapDelete(env, NamespaceKind, namespaces, env.namespace);
      if d.outcome.Fail? {
        return if d.outcome.error.NotFound? then Pass else d.outcome;
      }
      namespaces := d.store;
      configMaps, claims, deployments, services, ingresses, pods := map[], map[], map[], map[], map[], map[];
      o := Pass;
    }

    method EnsureConfigMap(cm: ConfigMap) returns (o: Outcome)
      modifies this
      ensures Step(o, Snapshot()) == EnsureConfigMapStep(old(Snapshot()), env, cm)
    {
      var w := MapUpdate(env, ConfigMapKind, configMaps, cm.name, cm);
      if w.outcome.Fail? && w.outcome.error.NotFound? {
        w := MapCreate(env, ConfigMapKind, configMaps, cm.name, cm);
      }
      configMaps := w.store;
      o := w.outcome;
    }

    method EnsureDeployment(d: Deployment) returns (o: Outcome)
      modifies this
      ensures Step(o, Snapshot()) == EnsureDeploymentStep(old(Snapshot()), env, d)
    {
      var w := MapUpdate(env, DeploymentKind, deployments, d.name, d);
      if w.outcome.Fail? && w.outcome.error.NotFound? {
        w := MapCreate(env, DeploymentKind, deployments, d.name, d);
      }
      deployments := w.store;
      o := w.outcome;
    }

    method DeleteDeployment(name: string) returns (o: Outcome)
      modifies this
      ensures Step(o, Snapshot()) == DeleteDeploymentStep(old(Snapshot()), env, name)
    {
      var w := MapDelete(env, DeploymentKind, deployments, name);
      deployments := w.store;
      o := if w.outcome.Fail? && w.outcome.error.NotFound? then Pass else w.outcome;
    }

    /** `ensureService`: read the existing service to carry over its
        immutable fields, then update-else-create. */
    method EnsureServiceResource(svc: Service) returns (o: Outcome)
      modifies this
      ensures Step(o, Snapshot()) == EnsureServiceResourceStep(old(Snapshot()), env, svc)
    {
      var spec := svc;
      var existing := MapGet(env, ServiceKind, services, svc.name);
      if existing.Ok? {
        spec := spec.(clusterIP := existing.value.clusterIP, resourceVersion := existing.value.resourceVersion);
      }
      var w := MapUpdate(env, ServiceKind, services, spec.name, spec);
      if w.outcome.Fail? && w.outcome.error.NotFound? {
        w := MapCreate(env, ServiceKind, services, spec.name, spec);
      }
      services := w.store;
      o := w.outcome;
    }

    /** `deleteService`: delete the service resource, tolerating not-found. */
    method DeleteServiceResource(name: string) returns (o: Outcome)
      modifies this
      ensures Step(o, Snapshot()) == DeleteServiceResourceStep(old(Snapshot()), env, name)
    {
      var w := MapDelete(env, ServiceKind, services, name);
      services := w.store;
      o := if w.outcome.Fail? && w.outcome.error.NotFound? then Pass else w.outcome;
    }

    method EnsureIngress(ing: Ingress) returns (o: Outcome)
      modifies this
      ensures Step(o, Snapshot()) == EnsureIngressStep(old(Snapshot()), env, ing)
    {
      var w := MapUpdate(env, IngressKind, ingresses, ing.name, ing);
      if w.outcome.Fail? && w.outcome.error.NotFound? {
        w := MapCreate(env, IngressKind, ingresses, ing.name, ing);
      }
      ingresses := w.store;
      o := w.outcome;
    }

    method DeleteIngress(name: string) returns (o: Outcome)
      modifies this
      ensures Step(o, Snapshot()) == DeleteIngressStep(old(Snapshot()), env, name)
    {
      var w := MapDelete(env, IngressKind, ingresses, name);
      ingresses := w.store;
      o := if w.outcome.Fail? && w.outcome.error.NotFound? then Pass else w.outcome;
    }

    /** `deletePod`: request the delete, then poll until the pod is gone,
        a poll fails, or the poll budget is spent. */
    method DeletePod(name: string) returns (o: Outcome)
      modifies this
      ensures Step(o, Snapshot()) == DeletePodStep(old(Snapshot()), env, name)
    {
      var d := RequestPodDelete(env, pods, name);
      if d.outcome.Fail? {
        return if d.outcome.error.NotFound? then Pass else d.outcome;
      }
      pods := d.store;
      var attempts := PollAttempts;
      while true
        invariant 1 <= attempts <= PollAttempts
        invariant PollStep(Snapshot(), env, name, attempts) == DeletePodStep(old(Snapshot()), env, name)
        decreases attempts
      {
        var g := MapGet(env, PodKind, pods, name);
        if g.Err? {
          return if g.error.NotFound? then Pass else Fail(g.error);
        }
        if attempts == 1 {
          return Fail(Timeout(name));
        }
        Tick();
        attempts := attempts - 1;
      }
    }

    /** `ensurePod`: delete any pod of that name, then create the new one. */
    method EnsurePod(pod: Pod) returns (o: Outcome)
      modifies this
      ensures Step(o, Snapshot()) == EnsurePodStep(old(Snapshot()), env, pod)
    {
      o := DeletePod(pod.name);
      if o.Fail? {
        return;
      }
      var c := MapCreate(env, PodKind, pods, pod.name, pod);
      pods := c.store;
      o := c.outcome;
    }
  }
}
