/** The cluster API as seen by the broker: the kinds of resource, the verbs
    used on them, the errors they answer with, and the generic
    get/update/create/delete verbs over a store of named resources.

    A "fault" is a (verb, kind) pair on which the cluster answers with an
    API error other than not-found; it stands for every transient failure of
    the control plane. */
module K8sApi {

  datatype Kind =
    | NamespaceKind | ConfigMapKind | ClaimKind | VolumeKind | StorageClassKind
    | DeploymentKind | ServiceKind | IngressKind | PodKind

  datatype Verb = Get | List | Create | Update | Delete

  datatype Fault = Fault(verb: Verb, kind: Kind)

  /** What the cluster and the broker answer with.  `NotFound` is the only
      error that callers test for. */
  datatype Error =
    | NotFound(kind: Kind, name: string)
    | AlreadyExists(kind: Kind, name: string)
    | ApiFailure(verb: Verb, kind: Kind)
    | InvalidInput(message: string)
    | NoStorageClass
    | BadQuantity(text: string)
    | VersionMismatch
    | Timeout(podName: string)
    | IndexOutOfRange
    | UnexpectedProviderSpec
  {
    predicate IsNotFound() { NotFound? || NoStorageClass? }
  }

  /** Go's `error` result: `Pass` is nil. */
  datatype Outcome = Pass | Fail(error: Error)

  datatype Result<T> = Ok(value: T) | Err(error: Error)

  /** What one deployment target is: its namespace, the calls on which the
      cluster fails, and how many polls a deleted pod stays visible. */
  datatype Env = Env(namespace: string, faults: set<Fault>, terminationPolls: nat)
  {
    predicate Faulted(v: Verb, k: Kind) { Fault(v, k) in faults }
  }

  /** The answer to a write and the store afterwards. */
  datatype Write<R> = Write(outcome: Outcome, store: map<string, R>)

  function MapGet<R>(e: Env, kind: Kind, m: map<string, R>, name: string): (r: Result<R>)
    ensures r.Ok? <==> !e.Faulted(Get, kind) && name in m
    ensures r.Ok? ==> r.value == m[name]
    ensures r.Err? && !e.Faulted(Get, kind) ==> r.error == NotFound(kind, name)
  {
    if e.Faulted(Get, kind) then Err(ApiFailure(Get, kind))
    else if name in m then Ok(m[name])
    else Err(NotFound(kind, name))
  }

  function MapUpdate<R>(e: Env, kind: Kind, m: map<string, R>, name: string, r: R): (w: Write<R>)
    ensures w.outcome.Pass? <==> !e.Faulted(Update, kind) && name in m
    ensures w.outcome.Pass? ==> w.store == m[name := r]
    ensures w.outcome.Fail? ==> w.store == m
    ensures w.outcome.Fail? && !e.Faulted(Update, kind) ==> w.outcome.error == NotFound(kind, name)
  {
    if e.Faulted(Update, kind) then Write(Fail(ApiFailure(Update, kind)), m)
    else if name !in m then Write(Fail(NotFound(kind, name)), m)
    else Write(Pass, m[name := r])
  }

  function MapCreate<R>(e: Env, kind: Kind, m: map<string, R>, name: string, r: R): (w: Write<R>)
    ensures w.outcome.Pass? <==> !e.Faulted(Create, kind) && name !in m
    ensures w.outcome.Pass? ==> w.store == m[name := r]
    ensures w.outcome.Fail? ==> w.store == m && !w.outcome.error.IsNotFound()
  {
    if e.Faulted(Create, kind) then Write(Fail(ApiFailure(Create, kind)), m)
    else if name in m then Write(Fail(AlreadyExists(kind, name)), m)
    else Write(Pass, m[name := r])
  }

  function MapDelete<R>(e: Env, kind: Kind, m: map<string, R>, name: string): (w: Write<R>)
    ensures w.outcome.Pass? <==> !e.Faulted(Delete, kind) && name in m
    ensures w.outcome.Pass? ==> w.store == m - {name}
    ensures w.outcome.Fail? ==> w.store == m
    ensures w.outcome.Fail? && !e.Faulted(Delete, kind) ==> w.outcome.error == NotFound(kind, name)
  {
    if e.Faulted(Delete, kind) then Write(Fail(ApiFailure(Delete, kind)), m)
    else if name !in m then Write(Fail(NotFound(kind, name)), m)
    else Write(Pass, m - {name})
  }

  /** Update-else-create: an update that fails with not-found is retried as a
      create; any other failure is returned. */
  function EnsureIn<R>(e: Env, kind: Kind, m: map<string, R>, name: string, r: R): (w: Write<R>)
    ensures w.outcome.Pass? <==>
      !e.Faulted(Update, kind) && (name in m || !e.Faulted(Create, kind))
    ensures w.outcome.Pass? ==> w.store == m[name := r]
    ensures w.outcome.Fail? ==> w.store == m && !w.outcome.error.IsNotFound()
  {
    var u := MapUpdate(e, kind, m, name, r);
    if u.outcome.Fail? && u.outcome.error.NotFound? then MapCreate(e, kind, u.store, name, r)
    else u
  }

  /** Delete that treats not-found as success. */
  function DeleteTolerant<R>(e: Env, kind: Kind, m: map<string, R>, name: string): (w: Write<R>)
    ensures w.outcome.Pass? <==> !e.Faulted(Delete, kind)
    ensures w.store == if w.outcome.Pass? then m - {name} else m
    ensures w.outcome.Fail? ==> w.outcome.error == ApiFailure(Delete, kind)
  {
    var d := MapDelete(e, kind, m, name);
    if d.outcome.Fail? && d.outcome.error.NotFound? then Write(Pass, d.store) else d
  }

  /** A second update-else-create of the same resource changes nothing and
      succeeds again. */
  lemma EnsureInIdempotent<R>(e: Env, kind: Kind, m: map<string, R>, name: string, r: R)
    requires EnsureIn(e, kind, m, name, r).outcome.Pass?
    ensures var w := EnsureIn(e, kind, m, name, r);
      EnsureIn(e, kind, w.store, name, r) == w
  {
    var w := EnsureIn(e, kind, m, name, r);
    assert w.store[name := r] == w.store;
  }

  /** Deleting what is not there succeeds and changes nothing, unless the
      cluster fails the delete call itself. */
  lemma DeleteTolerantAbsent<R>(e: Env, kind: Kind, m: map<string, R>, name: string)
    requires name !in m && !e.Faulted(Delete, kind)
    ensures DeleteTolerant(e, kind, m, name) == Write(Pass, m)
  {
    assert m - {name} == m;
  }
}
