/** What the broker reports back: the units of an application as seen in
    its pods, and the addresses of its service. */
module K8sObserve {
  import opened K8sApi
  import opened K8sResources
  import opened K8sNaming
  import opened K8sCluster
  import opened K8sUnits
  import Ordering

  /** The agent statuses a pod phase is reported as. */
  datatype Status = Terminated | Running | ErrorStatus | Allocating | UnknownStatus

  /** `jujuStatus`: a terminating pod is terminated whatever its phase. */
  function JujuStatus(phase: PodPhase, terminated: bool): (r: Status)
    ensures r == Terminated <==> terminated
    ensures !terminated ==> (r == Running <==> phase == PodRunning)
    ensures !terminated ==> (r == ErrorStatus <==> phase == PodFailed)
    ensures !terminated ==> (r == Allocating <==> phase == PodPending)
    ensures !terminated ==> (r == UnknownStatus <==> phase !in {PodRunning, PodFailed, PodPending})
  {
    if terminated then Terminated
    else match phase
      case PodRunning => Running
      case PodFailed => ErrorStatus
      case PodPending => Allocating
      case _ => UnknownStatus
  }

  /** A unit as reported; `unitTag` is empty for a pod that was not created
      as a unit by the broker. */
  datatype UnitInfo = UnitInfo(
    id: string, address: string, ports: seq<string>, dying: bool,
    status: Status, message: string, unitTag: string)

  function PortString(p: ContainerPort): string
  {
    IntToDecimal(p.containerPort) + "/" + p.protocol
  }

  /** `<port>/<protocol>` for every port of every container, in order. */
  function PortStrings(cs: seq<Container>): seq<string>
  {
    if |cs| == 0 then []
    else
      var last := cs[|cs| - 1].ports;
      PortStrings(cs[..|cs| - 1]) + seq(|last|, i requires 0 <= i < |last| => PortString(last[i]))
  }

  /** The unit tag in a unit label `juju-<tag>`, when `isUnitTag` accepts
      what follows the prefix. */
  function TagOfLabel(value: string, isUnitTag: string -> bool): (r: string)
    ensures r != "" ==> |value| >= 5 && value[..5] == "juju-" && r == value[5..] && isUnitTag(r)
    ensures |value| >= 5 && value[..5] == "juju-" && isUnitTag(value[5..]) ==> r == value[5..]
  {
    if |value| >= 5 && value[..5] == "juju-" && isUnitTag(value[5..]) then value[5..] else ""
  }

  function UnitOf(p: Pod, isUnitTag: string -> bool): UnitInfo
  {
    var terminated := p.deletion.Some?;
    UnitInfo(p.uid, p.status.podIP, PortStrings(p.spec.containers), terminated,
             JujuStatus(p.status.phase, terminated), p.status.message,
             TagOfLabel(Lookup(p.labels, LabelUnit), isUnitTag))
  }

  /** The application's pods, in name order. */
  function AppPodNames(pods: map<string, Pod>, appName: string): (r: seq<string>)
    ensures |r| == |Matching(pods, ApplicationSelector(appName))|
    ensures forall n :: n in r <==> n in pods && Selects(ApplicationSelector(appName), pods[n].labels)
  {
    Ordering.SortedNames(Matching(pods, ApplicationSelector(appName)))
  }

  function UnitsOf(e: Env, pods: map<string, Pod>, appName: string, isUnitTag: string -> bool)
    : Result<seq<UnitInfo>>
  {
    if e.Faulted(List, PodKind) then Err(ApiFailure(List, PodKind))
    else
      var names := AppPodNames(pods, appName);
      Ok(seq(|names|, i requires 0 <= i < |names| =>
        UnitOf(pods[names[i]], isUnitTag)))
  }

  lemma PortStringsSnoc(cs: seq<Container>, i: nat, ps: seq<ContainerPort>, j: nat)
    requires i < |cs| && ps == cs[i].ports && j < |ps|
    ensures PortStrings(cs[..i]) + seq(j + 1, m requires 0 <= m < j + 1 => PortString(ps[m])) ==
      PortStrings(cs[..i]) + seq(j, m requires 0 <= m < j => PortString(ps[m])) + [PortString(ps[j])]
  {
  }

  /** The pod loop of `Units`. */
  method PortsOfPod(cs: seq<Container>) returns (ports: seq<string>)
    ensures ports == PortStrings(cs)
  {
    ports := [];
    for i := 0 to |cs|
      invariant ports == PortStrings(cs[..i])
    {
      assert cs[..i + 1][..i] == cs[..i];
      ghost var done := ports;
      var ps := cs[i].ports;
      for j := 0 to |ps|
        invariant ports == done + seq(j, m requires 0 <= m < j => PortString(ps[m]))
      {
        ports := ports + [IntToDecimal(ps[j].containerPort) + "/" + ps[j].protocol];
        PortStringsSnoc(cs, i, ps, j);
      }
    }
    assert cs[..|cs|] == cs;
  }

  /** The body of the pod loop of `Units`. */
  method UnitOfPod(p: Pod, isUnitTag: string -> bool) returns (u: UnitInfo)
    ensures u == UnitOf(p, isUnitTag)
  {
    var ports := PortsOfPod(p.spec.containers);
    var terminated := p.deletion.Some?;
    var unitLabel := Lookup(p.labels, LabelUnit);
    var tag := "";
    if |unitLabel| >= 5 && unitLabel[..5] == "juju-" {
      if isUnitTag(unitLabel[5..]) {
        tag := unitLabel[5..];
      }
    }
    u := UnitInfo(p.uid, p.status.podIP, ports, terminated,
                  JujuStatus(p.status.phase, terminated), p.status.message, tag);
  }

  /** `Units`: each pod carrying the application label, in name order. */
  method Units(k: Cluster, appName: string, isUnitTag: string -> bool) returns (r: Result<seq<UnitInfo>>)
    ensures r == UnitsOf(k.env, k.pods, appName, isUnitTag)
  {
    if k.env.Faulted(List, PodKind) {
      return Err(ApiFailure(List, PodKind));
    }
    var pods := k.pods;
    var names := AppPodNames(pods, appName);
    ghost var units := seq(|names|, i requires 0 <= i < |names| => UnitOf(pods[names[i]], isUnitTag));
    var result: seq<UnitInfo> := [];
    for i := 0 to |names|
      invariant result == units[..i]
    {
      var u := UnitOfPod(pods[names[i]], isUnitTag);
      result := result + [u];
      assert units[..i + 1] == units[..i] + [units[i]];
    }
    assert units[..|names|] == units;
    return Ok(result);
  }

  /** The units reported are exactly the application's pods, each once. */
  lemma UnitsAreTheApplicationsPods(e: Env, pods: map<string, Pod>, appName: string, isUnitTag: string -> bool)
    requires !e.Faulted(List, PodKind)
    ensures var r := UnitsOf(e, pods, appName, isUnitTag);
      var names := AppPodNames(pods, appName);
      && r.Ok? && |r.value| == |Matching(pods, ApplicationSelector(appName))|
      && (forall n :: n in pods && Selects(ApplicationSelector(appName), pods[n].labels) ==>
            exists i :: 0 <= i < |names| && names[i] == n && r.value[i] == UnitOf(pods[n], isUnitTag))
      && (forall i :: 0 <= i < |r.value| ==>
            names[i] in pods && Selects(ApplicationSelector(appName), pods[names[i]].labels))
  {
    var names := AppPodNames(pods, appName);
    forall n | n in pods && Selects(ApplicationSelector(appName), pods[n].labels)
      ensures exists i :: 0 <= i < |names| && names[i] == n
    {
      assert n in names;
    }
  }

  /** A unit pod written by `EnsureUnit` is reported as that unit, by its
      tag, when the tag parses. */
  lemma EnsuredUnitIsReported(s: State, e: Env, appName: string, unitName: string, spec: K8sPodSpec.CaasPodSpec,
                              isUnitTag: string -> bool)
    requires EnsureUnitStep(s, e, appName, unitName, spec).result.Pass?
    requires isUnitTag(UnitTag(unitName)) && !e.Faulted(List, PodKind)
    ensures var t := EnsureUnitStep(s, e, appName, unitName, spec).state;
      var r := UnitsOf(e, t.pods, appName, isUnitTag);
      r.Ok? && exists i :: 0 <= i < |r.value| && r.value[i].unitTag == UnitTag(unitName)
  {
    var t := EnsureUnitStep(s, e, appName, unitName, spec).state;
    EnsureUnitWrites(s, e, appName, unitName, spec);
    UnitPodNameCarriesTag(unitName);
    var name := UnitPodName(unitName);
    assert Lookup(t.pods[name].labels, LabelUnit) == name;
    UnitsAreTheApplicationsPods(e, t.pods, appName, isUnitTag);
  }

  // ---- Service ---------------------------------------------------------------------

  datatype Scope = CloudLocal | Public

  datatype Address = Address(value: string, scope: Scope)

  datatype ServiceInfo = ServiceInfo(id: string, addresses: seq<Address>)

  function PublicAddresses(ips: seq<string>): (r: seq<Address>)
    ensures |r| == |ips| && forall i :: 0 <= i < |ips| ==> r[i] == Address(ips[i], Public)
  {
    seq(|ips|, i requires 0 <= i < |ips| => Address(ips[i], Public))
  }

  /** The cluster IP is reachable inside the cloud; the load balancer IP and
      the external IPs are public. */
  function ServiceInfoOf(svc: Service): ServiceInfo
  {
    ServiceInfo(svc.uid,
      (if svc.clusterIP != "" then [Address(svc.clusterIP, CloudLocal)] else []) +
      (if svc.loadBalancerIP != "" then [Address(svc.loadBalancerIP, Public)] else []) +
      PublicAddresses(svc.externalIPs))
  }

  function ServiceNames(services: map<string, Service>, appName: string): (r: set<string>)
    ensures forall n :: n in r <==> n in services && Selects(ApplicationSelector(appName), services[n].labels)
  {
    set n | n in services && Selects(ApplicationSelector(appName), services[n].labels)
  }

  function ServiceFor(e: Env, services: map<string, Service>, appName: string): Result<ServiceInfo>
  {
    if e.Faulted(List, ServiceKind) then Err(ApiFailure(List, ServiceKind))
    else
      var names := ServiceNames(services, appName);
      if names == {} then Err(NotFound(ServiceKind, appName))
      else Ok(ServiceInfoOf(services[Ordering.MinName(names)]))
  }

  /** `Service`: the first of the application's services, by name. */
  method ApplicationService(k: Cluster, appName: string) returns (r: Result<ServiceInfo>)
    ensures r == ServiceFor(k.env, k.services, appName)
  {
    if k.env.Faulted(List, ServiceKind) {
      return Err(ApiFailure(List, ServiceKind));
    }
    var names := ServiceNames(k.services, appName);
    if names == {} {
      return Err(NotFound(ServiceKind, appName));
    }
    var svc := k.services[Ordering.MinName(names)];
    var addresses: seq<Address> := [];
    if svc.clusterIP != "" {
      addresses := addresses + [Address(svc.clusterIP, CloudLocal)];
    }
    if svc.loadBalancerIP != "" {
      addresses := addresses + [Address(svc.loadBalancerIP, Public)];
    }
    ghost var fixed := addresses;
    assert ServiceInfoOf(svc).addresses == fixed + PublicAddresses(svc.externalIPs);
    for i := 0 to |svc.externalIPs|
      invariant addresses == fixed + PublicAddresses(svc.externalIPs[..i])
    {
      addresses := addresses + [Address(svc.externalIPs[i], Public)];
      assert PublicAddresses(svc.externalIPs[..i + 1]) == PublicAddresses(svc.externalIPs[..i]) + [Address(svc.externalIPs[i], Public)];
    }
    assert svc.externalIPs[..|svc.externalIPs|] == svc.externalIPs;
    return Ok(ServiceInfo(svc.uid, addresses));
  }

  /** At most one address is cloud-local, the cluster IP; the public ones are
      the load balancer IP, if any, followed by every external IP. */
  lemma ServiceAddresses(svc: Service)
    ensures var a := ServiceInfoOf(svc).addresses;
      var local := if svc.clusterIP != "" then 1 else 0;
      var lb := if svc.loadBalancerIP != "" then 1 else 0;
      && |a| == local + lb + |svc.externalIPs|
      && (forall i :: 0 <= i < |a| ==> (a[i].scope == CloudLocal <==> i < local))
      && (svc.clusterIP != "" ==> a[0] == Address(svc.clusterIP, CloudLocal))
      && (svc.loadBalancerIP != "" ==> a[local] == Address(svc.loadBalancerIP, Public))
      && a[local + lb..] == PublicAddresses(svc.externalIPs)
  {
  }
}
