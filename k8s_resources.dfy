/** The cluster resources the broker reads and writes, reduced to the fields
    the broker sets or inspects, plus label selectors, decimal rendering of
    integers and the storage-size quantities claims request. */
module K8sResources {
  import opened K8sApi
  import opened Text

  type Labels = map<string, string>

  /** Go's `m[k]` on a map of strings: the empty string when `k` is absent. */
  function Lookup(m: map<string, string>, k: string): string
  {
    if k in m then m[k] else ""
  }

  // ---- label selectors ----------------------------------------------------

  /** `key==value` and `key in (v1, v2, ...)`; `Everything` is an empty selector. */
  datatype Selector = Equals(key: string, value: string) | In(key: string, values: seq<string>) | Everything

  predicate Selects(sel: Selector, labels: Labels)
  {
    match sel
    case Equals(k, v) => k in labels && labels[k] == v
    case In(k, vs) => k in labels && labels[k] in vs
    case Everything => true
  }

  /** The selector as a string, as the broker writes it into a list request. */
  function Render(sel: Selector): string
  {
    match sel
    case Equals(k, v) => k + "==" + v
    case In(k, vs) => k + " in (" + JoinWith(", ", vs) + ")"
    case Everything => ""
  }

  // ---- decimal rendering and quantities -------------------------------------

  predicate IsDigit(c: char) { '0' <= c <= '9' }

  function DigitChar(d: nat): char
    requires d < 10
  {
    "0123456789"[d]
  }

  /** `fmt.Sprintf("%d", n)` for a natural number. */
  function NatToDecimal(n: nat): (s: string)
    ensures |s| > 0 && forall i :: 0 <= i < |s| ==> IsDigit(s[i])
    decreases n
  {
    if n < 10 then [DigitChar(n)] else NatToDecimal(n / 10) + [DigitChar(n % 10)]
  }

  /** `fmt.Sprintf("%d", i)` for any integer. */
  function IntToDecimal(i: int): string
  {
    if i < 0 then "-" + NatToDecimal(-i) else NatToDecimal(i)
  }

  /** The value of a string of decimal digits. */
  function DecimalValue(s: string): nat
    requires forall i :: 0 <= i < |s| ==> IsDigit(s[i])
  {
    if |s| == 0 then 0 else assert IsDigit(s[|s| - 1]); 10 * DecimalValue(s[..|s| - 1]) + (s[|s| - 1] as int - '0' as int) as nat
  }

  lemma {:induction false} DecimalRoundTrip(n: nat)
    ensures DecimalValue(NatToDecimal(n)) == n
    decreases n
  {
    var s := NatToDecimal(n);
    if n >= 10 {
      DecimalRoundTrip(n / 10);
      assert s[..|s| - 1] == NatToDecimal(n / 10);
    }
  }

  /** The number of leading digits of `s`. */
  function DigitPrefix(s: string): (k: nat)
    ensures k <= |s| && forall i :: 0 <= i < k ==> IsDigit(s[i])
    ensures k < |s| ==> !IsDigit(s[k])
  {
    if |s| == 0 || !IsDigit(s[0]) then 0 else 1 + DigitPrefix(s[1..])
  }

  lemma {:induction false} DigitPrefixOfDigits(d: string, rest: string)
    requires forall i :: 0 <= i < |d| ==> IsDigit(d[i])
    requires |rest| > 0 && !IsDigit(rest[0])
    ensures DigitPrefix(d + rest) == |d|
  {
    if |d| > 0 {
      assert (d + rest)[1..] == d[1..] + rest;
      DigitPrefixOfDigits(d[1..], rest);
    }
  }

  /** A storage size: an amount and a unit suffix. */
  datatype Quantity = Quantity(amount: nat, suffix: string)

  const QuantitySuffixes: set<string> :=
    {"", "Ki", "Mi", "Gi", "Ti", "Pi", "Ei", "k", "M", "G", "T", "P", "E"}

  /** The integer forms of `resource.ParseQuantity`: digits followed by a
      known suffix. */
  function ParseQuantity(s: string): (r: Result<Quantity>)
    ensures r.Ok? ==> r.value.suffix in QuantitySuffixes && |s| > 0 && IsDigit(s[0])
    ensures r.Err? ==> r.error == BadQuantity(s)
  {
    var k := DigitPrefix(s);
    if k == 0 || s[k..] !in QuantitySuffixes then Err(BadQuantity(s))
    else Ok(Quantity(DecimalValue(s[..k]), s[k..]))
  }

  /** Every size the broker writes, `<n>Mi`, parses back to `n` mebibytes. */
  lemma MebibytesParse(n: nat)
    ensures ParseQuantity(NatToDecimal(n) + "Mi") == Ok(Quantity(n, "Mi"))
  {
    var d := NatToDecimal(n);
    var s := d + "Mi";
    DigitPrefixOfDigits(d, "Mi");
    assert s[..|d|] == d && s[|d|..] == "Mi";
    DecimalRoundTrip(n);
  }

  // ---- resources ------------------------------------------------------------

  datatype Namespace = Namespace(name: string)

  datatype ConfigMap = ConfigMap(name: string, data: map<string, string>)

  datatype AccessMode = ReadWriteOnce | ReadOnlyMany | ReadWriteMany

  /** A persistent volume claim. */
  datatype Claim = Claim(
    name: string, labels: Labels, volumeName: string, storageClassName: string,
    request: Quantity, accessModes: seq<AccessMode>)

  datatype VolumePhase = VolumePending | VolumeAvailable | VolumeBound | VolumeReleased | VolumeFailed

  datatype PersistentVolume = PersistentVolume(
    name: string, labels: Labels, phase: VolumePhase, storageClassName: string)

  datatype StorageClass = StorageClass(name: string, labels: Labels, annotations: map<string, string>)

  datatype KeyToPath = KeyToPath(key: string, path: string)

  datatype VolumeSource =
    | ClaimSource(claimName: string)
    | ConfigMapSource(configMapName: string, items: seq<KeyToPath>)

  /** A volume of a pod spec. */
  datatype Volume = Volume(name: string, source: VolumeSource)

  datatype VolumeMount = VolumeMount(name: string, mountPath: string, subPath: string)

  datatype ContainerPort = ContainerPort(name: string, containerPort: int, protocol: string)

  datatype Probe = Probe(handler: string, initialDelaySeconds: int, periodSeconds: int)

  datatype Container = Container(
    name: string, image: string, ports: seq<ContainerPort>, env: map<string, string>,
    volumeMounts: seq<VolumeMount>, imagePullPolicy: string,
    livenessProbe: Option<Probe>, readinessProbe: Option<Probe>)

  datatype Option<T> = None | Some(value: T)
  {
    function GetOr(default: T): T { if Some? then value else default }
  }

  datatype PodSpec = PodSpec(containers: seq<Container>, volumes: seq<Volume>)

  datatype Deployment = Deployment(
    name: string, labels: Labels, replicas: int, selector: Labels,
    templateGenerateName: string, templateLabels: Labels, podSpec: PodSpec)

  /** A service port; a `targetPort` of 0 is Go's zero value, "not set". */
  datatype ServicePort = ServicePort(protocol: string, port: int, targetPort: int)

  datatype Service = Service(
    name: string, labels: Labels, uid: string, resourceVersion: string,
    selector: Labels, serviceType: string, ports: seq<ServicePort>,
    externalIPs: seq<string>, loadBalancerIP: string,
    loadBalancerSourceRanges: seq<string>, externalName: string, clusterIP: string)

  datatype Ingress = Ingress(
    name: string, labels: Labels, annotations: map<string, string>,
    host: string, path: string, backendService: string, backendPort: int)

  datatype PodPhase = PodPending | PodRunning | PodSucceeded | PodFailed | PodUnknown | NoPhase

  datatype PodStatus = PodStatus(phase: PodPhase, message: string, podIP: string)

  /** A pod.  `deletion` is `None` until a delete is requested; then it is
      the number of further polls for which the pod is still visible. */
  datatype Pod = Pod(
    name: string, labels: Labels, spec: PodSpec, uid: string,
    status: PodStatus, deletion: Option<nat>)
}
