/** The naming and label scheme: every resource the broker creates is found
    again by a name or a label derived from the application or unit name. */
module K8sNaming {
  import opened K8sResources

  const LabelOperator := "juju-operator"
  const LabelStorage := "juju-storage"
  const LabelVersion := "juju-version"
  const LabelApplication := "juju-application"
  const LabelUnit := "juju-unit"

  const JujuStorageClassKey := "juju-storage-class"
  const JujuStorageLabelKey := "juju-storage-label"

  const OperatorStorageClassName := "juju-operator-storage"
  const OperatorStorageSize := "10Mi"

  const DefaultClassAnnotation := "storageclass.kubernetes.io/is-default-class"

  /** Go's `strings.Replace(s, "/", "-", -1)`. */
  function SlashToDash(s: string): (r: string)
    ensures |r| == |s|
    ensures forall i :: 0 <= i < |s| ==> r[i] == if s[i] == '/' then '-' else s[i]
  {
    if |s| == 0 then [] else [if s[0] == '/' then '-' else s[0]] + SlashToDash(s[1..])
  }

  /** The string form of the unit's tag, `unit-<app>-<n>` for `<app>/<n>`. */
  function UnitTag(unitName: string): string
  {
    "unit-" + SlashToDash(unitName)
  }

  /** The string form of the application's tag. */
  function ApplicationTag(appName: string): string
  {
    "application-" + appName
  }

  function OperatorPodName(appName: string): string
  {
    "juju-operator-" + appName
  }

  function OperatorConfigMapName(appName: string): string
  {
    OperatorPodName(appName) + "-config"
  }

  function DeploymentName(appName: string): string
  {
    "juju-" + appName
  }

  function ApplicationConfigMapName(appName: string, fileSetName: string): string
  {
    DeploymentName(appName) + "-" + fileSetName + "-config"
  }

  function UnitPodName(unitName: string): string
  {
    "juju-" + UnitTag(unitName)
  }

  function UnitConfigMapName(unitName: string, fileSetName: string): string
  {
    UnitPodName(unitName) + "-" + fileSetName + "-config"
  }

  function ResourceNamePrefix(appName: string): string
  {
    "juju-" + ApplicationTag(appName) + "-"
  }

  function OperatorVolumeClaim(appName: string): string
  {
    appName + "-operator-volume-claim"
  }

  function OperatorSelector(appName: string): Selector
  {
    Equals(LabelOperator, appName)
  }

  function ApplicationSelector(appName: string): Selector
  {
    Equals(LabelApplication, appName)
  }

  /** The selectors are written into list requests as `label==name`. */
  lemma SelectorsRender(appName: string)
    ensures Render(OperatorSelector(appName)) == "juju-operator==" + appName
    ensures Render(ApplicationSelector(appName)) == "juju-application==" + appName
  {
  }

  /** Removes a known prefix: `(p + s)[|p|..] == s`. */
  lemma DropPrefix(p: string, s: string)
    ensures (p + s)[|p|..] == s
  {
  }

  /** Different applications never share a deployment, service or ingress name. */
  lemma {:induction false} DeploymentNameInjective(a: string, b: string)
    requires DeploymentName(a) == DeploymentName(b)
    ensures a == b
  {
    DropPrefix("juju-", a);
    DropPrefix("juju-", b);
  }

  /** Different applications never share an operator pod. */
  lemma {:induction false} OperatorPodNameInjective(a: string, b: string)
    requires OperatorPodName(a) == OperatorPodName(b)
    ensures a == b
  {
    DropPrefix("juju-operator-", a);
    DropPrefix("juju-operator-", b);
  }

  /** Different applications never share an operator volume claim. */
  lemma {:induction false} OperatorVolumeClaimInjective(a: string, b: string)
    requires OperatorVolumeClaim(a) == OperatorVolumeClaim(b)
    ensures a == b
  {
    var suffix := "-operator-volume-claim";
    assert OperatorVolumeClaim(a)[..|OperatorVolumeClaim(a)| - |suffix|] == a;
    assert OperatorVolumeClaim(b)[..|OperatorVolumeClaim(b)| - |suffix|] == b;
  }

  /** An operator pod and a unit pod never share a name: they differ at the
      sixth character. */
  lemma {:induction false} OperatorAndUnitPodsDistinct(appName: string, unitName: string)
    ensures OperatorPodName(appName) != UnitPodName(unitName)
  {
    assert OperatorPodName(appName)[5] == 'o';
    assert UnitPodName(unitName)[5] == 'u';
  }

  /** A unit pod's name is `juju-` followed by the unit's tag, which is how
      the unit is recognised again when its pods are listed. */
  lemma {:induction false} UnitPodNameCarriesTag(unitName: string)
    ensures |UnitPodName(unitName)| >= 5 && UnitPodName(unitName)[..5] == "juju-"
    ensures UnitPodName(unitName)[5..] == UnitTag(unitName)
  {
    DropPrefix("juju-", UnitTag(unitName));
  }

  /** The scheme does not keep config maps of different owners apart: the
      operator config map of application `a` has the same name as the config
      map of file set `a` of an application called `operator`. */
  lemma ConfigMapNamesCanCollide()
    ensures OperatorConfigMapName("a") == ApplicationConfigMapName("operator", "a")
  {
  }
}
