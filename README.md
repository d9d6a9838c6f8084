# Juju's Kubernetes broker, cloud API params and status helpers in Dafny

This project models three parts of Juju, the application orchestrator:

- **The Kubernetes broker** (`caas/kubernetes/provider/k8s.go`). It deploys charmed applications into one namespace of a cluster. Its operations:
  - create and delete the namespace;
  - run an application's *operator* pod, with its config map and its storage claim;
  - run an application as a deployment with a service, plus an ingress when it is exposed;
  - create individual unit pods;
  - report units and service addresses.
- **The cloud converters** (`apiserver/params/cloud.go`). They turn the controller's cloud record into the params record sent over the API, and back.
- **The status helpers of the functional-test library** (`jujupy.py`). They list agents, group them by agent state, print a one-line summary, and decide after each poll of `juju status` whether waiting is over.

### The cluster

The cluster is the class `K8sCluster.Cluster`. It has one field per kind of resource the broker touches:
- maps for namespaces, config maps, claims, deployments, services, ingresses and pods;
- sequences, in list order, for persistent volumes and storage classes.

The constant `env` says two things about the target:
- which API calls fail (a set of verb/kind faults);
- for how many polls a deleted pod stays visible.

Each broker operation is a method that updates the cluster. Its `ensures` ties the new state and the result to a pure step function on a snapshot of the cluster (`Step(r, k.Snapshot()) == XStep(old(k.Snapshot()), k.env, ...)`). The properties the broker promises are lemmas about those step functions:
- what each operation writes;
- what it leaves alone;
- idempotence;
- rollback;
- the order in which a storage class is chosen.

Errors are values. Go's `error` is `Outcome` (`Pass` or `Fail(error)`) or `Result<T>`. A not-found error is any error for which `IsNotFound()` holds.

When Go's list call returns several items and the broker takes "the first", the model takes the item with the least name. The cluster returns items in name order. Persistent volumes and storage classes keep the order of their sequence.

### The status helpers

The jujupy helpers are functions on a status document. Python's dictionaries are modelled as follows:
- the agent-state dictionary is an association list in first-insertion order;
- the services are a sequence in the order Python's `sorted` gives them;
- the units of a service are a sequence in the dictionary's iteration order.

`wait_for_started` is a loop over the status documents it would read before its timeout.

### Quirks modelled as written

Several behaviours look unintended but are modelled as the code has them, each stated as a lemma:
- The operator's version check reads the pod label whose *key* is the version string (`K8sUnits.VersionCheckReadsWrongLabel`).
- `EnsureOperator` falls back to replacing the pod after any error the image update returns, so an operator pod already at the requested version is replaced all the same (`K8sUnits.UpdateFailureReplacesPod`, `K8sUnits.OperatorPodReplaced`). A picked pod without containers makes the update panic instead, and nothing replaces it.
- `DeleteOperator` returns success when deleting the claim or the config map fails (`K8sUnits.DeleteOperatorSwallowsErrors`).
- A volume provisioned through a storage class is returned with an empty name (`K8sStorage.ProvisionedVolumeUnnamed`).
- The operator config map name can collide with an application config map name (`K8sNaming.ConfigMapNamesCanCollide`).
- The replica count wraps at 32 bits (`K8sApplication.Int32Wraps`).
- The service rollback deletes the application's deployment even if it was there before `EnsureService` started (`K8sApplication.EnsureServiceFailureDeployments`).
- A failed `EnsureService` rolls back only the deployment: the claims made for its filesystems and the config maps of its file sets stay behind (`K8sApplication.EnsureServiceKeepsClaims`, `K8sApplication.EnsureServiceKeepsConfigMaps`).

## Model

| member | source | states |
|---|---|---|
| K8sApi.EnsureIn | caas/kubernetes/provider/k8s.go:898-905 | update, else create on not-found: succeeds iff update works and (the object exists or create works); on success the store maps the name to the new object; on failure nothing changes and the error is not a not-found |
| K8sApi.DeleteTolerant | caas/kubernetes/provider/k8s.go:611-620 | a delete that treats not-found as success: fails only on an API fault, with that fault; removes the name on success |
| K8sApi.EnsureInIdempotent | caas/kubernetes/provider/k8s.go:898-905 | repeating a successful ensure gives the same outcome and store |
| K8sCluster.Cluster.EnsureNamespace | caas/kubernetes/provider/k8s.go:126-134 | new state and outcome are those of the namespace ensure step |
| K8sCluster.Cluster.DeleteNamespace | caas/kubernetes/provider/k8s.go:136-151 | new state and outcome are those of the namespace delete, not-found being success |
| K8sCluster.Cluster.EnsureConfigMap | caas/kubernetes/provider/k8s.go:898-905 | update-or-create of a config map |
| K8sCluster.Cluster.EnsureDeployment | caas/kubernetes/provider/k8s.go:602-609 | update-or-create of a deployment |
| K8sCluster.Cluster.DeleteDeployment | caas/kubernetes/provider/k8s.go:611-620 | delete of a deployment, not-found being success |
| K8sCluster.Cluster.EnsureServiceResource | caas/kubernetes/provider/k8s.go:660-673 | update-or-create of a service, keeping an existing service's cluster IP and resource version |
| K8sCluster.Cluster.DeleteServiceResource | caas/kubernetes/provider/k8s.go:675-685 | delete of a service, not-found being success |
| K8sCluster.Cluster.EnsureIngress | caas/kubernetes/provider/k8s.go:747-754 | update-or-create of an ingress |
| K8sCluster.Cluster.DeleteIngress | caas/kubernetes/provider/k8s.go:756-765 | delete of an ingress, not-found being success |
| K8sCluster.Cluster.DeletePod | caas/kubernetes/provider/k8s.go:944-980 | delete, then poll until the pod is gone, within the retry budget |
| K8sCluster.Cluster.EnsurePod | caas/kubernetes/provider/k8s.go:933-942 | delete the pod (waiting for it to go), then create it |
| K8sCluster.RequestPodDelete | caas/kubernetes/provider/k8s.go:944-954 | the delete call: fails iff faulted or the pod is missing (then not-found); on success the pod is gone or marked terminating for its lingering polls |
| K8sCluster.TickPods | caas/kubernetes/provider/k8s.go:976-979 | one retry delay: terminating pods count down and vanish at the end; other pods are unchanged |
| K8sCluster.PollOutcome | caas/kubernetes/provider/k8s.go:960-979 | the poll loop succeeds iff the pod's lingering count is below the attempts left, and then the pod is gone; otherwise it times out |
| K8sCluster.DeletePodBounded | caas/kubernetes/provider/k8s.go:944-980 | deletePod: API fault gives that error without change; a missing pod is success; otherwise success iff the pod vanishes within the retry budget, else a timeout |
| K8sCluster.EnsurePodReplaces | caas/kubernetes/provider/k8s.go:933-942 | after a successful ensurePod the store holds exactly the given pod under its name |
| K8sCluster.EnsureServiceKeepsServerFields | caas/kubernetes/provider/k8s.go:660-673 | updating an existing service keeps its cluster IP and resource version and writes every other field from the new spec |
| K8sCluster.EnsureDeploymentRerun | caas/kubernetes/provider/k8s.go:602-609 | writing a deployment again over the result of a successful write passes and changes nothing |
| K8sCluster.EnsureServiceResourceRerun | caas/kubernetes/provider/k8s.go:660-673 | writing a service again over the result of a successful write passes and changes nothing, the carried-over cluster IP and resource version included |
| K8sCluster.DeletesTolerateNotFound | caas/kubernetes/provider/k8s.go:136-151 | deleting an absent namespace, deployment, service, ingress or pod succeeds without change |
| K8sNaming.SelectorsRender | caas/kubernetes/provider/k8s.go:767-773 | the operator and application selectors render as `juju-operator==<app>` and `juju-application==<app>` |
| K8sNaming.DeploymentNameInjective | caas/kubernetes/provider/k8s.go:1124-1126 | different applications get different deployment names |
| K8sNaming.OperatorPodNameInjective | caas/kubernetes/provider/k8s.go:1104-1106 | different applications get different operator pod names |
| K8sNaming.OperatorVolumeClaimInjective | caas/kubernetes/provider/k8s.go:248-250 | different applications get different operator claims |
| K8sNaming.OperatorAndUnitPodsDistinct | caas/kubernetes/provider/k8s.go:1104-1122 | an operator pod name is never a unit pod name |
| K8sNaming.UnitPodNameCarriesTag | caas/kubernetes/provider/k8s.go:1120-1122 | a unit pod name is `juju-` followed by the unit tag |
| K8sNaming.ConfigMapNamesCanCollide | caas/kubernetes/provider/k8s.go:1108-1114 | the operator config map of `a` has the same name as application `operator`'s config map for file set `a` |
| K8sNaming.SlashToDash | caas/kubernetes/provider/k8s.go:1120-1122 | same length, each `/` replaced by `-`, every other character kept |
| K8sResources.DecimalRoundTrip | caas/kubernetes/provider/k8s.go:519 | the decimal rendering of a size parses back to the same number |
| K8sResources.MebibytesParse | caas/kubernetes/provider/k8s.go:519 | every size `<n>Mi` the broker writes parses as n mebibytes |
| K8sResources.ParseQuantity | caas/kubernetes/provider/k8s.go:337-340 | a parsed quantity has a known suffix and starts with a digit; failure is a bad-quantity error for that input |
| K8sStorage.ListVolumes | caas/kubernetes/provider/k8s.go:255-262 | the listed volumes are exactly those matched by the storage label selector |
| K8sStorage.ListClasses | caas/kubernetes/provider/k8s.go:220-227 | the listed classes are exactly those matched by the storage label selector |
| K8sStorage.FirstAvailable | caas/kubernetes/provider/k8s.go:263-275 | finds a volume iff some volume is available with the class; the one found is the first such; otherwise not-found |
| K8sStorage.GetAvailableVolume | caas/kubernetes/provider/k8s.go:255-277 | a list fault gives its error; otherwise the first available matching volume, with its class |
| K8sStorage.FirstTakeable | caas/kubernetes/provider/k8s.go:263-273 | the index of the earliest volume of the cluster's list that the selector picks and that is available with the class, or the list's length; no earlier volume is takeable |
| K8sStorage.FirstListedAvailable | caas/kubernetes/provider/k8s.go:255-275 | listing by label and taking the first available volume gives the volume at the index of the earliest takeable volume of the cluster's own list, and not-found when there is none |
| K8sStorage.AvailableVolumeInListOrder | caas/kubernetes/provider/k8s.go:255-277 | over the cluster's volumes: a list fault gives its error; otherwise a volume is found iff some labelled volume is available with the class, it is the earliest such in list order with its class, and none is not-found |
| K8sStorage.FirstDefault | caas/kubernetes/provider/k8s.go:234-244 | finds a class iff some class has the default annotation; the one found is the first such |
| K8sStorage.Named | caas/kubernetes/provider/k8s.go:210-218 | finds a class iff one has that name |
| K8sStorage.MaybeGetStorageClass | caas/kubernetes/provider/k8s.go:208-245 | the method returns the class the resolution order picks |
| K8sStorage.StorageClassResolutionOrder | caas/kubernetes/provider/k8s.go:208-245 | a named class that exists wins; else the first labelled class; else the first default class; else no-storage-class |
| K8sStorage.LabelledClassIsFirst | caas/kubernetes/provider/k8s.go:220-232 | the labelled class chosen is the first class whose storage label is one of the labels |
| K8sStorage.MaybeGetVolume | caas/kubernetes/provider/k8s.go:289-362 | new claims and result are those of the volume step |
| K8sStorage.ClaimReuse | caas/kubernetes/provider/k8s.go:300-308 | an existing claim is reused without change and its volume returned |
| K8sStorage.MaybeGetVolumeFrame | caas/kubernetes/provider/k8s.go:289-362 | only the claims change, only the requested claim can be added, existing claims are kept |
| K8sStorage.CreateClaimFrame | caas/kubernetes/provider/k8s.go:333-361 | creating a claim changes only the claims, adds at most that claim, keeps the others |
| K8sStorage.NewClaimShape | caas/kubernetes/provider/k8s.go:333-361 | a new claim has the requested access mode (single writer by default), the parsed size and the labels; it is bound to the available volume and its class, or to no volume and the resolved class |
| K8sStorage.ProvisionedVolumeUnnamed | caas/kubernetes/provider/k8s.go:319-361 | a claim provisioned through a class yields a volume with an empty name |
| K8sStorage.MaybeGetVolumeIdempotent | caas/kubernetes/provider/k8s.go:289-362 | after success, asking again returns the same volume and changes nothing |
| K8sStorage.MaybeGetVolumeClaimPresent | caas/kubernetes/provider/k8s.go:289-362 | after success the claim is in the store |
| K8sStorage.MaybeGetVolumeMountsClaim | caas/kubernetes/provider/k8s.go:289-362 | the volume returned mounts the requested claim |
| K8sPodSpec.UnitSpecOf | caas/kubernetes/provider/k8s.go:1084-1101 | fails iff some container has a non-Kubernetes provider spec; otherwise one container per spec with its name, image, ports and config, no mounts or volumes, and pull policy and probes from a Kubernetes provider spec |
| K8sPodSpec.MakeUnitSpec | caas/kubernetes/provider/k8s.go:1069-1102 | the merge loop computes exactly the unit spec function |
| K8sPodSpec.FilesetConfigMap | caas/kubernetes/provider/k8s.go:878-890 | the config map has the given name and the file set's files as data |
| K8sPodSpec.ConfigurePodFiles | caas/kubernetes/provider/k8s.go:545-566 | new state and result are those of the pod-files step |
| K8sPodSpec.ConfigMapVolumes | caas/kubernetes/provider/k8s.go:546-563 | one config-map volume per file set, named after its config map |
| K8sPodSpec.PodFilesAddsVolumes | caas/kubernetes/provider/k8s.go:545-566 | on success the containers are kept, one config-map volume per file set is appended in order, and every file set's container index is in range |
| K8sPodSpec.PodFilesWritesConfigMaps | caas/kubernetes/provider/k8s.go:545-566 | on success every file set's config map exists |
| K8sPodSpec.PodFilesKeepsConfigMaps | caas/kubernetes/provider/k8s.go:545-566 | no config map is removed |
| K8sPodSpec.PodFilesFrame | caas/kubernetes/provider/k8s.go:545-566 | only config maps change |
| K8sPodSpec.PodFilesKeepsContainers | caas/kubernetes/provider/k8s.go:545-566 | on success every container is kept, changed only in its mounts |
| K8sPodSpec.ConfigMapOverlay | caas/kubernetes/provider/k8s.go:545-566 | the config maps the file sets write, one per file set name, the last write of a shared name winning |
| K8sPodSpec.PodFilesState | caas/kubernetes/provider/k8s.go:545-566 | on success the new state is the old one with the file sets' config maps written over the store, and nothing else |
| K8sPodSpec.PodFilesRerun | caas/kubernetes/provider/k8s.go:545-566 | in a store holding all the file sets' config maps, writing them again gives the same pod spec and writes the same config maps |
| K8sApplication.Int32 | caas/kubernetes/provider/k8s.go:477 | the 32-bit conversion lies in the int32 range and agrees with its input modulo 2^32 |
| K8sApplication.Int32Small | caas/kubernetes/provider/k8s.go:477 | counts in range are kept |
| K8sApplication.Int32Wraps | caas/kubernetes/provider/k8s.go:477 | 2^31 units become -2^31 replicas |
| K8sApplication.ConfigureStorage | caas/kubernetes/provider/k8s.go:500-543 | new state and result are those of the storage step |
| K8sApplication.StorageFrame | caas/kubernetes/provider/k8s.go:500-543 | only claims change and existing claims are kept |
| K8sApplication.StorageAttaches | caas/kubernetes/provider/k8s.go:500-541 | on success the existing volumes are kept and one volume per filesystem is appended, in order, each on that filesystem's claim `<app>-fsvolume-<i>-claim` |
| K8sApplication.StorageKeepsContainers | caas/kubernetes/provider/k8s.go:530-538 | on success the containers change only in what they mount, so they keep their ports |
| K8sApplication.StorageClaims | caas/kubernetes/provider/k8s.go:505-528 | on success each filesystem's claim `<app>-fsvolume-<i>-claim` exists |
| K8sApplication.StorageKeepsClaim | caas/kubernetes/provider/k8s.go:500-543 | no claim is removed |
| K8sApplication.StorageRerun | caas/kubernetes/provider/k8s.go:500-541 | run again where every claim of the first run is present, storage reuses those claims, gives the same pod spec and writes nothing |
| K8sApplication.ConfigureDeployment | caas/kubernetes/provider/k8s.go:568-600 | new state and outcome are those of the deployment step |
| K8sApplication.NonzeroPortsMembers | caas/kubernetes/provider/k8s.go:482-490 | a container's exposed ports are exactly its nonzero ports |
| K8sApplication.ExposedPortsMembers | caas/kubernetes/provider/k8s.go:482-490 | the exposed ports are exactly the nonzero ports of some container |
| K8sApplication.ExposedPortMember | caas/kubernetes/provider/k8s.go:482-490 | the same, for one port |
| K8sApplication.CollectPorts | caas/kubernetes/provider/k8s.go:482-490 | the loop collects the nonzero ports of all containers, in order |
| K8sApplication.ServicePortsShape | caas/kubernetes/provider/k8s.go:626-640 | one service port per container port with its port and protocol; only the first gets a target port, the configured one if set, else its container port |
| K8sApplication.ConfigureService | caas/kubernetes/provider/k8s.go:622-658 | new state and outcome are those of the service step |
| K8sApplication.EnsureService | caas/kubernetes/provider/k8s.go:444-498 | new state and outcome are those of the ensure-service step |
| K8sApplication.EnsureServiceRejects | caas/kubernetes/provider/k8s.go:449-454 | a unit count not above zero or a missing pod spec fails without touching the cluster |
| K8sApplication.EnsureServiceRollsBack | caas/kubernetes/provider/k8s.go:456-497 | if it fails, a deployment that did not exist before is not left behind |
| K8sApplication.DeployAndServeRollsBack | caas/kubernetes/provider/k8s.go:477-497 | the same for the deployment-and-service half |
| K8sApplication.EnsureServiceFailureDeployments | caas/kubernetes/provider/k8s.go:456-497 | with working deletes a failure leaves the deployments as they were, or as they were less the application's own, whether or not that one existed before |
| K8sApplication.DeployAndServeFailureDeployments | caas/kubernetes/provider/k8s.go:477-497 | a failure at the deployment write changes no deployment; a failure at the service write removes the application's deployment, even one that existed before |
| K8sApplication.ConfigureDeploymentDeployments | caas/kubernetes/provider/k8s.go:568-609 | the deployment write changes no deployment when it fails and only the application's own when it passes |
| K8sApplication.EnsureServiceKeepsClaims | caas/kubernetes/provider/k8s.go:456-481 | once storage has succeeded every filesystem's claim stays whatever follows, failure included, and no earlier claim changes |
| K8sApplication.EnsureServiceKeepsConfigMaps | caas/kubernetes/provider/k8s.go:470-495 | once storage and the file sets' config maps have been written, the cluster ends with its earlier config maps overlaid by the file sets' and each file set's config map present, failure of the deployment or service write included |
| K8sApplication.DeployAndServeKeepsConfigMaps | caas/kubernetes/provider/k8s.go:474-495 | once the file sets' config maps are written, the deployment and service writes and the rollback leave the config maps as the file sets wrote them, whatever their outcome |
| K8sApplication.EnsureServiceWrites | caas/kubernetes/provider/k8s.go:444-498 | on success a deployment with the int32 unit count and the application's labels exists and, unless omitted, a service selecting the application on the exposed ports |
| K8sApplication.DeployAndServeWrites | caas/kubernetes/provider/k8s.go:477-497 | the same for the deployment-and-service half |
| K8sApplication.DeployAndServePodSpec | caas/kubernetes/provider/k8s.go:477-480 | the deployment's pod spec is the storage's pod spec with the file sets' config map volumes appended in order and the containers changed only in their mounts |
| K8sApplication.EnsureServicePodSpec | caas/kubernetes/provider/k8s.go:444-480 | after success the deployment's pods have the unit spec's containers, changed only in their mounts, one volume per filesystem on its claim in order, then one config map volume per file set |
| K8sApplication.DeployAndServeFrame | caas/kubernetes/provider/k8s.go:477-497 | only config maps, the deployment and the service change |
| K8sApplication.ConfigureDeploymentFrame | caas/kubernetes/provider/k8s.go:568-609 | the deployment step changes only config maps and deployments |
| K8sApplication.ConfigureDeploymentRerun | caas/kubernetes/provider/k8s.go:568-609 | writing the deployment again over what a successful write left passes and changes nothing |
| K8sApplication.DeployAndServeIdempotent | caas/kubernetes/provider/k8s.go:477-497 | the deployment-and-service half run again on its own result passes and changes nothing |
| K8sApplication.EnsureServiceIdempotent | caas/kubernetes/provider/k8s.go:444-497 | run again on the cluster a successful `EnsureService` left, it passes and changes nothing |
| K8sApplication.DeleteService | caas/kubernetes/provider/k8s.go:434-441 | new state and outcome are those of service-then-deployment deletion |
| K8sApplication.DeleteServiceRemoves | caas/kubernetes/provider/k8s.go:434-441 | with working deletes the service and deployment are gone; unexposing removes the ingress |
| K8sApplication.DeleteServiceStopsAtFirstFailure | caas/kubernetes/provider/k8s.go:434-441 | a failed service delete fails with nothing changed; a failed deployment delete after it fails with only the service removed |
| K8sApplication.IngressPath | caas/kubernetes/provider/k8s.go:698-704 | the ingress path always starts with `/` |
| K8sApplication.IngressPathIdempotent | caas/kubernetes/provider/k8s.go:698-704 | normalising the path twice is the same as once |
| K8sApplication.IngressPathCases | caas/kubernetes/provider/k8s.go:698-704 | `$appname` becomes `/<app>` (the empty name gives `/`), or the name itself when it already starts with a slash; a path with a leading slash is kept |
| K8sApplication.ExposeService | caas/kubernetes/provider/k8s.go:687-740 | new state and outcome are those of the expose step |
| K8sApplication.ExposeServiceRejects | caas/kubernetes/provider/k8s.go:687-712 | an empty host name, a failed service read, a missing service and a service without a port each fail without touching the cluster, with the error each gives |
| K8sApplication.ExposeRoutesToService | caas/kubernetes/provider/k8s.go:687-740 | the ingress for the host and path routes to the service on its first target port with the configured ingress class, and only ingresses change |
| K8sApplication.ExposeAfterEnsure | caas/kubernetes/provider/k8s.go:444-498 | exposing after a successful ensure routes to the service on the configured target port, else the first exposed container port |
| K8sApplication.UnexposeService | caas/kubernetes/provider/k8s.go:742-745 | new state and outcome are those of the ingress deletion |
| K8sUnits.OperatorConfigMap | caas/kubernetes/provider/k8s.go:1029-1039 | the operator config map has its name and holds only the agent configuration file |
| K8sUnits.OperatorPodShape | caas/kubernetes/provider/k8s.go:984-1025 | the operator pod is selected by the operator selector, carries the version label, runs the operator image in one container and mounts the agent config from the config map |
| K8sUnits.Matching | caas/kubernetes/provider/k8s.go:911-913 | the pods listed are exactly those the selector matches |
| K8sUnits.MaybeUpdatePodImage | caas/kubernetes/provider/k8s.go:909-931 | new pods and outcome are those of the image update step |
| K8sUnits.VersionCheckReadsWrongLabel | caas/kubernetes/provider/k8s.go:925-927 | the version check fails on an operator pod written with that very version |
| K8sUnits.UpdatePodImageTouchesOnePod | caas/kubernetes/provider/k8s.go:909-931 | on success only the first matching pod changes, only its first container's image, to the new image |
| K8sUnits.UpdateFailureReplacesPod | caas/kubernetes/provider/k8s.go:195-201 | any error the image update returns (a failed list, no matching pod, a version mismatch, a failed update) replaces the pod on the unchanged cluster; the panic on a pod without containers is returned with the cluster unchanged; success keeps the update |
| K8sUnits.OperatorPodReplaced | caas/kubernetes/provider/k8s.go:195-201 | an operator pod already at the requested version is replaced all the same |
| K8sUnits.UpdatedPodRunsImage | caas/kubernetes/provider/k8s.go:928-930 | a passing image update leaves a pod the selector matches whose first container runs the new image, and changes only pods |
| K8sUnits.ReplacedPodRunsImage | caas/kubernetes/provider/k8s.go:933-942 | a passing replacement leaves the given pod, which the selector matches and whose first container runs its image, and changes only pods |
| K8sUnits.UpdateOrReplaceLeavesPod | caas/kubernetes/provider/k8s.go:195-201 | updating in place or replacing leaves some pod the selector matches whose first container runs the requested image, and changes only pods |
| K8sUnits.EnsureOperator | caas/kubernetes/provider/k8s.go:155-203 | new state and outcome are those of the operator ensure step |
| K8sUnits.EnsureOperatorWrites | caas/kubernetes/provider/k8s.go:155-203 | on success the namespace, the operator config map (with the agent config) and an operator pod exist, and that pod's first container runs the configured operator image |
| K8sUnits.DeleteOperator | caas/kubernetes/provider/k8s.go:365-391 | new state and outcome are those of the operator delete step |
| K8sUnits.DeleteOperatorSwallowsErrors | caas/kubernetes/provider/k8s.go:365-391 | a failed claim or config-map delete is reported as success |
| K8sUnits.DeleteOperatorRemoves | caas/kubernetes/provider/k8s.go:365-391 | with working deletes the claim, config map and operator pod are gone |
| K8sUnits.DeletePodKeepsOthers | caas/kubernetes/provider/k8s.go:944-980 | deleting a pod changes only pods |
| K8sUnits.PollKeepsOthers | caas/kubernetes/provider/k8s.go:960-979 | polling changes only pods |
| K8sUnits.EnsureUnit | caas/kubernetes/provider/k8s.go:850-874 | new state and outcome are those of the unit ensure step |
| K8sUnits.EnsureUnitWrites | caas/kubernetes/provider/k8s.go:850-874 | on success the unit pod exists with the application and unit labels, the unit spec's containers changed only in their mounts, and one config-map volume per file set |
| K8sUnits.DeleteUnit | caas/kubernetes/provider/k8s.go:892-896 | new state and outcome are those of the unit pod delete |
| K8sUnits.DeleteUnitRemoves | caas/kubernetes/provider/k8s.go:892-896 | with working deletes the unit pod is gone and nothing else changes |
| K8sObserve.JujuStatus | caas/kubernetes/provider/k8s.go:833-848 | terminated iff terminating; else running, error, allocating iff running, failed, pending; unknown for any other phase |
| K8sObserve.TagOfLabel | caas/kubernetes/provider/k8s.go:820-827 | a tag is reported only from a `juju-` label whose remainder parses, and then it is that remainder |
| K8sObserve.PortsOfPod | caas/kubernetes/provider/k8s.go:801-806 | the loop lists `<port>/<protocol>` of every port of every container in order |
| K8sObserve.UnitOfPod | caas/kubernetes/provider/k8s.go:800-828 | the unit reported for one pod |
| K8sObserve.Units | caas/kubernetes/provider/k8s.go:790-831 | a list fault gives its error; otherwise one unit per application pod in name order |
| K8sObserve.UnitsAreTheApplicationsPods | caas/kubernetes/provider/k8s.go:790-831 | one unit per pod with the application label; every such pod is reported and no other |
| K8sObserve.EnsuredUnitIsReported | caas/kubernetes/provider/k8s.go:820-827 | after a successful EnsureUnit, Units reports that unit's tag |
| K8sObserve.ApplicationService | caas/kubernetes/provider/k8s.go:394-431 | a list fault gives its error; no matching service is not-found; otherwise the first service's id and addresses |
| K8sObserve.ServiceAddresses | caas/kubernetes/provider/k8s.go:406-430 | the cluster IP (if set) is the only cloud-local address and comes first; then the load balancer IP (if set) and every external IP, all public |
| CloudParams.ParamsOf | apiserver/params/cloud.go:121-143 | type and endpoints copied; auth types and regions mapped element by element, same length and order |
| CloudParams.CloudOf | apiserver/params/cloud.go:145-168 | name set to the argument; type and endpoints copied; auth types and regions mapped element by element |
| CloudParams.CloudToParams | apiserver/params/cloud.go:121-143 | the index-by-index loops compute exactly the params record |
| CloudParams.CloudFromParams | apiserver/params/cloud.go:145-168 | the index-by-index loops compute exactly the cloud record |
| CloudParams.ParamsRoundTrip | apiserver/params/cloud.go:121-168 | params to cloud and back gives the params again, whatever the name |
| CloudParams.CloudRoundTrip | apiserver/params/cloud.go:121-168 | cloud to params and back under its own name gives the cloud again |
| CloudParams.ParamsForgetName | apiserver/params/cloud.go:121-143 | the params record does not depend on the cloud's name |
| JujuPy.MachineItemsSorted | jujupy.py:49-50 | each machine once with its own entry, in ascending name order |
| JujuPy.AgentItemsMachinesFirst | jujupy.py:48-53 | all machines come first, in sorted order, followed by the units of each service; the count is machines plus units |
| JujuPy.AgentStates | jujupy.py:56-61 | the loop builds exactly the grouping of the agent items |
| JujuPy.StatesOfNames | jujupy.py:58-61 | the list under each state is exactly the names of the items in that state, in order (empty for a state no item has) |
| JujuPy.StatesOfShape | jujupy.py:58-61 | each state appears once, every list is non-empty, the keys are exactly the items' states, and there is one name per item |
| JujuPy.AgentStatesCount | jujupy.py:49-61 | the lists hold as many names as there are machines and units |
| JujuPy.FormatListing | jujupy.py:85-91 | the loop joins with ` \| ` the segments of the non-expected keys |
| JujuPy.SegmentsSkipExpected | jujupy.py:85-90 | every segment comes from a key other than the expected one and every such key gives a segment |
| JujuPy.FormatListingEmpty | jujupy.py:85-91 | the summary is empty iff every key is the expected one |
| JujuPy.PollDecision | jujupy.py:73-77 | done iff the only key is `started`; an error decision names the first entry of a key containing `error`; keep waiting iff neither |
| JujuPy.Decide | jujupy.py:73-77 | the loop over the states computes exactly the decision |
| JujuPy.FirstErrorState | jujupy.py:75-77 | the first key containing `error`, all earlier keys free of it |
| JujuPy.PollOfAgentStates | jujupy.py:56-77 | on agent states the decision never hits an empty list, and done means every agent is started |
| JujuPy.WaitForStarted | jujupy.py:68-82 | the poll loop computes the outcome: the first done or error decision, or a timeout |
| JujuPy.WaitForStartedSound | jujupy.py:68-82 | a returned status is one of the polls, has at least one agent and has every agent started; the loop never fails on an empty list |

## Left out

- `NewK8sBroker`, `newK8sConfig` and `Provider`: credential and TLS transport set-up.
- `WatchUnits`: a long-lived watch stream.
- `deletePod`'s wall-clock retry (5s delay, 2 minutes at most): modelled as a budget of polls. Between polls, each terminating pod's countdown drops by one.
- Template expansion and YAML decoding in `makeUnitSpec` (caas/kubernetes/provider/k8s.go:1069-1082) are modelled as an error-free field copy: each container gets its spec's name, image, ports and config as they are. The error returns of `tmpl.Execute` and `decoder.Decode` are dropped, and so is the YAML re-typing of rendered values.
- K8sPodSpec.UnitSpecOf: fails only on a foreign provider spec. The source also fails where the rendered template does not decode back (a config value such as `true` or `8080` renders as a YAML boolean or number, which does not decode into an environment variable's string value); the model returns the copied containers there instead.
- Foreign helpers are parameters or inputs:
  - `paths.StorageDir` is the `storageDir` argument;
  - `names.ParseUnitTag` is the `isUnitTag` predicate, and a parsed tag is taken to print as the text it was parsed from;
  - `names.NewUnitTag` and `NewApplicationTag` are modelled by their string forms.
- Helpers not modelled:
  - `network.DeriveAddressType`: the address type;
  - the path cleaning of `path.Join`;
  - the `agent` directory helpers (plain string concatenation here).
- `resource.ParseQuantity` is limited to its integer forms.
- Logging, and the `Since` time stamp of unit status (`time.Now`).
- The cluster's own behaviour beyond storing objects: it assigns no UIDs, resource versions or pod status, binds no claims and schedules no pods.
- `names.NewUnitTag` panics on a string that is not a valid unit name. `unitPodName` calls it from `EnsureUnit` (caas/kubernetes/provider/k8s.go:856) and `DeleteUnit` (caas/kubernetes/provider/k8s.go:894, before any API call). The model has no unit-name validity check: `K8sNaming.UnitPodName` maps any string to `juju-unit-…`, and `EnsureUnit` and `DeleteUnit` write or delete that pod where the source panics.
- Go panics (an index out of range) are an `IndexOutOfRange` error value. The panic of `maybeUpdatePodImage` on a pod without containers (caas/kubernetes/provider/k8s.go:928) ends `EnsureOperator` with that value: no recovery catches a panic, so the fallback to `ensurePod` is not taken.
- The Go nil-versus-empty-slice distinction and JSON tags of the params records.
- Cloud record fields other than name, type, auth types, endpoints and regions: `jujucloud.Cloud` is not part of this model.
- Config lookups: `AppConfig` and `OperatorConfig` records carry the values, defaults already resolved.
- `environs/interface.go`: interface declarations with no behaviour.
- `utils.py`: temporary directories, wall-clock timeouts, random strings and mocking.
- These parts of `jujupy.py`:
  - the subprocess calls (`juju`, `get_status`);
  - printing the summary;
  - `check_wordpress` (HTTP);
  - the message of `ErroredUnit`.
- The iteration order of each service's `units` dictionary and the order `sorted` gives the service dictionaries are inputs, not computed; `wait_for_started` reads the status documents from a given sequence instead of a clock.
- K8sApplication.EnsureServiceRollsBack: stated only for a deployment that did not exist before, because the rollback deletes the deployment whether or not `EnsureService` created it; `K8sApplication.EnsureServiceFailureDeployments` states what a failure leaves in every case.
- K8sApplication.DeployAndServeRollsBack: the same restriction and the same reason; `K8sApplication.DeployAndServeFailureDeployments` gives both failure cases without it.
- Python 2's dictionary order: the agent-state dictionary is kept in first-insertion order, which stands for Python 2's arbitrary but fixed iteration order. That order decides which error key `wait_for_started` reports and the order of the summary's segments, so the model guarantees that order only under this reading.
- JujuPy.WaitForStarted: the `RaisedErrored` outcome is the `ErroredUnit` the code evidently intends. As written, `ErroredUnit.__init__` (jujupy.py:18-19) applies `%` to one argument for two `%s` and passes no `self`, so raising it raises a `TypeError` instead. The model does not capture that exception.
