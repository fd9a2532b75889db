# Kyuubi operator: a verified model

This project models the controller of the Kyuubi operator in Dafny and proves what it promises.

The operator watches `KyuubiCluster` objects. A *pass* (`Reconcile`) brings one cluster into shape through a
fixed chain of eight links: ServiceAccount, Role, RoleBinding, the Kyuubi config map, the cluster-references
config map, the StatefulSet, the Service, and the status of the cluster object itself. Each link reads, then
creates or updates, and stops the pass on an error. Reads come from a cache that may lag behind the server, any
call may fail, a pass may die anywhere, and several workers may run at once, because leader election is off
unless asked for.

## How the model is laid out

- `Text`, `Render`: the Go string functions in use, `compareConf`, and the two renderers. Go ranges over a map in
  any order, so a renderer is a method that may return any text of its map; a specification parser says what a text
  means. The XML parser reads elements by their tags, skips white space, decodes references and shares no text with
  the renderer.
- `Naming`, `Api`: names, keys and labels; the custom resource and the objects the operator fills in. A nil map or
  slice is `None`, an empty one is `Some` of empty.
- `Config`, `Volumes`: the configuration compiler, and the volumes and mounts that must agree with it.
- `Machine`: the API server and the workers as a step machine. The server is the sequence of all its states and an
  object's version is the index of the state it was written in. A run is *any* sequence of actions of any workers,
  users and other parties; an action that is not possible leaves the world as it is.
- `Manifest`: what the stored objects say, spelled out in the texts the API server and the pods see (names, labels,
  ports, replicas, files and their meaning), and the proof that every write of every run says just that. It names
  none of the functions the objects are built by.
- `Order`, `StatusHistory`, `References`, `Blocked`, `Isolation`, `WriteOnce`, `Updates`: theorems about every run.
- `TypeChange`: the runs in which a change of reference types leaves a volume dangling, and the exact condition on
  the specs under which no run does.
- `Pass`, `Convergence`: fault-free passes, what they do to the contents of the store, where they converge, and why
  passes of different clusters commute.
- `Company`: one worker among others. What the others do leaves it where it stands.
- `Controller`: the controller as it is written, a class whose methods call the server one request at a time. Before
  every call and every clock reading the other workers, users and outside parties act, in any way the machine allows.
  Every method keeps the world at a state the machine reaches by the actions logged, so the theorems about runs hold
  of this code in company (`Controller.CodeKeepsOrder`, `Controller.CodeKeepsStatus`); with a reliable server and
  nobody else around, a whole `Reconcile` is exactly the fault-free pass.
- `DeepCopy`: the generated deep-copy functions on a heap of maps and slices.

## What the model takes as given

- The server refuses a create of an existing key, an update of a missing one, and an update or status write that
  carries a version other than the stored one. The StatefulSet update carries no version. A write of equal content
  is not a new version. The status subresource ignores the spec sent along.
- The server completes a StatefulSet spec, and Service ports, by a function of what was sent (`Env.fill`,
  `Env.fillPorts`); the XML formatter is a function of its text (`Env.formatXml`); the API host and port are inputs.
- Nobody deletes objects, and nobody but the operator writes Services or statuses. Users create cluster objects and
  edit specs at any moment. Other parties may edit the remaining objects, except where a theorem says otherwise, but
  never create any.
- All workers read one clock that never goes back. A worker reads it before it sends its status, twice, and anything
  may happen between the readings and the moment the server takes the status.
- In `Controller`, a sleep lets the cache catch up with at least one more state of the server, if there is one. This
  is what makes the wait loops end.

## Where code and documentation differ

The type documentation says that an empty image tag means `latest`. The code does so for the Spark image only
(`Config.SparkConfEntry`). For the Kyuubi image the documented reference is built exactly when the tag is not empty
(`Machine.KyuubiImageTag`); without a tag the reference ends in a colon, as `Machine.UntaggedKyuubiImage` shows. The
model follows the code. The sample resource in the repository's own README has a Spark reference without defaults,
which the compiler refuses (`Config.AcceptedExactly`, `Blocked.BlockedForGood`).

## Where a promise holds only under a condition

- Volumes find their config-map keys in every state of every run exactly when all accepted specs of the cluster call
  for the same files (`TypeChange.SafeExactly`, and `TypeChange.ChangeSafeExactly` for one edit). Otherwise a run
  fails: a dropped file dangles until the pass comes to the workload (`TypeChange.DroppedFileRun`), an added one when
  a second worker starts from a lagging read of the old spec (`TypeChange.AddedFileRun`), and a worker that lingered
  can put an old workload over a new one, since that update carries no version (`TypeChange.StaleWorkloadRun`).
- That last write also takes the stored workload behind the spec in force, exactly when the two specs differ in
  replicas, image, pull policy or mounted files (`Updates.WorkloadCurrentExactly`).

## Model

| member | source | states |
|---|---|---|
| Text.SplitParts | internal/controller/kyuubicluster_controller.go:608-609 | no part of a split text holds the separator |
| Text.JoinOfSplit | internal/controller/kyuubicluster_controller.go:608-609 | joining the parts of a split gives the text back |
| Text.SplitOfJoin | internal/controller/kyuubicluster_controller.go:608-609 | splitting a list joined by a separator none of its parts holds gives the list back |
| Text.RequestName | internal/controller/kyuubicluster_controller.go:76-79 | the name recovered from the printed request is the object's name exactly when that name has no slash |
| Text.ItoaInjective | internal/controller/kyuubicluster_controller.go:135 | decimal renderings of different indices differ |
| Text.ItoaReads | internal/controller/kyuubicluster_controller.go:135 | read as a decimal number, the rendering of an index is that index, without leading zeros |
| Render.CompareConf | internal/controller/utils.go:9-20 | true exactly when the two maps have the same entries, nil counting as empty, although only one map is walked |
| Render.Map2String | internal/controller/utils.go:22-31 | the result is the text of the map in one of the iteration orders |
| Render.KvMeaning | internal/controller/utils.go:22-31 | any such text parses back to the map if and only if keys hold no `=` or newline and values no newline |
| Render.KvTextDeterminesMap | internal/controller/utils.go:22-31 | different clean maps never share a text |
| Render.Map2Xml | internal/controller/utils.go:33-43 | the document before formatting is the text of the map in one of the iteration orders; what such a text means is `Render.XmlMeaning` |
| Render.XmlRoundTrip | internal/controller/utils.go:33-43 | read as XML (matching tags, white space between them skipped, references decoded), the document of a list of pairs is a configuration of exactly those properties, in order, if and only if all are character data in the sense of section 2.4 of XML 1.0 |
| Render.XmlMeaning | internal/controller/utils.go:33-43 | the same for maps, whatever the iteration order |
| Render.XmlTextDeterminesMap | internal/controller/utils.go:33-43 | different clean maps never share a document |
| Naming.ConfigNamesDisjoint | internal/controller/common.go:54-60 | no cluster's Kyuubi config map has the name of any cluster's references config map |
| Naming.NamesSpelled | internal/controller/common.go:54-60 | the objects of a cluster are named after it with `-kyuubi`, the references config map with `-clusterrefs` |
| Naming.KeysInjective | internal/controller/common.go:54-60 | distinct clusters, and distinct links of one cluster, never share a store key |
| Config.DerivedKeysDistinct | internal/controller/kyuubicluster_controller.go:597-613 | keys computed at run time never equal the nameservice key, the filesystem key, or each other across kinds, the single rpc-address and the per-node ones included |
| Config.HiveSiteEntry | internal/controller/kyuubicluster_controller.go:594-621 | exact closed form of the derived hive-site, with every key written as text: user entries win, the rest is the HDFS contribution and nothing more |
| Config.HiveSiteTexts | internal/controller/kyuubicluster_controller.go:594-617 | what a Hadoop client finds under each text key: filesystem, nameservice, namenode list, failover provider, one address per listed namenode with the nameservice first, or the single address |
| Config.DeriveHiveSite | internal/controller/kyuubicluster_controller.go:594-621 | the branch with its loop, which re-reads the nameservice from the map it fills, computes that closed form, key by key in text |
| Config.DeriveNodes | internal/controller/kyuubicluster_controller.go:609-611 | the loop adds, under the text of nameservice and namenode, the address the HDFS site has there or empty text, and changes nothing else |
| Config.OverrideWith | internal/controller/kyuubicluster_controller.go:587-589 | ranging over a map and assigning each entry is map override, for every order |
| Config.SparkConfEntry | internal/controller/kyuubicluster_controller.go:577-589 | the Spark defaults key by key: user entries win over the three derived ones, an empty tag is `latest` |
| Config.RenderSpark | internal/controller/kyuubicluster_controller.go:577-590 | the Spark branch renders that map |
| Config.RenderRef | internal/controller/kyuubicluster_controller.go:575-622 | one iteration of the second loop turns renderings of the files so far into renderings of the files with this reference, or refuses with the source's message |
| Config.DesiredClusterRefsConfigMap | internal/controller/kyuubicluster_controller.go:558-630 | both loops together render the files of the two-pass specification, or fail exactly when it does |
| Config.ConstructKyuubiConfigMap | internal/controller/kyuubicluster_controller.go:675-693 | one file, `kyuubi-defaults.conf`, which parses back to the user's configuration if and only if that is clean, empty for a nil map |
| Config.KyuubiMeaning | internal/controller/kyuubicluster_controller.go:675-686 | so does every rendering a pass may write |
| Config.SecondPassClosed | internal/controller/kyuubicluster_controller.go:574-623 | the second pass refuses, or yields files determined by the last reference of each type |
| Config.AcceptedExactly | internal/controller/kyuubicluster_controller.go:584-586 | the compiler accepts exactly the lists whose Spark references all have defaults, and refuses the others with the source's message |
| Config.CompiledFiles | internal/controller/kyuubicluster_controller.go:567-622 | which file is compiled from which reference, by file name and by place in the list: Spark defaults and both sites from the last of their type, hive-site from the last metastore and the last HDFS |
| Config.SitesExist | internal/controller/kyuubicluster_controller.go:566-572 | for every list there are such sites: those of its last HDFS reference, or nil ones |
| Config.LastOneWins | internal/controller/kyuubicluster_controller.go:567-623 | accepted lists with the same last Spark, HDFS and metastore references compile to the same files |
| Config.OrderBetweenTypes | internal/controller/kyuubicluster_controller.go:567-623 | lists that agree within each of the three types compile to the same result, refusal included, in whatever order the types are mixed |
| Volumes.ConstructVolumeMounts | internal/controller/kyuubicluster_controller.go:318-355 | the mounts are one per file slot, in list order |
| Volumes.ConstructVolumes | internal/controller/kyuubicluster_controller.go:357-449 | the volumes are one per file slot, in list order |
| Volumes.MountsSpelled | internal/controller/kyuubicluster_controller.go:318-355 | the mounts with their names, paths and sub-paths in text, reference by reference |
| Volumes.VolumesSpelled | internal/controller/kyuubicluster_controller.go:357-449 | the volumes with their config maps, keys and paths in text, reference by reference |
| Volumes.MountsMatchVolumes | internal/controller/kyuubicluster_controller.go:318-449 | the i-th mount names the i-th volume and mounts the path it projects |
| Volumes.CompiledKeys | internal/controller/kyuubicluster_controller.go:574-623 | the compiled config map holds exactly the files its reference types call for |
| Volumes.VolumesMatchData | internal/controller/kyuubicluster_controller.go:357-449 | for every accepted list each projected key is in the desired config map it names, and every file of the references config map is projected |
| Volumes.DistinctExactly | internal/controller/kyuubicluster_controller.go:318-449 | volume names, and mount paths, are pairwise distinct exactly when no mounted type is repeated |
| Machine.ExposedList | internal/controller/kyuubicluster_controller.go:131-139 | one entry per Service port, in order, with that port's contents, and pairwise distinct names |
| Machine.KyuubiImageTag | internal/controller/kyuubicluster_controller.go:472 | the stored Kyuubi image is the documented one, `latest` for an empty tag, if and only if the tag is not empty; else it ends in a colon |
| Machine.UntaggedKyuubiImage | api/v1alpha1/kyuubicluster_types.go:49 | the image `apache/kyuubi` without a tag becomes `apache/kyuubi:` and not `apache/kyuubi:latest` |
| Machine.SoundRun | internal/controller/kyuubicluster_controller.go:63-128 | in every run versions determine objects, nothing disappears, every worker holds the cluster object its version names, and objects keep their kind |
| Machine.WorkerShape | internal/controller/kyuubicluster_controller.go:91-128 | within a pass a worker keeps the object it read and moves one link at a time, in order |
| Machine.SameVersion | internal/controller/kyuubicluster_controller.go:153-156 | two sightings of a key under one version are the same object |
| Order.OrderStep | internal/controller/kyuubicluster_controller.go:91-128 | every action of every party keeps the order invariant |
| Order.DependencyOrder | internal/controller/kyuubicluster_controller.go:91-128 | in every state of every run a stored link has all earlier links stored: workload after accounts and config maps, service after workload, status after service |
| Order.LastingRun | internal/controller/kyuubicluster_controller.go:91-128 | in every run what a link has stored, a status list included, is there in every later state |
| StatusHistory.WriteSeesCurrent | internal/controller/kyuubicluster_controller.go:145-156 | an accepted status write replaces the status its worker read when the pass began |
| StatusHistory.ClockedStep | internal/controller/kyuubicluster_controller.go:141-152 | the times a worker carries towards its write are in order and never older than the status it read, whose creation time, if it has one, is the one carried |
| StatusHistory.StatusStep | internal/controller/kyuubicluster_controller.go:130-160 | every action, a write with times read long before included, moves the status forward only, with ordered times, and to nil, empty or the Service's ports |
| StatusHistory.CreationTimeWrittenOnce | internal/controller/kyuubicluster_controller.go:141-157 | over every run with any number of workers, each reading the clock before it writes, a persisted creation time never changes, is at most the update time, and the update time never decreases |
| StatusHistory.StatusPhasesAdvance | internal/controller/kyuubicluster_controller.go:130-160 | the persisted list is nil, empty or one entry per port of the stored Service, named after cluster, index and service, moves through these in order, and a full list never changes |
| References.ReferenceSafety | internal/controller/kyuubicluster_controller.go:98-114 | from an empty namespace, while all accepted specs call for the same files, in every state every volume's key, every account and both ends of the binding refer to what is stored, and the Service selects by `cluster` and `app` the labels of its own workload |
| Manifest.RefsMeaning | internal/controller/kyuubicluster_controller.go:558-623 | any rendering of the compiled files has exactly the files its reference types call for, each parsing back to what the last references say |
| Manifest.BodySpelled | internal/controller/kyuubicluster_controller.go:451-531 | the object each link writes has, in text, the name, labels, role, replicas, image, mounts, volumes, ports, selector and files the source gives it |
| Manifest.PutSpelled | internal/controller/kyuubicluster_controller.go:91-128 | so has every accepted write of every worker, for the spec of its pass |
| Manifest.StoredAsSpelled | internal/controller/kyuubicluster_controller.go:91-128 | over every run from an empty namespace whatever is stored for a cluster is, word for word, what the source prescribes for some spec the cluster has had |
| Manifest.ServicePicksOwnPods | internal/controller/common.go:62-67 | in every state of every such run the stored Service of one cluster selects the pods of a stored workload of its namespace if and only if it is the same cluster |
| References.PutSafeExactly | internal/controller/kyuubicluster_controller.go:533-556 | under changed types a write of the references config map keeps volumes satisfied if and only if it drops no file of the stored workload, and a workload write if and only if the stored config map has all files of the writer's spec |
| TypeChange.DroppedFileRun | internal/controller/kyuubicluster_controller.go:98-114 | a run of one worker without failures in which an edit that drops a file leaves a volume dangling |
| TypeChange.AddedFileRun | internal/controller/kyuubicluster_controller.go:98-114 | a run in which an edit that only adds a file, and a pass from a lagging read of the old spec, leave a volume dangling |
| TypeChange.StaleWorkloadRun | internal/controller/kyuubicluster_controller.go:548-553 | a run in which the unconditional workload update of a lingering worker is the step that leaves a volume dangling |
| TypeChange.ChangeSafeExactly | internal/controller/kyuubicluster_controller.go:98-114 | one edit from an accepted spec to another is safe in every run if and only if both call for the same files |
| TypeChange.SafeExactly | internal/controller/kyuubicluster_controller.go:98-114 | for any set of specs, no run with edits among them ever has a dangling reference if and only if the accepted ones all call for the same files |
| Blocked.BlockedForGood | internal/controller/kyuubicluster_controller.go:574-586 | while every spec in force has a Spark reference with nil defaults, no run stores the references config map, workload, service or status |
| Isolation.ForeignRun | internal/controller/common.go:54-60 | a run that takes up other clusters only leaves every object of this one as it was, version included |
| WriteOnce.WrittenOnce | internal/controller/kyuubicluster_controller.go:178-294 | ServiceAccount, Role, RoleBinding and Service, once stored, are never written again |
| Updates.NoLostUpdate | internal/controller/kyuubicluster_controller.go:664-670 | an accepted config-map rewrite replaces the very object its worker read, and changes its data |
| Updates.WorkloadDependsOn | internal/controller/kyuubicluster_controller.go:451-531 | two specs give one completed workload if and only if they agree on replicas, image reference, pull policy and mounted files |
| Updates.WorkloadCurrentExactly | internal/controller/kyuubicluster_controller.go:548-553 | in every run an accepted workload write leaves the workload of the spec in force if and only if the writer's spec agrees with it on those, as it always does when the writer's version is the stored one |
| Pass.PassRun | internal/controller/kyuubicluster_controller.go:63-160 | a fault-free pass with fresh reads does to the contents exactly what the specification `PassBodies` says |
| Convergence.OnePassConfigures | internal/controller/kyuubicluster_controller.go:98-114 | one pass makes both config maps renderings of the desired files and the workload the completed desired one, from any contents |
| Convergence.ConfiguredSpelled | internal/controller/kyuubicluster_controller.go:98-114 | then the stored Kyuubi configuration parses back to the spec's, the references files mean what the spec says, and the workload has its replicas, image, pull policy, names, mounts and volumes |
| Convergence.NextPassSettles | internal/controller/kyuubicluster_controller.go:116-126 | the pass after that makes the status the projection of the Service ports |
| Convergence.SettledSpelled | internal/controller/kyuubicluster_controller.go:131-139 | then the status has one entry per port, with the names of cluster and service in text |
| Convergence.SettledPassKeeps | internal/controller/kyuubicluster_controller.go:91-128 | on a settled cluster a pass changes nothing but config-map text |
| Convergence.Converges | internal/controller/kyuubicluster_controller.go:63-160 | after any run at all, one fault-free pass configures, two settle, both as spelled out, and any number of later ones change only line order |
| Convergence.PassesCommute | internal/controller/kyuubicluster_controller.go:91-128 | passes for two clusters in either order leave the same objects up to times, versions and line order |
| Controller.Reconciler.Read | internal/controller/kyuubicluster_controller.go:183-186 | after whatever the others did, a read fails or returns what some state the cache has reached holds |
| Controller.Reconciler.CreateOrUpdateOnce | internal/controller/kyuubicluster_controller.go:178-294 | each of the three write-once links, in company, keeps the world at a state of the machine and moves this worker on or ends its pass; with a reliable server it succeeds |
| Controller.Reconciler.CreateOrUpdateK8sResources | internal/controller/kyuubicluster_controller.go:296-316 | the three together, stopping at the first error |
| Controller.Reconciler.WaitVisible | internal/controller/kyuubicluster_controller.go:651-663 | the wait ends although others keep writing, its measure being how far the reader is from the state of the create, and ends without error only when the config map is visible to the reader |
| Controller.Reconciler.UpdateConfigMap | internal/controller/kyuubicluster_controller.go:664-670 | a found config map is left alone when its data is equal, else rewritten under the version read |
| Controller.Reconciler.ApplyConfigMap | internal/controller/kyuubicluster_controller.go:638-672 | either branch, in company, is steps of the machine and leaves the config map visible to the reader |
| Controller.Reconciler.CreateOrUpdateKyuubiConfigmap | internal/controller/kyuubicluster_controller.go:695-733 | the same for a text that means the user's configuration |
| Controller.Reconciler.CreateOrUpdateClusterRefsConfigmap | internal/controller/kyuubicluster_controller.go:632-673 | the same for texts that mean what the references say; a refused spec is an error and touches nothing |
| Controller.Reconciler.ConstructDesiredKyuubiWorkload | internal/controller/kyuubicluster_controller.go:451-531 | the workload has the replicas, image reference, pull policy, names, labels, mounts and volumes of the spec, spelled out |
| Controller.Reconciler.CreateOrUpdateKyuubi | internal/controller/kyuubicluster_controller.go:533-556 | the workload link, in company, is steps of the machine; its update carries no version |
| Controller.Reconciler.CreateOrUpdateService | internal/controller/kyuubicluster_controller.go:773-788 | the service link, in company, is steps of the machine and returns the service read, empty when just created |
| Controller.Reconciler.BuildExposedInfos | internal/controller/kyuubicluster_controller.go:131-139 | the loop builds the exposed list |
| Controller.Reconciler.UpdateKyuubiClusterStatus | internal/controller/kyuubicluster_controller.go:130-160 | the status link, in company, is steps of the machine; success means a status list is persisted, and with a reliable server and a current version it succeeds |
| Controller.Reconciler.CreateOrUpdateClusters | internal/controller/kyuubicluster_controller.go:91-128 | the whole chain, in company, is steps of the machine; success means every link has done its work, and fault-free it is the fault-free pass |
| Controller.Reconciler.Reconcile | internal/controller/kyuubicluster_controller.go:63-89 | whatever fails and whatever others do, the world stays one the machine reaches, and a pass that reports success leaves all eight links done; with a reliable server and an accepted spec it succeeds, the contents become those of `PassBodies`, and config maps and workload say what the spec asks for |
| Company.OthersRun | cmd/main.go:58 | what other workers, users and parties do neither depends on nor moves this worker |
| Company.TimesAreReadings | internal/controller/kyuubicluster_controller.go:145-153 | whatever happens in between, the persisted creation time is the clock at the first reading, unless the status has one, and the update time the clock at the second; a write from a stale version changes nothing |
| Controller.CodeKeepsOrder | internal/controller/kyuubicluster_controller.go:91-128 | at any point of the code, in company, the dependency order holds in every state of the server |
| Controller.CodeKeepsStatus | internal/controller/kyuubicluster_controller.go:130-160 | at any point of the code, in company, creation times have stayed, times are in order and phases have advanced |
| DeepCopy.CopyMap | api/v1alpha1/zz_generated.deepcopy.go:64-70 | a fresh map with the same entries, nil for nil |
| DeepCopy.CopyRef | api/v1alpha1/zz_generated.deepcopy.go:28-33 | equal meaning, all maps fresh |
| DeepCopy.CopySlice | api/v1alpha1/zz_generated.deepcopy.go:176-182 | a fresh slice of any length, element by element equal, all maps fresh, nil for nil |
| DeepCopy.CopySpec | api/v1alpha1/zz_generated.deepcopy.go:165-183 | the copy means what the source meant, keeps nil apart from empty, and reaches only fresh storage |
| DeepCopy.CopyInfos | api/v1alpha1/zz_generated.deepcopy.go:46-49 | a fresh list of any length with equal elements whose string pointers are fresh too, nil for nil |
| DeepCopy.CopyStatus | api/v1alpha1/zz_generated.deepcopy.go:196-207 | the copy means what the source meant, keeps nil apart from empty, and reaches only fresh lists and pointers |
| DeepCopy.EditSource | api/v1alpha1/zz_generated.deepcopy.go:165-183 | changing any map of the source after the copy leaves the copy as it was |
| DeepCopy.EditCopy | api/v1alpha1/zz_generated.deepcopy.go:165-183 | replacing a reference in the copy leaves the source as it was |

## Left out

- Deletion of objects, owner references and garbage collection: the theorems are about runs without deletes.
- The XML formatter of `map2Xml`: a foreign library; the document is modelled up to the call.
- Controller.Reconciler.CreateOrUpdateOnce: one method stands for the three functions of the same shape, with the kind as a parameter.
- StatusHistory.CreationTimeWrittenOnce: workers whose clocks disagree are not modelled; all read one clock.
- Convergence.Converges: passes that converge run without another worker in between; with interference only the run theorems hold.
- Probes, role rules, container ports and environment variables of the objects: constant literals, with nothing to prove about them.
- Manager set-up, leader election, the webhook scaffold and the generated clients: wiring without logic of its own.
- Logging, and the length of the sleeps.
- API validation of the custom resource: a create or update the server rejects is one of the failures any call may have.
