# A verified model of automq-operator

The project models the two halves of the operator and the place where they meet.

* **The reconciler.** An AutoMQ resource passes the admission webhook; `Reconcile` persists a finalizer, runs a
  seven-stage pipeline over Services, Deployments and volume claims, and writes the status back; tickers that never
  stop copy and rewrite the whole status in the background; a deleted resource is cleaned up by the counts its status
  records. Any call of the API server may be refused, or take effect and lose its reply.
* **The start script.** Each node runs `up.sh`: an option loop over `shift`, property files edited in place by a `sed`
  whose program text is built from keys and values, a `grep`-guarded append, and a mapping from environment variables to
  property keys.
* **The command line.** The operator prints the options into a shell command; the script parses them.

| module | what it holds |
|---|---|
| `Basics`, `Naming`, `Store` | strings and int32, names, labels and node ids, the API server with its faults |
| `AutoMQApi` | the resource and its webhook, as a class updated in place |
| `Templates`, `Pipeline`, `Lifecycle` | what is asked for, one pass, one call of `Reconcile`, as functions |
| `Reconciler`, `StatusTicker` | the same as methods with loops over mutable state, each proved equal to its function |
| `Effects`, `Passes`, `Conditions`, `Convergence`, `Isolation`, `Routing`, `Quorum` | what passes do to each object and to the status |
| `Blueprint`, `Verdicts` | the objects a clean pass leaves and the conditions any pass reports, spelled out from the resource and the outcome of the calls alone |
| `Runs`, `Limits` | whole runs of requests, reconciles and tickers, and where the guarantees end |
| `ConfigFile`, `WriteSeries`, `EnvKeys`, `StartScript`, `NodeConfig` | the start script |
| `OperatorSettings`, `CommandLine`, `Container`, `OwnSettings` | the operator's own variables, its command and a container's environment, as the script reads them |
| `Startup` | both halves together |

The deepest results are `Runs.NoOrphans`, `Runs.FinalizerGuards` and `Runs.StatusStaysCoherent` (invariants of every run),
`Routing.RunsRouteExactly` (another one, with no assumption on the run), the equivalences of `Limits`,
`Verdicts.PassReports`, `Convergence.SecondPassIsNoop` and `Convergence.FaultsAreAbsorbed`, `Isolation.ActionsCommute`,
`NodeConfig.ScriptConfiguresNode`, and `Startup.NodeComesUp`, which leads from a reconcile pass, through the command and the
environment of the Deployment it leaves, to the contents of a node's property file.

Where the code and what is said about it differ, the model follows the code:

* Scaling brokers down deletes StatefulSets although brokers are Deployments. `Runs.NoOrphans` covers broker Deployments
  too in runs that never lower the broker count; `Limits.RescalingOrphansDeployments` says which Deployments outlive
  a resource that was rescaled, with no fault anywhere, and `Limits.BrokerDeploymentsGoByCleanup` the one way in which they
  ever go.
* The replica counts are written to the status even when the pipeline stopped early, and the whole status is written
  back from copies. `Runs.Orderly` states the run assumptions this makes necessary, and `Limits` has for each of them (a
  failed status write, a refused delete, a cut-short scale-down, a split ticker, a restart in mid-reconcile) a family of runs
  in which an object is left exactly when the assumption fails.
* The script hash never reaches the pod templates, so a changed `up.sh` restarts nothing
  (`Convergence.SurvivorIgnoresCountAndScript`), although the project's README lists automatic rolling restarts.
* `set_once` is said to refuse a leading slash and refuses a leading dash. A node id that wraps around to a negative
  int32 is such a value: `CommandLine.AllNodesParse`.
* `add_or_setup_value` silently does nothing for a key that is only the beginning of other keys, and `setup_value` turns
  `#` into `/#/`: `ConfigFile.AddOrSetupMaps` and `ConfigFile.EscapingWorksExactlyFor` are equivalences.

## Model

| member | source | states |
|---|---|---|
| AutoMQApi.AutoMQ.Default | api/v1beta1/automq_webhook.go:44-70 | the mutating webhook updates the spec in place as `DefaultingIsExact` says |
| AutoMQApi.ValidateIsExact | api/v1beta1/automq_webhook.go:120-160 | the validation refuses nothing but the ten listed defects and reports the first |
| AutoMQApi.UpdateVerdictIsExact | api/v1beta1/automq_webhook.go:87-110 | an update is first refused for the five forbidden changes, in order, and then for those defects |
| AutoMQApi.AdmissionIsExact | api/v1beta1/automq_webhook.go:44-160 | which requests are admitted and what is stored; a complete request is stored as it is |
| AutoMQApi.DefaultingIsExact | api/v1beta1/automq_webhook.go:44-70 | field by field: what is given is kept, what is missing becomes the documented value, nothing else changes |
| AutoMQApi.AutoMQ.ValidateUpdate | api/v1beta1/automq_webhook.go:87-110 | the in-place checks give the verdict of `UpdateVerdict` on the new and the stored spec |
| AutoMQApi.UpdateVerdict | api/v1beta1/automq_webhook.go:87-110 | an update is admitted iff it keeps endpoint, region, bucket, cluster id and controller count and is valid |
| AutoMQApi.DefaultedVerdict | api/v1beta1/automq_webhook.go:44-160 | defaulting is idempotent; what it cannot repair is exactly an empty endpoint, an explicitly empty JVM list, or an untyped controller affinity |
| AutoMQApi.AdmissionKeepsIdentity | api/v1beta1/automq_webhook.go:87-110 | after any series of update requests the stored spec is valid and has the five fields it was created with |
| Naming.IndexedName | internal/controller/automq_controller.go:336-341 | a node's object name determines its role and index |
| Naming.BootstrapName | internal/controller/automq_controller_b.go:458 | the bootstrap Service's name is no node's name |
| Naming.KeysAreInjective | internal/controller/automq_controller.go:336-341 | kind, namespace, role and index can be read off a key, and the bootstrap key is apart |
| Naming.NamesAndLabelsAre | internal/controller/automq_controller.go:320-341 | the names and label maps, spelled out |
| Naming.RoutingIsExact | internal/controller/automq_controller.go:320-343 | node labels select exactly their own node, role labels exactly their own role |
| Naming.NodeIdsAreDistinct | internal/controller/automq_controller_b.go:272 | ids are pairwise distinct over both roles even under int32 wrap-around |
| Naming.NodeIdsAreNonNegative | internal/controller/automq_controller_b.go:272 | all ids are non-negative iff there are at most 2^31 nodes |
| Naming.NodeIdsCountUp | internal/controller/automq_controller_b.go:272 | ids count the controllers first and then the brokers, up to the wrap-around |
| Routing.NodeIdsAreStable | internal/controller/automq_controller_b.go:272 | between any two times of a resource's life, whatever updates are admitted before and in between, an id used by a node is never another node's |
| Routing.FreshObjectsRouteExactly | internal/controller/automq_controller_b.go:182-460 | after a clean pass a created Service selects the pods of its own node only, the bootstrap Service all brokers and no controller, a Deployment its own pods |
| Routing.RunsRouteExactly | internal/controller/automq_controller_b.go:182-460 | at every point of every run, with faults, stale tickers and restarts, the stored Services and Deployments route exactly so |
| Templates.Voters | internal/controller/automq_controller_c.go:173-180 | one voter per controller, in index order |
| Quorum.VotersRoundTrip | internal/controller/automq_controller_c.go:173-180 | splitting the voter string and parsing each part recovers id, host and port, and the host resolves to that controller's Service |
| Quorum.VotersAreServed | internal/controller/automq_controller_c.go:330-414 | after a clean pass each voter's host is a Service on the voter's port whose target is the named port of the controller with that id |
| Store.Cluster.Write | internal/controller/automq_controller_b.go:161-179 | a create or update with its three outcomes |
| Store.Cluster.Delete | internal/controller/automq_controller_b.go:52 | a delete whose error is dropped |
| Reconciler.AutoMQReconciler.ControllerVoters | internal/controller/automq_controller_c.go:173-180 | the appending loop builds `Voters` |
| Reconciler.AutoMQReconciler.CleanBroker | internal/controller/automq_controller_b.go:46-70 | the delete loop by the recorded count, then the bootstrap Service |
| Reconciler.AutoMQReconciler.CleanController | internal/controller/automq_controller_c.go:42-61 | the delete loop by the recorded count |
| Reconciler.AutoMQReconciler.Cleanup | internal/controller/automq_controller.go:64-87 | the new cluster and the verdict are those of `Pipeline.Cleanup` |
| Reconciler.AutoMQReconciler.S3Service | internal/controller/automq_controller.go:223-264 | the bucket stage, an existing bucket counting as success |
| Reconciler.AutoMQReconciler.ScriptConfigmap | internal/controller/automq_controller.go:266-318 | the ConfigMap stage |
| Reconciler.AutoMQReconciler.SyncControllersScale | internal/controller/automq_controller_c.go:63-90 | the controller scale-down loop and its condition |
| Reconciler.AutoMQReconciler.SyncBrokerScale | internal/controller/automq_controller_b.go:72-99 | the broker scale-down loop, StatefulSets included, and its condition |
| Reconciler.AutoMQReconciler.SyncControllers | internal/controller/automq_controller_c.go:92-143 | the claim, deployment, service loop with its early exits and condition |
| Reconciler.AutoMQReconciler.SyncBrokers | internal/controller/automq_controller_b.go:101-152 | the claim, service, deployment loop with its early exits and condition |
| Reconciler.AutoMQReconciler.SyncPVC | internal/controller/automq_controller_b.go:154-180 | one claim created or updated |
| Reconciler.AutoMQReconciler.SyncService | internal/controller/automq_controller_b.go:424-450 | one Service created or updated; after success it has a port |
| Reconciler.AutoMQReconciler.SyncControllerDeploy | internal/controller/automq_controller_c.go:182-387 | one controller Deployment created or updated |
| Reconciler.AutoMQReconciler.SyncBrokerDeploy | internal/controller/automq_controller_b.go:182-423 | the Service is read first; its port goes into the template |
| Reconciler.AutoMQReconciler.SyncKafkaBootstrapService | internal/controller/automq_controller_b.go:452-501 | the bootstrap stage, with the address published on success |
| Reconciler.AutoMQReconciler.RunPipelines | internal/controller/automq_controller.go:156-183 | the stage loop with its break, and the counts overwritten at the end, are `Pass` |
| Reconciler.AutoMQReconciler.SyncStatus | internal/controller/automq_controller.go:206-221 | the stored resource gets the whole status, if it still exists |
| Reconciler.AutoMQReconciler.Reconcile | internal/controller/automq_controller.go:102-154 | an undisturbed call is `ReconcileOnce` on cluster and stored resource |
| Reconciler.AutoMQReconciler.StatusReconcile | internal/controller/automq_status_controller.go:33-74 | an undisturbed call is `TickOnce` on the stored resource and touches no object |
| StatusTicker.GetPodRunningNum | internal/controller/automq_status_controller.go:76-102 | the nested counting loop returns the number of listed running pods without a non-True Ready condition |
| StatusTicker.CountedIs | internal/controller/automq_status_controller.go:76-102 | which pods count, in the pods' own fields |
| StatusTicker.TickIsExact | internal/controller/automq_status_controller.go:33-74 | when a tick writes nothing, and otherwise what it derives from which counts |
| StatusTicker.RolesCountDisjointPods | internal/controller/automq_status_controller.go:56-66 | no pod counts for both roles |
| StatusTicker.ObservedIsExact | internal/controller/automq_status_controller.go:41-73 | Ready is stored iff all conditions are True and both counts equal the spec; only phase and pod count change |
| Effects.EraseRangeAt | internal/controller/automq_controller_b.go:76-89 | a delete loop removes exactly the objects of its kinds and range |
| Effects.SyncRangeAt | internal/controller/automq_controller_b.go:109-143 | whatever fails, each object of the range is as it was or as wanted |
| Effects.SyncedPrefix | internal/controller/automq_controller_b.go:109-143 | all nodes below the one a loop fails at are fully synced, a broker's Deployment carrying its Service's node port |
| Passes.PassAt | internal/controller/automq_controller.go:165-184 | any pass keeps, refreshes or scales away each object, and nothing else |
| Passes.CleanPassAt | internal/controller/automq_controller.go:165-184 | a clean pass refreshes every desired object, deletes scaled-down ones and leaves all others alone |
| Passes.PassErases | internal/controller/automq_controller.go:165-184 | once the scale stages are reached and deletes work, scaled-down objects are gone |
| Conditions.PassConditions | internal/controller/automq_controller.go:165-181 | types stay unique; stages reached report their success, stages not reached keep their condition, and only a failing bucket or ConfigMap stage cuts off |
| Conditions.CleanConditions | internal/controller/automq_controller.go:165-181 | a clean pass reports success for all seven stages |
| Verdicts.BucketDecides | internal/controller/automq_controller.go:223-264 | the pipeline runs on iff the client could be made and the bucket was created or the error text has `BucketAlready` at some position |
| Verdicts.SyncRangeFault | internal/controller/automq_controller_b.go:101-152 | a sync loop stops at the first node whose calls do not all succeed, with the reason of the call that failed |
| Verdicts.SyncNodeOrder | internal/controller/automq_controller_c.go:92-143 | what comes after the failing call of a round is as it was; a write whose reply is lost takes effect |
| Verdicts.SyncRangeOrder | internal/controller/automq_controller_c.go:92-143 | nodes above the one a loop fails at are as they were |
| Verdicts.PassReports | internal/controller/automq_controller.go:165-181 | for any pass and fault, each condition is that of the source's table of type, verdict and reason for the calls made, or as before if its stage was not reached |
| Verdicts.FirstPassReports | internal/controller/automq_controller.go:165-181 | a first pass that is not cut off lists the seven conditions in stage order |
| Verdicts.PassPublishes | internal/controller/automq_controller_b.go:499 | the bootstrap address is published iff the bootstrap Service was written, and kept otherwise |
| Verdicts.ExistingBucketIsNoFault | internal/controller/automq_controller.go:245-264 | a pass whose only fault is that the bucket is there already reports seven successes and reaches the goal |
| Blueprint.ClaimIs | internal/controller/automq_controller_b.go:154-180 | a node's claim after a clean pass, spelled out |
| Blueprint.ServiceIs | internal/controller/automq_controller_b.go:424-450 | a node's Service after a clean pass, spelled out, a broker keeping its node port |
| Blueprint.BootstrapIs | internal/controller/automq_controller_b.go:452-484 | the bootstrap Service after a clean pass, spelled out |
| Blueprint.DeploymentIs | internal/controller/automq_controller_b.go:182-423 | a node's Deployment after a clean pass: pod fields, command and environment spelled out from the resource, for each role |
| Blueprint.NodesMountTheirOwn | internal/controller/automq_controller_b.go:299-345 | each node mounts a claim that is there and its own, no two nodes the same one, and the ConfigMap that holds the script |
| Blueprint.ReconcileIsAPass | internal/controller/automq_controller.go:102-186 | a call on a live resource under any fault: finalizer, pass for exactly the stored resource and the operator's settings, status |
| Blueprint.ReconcileIsACleanup | internal/controller/automq_controller.go:64-151 | a call on a deleted resource under any fault: which objects go, and when the resource does |
| Blueprint.ScaleDownDeletes | internal/controller/automq_controller_c.go:63-90 | what a scale-down deletes for each role, a broker's Deployment not being among it |
| Convergence.CleanPassReachesGoal | internal/controller/automq_controller.go:165-184 | from any cluster and status one clean pass establishes claim, Service and Deployment of every node, the bootstrap Service and the ConfigMap |
| Convergence.SecondPassIsNoop | internal/controller/automq_controller.go:165-184 | a second clean pass changes neither cluster nor status |
| Convergence.FaultsAreAbsorbed | internal/controller/automq_controller.go:165-184 | any series of failing passes and then a clean one equals the clean one alone on every desired object, node ports aside |
| Convergence.SurvivorIgnoresCountAndScript | internal/controller/automq_controller.go:266-318 | a clean pass after a change of the broker count and of the script leaves every object desired before and after exactly as it was, save that the ConfigMap holds the new script |
| Convergence.TemplateIgnoresCountAndScript | internal/controller/automq_controller_b.go:287-417 | a node's pod template depends on neither the broker count nor the script text |
| Isolation.CleanupAt | internal/controller/automq_controller.go:64-87 | a cleanup removes exactly the recorded nodes' objects, the bootstrap Service and the ConfigMap |
| Isolation.ActionsCommute | internal/controller/automq_controller.go:64-186 | passes and cleanups in different namespaces commute and do not see each other |
| Isolation.SharedKeysMeanSharedNamespace | internal/controller/automq_controller.go:336-341 | two resources have a common object iff they share a namespace |
| Runs.ReconcileIsThreeEvents | internal/controller/automq_controller.go:102-186 | a call of `Reconcile` is start, work and status write of the run model |
| Runs.StatusStaysCoherent | internal/controller/automq_status_controller.go:33-74 | under every interleaving, with stale tickers, faults and restarts: each condition type at most once, counts of one spec read by a reconcile or zero, addresses the voters of the recorded count, Ready only with the pod count some admitted spec asks for |
| Runs.NoOrphans | internal/controller/automq_controller.go:64-186 | between the reconciles of an orderly run every tracked object has an index below the recorded count, and a removed resource leaves nothing; broker Deployments are tracked when no reconcile of the run lowers the broker count |
| Runs.FinalizerGuards | internal/controller/automq_controller.go:110-151 | at any point of an orderly run, owned objects exist only while the resource is stored with its finalizer |
| Limits.BrokerDeploymentsGoByCleanup | internal/controller/automq_controller_b.go:72-99 | in any world, a broker's Deployment goes away iff a deleted resource is cleaned up whose recorded count is above the broker's index |
| Limits.RescalingOrphansDeployments | internal/controller/automq_controller_b.go:72-99 | create, rescale any number of times, delete, all without faults: the Deployments left are those from the last broker count up to the highest |
| Limits.NoDeploymentLeftIffNeverLowered | internal/controller/automq_controller_b.go:72-99 | so removal leaves no broker Deployment iff the last broker count is the highest there has been |
| Limits.LostStatusWriteOrphans | internal/controller/automq_controller.go:182-185 | create, reconcile, delete: the nodes' objects outlive the resource iff the status write of the reconcile was refused |
| Limits.RefusedDeleteOrphans | internal/controller/automq_controller_b.go:46-70 | create, reconcile, delete, whatever fails in the cleanup: when the resource goes, an object stays iff its own delete was refused |
| Limits.CutShortScaleDownOrphans | internal/controller/automq_controller.go:175-183 | after a reconcile that lowers the broker count, surplus Services and claims stay above the recorded count iff the bucket or ConfigMap stage failed |
| Limits.SplitTickOrphans | internal/controller/automq_status_controller.go:37-73 | a ticker split by a scale-up: after a deletion the new brokers' objects stay iff the stale copy was written |
| Limits.RestartOrphans | internal/controller/automq_controller.go:102-186 | a restart in the first reconcile: after a deletion the nodes' objects stay iff it came between the work and the status write |
| ConfigFile.EscapingIsExact | defaults/up.sh:132-136 | escaping and sed's expansion give the value back iff it has no hash sign, ampersands included |
| ConfigFile.EscapingWorksExactlyFor | defaults/up.sh:132-136 | over all values, they give the value back on every matched line iff it has no hash sign, backslash, vertical bar or line end |
| ConfigFile.EscapeIs | defaults/up.sh:132-133 | what becomes of the two special characters, wherever they stand |
| ConfigFile.SetupLine | defaults/up.sh:136 | a line the key pattern matches becomes the assignment, any other is unchanged |
| ConfigFile.PropertyFile.SetupValue | defaults/up.sh:128-137 | every matching line and no other is rewritten, the line count is kept |
| ConfigFile.PropertyFile.AddOrSetupValue | defaults/up.sh:139-148 | the guarded append is `AddOrSetup` |
| ConfigFile.SetupMaps | defaults/up.sh:128-137 | setup_value sets a key iff some line matches its pattern |
| ConfigFile.AddOrSetupMaps | defaults/up.sh:139-148 | add_or_setup_value sets a key iff a line can be rewritten or none begins like the key; a hash sign survives iff the line is appended |
| ConfigFile.LastWriteWins | defaults/up.sh:128-137 | two writes to a key are the last one |
| ConfigFile.WritesCommute | defaults/up.sh:128-137 | writes to keys told apart at a literal position commute |
| WriteSeries.SparesIsExact | defaults/up.sh:136 | a key's pattern matches no assignment of another key iff some position tells them apart |
| WriteSeries.SeriesMaps | defaults/up.sh:275-308 | in a series whose writes leave each other room, the final file has each write's value |
| WriteSeries.OverridesMap | defaults/up.sh:224-237 | settings that spare a key override it exactly when they name it |
| EnvKeys.VariableReachesKey | defaults/up.sh:224-233 | a lower-case dotted key is reached from its own variable |
| EnvKeys.VariablesYieldKeys | defaults/up.sh:224-233 | every variable yields a key the editor's patterns can handle |
| EnvKeys.SaslKeys | defaults/up.sh:218-222 | the two names that keep an underscore, wherever they stand in a key |
| EnvKeys.ZooKeeperKey | defaults/up.sh:228 | the one variable whose key has capital letters |
| StartScript.LoopEnds | defaults/up.sh:243-256 | the option loop ends within as many rounds as arguments, unless it meets an unknown option, and then it never ends |
| StartScript.Script.ParseArguments | defaults/up.sh:243-256 | the shifting loop computes `ParseOptions` |
| StartScript.Script.SetupValue | defaults/up.sh:128-137 | one edit of one named file |
| StartScript.Script.AddOrSetupValue | defaults/up.sh:139-148 | one guarded edit of one named file |
| StartScript.Script.TurnOnAutoBalancer | defaults/up.sh:150-179 | the balancer settings of a role, in order |
| StartScript.Script.SetUpRole | defaults/up.sh:275-284 | the loop body over the roles |
| StartScript.Script.SetUpRunInfo | defaults/up.sh:298-301 | the node's entry in run.info |
| StartScript.Script.KafkaMonitorIp | defaults/up.sh:183-214 | the role read back, the address choice and the listener settings, or death without an edit |
| StartScript.Script.ConfigureFromEnvironmentVariables | defaults/up.sh:216-238 | one guarded edit per variable, in order |
| StartScript.Script.ConfigureNode | defaults/up.sh:258-308 | everything between the option loop and the launch is `Configure` |
| StartScript.Script.KafkaUp | defaults/up.sh:240-308 | the whole function is `UpWith` |
| NodeConfig.ListedUndisturbed | defaults/up.sh:150-214 | no setting of the script clobbers an earlier one or takes a later one's key away |
| NodeConfig.FinalFile | defaults/up.sh:139-308 | every listed key ends up with its value or with the environment's last word on it |
| NodeConfig.RoleIsReadBack | defaults/up.sh:183-185 | the role written to run.info is the role read back |
| NodeConfig.ScriptConfiguresNode | defaults/up.sh:240-308 | a script that can start launches its role with every listed key of that role's file as intended |
| NodeConfig.EnvironmentConfiguresNode | defaults/up.sh:216-238 | the last setting of a key is what the final file says: escaped if the file has the key, as given if no line begins like it |
| NodeConfig.ListedWritesAre | defaults/up.sh:275-308 | the script's own writes to a role's file, spelled out |
| NodeConfig.NoAnswerStops | defaults/up.sh:191-202 | an address service that does not answer stops the script |
| NodeConfig.MissingOptionStops | defaults/up.sh:264-273 | a missing option stops it before any edit |
| NodeConfig.UnknownRoleStops | defaults/up.sh:287-295 | an unknown role without heap options stops it before run.info is touched |
| NodeConfig.RunInfoSays | defaults/up.sh:298-301 | what run.info says of the node |
| EnvKeys.KeyBegins | defaults/up.sh:224-233 | the first part of a variable's name fixes the first part of its key, unless a rewritten name could begin there |
| OperatorSettings.OperatorSettingsStandBy | internal/controller/automq_controller_b.go:245-256 | no setting of the operator's two variable families can be mistaken for a key the script sets |
| OperatorSettings.BystandersOverrideNothing | defaults/up.sh:216-238 | settings that can be mistaken for no such key override none |
| Container.ContainerSettings | internal/controller/automq_controller_b.go:200-265 | the configuration variables of a pod template's shell, in any order, are well formed and can be mistaken for no key the script sets, if the user's and the image's are |
| Container.ShellIsFresh | internal/controller/automq_controller_b.go:200-265 | no option of the script is set in a pod template's shell |
| Container.BrokerIsToldItsPort | internal/controller/automq_controller_b.go:257-260 | a broker's shell has the node port unless the user's variables override it |
| Container.AddressVariables | internal/controller/automq_controller_b.go:257-264 | a broker's shell has the node port and the address service, a controller's has no address service |
| CommandLine.AdmittedIsStartable | api/v1beta1/automq_webhook.go:120-160 | an admitted resource with harmless values in a properly named namespace can be started |
| CommandLine.WordsJoin | internal/controller/automq_controller_b.go:348-352 | the shell splits the joined command back into its words |
| CommandLine.PairsParse | defaults/up.sh:107-126 | known options of unset variables parse iff every value is an argument, each variable then having its value |
| CommandLine.OptionsAreExact | defaults/up.sh:243-256 | the ten options and the variable each sets; all others are unknown |
| CommandLine.SetOnceIsExact | defaults/up.sh:107-126 | when a value is taken |
| CommandLine.StrayArguments | defaults/up.sh:243-256 | an option without a value kills the script, an unknown argument stops the loop for good |
| CommandLine.CommandRoundTrip | internal/controller/automq_controller_c.go:230-249 | the printed command splits into the operator's options, and the loop sets each once, dying iff the node id is negative |
| CommandLine.AllNodesParse | internal/controller/automq_controller_b.go:266-285 | every node gets past its option loop iff there are at most 2^31 nodes |
| Container.ContainerSeesCredentials | internal/controller/automq_controller_c.go:217-229 | a pod template's shell has the resource's keys and its role's JVM options unless the user's variables override them |
| OwnSettings.OwnSettingListed | internal/controller/automq_controller_b.go:245-256 | the shell lists each of the operator's settings with the operator's value, apart from all others |
| Startup.CompleteFilesSuffice | defaults/up.sh:264-308 | complete files, an address service that answers a broker and variables that stand by are enough for the script to start from a pod template's shell |
| Startup.NodeComesUp | internal/controller/automq_controller_b.go:200-417 | from a clean pass, with exactly the command and environment of the Deployment it leaves, to the node's file, property by property: ids, voters, buckets, paths, balancer settings, the listener on the port the container opens, a broker's address with its Service's node port, and the operator's own settings; the script dies iff the node id is negative |
| Startup.ControllersListenWhereVotersPoint | internal/controller/automq_controller_c.go:173-180 | the port a controller's container opens is the one in its own voter entry, next to its own id |
| Startup.NodesCanBeReady | defaults/up.sh:240-308 | what `NodeComesUp` asks of files, host and variables can be had for every resource with plain values |

## Left out

- ConfigFile.SetupLine: values with a backslash, a vertical bar or a line end are not modelled, because they change the sed program itself; `SedPlain` is the guard, and `ConfigFile.EscapingWorksExactlyFor` shows that none of them would be written as given. Property files end with a line end.
- ConfigFile.PropertyFile.SetupValue: the same values are left out.
- ConfigFile.PropertyFile.AddOrSetupValue: the same values are left out.
- StartScript.Script.SetupValue: the same values are left out.
- StartScript.Script.AddOrSetupValue: the same values are left out.
- StartScript.Script.ConfigureFromEnvironmentVariables: the same values are left out.
- StartScript.Script.ConfigureNode: the same values are left out, in the variables that reach a sed program (`PlainVars`); all other variables are free.
- StartScript.Script.KafkaUp: the same values are left out, in the variables that reach a sed program once the options are parsed (`PlainOptions`).
- Startup.NodeComesUp: values on the command line are shell-plain words (no quoting, globbing or expansion is modelled), and the CRD's minimum of one controller is assumed. A user variable that names one of the script's own variables or settings is covered by `NodeConfig.ScriptConfiguresNode` only.
- Runs.NoOrphans: broker Deployments are not covered in runs that lower the broker count, because the code does not delete them; `Limits.RescalingOrphansDeployments` says which are left. Deletion is immediate, whereas a real claim waits for its pods.
- Runs.NoOrphans: one AutoMQ per namespace, since names do not contain the resource's name (`Isolation.SharedKeysMeanSharedNamespace`).
- Reconciler.AutoMQReconciler.SyncControllerDeploy: the update strategy, probes, sysctl init container, lifecycle hook, image and grace period are constants of the source and not part of the template.
- Reconciler.AutoMQReconciler.SyncBrokerDeploy: the same constants are left out.
- The informer cache, work queue and optimistic locking: calls read the current store, retries on conflict are one call, and a conflict is a refused call. One reconcile runs at a time.
- Rejections by the API server of particular updates (a claim's storage class, a Deployment's selector, a negative pod count) are refused calls; none happens in a clean pass.
- Condition messages and transition times, affinity conversion (an unimplemented stub), and volumes other than the claim and the script.
- The S3 client: only the outcome of bucket creation. The node address service: only its answer.
- The script's help text and dispatch, `jcmd`, `kafka-storage.sh`, the log4j line and the final `exec`; the four files of the image exist. The initial contents of run.info are not part of this model.
- Variables whose names are no shell identifiers, and user variables taken from secrets: the model has literals and field references.
- Go's run-time error for a Service without ports is ruled out by a precondition (`HasPort`) that the loop establishes.
