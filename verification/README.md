# OVN operator: models and proofs

The OVN operator runs OVN's databases, northd and the per-node OVN/OVS daemons on Kubernetes. Most of
it builds manifests. This project models, in Dafny, the parts that are protocols or algorithms, and
proves what they keep over all runs.

* **RAFT database pods** (`Raft*.dfy`). Pod -0 bootstraps a cluster, the others join it and leave it
  with a preStop hook; a TLS flip converts pod -0's database and re-creates the cluster. A state
  machine takes one script line per step, with crashes between lines, failing commands and the
  StatefulSet controller. The scripts themselves are methods of `DbPod`, proved against the same
  functions.
* **OVS graceful restart** (`Ovs*.dfy`). Two containers' start scripts and preStop hooks run side by
  side over a semaphore, a flow backup and a database flag that outlive the pod. One step is one line.
* **Strings** (`Text.dfy`, `ShellText.dfy`, `JsonText.dfy`). Sorting, joining, splitting, numerals;
  shell word splitting and `comm`; a reader of JSON after RFC 8259.
* **Networks of a node** (`NetworkPlan.dfy`, `NetworkJson.dfy`, `NadStore.dfy`, `Bridges.dfy`,
  `BridgeRuns.dfy`). The attachment list and the definitions behind it, their JSON, the writes against
  an API where any call may fail, and the bridges a node gets from them.
* **Reconcilers** (`ServiceScaling.dfy`, `RuntimeConfig.dfy`, `Addresses.dfy`, `DbClusterPass.dfy`,
  `NorthdAddresses.dfy`, `HashGate.dfy`, `WatchIndex.dfy`). Per-pod services over scalings, one
  configuration attempt per change, readiness and address publication, the hash gate, the watch index.

## What turned out otherwise

* *No split brain* does not hold of the scripts alone. One line can split a cluster, the `mv` of
  `setup.sh:102`, exactly when a higher pod is still a member (`UnityKeptIff`, `UnitedIffNeverSplits`).
  Under the five guards of `RaftRules.Guarded`, with flips, rolls and crashes at any time, it never does
  (`NoSplitBrain`), and a breach of any one of them can split it (`OutOfOrderSplits`,
  `RefusedLeaveSplits`, `KillSplits`, `FlipBackSplits`, `FailureAfterFlipSplits`). The StatefulSet's order
  meets the guards (`OrderIsGuarded`). That a roll goes from the highest ordinal down and waits for
  readiness has no part in this; only `FlipCanComplete` uses it.
* *A flip never gets stuck* holds exactly when pod -0 is not past a failed conversion
  (`FlipCompletesIff`, `FlipCompletesInRuns`), and one failing conversion gets it stuck (`FlipGetsStuck`).
  Where it holds, every run of successful events is bounded and ends with all pods updated, whatever
  their order (`FlipAlwaysCompletes`).
* *ovsdb-server stops after the save* holds of a termination exactly when no semaphore was left behind
  (`TerminationSafeIff`); stopping the vswitchd container alone leaves one behind.
* *A graceful stop gets to its end* holds exactly while vswitchd's hook is at work, or the semaphore is up,
  or ovsdb-server's hook is past its wait (`GracefulStopCompletesIff`). A command of `stop-vswitchd.sh` that
  fails under `set -e` leaves ovsdb-server's hook waiting out the grace period (`FailedSaveHangs`).
* *Services stay an initial segment* holds of a run exactly when the creations of each pass stop at one
  (`RunSegmentIff`). A listing of pods ensures that, however its calls fare, exactly when each of its
  prefixes fills one up (`ListingSafeIff`): a listing in order does, and any listing of pods that have
  their services. A listing by name of more than ten new pods does not, and can leave a service behind
  for good (`ListingOrderMatters`).
* *northd is deployed with addresses of ready passes* fails: a southbound pass publishes before it
  writes the external config map, and is not ready when that fails (`DeployedWithoutReady` is such a
  run); and a ready pass with no replicas publishes an empty address (`ReadyWithoutAddress`). What holds
  is `DeployedAddressesArePublished`, and `DeployedByReadyIff` says when the pass was a ready one.
* *Old bridges are removed* holds exactly when no network between the first and the last mapped one
  is dropped (`RemovesAllIff`), as `functions:99` replaces the first comma only; of three dropped networks
  the middle bridge stays (`MiddleStays`).
* *The mapped bridges exist* holds after every completed run, if nobody else makes bridges, exactly when
  none wants a network back whose bridge a run cut short, under `set -e` of `init.sh:22`, has deleted
  (`AlwaysConsistentIff`); runs tried again with the same networks never do (`TriedAgainIsSafe`), others
  can (`AbortedRunLosesBridge`).
* The definition of a NIC says what the spec says exactly when the interface name needs no JSON escape,
  as it is printed raw (`NadConfigReadsIff`); link names are sanitised and always read back.
* `cleanup.sh:32-33` never sees `left cluster`, as awk prints one word (`LeftClusterNeverMatches`).
* The loop at `ovncontroller_controller.go:494-496` copies a map onto itself; it changes nothing, and
  the hash for OVS is that of an empty map (`OvsNeverRolls`).

## Assumptions

* Of ovn-ctl, ovsdb-tool and ovsdb-server: the remote address matters on the first join only; a
  conversion to standalone keeps the data; a server started on pod -0's standalone file re-creates a
  cluster from it; `mv` is atomic, a conversion is not; a join needs pod -0's cluster at the same scheme.
* Of Kubernetes, in `RaftRules.Guarded`: pod -0 is created at the scheme its database has or at that of
  all higher pods; after a failed conversion higher pods come at pod -0's scheme; a conversion fails only
  while they have it; and members leave through their hook. In `RaftRules.Allowed`: a rolling update goes
  from the highest ordinal down and waits for readiness; a pod replaced before its turn comes back at its
  old revision; a spec flips only after the update before it is over. A controller that reverts an update
  after pod -0 was converted need not meet the first guard: both revisions are then the same.
* ovn-controller changes no flows while flow-restore-wait is set, and names no patch port after a
  physical network; no physical network is named so that its bridge is the integration bridge.
* Network names contain no blank, comma, colon, quote, backslash or shell pattern; names of services and
  domains contain no comma.
* Of lib-common's conditions: Ready mirrors a False condition before an Unknown one.
* Hashes of settings are told apart by their values and are never empty.

## Model

| member | source | states |
|---|---|---|
| RaftSafety.BaseKept | templates/ovndbcluster/bin/setup.sh:83-155 | every step of every script, failure or crash keeps what the script positions say of the files |
| RaftSafety.DataKept | templates/ovndbcluster/bin/setup.sh:83-105 | no step loses or invents a row of pod -0's database |
| RaftSafety.DataSurvives | templates/ovndbcluster/bin/setup.sh:83-105 | over every run pod -0's file holds its old rows and those committed since, in order |
| RaftSafety.DataSurvivesFromStart | templates/ovndbcluster/bin/setup.sh:36-105 | so from empty volumes, whatever happens, nothing pod -0 ever held or committed is lost |
| RaftSafety.UnityKeptIff | templates/ovndbcluster/bin/setup.sh:87-105 | a step splits the cluster exactly when it is the `mv` and a higher pod is a member |
| RaftSafety.UnitedIffNeverSplits | templates/ovndbcluster/bin/setup.sh:87-102 | a run keeps one cluster throughout exactly when none of its steps is such a `mv` |
| RaftGuards.GuardInvKept | templates/ovndbcluster/bin/setup.sh:87-105 | each guarded step keeps one cluster, own schemes of higher files, and no member above a pod -0 of the other scheme |
| RaftGuards.NoSplitBrain | templates/ovndbcluster/bin/setup.sh:36-43 | over every guarded run from empty volumes, with flips and rolls at any time and conversions that fail while all higher pods run pod -0's scheme, a higher member has pod -0's cluster id and scheme |
| RaftGuards.FaultlessIsGuarded | templates/ovndbcluster/bin/setup.sh:101-103 | when no conversion fails, higher pods may be created at any scheme at any time |
| RaftDiscipline.OrderIsGuarded | templates/ovndbcluster/bin/setup.sh:87-91 | every step in the StatefulSet's order meets the guards |
| RaftDiscipline.InvKept | templates/ovndbcluster/bin/cleanup.sh:26-46 | and keeps pod -0 last and its conversion towards the update revision |
| RaftDiscipline.OrderedRunsAreGuarded | templates/ovndbcluster/bin/setup.sh:87-91 | so every run in that order is a guarded one |
| RaftBreaches.OutOfOrderSplits | templates/ovndbcluster/bin/setup.sh:92-104 | creating pod -0 at the new scheme before a higher member is replaced splits the cluster |
| RaftBreaches.RefusedLeaveSplits | templates/ovndbcluster/bin/cleanup.sh:16-27 | one refused leave, which ends the hook, leads to a split |
| RaftBreaches.KillSplits | templates/ovndbcluster/bin/cleanup.sh:26-46 | a higher member killed without its hook leads to a split |
| RaftBreaches.FlipBackSplits | templates/ovndbcluster/bin/setup.sh:101-103 | after a failed conversion and a flip back, a higher pod of the asked-for revision leads to a split |
| RaftBreaches.FailureAfterFlipSplits | templates/ovndbcluster/bin/setup.sh:94-103 | a conversion that fails after the flip was taken back and a higher pod came leads to a split |
| RaftRuns.SetupMeaning | templates/ovndbcluster/bin/setup.sh:83-155 | from its first line setup.sh reaches its end with the file that bootstrap, join or conversion promise |
| RaftRuns.SetupServes | templates/ovndbcluster/bin/setup.sh:83-164 | its lines are an orderly and a guarded run that changes this pod only |
| RaftRuns.HookLeads | templates/ovndbcluster/bin/cleanup.sh:26-52 | with an accepted leave the hook ends with a higher pod's file gone and pod -0's kept |
| RaftRoll.Replace | templates/ovndbcluster/bin/cleanup.sh:26-46 | an outdated higher pod can be replaced by one of the new revision on an empty volume |
| RaftRoll.UpdateBelow | templates/ovndbcluster/bin/ovndb_readiness.sh:86-93 | all higher pods get updated and ready, as members or accepted joiners, before pod -0 |
| RaftRoll.UpdateZero | templates/ovndbcluster/bin/setup.sh:92-105 | then pod -0 gets updated and serves a cluster of the new scheme |
| RaftRoll.JoinBelow | templates/ovndbcluster/bin/setup.sh:40-43 | then every waiting joiner becomes a member |
| RaftRoll.FlipCanComplete | templates/ovndbcluster/bin/ovndb_readiness.sh:42-97 | from every state short of a failed conversion the flip can end with all pods updated members of one cluster |
| RaftRoll.UnconvertedStays | templates/ovndbcluster/bin/setup.sh:101-103 | after a failed conversion nothing but a restart of pod -0 or another flip gets further |
| RaftRoll.FlipCompletesIff | templates/ovndbcluster/bin/ovndb_readiness.sh:42-97 | a flip can complete exactly when pod -0 is not past a failed conversion |
| RaftGuards.ReadyImpliesMember | templates/ovndbcluster/bin/ovndb_readiness.sh:45-58 | with template ssl and pod -0 not serving tcp, ready means member of pod -0's cluster |
| RaftGuards.ReadyImpliesMemberInRuns | templates/ovndbcluster/bin/ovndb_readiness.sh:45-58 | so in every state of every guarded run |
| RaftProgress.FlipCompletesInRuns | templates/ovndbcluster/bin/ovndb_readiness.sh:42-97 | in every state of every run in order from empty volumes a flip can complete exactly when pod -0 is not past a failed conversion |
| RaftProgress.FlipGetsStuck | templates/ovndbcluster/bin/setup.sh:92-105 | such a stuck state is reached by one flip and one failing conversion |
| RaftProgress.ForwardFalls | templates/ovndbcluster/bin/setup.sh:83-164 | every successful event of scripts, roll and joins leaves less to do |
| RaftProgress.SomethingGoesOn | templates/ovndbcluster/bin/ovndb_readiness.sh:42-97 | until all pods are updated members one of these events can happen |
| RaftProgress.FlipAlwaysCompletes | templates/ovndbcluster/bin/ovndb_readiness.sh:42-97 | so every run of them, in any order, is bounded, and one that cannot go on has all pods updated |
| RaftScripts.LeftClusterNeverMatches | templates/ovndbcluster/bin/cleanup.sh:32-33 | whatever the server prints, the compared word is never `left cluster` |
| RaftScripts.WaitUntilLeft | templates/ovndbcluster/bin/cleanup.sh:30-37 | the loop ends at the first answer without a status and nowhere else |
| RaftScripts.DbPod.ConvertIfProtocolChanged | templates/ovndbcluster/bin/setup.sh:92-105 | the file becomes standalone, with its rows, exactly when all checks answer, the address differs and the tool succeeds |
| RaftScripts.DbPod.ConfigureConnection | templates/ovndbcluster/bin/setup.sh:129-149 | the probe that was set, or 60000, is set again after set-connection cleared it |
| RaftScripts.DbPod.Setup | templates/ovndbcluster/bin/setup.sh:83-155 | the script leaves the file of SetupResult and keeps an operator's probe |
| RaftScripts.DbPod.Cleanup | templates/ovndbcluster/bin/cleanup.sh:26-52 | a higher pod's file is deleted exactly when the leave was accepted and confirmed, pod -0's never |
| RaftScripts.FlipZero | templates/ovndbcluster/bin/setup.sh:87-105 | hook and setup at the other scheme give pod -0 a new cluster with the same rows |
| RaftScripts.Probe | templates/ovndbcluster/bin/ovndb_readiness.sh:42-101 | the probe with its early exits passes exactly for a ready pod, and during a preStop hook until the leave |
| OvsSafety.SemaphoreInvKept | templates/ovncontroller/bin/stop-ovsdb-server.sh:24-30 | every step but a lone vswitchd stop keeps the semaphore meaning "this termination's save is done" |
| OvsSafety.DbStopsAfterSave | templates/ovncontroller/bin/stop-vswitchd.sh:22-36 | over every run of pod-level terminations the hook stops ovsdb-server only after the save, which has its database until then |
| OvsSafety.TerminationSafeIff | templates/ovncontroller/bin/stop-ovsdb-server.sh:24-30 | all interleavings of the two hooks are safe exactly when no semaphore was left behind |
| OvsSafety.LoneVswitchdStopLeavesSemaphore | templates/ovncontroller/bin/stop-vswitchd.sh:31-36 | stopping only the vswitchd container leaves the semaphore behind |
| OvsSafety.StopHookIsRun | templates/ovncontroller/bin/stop-vswitchd.sh:22-36 | the hook's lines in a row save the flows, raise the semaphore and stop vswitchd |
| OvsFlows.LineInvKept | templates/ovncontroller/bin/start-vswitchd.sh:36-60 | every event keeps what the backup, the flag and the installed flows owe each other |
| OvsFlows.FlowInvKept | templates/ovncontroller/bin/start-vswitchd.sh:47-57 | every event but a SIGKILL right after an evaluation keeps evaluated scripts from coming back |
| OvsFlows.NoStaleRestore | templates/ovncontroller/bin/start-vswitchd.sh:45-60 | over every run evaluation has the flag set and vswitchd up means no flag and no backup; without a SIGKILL right after an evaluation no script is evaluated twice |
| OvsFlows.FlowRoundTrip | templates/ovncontroller/bin/stop-vswitchd.sh:27-29 | the flows installed when flow-restore-wait goes are those present when they were saved |
| OvsFlows.KillEvaluatesTwice | templates/ovncontroller/bin/start-vswitchd.sh:47-57 | a SIGKILL between evaluation and removal makes the next start evaluate the script again |
| OvsProgress.VHookCompletes | templates/ovncontroller/bin/stop-vswitchd.sh:22-36 | from every point vswitchd's hook can finish, its database being up until it has saved |
| OvsProgress.GracefulStopCompletes | templates/ovncontroller/bin/stop-ovsdb-server.sh:20-30 | while vswitchd's hook is at work, at any point of any interleaving, both hooks can finish, with the save done and its flows owed to the next start |
| OvsProgress.GracefulStopCompletesIff | templates/ovncontroller/bin/stop-ovsdb-server.sh:24-26 | of a terminating pod both can finish exactly when that hook is at work, the semaphore is up, or the wait is over |
| OvsProgress.FailedSaveHangs | templates/ovncontroller/bin/stop-vswitchd.sh:17-33 | after a failing listing or save no lines of the hooks end both |
| OvsScripts.StartIsRun | templates/ovncontroller/bin/start-vswitchd.sh:18-60 | the start script's lines in a row restore the saved flows and clear backup and flag |
| OvsScripts.OvsNode.StopVswitchd | templates/ovncontroller/bin/stop-vswitchd.sh:22-36 | the hook's effect is that of the run, and a failing command raises no semaphore |
| OvsScripts.OvsNode.StopOvsdb | templates/ovncontroller/bin/stop-ovsdb-server.sh:24-30 | the wait ends exactly when the semaphore is seen, which is consumed before the stop |
| OvsScripts.OvsNode.StartOvsdb | templates/ovncontroller/bin/start-ovsdb-server.sh:20-29 | a semaphore of an earlier pod is gone before the server runs |
| OvsScripts.OvsNode.StartVswitchd | templates/ovncontroller/bin/start-vswitchd.sh:35-60 | a start restores exactly the saved flows; a failed evaluation leaves the flag set and no backup |
| OvsScripts.OvsNode.RestartPod | templates/ovncontroller/bin/stop-vswitchd.sh:20-36 | a graceful restart brings the flows back and leaves nothing behind |
| Text.SortIsSorted | internal/ovncontroller/network.go:172-176 | sorting gives a sorted permutation |
| Text.SortUnique | internal/ovncontroller/utils.go:34-36 | what it gives depends on the elements only |
| Text.SplitJoin | internal/controller/ovndbcluster_controller.go:797-797 | splitting at the separator undoes joining |
| ShellText.WordsOfJoin | internal/ovncontroller/utils.go:37-37 | words joined by blanks are read back by the shell |
| ShellText.ItemsOfJoin | templates/ovncontroller/bin/functions:77-77 | xargs reads back literal words joined by blanks |
| ShellText.ItemIsWordIff | templates/ovncontroller/bin/functions:77-77 | a word is read by xargs as itself exactly when it has no quote and no backslash |
| ShellText.SetDifferenceIsDifference | templates/ovncontroller/bin/functions:75-78 | the pipeline leaves the multiset difference of two lists of literal words |
| Bridges.CurrentIsReadBack | templates/ovncontroller/bin/functions:97-105 | of the mapping it stored the script reads the first and the last bridge |
| Bridges.DesiredMapping | templates/ovncontroller/bin/functions:82-94 | the loop prints the mapping and the bridge list of the networks |
| Bridges.CurrentBridges | templates/ovncontroller/bin/functions:98-105 | the loop collects the bridge of every word, with the test that lacks a blank |
| Bridges.OvsDb.ConfigurePhysicalNetworks | templates/ovncontroller/bin/functions:81-147 | the script's effect on bridges, ports and the stored mapping |
| Bridges.OvsDb.AddBr | templates/ovncontroller/bin/functions:114-117 | an existing bridge and port are kept |
| Bridges.OvsDb.DelBr | templates/ovncontroller/bin/functions:121-138 | the bridge goes, and from the integration bridge exactly the peers of its patch ports |
| BridgeRuns.NetworksReadBack | internal/ovncontroller/utils.go:27-38 | the script reads the NIC keys, sorted and each once, whatever order the map gave |
| BridgeRuns.RunDifference | templates/ovncontroller/bin/functions:107-111 | exactly the dropped ends of the old list are deleted, exactly the wanted others are added |
| BridgeRuns.BridgesAfterRun | templates/ovncontroller/bin/functions:107-138 | which bridges exist after a run, network by network |
| BridgeRuns.RemovesAllIff | templates/ovncontroller/bin/functions:99-99 | every dropped bridge goes exactly when no network between the old ends is dropped; always with at most two |
| BridgeRuns.MiddleStays | templates/ovncontroller/bin/functions:99-99 | three networks added and dropped leave the bridge of the middle one |
| BridgeRuns.WantedAfterRun | templates/ovncontroller/bin/functions:107-138 | a wanted bridge keeps all its ports, and bridge and port are there after a run exactly when they were before or the network was no end of the old list |
| BridgeRuns.CompletedRunIff | templates/ovncontroller/bin/functions:107-147 | a run from any stored mapping leaves the node consistent exactly when the wanted ends of the old list had their bridges |
| BridgeRuns.AbortedKeepsSound | templates/ovncontroller/bin/init.sh:22-25 | a run cut short at any command keeps the mapping and all mapped bridges but those it came to delete |
| BridgeRuns.CompletedAreConsistentIff | templates/ovncontroller/bin/functions:81-147 | over every run, also cut short anywhere, from any sound node: completed runs leave it consistent when none wants a deleted bridge back, and only then if nobody else makes bridges |
| BridgeRuns.TriedAgainIsSafe | templates/ovncontroller/bin/init.sh:22-25 | runs tried again with the same networks want none back |
| BridgeRuns.AlwaysSound | templates/ovncontroller/bin/functions:81-147 | and at every moment each network in the stored mapping has bridge and port, unless a run cut short since then has deleted it |
| BridgeRuns.AlwaysConsistentIff | templates/ovncontroller/bin/functions:81-147 | the same from the first start on |
| BridgeRuns.AbortedRunLosesBridge | templates/ovncontroller/bin/functions:107-138 | one aborted run between two of the same network leaves its mapping without a bridge |
| JsonText.ObjectReads | internal/ovncontroller/network.go:42-44 | an object put together from readable fields reads as that object |
| JsonText.ArrayReads | internal/ovncontroller/network.go:52-59 | an array printed item by item reads as that array |
| JsonText.LastStringReadsIff | internal/ovncontroller/network.go:42-44 | a raw last string is read back exactly when it has no quote, backslash or control character |
| NetworkPlan.PrintLinks | internal/ovncontroller/network.go:52-59 | the loop prints the array of link objects |
| NetworkPlan.DefineBondNadConfig | internal/ovncontroller/network.go:47-64 | the bond's configuration around that array |
| NetworkPlan.PlanIgnoresMapOrder | internal/ovncontroller/network.go:172-176 | list and writes do not depend on map iteration order |
| NetworkPlan.LinksPrecedeBond | internal/ovncontroller/network.go:184-204 | every bond's links stand just before it, in order |
| NetworkPlan.PlanMembers | internal/ovncontroller/network.go:178-204 | a name is in the list exactly when it is a key or a link of a bond among the keys |
| NetworkJson.LinkArrayReads | internal/ovncontroller/network.go:52-59 | the printed links read back as exactly these links (RFC 8259, sections 5 and 7) |
| NetworkJson.SanitisedLinksReadBack | internal/ovncontroller/network.go:79-96 | sanitised links always read back, whatever the spec contains |
| NetworkJson.LinkArrayInjective | internal/ovncontroller/network.go:52-59 | different link lists print differently |
| NetworkJson.NadConfigReadsIff | internal/ovncontroller/network.go:38-45 | the configuration of a NIC reads as its four members exactly when the device name, put in as it is, needs no escape |
| NetworkJson.BondConfigReads | internal/ovncontroller/network.go:61-63 | the configuration of a bond reads as its nine members |
| NetworkJson.BondConfigInjective | internal/ovncontroller/network.go:61-63 | it determines name, mode, MTU and links |
| NadStore.PutAllMeans | internal/ovncontroller/network.go:100-158 | unnamed and foreign definitions stay; absent and owned ones get the last configuration written, collisions included |
| NadStore.RetryConverges | internal/ovncontroller/network.go:141-155 | writing all after having written a part, or all, ends as writing all once |
| NadStore.AttemptsMean | internal/ovncontroller/network.go:114-157 | whatever call fails, with or without effect, the store is that of the writes that succeeded and perhaps the failed one |
| NadStore.RunsConverge | internal/ovncontroller/network.go:161-208 | a failed run made good, or a run repeated, leaves the store of one successful run |
| NadStore.Namespace.CreateOrUpdateNad | internal/ovncontroller/network.go:114-157 | get, then create or update when absent or owned; each call may be refused or take effect and still fail |
| NadStore.Namespace.SanitiseName | internal/ovncontroller/network.go:79-89 | the loop replaces exactly the characters that are neither letter, number nor hyphen |
| NadStore.Namespace.CreateLinkNads | internal/ovncontroller/network.go:67-98 | the links' definitions in order up to a failure, and the sanitised names |
| NadStore.Namespace.ProcessKey | internal/ovncontroller/network.go:178-204 | one key's writes and entries |
| NadStore.Namespace.CreateOrUpdateAdditionalNetworks | internal/ovncontroller/network.go:161-208 | the list is the plan over the sorted keys, the writes are the plan's up to a failure or a bond without links |
| NadStore.Owns | internal/ovncontroller/network.go:142-148 | an owner of that name is found exactly when there is one |
| ServiceScaling.WantedServicesStay | internal/controller/ovndbcluster_controller.go:1007-1025 | from any services and whatever fails no service below the replica count is deleted |
| ServiceScaling.CleanPassMeans | internal/controller/ovndbcluster_controller.go:949-1025 | what a pass without failures leaves, from any services |
| ServiceScaling.SweepCompleteIff | internal/controller/ovndbcluster_controller.go:1007-1008 | it leaves none beyond the replicas exactly when no index reaches both count and replicas |
| ServiceScaling.SegmentPass | internal/controller/ovndbcluster_controller.go:949-1025 | on initial segments it leaves [0, min(max(s, p), replicas)) |
| ServiceScaling.PassSegmentIff | internal/controller/ovndbcluster_controller.go:1007-1025 | a pass leaves an initial segment exactly when its creations do, whatever else fails |
| ServiceScaling.ListingSafeIff | internal/controller/ovndbcluster_controller.go:949-978 | the creations stop at an initial segment, however the calls fare, exactly when every prefix of the listing fills one up |
| ServiceScaling.RunSegmentIff | internal/controller/ovndbcluster_controller.go:949-1025 | over every run services stay an initial segment exactly when the creations of each pass stop at one |
| ServiceScaling.RunKeepsSegment | internal/controller/ovndbcluster_controller.go:949-1025 | they do when each listing is safe or its creations all succeed |
| ServiceScaling.AscendingIsSafe | internal/controller/ovndbcluster_controller.go:949-978 | a listing in order is safe |
| ServiceScaling.PresentIsSafe | internal/controller/ovndbcluster_controller.go:949-978 | any listing of pods that all have services is safe |
| ServiceScaling.ListingOrderMatters | internal/controller/ovndbcluster_controller.go:974-978 | listed by name, a pass that stops half-way leaves a service no later pass removes |
| ServiceScaling.PerPodServices.ReconcileServices | internal/controller/ovndbcluster_controller.go:937-1025 | the creation loop and the downward sweep, with every early return before, in and after them, and failed calls that took effect |
| ServiceScaling.MetricsServices.ReconcileMetricsServices | internal/controller/ovnnorthd_controller.go:697-741 | creation for every replica, up to the first that is not done, then the scan |
| ServiceScaling.MetricsServices.CleanupExtraServices | internal/controller/ovnnorthd_controller.go:744-767 | the scan removes what exists from the replica count up to 32, passing over failures |
| ServiceScaling.NorthdExact | internal/controller/ovnnorthd_controller.go:697-767 | from any services below 32 a failure-free pass is exact |
| ServiceScaling.SweepAgreesWithScanIff | internal/controller/ovnnorthd_controller.go:751-751 | on initial segments sweep and scan agree exactly when no service lies beyond both 32 and the replicas |
| RuntimeConfig.OneAttemptPerChange | internal/controller/ovndbcluster_controller.go:1181-1217 | with stored status the attempts are the settings seen at gated passes with adjacent repeats removed, whatever fails later |
| RuntimeConfig.ClusterStatus.ReconcileRuntimeConfig | internal/controller/ovndbcluster_controller.go:1181-1264 | the hash is stored before anything is created, and an error stops the submissions |
| RuntimeConfig.ClusterStatus.Reconcile | internal/controller/ovndbcluster_controller.go:755-768 | what one pass attempts and stores |
| RuntimeConfig.CreateConfigJobs | internal/ovndbcluster/runtimeconfigjob.go:62-167 | the jobs are one-to-one, in order, with the pods that are not failed, succeeded or deleting |
| RuntimeConfig.JobNameDeterminesPod | internal/ovndbcluster/runtimeconfigjob.go:103-104 | a job name determines pod and second |
| RuntimeConfig.JobNamesDistinct | internal/ovndbcluster/runtimeconfigjob.go:103-104 | the jobs of an attempt have different names, whatever the clock |
| RuntimeConfig.Pod0HostIff | templates/ovndbcluster/config/runtime-config.sh:74-74 | the script's prefix matches the host of a job exactly for ordinal 0, not for 10 or 20 |
| RuntimeConfig.DbServer.Configure | templates/ovndbcluster/config/runtime-config.sh:43-87 | which setting the script changes, and when it fails |
| RuntimeConfig.OneProbeWriter | templates/ovndbcluster/config/runtime-config.sh:72-87 | of an attempt's jobs exactly that of pod 0 writes the probe: one if it is available, else none |
| Addresses.InternalDbAddress | internal/controller/ovndbcluster_controller.go:773-797 | the loop publishes one endpoint for each service that is neither headless nor a load balancer |
| Addresses.AddressSplits | internal/controller/ovndbcluster_controller.go:779-797 | split at commas it gives exactly these endpoints, unless there is none |
| Addresses.EndpointPort | internal/ovndbcluster/service.go:17-94 | every endpoint ends in the port of its own database, never in a RAFT or metrics port |
| DbClusterPass.Cluster.Reconcile | internal/controller/ovndbcluster_controller.go:157-226 | a pass ends at the first step that fails, reports exactly that step's conditions False, leaves one not True, publishes only past the last gate, is ready exactly at its last line with RBAC settled, and Ready is False exactly when some condition is |
| DbClusterPass.Cluster.ReconcileNormal | internal/controller/ovndbcluster_controller.go:380-829 | the four parts in turn with every early return |
| DbClusterPass.Cluster.Begin | internal/controller/ovndbcluster_controller.go:214-399 | finalizer, deletion and RBAC, then the network |
| DbClusterPass.Cluster.CheckNetwork | internal/controller/ovndbcluster_controller.go:401-464 | network, external clean-up and annotation, and when external configuration is settled |
| DbClusterPass.Cluster.ReadInputs | internal/controller/ovndbcluster_controller.go:470-594 | TLS secrets, config maps and their hash |
| DbClusterPass.Cluster.Deploy | internal/controller/ovndbcluster_controller.go:619-711 | topology, StatefulSet, disruption budget and services |
| DbClusterPass.Cluster.WriteWorkload | internal/controller/ovndbcluster_controller.go:619-660 | topology and StatefulSet with their three early returns |
| DbClusterPass.Cluster.Expose | internal/controller/ovndbcluster_controller.go:665-711 | disruption budget and services with theirs |
| DbClusterPass.Cluster.Verify | internal/controller/ovndbcluster_controller.go:713-768 | networks, service list, and runtime configuration when all pods are ready and updated |
| DbClusterPass.Cluster.Publish | internal/controller/ovndbcluster_controller.go:770-825 | the address is set before the external config map is written |
| DbClusterPass.EndIsReady | internal/controller/ovndbcluster_controller.go:157-212 | then all conditions are True exactly when those of RBAC are |
| DbClusterPass.PublishingIsReadyIff | internal/controller/ovndbcluster_controller.go:770-814 | a ready pass publishes; a publishing pass is ready unless its external config map or RBAC is not |
| NorthdAddresses.AlwaysGrounded | internal/controller/ovnnorthd_controller.go:629-644 | over every interleaving each stored or read address was published by an earlier pass of its database |
| NorthdAddresses.DeployedAddressesArePublished | internal/controller/ovnnorthd_controller.go:393-400 | northd is deployed only with two non-empty addresses published and stored earlier |
| NorthdAddresses.PublishedAddressReads | api/v1beta1/ovndbcluster_types.go:235-240 | such an address is a list of endpoints on its own database's port, one per pod's service |
| NorthdAddresses.DeployedWithoutReady | internal/controller/ovndbcluster_controller.go:797-812 | a run in which northd is deployed with an address that no ready pass published |
| NorthdAddresses.ReadyWithoutAddress | internal/controller/ovndbcluster_controller.go:770-797 | a ready pass with no replicas publishes an empty address |
| NorthdAddresses.DeployedByReadyIff | internal/controller/ovndbcluster_controller.go:798-814 | a deployed address comes from a ready pass exactly when some pass that published it had its external config map written and RBAC settled |
| HashGate.Controller.MergeEnvs | internal/controller/ovncontroller_controller.go:488-496 | the two copying loops leave the TLS settings, for OVN only |
| HashGate.Controller.CreateHash | internal/controller/ovncontroller_controller.go:1019-1039 | the hash is stored under its key, and a change is reported exactly when the status said otherwise |
| HashGate.Controller.Reconcile | internal/controller/ovncontroller_controller.go:487-532 | what a pass stores, when the gate stops it, and what it deploys |
| HashGate.DeploysWereStored | internal/controller/ovncontroller_controller.go:528-532 | over every run a hash written to a DaemonSet was in the status the pass read, put there by an earlier pass |
| HashGate.OvsNeverRolls | internal/controller/ovncontroller_controller.go:517-518 | over every run the hash of OVS is one and the same, whatever secrets and scripts are |
| HashGate.StopsIff | internal/controller/ovncontroller_controller.go:528-532 | over every run the gate stops exactly the passes with other settings than the last one stored, or with none stored |
| HashGate.DeploysIff | internal/controller/ovncontroller_controller.go:528-532 | over every run OVN is written exactly by the passes that find their settings stored and are not held up |
| HashGate.NextStopsIff | internal/controller/ovncontroller_controller.go:528-532 | after a stored pass the gate stops the next exactly when the hash of its settings is another |
| HashGate.NeverStopsTwice | internal/controller/ovncontroller_controller.go:528-532 | with stable inputs and stored status no two passes in a row stop at the gate, and the second deploys |
| WatchIndex.FindObjectsForSrc | internal/controller/ovndbcluster_controller.go:301-333 | the nested loops collect the requests field by field, up to a failing listing |
| WatchIndex.RequestsAgreeWithScan | internal/controller/ovndbcluster_controller.go:229-277 | each resource of the namespace is requested once for every field that names the object |
| WatchIndex.SearchIsScan | internal/controller/ovn_common.go:38-45 | with error-free listings that is over all four watched fields |

## Left out

- Kubernetes client, caches, helpers and lib-common: calls are steps with outcomes; `CreateOrPatch`, RBAC and jobs are not looked into.
- RAFT messages, elections and quorum: only files, membership and schemes count; one server's file stands for the cluster behind pod -0.
- Stale caches: a reconciler reads the stored status as it is, not an older one.
- RaftGuards.NoSplitBrain: needs the guards as a hypothesis, each of them; without them only the exact condition of UnitedIffNeverSplits holds.
- OvsFlows.NoStaleRestore: that no script is evaluated twice excludes a SIGKILL between evaluation and removal, which no trap can cover; KillEvaluatesTwice shows why.
- OvsFlows.FlowRoundTrip: excludes failed evaluations, after which the scripts drop the backup on purpose, and a SIGKILL to vswitchd alone once it has evaluated, which loses what was restored.
- DbClusterPass.Cluster.Reconcile: messages, severities, result values and transition times of conditions are not modelled, nor is the panic on a service without ports.
- ServiceScaling.PerPodServices.ReconcileServices: what comes before the loop (the common service) and after it (DNS data) is an outcome; ports and labels are left out.
- RuntimeConfig.ClusterStatus.ReconcileRuntimeConfig: the job runner's own hashes and retries are left out.
- HashGate.Controller.CreateHash: hashing always succeeds; lines 519-526 would dereference a nil error if it did not.
- NadStore.Namespace.CreateOrUpdateAdditionalNetworks: labels, and others writing definitions during a run, are left out.
- JsonText.ParseNumber: reads no fraction and no exponent; surrogate escapes in strings are refused too.
- Unicode letters and numbers: a parameter that holds of no quote, backslash or control character.
- Schema conversion, log levels, external-ids and the encapsulation address: foreign commands run in sequence.
- Metrics DaemonSet and its hash, probes, legacy Deployment clean-up, image defaults: settled by reading one branch.
- `isDaemonSetRolloutComplete` and `GetExternalEndpoint`: settled by reading one branch; the watch searches of the other two reconcilers have the shape of the one modelled.
- Manifests, webhooks, generated code and configuration: no claim beyond the text.
- Wall-clock timeouts and grace periods: they appear as events that may come at any time.
