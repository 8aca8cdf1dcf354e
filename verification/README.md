# The netcup failover controller, modelled and proved

This project models the reconciler at the heart of the netcup failover cloud controller manager
and proves what it promises: two external stores, the netcup Server Control Panel (SCP) and the
Kubernetes API, and the operations that read and change them.

SCP holds the failover address records, the servers and their live information; Kubernetes holds
the services, the nodes and the node labels. Every call to either store is a function from store
to store under an environment, which decides call by call what happens: whether the call is
answered, dropped, or takes effect although its answer is lost; how a routing PATCH is answered;
what each poll of its task reports; when a PATCH whose task was abandoned takes effect; and what
others do to SCP in between. Every theorem holds for all environments it admits, and for every
order in which the map of ready nodes is ranged over. `DeadEnv` and `CalmEnv` show that the
worst and the best environment exist.

The project has three layers.

- **The code.** `Cloud.dfy`, `LoadBalancers.dfy`, `InstancesV2.dfy`, `TaskWait.dfy` and
  `AddressMerge.dfy` follow the Go methods, with their fields, loops, flags and early exits. The
  server-ID cache and the lock table are fields; both stores are reached through an `Api` object.
  Each method is proved to be a function of the old state.
- **The functions.** `Stores.dfy` (the stores and their calls), `CloudSpec.dfy`, `LabelSpec.dfy` and
  `BalancerSpec.dfy` define those functions. A `World` is both stores, the cache and a history of
  what was listed, probed and routed.
- **The laws.** The remaining files prove the promises about those functions, over all worlds,
  environments and orders. `LockProtocol.dfy` and `LabelProtocol.dfy` are step systems for any
  number of concurrent processes; `RouteRuns.dfy` and the end of `LabelProtocol.dfy` show that the
  operations are runs of them.

Words used below. In an *undisturbed* environment nobody else changes SCP. A *quiet* one is
undisturbed and, besides, no earlier PATCH of this process takes effect late. A *calm* one is quiet
and reliable: every call is answered, every task is seen FINISHED and its effect is then visible. A
*steady* one is quiet and every call is answered, but routing PATCHes and their tasks may fare in any
way. Undisturbed and quiet environments may fail any call. A service is *converged* on a ready
node when its label and annotation name that node, the node is the only one labelled "true" for the
service name, and the stored ingress is exactly served by the node: every text is the canonical text
of a configured address of a wanted family on the node's server, and every wanted family has one. A
*fresh* copy of a service equals the object on the API server. A service is *readable* when
every ready node is known to SCP and Kubernetes and the tables of the wanted families parse. It is
*prepared* when, besides, some family is wanted, each has a routable configured address, and one of
the ready nodes runs.

## What the proofs show about the code

- Two calls with fresh copies always suffice to converge (`Convergence.Converges`). One call does so
  exactly if the balancer stands on its ready labelled node, the service has no label, or the
  first node hosting everything wanted (or else the first one running) is the node neither of its
  label nor of its annotation (`CallsNeeded.OneCallConvergesIff`). One call can fall short because
  the removal and the update in `createLoadBalancerStatus` are both computed from the same copy:
  what the first removed, the second does not see as missing.
- If the service is deleted in that intermediate state, its node keeps the "true" label: the
  deletion looks at the service label only (`LabelLaws.DeleteAfterRecording`).
- A stored status with a text that does not parse blocks a prepared service exactly while its
  labelled node is ready and hosts an address of every wanted family; then every call fails and
  changes nothing (`Convergence.StatusIffReadable`). Otherwise the status is not read. The same
  service under another label, or none, gets a new status (`CallsNeeded.UnreadableStatusMatters`).
- The comment at nc/cloud.go:277-280 says that overlapping requests for one server must never be
  issued. From a reachable state, requests whose accepted PATCHes carry task IDs and whose waits
  see their tasks end are sure to keep to this exactly if each open task is being waited for; when
  all workers are at rest, exactly if none is open (`LockProtocol.NoOverlapIffWatched`). A task is forgotten exactly by a worker that leaves while
  SCP has started a task it has no ID for, or that gives up the wait for an open one
  (`LockProtocol.ForgetsIff`); both happen (`LockProtocol.GivingUpOverlaps`,
  `LockProtocol.MissingTaskIdOverlaps`).
- A call is never an error because addresses cannot be routed
  (`GivingUp.RoutingFailuresAreNoErrors`). It comes back with nothing exactly if the balancer does not
  stand and none is possible: no family is wanted, or no ready node hosts everything wanted and none
  runs or something wanted is not routable (`GivingUp.GivesUpIff`).
- An update of a service name may begin beside others, and any number of removals, exactly if
  those in progress are towards the same node (`LabelProtocol.UpdateMayBeginIff`). Two that
  disagree can both succeed and leave both nodes labelled "true".

## Model

| member | source | states |
|---|---|---|
| TaskWait.WaitForTask | nc/cloud.go:289-315 | the polling loop ends at the first round that is not an answered poll with no state or PENDING, RUNNING, WAITING_FOR_CANCEL or ROLLBACK and no cancellation; a transport error and a bad answer make it fail at once, FINISHED is nil, ERROR and CANCELED fail as the task did, and a cancellation after an open state is the cancellation error |
| TaskWait.WaitEndsIff | nc/cloud.go:289-315 | for every stream: the wait ends if and only if some round is of that kind, and the answer is what the first such round calls for, event by event |
| TaskWait.OutcomeIsFirst | nc/cloud.go:289-315 | whichever round is the first decisive one, the wait's answer is that round's and no later one's |
| TaskWait.WaitSucceedsIffFinishedFirst | nc/cloud.go:298-301 | a wait succeeds if and only if a poll reported FINISHED before any transport error, bad answer, ERROR, CANCELED or cancellation |
| TaskWait.OpenRoundsNeverDecide | nc/cloud.go:298-313 | any number of rounds with no state or with PENDING, RUNNING, WAITING_FOR_CANCEL or ROLLBACK may precede the rest of a stream without changing its answer |
| TaskWait.EndStateIsFirst | nc/cloud.go:298-307 | the terminal state the wait ends on is the one its first decisive round reported; the wait succeeds if and only if it is FINISHED, and fails as the task did if and only if it is ERROR or CANCELED |
| SelectLaws.SelectIsExact | nc/cloud.go:231-240 | a filtered listing holds an address if and only if some record spells it, it is of the asked family and it is configured; it fails if and only if some record lacks a text or has one that does not parse, and the first such record says which error it is |
| SelectLaws.SelectInParts | nc/cloud.go:231-240 | listing order and multiplicity are kept: the parts of a listing contribute one after the other, and the first broken record decides the error |
| SelectLaws.FirstMatchIsFirst | nc/cloud.go:183-189 | a server name resolves to an ID if and only if the first exact match that has an ID carries it and every server before it has a name; "not found" means that all have names and none matches |
| SelectLaws.FailoversOfFamily | nc/config.go:147-154 | every address a listing yields is of the asked family and among the configured failover addresses |
| Cloud.Cloud.GetServerID | nc/cloud.go:169-190 | the cache is consulted first and filled only by a successful look-up; the state afterwards and the ID are those of `LookUp` |
| Cloud.Cloud.GetServer | nc/cloud.go:192-207 | the detail answer of the server the name resolves to, with the cache and history of `Probe` |
| Cloud.Cloud.GetFailoverIPs | nc/cloud.go:209-275 | both families' listings, of one server or of all; state and answer are those of `Failovers` |
| Cloud.Cloud.ConfiguredOnly | nc/cloud.go:231-240 | the append loop collects exactly what `Select` defines, or the error of the first bad record |
| Cloud.Cloud.LockServer | nc/cloud.go:281-286 | after LoadOrStore and Lock, whoever held the lock before, it is held for this caller, and no other server's lock has changed |
| Cloud.Cloud.UnlockServer | nc/cloud.go:285 | the deferred unlock frees that server's lock only |
| Cloud.Cloud.RouteServerIP | nc/cloud.go:317-392 | the stores, history and answer of `Route`; whatever path is taken and whatever other locks are held, the target's lock is stored and free afterwards and all others are as before |
| Cloud.Cloud.RouteLocked | nc/cloud.go:321-391 | the scan, PATCH and wait under the lock are those of `RouteUnderLock` |
| RoutingLaws.FirstCompleteIsFirst | nc/cloud.go:335-340 | the record chosen for a PATCH is the first one with an ID whose text equals the address text, and none is chosen exactly when there is none |
| RoutingLaws.RouteAnswers | nc/cloud.go:317-392 | the answer of a routing request, case by case: nil if and only if the listing is answered and has the address and the PATCH is accepted without a task ID, or with a task that was seen FINISHED; an accepted PATCH with a task answers as its wait ends; not found if and only if the listing is answered without the address; a failed call otherwise; and a PATCH is sent if and only if the listing has the address |
| RoutingLaws.RouteSendsOnePatch | nc/cloud.go:317-392 | at most one PATCH is sent, for the first complete record whose text is the address and with the requested server; success means it was accepted and its task, if any, was seen FINISHED; "failover IP not found" holds if and only if the listing was answered and has no such record, and then nothing was sent |
| RouteRuns.RouteIsARun | nc/cloud.go:317-392 | a routing request is a run of one worker of the lock protocol; afterwards the worker is at rest, its target's lock is free and still the one stored first, and only the tasks have changed otherwise |
| RouteRuns.RouteIsTameIff | nc/cloud.go:341-354 | the run sends a PATCH if and only if the request does, namely if the listing is answered and has a complete record of the address; and by SCP's reply and the poll rounds it can leave no open task behind if and only if none was sent, or it was refused, lost on its way, or came with a task that the wait saw in a terminal state |
| LockProtocol.StepIsDisciplined | nc/cloud.go:281-319 | every step of every worker, faults included, keeps the link between stored mutexes, holders and critical sections |
| LockProtocol.RunIsDisciplined | nc/cloud.go:281-319 | so does every run, and the mutex stored for a server ID is never replaced |
| LockProtocol.LockDiscipline | nc/cloud.go:281-319 | in every reachable state at most one worker is inside per target, a holder holds only its target's mutex and is inside, a holder never waits for a lock itself, so there is no circular wait, and it can always take a step |
| LockProtocol.LocksNeverReplaced | nc/cloud.go:281-286 | over any run, the mutex that any part of it has stored for a server ID is still the one stored at the end |
| LockProtocol.TameRunNeverOverlaps | nc/cloud.go:289-354 | from any disciplined state whose open tasks are all being waited for, no run in which accepted PATCHes carry task IDs and waits end on terminal states ever overlaps tasks |
| LockProtocol.NoOverlappingTasks | nc/cloud.go:277-354 | in every interleaving of any number of workers in which every accepted PATCH carries a task ID and every wait ends on a terminal state, with PATCHes lost on their way or refused, no PATCH for a server is sent while an earlier task of this process for it is open |
| LockProtocol.NoOverlapIffWatched | nc/cloud.go:277-354 | the exact condition, at any reachable state: all such runs from there on avoid overlaps if and only if every open task is being waited for; with all workers at rest, if and only if no task is open |
| LockProtocol.ForgottenMayOverlap | nc/cloud.go:317-354 | from any state with an open task nobody waits for, whoever holds the lock of its server, a run of well-behaved steps leads to an overlap |
| LockProtocol.ForgetsIff | nc/cloud.go:292-311 | which steps forget a task: ending early while SCP has started one without an ID known here, and giving up a wait whose task is open; no other |
| LockProtocol.NextOverlaps | nc/cloud.go:317-350 | conversely, with an open task for a target and its lock free, the next worker's PATCH overlaps with it |
| LockProtocol.GivingUpOverlaps | nc/cloud.go:292-311 | a run in which only the waits misbehave, and which overlaps tasks |
| LockProtocol.MissingTaskIdOverlaps | nc/cloud.go:349-354 | a run in which only a task ID is missing, and which overlaps tasks |
| CacheLaws.CacheStaysTrue | nc/cloud.go:169-275 | with a stable server listing and whatever else changes or fails, over any sequence of look-ups, detail queries and failover listings: no entry is overwritten, every entry equals the first exact match with an ID, and every answer is that of a failed call or the one the same operation, with the name resolved by the listing and no cache, would have given at that moment |
| CacheLaws.CachedCostsNothing | nc/cloud.go:170-190 | in any environment a cached name is resolved without a call and without a change; an uncached one costs exactly one call and enters the cache if and only if that call is answered and the listing resolves it; detail and failover listings add exactly one call once the name is resolved |
| CacheLaws.CacheIsTransparent | nc/cloud.go:169-275 | in a quiet environment where all calls are answered, whole sequences answer exactly as if the cache were forgotten before every operation |
| Stores.LabelNameInjective | nc/labels.go:18-22 | different service names have different node label names |
| Stores.MarkedNodes | nc/labels.go:66-68 | the label selector lists exactly the existing nodes labelled "true" |
| Stores.LabelledServices | nc/instances_v2.go:156-164 | the label selector lists exactly the services labelled with the node |
| RoutingLaws.PatchRelists | nc/cloud.go:341-342 | what a routing PATCH means for the listings: every other server's listing loses exactly the records of its ID, in place; the target's has exactly those and what it had; records of other IDs stay, in order; and of two PATCHes of one ID the later decides alone |
| Cloud.Cloud.ResetNodeLabels | nc/labels.go:65-83 | the loop of label writes, stopping at the first that fails, ends as `Reset` does |
| Cloud.Cloud.UpdateServiceNode | nc/labels.go:21-48 | both stores after it, and its answer, are those of `Update` |
| Cloud.Cloud.RemoveServiceNode | nc/labels.go:50-63 | both stores after it, and its answer, are those of `Remove` |
| LabelLaws.ClearEachMarks | nc/labels.go:72-81 | clearing a list of nodes takes the "true" label of exactly those nodes but the excluded one, which then carry "false", and leaves services, nodes and all other labels alone |
| LabelLaws.ResetEachOutcome | nc/labels.go:72-82 | whatever fails, a prefix of the listed nodes has been cleared; all of them on success |
| LabelLaws.ResetOutcome | nc/labels.go:65-83 | the same for the whole reset, with the nodes that were labelled "true" when it began |
| LabelLaws.ClearedActive | nc/labels.go:65-83 | after a complete reset only the excluded node can still be active |
| LabelLaws.UpdateSucceeds | nc/labels.go:21-48 | a successful update needs the service and the node to exist and has applied the difference of the copies and both label steps in full |
| LabelLaws.RemoveSucceeds | nc/labels.go:50-63 | likewise a successful removal |
| LabelLaws.RemovalLeaves | nc/labels.go:50-63 | a successful removal from any copy, stale or not, field by field: label and annotation are gone unless the copy lacked them, the status is emptied if and only if that was asked for and the copy had one, all other fields, services and labels stay, and no node is active |
| LabelLaws.UpdateLeaves | nc/labels.go:21-48 | a successful update from any copy, field by field: label and annotation are the node unless the copy named it already, all other fields, services and labels stay, and exactly the node is active |
| LabelLaws.UpdatedMarks | nc/labels.go:21-48 | from any starting labels exactly the chosen node is active after an update, and the labels of other service names are untouched |
| LabelLaws.RemovedMarks | nc/labels.go:50-63 | no node is active for the service name after a removal, and the labels of other service names are untouched |
| LabelLaws.StaleCopyLaw | nc/load_balancers.go:302-316 | from a fresh copy, a successful recording of a chosen node leaves the service label equal to it if and only if the copy's label was absent or different, and absent otherwise; likewise exactly for the annotation; in every case that node is the only active one, and no other service or label has changed |
| LabelLaws.DeleteClearsIff | nc/load_balancers.go:293-300 | after a successful deletion from a fresh copy no node is active if and only if the service carried a label or none was active before; the status and every other label stay |
| LabelLaws.DeleteAfterRecording | nc/load_balancers.go:293-316 | a deletion after a recorded choice leaves no active node, except that the chosen node stays active if the copy had named it already |
| LabelLaws.UpdateFails | nc/labels.go:21-48 | a failed update has left the service untouched and cleared a prefix of the other active nodes, or cleared all of them and patched the service with at most the chosen node active; a failed reset leaves label and annotation alone, and the chosen node never loses its label |
| LabelLaws.RemoveFails | nc/labels.go:50-63 | a failed removal has changed nothing, or patched the service and cleared a prefix of its active nodes |
| LabelLaws.CreateStatusFails | nc/load_balancers.go:302-316 | a failed recording stopped on the way of the removal, or of the update after a complete removal |
| Convergence.DeleteWorksIff | nc/load_balancers.go:293-300 | when calls are answered, a deletion succeeds if and only if the copy has no label or the service still exists |
| Convergence.ShutdownWorks | nc/instances_v2.go:155-175 | when calls are answered, a shutdown succeeds |
| LabelLaws.RemovedEachClears | nc/instances_v2.go:168-173 | removing any list of distinct fresh services leaves each without label, annotation, ingress and active nodes and with its namespace, name and families, and no other service and no label of another name changes |
| LabelLaws.ListingIsFresh | nc/instances_v2.go:163-168 | the services a shutdown lists are distinct fresh copies |
| LabelLaws.ShutdownClearsTheNode | nc/instances_v2.go:155-175 | a successful shutdown leaves no service on the node: exactly the services labelled with it end with no label, no annotation and an empty ingress, their namespace, name and families as before, and no active node; all other services, and the node labels of all other service names, are as before |
| LabelLaws.RemoveEachFails | nc/instances_v2.go:168-173 | if removing a list of services fails, a prefix has been removed completely and the next one in part |
| LabelLaws.ShutdownFailsInPart | nc/instances_v2.go:155-175 | a failed shutdown has changed nothing, or has removed a prefix of the listed services completely and one more in part (patched, and a prefix of its nodes cleared) |
| InstancesV2.InstancesV2.InstanceShutdown | nc/instances_v2.go:58-72 | the stores, cache and history of `CheckShutdown`, its verdict, and the error returned beside it |
| InstancesV2.InstancesV2.HandleShutdown | nc/instances_v2.go:155-175 | the loop over the listed services ends as `Shutdown` does |
| InstancesV2.ReportsWhatScpShows | nc/instances_v2.go:58-72 | a server is reported down if and only if SCP showed it in another state than RUNNING, also when clearing fails, and up without error if and only if it was shown RUNNING; down without error means that no service or active node is left on it, down with an error that its services were cleared in part; otherwise Kubernetes is untouched |
| LabelProtocol.StepIsGood | nc/labels.go:21-83 | every API step of every process, failing or not, keeps "at most one active node" as long as the updates in progress agree on the node |
| LabelProtocol.AtMostOneActive | nc/labels.go:21-83 | over every interleaving of any number of removals with updates that agree on the node (one alone in particular), with lost answers and stops at any step, a name that starts with at most one active node never has two |
| LabelProtocol.UpdateEndsExact | nc/labels.go:42-47 | from any starting labels and whatever removals interleave, right after the last write of an update exactly the chosen node is active |
| LabelProtocol.UpdateMayBeginIff | nc/labels.go:21-48 | the exact condition for an update to begin: all continuations keep at most one active node if and only if the updates in progress are towards the same node |
| LabelProtocol.DisagreeingUpdatesBreakIt | nc/labels.go:21-48 | two updates in progress towards different nodes, from any labels and any places they have got to, can both finish successfully with both nodes active, no other process taking part |
| LabelProtocol.TwoUpdatersBreakIt | nc/labels.go:21-48 | in particular two updates alone, from no active node, can both succeed and leave two |
| LabelProtocol.ResetEachIsARun | nc/labels.go:72-82 | the reset loop, in any environment, is a run of the protocol with the same active nodes at its end |
| LabelProtocol.ResetIsARun | nc/labels.go:65-83 | so is the whole reset |
| LabelProtocol.UpdateIsARun | nc/labels.go:21-48 | so is an update, wherever it fails |
| LabelProtocol.RemoveIsARun | nc/labels.go:50-63 | so is a removal, wherever it fails |
| LoadBalancers.LoadBalancers.ReadyNodes | nc/load_balancers.go:136-144 | the map has exactly the names of nodes with a true Ready condition, each leading to such a node |
| LoadBalancers.ReadyMeans | nc/load_balancers.go:137-143 | a name is ready if and only if some node of that name has a condition of type Ready with status true |
| LoadBalancers.LoadBalancers.RangeOrder | nc/load_balancers.go:176 | ranging over a map visits every key once, in an arbitrary order |
| LoadBalancers.LoadBalancers.WantedFamilies | nc/load_balancers.go:164-173 | the two flags say which families the service lists |
| LoadBalancers.LoadBalancers.GetLoadBalancer | nc/load_balancers.go:37-122 | the flags, nested loops and breaks decide exactly `Exists`, and the status handed out is the service's own |
| LoadBalancers.LoadBalancers.IngressStands | nc/load_balancers.go:81-119 | the ingress loops decide exactly whether every text is a canonical hosted address and every wanted family has one, for all texts and addresses, or fail exactly if some text does not parse |
| LoadBalancers.LoadBalancers.Contains | nc/load_balancers.go:90-98 | the inner loop finds a text if and only if it is the canonical text of a hosted address |
| LoadBalancers.LoadBalancers.EnsureLoadBalancer | nc/load_balancers.go:135-286 | for some order of each range over the ready nodes, the stores, cache, history and status are those of `Ensure`; whatever locks are held at the start, none is held at the end that was not held then |
| LoadBalancers.LoadBalancers.KeepExisting | nc/load_balancers.go:146-162 | the first phase is `Keep` |
| LoadBalancers.LoadBalancers.SearchMatching | nc/load_balancers.go:175-211 | the search phase is `Search`, and it finds only nodes of its order |
| LoadBalancers.LoadBalancers.Offers | nc/load_balancers.go:177-205 | one round of it is `SearchNode` |
| LoadBalancers.LoadBalancers.CreateNew | nc/load_balancers.go:213-285 | the creation phase is `Create`, and it chooses only nodes of its order |
| LoadBalancers.LoadBalancers.RouteTo | nc/load_balancers.go:228-278 | one round of it, once the server is known to run, is `RouteToNode` |
| LoadBalancers.LoadBalancers.RouteFirstOf | nc/load_balancers.go:243-253 | the candidate loop routes the first address that can be routed |
| LoadBalancers.LoadBalancers.CreateLoadBalancerStatus | nc/load_balancers.go:302-316 | both label steps of `CreateStatus`, and the given ingress on success only |
| LoadBalancers.LoadBalancers.UpdateLoadBalancer | nc/load_balancers.go:288-291 | the effects of `Ensure` without its status |
| LoadBalancers.LoadBalancers.EnsureLoadBalancerDeleted | nc/load_balancers.go:293-300 | the effects of `Delete`, which removes only labelled services |
| SearchLaws.ExistsIffServed | nc/load_balancers.go:37-122 | in a quiet environment and without errors, the balancer is reported to exist if and only if the service is labelled, every ingress text is the canonical text of a configured address of a wanted family on the labelled node, and every wanted family has one |
| Convergence.DecisionFailsIff | nc/load_balancers.go:55-86 | an unknown server or a listing that cannot be read makes the decision fail, and not report that no balancer exists, in any quiet environment; when calls are answered it fails if and only if that is so for a family it has to consult, or a stored text does not parse on a node that hosts everything wanted |
| Convergence.HostedFailsIff | nc/cloud.go:209-240 | a node's addresses cannot be told if and only if its name does not resolve or some record on its server cannot be read |
| SearchLaws.SearchEvents | nc/load_balancers.go:175-211 | the search only reads; the node it finds is one of the order, and each wanted address is configured and was the first listed on that node's server; if it finds none in a quiet environment, every node lacked an address of some wanted family |
| CreationLaws.RouteFirstEvents | nc/load_balancers.go:243-253 | the candidate loop tries candidates in listing order, fails on each before the one it routes or on all of them, and sends no more PATCHes than there are candidates |
| CreationLaws.RouteToNodeEvents | nc/load_balancers.go:228-278 | what one round leaves in the history, for each family: not wanted and untouched, every candidate failed, or the address was routed last to this target |
| CreationLaws.VisitNodeEvents | nc/load_balancers.go:214-283 | a visited node is skipped only with the evidence for it, and a complete choice was routed to the server seen running |
| CreationLaws.CreateEvents | nc/load_balancers.go:213-285 | the whole creation phase: soundness of its choice, the reasons for coming back with nothing, and the bounds on PATCHes and successes |
| BalancerLaws.ChooseEvents | nc/load_balancers.go:175-285 | search and creation together, for every pair of orders |
| BalancerLaws.NewBalancerIsSound | nc/load_balancers.go:164-285 | a status that is not the kept one is the canonical text of one IPv4 address if IPv4 is wanted, followed by that of one IPv6 address if IPv6 is wanted, and nothing else, with some family wanted; the addresses are configured, of a ready node; and either each was the first listed on its server in a call that routed nothing, or the last probe of the call showed this node RUNNING and after it, in that same round, the last attempt at each address routed it to that server, whatever earlier rounds did with it |
| BalancerLaws.GivesUpOnlyIfHopeless | nc/load_balancers.go:213-285 | a nil status without error implies that no family is wanted, a wanted family had no configured address listed, or every ready node had incomplete information, was not RUNNING, or had a wanted family whose every candidate failed to route |
| CreationLaws.CreateStops | nc/load_balancers.go:239-242 | in any environment, a listing of all servers without a configured address of a wanted family is the last thing the creation phase does, and it comes back with nothing |
| GivingUp.CallStops | nc/load_balancers.go:239-242 | the same for a whole call |
| GivingUp.NoReadyNode | nc/load_balancers.go:176-285 | without a ready node a call makes no call, changes nothing and comes back with nothing, in any environment |
| GivingUp.CreateSteady | nc/load_balancers.go:213-285 | in a steady environment, over known nodes and tables that parse, the creation phase is no error, and it comes back with nothing unless some family is wanted, all wanted ones are routable and the chosen node runs |
| GivingUp.RoutingFailuresAreNoErrors | nc/load_balancers.go:244-285 | in a steady environment, however routing fares, a call on a readable service is an error if and only if its stored status is unreadable, and it comes back with nothing whenever the balancer does not stand and none is possible |
| GivingUp.GivesUpIff | nc/load_balancers.go:135-286 | in a calm environment, a call on a readable service whose status is not unreadable comes back with nothing if and only if the balancer does not stand and no family is wanted, or no ready node hosts everything wanted and none runs or some wanted family is not routable |
| BalancerLaws.RoutingWorkBound | nc/load_balancers.go:213-285 | one call sends at most as many PATCHes as candidates were listed over the visited nodes, and routes successfully at most once per wanted family and ready node |
| BalancerLaws.NoNeedlessFailover | nc/load_balancers.go:175-278 | in a quiet environment, a call sends a routing PATCH only if at entry every ready node lacked a configured address of some wanted family, for every order and whatever calls fail |
| CreationLaws.CreateRoutesWhileRunning | nc/load_balancers.go:214-278 | in any environment, every attempt at routing in the creation phase is preceded, with no other probe in between, by the probe that showed the target RUNNING as the server of a node of the order |
| ConfinementLaws.CallRoutesWhileRunning | nc/load_balancers.go:135-286 | the same for a whole call and its own ready nodes |
| ConfinementLaws.CallIsConfined | nc/load_balancers.go:135-286 | in an undisturbed environment, one call moves addresses only through PATCHes, its own or earlier ones; each PATCH it sends goes to the target of an attempt of its own at routing the configured address the PATCH names; and each attempt came right after the probe, in its own round, that showed the target RUNNING as a ready node's server |
| ConfinementLaws.RunSends | nc/load_balancers.go:135-286 | over a run of calls with arbitrary services, node lists and changes of Kubernetes in between, every PATCH sent belongs to one call and, in that call, to such an attempt in the round of a node of that call's own ready nodes |
| ConfinementLaws.RoutingIsConfined | nc/load_balancers.go:135-286 | over whole runs in an undisturbed environment, even with tasks that finish late, the address-to-server map changes only at configured addresses, and each change is explained by a PATCH for that record and new server which some call of the run sent in the round of a node that was ready in that call and that the round's probe had shown RUNNING there; all other addresses keep their server |
| Convergence.KeepTruth | nc/load_balancers.go:146-162 | in a calm environment the first phase keeps the balancer exactly when the ready labelled node exists and serves the service, and then renews all labels; with intact listings and ready nodes known to Kubernetes it fails if and only if that node hosts everything wanted and the stored status does not parse |
| Convergence.SearchTruth | nc/load_balancers.go:175-211 | in a calm environment the search finds the first node in its order that hosts everything wanted, if there is one |
| Convergence.RouteToNodePlaces | nc/load_balancers.go:228-278 | in a calm environment a routed address is afterwards listed on its target, and routing succeeds whenever some wanted address has a complete record |
| Convergence.EstablishTruth | nc/load_balancers.go:302-316 | recording a hosted choice gets the service at least half-way, and all the way from a copy without a label |
| Convergence.FirstCall | nc/load_balancers.go:135-286 | from any labels, marks and status, a first call that yields a status leaves the service half-way: served by its ready labelled node, or without a label while a ready node offers all it needs |
| Convergence.SecondCall | nc/load_balancers.go:135-286 | a call on a half-way service routes nothing, and it converges if it yields a status |
| Convergence.TwoCallsConverge | nc/load_balancers.go:135-286 | two calls on fresh copies that yield statuses, which are stored, converge, for any start and any four orders |
| Convergence.ConvergedIsFixed | nc/load_balancers.go:146-158 | on a converged service a call yields the stored status, sends no PATCH and changes nothing in either store |
| Convergence.ConvergedForever | nc/load_balancers.go:146-158 | nor does any number of further calls |
| Convergence.HealthyCallWorks | nc/load_balancers.go:135-286 | a call in a calm environment yields a status whenever ready nodes are known, one of them runs, the tables parse and have a routable configured address of every wanted family, and no unreadable status stands in the way |
| Convergence.StatusIffReadable | nc/load_balancers.go:81-86 | among services prepared in that way, a call yields a status if and only if it is not the case that the labelled node is ready and hosts everything wanted while the stored status does not parse; the failing call changes neither store and leaves the next one to fail alike |
| Convergence.Converges | nc/load_balancers.go:135-286 | convergence to a fixed point: from any labels, annotations and node labels of a healthy service and for all orders, two calls both yield statuses, the second leaves label, annotation, the only active node and the ingress in agreement on one ready node, and all further calls return the same status and change nothing |
| CallsNeeded.EstablishConvergesIff | nc/load_balancers.go:302-316 | recording a hosted choice converges if and only if the copy has no label, or neither its label nor its annotation names that node |
| CallsNeeded.CallConvergesIff | nc/load_balancers.go:135-286 | a first call that yields a status converges if and only if it kept the standing balancer or chose a node under the condition above |
| CallsNeeded.ChoosesNextHome | nc/load_balancers.go:175-285 | a healthy call that does not keep the balancer chooses the first node in its search order that hosts everything wanted, or else the first one running in its creation order |
| CallsNeeded.OneCallConvergesIff | nc/load_balancers.go:135-286 | when one call is enough, by the tables, the orders and the copy alone: the balancer stands on its ready labelled node, the service has no label, or its next home is named neither by its label nor by its annotation |
| CallsNeeded.UnreadableStatusMatters | nc/load_balancers.go:81-86 | a service whose call fails for a status that does not parse, and that gets a new one under any other label or none |
| CallsNeeded.OneCallCanFallShort | nc/load_balancers.go:302-316 | the bound of two is tight: a healthy service in a calm environment that one call does not bring to rest |
| AddressMerge.MergeServerAddresses | nc/instances_v2.go:85-114 | each of the two loops over server addresses, for any existing addresses, is the merge of its entries; a missing text or a missing netmask or prefix length, which is logged beside it, ends it |
| AddressMerge.MergeProvided | nc/instances_v2.go:117-131 | the loop over the provided IPs is the merge of its entries |
| AddressMerge.MergeAddresses | nc/instances_v2.go:84-132 | it fails if and only if some text or mask is missing or some text does not parse; else the existing addresses are a prefix of the result, every IPv4 and IPv6 address of the server is there as external and every provided one as internal, in canonical spelling, nothing is added twice, and what is added comes from the IPv4 list, then the IPv6 list, then the provided list, each in its order |
| AddressMerge.ExternalMerge | nc/instances_v2.go:85-114 | the same of one merge of server addresses |
| AddressMerge.ProvidedMerge | nc/instances_v2.go:115-132 | the same of one merge of provided texts |
| AddressMerge.MergeIsOrderedUnion | nc/instances_v2.go:84-132 | the existing addresses are a prefix of the result; after them come exactly the addresses that are wanted and were missing, each once, in the order in which they are first wanted; it fails if and only if some entry is incomplete or does not parse, and the first such entry says which error it is |
| AddressMerge.MergeIsIdempotent | nc/instances_v2.go:84-132 | merging the same addresses into the result changes nothing |
| AddressMerge.MergeInParts | nc/instances_v2.go:84-132 | merging two lists one after the other is merging them together |

## Left out

- The generated SCP client, HTTP, OAuth, ConfigMap, Secret and YAML handling, charts and `main.go`: every endpoint is a call on the SCP state that the environment may fail. Of nc/scpcore/api.go only the two state enumerations are taken.
- The user ID (nc/cloud.go:124-167): a constant that is always known; a failed discovery looks like a failed call.
- The name and address filters SCP applies on its side (nc/cloud.go:174-176, 328, 361): listings here are unfiltered, and the code compares names and texts again itself.
- IP parsing and printing: an address has one canonical text and other spellings, and some texts are no address. An address is exactly one of IPv4 and IPv6; zones and 4-in-6 forms are not part of this model. An ingress entry is its IP text only.
- The IPv4 and IPv6 twins of the Go code (`getFailoverIPv4s` and `getFailoverIPv6s`, and the halves of `routeServerIP`) are one member each, with the family as a parameter. `ParseAddr` of a network prefix is that of an address.
- `PatchService` and `AddOrUpdateLabelsOnNode` are library code: the first applies the difference of two copies of a service, field by field, to the object on the server; the second is one label write that may fail. The status patch is not separate from the rest. Service label and annotation maps are modelled at the controller's own key only.
- Unchecked pointer dereferences: an absent value is the error `NilPointer`, which ends the call as a panic would end it; that a panic ends the whole process is not part of this model.
- The reset with an empty excluded node name (nc/labels.go:62) excludes nothing here, as no node has an empty name.
- Data races on the cache and the user ID, real time, the poll interval and logging. Polls of a task do not count as calls of the environment.
- The phases of `EnsureLoadBalancer` and the parts of `GetLoadBalancer` that are inline in the source are methods of their own here, and the two orders of the ready nodes are drawn at its beginning.
- Other clients of Kubernetes appear in the label protocol and between the calls of a confinement run, not within a single call.
- The provider identifier, instance type, region and labels of `InstanceMetadata`, `InstanceExists`, `GetLoadBalancerName`, and the sharing of the appended-to address slice with the node object.
- TaskWait.WaitForTask: requires that some round of the stream decides; a wait on a task that stays open forever with no cancellation never returns in the source, and such runs are not modelled, which is the restriction on `Env`.
- LoadBalancers.LoadBalancers.UpdateLoadBalancer: says nothing about the stored status, which the source discards.
- LabelProtocol.AtMostOneActive: speaks of a service name, because node labels do not carry the namespace; it is about one service only if names are unique across namespaces.
- Convergence.Converges: supposes that no other service of the same name is reconciled in between, for the same reason, and that the caller stores the status it is given.
- Waiting for a lock inside a method: `LockServer` returns with the lock, whoever held it; what other workers do with locks while a method runs is the subject of `LockProtocol`.
- RouteRuns.RouteIsARun: a PATCH that SCP accepted without a task ID is taken to have started a task; the environment of the stores is more permissive and may apply a PATCH, even late, whatever its answer.
- CacheLaws.CacheIsTransparent: supposes that all calls are answered and SCP is left alone, since forgetting the cache makes more calls, and the faults and changes would then fall on other ones; `CacheStaysTrue` covers all of them.
