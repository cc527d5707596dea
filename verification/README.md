# A verified model of the cluster control server

The repository runs a local test network behind a gRPC control service. Its
logic is in one server object that owns two pointers, `network` and
`clusterInfo`, under one mutex; in the network object behind the first pointer,
with three overlapping views of the nodes (the configuration list, the info map
and the library's live nodes); in the `start()` goroutine and the readiness
watcher that every Start spawns; and in the five channels that tie them
together. This project models that logic in Dafny and proves what the code
keeps over every run, what it promises, and exactly where it breaks its
promises.

## How the model is built

- `Registry.dfy` describes one cluster as a value: every change that
  `newNetwork`, `start`, `waitForHealthy`, `stop`, `RemoveNode` and
  `RestartNode` make to it, with every error exit and every panic. Its
  invariant `WellFormed` says that configurations, infos, live nodes, names,
  addresses and signals agree.
- `Lifecycle.dfy` is the whole server as a state machine. Each handler is split
  at its unlocked pre-check, its lock and its waits, and interleaves with the
  `start()` goroutines and the watchers of all clusters so far. A wait for
  health is split in two, seeing the library's answer and writing it down, so a
  removal can fall in between. A step that panics in the code makes the state
  carry that panic; nothing runs after it.
- `Runs.dfy`, `Health.dfy`, `Watchers.dfy`, `Replies.dfy`, `Effects.dfy`,
  `Stops.dfy`, `History.dfy`, `Reports.dfy`, `Panics.dfy` and `Reach.dfy` prove
  what holds over all runs of that machine, when Healthy lies and which cluster
  Health answers about, what each step changes, that the library is stopped once
  and for good, what a node's entry and address say of the past, when a step
  panics, clients under which none does, and runs that show the gaps are real.
- `Objects.dfy` has the same handlers as methods of classes that update fields,
  an array and a shared map object in place, with the aliasing the code has:
  the published cluster info holds the network's own info map, and RestartNode
  writes through a pointer into it. Each method is tied to `Registry`. The
  library object keeps a log of its calls and answers; every reply is tied to
  what was added to it.
- `Config.dfy` renders the node configuration files and reads them back,
  `Basics.dfy` has names, numerals and directories, `Uris.dfy` the sorted
  address list.
- `Stream.dfy` is the status stream end to end, with `Loops.dfy` holding its
  loops as methods; `Shutdown.dfy` is `Run` with its two servers, as steps and
  as a method.

The library's network is nondeterministic within its contract: RemoveNode of an
unknown node fails and changes nothing, any other failure may or may not drop
the node, AddNode adds the named node or nothing, GetAllNodes reports the live
nodes or fails, Healthy may end any way. Wall-clock timers and deadlines are
nondeterministic outcomes too.

## What the code does not keep

Each of these is a theorem about the code as it is, with a run that shows it and
the condition under which the code does keep its promise.

- `HealthyCanLie`: a watcher left over from a stopped cluster reads the
  server's pointers again (the TODO at server/server.go:226) and marks a new
  cluster healthy whose network has not even been created.
  `HealthyLiesExactlyWhen` gives the runs that end so: exactly those on which a
  watcher of an earlier cluster has published into the current one and no pass
  over that one has been written down. `PatientRunsAreTruthful` is what a client
  can do about it, whatever else it does at once: let no Stop get the lock
  before the current cluster says Healthy. `HealthIsTruthful` proves that in the
  server, comparing the watcher's network with the current one is enough.
- `HealthCanAnswerForAnother`: Health waits without the lock and then answers
  about whatever cluster is current, possibly one whose network has not even
  been created. `HealthAnswersAbout` proves that it answers about the cluster it
  has waited for if and only if no Stop finished in between.
- `StepsThatPanic`: which steps can bring the server down, and with what: a nil
  slot after a racing Stop, a nil library network right after Start, a nil info
  when a node is removed while a pass holds it, a restart request without its
  optional parts, a default configuration of more than five nodes; never a
  double close. `PanicsExactlyWhen` gives the condition for every step, and
  `DisciplinedRunsAreSafe` a client under which none is ever met.
- `StopCanMissTheFlag`: Stop clears Healthy of the cluster info its pre-check
  returned, which need not be that of the cluster it stops.
  `StopLowersTheRightFlag` proves that it is if and only if no other Stop
  finished between the pre-check and the lock.
- `ConfigFieldGoesStale`: RestartNode does not refresh `NodeInfo.Config`.
  `ConfigFieldAfterRestart` says over all runs exactly when the field is still
  the node's file.
- `QuotedSubnetsGetThrough`: the configuration template puts its arguments
  between quotes as they are, so a quote in the subnets of a Start or of a
  RestartNode request makes a file with one member more. `FilesReadBack` says
  over all runs that a node's file reads back as the settings asked for if and
  only if those need no escape. Even so the file tells level and subnets apart
  (`FileFixesSettings`) and cannot belong to two roots (`FileFixesRoot`).
- `ReceiverCanBeAbandoned`: a consumer that stops reading the status channel
  leaves the client's receive goroutine blocked for good.
  `ReceiverBlockedExactlyWhen` gives the condition.

## Model

| member | source | states |
|---|---|---|
| Basics.DecimalRoundTrip | server/network.go:72 | The numeral printed with %d reads back as the number it came from. |
| Basics.NodeNameReads | server/network.go:72 | The names are "node" and the numeral of the position, counted from one. |
| Basics.NodeNameInjective | server/network.go:71-77 | Different positions get different node names. |
| Basics.DirectoriesDistinct | server/network.go:73-74 | All 2n log and db directories of a cluster differ, under any root. |
| Basics.DirectoriesUnderRoot | server/network.go:73-74 | A node's directories are its own log and db-dir below the root, component by component, whatever the root is. |
| Config.UpperIs | server/network.go:95 | ToUpper turns each of the letters a to z into its capital and leaves all else. |
| Config.ReadObjectBack | server/network.go:81-99 | Reading what was rendered returns every member in order, for every non-empty list of members that need no escape. |
| Config.ConfigRoundTrip | server/network.go:81-99 | The reader recovers all fields of a configuration file if and only if no argument needs an escape in a JSON string (section 7 of RFC 8259). |
| Config.ConfigFields | server/network.go:81-104 | A file rendered for such arguments reads as having each of them under its own key, level, log directory, db directory and subnets, and nothing else there. |
| Config.ConfigFixedFields | server/network.go:81-94 | The other eight members are the same for every node, each once, and there are no more. |
| Config.ConfigInjective | server/network.go:81-99 | On such arguments, equal files mean equal level, directories and subnets. |
| Config.SubnetsAddAMember | server/network.go:81-99 | Off them it fails: subnets that hold the quotes for it render to a file that reads as the settings with one member more, any key and any text. |
| Config.FileFixesRoot | server/network.go:72-99 | For all strings, quotes or not: equal files of one level and one list of subnets have one root directory. |
| Config.FileFixesSettings | server/network.go:81-99 | Whatever two launches put into level and subnets, quotes included: with plain or equal directories their files are equal if and only if effective level, directories and subnets are. |
| Config.SameFileExactlyWhen | server/network.go:81-99 | For all strings, needing an escape or not, newNetwork and RestartNode write one file for a node if and only if the level is effectively INFO and the subnets are the same. |
| Config.RestartTemplateAgrees | server/server.go:449-466 | RestartNode's own copy of the template renders what a start at level INFO, or at the default level, renders. |
| Registry.NewNetworkWellFormed | server/network.go:52-139 | A new network satisfies the whole invariant; it has one info per configuration, whose Config is that entry's file. |
| Registry.NewNetworkKeepsDefaults | server/network.go:69-119 | Each entry of a new network is the library's default entry in everything but name, file and implementation; that runs the binary that was asked for, and the info says so, with the subnets that were asked for and no address yet. |
| Registry.UriReads | server/network.go:188 | Whatever the URL holds, a node's address starts with http://, the numeral after its last colon is the port, and what lies between is the URL. |
| Registry.UriInjective | server/network.go:188 | Two nodes have one address if and only if they have one URL and one port. |
| Registry.NamesEnumerate | server/network.go:70-76 | The name list lists the n node names once each. |
| Registry.InitialInfosAt | server/network.go:111-120 | No later node overwrites an earlier one's info. |
| Registry.RefreshKeeps | server/network.go:181-201 | Writing down the library's answer panics exactly when it holds a node without an info, never closes readyc twice, and otherwise keeps the invariant and changes nothing but addresses, clients and the ready signal. |
| Registry.StartMoveKeeps | server/network.go:141-158 | Every move of start() keeps the invariant and counts down; only writing down a stale answer panics, and no move closes donec or readyc twice. |
| Registry.StartCanMove | server/network.go:141-179 | start() has a move exactly until it has returned; it has one that needs neither the library nor the clock exactly when it has not returned, the library's network is there, and it is not waiting for health with stopc open: closing stopc is what frees it. |
| Registry.MovesAreNotStale | server/network.go:187-192 | A move panics if and only if the answer start() holds names a node whose info is gone. |
| Registry.StopStepsKeep | server/network.go:204-211 | Closing stopc panics exactly where it was closed before, which stopOnce guards; stopping the library panics exactly when it was never created, counts as one call of its Stop, and leaves live exactly the nodes the library left; both keep the invariant. |
| Registry.RemoveKeeps | server/server.go:394-408 | RemoveNode up to its wait: which exit is taken, that a failure leaves infos and names alone, and that success removes exactly that node from infos, names and live nodes. |
| Registry.FindConfig | server/server.go:431-440 | The search returns the first entry with that name, or the length. |
| Registry.RestartSearchSucceeds | server/server.go:431-443 | For a name with an info, exactly one entry has it, the search finds that one, and its type assertion succeeds. |
| Registry.RestartKeeps | server/server.go:426-479 | RestartNode up to AddNode: the second not-found exit and the unexpected-type exit are never taken; every exit leaves NodeConfigs, all other infos and all other live nodes alone, and of this node's info all but binary and subnets, and marks at most this node as out of step; it panics exactly on a request without its optional parts or before the library exists. |
| Registry.NodeAddedKeeps | server/server.go:481-485 | Adding the node back keeps the invariant and the pending restart. |
| Registry.CommitKeeps | server/server.go:444-473 | A successful restart changes one entry, and in it only ConfigFile and BinaryPath; the entry's directories stay, info and entry agree, and the node is in step again. |
| Lifecycle.StepKeeps | server/server.go:181-515 | Every step of every handler, goroutine and watcher keeps the invariant of the whole server; no step but start()'s moves its counter, and only Start, Stop and a watcher touch the pointers or a Healthy flag. |
| Lifecycle.StartKeeps | server/server.go:207-236 | Start's locked body, with both its refusals, keeps it. |
| Lifecycle.HealthKeeps | server/server.go:250-260 | Health's locked body keeps it and, unless the slot is empty, shows the current network's map with names that list it once each, in any map order. |
| Lifecycle.RemoveStepKeeps | server/server.go:391-410 | RemoveNode's locked body keeps it on every exit; when it goes on to wait it holds the lock, the node is gone from the infos, and what is left is published. |
| Lifecycle.RestartStepKeeps | server/server.go:423-479 | So does RestartNode's, up to AddNode. |
| Lifecycle.PassApplyKeeps | server/server.go:245-248 | A wait that holds the lock never panics on writing down its answer; Health's, which does not hold it, panics exactly when a node it saw has lost its info. |
| Lifecycle.StopBeginKeeps | server/server.go:506-509 | Stop's locked body panics at its start exactly when the slot is already empty. |
| Lifecycle.StopLibraryKeeps | server/network.go:206-207 | It panics on the library exactly when that was never created. |
| Lifecycle.WatchPublishKeeps | server/server.go:228-233 | The watcher's body keeps the published view in agreement with the network it publishes from, whichever that is. |
| Lifecycle.StarterKeeps | server/network.go:141-158 | start(), which never takes the lock, keeps the invariant whoever holds it. |
| Runs.RunSafety | server/server.go:181-515 | In every state of every run: no channel was closed twice; both pointers are nil together; at most one start() is unfinished, and none without a network; a start() that has returned has closed readyc or sent its error; one call at most is inside a locked body; every registry is well formed and what is published, root directory included, agrees with it. |
| Runs.StepFrame | server/network.go:28-50 | No step changes a cluster's root or its number of configurations, and only start()'s own moves change its counter, downwards. |
| Runs.InstallStep | server/server.go:207-220 | A step installs a network only into an empty slot, and only a finishing Stop empties it. |
| Runs.InstallsMatchStops | server/server.go:210-220 | Over every run, however many Starts race, the networks ever installed are the Stops that finished plus the current one. |
| Runs.StartReturns | server/network.go:141-158 | Whatever else runs, start() makes at most five moves, and donec is closed exactly when it has none left. |
| Runs.HolderCanGoOn | server/network.go:166-179 | While the lock is held there is always a step that brings its holder nearer to releasing it and that comes about by itself: a library call returns, a deadline passes, or, when Stop waits for donec, start() makes a move that nothing holds up, which is its wake-up on stopc if it was waiting for health. |
| Runs.LockedWaitsAreNotAborted | server/network.go:170-172 | A wait under the lock is never cut short by stopc, as closing that takes the lock; only Health's can be. |
| Runs.DrivingCountsDown | server/network.go:204-210 | Every step of the holder, or of the start() it waits for, counts down from at most six. |
| Runs.OthersKeepTheHolder | server/server.go:391-508 | No other step takes the lock from its holder or sets the count back. |
| Runs.LockIsReleased | server/server.go:499-515 | On every run, once as many of those steps have been taken as the count said, six at most, the call that held the lock has let go of it or the server has panicked: Stop does not deadlock under the lock. |
| Health.HealthyStep | server/server.go:220-235 | Only a watcher raises a Healthy flag, the current cluster's; only a finishing Stop lowers one, that of the info its pre-check returned; a network that is not current never is again. |
| Health.HealthyStays | server/server.go:232 | Over every run, a raised flag stays up as long as its cluster is current, so it rises at most once. |
| Health.EveryStopRuns | server/server.go:499-515 | In every run, a Stop that can finish has arrived, waited for its lock and stopped as the next two rows suppose. |
| Health.StopStops | server/server.go:501-509 | Over every run, a Stop stops the cluster its pre-check saw moved on by one for every other Stop that finishes before it gets the lock. |
| Health.StopLowersTheRightFlag | server/server.go:509-512 | Over every run, a Stop leaves the flag of the cluster it stops up if and only if it was up and another Stop finished between this one's pre-check and its lock. |
| Health.TruthfulStep | server/server.go:225-232 | Only a watcher can make Healthy a lie, and it does so if and only if the current network is not ready; a watcher of the current network never does. |
| Health.HealthIsTruthful | server/server.go:220-235 | On every run whose watchers publish only for the network they selected on, Healthy implies that readyc is closed and that every node of the last pass still known shows an address that reads back as the URL and port the library gave, its identity and its client. |
| Watchers.ReadyStep | server/network.go:196-200 | A network's readyc is closed exactly by writing down a pass over it, start()'s or a call's. |
| Watchers.FlagStep | server/server.go:229-232 | While a cluster is current or still to come, its flag changes exactly by a publication into it. |
| Watchers.HealthyLiesExactlyWhen | server/server.go:220-235 | Over all runs: the current cluster says Healthy and its network is not ready if and only if a watcher of an earlier cluster has published into it and no pass over it has been written down. |
| Watchers.WatcherBlockedExactlyWhen | server/server.go:222-228 | A watcher at its select is blocked exactly while the server is open and the network it looks at is neither stopped nor ready, so it can always leave once that cluster is over. |
| Watchers.AttachedStep | server/server.go:221-235 | When no Stop gets the lock before Healthy, every step keeps each remaining watcher on the current cluster, and no watcher meets an empty slot. |
| Watchers.PatientRunsAreTruthful | server/server.go:220-235 | On every run, however its calls overlap, on which no Stop gets the lock before the current cluster says Healthy, Healthy is never a lie and whatever watcher is left watches and will publish for the current cluster. |
| Replies.EveryHealthRuns | server/server.go:239-261 | In every run, a Health that can answer has looked at the slot and waited as the next row supposes. |
| Replies.HealthAnswersAbout | server/server.go:245-260 | Over every run: the cluster that Health waited for is ready when it answers; the answer is about that cluster moved on by one for every Stop that finished in between, hence about itself if and only if none did. |
| Health.SyncedStep | server/server.go:475-485 | A step in which no library call fails keeps live nodes and infos the same names, but for the node a restart is about to add back. |
| Health.LiveInfosConfigs | server/network.go:187-192 | In every run live nodes have infos and infos have configurations; the first two are equal on every run without a failed library call, whenever the lock is free. |
| Stops.LibraryStep | server/network.go:204-211 | Which steps call the library's Stop, and which may change its live nodes: RemoveNode, RestartNode, Stop and start()'s creation, the first three on the current network alone. |
| Stops.EveryLibraryIsStopped | server/network.go:204-211 | Over all runs: the library of every network that is not current has been stopped, exactly once, with stopc closed before; that of the current one has not, unless a Stop holds the lock and waits for start() to return. |
| Stops.StoppedForGood | server/network.go:207 | Over all runs: the nodes that the library's Stop left are exactly those of the cluster that live in any later state, whatever is called. |
| Reports.AddressStep | server/network.go:187-196 | Only writing down an answer changes an address, an identity or a client, and then to those of the answer. |
| Reports.AddressesOverRuns | server/network.go:187-196 | In every run each node's info shows, and its address reads back as, URL, port and identity of the node in the last written-down answer that names it, with its client; an info that no answer has named shows none. |
| Reports.UrisOverRuns | server/server.go:263-275 | In every run each element of URIs' answer reads back as the URL and port last reported of a node with an info, or is the empty address of one not reported yet; no reported node with an info is missing. |
| Effects.SettingsStep | server/server.go:446-494 | A restart that passes its lookups marks its node as out of step; only the end of a successful one changes a configuration, that node's alone, to the one it carries, which differs in file and binary path only, makes info and entry agree and unmarks the node; no other step touches configurations or marks; no step adds an info or changes the Config field of one. |
| Effects.SettingsSurvive | server/server.go:444-473 | Over any run a network keeps its root, its number of configurations and, in each, everything but the file and the binary path. |
| Effects.DirectoriesSurvive | server/network.go:72-79 | In every run each node's directories, in its info and inside its current configuration file, are those newNetwork assigned, and a node that is in step has the same binary and subnets in both. |
| History.RememberStep | server/server.go:444-493 | Every step keeps true what is remembered of the past: each entry is made from the default that Start read and what was last asked for, each Config field is the launch's, and a restart in its body carries the file and binary its request asked for. |
| History.FilesOverRuns | server/server.go:449-472 | In every run each node's configuration file and binary are, to the letter, those that the node's last committed restart asked for or, before any, the launch; all else in its entry is as in the default configuration that its Start read, but for name, writer and colour; its Config field stays the launch's for ever. |
| History.ConfigFieldAfterRestart | server/server.go:446-493 | In every run and for all settings, NodeInfo.Config is the node's configuration file if and only if no restart of the node has been committed, or the launch was effectively at level INFO and the last restart asked for the launch's subnets. |
| History.FilesReadBack | server/network.go:81-99 | In every run each node's configuration file reads back as the settings that its last committed restart or else its launch asked for if and only if these need no escape; so does its Config field for the launch. |
| Effects.PublishStep | server/server.go:228-258 | Which steps publish and what: Health, a removal and a watcher show the current network's freshly listed names and its own map, a finished restart the map only, and no other step changes what is shown. |
| Panics.PanicsExactlyWhen | server/server.go:239-515 | For every step, the exact condition under which it panics; no step closes a channel twice. |
| Panics.CalmStep | server/server.go:239-515 | One step of a disciplined client: it does not panic and keeps what the discipline relies on. |
| Panics.DisciplinedRunsAreSafe | server/server.go:181-515 | With one call at a time, nothing but Start until the cluster says Healthy, complete restart requests and at most five nodes, no run panics, Healthy is never a lie, and Stop lowers the flag of the cluster it stops. |
| Reach.HealthyCanLie | server/server.go:226 | For every launch, a run ends with a cluster marked healthy whose network is that launch's new network, not even created. |
| Reach.HealthCanAnswerForAnother | server/server.go:246-260 | For every launch, a run on which a Health that has waited for the cluster before it answers about that launch's new network, not even created. |
| Reach.StopCanMissTheFlag | server/server.go:501-512 | A run on which a Stop leaves the flag of the cluster it stops up. |
| Reach.ConfigFieldGoesStale | server/server.go:449-493 | For every launch and every restart's subnets, a run after which the Config field is the launch's file and the configuration file the restart's. |
| Reach.QuotedSubnetsGetThrough | server/server.go:449-466 | For every plain root, level, key and texts: a run with a launch, and one with a restart, whose quoted subnets make the node's file read as one member more. |
| Reach.NilNetworkHappens | server/server.go:225-506 | A run on which each of these meets an empty slot: RemoveNode, RestartNode and Stop past their pre-check, Health before and after its wait, the watcher when it looks and when it publishes. |
| Reach.NilLibraryHappens | server/server.go:246-506 | A run on which each of Health, RemoveNode, RestartNode and Stop comes before the library's network exists. |
| Reach.NilEntryHappens | server/network.go:191 | Runs to a state in which Health's pass, or that of start(), goes well as the next step and panics when a RemoveNode comes just before it. |
| Reach.NilRequestHappens | server/server.go:447-448 | For every restart request without its start request or without subnets, a run on which it panics. |
| Reach.IndexRangeHappens | server/network.go:101 | For every launch and every default configuration with more nodes than colours, a run on which Start panics on it. |
| Reach.StepsThatPanic | server/server.go:181-515 | For every kind of step and every panic: some run leads to such a step raising it if and only if the table Raises has the pair. |
| Reach.PanicsThatHappen | server/server.go:181-515 | Exactly the panics other than a double close are reachable. |
| Uris.SortedUnique | server/server.go:273 | Two sorted lists with the same contents are equal. |
| Uris.LeqIs | server/server.go:273 | The order that is sorted by is Go's: by the codes at the first difference, a prefix first. |
| Uris.SortSorts | server/server.go:273 | The sort sorts, in Go's order on strings. |
| Uris.AnyOrder | server/server.go:269-272 | Every iteration order of the map collects the same addresses, each as often as it occurs. |
| Uris.AnswerHolds | server/server.go:269-274 | The answer lists the addresses of the infos, each of them and no other. |
| Uris.UriListUnique | server/server.go:263-275 | The infos determine URIs' answer. |
| Uris.AnyOrderSorts | server/server.go:269-274 | Every iteration order gives that answer. |
| Uris.RemoveDropsOneUri | server/server.go:385-415 | With stable node addresses, a successful RemoveNode takes exactly that node's address out of the answer. |
| Objects.InfoMap.Names | server/server.go:254-256 | The loop over the map lists every key once, in some order. |
| Objects.LocalNetwork.FillAll | server/network.go:68-121 | newNetwork's loop fills names, array and map as specified, and fails exactly when there are more nodes than colours. |
| Objects.LocalNetwork.New | server/network.go:52-139 | newNetwork returns a fresh, valid object whose value is the specified new network; in its fields each entry is the default but for name, file and implementation, and binary and subnets are the request's. |
| Objects.LocalNetwork.Report | server/network.go:187-196 | The loop writes every reported address and identity through the info pointers, where it reads back as URL and port of the node, and every client into apiClis; it meets a nil info exactly when one is missing. |
| Objects.LocalNetwork.WaitForHealthy | server/network.go:164-202 | It passes if and only if what it added to the library's log is the answer that it is healthy and then its nodes, which it writes down as the specified refresh; it fails only on a failure in the log, on the deadline or on stopc, and then changes nothing; it panics exactly without a library. |
| Objects.LocalNetwork.StartStep | server/network.go:141-158 | Each move of start() on the object is a specified move; it creates the library's network from the entries, goes on only with what a healthy library answered, and gives up only on a failure in the log, the deadline or stopc. |
| Objects.LocalNetwork.Stop | server/network.go:204-211 | stop() calls the library's Stop once, which leaves live exactly the nodes it says, and returns with stopc and donec closed and nothing else changed but addresses; or panics exactly without a library or on a stale answer; a second call does nothing. |
| Objects.LocalNetwork.Find | server/server.go:431-440 | The loop over the array finds what the specified search finds. |
| Objects.LocalNetwork.Remove | server/server.go:398-405 | The library call, which is in its log, the deletion and the new name list are the specified locked body. |
| Objects.LocalNetwork.BeginRestart | server/server.go:426-479 | The writes through the info pointer, the search and the library call are the specified locked body, on every exit. |
| Objects.LocalNetwork.Commit | server/server.go:493 | One array element changes. |
| Objects.LocalNetwork.Restart | server/server.go:426-493 | RestartNode's body: its exits, what a failure leaves, and what success makes of the one entry and the info; all other entries, infos and live nodes stay, but for the addresses that a completed wait fills in. The library's log shows why it came out so, and that the configuration it was asked to add is the node's entry with the request's binary and file. |
| Objects.Server.Start | server/server.go:181-237 | Which of its four refusals Start makes and when, none of which moves a pointer; otherwise it installs the specified new network, whose entries and infos are the defaults and the request's as for New, with a fresh info that is not healthy, or panics exactly on too many nodes. |
| Objects.Server.Health | server/server.go:239-261 | Health refreshes, then publishes the network's own map and names; it replies only with what a healthy library answered, and refuses, changing nothing, only on a failure in the library's log or on the deadline. |
| Objects.Server.RemoveNode | server/server.go:385-415 | RemoveNode's exits and, for each, the new state: after a removal the published map is the network's own and lacks the node, also when the wait then fails; LibraryError exactly after the library's RemoveNode answered an error, NotHealthy only after such a wait. |
| Objects.Server.RestartNode | server/server.go:417-497 | RestartNode's exits and, for each, the new state, with the other nodes as above; success publishes the map but not the names; LibraryError only after RemoveNode or AddNode answered an error, NotHealthy only after such a wait. |
| Objects.Server.Stop | server/server.go:499-515 | Stop empties both pointers after donec is closed and lowers the flag of the info it returns; the library's Stop has been called once and has ended its nodes. |
| Objects.Server.Ready | server/server.go:228-233 | The watcher's body publishes names, map and flag of the current cluster. |
| Objects.Server.URIs | server/server.go:263-275 | URIs answers the sorted addresses of the published infos, or nothing before Start; that of a node in the last pass reads back as the URL and port the library gave. |
| Stream.StepConserves | server/server.go:338-357 | Every step keeps what was read, buffered, held and in flight equal, in this order, to what was sent. |
| Stream.Conservation | client/client.go:134-169 | Over every run that equality holds, the consumer sees a prefix of what sendLoop sent, and the channel holds at most one. |
| Stream.ChannelClosedOnce | client/client.go:136-139 | The client's channel is closed once, when its goroutine ends, and never sent to afterwards, however often the client is closed. |
| Stream.HandlerResult | server/server.go:316-329 | StreamStatus has returned only if sendLoop has; its error is never context.Canceled; the post to errc never blocks. |
| Stream.NoSendAfterReturn | server/server.go:328-329 | Nothing is sent after StreamStatus has returned, however the run goes on. |
| Stream.StreamStatusReturns | server/server.go:316-329 | From the moment the stream's context is done, on every run: StreamStatus and its send loop take at most four more steps, after which it has returned, and until it has, one of them is possible without anybody's help. |
| Stream.AnswerComesFrom | server/server.go:303-326 | The answer is the stream context's error or what ended recvLoop: ErrStatusCanceled if that is context.Canceled, and that error itself in every other case, a deadline, the closed server or the transport's; it is nil only after the client's end of file. |
| Stream.BranchIsAnswered | server/server.go:316-329 | On every run StreamStatus returns what its select took in either branch, with that one error replaced. |
| Stream.ReceiverBlockedExactlyWhen | client/client.go:152-156 | The client's goroutine is blocked if and only if it has returned or holds a snapshot for a full channel. |
| Stream.AbandonedReceiverStays | client/client.go:134-169 | If the consumer never reads again, a goroutine so blocked stays blocked on every run and its channel stays open, whatever is canceled or closed. |
| Stream.ReceiverCanBeAbandoned | client/client.go:144-157 | For all snapshots x and y there is a run on which both are received and neither read, after which the goroutine has no step and keeps none on any run without a read. |
| Loops.StatusStream.SendLoop | server/server.go:332-358 | sendLoop sends the snapshots of its ticks in order, up to the first failure or the server's end, and none once the stream's context is done; it counts the wait group down when it returns. |
| Loops.StatusStream.RecvLoop | server/server.go:360-383 | recvLoop ends with the first answer that is not a message, and at once, with the root's error or with ErrClosed, when the root is done or the server closed. |
| Loops.StatusStream.StreamStatus | server/server.go:284-330 | StreamStatus as written, with its two waits, whatever the other goroutines, the contexts and the client do meanwhile: it returns with sendLoop ended, by a run of the steps, and answers with the stream context's error or with what ended recvLoop, context.Canceled replaced and every other error unchanged. |
| Loops.StatusStream.Receive | client/client.go:134-169 | The client's loop moves what is in flight to the consumer in order and closes the channel when it ends, which it does at once when its context is done or the client closed. |
| Loops.StatusStream.Close | client/client.go:197-202 | Close closes once, however often it is called. |
| Shutdown.StepKeeps | server/server.go:103-165 | Every step of Run and its servers keeps one send and one receive per error channel. |
| Shutdown.RunDrains | server/server.go:139-165 | Whichever branch fires, when Run has returned each error channel had exactly one send and one receive, both goroutines have returned, closed is closed, once, and every server but one that has failed has been told to end. |
| Shutdown.ListensAfterRegistering | server/server.go:113-136 | On every run the gateway listens only once it has dialed the gRPC server and registered both services. |
| Shutdown.ResultComesFrom | server/server.go:139-165 | The result is nil after a root cancellation and otherwise the error of the server whose branch fired. |
| Shutdown.RunsAreBounded | server/server.go:103-165 | Every run has at most fourteen steps. |
| Shutdown.NeverStuck | server/server.go:139-160 | Once a branch has fired, some step is always possible until Run returns. |
| Shutdown.MaximalRunsReturn | server/server.go:139-165 | A run that can go no further by itself after a branch has fired has returned. |
| Shutdown.Runner.Run | server/server.go:96-166 | Run as written, whatever its goroutines do meanwhile, returns with both channels drained and closed closed, by a run of the steps. |

## Left out

- Generated protobuf, gRPC and gateway code, the command line, colouring, logging, random names, Ping and the option helpers: they hold no state of the cluster.
- Select in the watcher: its two reads of `s.network` (server/server.go:225 and 228) are one step, so a Stop or a Start between them is not modelled.
- Fairness: that a step which comes about by itself is taken at last; `LockIsReleased` counts the steps that are taken.
- Real processes, sockets, files, temporary directories, timers and tickers: they are nondeterministic outcomes or parameters; a positive push interval is taken for granted.
- isClientCanceled: it only chooses a log level.
- Data races in Go's memory model: a field read or written without the lock is one atomic step. waitForHealthy's write-down of an answer is one step, though its view of the library is taken in an earlier one.
- The check that a cluster is there before StreamStatus spawns its goroutines: `StatusStream` begins after it.
- Status and the answers' contents: an answer holds the published info by reference, and its marshalling while the map changes is not modelled; URIs is a method of `Objects` and has no step in `Lifecycle`.
- The library's internals: it is known by its contract only, and its Stop returns.
- errc of start(): nothing in the code receives from it, so only that the one send fits, and that a start() that is not ready has made it, is stated.
- filepath.Join's cleaning of a root that is not clean, upper-casing outside a to z, and newNetwork's remaining configuration fields, which are copied as one opaque value.
- sort.Strings: modelled as an insertion sort; what is proved, that the result is sorted and keeps the contents, determines the answer of any correct sort.
- Objects.LocalNetwork.WaitForHealthy: whether the deadline comes before the library's answer is a parameter; of the library's errors only that they are errors is modelled.
- Objects.Server.Health: as the other handlers of `Objects`, it runs without interleaving; the interleavings are in `Lifecycle`. Only stop() lets start() move meanwhile.
- Loops.StatusStream.SendLoop: it ends after the ticks it is given, as do RecvLoop and Receive after their inputs; the steps of the other goroutines in between are in `Stream`.
- Loops.StatusStream.StreamStatus: how long the others go on before the stream's context is done or a send fails is a parameter; that both come at last is taken for granted. That Send fails on a stream whose context is done is gRPC's contract.
- Shutdown.NeverStuck: assumes that Serve returns after Stop, ListenAndServe after Close, and that dialing and registration end; Run before a branch has fired may wait for ever.
- The client's constructor and its plain calls, and the server's constructor with its port checks: no state of interest.
