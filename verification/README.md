# Verification of the machined core

`machined` is the first process of the system. It supervises services, publishes a stream of events, drains its
controllers on shutdown, and reconciles the kernel's routes and addresses with specs. This project models the parts of it
in which several goroutines, a stale snapshot or a ring buffer make the outcome hard to see, and proves what these parts
promise. `dafny verify dfyconfig.toml` checks everything.

## How the model is built

Concurrent protocols are labelled state machines. A step function says what one atomic section does -- the code between
two lock, channel or blocking operations -- and is `None` where it is blocked. A run is any sequence of labels, so every
interleaving is covered; timers, tickers, failures of calls and the results of children are labels or parameters. The
main results quantify over all runs (`Common.Exec`). Where the code is an object with methods, a class has the same
fields, and the contract of each method says which step of the machine, or which function of the old state, it is. What the
machines and the methods share -- when a service is up, which option lists are accepted, which routes and addresses are
as wanted, which terminal state a run has earned -- is tied to the fields and inputs by theorems that do not mention it.

| file | source | content |
|---|---|---|
| `Common.dfy` | | runs of a machine, invariants |
| `Restart.dfy` | `process.go`, `restart.go` | one child under SIGTERM, SIGKILL and the three restart policies |
| `ServiceRun.dfy`, `RunHistory.dfy` | `service_runner.go` | one run of one service with its runner goroutine, and the language of its history |
| `RunEnds.dfy` | `service_runner.go` | measures by which some enabled step always brings a run closer to its end, for cancelled runs and for live ones that are not endless |
| `Supervisor.dfy`, `ServicesTable.dfy` | `system.go` | the table of services as a machine, and the object with its two maps |
| `Shutdown.dfy`, `Untidy.dfy` | `system.go` | when the wait of `Shutdown` can be trusted: the exact condition, claim by claim |
| `ShutdownExact.dfy`, `ShutdownReturns.dfy` | `system.go`, `service_runner.go` | continuations of arbitrary runs; when `Shutdown` can return, and how it can wait for good |
| `Subscriptions.dfy`, `ServiceRunners.dfy` | `service_runner.go`, `status.go` | the critical sections of the runner and of the health state |
| `Wakeups.dfy`, `WaitSound.dfy` | the same, `service_events.go` | notifications over one-slot channels; `Wait` |
| `EventStream.dfy`, `Watch.dfy` | `v1alpha1_events.go`, `runtime/events.go` | the ring, start positions, any number of watchers |
| `ServiceTable.dfy` | `controllers/v1alpha1/service.go` | the Service resources as a view of the stream |
| `Drainer.dfy` | `drainer.go` | the shutdown barrier |
| `History.dfy` | `system/events/events.go` | the bounded history of a service |
| `RouteKey.dfy`, `RouteSync.dfy` | `network.go`, `route.go`, `route_spec.go` | ids and their parser, canonical specs, the route pass |
| `AddressSync.dfy`, `Broadcast.dfy` | `address_spec.go` | the address pass, broadcast addresses |

## What is false of the code

- The wait of `Shutdown` may return while a child is alive. `delete(s.running, id)` comes before the terminal
  `UpdateState`, so a service can be claimed again while the goroutine of its previous run has yet to store its terminal
  state, or to tell its waiters; that state or that token then passes for the new run. Call a claim tidy if every
  goroutine of its id has exited. Tidiness is the exact condition, claim by claim (`Untidy.TidinessIsExact`): if all claims
  are tidy `Shutdown` is safe (`Shutdown.ShutdownIsSafe`), and from every untidy claim, whatever the other
  services are doing, tidy steps lead to a `Shutdown` that returns with the child of the claimed service alive
  (`Untidy.UntidyClaimIsUnsafe`; `Untidy.StaleTerminalState` reaches such a claim for any id). Services that are
  started at most once have tidy claims only (`Shutdown.OnceIsTidy`).
- `Shutdown` may wait for good. A service that is loaded and never started is never down
  (`Shutdown.ShutdownNeedsEveryServiceStarted`). And the stop token of a restarted service can be taken by the listener of an
  earlier run of it, whose ctx is done but which has yet to look: its select has both cases ready
  (`ShutdownReturns.StolenToken` builds a tidy run of this kind for any id, `ShutdownReturns.StuckForever` shows that
  nothing but another token helps). A run that has missed its token keeps `Shutdown` waiting only if it does not end by
  itself: if it is live, from its select on, and under `Forever` or with a health check. These two are the exact
  condition, after every tidy run and at any time of the wait: `Shutdown` can return, with no token but its own, if and only
  if every loaded service was started and no endless run has missed its token (`ShutdownReturns.ReturnIsExact`).
- With a runtime, the terminal `UpdateState` of `Start` hands its nil ctx to `Publish`, which calls a method of it
  (system.go:142-150, v1alpha1_events.go:211): the goroutine panics after it has stored the state and before it tells the
  waiters. The step from `Store` over `Tell` of the machine is that of a runner without a runtime, or of a
  `Publish` that accepts a nil ctx.
- `NewEvents` accepts gaps of 0 and below. A watcher of all available events of a full ring is then stopped by its first look,
  and only then (`Watch.NoGapStopsAtOnce`). A cancelled watcher that sleeps stays until the next publish
  (`Watch.OnlyPublishWakes`).
- `NewEvents` also accepts a capacity of 0 with a negative gap: the first publish divides by it (`EventStream.Events.Publish`).
- The searches for an id are exact if and only if the available events are in the order of their ids
  (`EventStream.ExactIffAscending`; two events out of order mislead the search for the id of the later one,
  `EventStream.InversionMisleads`). The searches for a duration look at the seconds of the ids only, and are exact if and
  only if these are in order (`EventStream.DurationsExactIffSecondsAscend`). Ids are made before the lock is taken, so
  publishers can break either order.
- `WithTailDuration` is documented to include the cut-off; the code compares with a strict `After`. With seconds in order it
  starts where it is documented to if and only if no available event lies on the cut-off
  (`EventStream.DocumentedIffNoneOnCutOff`, with an instance in `EventStream.CutOffIsLeftOut`).
- IPv6 route specs that differ only in their link match the same kernel routes (`RouteSync.LinkIsNotInTheKey`), so
  convergence of the route pass is proved for the IPv4 resources of a pass; IPv6 ones may stand beside them.
- The tear-down of an address deletes nothing (`AddressSync.TearDownDeletesNothing`), and its finalizer is removed first.
- On a kernel without the IFA_FLAGS attribute, an address with a managed flag above the low 8 bits never conforms
  (`AddressSync.EchoIsMine` has the exact condition).

## Assumptions

- Routes: a call to the kernel may fail; if it succeeds, `Delete` removes that route and `Add` adds one that echoes the
  request, with an output interface of the kernel's choice if none was asked for, and any unmanaged flags
  (`RouteSync.Echoes`). Addresses: the same, an old kernel takes the flags from the header, entries are unique per link and prefix, links count from 1, and EEXIST is
  returned for a prefix that the link has. The masks of `RouteFlags.Equal` and `AddressFlags.Managed` are unspecified constants.
- The ids of route resources are the `RouteID` of their specs. The names of tables and families are those of `nethelpers`,
  whose generated `String` methods are not part of this model; the text of an IPv6 address, which `net/netip` makes, is
  a field of the address.
- The health pointer of a published event is always set, as `AsProto` does. An event payload is a datatype, not JSON; an xid
  is a number whose upper bits are its seconds, and no event has the nil id.
- Conditions, callbacks of services and children may take any time. That they return at all is assumed only where a
  result says that something can be reached (`RunEnds`, `ShutdownReturns`).

## Model

| member | source | states |
|---|---|---|
| `Restart.ChildFollowsPc` | internal/app/machined/pkg/system/runner/process/process.go:79-131 | after any observations, the acts recorded so far leave the child exactly where the program counter says: none, alive, signalled, expired or killed; no act is ever out of order |
| `Restart.OneChild` | internal/app/machined/pkg/system/runner/process/process.go:97-131 | over any sequence of child outcomes and cancellations: at most one child at any time, a start only when every earlier child was reaped, SIGKILL only after SIGTERM to the same child and the end of its grace period |
| `Restart.GoodCounts` | internal/app/machined/pkg/system/runner/process/process.go:83-131 | an orderly sequence of acts has as many reaps as starts, but for the one child that is there |
| `Restart.PolicyHolds` | internal/app/machined/pkg/system/runner/restart/restart.go:115-130 | Once makes one run and returns its result; UntilSuccess goes on only after failures; what a policy has returned agrees with the results of the runs in order |
| `Restart.LiveReturn` | internal/app/machined/pkg/system/runner/restart/restart.go:111-130 | while ctx is live: no SIGTERM and no SIGKILL is sent, Forever never returns, the others return the result of the last run, UntilSuccess only a success |
| `Restart.ReturnValue` | internal/app/machined/pkg/system/runner/restart/restart.go:101-140 | what Run returns is the result of the last run of the wrapped runner, except that a cancellation in the restart interval returns success, whatever that run had come to |
| `Restart.ActsInOrder` | internal/app/machined/pkg/system/runner/process/process.go:79-131 | which act may follow which, over any observations: every start is reported as Running, every end but the last as Waiting, every signal announced as Stopping and, if it failed, reported once more |
| `Restart.ActsAreCalledFor` | internal/app/machined/pkg/system/runner/process/process.go:79-131 | every act was called for by what had been observed: only an exit that was seen is reaped, nothing is signalled without a cancellation, nothing is killed before the timer of the grace period, nothing restarted before that of the interval |
| `Restart.CancelledRunnerStops` | internal/app/machined/pkg/system/runner/restart/restart.go:111-138 | once cancelled, at most one more child is started, and the runner returns within 16 steps of which none waits for a child that does not exit |
| `Restart.Restarter.Run` | internal/app/machined/pkg/system/runner/restart/restart.go:101-140 | the restart loop does what the step machine does for the same observations, to the point at which it returns |
| `Restart.Restarter.Pause` | internal/app/machined/pkg/system/runner/restart/restart.go:132-138 | the select on cancellation and restart interval, as a stretch of the machine |
| `Restart.Restarter.ProcessRun` | internal/app/machined/pkg/system/runner/process/process.go:60-132 | the process runner does what the machine does up to the first select, with the Running report between start and wait |
| `Restart.Restarter.Terminate` | internal/app/machined/pkg/system/runner/process/process.go:103-125 | after a cancellation: the Stopping report, SIGTERM, and a failed signal only reported |
| `Restart.Restarter.Escalate` | internal/app/machined/pkg/system/runner/process/process.go:118-131 | after the grace period: SIGKILL, then the exit is always waited for |
| `ServiceRun.RunInvStep` | internal/app/machined/pkg/system/service_runner.go:229-298 | every step of a run keeps: run has not returned before its runner did, and what the runner recorded is an orderly life of children |
| `ServiceRun.PostStage` | internal/app/machined/pkg/system/service_runner.go:206-226 | the post stage is passed exactly by the runs that could ask for their runner, also if there is none or it cannot be opened |
| `ServiceRun.OverIsQuiet` | internal/app/machined/pkg/system/service_runner.go:288-297 | a run past its return has reaped every child it started |
| `ServiceRun.OverIsStable` | internal/app/machined/pkg/system/service_runner.go:211-227 | a run past its return never starts anything again, whatever steps follow |
| `RunHistory.HistoryOfEveryRun` | internal/app/machined/pkg/system/service_runner.go:156-298 | the states recorded by any run form Starting Waiting* Preparing{0,2} (Running or Waiting)* Stopping* terminal*, with a Running in the loop only first or after a Waiting; no terminal state is recorded before run has returned, and one is once the terminal state is stored; health entries only while the latest state is Running |
| `RunHistory.TerminalStateOfEveryRun` | internal/app/machined/pkg/system/system.go:140-151 | the terminal state of every run, latest in its history, is the one that the end of the run calls for: Skipped exactly without a runner; Finished if a stage was interrupted, if run was cancelled before the result of the runner was received, or if that was a success; Failed for a stage, a runner or an Open that failed, and for a failed last result |
| `RunHistory.NoRunnerEventAfterRun` | internal/app/machined/pkg/system/service_runner.go:243-253 | no event of the runner follows the return of run |
| `RunEnds.NextIsCloser` | internal/app/machined/pkg/system/service_runner.go:156-298 | a run that has not ended always has an enabled step that brings it closer to its end; only the cancellation, the exit of the child and the end of a condition or callback come from outside |
| `Supervisor.LoadKeeps` | internal/app/machined/pkg/system/system.go:66-90 | Load never replaces a runner, and new ones start as Initialized without a stop token |
| `Supervisor.LoadMakes` | internal/app/machined/pkg/system/system.go:76-87 | a new runner is that of the first service of its id, with its policy and its health check |
| `Supervisor.RunnersApart` | internal/app/machined/pkg/system/system.go:76-87 | in every reachable state the runners of different ids are different |
| `Supervisor.LoadKeys` | internal/app/machined/pkg/system/system.go:77-87 | after Load, exactly what was loaded or asked for is loaded |
| `Supervisor.MutualExclusion` | internal/app/machined/pkg/system/system.go:103-157 | in every reachable state at most one goroutine per id lies between claim and removal; an id is in running exactly if Start has just claimed it or such a goroutine exists; the wait group counts the goroutines before Done |
| `Supervisor.NeverReplaced` | internal/app/machined/pkg/system/system.go:80-86 | no step ever replaces a runner in the table, or changes its policy or health check |
| `Supervisor.CancelledBy` | internal/app/machined/pkg/system/service_runner.go:156-167 | the ctx of a run is done by its return or by its listener, which takes the stop token and is gone then, and by nothing else |
| `Supervisor.FrozenAfterDeny` | internal/app/machined/pkg/system/system.go:70-72 | once terminating or denyNewServices is set, over any further run neither map gains a key and no goroutine is spawned |
| `ServicesTable.PicksAreFree` | internal/app/machined/pkg/system/system.go:103-121 | Start claims only loaded services; if no goroutine ends meanwhile, its claims are distinct and are exactly the ids asked for that are loaded and not running |
| `ServicesTable.Services.Load` | internal/app/machined/pkg/system/system.go:66-90 | Load is the Load step of the machine, and returns the ids of all services asked for, or none once closed |
| `ServicesTable.Services.Claim` | internal/app/machined/pkg/system/system.go:104-121 | the check and claim of one id is the claim step of the machine; undefined and running ids change nothing |
| `ServicesTable.Services.Spawn` | internal/app/machined/pkg/system/system.go:123-126 | wg.Add and the go statement are the spawn step of the machine |
| `ServicesTable.Services.Start` | internal/app/machined/pkg/system/system.go:95-159 | the loop of Start claims what its specification picks, adds one to the wait group per claim, reports undefined ids, and does nothing once closed |
| `ServicesTable.Services.DenyNewServices` | internal/app/machined/pkg/system/system.go:259-264 | is the deny step of the machine |
| `ServicesTable.Services.ServicesToStop` | internal/app/machined/pkg/system/system.go:191-208 | selects every service for no list, else exactly the loaded ones of the list |
| `ServicesTable.Services.Shutdown` | internal/app/machined/pkg/system/system.go:162-173 | sets terminating and goes on to stop what the machine then waits for; a second call does nothing |
| `ServicesTable.Services.Stop` | internal/app/machined/pkg/system/system.go:176-189 | nothing for no ids or once terminating; else a stop token for each loaded one of the ids and for no other, and exactly these are waited for |
| `ServicesTable.Services.SendToken` | internal/app/machined/pkg/system/service_runner.go:345-350 | the non-blocking send to stopCh is the token step of the machine, and the one of Shutdown for a service that it has yet to send to |
| `ServicesTable.Services.SendTokens` | internal/app/machined/pkg/system/system.go:211-225 | whatever the order of its goroutines, stopServices gives a token to each of its services and to no other |
| `Shutdown.ShutdownIsSafe` | internal/app/machined/pkg/system/system.go:162-227 | over every run with tidy claims, that is, in which no id is claimed while an earlier goroutine of it has not exited: when the wait of Shutdown has returned nil, every child ever started was reaped, and no runner makes a step in any continuation |
| `Shutdown.TokensBeforeWaits` | internal/app/machined/pkg/system/system.go:213-226 | in every reachable state, if some service is waited for, every stop token has been sent |
| `Shutdown.OnceIsTidy` | internal/app/machined/pkg/system/system.go:95-159 | runs that start each id at most once are among those |
| `Shutdown.ShutdownNeedsEveryServiceStarted` | internal/app/machined/pkg/system/system.go:191-227 | the wait returns only if every loaded service was started at some time |
| `Untidy.StaleTerminalState` | internal/app/machined/pkg/system/system.go:130-151 | for any id, a run with one untidy claim in which the wait returns nil while a child is alive |
| `Untidy.UntidyClaimIsUnsafe` | internal/app/machined/pkg/system/system.go:103-151 | from every untidy claim in every reachable state, whatever the table, the policies and the other goroutines, tidy steps lead to a Shutdown that has returned nil while the child of the claimed service is alive |
| `Untidy.TidinessIsExact` | internal/app/machined/pkg/system/system.go:103-227 | after any tidy run, the next claim keeps every Shutdown that tidy steps complete safe if and only if no goroutine of its id is still in its tail |
| `ShutdownExact.OkHolds` | internal/app/machined/pkg/system/service_runner.go:394-405 | in every reachable state: a started service whose goroutines have all stored their terminal state is down, a waiter registered for a service that is down is about to be told, a live run has its listener |
| `RunEnds.LiveIsCloser` | internal/app/machined/pkg/system/service_runner.go:156-298 | a live run that is before its select, or under Once or UntilSuccess without a health check, has an enabled step, not its cancellation, that brings it closer to its end |
| `ShutdownReturns.ReturnIsExact` | internal/app/machined/pkg/system/system.go:191-227 | after every tidy run, at any time of the wait: steps with no token but those of Shutdown lead to its return if and only if every loaded service was started and no endless run -- live, from its select on, under Forever or with a health check -- has missed its token |
| `ShutdownReturns.ShutdownCanReturn` | internal/app/machined/pkg/system/system.go:191-227 | the same condition suffices in every reachable state of the wait, also after untidy claims; runs that have missed their token but end by themselves do not matter |
| `ShutdownReturns.HasMissedIsMissed` | internal/app/machined/pkg/system/service_runner.go:160-167 | after tidy claims, an endless run whose token is gone is waited for, its service is not down, and no other goroutine of the service can change that |
| `ShutdownReturns.StuckForever` | internal/app/machined/pkg/system/service_runner.go:160-167 | such a run keeps Shutdown waiting over every continuation without another token for its service, whoever takes the steps |
| `ShutdownReturns.StolenToken` | internal/app/machined/pkg/system/service_runner.go:156-167 | for any id, a tidy run in which the listener of an ended run takes the token meant for the new one |
| `Subscriptions.SwapDeleteKeepsOthers` | internal/app/machined/pkg/system/service_runner.go:376-392 | the in-place swap-delete removes every occurrence of the channel and keeps all others, as a multiset |
| `Subscriptions.SwapDeleteIn` | internal/app/machined/pkg/system/health/status.go:87-100 | afterwards the channel is in no list position, and every other channel is in the list exactly if it was before |
| `ServiceRunners.HealthState.Update` | internal/app/machined/pkg/system/health/status.go:45-76 | a changed or first health is stored with its time and sent to all subscribers, an unchanged one only replaces the message: the lock step of the notification protocol |
| `ServiceRunners.HealthState.Init` | internal/app/machined/pkg/system/health/status.go:103-110 | is the step of the notification protocol in which health becomes unknown, without a notification |
| `ServiceRunners.HealthState.Subscribe` | internal/app/machined/pkg/system/health/status.go:79-84 | is the step of the notification protocol that begins the watch of a run, for its channel |
| `ServiceRunners.HealthState.Unsubscribe` | internal/app/machined/pkg/system/health/status.go:87-100 | the list becomes the swap-delete of the old one, the old multiset without the channel: the step that ends the watch of a run |
| `ServiceRunners.ServiceRunner.EventsNow` | internal/app/machined/pkg/system/service_runner.go:87-89 | Up is among the events exactly if the service is Skipped, or Running and, with a health check, known to be healthy; Down exactly in the three terminal states; Finished exactly in Finished |
| `ServiceRunners.ServiceRunner.UpdateState` | internal/app/machined/pkg/system/service_runner.go:69-113 | under the mutex: stores the state, records and publishes it with, only if Running, the health of the moment, so that the event puts the service into the Service table exactly if the state is Running; and goes on to notify exactly the events that then hold, by state, health check and health: two steps of the notification protocol |
| `ServiceRunners.ServiceRunner.HealthUpdate` | internal/app/machined/pkg/system/service_runner.go:300-331 | nothing unless Running; else the change is recorded and published with its own health, which leaves the service in the Service table, and Up is notified exactly if there is no health check or the current health is good: the evaluation of the consumer in the protocol |
| `ServiceRunners.ServiceRunner.Subscribe` | internal/app/machined/pkg/system/service_runner.go:356-373 | tells the channel at once exactly if the event holds, by state, health check and health; else registers it and changes nothing else |
| `ServiceRunners.ServiceRunner.Unsubscribe` | internal/app/machined/pkg/system/service_runner.go:376-392 | removes the channel from the list of that event and from no other |
| `ServiceRunners.ServiceRunner.CloneSubscribers` | internal/app/machined/pkg/system/service_runner.go:394-397 | the locked section of notifyEvent is the step of the protocol from which on its clone of the list is sent to |
| `Wakeups.ChangesUnderMutex` | internal/app/machined/pkg/system/service_runner.go:69-113 | over every run, the state and the subscriber lists change only under the mutex |
| `Wakeups.DropsOnlyWhenFull` | internal/app/machined/pkg/system/service_runner.go:259-261 | of the health changes that are sent to the run, only one that finds two in the channel is dropped |
| `Wakeups.NoLostWakeup` | internal/app/machined/pkg/system/service_runner.go:356-438 | in every reachable state with the run watched: if a registered subscriber has had no token and its event holds, by state, health check and health, some thread is committed to notifying it, or (for Up) a health change is being sent, queued or dequeued and the consumer is still there -- although full health channels drop messages |
| `WaitSound.WaitIsSound` | internal/app/machined/pkg/system/service_events.go:37-96 | whenever Wait has returned, its channel is in no subscriber list; it returned nil only if the service was registered and at some moment of the run one of the events held: for Up, Skipped, or Running and, with a health check, known to be healthy; for Down, one of the three terminal states; for Finished, Finished |
| `EventStream.AcceptedOptions` | internal/app/machined/pkg/runtime/events.go:56-92 | a list is accepted if and only if no option meets another way to look back that is set before it; then the last option of each kind counts, and at most one of the three ways to look back is left set |
| `EventStream.RejectedPrefix` | internal/app/machined/pkg/runtime/events.go:56-92 | an option list that is rejected stays rejected, whatever follows |
| `EventStream.ApplyOptions` | internal/app/machined/pkg/runtime/v1alpha1/v1alpha1_events.go:103-107 | the loop over the options stops at the first error and computes their composition |
| `EventStream.PutRetains` | internal/app/machined/pkg/runtime/v1alpha1/v1alpha1_events.go:218-222 | publishing appends to the log; the ring holds its last events, each at its position modulo the capacity |
| `EventStream.SearchFindsFirst` | internal/app/machined/pkg/runtime/v1alpha1/v1alpha1_events.go:138-152 | with the available ids in order, the start is exactly at the first available event above TailID; with their seconds in order, at the first one strictly after the cut-off |
| `EventStream.ExactIffAscending` | internal/app/machined/pkg/runtime/v1alpha1/v1alpha1_events.go:138-144 | every search for an id is exact if and only if the available events are in the order of their ids |
| `EventStream.InversionMisleads` | internal/app/machined/pkg/runtime/v1alpha1/v1alpha1_events.go:138-144 | two available events out of order make the search for the id of the later one start at the wrong place |
| `EventStream.DurationsExactIffSecondsAscend` | internal/app/machined/pkg/runtime/v1alpha1/v1alpha1_events.go:144-151 | every search for a duration, at any time, is exact if and only if the seconds of the available ids are in order |
| `EventStream.SecondsMislead` | internal/app/machined/pkg/runtime/v1alpha1/v1alpha1_events.go:144-151 | two available events whose seconds are out of order make the search whose cut-off lies on the later one start at the wrong place |
| `EventStream.DocumentedIffNoneOnCutOff` | internal/app/machined/pkg/runtime/events.go:81-91 | with seconds in order, WithTailDuration starts at the first available event at or after the cut-off, as documented, if and only if no available event lies on it |
| `EventStream.CutOffIsLeftOut` | internal/app/machined/pkg/runtime/v1alpha1/v1alpha1_events.go:144-151 | an instance in which the documented start and that of the code differ |
| `EventStream.TailEventsPending` | internal/app/machined/pkg/runtime/v1alpha1/v1alpha1_events.go:130-137 | with TailEvents n > 0 exactly the last min(n, available) events are pending, with a negative n all available ones, without a way to look back none |
| `EventStream.LookReadsLog` | internal/app/machined/pkg/runtime/v1alpha1/v1alpha1_events.go:175-185 | a look at the ring yields the event of the log at that position, or an overrun exactly if the consumer lags by the capacity |
| `EventStream.Events.constructor` | internal/app/machined/pkg/runtime/v1alpha1/v1alpha1_events.go:80-95 | a stream of the given capacity at position 0, for any gap below the capacity, also a negative one beside a capacity of 0 |
| `EventStream.Events.Publish` | internal/app/machined/pkg/runtime/v1alpha1/v1alpha1_events.go:218-222 | overwrites one slot of the array: the Put of the ring; panics, with nothing changed, exactly if there are no slots |
| `EventStream.Events.StartPosition` | internal/app/machined/pkg/runtime/v1alpha1/v1alpha1_events.go:122-152 | the start lies between the oldest available position and the write position, and meets the promise of the option that is set |
| `EventStream.Events.Search` | internal/app/machined/pkg/runtime/v1alpha1/v1alpha1_events.go:139-151 | the binary search over the wrapped array stops between an event before the mark and one after it, also without sorted ids |
| `EventStream.Events.Read` | internal/app/machined/pkg/runtime/v1alpha1/v1alpha1_events.go:163-185 | one look under the mutex is the look of the ring |
| `Watch.WatcherReadsLog` | internal/app/machined/pkg/runtime/v1alpha1/v1alpha1_events.go:156-225 | for any interleaving of publishers and watchers: what a watcher was handed, with the one event on offer, is exactly the filtered log from its start to its position; it sleeps only with nothing to read, and is stopped for overrun only when it lags by the capacity |
| `Watch.OfferedAsLogged` | internal/app/machined/pkg/runtime/v1alpha1/v1alpha1_events.go:180-198 | in every reachable state: what a watcher comes to offer is the event of the log at its position, by the actor that it asked for, with the number of events published after it; and that is what it hands over |
| `Watch.HowItEnds` | internal/app/machined/pkg/runtime/v1alpha1/v1alpha1_events.go:163-200 | a watcher ends only by an overrun or after its cancellation, when it is woken or while it offers an event; one that was cancelled in its sleep reads nothing more |
| `Watch.FreshWatcherSurvives` | internal/app/machined/pkg/runtime/v1alpha1/v1alpha1_events.go:124-126 | a watcher stopped before its first read was overtaken by at least gap publishes since its position was captured |
| `Watch.NoGapStopsAtOnce` | internal/app/machined/pkg/runtime/v1alpha1/v1alpha1_events.go:87-90 | a watcher of all events of a full ring, to which something was published, is stopped by its first look if and only if the gap is not positive |
| `Watch.OnlyPublishWakes` | internal/app/machined/pkg/runtime/v1alpha1/v1alpha1_events.go:163-173 | a sleeping watcher is woken by the next publish and by nothing else, also if it was cancelled |
| `ServiceTable.FoldIsLast` | internal/app/machined/pkg/controllers/v1alpha1/service.go:69-88 | the folded table has a service exactly if its last event is RUNNING, with the health of that event |
| `ServiceTable.LastWriteCounts` | internal/app/machined/pkg/controllers/v1alpha1/service.go:73-88 | what the table says of a service is right whenever the write of its last event succeeded, whatever writes failed before |
| `ServiceTable.WrittenIsShown` | internal/app/machined/pkg/controllers/v1alpha1/service.go:73-88 | whichever writes fail, the table shows of each service the last event of it that was written, and nothing of a service without one |
| `ServiceTable.StatesAreActions` | pkg/machinery/api/machine/machine.go:13-21 | the number of each state is that of the action of the same name in the machine API; the number that the controller takes for RUNNING is that of Running and of no other state |
| `ServiceTable.PublishedUpdate` | internal/app/machined/pkg/system/events/events.go:61-69 | a published update puts its service into the table if its state is Running and takes it out otherwise, with exactly its health, and touches no other service |
| `ServiceTable.ServiceController.Run` | internal/app/machined/pkg/controllers/v1alpha1/service.go:52-92 | the event loop computes the fold of the events it receives before it returns, but for the writes that fail; what cannot be decoded is skipped |
| `ServiceTable.TableFollowsLog` | internal/app/machined/pkg/controllers/v1alpha1/service.go:49-93 | composed with the ring, over every run, in which any write may fail: the table is the fold, but for the writes that failed, of the log from the start of the watch to at most two events short of its position, and to exactly its position once nothing is in flight |
| `ServiceTable.CaughtUp` | internal/app/machined/pkg/controllers/v1alpha1/service.go:71-88 | caught up from position 0, a resource exists exactly for the services whose last event that could be written is RUNNING, carrying its health; that is the last published event if its write succeeded |
| `ServiceTable.StartsAtZero` | internal/app/machined/pkg/runtime/v1alpha1/v1alpha1_events.go:124-132 | the watch starts at 0 exactly if no more than capacity - gap events were published |
| `Drainer.DrainBarrier` | internal/app/machined/pkg/runtime/drainer.go:27-112 | over every run: at most one Drain passes the gate, every subscription present at or after the start of draining gets exactly one event and every other none, and a Drain blocked on an empty list has its wake-up in the channel or in a Cancel about to send it |
| `Drainer.NilOnlyWhenEmpty` | internal/app/machined/pkg/runtime/drainer.go:47-54 | Drain returns nil exactly at an instant at which it sees the list empty |
| `Drainer.WakesByToken` | internal/app/machined/pkg/runtime/drainer.go:56-60 | a blocked Drain goes on only with the token, which it takes, or when its ctx is done; the token comes from a Cancel only |
| `Drainer.SubscriberHolds` | internal/app/machined/pkg/runtime/drainer.go:65-112 | a subscription that is not cancelled stays in the list, over any run, so Drain cannot pass |
| `Drainer.Drainer.Drain` | internal/app/machined/pkg/runtime/drainer.go:27-45 | the gate is the enter step of the protocol: refused if draining, else one event offered to each subscription |
| `Drainer.Drainer.Pending` | internal/app/machined/pkg/runtime/drainer.go:48-54 | the look of the loop is the check step of the protocol: Drain returns nil for 0 and blocks else |
| `Drainer.Drainer.Subscribe` | internal/app/machined/pkg/runtime/drainer.go:65-81 | is the subscribe step of the protocol: a fresh subscription, with its event at once if draining |
| `Drainer.Drainer.Cancel` | internal/app/machined/pkg/runtime/drainer.go:95-106 | the loop removes the first occurrence and keeps the order of the others: the cancel step of the protocol |
| `Drainer.Drainer.Signal` | internal/app/machined/pkg/runtime/drainer.go:108-111 | is the send step of a Cancel in the protocol, which leaves a token in the one-slot channel and the list alone |
| `History.ServiceEvents.Push` | internal/app/machined/pkg/system/events/events.go:79-91 | the history is the pushes so far; discarded counts the non-empty ones among all but the last 64 |
| `History.ServiceEvents.Get` | internal/app/machined/pkg/system/events/events.go:94-114 | exactly the non-empty events among the last min(count, 64) pushes, oldest first; none for a count of 0 or less |
| `History.ServiceEvents.Collect` | internal/app/machined/pkg/system/events/events.go:103-113 | the wrapped loop over the array collects the same |
| `RouteKey.IdReads` | pkg/machinery/resources/network/network.go:19-34 | round trip: a right-to-left parser recovers table, link (for IPv6), family, gateway, destination and priority from every id of slash-free parts |
| `RouteKey.SameIdSameKey` | internal/app/machined/pkg/controllers/network/route_spec.go:286-315 | on canonical IPv4 specs, equal ids hold if and only if the match keys of the reconciler are equal, also with an empty gateway or a default destination |
| `RouteKey.MutableSpec.Normalize` | pkg/machinery/resources/network/route.go:48-94 | the in-place updates produce the normalized spec; the family returned is that of the last zero address cleared, of source, gateway and default destination, and none exactly if nothing was cleared |
| `RouteKey.NormalForm` | pkg/machinery/resources/network/route.go:48-94 | zero gateways, sources and default destinations are cleared and nothing else; the scope is link exactly for a destination without a gateway, else host exactly for a loopback destination, else global |
| `RouteKey.NormalizeIsCanonical` | pkg/machinery/resources/network/route.go:48-94 | normalizing is idempotent, and makes an IPv4 spec with a masked destination canonical |
| `RouteSync.FindMatchingRoutes` | internal/app/machined/pkg/controllers/network/route_spec.go:256-284 | keeps exactly the matching routes, in order |
| `RouteSync.MatchingHas` | internal/app/machined/pkg/controllers/network/route_spec.go:256-284 | a route is found exactly if it is in the snapshot and matches in all five respects |
| `RouteSync.ResolveLinkName` | internal/app/machined/pkg/controllers/network/address_spec.go:102-115 | the index of the first link of that name, 0 for an empty or unknown name |
| `RouteSync.LinkIndexMeans` | internal/app/machined/pkg/controllers/network/address_spec.go:102-115 | the specification function that the passes use is that index as well |
| `RouteSync.KeyMeans` | internal/app/machined/pkg/controllers/network/route_spec.go:286-315 | a route is found exactly if it has the family number, prefix length, destination, gateway and table of the spec, IPv4 addresses also in their IPv6 form, and its priority, or 1024 for an IPv6 spec that has none |
| `RouteSync.ConformsMeans` | internal/app/machined/pkg/controllers/network/route_spec.go:163-176 | a route that was found is left alone exactly if it has the scope (of IPv4), protocol, type, masked flags, MTU (none for 0), the link if one is resolved, and the source if one is given |
| `RouteSync.KeysApart` | internal/app/machined/pkg/controllers/network/route_spec.go:286-315 | a kernel route matches canonical IPv4 specs of at most one id |
| `RouteSync.EchoConforms` | internal/app/machined/pkg/controllers/network/route_spec.go:206-239 | what the kernel makes of the request for a spec matches the spec and conforms to it; all flags of the spec are asked for |
| `RouteSync.Reconciler.RemoveFound` | internal/app/machined/pkg/controllers/network/route_spec.go:125-141 | deletes what was found, one by one, up to the first failure |
| `RouteSync.Reconciler.RemoveMismatched` | internal/app/machined/pkg/controllers/network/route_spec.go:153-204 | deletes exactly what is not as wanted, up to the first failure, and tells whether anything is |
| `RouteSync.Reconciler.SyncTornDown` | internal/app/machined/pkg/controllers/network/route_spec.go:124-146 | the case of a torn-down resource: deletes what was found, then removes the finalizer; fails only if one of these calls does |
| `RouteSync.Reconciler.SyncRunning` | internal/app/machined/pkg/controllers/network/route_spec.go:153-239 | the case of a running resource that is not skipped: deletes what is not as wanted, adds a route if nothing is; fails only if one of these calls does |
| `RouteSync.Reconciler.SyncRoute` | internal/app/machined/pkg/controllers/network/route_spec.go:99-254 | one call changes the table by exactly what the snapshot calls for, or stops on the way; the finalizer goes only after all deletes of a tear-down; it fails only if a call does |
| `RouteSync.OthersKept` | internal/app/machined/pkg/controllers/network/route_spec.go:99-254 | a call for an IPv4 resource leaves every route alone that does not match its spec, one for an IPv6 resource every IPv4 route, also when it fails |
| `RouteSync.SyncSettles` | internal/app/machined/pkg/controllers/network/route_spec.go:147-239 | a completed call settles its resource: no route under its key left at a tear-down; while it runs, with its link resolved, at least one, and all of them with the scope, protocol, type, masked flags, MTU, link and source of the spec |
| `RouteSync.SettledIsAsSpecified` | internal/app/machined/pkg/controllers/network/route_spec.go:99-254 | settled means just this, field by field, where a link is resolved to the index, other than 0, of the first link of its name |
| `RouteSync.Reconciler.AddFinalizers` | internal/app/machined/pkg/controllers/network/route_spec.go:65-74 | exactly the running resources get a finalizer |
| `RouteSync.Reconciler.SyncAll` | internal/app/machined/pkg/controllers/network/route_spec.go:88-93 | the loop over the resources, from one snapshot that goes stale |
| `RouteSync.Reconciler.Pass` | internal/app/machined/pkg/controllers/network/route_spec.go:59-96 | a pass over IPv4 and IPv6 resources: IPv4 routes that match none stay whatever happens; with distinct ids, a pass without error leaves every IPv4 resource as it specifies, field by field, and leaves the routes of skipped ones alone; a finalizer is gone only after its routes; exactly the changes that the snapshot calls for are asked for; an error is a call that failed |
| `RouteSync.NoWorkIffSettled` | internal/app/machined/pkg/controllers/network/route_spec.go:88-93 | a pass has nothing to do if and only if its snapshot settles every resource |
| `RouteSync.SecondPassIsIdle` | internal/app/machined/pkg/controllers/network/route_spec.go:88-93 | after a pass that reached the end, the next pass asks the kernel for nothing for any IPv4 resource, and for nothing at all without IPv6 ones |
| `RouteSync.LinkIsNotInTheKey` | pkg/machinery/resources/network/network.go:29-31 | IPv6 specs that differ only in the link have different ids and match the same routes |
| `AddressSync.FlagsRecovered` | internal/app/machined/pkg/controllers/network/address_spec.go:137-143 | the or of truncated header and attribute gives the flags back; without the attribute the managed ones are recovered if and only if they are below 256 |
| `AddressSync.FindsAny` | internal/app/machined/pkg/controllers/network/address_spec.go:117-135 | nothing is found exactly if no entry is for that link and prefix |
| `AddressSync.FindEntry` | internal/app/machined/pkg/controllers/network/address_spec.go:117-135 | the search loop returns the first entry for that link and prefix |
| `AddressSync.PlacesApart` | internal/app/machined/pkg/controllers/network/address_spec.go:117-135 | with distinct links, an entry is the business of resources of one link name and prefix only |
| `AddressSync.EchoIsMine` | internal/app/machined/pkg/controllers/network/address_spec.go:211-229 | the entry made by a New is at the place of its spec, and conforms if and only if the kernel can report its managed flags |
| `AddressSync.AsksForManaged` | internal/app/machined/pkg/controllers/network/address_spec.go:211-224 | a New asks for the place and scope of the spec and for its managed flags only, all of them in the attribute and the low 8 bits in the header |
| `AddressSync.SettledIsAssigned` | internal/app/machined/pkg/controllers/network/address_spec.go:174-229 | settled means, field by field: if the first link of the name has an index other than 0, a running resource has an entry for its prefix there, and all it has there have its scope and managed flags |
| `AddressSync.AddressReconciler.SyncAddress` | internal/app/machined/pkg/controllers/network/address_spec.go:145-236 | one call deletes only what it found and adds only an echo of its request with the broadcast address of the prefix; EEXIST is no error, and no other error arises than from a call that failed; a torn-down resource loses its finalizer first |
| `AddressSync.EntrySyncSettles` | internal/app/machined/pkg/controllers/network/address_spec.go:174-229 | a completed call leaves a running resource, if the first link of its name has an index other than 0, with an entry there for its prefix, and no such entry without its scope and managed flags |
| `AddressSync.AddressReconciler.SyncAll` | internal/app/machined/pkg/controllers/network/address_spec.go:91-96 | the loop over the resources, from one snapshot that goes stale |
| `AddressSync.AddressReconciler.Pass` | internal/app/machined/pkg/controllers/network/address_spec.go:62-98 | a pass leaves foreign entries alone whatever happens; without error, and with distinct links and places, every running resource whose link exists has its address there with scope and managed flags, an error is a call that failed, exactly the changes that the snapshot calls for are asked for, and running resources have their finalizer while torn-down ones have lost it |
| `AddressSync.NoEntryWorkIffSettled` | internal/app/machined/pkg/controllers/network/address_spec.go:91-96 | in a table that the kernel can have, a pass has nothing to do if and only if every resource is settled |
| `AddressSync.NextPassIsIdle` | internal/app/machined/pkg/controllers/network/address_spec.go:91-96 | after a pass that reached the end, the next pass asks the kernel for nothing |
| `AddressSync.TearDownDeletesNothing` | internal/app/machined/pkg/controllers/network/address_spec.go:151-173 | a tear-down asks the kernel for nothing, on any table the kernel can have |
| `Broadcast.CIDRMask` | internal/app/machined/pkg/controllers/network/address_spec.go:250-257 | the inverse of each mask byte is the low bits of the address that are host bits |
| `Broadcast.SetHostBits` | internal/app/machined/pkg/controllers/network/address_spec.go:264-268 | each byte of the output is the input byte with its host bits set |
| `Broadcast.BroadcastAddr` | internal/app/machined/pkg/controllers/network/address_spec.go:241-271 | nil for other than valid IPv4 prefixes of fewer than 31 bits; else network address plus 2^(32-b) - 1 |
| `Broadcast.BroadcastMeans` | internal/app/machined/pkg/controllers/network/address_spec.go:238-271 | there is a broadcast address exactly for IPv4 prefixes of 0 to 30 bits, and it is the last address of the block of 2^(32-b) addresses that holds the prefix |
| `Broadcast.FilledIsHighest` | internal/app/machined/pkg/controllers/network/address_spec.go:266-268 | byte by byte and as one number, setting the host bits gives the same address |
| `Broadcast.HighestIsGreatest` | internal/app/machined/pkg/controllers/network/address_spec.go:238-240 | the result is in the prefix, and no address of the prefix is above it |
| `Broadcast.HostBitsDoNotMatter` | internal/app/machined/pkg/controllers/network/address_spec.go:250-268 | two addresses give the same result if and only if they are in the same network |

## Left out

- Wakeups.NoLostWakeup: says nothing of Up by health once the ctx of the run is cancelled, because the consumer of health changes then exits.
- RunHistory.HistoryOfEveryRun: the loop part admits only what the restart loop reports; the goroutine runner reports differently and is not modelled.
- RunEnds.LiveIsCloser: excludes the endless runs, as nothing but a cancellation ends them. Under a health check run waits for its health goroutines, which stop only when ctx is cancelled, so a health-checked run whose child exits on its own does not return by itself.
- RouteSync.Reconciler.Pass: claims nothing for IPv6 resources and routes, for the reason in `RouteSync.LinkIsNotInTheKey`; IPv4 tables of 256 and more are excluded, as the request holds the table only in its attribute; a kernel that changes an unmasked destination is not modelled.
- AddressSync.AddressReconciler.Pass: of torn-down resources it claims only that their finalizer is gone, as the code deletes nothing for them.
- History.ServiceEvents.Push: `discarded` is unbounded; its wrap-around as a machine word is not modelled.
- EventStream.Events.constructor: the width of positions is not modelled.
- EventStream.ExactIffAscending, EventStream.DurationsExactIffSecondsAscend: say nothing of a negative gap once the ring has wrapped, because the search then looks at events that have been overwritten.
- ServicesTable.Services.Start: the wait for runNotify and what goroutines remove from `running` meanwhile are not steps of the method but its parameter; the machine in `Supervisor.dfy` has the interleaving.
- ServicesTable.Services.Stop: the wait for the services is in the machine and in `WaitSound`, not in the method.
- Restart.Restarter.Run: the world is a script of observations; a method that runs out of it is still blocked.
- Publication of service events: `UpdateState` publishes after it unlocks, so the order of the log may differ from the order of the states; the notification model has no publish step.
- The goroutine runner: on timeout it abandons its goroutine, so nothing is reaped.
- ShutdownReturns.ReturnIsExact: says whether the return can be reached, if children exit (under UntilSuccess, with success), not that a scheduler reaches it; after untidy claims only the direction of `ShutdownReturns.ShutdownCanReturn` is claimed, as the wait may then end although a run goes on.
- DHCP, link status, device gating, udev, ethtool and sysfs: network client code and foreign calls, or easy members beside the core.
- Mounting, signals, reboot, gRPC, the CLI and log writers: input and output.
- Generated deep copies, resource definitions and option setters: easy members.
- `conditions.WaitForAll`, COSI state, netlink and `netipx`: not part of this model beyond the assumptions above.
