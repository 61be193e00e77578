# Pademelon: verified models

Pademelon is a dashboard for the virtual machines of one NAS. Beside showing state it runs long jobs (reboot, consistent
snapshot, staged restore), keeps a multiplexed JSON-RPC websocket to the TrueNAS middleware, and caches snapshot lists
that gate the destructive jobs. What matters in it is small shared state under mutexes, touched by several goroutines
while timers race the work. This project models that state and proves what holds of it in every run.

Check everything with `dafny verify dfyconfig.toml` (Dafny 4.11).

## How the models are built

* An object whose methods update its fields is a class with those fields: `Jobs.Job`, `Registry.Store`,
  `FreezeBook.Book`, `Executors.Runner`, `RpcClient.Client`, `SnapshotStore.Service`, `PollLoop.Poller`, `Rates.Source`,
  `Auth.AuthState`.
  Each method is one critical section or one executor, with its loops.
* Interleavings are step machines on values: `Rpc`, `RpcConnection`, `SnapshotService`, `Registry`, `FreezeSweep`,
  `Submits`, `PollLoop`. A schedule is any sequence of events; an event that cannot happen is skipped, so every sequence
  is a run and a statement about all sequences is a statement about all runs. `RpcClient.StepsMatchClient` and
  `SnapshotStore.StepsMatchService` tie the class methods to the machine steps.
* libvirt, the guest agent and the middleware are the class `World.Host`: every call may succeed or fail, takes any time
  up to a bound, and is appended to a ghost trace. The clock never goes back. Times are integers in milliseconds
  (nanoseconds in `Rates`).
* The runner's timer may strike between any two steps of an executor (`Executors.Runner.Race`). The executor then runs
  on, as the abandoned goroutine does.

| file | what it models |
|---|---|
| `Rpc`, `RpcClient`, `RpcConnection` | reply matching, the client's fields, the connection lifecycle |
| `Jobs`, `Registry`, `Retention`, `Submits` | a job and its step pills, the registry, the registry with a clock, the guarded submits |
| `World`, `Protocol`, `Datasets`, `SnapshotTrace`, `Executors` | external calls, which call orders are allowed, the executors |
| `FreezeBook`, `FreezeSweep` | frozen-guest marks, the sweep over every run |
| `SnapshotId`, `SnapshotMerge`, `SnapshotService`, `SnapshotProgress`, `SnapshotLists`, `SnapshotStore` | snapshot ids, one fetch, the service machine, its progress, what a record shows, its fields |
| `PollLoop`, `Rates`, `Auth` | the debounced poll loop, counter differencing, failure backoff |
| `Basics`, `Clocks` | shared helpers, constants of `internal/clocks/clocks.go` |

## Where the code and its comments differ

The model follows the code.

* `cmd/pademelon/main.go:327-331` and `internal/clocks/clocks.go:99-103` say an early nudge is dropped. The loop re-arms
  it instead; `PollLoop.NudgeNeverLost` and `PollLoop.NudgeIsServed` hold because of that.
* `internal/truenas/truenas.go:338-343` drains the loss signal so that a stale one does not hurt a new connection. A
  signal that comes after the drain still does: `RpcConnection.SignalsCountFromTheDrain` says exactly when there is a loss
  to act on, `RpcConnection.LateSignalDropsHealthyLink` gives the failing run.
* `internal/clocks/clocks.go:114-117` says finished jobs are retained for an hour. Retention counts from the request and
  looks at no verdict, so it would drop a running job too and free its single-flight slot. `Registry.OneUnfinishedIff`
  says which submits find such a slot; `Retention.OneUnfinishedIffBoundsFit` says which configurations have any: those
  whose largest runner bound does not fit into the hour. The shipped bounds fit (`Retention.ShippedBoundsFit`).
* `internal/snapshots/snapshots.go:220-225` says a failed fetch is never a silent "unknown". A check that reads a record
  made anew after a sweep dropped the old one does get a no with no fetch behind it: `SnapshotLists.NoIsBackedIff`,
  `SnapshotLists.BlankRecordSaysNo`.
* `internal/clocks/clocks.go:198-203` says the sweep unfreezes within one bound. The first forced thaw comes at an age of
  more than one bound and at most two: `FreezeSweep.FrozenGuestsAreForced`.
* A mark is cleared after its thaw in a separate critical section. If another job froze and marked the same guest in
  between, the clear removes the new mark. `FreezeSweep.CoveredUnlessClearedLate` says exactly when the marks cover the
  frozen guests, `FreezeSweep.LateClearUncovers` gives the failing run.

## Model

| member | source | states |
|---|---|---|
| Rpc.NoSendBlocks | internal/truenas/truenas.go:471-582 | In every interleaving of calls, readers, timeouts, teardowns and arbitrary messages, each one-slot channel gets at most one send, and every send finds it empty. |
| Rpc.OutcomesAreSettled | internal/truenas/truenas.go:471-582 | For every run, call and outcome: the outcome is in the channel, a reader's hand or the verdict if and only if a step that ran while the call was pending was the read of a reply to its id, a `drop` or a dead reader's `failPending`, with exactly that outcome. |
| Rpc.RunSettles | internal/truenas/truenas.go:471-582 | The same from any state the invariant holds in: outcomes are there from before or settled on the way, and are never lost. |
| Rpc.OneOutcome | internal/truenas/truenas.go:500-508 | A call never gets two outcomes, and one it has got is the only answer it can ever give, whatever runs afterwards. |
| Rpc.AnswersAreOwn | internal/truenas/truenas.go:500-558 | A call's answer was settled while it was pending: a reply read for its own id, or the reason of a loss that happened then. |
| Rpc.SettledIsOwn | internal/truenas/truenas.go:540-556 | No step settles a reply to another id on a call. |
| Rpc.FailsOnLiveConnectionIff | internal/truenas/truenas.go:570-582 | A call whose own reader still lives fails if and only if a `drop`, or the death of another connection's reader, runs while it is pending. |
| Rpc.PendingIsLive | internal/truenas/truenas.go:475-481 | The pending map only names live `request` frames, and is empty once all have returned. |
| Rpc.NeverPendingAgain | internal/truenas/truenas.go:475-481 | An id that has left the pending map never returns to it. |
| Rpc.NoneLeftUnanswered | internal/truenas/truenas.go:389-404 | After a `drop` or a dead reader, and for ever after, each earlier call that is undecided has an outcome in its channel or in a reader's hand. |
| Rpc.AnsweredCallFinishes | internal/truenas/truenas.go:500-508 | From any reachable state an answered, waiting call can return its answer within three steps, with no timer and no message (its own timer may still win the select). |
| Rpc.EveryCallReturns | internal/truenas/truenas.go:481-508 | Every call returns on its own: from any reachable state its timer ends a waiting call and a write error a writing one, and after the deferred cleanup it has returned with that verdict and is not pending; no reader and no message is needed. |
| Rpc.CallCompletes | internal/truenas/truenas.go:471-558 | A call begun in any reachable state on a living reader completes with its reply: begin, write, read, deliver, receive and return can run in that order, and it ends not pending. |
| Rpc.DropEndsWaitingCalls | internal/truenas/truenas.go:389-404 | In any reachable state a `drop` lets every waiting call that nobody has answered return its reason at once. |
| Rpc.AnyReaderFailsEveryCall | internal/truenas/truenas.go:570-582 | Any dying reader fails every pending call, whatever connection the call went out on. |
| Rpc.OldReaderFailsNewCall | internal/truenas/truenas.go:515-527 | A reachable run in which a call on connection 1, whose reader lives, fails by the reader of connection 0. |
| Rpc.RunKeepsInv | internal/truenas/truenas.go:471-582 | Every step keeps the token invariant: for each id exactly one of table, reader's hand, channel and spent owns the right to send. |
| RpcClient.Client.Register | internal/truenas/truenas.go:475-480 | A new id, one above the last, with a fresh empty channel in the map; every other id untouched. |
| RpcClient.Client.RemovePending | internal/truenas/truenas.go:562-566 | Takes exactly this id out of the map and leaves every channel as it was. |
| RpcClient.Client.Claim | internal/truenas/truenas.go:540-551 | Hands out the channel exactly when the id is pending, and takes it out of the map. |
| RpcClient.Client.Deliver | internal/truenas/truenas.go:552-556 | Sends outside the lock, on an empty channel, and changes no other id. |
| RpcClient.Client.FailPendingLocked | internal/truenas/truenas.go:576-582 | In any map order, every pending id and no other gets the reason, and the map ends empty. |
| RpcClient.Client.SetState | internal/truenas/truenas.go:208-215 | A failure keeps the last known version; the transition is stamped. |
| RpcClient.Client.Drop | internal/truenas/truenas.go:389-404 | Clears connection and reader, hands back what to close and cancel, fails every pending call with the reason, reports disconnected. |
| RpcClient.StepsMatchClient | internal/truenas/truenas.go:471-582 | Each critical section of the class is the machine step of the same name, id by id. |
| RpcConnection.LossIsNeverMissed | internal/truenas/truenas.go:257-276 | Although the drain can swallow the new connection's own signal, a client that reports connected with a finished reader always has a signal to act on, and acting on it tears the connection down. |
| RpcConnection.OneUncancelledReader | internal/truenas/truenas.go:304-359 | At most one reader runs uncancelled, it is the one `drop` would cancel, and an installed connection is that reader's. |
| RpcConnection.FailuresDisconnect | internal/truenas/truenas.go:257-404 | In every run a refused login, a failed check, a taken loss signal and a failed ping leave nothing installed, cancel the reader and let a fresh dial follow. |
| RpcConnection.DialReconnects | internal/truenas/truenas.go:304-359 | From there dial, login, drain and check make the client connected on the new connection, with no loss to act on. |
| RpcConnection.SignalsCountFromTheDrain | internal/truenas/truenas.go:338-343 | While `Run` stays with a connection it has drained for, there is a loss to act on if and only if some reader, of whatever age, has signalled since the drain. |
| RpcConnection.LateSignalDropsHealthyLink | internal/truenas/truenas.go:261-270 | A reachable run in which a late signal of an older reader makes `Run` drop a newer connection whose socket is alive. |
| RpcConnection.RunKeepsInv | internal/truenas/truenas.go:221-404 | The lifecycle invariant holds in every run. |
| SnapshotId.CutThenRebuild | internal/truenas/truenas.go:667-691 | Cutting at the first '@' fails exactly when there is none, and dataset@name rebuilt from the parts is the id itself. |
| Protocol.RollbackNeedsOff | internal/actions/actions.go:759-810 | In a staged restore the call just before a rollback is a reading that said shut off; every rollback names the job's snapshot, recursive exactly as acknowledged; a reboot never rolls back. |
| Protocol.StopNeedsOn | internal/actions/actions.go:766-797 | A restore asks the guest to stop only right after a reading that said it runs, or the agent's refusal; a direct restore never does. |
| Protocol.RollbackAtMostOnce | internal/actions/actions.go:759-833 | No job calls rollback twice. |
| Protocol.StartNeedsRollback | internal/actions/actions.go:806-822 | A restore starts the guest only if asked to and right after its own successful rollback; a reboot only right after a shut-off reading; a direct restore never. |
| Protocol.ReadyMeansOff | internal/actions/actions.go:766-806 | A job reaches its point of no return only by a shut-off reading as its last call, direct rollback aside. |
| Protocol.HowItEnds | internal/actions/actions.go:806-833 | A job ends well if and only if its last call was its rollback, or its start when there is to be one, answered with success. |
| Protocol.GivesUpForCause | internal/actions/actions.go:759-833 | A job gives up only on a fatal answer to its last call, or, while waiting for the guest to stop, on a reading that says it still runs. |
| Protocol.ConnectsFirst | internal/actions/actions.go:569-580 | Every job's first call is its connect, and a refused connect is also its last. |
| Protocol.PastStaysPast | internal/actions/actions.go:806-833 | Past the rollback there is no way back before it. |
| Executors.Run | internal/actions/actions.go:564-639 | From start to verdict with the timer racing. When the executor wins, the job is ok if and only if its calls ended with the one it was submitted for (for a snapshot: every create) and that succeeded, timed out if and only if the guest did not stop, failed otherwise; when the timer wins it is timed out. The timer wins only after the bound, the executor only before bound and slack. No step is active at the end, every observer saw a whole life, and not-stopped is reported before the bound if the overheads stay below a minute. |
| Executors.OkMeansEndedWell | internal/actions/actions.go:564-639 | Over all traces of a job: its executor reports success if and only if the trace ends as the verb demands, and not-stopped only on a last reading that said on. |
| Executors.Runner.Attempt | internal/actions/actions.go:569-580 | Connects, then does what the verb's contract says; a failed connect touches nothing. |
| Executors.Runner.Execute | internal/actions/actions.go:719-751 | Delete needs no domain; any other verb on a missing domain stops there; otherwise the verb's own contract. |
| Executors.Runner.FindThenGuarded | internal/actions/actions.go:725-748 | Shutdown, reboot and restore find their domain and then keep to their protocol. |
| Executors.Runner.FindThenPlain | internal/actions/actions.go:725-748 | The other verbs find their domain and then make exactly their own calls. |
| Executors.Runner.Restore | internal/actions/actions.go:759-833 | For every behaviour of the world the calls follow the restore protocol; each way to end fixes the result, the phase of the protocol and the state of every pill. |
| Executors.Runner.ConfirmOff | internal/actions/actions.go:766-801 | Before a rollback the guest is confirmed off, or the job ends with the phase that failed. |
| Executors.Runner.Rewind | internal/actions/actions.go:806-833 | The rollback and the optional start, with the pills of each outcome. |
| Executors.Runner.Reboot | internal/actions/actions.go:1200-1230 | Shutdown, wait, start; each way to end fixes the result, the phase of the protocol and every pill. |
| Executors.Runner.StopPhases | internal/actions/actions.go:773-797 | The stop and verify phases a reboot and a staged restore share, and their time budget. |
| Executors.Runner.WaitStopped | internal/actions/actions.go:1169-1190 | Terminates; success only on a shut-off reading; not-stopped only past the deadline, at once after a not-off reading, and within a stated overrun; re-sends are numbered 2, 3, ..., at least the retry interval apart, at most timeout/retry of them (one more if our own code takes time), and never later than the retry interval and one turn after the send before. |
| Executors.Runner.Turn | internal/actions/actions.go:1172-1189 | One turn of the wait: which reading ends it, a shutdown request goes out exactly when the retry interval is over, and the clock before and after. |
| Executors.Runner.Round | internal/actions/actions.go:1172-1189 | Each turn keeps the numbering, spacing, count and promptness of the re-sends. |
| Executors.PromptGrows | internal/actions/actions.go:1183-1187 | One more prompt re-send keeps all of them prompt. |
| Executors.SnapshotJobHoldsGuest | internal/actions/actions.go:860-980 | In every trace of a snapshot job on a running guest, each create lies between a freeze or pause that succeeded and the matching release, with only creates between. |
| Executors.SnapshotJobCalls | internal/actions/actions.go:860-959 | A snapshot job makes one create per zvol dataset in disk order under its own name, after a freeze if the agent answers, a pause otherwise or when that fails, nothing for a guest not running, and before the calls that let go. |
| Executors.OneCallPerVerb | internal/actions/actions.go:730-748 | Start, pause, resume and force-off make exactly their own libvirt call and report how it went. |
| Executors.RestoreJobIsSafe | internal/actions/actions.go:759-833 | In every trace of a restore job the rollback names the job's snapshot with exactly the acknowledged flag, is the only one, follows a shut-off reading when staged; a start comes only right after it, if it succeeded and was asked for. |
| Executors.RestoreJobRollsBack | internal/actions/actions.go:806-833 | A restore that reports success has rolled back. |
| Executors.Runner.Shutdown | internal/actions/actions.go:1238-1250 | If the last poll saw an agent, it is asked, and ACPI only if it refuses; without one, ACPI alone; the agent vanishing counts as asked. |
| Executors.Runner.Mark | internal/actions/actions.go:667-680 | A phase moves in order, also after the timer has already given the verdict, and touches no other phase. |
| Executors.Runner.Race | internal/actions/actions.go:604-621 | The timer strikes once: not before the bound, and at the latest one stretch of our own code after it; every phase stays in order. |
| Executors.Runner.Snapshot | internal/actions/actions.go:860-980 | The whole call list: hold, one create per zvol dataset in disk order, release; error exactly when a create failed; a guest this job froze stays marked, with the time of its freeze, exactly when both thaw tries failed, and no other mark changes. |
| Executors.Runner.HoldStill | internal/actions/actions.go:876-910 | Made while its phase is shown active: freeze when the agent answers, pause otherwise or when the freeze fails, nothing for a guest not running; a mark exactly after a freeze, stamped with its time. |
| Executors.Runner.HoldCreateRelease | internal/actions/actions.go:876-980 | The three phases add up to the call list, the pills and the marks of the job. |
| Executors.Runner.CreateAll | internal/actions/actions.go:918-926 | Exactly one create per dataset, in order, going on after failures. |
| Executors.Runner.LetGo | internal/actions/actions.go:935-959 | The release that matches the hold, made while its phase is shown active: thaw at most twice, resume once, and the mark goes only with a successful thaw. |
| Executors.Runner.CreateAndLetGo | internal/actions/actions.go:912-980 | The release is attempted on every path after a hold. |
| Executors.Runner.Delete | internal/actions/actions.go:837-850 | One delete call for exactly the job's id, or none when the id has no '@'. |
| Executors.RanAsPlanned | internal/actions/actions.go:564-580 | The parts of a job's calls add up to what `JobRan` says of the whole trace. |
| SnapshotTrace.GuestIsHeld | internal/actions/actions.go:876-959 | While any create runs, a freeze or pause has succeeded and nothing has let go; there is one hold in the job, and the release is of its kind. |
| SnapshotTrace.PickedPartition | internal/actions/actions.go:918-926 | Created and failed datasets partition the datasets. |
| SnapshotTrace.NoneFailed | internal/actions/actions.go:927-933 | The failed list is empty exactly when every create succeeded. |
| SnapshotTrace.CallsAreGuarded | internal/actions/actions.go:876-959 | On a running guest that could be held, the job's calls have the guarded shape. |
| Datasets.ZvolsAreDisks | internal/truenas/truenas.go:727-737 | Each dataset is the non-empty tail of some disk's zvol path. |
| Datasets.ZvolPaths | internal/truenas/truenas.go:727-737 | A disk is a zvol if and only if its source is the prefix and a non-empty dataset name. |
| Datasets.ZvolsInDiskOrder | internal/actions/actions.go:1014-1022 | No zvol disk is missed: each disk's dataset comes right after those of the disks before it. |
| Datasets.TruenasDatasets | internal/actions/actions.go:1014-1022 | The loop collects exactly these datasets. |
| Jobs.GoodMovesMakeWholeLife | internal/actions/actions.go:564-639 | A life of good moves keeps the planned step names and the order of the phases at every instant, never goes back to pending, has one verdict for good and no step active when it is given. |
| Jobs.VerdictIsFinal | internal/actions/actions.go:604-637 | A verdict once given is never changed. |
| Jobs.Job.SetStep | internal/actions/actions.go:667-680 | Changes exactly the named step; only a step the submit did not plan would be appended. |
| Jobs.Job.TimeOut | internal/actions/actions.go:606-620 | Active steps become failed, every other step stays, and the verdict is timeout with no step active. |
| Jobs.Job.Finish | internal/actions/actions.go:623-637 | The verdict of the executor's own answer, with no step active at that instant. |
| Jobs.Job.constructor | internal/actions/actions.go:686-714 | A job starts pending with exactly the planned steps, all pending. |
| Jobs.IdleByName | internal/actions/actions.go:686-714 | Step names are never repeated, so a job idle by name has no active step. |
| Jobs.UpdatedStates | internal/actions/actions.go:667-680 | Moving one step changes no other step and no name. |
| Jobs.ExpiredStates | internal/actions/actions.go:613-617 | Expiry changes active steps only. |
| Registry.NeverTwoInFlight | internal/actions/actions.go:349-374 | Over any mix of submits, runner steps and sweeps, the registry never holds two pending or running jobs of one domain and action. |
| Registry.StepIsLegal | internal/actions/actions.go:564-639 | Because runners write only what their position allows, each step of submits, runners, timers, executors and sweeps moves each job's state legally and never changes its identity. |
| Registry.JobsOnlyMoveForward | internal/actions/actions.go:564-639 | In every run, with timers racing answers and abandoned executors ending at any time, a job never becomes pending again and a verdict is for good, also after it was swept. |
| Registry.VerdictHasItsCause | internal/actions/actions.go:582-637 | In every run of all runners, timers and executors: a job whose answer was taken is ok if and only if its executor ended well, timed out if and only if the guest did not stop, and failed otherwise; any other finished job timed out. |
| Registry.EveryJobEnds | internal/actions/actions.go:564-639 | Every job gets its verdict: in any reachable state at most three steps of its own runner end it, whether or not its executor ever answers. |
| Registry.AnsweredJobEnds | internal/actions/actions.go:564-637 | In any reachable state a job that has not begun can begin, and if its executor answers first it ends ok, failed or timed out as that answer says. |
| Registry.AcceptedIsHeld | internal/actions/actions.go:1320-1326 | In every run an accepted job is held until the first submit or listing that comes more than the retention time after its request, finished or not, and no longer. |
| Registry.HeldUntilRetention | internal/actions/actions.go:1320-1326 | The same from any state, for any job ever built. |
| Registry.AcceptedIff | internal/actions/actions.go:349-374 | A submit is accepted if and only if no held job of its domain and action is both unfinished and within retention. |
| Registry.FreeAfterSweepIff | internal/actions/actions.go:349-361 | Sweeping first and then looking for a job in flight is the same as looking for one that is unfinished and within retention. |
| Registry.OneUnfinishedIff | internal/actions/actions.go:349-374 | Over a whole run no domain and action ever has two unfinished jobs, held or not, if and only if no submit comes for a key whose unfinished job is no longer held or is past retention. |
| Registry.LateSubmitDoubles | internal/actions/actions.go:349-374 | Such a late submit is always accepted beside the unfinished job. |
| Registry.StepKeepsSingleFlight | internal/actions/actions.go:349-374 | No step of any runner, submit or sweep puts a second unfinished job of a key in the registry. |
| Registry.InTimeIsNeverLate | internal/actions/actions.go:1320-1326 | If no unfinished job is ever past retention when a submit or sweep comes, no submit is ever late. |
| Registry.RetentionFreesTheSlot | internal/actions/actions.go:1320-1326 | An instance: a second submit while a first job runs is accepted if and only if the first is past retention, which takes a runner bound beyond it. |
| Retention.OneUnfinishedIffBoundsFit | internal/actions/actions.go:592-620 | With a clock that waits for the runners' timers: every run keeps to one unfinished job per domain and action if and only if the largest runner bound plus the scheduling slack is at most the retention time. |
| Retention.FittingBoundsKeepOne | internal/actions/actions.go:592-620 | Fitting bounds give every job its verdict before retention can drop it, so no two are ever unfinished. |
| Retention.LongBoundsAllowTwo | internal/actions/actions.go:592-620 | Bounds that do not fit have a run with two unfinished jobs. |
| Retention.ShippedBoundsFit | internal/actions/actions.go:268-300 | The default bounds fit, with fifty-six minutes of slack. |
| Retention.RunnersCanMove | internal/actions/actions.go:564-639 | An unfinished job's runner can always move on its own, so the clock never waits for anything else. |
| Registry.Store.Register | internal/actions/actions.go:349-374 | Accepted exactly when no job of the key is both unfinished and within retention; a refusal shows the job in flight; the copy shares no step storage. |
| Registry.Store.Enter | internal/actions/actions.go:363-370 | The new job is in the registry with its planned steps, and nothing else changed. |
| Registry.Store.FindInFlight | internal/actions/actions.go:352-361 | In any map order, finds a job in flight exactly when there is one. |
| Registry.Store.SweepLocked | internal/actions/actions.go:1320-1326 | A job stays exactly when it was requested at most the retention time ago, finished or not; nothing else changes. |
| Registry.Store.Clone | internal/actions/actions.go:1344-1351 | Same contents in fresh step storage. |
| Registry.Store.CloneAll | internal/actions/actions.go:504-511 | In any map order, one faithful copy of each job. |
| Registry.Store.List | internal/actions/actions.go:501-518 | Every job requested at most the retention time ago exactly once, in non-decreasing request time, each copy in its own step storage. |
| Registry.SortByRequested | internal/actions/actions.go:512-516 | The in-place insertion sort sorts, and permutes. |
| Registry.SwapSinks | internal/actions/actions.go:513-515 | One swap moves the sinking element and keeps the rest in order. |
| Registry.CopiesSurvive | internal/actions/actions.go:667-680 | However many step changes, timeouts and verdicts follow, every copy handed out keeps the steps its job had then. |
| Submits.ValidateSnapshot | internal/actions/actions.go:483-498 | Passes exactly when the guard said yes and the id has an '@'; unavailable exactly when there is no guard or it cannot tell. |
| Submits.SubmitRestore | internal/actions/actions.go:423-453 | Registered exactly when every check passes, with the very options checked; each refusal exactly for its own reason; a refusal leaves no job behind. |
| Submits.SubmitDelete | internal/actions/actions.go:458-475 | Registered exactly when every check passes, with the id checked; a refusal leaves no job behind. |
| Submits.RegisteredIdWasListed | internal/actions/actions.go:483-498 | In every run the id of a registered restore or delete came from a fetch for its own domain in which every zvol dataset answered without an error, and what is sent is that id. |
| Submits.RegisteredIffListed | internal/actions/actions.go:423-498 | In every run a restore or delete whose check reads a settled record is registered if and only if the last fetch on it got an error-free answer for every dataset and one of them lists the id. |
| Submits.RunProjects | internal/actions/actions.go:423-475 | Submits never disturb the snapshot service, and what was vouched for stays vouched for. |
| FreezeBook.Book.Thaw | internal/actions/actions.go:986-999 | At most two tries, two seconds apart; the mark goes exactly with a success. |
| FreezeBook.Book.ForceThaw | internal/actions/actions.go:1108-1120 | Connects, looks for the domain and thaws in at most two tries, stopping only where libvirt or the domain is away; success is the last thaw's, and the mark goes exactly then. |
| FreezeBook.Book.Expired | internal/actions/actions.go:1090-1097 | Each mark is judged by its own clock reading: all overdue at the start are collected, and none that is not overdue at the end. |
| FreezeBook.Book.SweepTick | internal/actions/actions.go:1090-1101 | Every collected guest gets exactly one such forced thaw, and the tick makes no other call; a mark goes exactly when its thaw succeeded; every other mark and every age stays. |
| FreezeBook.OneMoreTry | internal/actions/actions.go:1099-1101 | One more forced thaw keeps the account: one try per attempted guest, and the calls of all tries in order. |
| FreezeSweep.FrozenGuestsAreForced | internal/actions/actions.go:1082-1103 | In every run the marked guests are the frozen ones; a mark is first forced at an age above one bound and at most two, and then at every tick while it stays. |
| FreezeSweep.FreezesAndThawsStand | internal/actions/actions.go:986-999 | In every run a freeze stands, with its time on the mark, until a thaw of that guest, and a thaw until its next freeze. |
| FreezeSweep.FrozenGuestsAreThawed | internal/actions/actions.go:1082-1120 | In any reachable state a frozen guest that would answer is thawed by the third tick, and no other guest is touched. |
| FreezeSweep.RunKeepsInv | internal/actions/actions.go:1082-1103 | The timing invariant of ticker, marks and forced thaws holds in every run. |
| FreezeSweep.CoveredUnlessClearedLate | internal/actions/actions.go:881-884 | With thaw and clear as separate steps, the marks cover the frozen guests throughout a run if and only if no clear comes after a new freeze was marked. |
| FreezeSweep.FrozenGuestsAreFoundAndForced | internal/actions/actions.go:860-1103 | Any number of jobs and the sweep, each freeze, mark, thaw and clear a step of its own: every mark has been forced on time, and in a run without a late clear every frozen guest is about to be marked or has such a mark. |
| FreezeSweep.MarkedGuestsAreThawed | internal/actions/actions.go:1082-1120 | The same with every call and its bookkeeping as separate steps. |
| FreezeSweep.RunKeepsForced | internal/actions/actions.go:1082-1120 | No interleaving of jobs' and the sweep's own clears makes a standing mark miss a tick. |
| FreezeSweep.LateClearUncovers | internal/actions/actions.go:986-999 | A run from the empty state in which an outstanding clear removes the mark of a second freeze: the guest stays frozen and unmarked. |
| SnapshotMerge.QueryAll | internal/snapshots/snapshots.go:330-356 | Rows of every dataset that answered, in order, and the first error; the error is empty exactly when every dataset answered without one. |
| SnapshotMerge.AllRowsJoin | internal/snapshots/snapshots.go:333-353 | Nothing is lost or reordered: the rows of a list of answers are those of its first part followed by those of its second. |
| SnapshotMerge.AllRowsOfOne | internal/snapshots/snapshots.go:341-352 | One answer gives exactly its rows, a refusal none. |
| SnapshotMerge.AllRowsHaveIds | internal/snapshots/snapshots.go:333-353 | The rows have an id if and only if some dataset's answer lists it. |
| SnapshotMerge.CleanMeansAllAnswered | internal/snapshots/snapshots.go:333-346 | No error text means no refusal and no spent budget. |
| SnapshotMerge.FirstErrIsFirst | internal/snapshots/snapshots.go:334-346 | The error text is that of the first refusal; without one it says whether the budget ended the loop. |
| SnapshotMerge.InOrderIsNewestFirst | internal/snapshots/snapshots.go:354 | A newest-first permutation of the rows exists for every list. |
| SnapshotLists.HeldListIsLastGood | internal/snapshots/snapshots.go:326-405 | In every run of the service a record holds a newest-first order of the rows of its domain's last fetch that did not fail totally, so an id exactly when some answer to that fetch lists it; it is stale exactly when the last fetch failed totally and there are such rows. |
| SnapshotLists.YesIffListed | internal/snapshots/snapshots.go:243-258 | A reader gets a yes if and only if the last fetch on the record got an error-free answer for every dataset and one of them lists the id. |
| SnapshotLists.MergeMatches | internal/snapshots/snapshots.go:371-405 | One merge keeps the list on a total failure and replaces it by the fetch's rows otherwise. |
| SnapshotMerge.HiccupsKeepTheList | internal/snapshots/snapshots.go:371-405 | Over any sequence of outcomes the held list is that of the last outcome that was not a total failure, and empty if there was none. |
| SnapshotMerge.StaleMeansOld | internal/snapshots/snapshots.go:371-405 | Stale exactly when the last outcome was a total failure and an older list is shown; stale implies an error. |
| SnapshotService.FetchingNeverSticks | internal/snapshots/snapshots.go:141-218 | In every reachable state a domain marked fetching has a fetch that will clear the mark, or waits in the sweep's queue. |
| SnapshotService.QueriesNeverOverlap | internal/snapshots/snapshots.go:283-286 | No two middleware queries are under way at once, across all domains. |
| SnapshotProgress.FetchesNeverDeadlock | internal/snapshots/snapshots.go:283-405 | As long as a fetch exists or a sweep is on, some fetch or the sweep can step. |
| SnapshotProgress.FetchStepsGetCloser | internal/snapshots/snapshots.go:283-405 | Every fetch or sweep step decreases a well-founded measure, whatever the middleware answers. |
| SnapshotProgress.FetchHearsAll | internal/snapshots/snapshots.go:333-353 | A fetch can ask about every dataset of its VM, whatever it hears, and keeps every answer in order. |
| SnapshotProgress.EveryFlagClears | internal/snapshots/snapshots.go:283-405 | From any reachable state, under any scheduler that does not idle, finitely many fetch steps leave no fetch, no sweep and no domain marked. |
| SnapshotService.YesMeansKnown | internal/snapshots/snapshots.go:226-265 | A yes is given only for an id some fetch for that domain brought back while every zvol dataset answered without an error. |
| SnapshotService.CheckedIsComing | internal/snapshots/snapshots.go:226-242 | In every run a check that does not get its yes at once has a fetch coming. |
| SnapshotService.KnownWasBrought | internal/snapshots/snapshots.go:326-405 | Ids become known only by such a fetch. |
| SnapshotService.FailedListsAreRefused | internal/snapshots/snapshots.go:243-257 | A list with an error never gets a yes, neither at once nor after the wait. |
| SnapshotService.NoYesWhileFailed | internal/snapshots/snapshots.go:226-258 | Over any stretch of a run in which a domain's record shows an error, no id of the domain gets a yes. |
| SnapshotLists.NoIsBackedIff | internal/snapshots/snapshots.go:220-258 | A no can be relied on (the last fetch on the record got an error-free answer for every dataset and none lists the id) if and only if some fetch has ended on the record since it was made. |
| SnapshotLists.BlankRecordSaysNo | internal/snapshots/snapshots.go:243-258 | A run in which a check reads its no from a record made anew before its fetch has begun. |
| SnapshotService.FloorHolds | internal/snapshots/snapshots.go:148-200 | In every run a forced request starts a fetch, and an idle sweep queues a known domain, if and only if none is coming and no clean fetch of it ended within the floor. |
| SnapshotService.OneFetchPerDomain | internal/snapshots/snapshots.go:141-218 | In runs whose sweeps drop no domain mid-fetch, a domain has at most one fetch, and only while marked. |
| SnapshotService.DroppedDomainFetchesTwice | internal/snapshots/snapshots.go:173-177 | In every state, once a sweep drops a domain that is being fetched, a forced request can run at once and leaves both fetches serving it. |
| SnapshotService.SecondFetchIffDropped | internal/snapshots/snapshots.go:141-202 | In every run without such a drop so far, a sweep and a forced request start a second fetch beside a running one if and only if the sweep drops the domain. |
| SnapshotService.OneFetchIff | internal/snapshots/snapshots.go:141-241 | Over a whole run no domain ever has two fetches if and only if no request, check or sweep starts one for a domain that a fetch still serves. |
| SnapshotService.DoubleStartNeedsDrop | internal/snapshots/snapshots.go:173-177 | Such a start needs a sweep that has dropped the domain's record mid-fetch. |
| SnapshotService.QueueUpMarks | internal/snapshots/snapshots.go:183-202 | The sweep queues and marks exactly the domains that are neither coming already nor fresh enough, each once. |
| SnapshotService.NoErrorMeansAllAnswered | internal/snapshots/snapshots.go:357-369 | The text merged into the record is empty exactly when every dataset answered without an error. |
| SnapshotService.RunKeepsInv | internal/snapshots/snapshots.go:141-405 | Slot exclusion, no stuck mark and soundness of the held lists hold in every run. |
| SnapshotStore.Service.Request | internal/snapshots/snapshots.go:141-158 | A fetch is spawned exactly when forced, not already coming and outside the floor; the answer is the held record. |
| SnapshotStore.Service.RefreshAll | internal/snapshots/snapshots.go:165-218 | In any map order, drops exactly the unknown domains, then marks and queues as the machine does. |
| SnapshotStore.Service.Check | internal/snapshots/snapshots.go:226-240 | Says yes at once from a clean held list with the id; otherwise marks the record and spawns a fetch unless one is coming. |
| SnapshotStore.Service.ValidateKnown | internal/snapshots/snapshots.go:226-265 | A clean held list with the id answers at once; yes and no come from an error-free record, "cannot tell" from a failed, missing or unfinished one. |
| SnapshotStore.Service.Has | internal/snapshots/snapshots.go:267-274 | True exactly when some row has the id. |
| SnapshotStore.Service.Admit | internal/snapshots/snapshots.go:301-310 | A vanished VM or dropped record ends the fetch and deletes the record. |
| SnapshotStore.Service.Gather | internal/snapshots/snapshots.go:326-369 | Some newest-first list of all rows, ties in any order, with the error text the machine merges. |
| SnapshotStore.Service.PourIn | internal/snapshots/snapshots.go:371-405 | The branches merge as `Merge` says, and a dropped record stays dropped. |
| SnapshotStore.StepsMatchService | internal/snapshots/snapshots.go:141-405 | Each critical section of the class is the machine step of the same name. |
| PollLoop.Poller.Loop | cmd/pademelon/main.go:340-381 | The loop's own select, slot and timers, with anything happening beside it, always stay in some run of the machine; nothing is lost and nudged polls stay apart. |
| PollLoop.Poller.Select | cmd/pademelon/main.go:356-381 | A tick starts a poll; otherwise a waiting nudge starts one, at least one interval after the last, or is put off to exactly then; the round stays in step with the machine. |
| PollLoop.Poller.Serve | cmd/pademelon/main.go:363-379 | A taken nudge polls now if the interval is over, and otherwise arms one timer for the end of the interval. |
| PollLoop.NudgeNeverLost | cmd/pademelon/main.go:356-381 | After every step an unserved request is in the slot, in the loop's hand or in a timer due within one interval of the last poll's end; so a loop at rest after that has served all; nudged polls start at least one interval after the previous poll ended. |
| PollLoop.NudgeIsServed | cmd/pademelon/main.go:356-381 | From every reachable state with a request waiting, under every scheduler that does not idle, finitely many turns start a poll, at the latest one interval after the poll in progress ends. |
| PollLoop.SomethingMoves | cmd/pademelon/main.go:356-381 | While a request waits, the loop, a timer or the clock always has a move. |
| PollLoop.RunKeepsInv | cmd/pademelon/main.go:340-381 | The invariant behind both holds after every schedule. |
| Rates.NeverMoreThanMoved | internal/libvirtsrc/source.go:580-661 | Over any history of polls, failures, missing counters, restarts and forgets, all reported rates times their intervals never exceed the bytes really moved. |
| Rates.AlmostAllIsReported | internal/libvirtsrc/source.go:580-661 | Without restarts and forgets, however many reads fail, they account for all bytes up to the held sample but for less than one byte per second. |
| Rates.BytesPerSecond | internal/libvirtsrc/source.go:656-661 | A rate exactly for a positive interval and a counter that did not go back, and the largest whole rate that fits the bytes. |
| Rates.HeldAt | internal/libvirtsrc/source.go:593-607 | The held sample is that of a good poll of this very device. |
| Rates.KeysKeepPairs | internal/libvirtsrc/source.go:588 | For a NUL-free domain name the composite key determines domain and device, and a domain's prefix opens that domain's keys only. |
| Rates.KeysCollideOnNul | internal/libvirtsrc/source.go:588 | With NUL in a name two devices can share a key. |
| Rates.Source.FillDiskLive | internal/libvirtsrc/source.go:580-616 | The string-keyed table keeps refining the history per pair; the disk shows the read and write rates against the held sample exactly when there is one and both counters are there; a failed read keeps the sample, a missing counter deletes it. |
| Rates.Source.FillNicLive | internal/libvirtsrc/source.go:620-650 | The same for network cards; a card without a device is left alone. |
| Rates.Source.ForgetDomainSamples | internal/libvirtsrc/source.go:666-679 | Removes exactly the domain's entries from both tables. |
| Rates.Without | internal/libvirtsrc/source.go:669-678 | In any map order, drops exactly the keys under the prefix. |
| Auth.BackoffIsDoubling | internal/web/auth.go:56-62 | Despite the capped shift the delay is base times two to the n-1 up to the maximum for every n, and monotone. |
| Auth.DelaysDouble | internal/web/auth.go:53-62 | Half a second, then twice the delay before, up to half a minute. |
| Auth.ShiftNeverOverflows | internal/web/auth.go:56-62 | The shifted value stays inside 63 bits of nanoseconds. |
| Auth.CountIsLatestRunIff | internal/web/auth.go:69-96 | For every log, stamps in any order: the count is the length of the source's latest run of failures at most an hour apart if and only if no other source's stamp has cut that run short. |
| Auth.SmallSkewsAreHarmless | internal/web/auth.go:69-96 | With stamps out of order by at most some skew the count is still the latest run, unless two own failures lie within that skew of an hour apart. |
| Auth.RunLengthIsLatestRun | internal/web/auth.go:69-96 | With stamps in order the count is always the latest run, whatever other sources did in between. |
| Auth.LastFailIsOwn | internal/web/auth.go:69-96 | What is remembered as a source's latest failure depends on its own attempts only. |
| Auth.PruningNeedsLater | internal/web/auth.go:69-76 | No source is pruned unless some failure is stamped more than an hour past its own latest. |
| Auth.OthersCanEndARun | internal/web/auth.go:69-76 | An instance of a run cut short by another source's stamp; it takes a handler that stalls for an hour between reading the clock and taking the lock. |
| Auth.NoFailNoRun | internal/web/auth.go:69-96 | A run is counted exactly when a failure is remembered. |
| Auth.AuthState.ThrottleFailed | internal/web/auth.go:69-89 | For stamps in any order: the map holds exactly the sources whose run can still go on, each with the length of its run, and the delay belongs to that count. |
| Auth.AuthState.ClearFailures | internal/web/auth.go:92-96 | Forgets this source and no other. |

## Left out

- Auth.AuthState.ThrottleFailed: the sleep itself and the `blockedDown` field, which nothing reads, are not modelled.
- Rpc.NoSendBlocks: ids are unbounded; the wrap-around of a 64-bit id counter is not modelled.
- Rpc.AnswersAreOwn: what a call does with the body, and the text wrapped around an error, are not modelled.
- RpcConnection.LossIsNeverMissed: the version reply comes off the connection being checked; a reply to that id on an older socket is not modelled, and `drop` with its `setState` is one step here.
- FreezeSweep.FrozenGuestsAreForced: a thaw with its clear is one step and a sweep pass ends before the next tick; `FrozenGuestsAreFoundAndForced` treats the separate steps.
- Executors.Run: waits and calls are bounded by the costs of `World.Host`, and the runner sees its timer at most one `slack` late; the claims about the bound need that, the others hold for any bounds.
- Executors.Runner.Snapshot: the mark is exact when no other goroutine touches the book meanwhile; interleavings of books are in `FreezeSweep`.
- Executors.Runner.Restore: two jobs are not run side by side, so nothing is said about a start job beside a restore.
- Registry.Store.Register: job ids are fresh.
- Retention.OneUnfinishedIffBoundsFit: scheduling delays and the start of the timer after the request are one constant slack.
- SnapshotStore.Service.Gather: the wait of up to three seconds for a reconnect before the queries is not modelled.
- SnapshotStore.Service.PourIn: the connection status stored beside the list is not modelled; it is shown, and nothing else reads it.
- SnapshotStore.Service.ValidateKnown: the wait is a bounded number of looks instead of a deadline.
- SnapshotProgress.EveryFlagClears: callers are silent while the fetches finish; callers that keep asking can start new fetches for ever.
- PollLoop.Poller.Loop: reading the clock and arming the timer is one step; cancelling the context is the end of the rounds.
- PollLoop.NudgeIsServed: senders are silent meanwhile, and the clock moves only when something is to be waited for.
- Rates.BytesPerSecond: whole-number division; the original divides floating-point numbers and truncates.
- Names are free of NUL in `Rates` because libvirt's are C strings; `KeysCollideOnNul` shows what that excludes.
- CPU percentage and balloon memory: one-counter arithmetic like the rates, and a table lookup.
- The startup sweep for frozen guests (`SweepFrozenOnce`, `sweepAgents`): a pass over agents that ends in `FreezeBook.Book.Thaw`.
- `Submit` for plain verbs and `ShutdownAll`: table lookups in front of `Register`.
- Detail lines, log lines and the wording of errors; snapshot names; random ids.
- XML and JSON decoding, TLS, websocket framing, web routes, cookies, flags, the page itself.
- The difference between a nil and an empty list.
