/**
 The runner and the executors of internal/actions/actions.go: `run`, `execute`, `restore`, `reboot`, `snapshot`,
 `waitStopped` and `shutdown`, for every answer of the outside world and with the runner's timer free to strike
 between any two steps.
 */
module Executors {
  import opened Basics
  import opened Clocks
  import opened Jobs
  import opened Protocol
  import opened World
  import opened SnapshotId
  import opened Datasets
  import opened FreezeBook
  import opened SnapshotTrace

  datatype Config = Config(timeout: int, rebootTimeout: int, waitPoll: int, shutdownRetry: int, snapshotTimeout: int)

  /** `New` replaces what is not positive. */
  function WithDefaults(c: Config): (d: Config)
    ensures Sound(d)
  {
    Config(if c.timeout <= 0 then ACTION_TIMEOUT else c.timeout,
           if c.rebootTimeout <= 0 then REBOOT_TIMEOUT else c.rebootTimeout,
           if c.waitPoll <= 0 then 2 * SECOND else c.waitPoll,
           if c.shutdownRetry <= 0 then SHUTDOWN_RETRY_INTERVAL else c.shutdownRetry,
           if c.snapshotTimeout <= 0 then SNAPSHOT_ACTION_TIMEOUT else c.snapshotTimeout)
  }

  /** What is set stays as it is, and what is not set gets the shipped value. */
  lemma DefaultsFillGaps(c: Config)
    ensures Sound(c) ==> WithDefaults(c) == c
    ensures WithDefaults(Config(0, 0, 0, 0, 0))
            == Config(10 * SECOND, 3 * MINUTE, 2 * SECOND, 20 * SECOND, 90 * SECOND)
  {
  }

  predicate Sound(c: Config) {
    c.timeout > 0 && c.rebootTimeout > 0 && c.waitPoll > 0 && c.shutdownRetry > 0 && c.snapshotTimeout > 0
  }

  /** The runner's bound on one job. */
  function Bound(c: Config, o: Order): int {
    if o.action.Reboot? || (o.action.Restore? && o.mode.Staged?) then c.rebootTimeout + MINUTE
    else if o.action.Snapshot? then c.snapshotTimeout
    else c.timeout
  }

  datatype Error =
    | ConnectFailed | DomainNotFound | BadId | BadMode | StateUnreadable | ShutdownFailed | NotStopped
    | RollbackFailed | StartFailed | CallFailed | HoldFailed | CreateFailed | NothingToSnapshot

  datatype Result = Ok | Err(error: Error)

  function PlanOf(o: Order): Plan {
    match o.action
    case Reboot => Rebooting
    case Shutdown => Rebooting
    case _ =>
      if o.mode.Staged? then StagedRestore(o.snapshot, o.ack, o.startAfter) else DirectRestore(o.snapshot, o.ack)
  }

  // ---- re-sent shutdown requests ----

  /** One re-send: its number, the clock reading that triggered it and the one taken after it. */
  datatype Resend = Resend(attempt: int, at: int, end: int)

  /** Numbered 2, 3, ... and at least `retry` apart, counting from `start`. */
  predicate Spaced(rs: seq<Resend>, start: int, retry: int) {
    forall i :: 0 <= i < |rs| ==>
      && rs[i].attempt == i + 2
      && rs[i].at <= rs[i].end
      && rs[i].at >= (if i == 0 then start else rs[i - 1].end) + retry
  }

  /** At most `wait/retry` re-sends, plus one if our own code may take time between two clock readings. */
  predicate Few(rs: seq<Resend>, wait: int, retry: int, slack: nat) {
    && (rs != [] ==> (|rs| - 1) * retry <= wait)
    && (slack == 0 ==> |rs| * retry <= wait)
  }

  /** When the request was last sent, `start` being the original one. */
  function LastSend(rs: seq<Resend>, start: int): int {
    if rs == [] then start else rs[|rs| - 1].end
  }

  /** No request is older than `most` when the next one goes out. */
  predicate Prompt(rs: seq<Resend>, start: int, most: int) {
    forall i :: 0 <= i < |rs| ==> rs[i].at <= LastSend(rs[..i], start) + most
  }

  lemma PromptGrows(rs: seq<Resend>, start: int, most: int, next: Resend)
    requires Prompt(rs, start, most) && next.at <= LastSend(rs, start) + most
    ensures Prompt(rs + [next], start, most) && LastSend(rs + [next], start) == next.end
  {
    var longer := rs + [next];
    forall i | 0 <= i < |longer|
      ensures longer[i].at <= LastSend(longer[..i], start) + most
    {
      assert longer[..i] == if i < |rs| then rs[..i] else rs;
    }
  }

  /** What the wait loop knows of its re-sends: `first` is its first clock reading, `lastSent` its latest send. */
  predicate Logged(rs: seq<Resend>, start: int, first: int, lastSent: int, c: Config, slack: nat) {
    && start <= first
    && Spaced(rs, start, c.shutdownRetry) && Few(rs, c.rebootTimeout, c.shutdownRetry, slack)
    && lastSent >= first + |rs| * c.shutdownRetry
    && (rs != [] ==> rs[|rs| - 1].end == lastSent)
  }

  lemma ResendIsLogged(rs: seq<Resend>, start: int, first: int, lastSent: int, c: Config, slack: nat,
                       late: int, due: int, end: int)
    requires Logged(rs, start, first, lastSent, c, slack)
    requires lastSent <= late <= first + c.rebootTimeout && late <= due <= late + slack
    requires due - lastSent >= c.shutdownRetry && due <= end
    ensures Logged(rs + [Resend(|rs| + 2, due, end)], start, first, end, c, slack)
  {
    var longer := rs + [Resend(|rs| + 2, due, end)];
    assert |longer| * c.shutdownRetry == |rs| * c.shutdownRetry + c.shutdownRetry;
  }

  /** One shutdown request: the agent alone, the agent and then ACPI because it refused, or ACPI alone. */
  predicate ShutdownRan(asked: bool, calls: seq<Ev>, ok: bool) {
    if !asked then calls == [Acpi(ok)]
    else
      || (ok && calls in [[AgentShutdown(Accepted)], [AgentShutdown(Disappeared)]])
      || calls == [AgentShutdown(AgentReply.Refused), Acpi(ok)]
  }

  /** Where a finished executor leaves the protocol. */
  function EndPhase(r: Result): Phase {
    if r.Ok? then Over(true) else if r.error.NotStopped? then Watching(true) else Over(false)
  }

  predicate StopError(e: Error) {
    e.ShutdownFailed? || e.StateUnreadable? || e.NotStopped?
  }

  /** How asking the guest to stop and waiting for it can end. */
  predicate StopEnds(r: Result, phase: Phase, p: Pills) {
    && (r.Ok? ==> phase == Ready && p == ALL_PENDING.(stop := Done, verify := Done))
    && (r.Err? ==> StopError(r.error) && phase == EndPhase(r))
    && (r.Err? ==> p == if r.error.ShutdownFailed? then ALL_PENDING.(stop := Failed)
                        else ALL_PENDING.(stop := Done, verify := Failed))
  }

  predicate RebootEnds(r: Result, phase: Phase, p: Pills) {
    && (r.Err? && !r.error.StartFailed? ==> StopEnds(r, phase, p))
    && phase == EndPhase(r)
    && (r.Ok? ==> p == ALL_PENDING.(stop := Done, verify := Done, start := Done))
    && (r.Err? && r.error.StartFailed? ==> p == ALL_PENDING.(stop := Done, verify := Done, start := Failed))
  }

  /** The phases before a rollback have landed (there are none in a direct restore). */
  predicate BeforeRollback(o: Order, p: Pills) {
    p.(stop := Pending, verify := Pending, rollback := Pending, start := Pending) == ALL_PENDING
    && if o.mode.Staged? then p.verify.Done? && Settled(p.stop) else p.verify.Pending? && p.stop.Pending?
  }

  /** The job was refused before it touched anything. */
  predicate Untouched(r: Result) {
    r.Err? && (r.error.BadId? || r.error.BadMode?)
  }

  /** How the rollback and the optional start can end. */
  predicate RewindEnds(o: Order, r: Result, p: Pills) {
    && BeforeRollback(o, p)
    && (r.Ok? ==> p.rollback.Done? && p.start == if o.mode.Staged? && o.startAfter then Done else Pending)
    && (r.Err? ==> (r.error.RollbackFailed? && p.rollback.Failed? && p.start.Pending?)
                   || (r.error.StartFailed? && p.rollback.Done? && p.start.Failed? && o.startAfter && o.mode.Staged?))
  }

  predicate RestoreEnds(o: Order, r: Result, phase: Phase, p: Pills) {
    && (r == Err(BadId) <==> '@' !in o.snapshot)
    && (r == Err(BadMode) <==> '@' in o.snapshot && o.mode.OtherMode?)
    && (if Untouched(r) then phase == FirstPhase(PlanOf(o)) && p == ALL_PENDING else phase == EndPhase(r))
    && (Untouched(r) || RewindEnds(o, r, p)
        || (o.mode.Staged? && r.Err? && StopError(r.error)
            && (StopEnds(r, phase, p) || (r.error.StateUnreadable? && p == ALL_PENDING.(verify := Failed)))))
  }

  /** What the outside world answered to one snapshot job. */
  datatype Answers = Answers(freezeOK: bool, pauseOK: bool, oks: seq<bool>, last: seq<Ev>, released: bool)

  /** How a snapshot job that reached its creates can end. */
  predicate SnapshotEnds(hold: Hold, a: Answers, r: Result, p: Pills) {
    var failed := exists i :: 0 <= i < |a.oks| && !a.oks[i];
    && r == (if failed then Err(CreateFailed) else Ok)
    && p == ALL_PENDING.(prepare := if hold.NoHold? then Skipped else Done,
                        snapshot := if failed then Failed else Done,
                        resume := if hold.NoHold? then Skipped else if a.released then Done else Failed)
  }

  /** Everything a snapshot job on `vm` did: `calls` is the whole list of external calls. */
  predicate SnapshotRan(vm: Vm, name: string, a: Answers, calls: seq<Ev>, r: Result, p: Pills) {
    var datasets, first := Zvols(vm.disks), HoldCalls(vm, a.freezeOK, a.pauseOK);
    if datasets == [] then calls == [] && r == Err(NothingToSnapshot) && p == ALL_PENDING
    else if !HoldWorked(vm, a.freezeOK, a.pauseOK) then
      calls == first && r == Err(HoldFailed) && p == ALL_PENDING.(prepare := Failed)
    else
      && |a.oks| == |datasets| && calls == first + Creates(datasets, name, a.oks) + a.last
      && Releases(HoldOf(vm, a.freezeOK), a.last, a.released)
      && SnapshotEnds(HoldOf(vm, a.freezeOK), a, r, p)
  }

  /** Does this verb go through the stop-and-confirm protocol? */
  predicate ByProtocol(o: Order) {
    o.action.Restore? || o.action.Reboot? || o.action.Shutdown?
  }

  /** How a job of a guarded verb that got a connection can end. */
  predicate GuardedEnds(o: Order, r: Result, phase: Phase, p: Pills) {
    if r == Err(DomainNotFound) then phase == Over(false) && p == ALL_PENDING
    else if o.action.Restore? then RestoreEnds(o, r, phase, p)
    else if o.action.Reboot? then RebootEnds(r, phase, p)
    else p == ALL_PENDING && ((r.Ok? && phase == Watching(false)) || (r == Err(ShutdownFailed) && phase == Over(false)))
  }

  /** The call of a verb that is one libvirt call. */
  function VerbCall(o: Order, ok: bool): Ev {
    match o.action
    case Start => StartGuest(ok)
    case Pause => Suspend(ok)
    case Resume => ResumeGuest(ok)
    case _ => Destroy(ok)
  }

  /** Everything a job of another verb did after finding its domain. */
  ghost predicate PlainRan(o: Order, seen: Option<Vm>, name: string, calls: seq<Ev>, r: Result, p: Pills) {
    if !o.action.Snapshot? then p == ALL_PENDING && r in {Ok, Err(CallFailed)} && calls == [VerbCall(o, r.Ok?)]
    else if seen.None? then p == ALL_PENDING && r == Err(DomainNotFound) && calls == []
    else exists a :: SnapshotRan(seen.value, name, a, calls, r, p)
  }

  /** Everything a delete job did: one call that names the validated id, or none if the id is malformed. */
  predicate DeleteRan(o: Order, calls: seq<Ev>, r: Result) {
    if '@' !in o.snapshot then calls == [] && r == Err(BadId)
    else
      && |calls| == 1 && calls[0].DeleteSnapshot? && Rebuilt(calls[0].dataset, calls[0].name) == o.snapshot
      && r == (if calls[0].ok then Ok else Err(CallFailed))
  }

  /** Everything a job of an unguarded verb did after connecting. */
  ghost predicate UnguardedRan(o: Order, seen: Option<Vm>, name: string, calls: seq<Ev>, r: Result, p: Pills) {
    if o.action.Delete? then p == ALL_PENDING && DeleteRan(o, calls, r)
    else
      && calls != [] && calls[0].List?
      && if calls[0].listing.Found? then PlainRan(o, seen, name, calls[1..], r, p)
         else calls[1..] == [] && r == Err(DomainNotFound) && p == ALL_PENDING
  }

  /** Everything a job did outside the process, from its connect to its end. */
  ghost predicate JobRan(o: Order, seen: Option<Vm>, name: string, t: seq<Ev>, r: Result, p: Pills) {
    && t != [] && t[0] == Connect(r != Err(ConnectFailed))
    && if r == Err(ConnectFailed) then t[1..] == [] && p == ALL_PENDING
       else if ByProtocol(o) then
         && Allowed(PlanOf(o), t) && GuardedEnds(o, r, Follow(PlanOf(o), t), p)
         && (o.action.Shutdown? ==> ShutdownOnly(t[1..], r))
       else UnguardedRan(o, seen, name, t[1..], r, p)
  }

  /** Everything a shutdown job did after connecting. */
  predicate ShutdownOnly(calls: seq<Ev>, r: Result) {
    && calls != [] && calls[0].List?
    && if !calls[0].listing.Found? then |calls| == 1 && r == Err(DomainNotFound)
       else calls[1..] != [] && ShutdownRan(calls[1].AgentShutdown?, calls[1..], r.Ok?)
  }

  lemma RanAsPlanned(o: Order, seen: Option<Vm>, name: string, t: seq<Ev>, calls: seq<Ev>, r: Result, p: Pills)
    requires r != Err(ConnectFailed)
    requires ByProtocol(o) ==> Allowed(PlanOf(o), t) && GuardedEnds(o, r, Follow(PlanOf(o), t), p)
    requires !ByProtocol(o) ==> t == [Connect(true)] + calls && UnguardedRan(o, seen, name, calls, r, p)
    requires o.action.Shutdown? ==> t == [Connect(true)] + calls && ShutdownOnly(calls, r)
    ensures JobRan(o, seen, name, t, r, p)
  {
    if ByProtocol(o) {
      ConnectsFirst(PlanOf(o), t);
      assert o.action.Shutdown? ==> t[1..] == calls;
    } else {
      assert t[1..] == calls;
    }
  }

  /**
   Whatever the world answers: every create a snapshot job makes on a running guest lies between a freeze or pause that
   succeeded and the release that matches it.
   */
  lemma SnapshotJobHoldsGuest(o: Order, vm: Vm, name: string, t: seq<Ev>, r: Result, p: Pills, i: nat)
    requires o.action.Snapshot? && vm.running && JobRan(o, Some(vm), name, t, r, p)
    requires i < |t| && t[i].CreateSnapshot?
    ensures exists h, k :: h < i < k && HeldBetween(t, h, k)
  {
    var calls := t[1..][1..];
    assert t == t[..2] + calls && calls[i - 2] == t[i];
    var a :| SnapshotRan(vm, name, a, calls, r, p);
    RanIsHeld(vm, name, a, t[..2], calls, r, p, i - 2);
  }

  lemma RanIsHeld(vm: Vm, name: string, a: Answers, before: seq<Ev>, calls: seq<Ev>, r: Result, p: Pills, i: nat)
    requires vm.running && SnapshotRan(vm, name, a, calls, r, p) && i < |calls| && calls[i].CreateSnapshot?
    ensures exists h, k :: h < |before| + i < k && HeldBetween(before + calls, h, k)
  {
    var datasets, hold := Zvols(vm.disks), HoldCalls(vm, a.freezeOK, a.pauseOK);
    var creates := Creates(datasets, name, a.oks);
    CallsAreGuarded(vm, a.freezeOK, a.pauseOK, datasets, name, a.oks, a.last, a.released);
    GuardedIsHeld(before, hold, creates, a.last);
    GuestIsHeld(hold, creates, a.last, i, i);
  }

  /** One create for each dataset, in order, all under one name. */
  predicate CreatesEach(calls: seq<Ev>, datasets: seq<string>, name: string) {
    && |calls| == |datasets|
    && forall k :: 0 <= k < |calls| ==>
         calls[k].CreateSnapshot? && calls[k].dataset == datasets[k] && calls[k].name == name
  }

  /** How a guest is got to hold still: frozen if its agent answers, paused otherwise or when the freeze fails. */
  predicate Holds(vm: Vm, calls: seq<Ev>) {
    if !vm.running then calls == []
    else if !vm.agentOK then calls == [Suspend(true)]
    else calls == [Ev.Freeze(true)] || calls == [Ev.Freeze(false), Suspend(true)]
  }

  lemma PartsAsSaid(vm: Vm, name: string, a: Answers, calls: seq<Ev>, r: Result, p: Pills)
    requires SnapshotRan(vm, name, a, calls, r, p) && r in {Ok, Err(CreateFailed)}
    ensures |a.oks| == |Zvols(vm.disks)|
    ensures var hold, creates := HoldCalls(vm, a.freezeOK, a.pauseOK), Creates(Zvols(vm.disks), name, a.oks);
            && calls == hold + creates + a.last && Holds(vm, hold) && CreatesEach(creates, Zvols(vm.disks), name)
    ensures (vm.running <==> a.last != []) && forall i :: 0 <= i < |a.last| ==> Letting(a.last[i])
  {
  }

  /**
   Whatever the world answers: a snapshot job that could hold its guest makes one create for each zvol dataset, in disk
   order and under the job's name, between the calls that hold the guest and those that let it go.
   */
  lemma SnapshotJobCalls(o: Order, vm: Vm, name: string, t: seq<Ev>, r: Result, p: Pills)
    returns (hold: seq<Ev>, creates: seq<Ev>, release: seq<Ev>)
    requires o.action.Snapshot? && JobRan(o, Some(vm), name, t, r, p) && r in {Ok, Err(CreateFailed)}
    ensures t == [Connect(true), List(Found)] + (hold + creates + release)
    ensures Holds(vm, hold) && CreatesEach(creates, Zvols(vm.disks), name)
    ensures (vm.running <==> release != []) && forall i :: 0 <= i < |release| ==> Letting(release[i])
  {
    var calls := t[1..][1..];
    var a :| SnapshotRan(vm, name, a, calls, r, p);
    PartsAsSaid(vm, name, a, calls, r, p);
    hold, creates, release := HoldCalls(vm, a.freezeOK, a.pauseOK), Creates(Zvols(vm.disks), name, a.oks), a.last;
    assert t == t[..2] + calls && t[..2] == [Connect(true), List(Found)];
  }

  /** A verb that is one libvirt call makes that call and no other, and reports how it went. */
  lemma OneCallPerVerb(o: Order, seen: Option<Vm>, name: string, t: seq<Ev>, r: Result, p: Pills)
    requires JobRan(o, seen, name, t, r, p) && r in {Ok, Err(CallFailed)}
    ensures o.action.Start? ==> t == [Connect(true), List(Found), StartGuest(r.Ok?)]
    ensures o.action.Pause? ==> t == [Connect(true), List(Found), Suspend(r.Ok?)]
    ensures o.action.Resume? ==> t == [Connect(true), List(Found), ResumeGuest(r.Ok?)]
    ensures o.action.ForceOff? ==> t == [Connect(true), List(Found), Destroy(r.Ok?)]
  {
  }

  /**
   Whatever the world answers: a restore job's rollback names the job's snapshot with exactly the acknowledged flag and
   is the job's only one; in a staged restore the call just before it read shut off; and a start can only come right
   after it, if it succeeded and the job was asked to start the guest.
   */
  lemma RestoreJobIsSafe(o: Order, seen: Option<Vm>, name: string, t: seq<Ev>, r: Result, p: Pills, i: nat)
    requires o.action.Restore? && JobRan(o, seen, name, t, r, p) && i < |t| && t[i].Rollback?
    ensures Rebuilt(t[i].dataset, t[i].name) == o.snapshot && t[i].recursive == o.ack
    ensures o.mode.Staged? ==> i > 0 && t[i - 1] == Info(Off)
    ensures forall k :: 0 <= k < |t| && t[k].Rollback? ==> k == i
    ensures forall k :: 0 <= k < |t| && t[k].StartGuest? ==> k == i + 1 && t[i].ok && o.mode.Staged? && o.startAfter
  {
    var plan := PlanOf(o);
    assert |t[1..]| == |t| - 1;
    RollbackNeedsOff(plan, t, i);
    forall k | 0 <= k < |t| && t[k].Rollback?
      ensures k == i
    {
      RollbackAtMostOnce(plan, t, i, k);
    }
    forall k | 0 <= k < |t| && t[k].StartGuest?
      ensures k == i + 1 && t[i].ok && o.mode.Staged? && o.startAfter
    {
      StartNeedsRollback(plan, t, k);
    }
  }

  /** A restore job that reports success has rolled back. */
  lemma RestoreJobRollsBack(o: Order, seen: Option<Vm>, name: string, t: seq<Ev>, p: Pills)
    requires o.action.Restore? && JobRan(o, seen, name, t, Ok, p)
    ensures exists i :: 0 <= i < |t| && t[i].Rollback? && t[i].ok
  {
    HowItEnds(PlanOf(o), t);
    if t[|t| - 1].StartGuest? {
      StartNeedsRollback(PlanOf(o), t, |t| - 1);
      assert t[|t| - 2].Rollback?;
    }
  }

  lemma NotFoundRan(o: Order, seen: Option<Vm>, name: string, l: Listing)
    requires !o.action.Delete? && !l.Found?
    ensures UnguardedRan(o, seen, name, [List(l)], Err(DomainNotFound), ALL_PENDING)
  {
  }

  lemma FoundThenRan(o: Order, seen: Option<Vm>, name: string, more: seq<Ev>, r: Result, p: Pills)
    requires !o.action.Delete? && PlainRan(o, seen, name, more, r, p)
    ensures UnguardedRan(o, seen, name, [List(Found)] + more, r, p)
  {
    assert ([List(Found)] + more)[1..] == more;
  }

  class Runner {
    const job: Job
    const host: Host
    const cfg: Config
    const book: Book
    const startedAt: int
    /** The runner's timer has struck: the job has its verdict and this executor is abandoned. */
    var timedOut: bool
    /** Where the job's protocol stands after the calls made so far. */
    ghost var phase: Phase
    /** Where this executor has put each phase; the job agrees except where the timer struck an active one. */
    ghost var own: Pills

    ghost predicate Valid()
      reads this, job, job.steps, host
    {
      && job.Valid() && Sound(cfg) && cfg.waitPoll <= host.costs.nap && 2 * SECOND <= host.costs.nap
      && startedAt <= host.now && Drifted(own, job.pills)
      && (if timedOut then job.state.JobTimeout? && host.now >= startedAt + Bound(cfg, job.order)
          else job.state.JobRunning?)
    }

    constructor (job: Job, host: Host, cfg: Config, book: Book)
      requires job.Valid() && job.state.JobRunning?
      requires Sound(cfg) && cfg.waitPoll <= host.costs.nap && 2 * SECOND <= host.costs.nap
      ensures Valid() && this.job == job && this.host == host && this.cfg == cfg && this.book == book
      ensures startedAt == host.now && !timedOut && phase == Unconnected && own == job.pills
    {
      this.job, this.host, this.cfg, this.book, startedAt, timedOut := job, host, cfg, book, host.now, false;
      phase, own := Unconnected, job.pills;
    }

    ghost predicate Planned(n: StepName) {
      Has(StepsFor(job.order), n)
    }

    ghost predicate InStep()
      reads this, host
    {
      phase == Follow(PlanOf(job.order), host.trace)
    }

    /** The timer strikes once, when the bound has passed: perhaps at once, at the latest one stretch of code later. */
    method Race()
      requires Valid()
      modifies this`timedOut, job, job.steps
      ensures Valid() && job.steps == old(job.steps)
      ensures old(timedOut) ==> timedOut
      ensures timedOut || host.now < startedAt + Bound(cfg, job.order) + host.costs.slack
    {
      var due := startedAt + Bound(cfg, job.order);
      var strike: bool := *;
      if !timedOut && host.now >= due && (strike || host.now >= due + host.costs.slack) {
        DriftOutlivesExpiry(own, job.pills);
        job.TimeOut();
        timedOut := true;
      }
    }

    /** Moves a phase. */
    method Mark(n: StepName, st: StepState)
      requires Valid() && Planned(n) && Ordered(job.order, Set(own, n, st))
      modifies this`timedOut, this`own, job, job.steps
      ensures Valid() && job.steps == old(job.steps)
      ensures own == Set(old(own), n, st)
      ensures old(timedOut) ==> timedOut
    {
      Race();
      DriftKeepsOrder(job.order, Set(own, n, st), Set(job.pills, n, st));
      job.SetStep(n, st);
      own := Set(own, n, st);
    }

    lemma PlanOfReboot()
      requires job.order.action.Reboot?
      ensures Planned(StepStop) && Planned(StepVerify) && Planned(StepStart)
    {
      var plan := StepsFor(job.order);
      assert plan[0].name == StepStop && plan[1].name == StepVerify && plan[2].name == StepStart;
    }

    // ---- external calls, each one step of the protocol and made while its phase is shown active ----

    /** The guest may be asked to stop: in the stop phase, again during the wait, or by a job that has no phases. */
    ghost predicate MayAsk()
      reads this`own
    {
      own.stop.Active? || own.verify.Active? || job.order.action.Shutdown?
    }

    method AskAgent() returns (reply: AgentReply)
      requires InStep() && (phase.Stopping? || phase == Watching(true)) && MayAsk()
      modifies this`phase, host
      ensures InStep() && phase == Asked(reply, old(phase).Watching?) && host.looks == old(host.looks)
      ensures host.trace == old(host.trace) + [AgentShutdown(reply)]
      ensures old(host.now) <= host.now <= old(host.now) + host.costs.agent
    {
      reply := host.AgentShuts();
      FollowOne(PlanOf(job.order), old(host.trace), AgentShutdown(reply));
      phase := Asked(reply, phase.Watching?);
    }

    method AskAcpi() returns (ok: bool)
      requires InStep() && (phase.Stopping? || phase == Watching(true) || phase.Falling?) && MayAsk()
      modifies this`phase, host
      ensures InStep() && host.trace == old(host.trace) + [Acpi(ok)] && host.looks == old(host.looks)
      ensures phase == if ok || old(phase).Watching? || old(phase) == Falling(true) then Watching(false)
              else Over(false)
      ensures old(host.now) <= host.now <= old(host.now) + host.costs.call
    {
      ok := host.AcpiShuts();
      FollowOne(PlanOf(job.order), old(host.trace), Acpi(ok));
      phase := Next(PlanOf(job.order), phase, Acpi(ok));
    }

    method Read() returns (reading: Reading)
      requires InStep() && (phase.Fresh? || (phase.Watching? && own.verify.Active?))
      modifies this`phase, host
      ensures InStep()
      ensures phase == if reading.Off? then Ready else if reading.Unreadable? then Over(false)
                       else if old(phase).Fresh? then Stopping else Watching(true)
      ensures old(host.now) <= host.now <= old(host.now) + host.costs.call
    {
      reading := host.GetInfo();
      FollowOne(PlanOf(job.order), old(host.trace), Info(reading));
      phase := Next(PlanOf(job.order), phase, Info(reading));
    }

    method StartAgain() returns (ok: bool)
      requires InStep() && ((phase.Ready? && job.order.action.Reboot?) || phase.RolledBack?) && own.start.Active?
      modifies this`phase, host
      ensures InStep() && phase == Over(ok) && old(host.now) <= host.now
    {
      ok := host.Starts();
      FollowOne(PlanOf(job.order), old(host.trace), StartGuest(ok));
      phase := Over(ok);
    }

    method RollBack(dataset: string, name: string, recursive: bool) returns (ok: bool)
      requires InStep() && phase.Ready? && job.order.action.Restore? && own.rollback.Active?
      requires Rebuilt(dataset, name) == job.order.snapshot && recursive == job.order.ack
      modifies this`phase, host
      ensures InStep() && old(host.now) <= host.now
      ensures phase == if ok && job.order.mode.Staged? && job.order.startAfter then RolledBack else Over(ok)
    {
      ok := host.Rollbacks(dataset, name, recursive);
      FollowOne(PlanOf(job.order), old(host.trace), Rollback(dataset, name, recursive, ok));
      phase := Next(PlanOf(job.order), phase, Rollback(dataset, name, recursive, ok));
    }

    /**
     Graceful shutdown: the agent when the last poll saw one, ACPI when it refuses. `asked` says whether the last poll
     saw an agent.
     */
    method Shutdown() returns (ok: bool, ghost asked: bool, ghost calls: seq<Ev>)
      requires InStep() && (phase.Stopping? || phase == Watching(true)) && MayAsk()
      modifies this`phase, host
      ensures InStep()
      ensures host.looks == old(host.looks) + [asked]
      ensures host.trace == old(host.trace) + calls && ShutdownRan(asked, calls, ok)
      ensures host.now <= old(host.now) + host.costs.agent + host.costs.call && old(host.now) <= host.now
      ensures old(phase).Stopping? ==> phase == if ok then Watching(false) else Over(false)
      ensures old(phase).Watching? ==> phase == Watching(false)
    {
      var agentConnected := host.AgentSeen();
      asked, calls := agentConnected, [];
      if agentConnected {
        var reply := AskAgent();
        calls := [AgentShutdown(reply)];
        if !reply.Refused? { return true, asked, calls; }
      }
      ok := AskAcpi();
      Joined(old(host.trace), calls, [Acpi(ok)]);
      calls := calls + [Acpi(ok)];
    }

    /** The stop phase has landed and only the wait is under way. */
    ghost predicate Waits()
      reads this`own
    {
      && Planned(StepStop) && Planned(StepVerify)
      && own == ALL_PENDING.(stop := Done, verify := Active)
      && (job.order.action.Reboot? || (job.order.action.Restore? && job.order.mode.Staged?))
    }

    /** The `resend` closure, and the clock reading after it. */
    method SendAgain() returns (at: int)
      requires Valid() && Waits() && InStep() && phase == Watching(true)
      modifies this`timedOut, this`own, this`phase, job, job.steps, host
      ensures Valid() && Waits() && InStep() && job.steps == old(job.steps)
      ensures old(timedOut) ==> timedOut
      ensures phase == Watching(false) && at == host.now
      ensures old(host.now) <= host.now <= old(host.now) + host.costs.agent + host.costs.call + host.costs.slack
    {
      var sent;
      ghost var asked, calls;
      sent, asked, calls := Shutdown();
      Mark(StepStop, Done);
      at := host.Now();
    }

    /** What every part of the wait keeps. */
    twostate predicate Kept()
      reads this, job, job.steps, host
    {
      Valid() && own == old(own) && InStep() && job.steps == old(job.steps) && (old(timedOut) ==> timedOut)
    }

    /** One turn of the wait loop. `late` and `due` are its clock readings, `end` the one after a re-send. */
    method Turn(limit: int, lastSent: int) returns (stop: Option<Result>, late: int, due: int, end: Option<int>)
      requires Valid() && Waits() && InStep() && phase.Watching? && lastSent <= host.now
      modifies this`timedOut, this`own, this`phase, job, job.steps, host
      ensures Kept() && old(host.now) <= host.now
      ensures stop == Some(Ok) ==> phase.Ready?
      ensures stop == Some(Err(StateUnreadable)) ==> phase == Over(false)
      ensures stop == Some(Err(NotStopped)) ==>
                phase == Watching(true) && limit < host.now <= old(host.now) + host.costs.call + host.costs.slack
      ensures stop.Some? ==> stop.value in {Ok, Err(StateUnreadable), Err(NotStopped)}
      ensures stop.Some? ==> host.now <= old(host.now) + host.costs.call + host.costs.slack
      ensures stop.None? ==> phase == Watching(end.None?) && (end.Some? <==> due - lastSent >= cfg.shutdownRetry)
      ensures stop.None? ==>
                && old(host.now) <= late <= limit && late <= due <= late + host.costs.slack
                && late <= old(host.now) + host.costs.call + host.costs.slack
      ensures stop.None? && end.None? ==> due + cfg.waitPoll <= host.now <= due + host.costs.nap
      ensures stop.None? && end.Some? ==>
                && due <= end.value && end.value + cfg.waitPoll <= host.now <= end.value + host.costs.nap
                && host.now <= due + host.costs.agent + host.costs.call + host.costs.slack + host.costs.nap
    {
      var reading := Read();
      late, due, end := host.now, host.now, None;
      if reading.Unreadable? { return Some(Err(StateUnreadable)), late, due, end; }
      if reading.Off? { return Some(Ok), late, due, end; }
      late := host.Now();
      if late > limit { return Some(Err(NotStopped)), late, due, end; }
      stop := None;
      due := host.Now();
      if due - lastSent >= cfg.shutdownRetry {
        var at := SendAgain();
        end := Some(at);
      }
      host.Sleep(cfg.waitPoll);
    }

    /**
     The wait that began at `start` and first read the clock at `first` has its re-sends in order and on time at
     `now`.
     */
    ghost predicate OnTime(rs: seq<Resend>, start: int, first: int, lastSent: int, now: int) {
      && Logged(rs, start, first, lastSent, cfg, host.costs.slack)
      && Prompt(rs, start + 2 * host.costs.slack, RetryGap()) && lastSent <= LastSend(rs, start + 2 * host.costs.slack)
      && lastSent <= now <= first + cfg.rebootTimeout + Overrun() - host.costs.call - host.costs.slack
      && now <= lastSent + cfg.shutdownRetry + host.costs.nap
    }

    lemma QuietTurn(rs: seq<Resend>, start: int, first: int, lastSent: int, was: int, due: int, now: int)
      requires OnTime(rs, start, first, lastSent, was)
      requires was <= due <= now <= due + host.costs.nap && due <= first + cfg.rebootTimeout + host.costs.slack
      requires due - lastSent < cfg.shutdownRetry
      ensures OnTime(rs, start, first, lastSent, now)
    {
    }

    lemma ResendTurn(rs: seq<Resend>, start: int, first: int, lastSent: int, was: int, late: int, due: int, end: int,
                     now: int)
      requires OnTime(rs, start, first, lastSent, was)
      requires was <= late <= first + cfg.rebootTimeout && late <= due <= late + host.costs.slack
      requires late <= was + host.costs.call + host.costs.slack
      requires due - lastSent >= cfg.shutdownRetry && due <= end <= now <= end + host.costs.nap
      requires now <= due + host.costs.agent + host.costs.call + host.costs.slack + host.costs.nap && Sound(cfg)
      ensures OnTime(rs + [Resend(|rs| + 2, due, end)], start, first, end, now)
    {
      ResendIsLogged(rs, start, first, lastSent, cfg, host.costs.slack, late, due, end);
      PromptGrows(rs, start + 2 * host.costs.slack, RetryGap(), Resend(|rs| + 2, due, end));
    }

    /** One turn, with the count of sends and the time of the last one brought up to date. */
    method Round(limit: int, sent: int, attempts: nat, ghost rs: seq<Resend>, ghost start: int)
      returns (stop: Option<Result>, lastSent: int, attempt: nat, ghost resends: seq<Resend>)
      requires Valid() && Waits() && InStep() && phase.Watching?
      requires OnTime(rs, start, limit - cfg.rebootTimeout, sent, host.now) && attempts == |rs| + 1
      modifies this`timedOut, this`own, this`phase, job, job.steps, host
      ensures Kept() && old(host.now) <= host.now
      ensures stop == Some(Ok) ==> phase.Ready?
      ensures stop == Some(Err(StateUnreadable)) ==> phase == Over(false)
      ensures stop == Some(Err(NotStopped)) ==> phase == Watching(true) && limit < host.now
      ensures stop.Some? ==> stop.value in {Ok, Err(StateUnreadable), Err(NotStopped)} && resends == rs
      ensures stop.Some? ==> host.now <= old(host.now) + host.costs.call + host.costs.slack
      ensures stop.None? ==> phase.Watching? && old(host.now) < host.now && old(host.now) <= limit
      ensures stop.None? ==>
              OnTime(resends, start, limit - cfg.rebootTimeout, lastSent, host.now) && attempt == |resends| + 1
    {
      attempt, lastSent, resends := attempts, sent, rs;
      ghost var first, was := limit - cfg.rebootTimeout, host.now;
      var late, due, end;
      stop, late, due, end := Turn(limit, sent);
      if stop.Some? { return; }
      if end.Some? {
        attempt, lastSent := attempts + 1, end.value;
        ResendTurn(rs, start, first, sent, was, late, due, lastSent, host.now);
        resends := rs + [Resend(attempt, due, lastSent)];
      } else {
        QuietTurn(rs, start, first, sent, was, due, host.now);
      }
    }

    /** Polls until the guest is off, re-sending the shutdown request every `shutdownRetry`. */
    method WaitStopped() returns (r: Result, ghost resends: seq<Resend>, ghost deadline: int)
      requires Valid() && Waits() && InStep() && phase == Watching(false)
      modifies this`timedOut, this`own, this`phase, job, job.steps, host
      ensures Kept() && old(host.now) <= host.now
      ensures old(host.now) + cfg.rebootTimeout <= deadline <= old(host.now) + host.costs.slack + cfg.rebootTimeout
      ensures r.Ok? ==> phase.Ready?
      ensures r.Err? ==> r.error.NotStopped? || r.error.StateUnreadable?
      ensures r == Err(NotStopped) ==> phase == Watching(true) && deadline < host.now <= deadline + Overrun()
      ensures r == Err(StateUnreadable) ==> phase == Over(false)
      ensures Spaced(resends, old(host.now), cfg.shutdownRetry)
      ensures Few(resends, cfg.rebootTimeout, cfg.shutdownRetry, host.costs.slack)
      ensures Prompt(resends, old(host.now) + 2 * host.costs.slack, RetryGap())
      ensures host.now <= LastSend(resends, old(host.now) + 2 * host.costs.slack) + RetryGap()
    {
      var now := host.Now();
      var limit := now + cfg.rebootTimeout;
      deadline := limit;
      var lastSent := host.Now();
      var attempt := 1;
      resends := [];
      while true
        invariant Kept() && phase.Watching?
        invariant OnTime(resends, old(host.now), now, lastSent, host.now)
        invariant attempt == |resends| + 1
        decreases if host.now <= limit then limit - host.now + 1 else 0
      {
        var stop;
        stop, lastSent, attempt, resends := Round(limit, lastSent, attempt, resends, old(host.now));
        if stop.Some? { return stop.value, resends, deadline; }
      }
    }

    /** The longest a request stays the last one: the retry interval and one turn. */
    ghost function RetryGap(): int {
      cfg.shutdownRetry + host.costs.nap + host.costs.call + 2 * host.costs.slack
    }

    /** How far past its deadline the wait can report: one re-send, one sleep, one reading, and our own code. */
    ghost function Overrun(): nat {
      host.costs.agent + 2 * host.costs.call + host.costs.nap + 4 * host.costs.slack
    }

    // ---- executors ----

    method AskToStop() returns (ok: bool)
      requires Valid() && InStep() && phase.Stopping? && own == ALL_PENDING && Planned(StepStop)
      modifies this`timedOut, this`own, this`phase, job, job.steps, host
      ensures Valid() && InStep() && job.steps == old(job.steps) && (old(timedOut) ==> timedOut)
      ensures phase == (if ok then Watching(false) else Over(false))
      ensures own == ALL_PENDING.(stop := if ok then Done else Failed)
      ensures old(host.now) <= host.now <= old(host.now) + host.costs.agent + host.costs.call
    {
      Mark(StepStop, Active);
      ghost var asked, calls;
      ok, asked, calls := Shutdown();
      if ok {
        Mark(StepStop, Done);
      } else {
        Mark(StepStop, Failed);
      }
    }

    /** The longest a job can take from its shutdown request to giving up on the guest. */
    ghost function WaitBudget(): int {
      cfg.rebootTimeout + host.costs.agent + host.costs.call + host.costs.slack + Overrun()
    }

    /** The verify phase: wait until libvirt says the guest is off. */
    method WaitPhase() returns (r: Result)
      requires Valid() && InStep() && phase == Watching(false) && Planned(StepStop) && Planned(StepVerify)
      requires own == ALL_PENDING.(stop := Done)
      requires job.order.action.Reboot? || (job.order.action.Restore? && job.order.mode.Staged?)
      modifies this`timedOut, this`own, this`phase, job, job.steps, host
      ensures Valid() && InStep() && job.steps == old(job.steps) && (old(timedOut) ==> timedOut)
      ensures r.Ok? ==> phase.Ready?
      ensures r.Err? ==> (r.error.NotStopped? || r.error.StateUnreadable?) && phase == EndPhase(r)
      ensures own == ALL_PENDING.(stop := Done, verify := if r.Ok? then Done else Failed)
      ensures old(host.now) <= host.now
      ensures r == Err(NotStopped) ==> host.now <= old(host.now) + cfg.rebootTimeout + host.costs.slack + Overrun()
    {
      Mark(StepVerify, Active);
      ghost var resends, deadline;
      r, resends, deadline := WaitStopped();
      if r.Err? {
        Mark(StepVerify, Failed);
      } else {
        Mark(StepVerify, Done);
      }
    }

    /** The phases a reboot and a staged restore share: ask the guest to stop, then wait until libvirt says it has. */
    method StopPhases() returns (r: Result)
      requires Valid() && InStep() && phase.Stopping? && own == ALL_PENDING && Planned(StepStop) && Planned(StepVerify)
      requires job.order.action.Reboot? || (job.order.action.Restore? && job.order.mode.Staged?)
      modifies this`timedOut, this`own, this`phase, job, job.steps, host
      ensures Valid() && InStep() && job.steps == old(job.steps) && (old(timedOut) ==> timedOut)
      ensures StopEnds(r, phase, own)
      ensures old(host.now) <= host.now && (r == Err(NotStopped) ==> host.now <= old(host.now) + WaitBudget())
    {
      var ok := AskToStop();
      if !ok { return Err(ShutdownFailed); }
      r := WaitPhase();
    }

    /** The phase that starts the guest again, the last of both kinds of job. */
    method StartPhase() returns (ok: bool)
      requires Valid() && InStep() && ((phase.Ready? && job.order.action.Reboot?) || phase.RolledBack?)
      requires Planned(StepStart) && Ordered(job.order, own.(start := Active))
      modifies this`timedOut, this`own, this`phase, job, job.steps, host
      ensures Valid() && InStep() && job.steps == old(job.steps) && (old(timedOut) ==> timedOut)
      ensures phase == Over(ok) && own == old(own).(start := if ok then Done else Failed)
      ensures old(host.now) <= host.now
    {
      Mark(StepStart, Active);
      ok := StartAgain();
      if ok {
        Mark(StepStart, Done);
      } else {
        Mark(StepStart, Failed);
      }
    }

    /** Shut down, wait for the guest to stop, start it again. */
    method Reboot() returns (r: Result)
      requires Valid() && InStep() && phase.Stopping? && job.order.action.Reboot? && own == ALL_PENDING
      modifies this`timedOut, this`own, this`phase, job, job.steps, host
      ensures Valid() && InStep() && job.steps == old(job.steps) && (old(timedOut) ==> timedOut)
      ensures RebootEnds(r, phase, own)
      ensures old(host.now) <= host.now && (r == Err(NotStopped) ==> host.now <= old(host.now) + WaitBudget())
    {
      PlanOfReboot();
      r := StopPhases();
      if r.Err? { return; }
      var ok := StartPhase();
      r := if ok then Ok else Err(StartFailed);
    }

    lemma PlanOfRestore()
      requires job.order.action.Restore?
      ensures Planned(StepRollback)
      ensures job.order.mode.Staged? ==> Planned(StepStop) && Planned(StepVerify)
      ensures job.order.mode.Staged? && job.order.startAfter ==> Planned(StepStart)
    {
      var plan := StepsFor(job.order);
      assert !job.order.mode.Staged? ==> plan[0].name == StepRollback;
      assert job.order.mode.Staged? ==>
          plan[0].name == StepStop && plan[1].name == StepVerify && plan[2].name == StepRollback;
      assert job.order.mode.Staged? && job.order.startAfter ==> plan[3].name == StepStart;
    }

    /** The part of a staged restore before the rollback. */
    method ConfirmOff() returns (r: Result)
      requires Valid() && InStep() && phase.Fresh? && job.order.action.Restore? && job.order.mode.Staged?
               && own == ALL_PENDING
      modifies this`timedOut, this`own, this`phase, job, job.steps, host
      ensures Valid() && InStep() && job.steps == old(job.steps) && (old(timedOut) ==> timedOut)
      ensures r.Ok? ==> phase.Ready? && BeforeRollback(job.order, own) && own.rollback.Pending? && own.start.Pending?
      ensures r.Err? ==> phase == EndPhase(r) && StopError(r.error)
      ensures r.Err? ==> StopEnds(r, phase, own) || (r.error.StateUnreadable? && own == ALL_PENDING.(verify := Failed))
      ensures old(host.now) <= host.now
              && (r == Err(NotStopped) ==> host.now <= old(host.now) + host.costs.call + WaitBudget())
    {
      PlanOfRestore();
      var reading := Read();
      if reading.Unreadable? {
        Mark(StepVerify, Failed);
        return Err(StateUnreadable);
      }
      if reading.On? {
        r := StopPhases();
      } else {
        Mark(StepStop, Skipped);
        Mark(StepVerify, Done);
        r := Ok;
      }
    }

    method RollbackPhase(dataset: string, name: string) returns (ok: bool)
      requires Valid() && InStep() && phase.Ready? && job.order.action.Restore? && Planned(StepRollback)
      requires BeforeRollback(job.order, own) && own.rollback.Pending? && own.start.Pending?
      requires Rebuilt(dataset, name) == job.order.snapshot
      modifies this`timedOut, this`own, this`phase, job, job.steps, host
      ensures Valid() && InStep() && job.steps == old(job.steps) && (old(timedOut) ==> timedOut)
      ensures own == old(own).(rollback := if ok then Done else Failed) && old(host.now) <= host.now
      ensures phase == if ok && job.order.mode.Staged? && job.order.startAfter then RolledBack else Over(ok)
    {
      Mark(StepRollback, Active);
      ok := RollBack(dataset, name, job.order.ack);
      if ok {
        Mark(StepRollback, Done);
      } else {
        Mark(StepRollback, Failed);
      }
    }

    /** The rollback itself and the optional start. */
    method Rewind(dataset: string, name: string) returns (r: Result)
      requires Valid() && InStep() && phase.Ready? && job.order.action.Restore? && !job.order.mode.OtherMode?
      requires BeforeRollback(job.order, own) && own.rollback.Pending? && own.start.Pending?
      requires Rebuilt(dataset, name) == job.order.snapshot
      modifies this`timedOut, this`own, this`phase, job, job.steps, host
      ensures Valid() && InStep() && job.steps == old(job.steps) && (old(timedOut) ==> timedOut)
      ensures RewindEnds(job.order, r, own) && phase == EndPhase(r) && old(host.now) <= host.now
    {
      PlanOfRestore();
      var ok := RollbackPhase(dataset, name);
      if !ok { return Err(RollbackFailed); }
      if job.order.mode.Staged? && job.order.startAfter {
        ok := StartPhase();
        return if ok then Ok else Err(StartFailed);
      }
      r := Ok;
    }

    /** Staged: guest off first, then roll back, then start if asked. Direct: roll back in place. */
    method Restore() returns (r: Result)
      requires Valid() && InStep() && phase == FirstPhase(PlanOf(job.order)) && job.order.action.Restore?
               && own == ALL_PENDING
      modifies this`timedOut, this`own, this`phase, job, job.steps, host
      ensures Valid() && InStep() && job.steps == old(job.steps) && (old(timedOut) ==> timedOut)
      ensures RestoreEnds(job.order, r, phase, own)
      ensures old(host.now) <= host.now
              && (r == Err(NotStopped) ==> host.now <= old(host.now) + host.costs.call + WaitBudget())
    {
      CutThenRebuild(job.order.snapshot);
      var cut := Cut(job.order.snapshot);
      if cut.None? { return Err(BadId); }
      if job.order.mode.Staged? {
        r := ConfirmOff();
        if r.Err? { return; }
      } else if !job.order.mode.Direct? {
        return Err(BadMode);
      }
      r := Rewind(cut.value.0, cut.value.1);
    }

    lemma PlanOfSnapshot()
      requires job.order.action.Snapshot?
      ensures Planned(StepPrepare) && Planned(StepSnapshot) && Planned(StepResume)
    {
      var plan := StepsFor(job.order);
      assert plan[0].name == StepPrepare && plan[1].name == StepSnapshot && plan[2].name == StepResume;
    }

    /** The job's guest got a mark stamped between the two times, and no other mark changed. */
    ghost predicate Remarked(before: map<string, int>, after: map<string, int>, from: int, to: int) {
      && job.order.domain in after && from <= after[job.order.domain] <= to
      && after == before[job.order.domain := after[job.order.domain]]
    }

    /** The calls of the hold phase: freeze if the agent answers, pause otherwise or when the freeze fails. */
    method TryHold(vm: Vm) returns (hold: Hold, worked: bool, ghost freezeOK: bool)
      requires Valid() && job.order.action.Snapshot? && vm.running
      requires own == ALL_PENDING.(prepare := Active) && Planned(StepPrepare)
      modifies this`timedOut, this`own, job, job.steps, host, book
      ensures Valid() && job.steps == old(job.steps) && (old(timedOut) ==> timedOut) && own == old(own)
      ensures host.trace == old(host.trace) + HoldCalls(vm, freezeOK, worked) && hold == HoldOf(vm, freezeOK)
      ensures worked <==> HoldWorked(vm, freezeOK, worked)
      ensures if hold.Frozen? then Remarked(old(book.frozen), book.frozen, old(host.now), host.now)
              else book.frozen == old(book.frozen)
      ensures old(host.now) <= host.now
    {
      freezeOK := false;
      if vm.agentOK {
        worked := host.Freezes();
        freezeOK := worked;
        if worked {
          book.Mark(job.order.domain, host.now);
          hold := Frozen;
          return;
        }
        Mark(StepPrepare, Active);
      }
      worked := host.Suspends();
      hold := Paused;
    }

    /** The hold phase. `worked` is false when neither a freeze nor a pause took. */
    method HoldStill(vm: Vm) returns (hold: Hold, worked: bool, ghost freezeOK: bool, ghost pauseOK: bool)
      requires Valid() && job.order.action.Snapshot? && own == ALL_PENDING
      modifies this`timedOut, this`own, job, job.steps, host, book
      ensures Valid() && job.steps == old(job.steps) && (old(timedOut) ==> timedOut)
      ensures host.trace == old(host.trace) + HoldCalls(vm, freezeOK, pauseOK) && hold == HoldOf(vm, freezeOK)
      ensures worked <==> HoldWorked(vm, freezeOK, pauseOK)
      ensures own == ALL_PENDING.(prepare := if !worked then Failed else if hold.NoHold? then Skipped else Done)
      ensures if hold.Frozen? then Remarked(old(book.frozen), book.frozen, old(host.now), host.now)
              else book.frozen == old(book.frozen)
      ensures old(host.now) <= host.now
    {
      PlanOfSnapshot();
      hold, worked, freezeOK, pauseOK := NoHold, true, false, true;
      if !vm.running {
        Mark(StepPrepare, Skipped);
        return;
      }
      Mark(StepPrepare, Active);
      hold, worked, freezeOK := TryHold(vm);
      pauseOK := worked;
      if worked {
        Mark(StepPrepare, Done);
      } else {
        Mark(StepPrepare, Failed);
      }
    }

    /** One create per dataset, in order; a failure does not stop the rest. */
    method CreateAll(datasets: seq<string>, name: string)
      returns (created: seq<string>, failed: seq<string>, ghost oks: seq<bool>)
      requires own.snapshot.Active?
      modifies host
      ensures |oks| == |datasets| && host.trace == old(host.trace) + Creates(datasets, name, oks)
      ensures created == Picked(datasets, oks, true) && failed == Picked(datasets, oks, false)
      ensures host.now >= old(host.now)
    {
      created, failed, oks := [], [], [];
      for i := 0 to |datasets|
        invariant |oks| == i && host.trace == old(host.trace) + Creates(datasets[..i], name, oks)
        invariant created == Picked(datasets[..i], oks, true) && failed == Picked(datasets[..i], oks, false)
        invariant host.now >= old(host.now)
      {
        var ok := host.Creates(datasets[i], name);
        Joined(old(host.trace), Creates(datasets[..i], name, oks), [CreateSnapshot(datasets[i], name, ok)]);
        assert datasets[..i + 1][..i] == datasets[..i] && (oks + [ok])[..i] == oks;
        assert Creates(datasets[..i + 1], name, oks + [ok])
            == Creates(datasets[..i], name, oks) + [CreateSnapshot(datasets[i], name, ok)];
        if ok { created := created + [datasets[i]]; } else { failed := failed + [datasets[i]]; }
        oks := oks + [ok];
      }
      assert datasets[..|datasets|] == datasets;
    }

    /** The calls of the release phase: thaw what was frozen, resume what was paused. */
    method TryRelease(hold: Hold) returns (released: bool, ghost calls: seq<Ev>)
      requires !hold.NoHold? && own.resume.Active? && 2 * SECOND <= host.costs.nap
      modifies host, book
      ensures host.trace == old(host.trace) + calls && Releases(hold, calls, released) && old(host.now) <= host.now
      ensures book.frozen == if hold.Frozen? && released then old(book.frozen) - {job.order.domain}
              else old(book.frozen)
    {
      if hold.Frozen? {
        released := book.Thaw(host, job.order.domain);
        calls := if host.trace == old(host.trace) + [Ev.Thaw(true)] then [Ev.Thaw(true)]
                 else [Ev.Thaw(false), Ev.Thaw(released)];
      } else {
        released := host.Resumes();
        calls := [Ev.ResumeGuest(released)];
      }
    }

    /** The release phase. */
    method LetGo(hold: Hold) returns (released: bool, ghost calls: seq<Ev>)
      requires Valid() && job.order.action.Snapshot? && Settled(own.prepare)
               && (own.snapshot.Done? || own.snapshot.Failed?)
      modifies this`timedOut, this`own, job, job.steps, host, book
      ensures Valid() && job.steps == old(job.steps) && (old(timedOut) ==> timedOut)
      ensures host.trace == old(host.trace) + calls && Releases(hold, calls, released) && old(host.now) <= host.now
      ensures own == old(own).(resume := if hold.NoHold? then Skipped else if released then Done else Failed)
      ensures book.frozen == if hold.Frozen? && released then old(book.frozen) - {job.order.domain}
              else old(book.frozen)
    {
      PlanOfSnapshot();
      if hold.NoHold? {
        Mark(StepResume, Skipped);
        released, calls := true, [];
        return;
      }
      Mark(StepResume, Active);
      released, calls := TryRelease(hold);
      if released {
        Mark(StepResume, Done);
      } else {
        Mark(StepResume, Failed);
      }
    }

    method CreatePhase(datasets: seq<string>, name: string) returns (failed: bool, ghost oks: seq<bool>)
      requires Valid() && job.order.action.Snapshot? && Settled(own.prepare) && own.resume.Pending?
      modifies this`timedOut, this`own, job, job.steps, host
      ensures Valid() && job.steps == old(job.steps) && (old(timedOut) ==> timedOut)
      ensures |oks| == |datasets| && host.trace == old(host.trace) + Creates(datasets, name, oks)
      ensures old(host.now) <= host.now
      ensures failed <==> exists i :: 0 <= i < |oks| && !oks[i]
      ensures own == old(own).(snapshot := if failed then Failed else Done)
    {
      PlanOfSnapshot();
      Mark(StepSnapshot, Active);
      var created, missed;
      created, missed, oks := CreateAll(datasets, name);
      NoneFailed(datasets, oks);
      failed := missed != [];
      if failed {
        Mark(StepSnapshot, Failed);
      } else {
        Mark(StepSnapshot, Done);
      }
    }

    /** The phases after the hold. */
    method CreateAndLetGo(hold: Hold, datasets: seq<string>, name: string, ghost before: Answers)
      returns (r: Result, ghost a: Answers)
      requires Valid() && job.order.action.Snapshot?
      requires own == ALL_PENDING.(prepare := if hold.NoHold? then Skipped else Done)
      modifies this`timedOut, this`own, job, job.steps, host, book
      ensures Valid() && job.steps == old(job.steps) && (old(timedOut) ==> timedOut)
      ensures a == before.(oks := a.oks, last := a.last, released := a.released) && |a.oks| == |datasets|
      ensures host.trace == old(host.trace) + (Creates(datasets, name, a.oks) + a.last)
      ensures Releases(hold, a.last, a.released) && SnapshotEnds(hold, a, r, own) && old(host.now) <= host.now
      ensures book.frozen == if hold.Frozen? && a.released then old(book.frozen) - {job.order.domain}
              else old(book.frozen)
    {
      var failed;
      ghost var oks;
      failed, oks := CreatePhase(datasets, name);
      var released;
      ghost var last;
      released, last := LetGo(hold);
      Joined(old(host.trace), Creates(datasets, name, oks), last);
      a := before.(oks := oks, last := last, released := released);
      r := if failed then Err(CreateFailed) else Ok;
    }

    /** What the marks are after a snapshot job's calls, when nothing else touches the book meanwhile. */
    ghost predicate Bookkept(a: Answers, calls: seq<Ev>, before: map<string, int>, after: map<string, int>,
                             from: int, to: int)
    {
      if Ev.Freeze(true) !in calls then after == before
      else if a.last == [Ev.Thaw(false), Ev.Thaw(false)] then Remarked(before, after, from, to)
      else after == before - {job.order.domain}
    }

    /** The three phases. */
    method HoldCreateRelease(vm: Vm, datasets: seq<string>, name: string)
      returns (r: Result, ghost a: Answers, ghost calls: seq<Ev>)
      requires Valid() && job.order.action.Snapshot? && own == ALL_PENDING && datasets == Zvols(vm.disks) != []
      modifies this`timedOut, this`own, job, job.steps, host, book
      ensures Valid() && job.steps == old(job.steps) && (old(timedOut) ==> timedOut)
      ensures host.trace == old(host.trace) + calls && SnapshotRan(vm, name, a, calls, r, own)
      ensures Bookkept(a, calls, old(book.frozen), book.frozen, old(host.now), host.now)
    {
      a := Answers(false, false, [], [], true);
      var hold, worked;
      ghost var freezeOK, pauseOK;
      hold, worked, freezeOK, pauseOK := HoldStill(vm);
      a, calls := a.(freezeOK := freezeOK, pauseOK := pauseOK), HoldCalls(vm, freezeOK, pauseOK);
      if !worked { return Err(HoldFailed), a, calls; }
      assert hold.Frozen? ==> book.frozen - {job.order.domain} == old(book.frozen) - {job.order.domain};
      r, a := CreateAndLetGo(hold, datasets, name, a);
      Joined(old(host.trace), calls, Creates(datasets, name, a.oks) + a.last);
      Joined(calls, Creates(datasets, name, a.oks), a.last);
      calls := calls + Creates(datasets, name, a.oks) + a.last;
      FreezeIsInHold(vm, a, datasets, name);
    }

    /**
     The consistent-snapshot sequence: hold, create on every zvol dataset, release. When nothing else touches the book
     meanwhile, a guest the job froze stays marked exactly when both thaw tries failed.
     */
    method Snapshot(seen: Option<Vm>, name: string) returns (r: Result, ghost a: Answers, ghost calls: seq<Ev>)
      requires Valid() && job.order.action.Snapshot? && own == ALL_PENDING
      modifies this`timedOut, this`own, job, job.steps, host, book
      ensures Valid() && job.steps == old(job.steps) && (old(timedOut) ==> timedOut)
      ensures host.trace == old(host.trace) + calls
      ensures seen.None? ==> r == Err(DomainNotFound) && calls == [] && own == ALL_PENDING
      ensures seen.Some? ==> SnapshotRan(seen.value, name, a, calls, r, own)
      ensures Bookkept(a, calls, old(book.frozen), book.frozen, old(host.now), host.now)
    {
      a, calls := Answers(false, false, [], [], true), [];
      if seen.None? { return Err(DomainNotFound), a, calls; }
      var datasets := TruenasDatasets(seen.value.disks);
      if datasets == [] { return Err(NothingToSnapshot), a, calls; }
      r, a, calls := HoldCreateRelease(seen.value, datasets, name);
    }

    lemma FreezeIsInHold(vm: Vm, a: Answers, datasets: seq<string>, name: string)
      requires |a.oks| == |datasets| && Releases(HoldOf(vm, a.freezeOK), a.last, a.released)
      ensures Ev.Freeze(true) in HoldCalls(vm, a.freezeOK, a.pauseOK) + Creates(datasets, name, a.oks) + a.last
              <==> HoldOf(vm, a.freezeOK).Frozen?
      ensures HoldOf(vm, a.freezeOK).Frozen? ==> (a.released <==> a.last != [Ev.Thaw(false), Ev.Thaw(false)])
    {
    }

    /** Delete never looks for the domain: a vanished VM still has snapshots. */
    method Delete() returns (r: Result, ghost calls: seq<Ev>)
      modifies host
      ensures host.now >= old(host.now)
      ensures host.trace == old(host.trace) + calls && DeleteRan(job.order, calls, r)
    {
      CutThenRebuild(job.order.snapshot);
      var cut := Cut(job.order.snapshot);
      if cut.None? { return Err(BadId), []; }
      var ok := host.Deletes(cut.value.0, cut.value.1);
      calls := [Ev.DeleteSnapshot(cut.value.0, cut.value.1, ok)];
      r := if ok then Ok else Err(CallFailed);
    }

    /** The verbs that are one libvirt call. */
    method OneCall() returns (ok: bool)
      requires job.order.action in {Action.Start, Pause, Resume, ForceOff}
      modifies host
      ensures host.now >= old(host.now)
      ensures host.trace == old(host.trace) + [VerbCall(job.order, ok)]
    {
      if job.order.action.Start? {
        ok := host.Starts();
      } else if job.order.action.Pause? {
        ok := host.Suspends();
      } else if job.order.action.Resume? {
        ok := host.Resumes();
      } else {
        ok := host.Destroys();
      }
    }

    method Find() returns (l: Listing)
      requires InStep() && phase.Unlisted?
      modifies this`phase, host
      ensures InStep() && phase == (if l.Found? then FirstPhase(PlanOf(job.order)) else Over(false))
      ensures host.trace == old(host.trace) + [List(l)]
      ensures old(host.now) <= host.now <= old(host.now) + host.costs.call
    {
      l := host.FindDomain();
      FollowOne(PlanOf(job.order), old(host.trace), List(l));
      phase := Next(PlanOf(job.order), phase, List(l));
    }

    /** The verbs outside the protocol, once the domain is found. */
    method PlainVerb(seen: Option<Vm>, name: string) returns (r: Result, ghost calls: seq<Ev>)
      requires Valid() && own == ALL_PENDING && !ByProtocol(job.order) && !job.order.action.Delete?
      modifies this`timedOut, this`own, job, job.steps, host, book
      ensures Valid() && job.steps == old(job.steps) && (old(timedOut) ==> timedOut)
      ensures own == Expire(own) && r != Err(NotStopped) && r != Err(ConnectFailed)
      ensures host.trace == old(host.trace) + calls && PlainRan(job.order, seen, name, calls, r, own)
    {
      if job.order.action.Snapshot? {
        ghost var a;
        r, a, calls := Snapshot(seen, name);
      } else {
        var ok := OneCall();
        r := if ok then Ok else Err(CallFailed);
        calls := [VerbCall(job.order, ok)];
      }
    }

    /** Finds the domain for a verb outside the protocol. */
    method FindThenPlain(seen: Option<Vm>, name: string) returns (r: Result, ghost calls: seq<Ev>)
      requires Valid() && own == ALL_PENDING && !ByProtocol(job.order) && !job.order.action.Delete?
      modifies this`timedOut, this`own, job, job.steps, host, book
      ensures Valid() && job.steps == old(job.steps) && (old(timedOut) ==> timedOut)
      ensures own == Expire(own) && r != Err(NotStopped) && r != Err(ConnectFailed)
      ensures host.trace == old(host.trace) + calls && UnguardedRan(job.order, seen, name, calls, r, own)
    {
      var l := host.FindDomain();
      calls := [List(l)];
      if !l.Found? {
        NotFoundRan(job.order, seen, name, l);
        return Err(DomainNotFound), calls;
      }
      ghost var more;
      r, more := PlainVerb(seen, name);
      FoundThenRan(job.order, seen, name, more, r, own);
      Joined(old(host.trace), calls, more);
      calls := calls + more;
    }

    /** The verbs of the protocol, once the domain is found. */
    method GuardedVerb() returns (r: Result, ghost calls: seq<Ev>)
      requires Valid() && InStep() && own == ALL_PENDING && ByProtocol(job.order)
      requires phase == FirstPhase(PlanOf(job.order))
      modifies this`timedOut, this`own, this`phase, job, job.steps, host
      ensures Valid() && InStep() && job.steps == old(job.steps) && (old(timedOut) ==> timedOut)
      ensures own == Expire(own) && r != Err(DomainNotFound) && r != Err(ConnectFailed)
      ensures GuardedEnds(job.order, r, phase, own) && !phase.Broken?
      ensures job.order.action.Shutdown? ==>
                && host.trace == old(host.trace) + calls
                && calls != [] && ShutdownRan(calls[0].AgentShutdown?, calls, r.Ok?)
      ensures r == Err(NotStopped) ==> host.now <= old(host.now) + host.costs.call + WaitBudget() && Waiter()
    {
      calls := [];
      if job.order.action.Reboot? {
        r := Reboot();
      } else if job.order.action.Restore? {
        r := Restore();
      } else {
        var ok;
        ghost var asked;
        ok, asked, calls := Shutdown();
        r := if ok then Ok else Err(ShutdownFailed);
      }
    }

    /** The verbs that wait for the guest to stop. */
    ghost predicate Waiter() {
      job.order.action.Reboot? || (job.order.action.Restore? && job.order.mode.Staged?)
    }

    /** Finds the domain for a verb of the protocol. */
    method FindThenGuarded() returns (r: Result, ghost calls: seq<Ev>)
      requires Valid() && InStep() && phase.Unlisted? && own == ALL_PENDING && ByProtocol(job.order)
      modifies this`timedOut, this`own, this`phase, job, job.steps, host
      ensures Valid() && InStep() && job.steps == old(job.steps) && (old(timedOut) ==> timedOut)
      ensures own == Expire(own) && r != Err(ConnectFailed)
      ensures GuardedEnds(job.order, r, phase, own) && !phase.Broken?
      ensures job.order.action.Shutdown? ==> host.trace == old(host.trace) + calls && ShutdownOnly(calls, r)
      ensures r == Err(NotStopped) ==> host.now <= old(host.now) + 2 * host.costs.call + WaitBudget() && Waiter()
    {
      var l := Find();
      calls := [List(l)];
      if !l.Found? { return Err(DomainNotFound), calls; }
      ghost var more;
      r, more := GuardedVerb();
      if job.order.action.Shutdown? { Joined(old(host.trace), calls, more); }
      calls := calls + more;
      assert calls[1..] == more;
    }

    /** Dispatches the verb; every verb but delete looks for the domain first. */
    method Execute(seen: Option<Vm>, name: string) returns (r: Result, ghost calls: seq<Ev>)
      requires Valid() && InStep() && phase.Unlisted? && own == ALL_PENDING
      modifies this`timedOut, this`own, this`phase, job, job.steps, host, book
      ensures Valid() && job.steps == old(job.steps) && (old(timedOut) ==> timedOut)
      ensures own == Expire(own) && r != Err(ConnectFailed)
      ensures ByProtocol(job.order) ==> InStep() && !phase.Broken? && GuardedEnds(job.order, r, phase, own)
      ensures !ByProtocol(job.order) ==>
                host.trace == old(host.trace) + calls && UnguardedRan(job.order, seen, name, calls, r, own)
      ensures job.order.action.Shutdown? ==> host.trace == old(host.trace) + calls && ShutdownOnly(calls, r)
      ensures r == Err(NotStopped) ==> host.now <= old(host.now) + 2 * host.costs.call + WaitBudget() && Waiter()
    {
      if job.order.action.Delete? {
        r, calls := Delete();
      } else if ByProtocol(job.order) {
        r, calls := FindThenGuarded();
      } else {
        r, calls := FindThenPlain(seen, name);
      }
    }

    /** Connects and executes. A protocol's first call is its connect, so its later calls keep it in front. */
    method Attempt(seen: Option<Vm>, name: string) returns (r: Result)
      requires Valid() && host.trace == [] && own == ALL_PENDING
      modifies this`timedOut, this`own, this`phase, job, job.steps, host, book
      ensures Valid() && job.steps == old(job.steps) && (old(timedOut) ==> timedOut)
      ensures own == Expire(own) && JobRan(job.order, seen, name, host.trace, r, own)
      ensures r == Err(NotStopped) ==>
                host.now <= old(host.now) + host.costs.connect + 2 * host.costs.call + WaitBudget() && Waiter()
    {
      var ok := host.Connects();
      FollowOne(PlanOf(job.order), [], Connect(ok));
      if !ok { return Err(ConnectFailed); }
      phase := Unlisted;
      ghost var calls;
      r, calls := Execute(seen, name);
      RanAsPlanned(job.order, seen, name, host.trace, calls, r, own);
    }
  }

  function VerdictOf(r: Result): JobState {
    if r.Ok? then JobOK else if r.error.NotStopped? then JobTimeout else JobFailed
  }

  /** What a job can spend outside the reboot wait before it reports that the guest did not stop. */
  function Overhead(c: Costs): nat {
    c.connect + 2 * c.agent + 5 * c.call + c.nap + 5 * c.slack
  }

  function Last(t: seq<Ev>): Option<Ev> {
    if t == [] then None else Some(t[|t| - 1])
  }

  /** There were creates, and all succeeded. */
  predicate AllCreated(t: seq<Ev>) {
    && (exists i :: 0 <= i < |t| && t[i].CreateSnapshot?)
    && (forall i :: 0 <= i < |t| && t[i].CreateSnapshot? ==> t[i].ok)
  }

  lemma CreatedAfter(before: seq<Ev>, calls: seq<Ev>)
    requires forall i :: 0 <= i < |before| ==> !before[i].CreateSnapshot?
    ensures AllCreated(before + calls) <==> AllCreated(calls)
  {
    var t := before + calls;
    assert forall i :: 0 <= i < |calls| ==> t[|before| + i] == calls[i];
    forall i | 0 <= i < |t| && t[i].CreateSnapshot?
      ensures i >= |before| && calls[i - |before|] == t[i]
    {
    }
  }

  /** The job's last call was the one it was submitted for and succeeded; for a snapshot, that of every dataset. */
  predicate EndedWell(o: Order, t: seq<Ev>) {
    match o.action
    case Start => t == [Connect(true), List(Found), StartGuest(true)]
    case Pause => t == [Connect(true), List(Found), Suspend(true)]
    case Resume => t == [Connect(true), List(Found), ResumeGuest(true)]
    case ForceOff => t == [Connect(true), List(Found), Destroy(true)]
    case Delete => |t| == 2 && t[0] == Connect(true) && t[1].DeleteSnapshot? && t[1].ok
    case Snapshot => AllCreated(t)
    case Reboot => Last(t) == Some(StartGuest(true))
    case Restore =>
      if o.mode.Staged? && o.startAfter then Last(t) == Some(StartGuest(true))
      else t != [] && t[|t| - 1].Rollback? && t[|t| - 1].ok
    case Shutdown =>
      Last(t) in {Some(AgentShutdown(Accepted)), Some(AgentShutdown(Disappeared)), Some(Acpi(true))}
  }

  lemma SnapshotEndedWell(o: Order, seen: Option<Vm>, name: string, t: seq<Ev>, r: Result, p: Pills)
    requires o.action.Snapshot? && JobRan(o, seen, name, t, r, p)
    ensures r.Ok? <==> EndedWell(o, t)
  {
    if r == Err(ConnectFailed) || !t[1].listing.Found? || seen.None? {
      assert forall i :: 0 <= i < |t| ==> !t[i].CreateSnapshot?;
    } else {
      var calls := t[1..][1..];
      assert t == t[..2] + calls;
      var a :| SnapshotRan(seen.value, name, a, calls, r, p);
      CreatesDecide(seen.value, name, a, calls, r, p);
      CreatedAfter(t[..2], calls);
    }
  }

  /** A snapshot job ends well if and only if it made a create and every create it made succeeded. */
  lemma CreatesDecide(vm: Vm, name: string, a: Answers, calls: seq<Ev>, r: Result, p: Pills)
    requires SnapshotRan(vm, name, a, calls, r, p)
    ensures r.Ok? <==> AllCreated(calls)
  {
    var datasets, first := Zvols(vm.disks), HoldCalls(vm, a.freezeOK, a.pauseOK);
    if datasets != [] && HoldWorked(vm, a.freezeOK, a.pauseOK) {
      var creates := Creates(datasets, name, a.oks);
      forall i | 0 <= i < |calls|
        ensures if |first| <= i < |first| + |creates| then calls[i].CreateSnapshot? && calls[i].ok == a.oks[i - |first|]
                else !calls[i].CreateSnapshot?
      {
        CallAt(first, creates, a.last, i);
      }
      assert forall i :: 0 <= i < |a.oks| ==> calls[|first| + i].ok == a.oks[i];
      assert calls[|first|].CreateSnapshot?;
    }
  }

  /** Whatever the world answers, a job reports success if and only if its last call is the one it was submitted for. */
  lemma OkMeansEndedWell(o: Order, seen: Option<Vm>, name: string, t: seq<Ev>, r: Result, p: Pills)
    requires JobRan(o, seen, name, t, r, p)
    ensures r.Ok? <==> EndedWell(o, t)
    ensures r == Err(NotStopped) ==> Last(t) == Some(Info(On))
  {
    if r == Err(ConnectFailed) {
      assert t == [Connect(false)];
    } else if o.action.Snapshot? {
      SnapshotEndedWell(o, seen, name, t, r, p);
    } else if ByProtocol(o) {
      HowItEnds(PlanOf(o), t);
      GivesUpForCause(PlanOf(o), t);
    }
  }

  /**
   One job from start to verdict, with the timer racing the executor; when the timer wins, the executor runs on to
   its end all the same. `timedOut` says which of the two gave the verdict: the timer cannot win before the bound, and
   the executor cannot win later than our own code takes to see the timer.
   */
  method Run(job: Job, host: Host, given: Config, book: Book, seen: Option<Vm>, name: string)
    returns (r: Result, timedOut: bool, ghost own: Pills)
    requires job.Valid() && job.state.JobPending? && job.pills == ALL_PENDING && host.trace == []
    requires WithDefaults(given).waitPoll <= host.costs.nap && 2 * SECOND <= host.costs.nap
    modifies job, job.steps, host, book
    ensures job.Valid() && job.steps == old(job.steps) && NoneActive(job.steps[..]) && Drifted(own, job.pills)
    ensures timedOut ==> job.state.JobTimeout?
    ensures !timedOut ==>
              && (job.state.JobOK? <==> EndedWell(job.order, host.trace))
              && (job.state.JobTimeout? <==> r == Err(NotStopped)) && Terminal(job.state)
    ensures var c, o := WithDefaults(given), job.order;
            var due := old(host.now) + (
                       if o.action.Reboot? || (o.action.Restore? && o.mode.Staged?) then c.rebootTimeout + MINUTE
                       else if o.action.Snapshot? then c.snapshotTimeout
                       else c.timeout);
            if timedOut then host.now >= due else host.now < due + host.costs.slack
    ensures WholeLife(job.order, job.history)
    ensures JobRan(job.order, seen, name, host.trace, r, own)
    ensures r == Err(NotStopped) ==> Last(host.trace) == Some(Info(On))
    ensures r == Err(NotStopped) && Overhead(host.costs) < MINUTE ==> !timedOut
  {
    job.Begin();
    var runner := new Runner(job, host, WithDefaults(given), book);
    r := runner.Attempt(seen, name);
    runner.Race();
    job.AtRest();
    timedOut, own := runner.timedOut, runner.own;
    OkMeansEndedWell(job.order, seen, name, host.trace, r, own);
    if !timedOut { job.Finish(VerdictOf(r)); }
    GoodMovesMakeWholeLife(job.order, job.history);
  }
}
