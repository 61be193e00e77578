/** `Job`, `JobStep`, `setStep`, `stepsFor` and the timeout branch of `run` in internal/actions/actions.go. */
module Jobs {

  datatype Action = Start | Shutdown | Reboot | ForceOff | Pause | Resume | Snapshot | Restore | Delete

  datatype Mode = Staged | Direct | OtherMode

  datatype JobState = JobPending | JobRunning | JobOK | JobFailed | JobTimeout

  datatype StepName = StepStop | StepVerify | StepRollback | StepStart | StepPrepare | StepSnapshot | StepResume

  datatype StepState = Pending | Active | Done | Skipped | Failed

  datatype JobStep = JobStep(name: StepName, state: StepState)

  /** What a submit fixes for good. */
  datatype Order = Order(
    domain: string,
    action: Action,
    requested: int,
    snapshot: string,
    mode: Mode,
    startAfter: bool,
    ack: bool)

  predicate Terminal(s: JobState) {
    s.JobOK? || s.JobFailed? || s.JobTimeout?
  }

  /** pending to running to one verdict, and never out of a verdict. */
  predicate LegalMove(a: JobState, b: JobState) {
    a == b || (a.JobPending? && b.JobRunning?) || (a.JobRunning? && Terminal(b))
  }

  function StepsFor(o: Order): seq<JobStep> {
    match o.action
    case Restore =>
      if o.mode.Staged? then
        [JobStep(StepStop, Pending), JobStep(StepVerify, Pending), JobStep(StepRollback, Pending)]
        + if o.startAfter then [JobStep(StepStart, Pending)] else []
      else [JobStep(StepRollback, Pending)]
    case Snapshot => [JobStep(StepPrepare, Pending), JobStep(StepSnapshot, Pending), JobStep(StepResume, Pending)]
    case Reboot => [JobStep(StepStop, Pending), JobStep(StepVerify, Pending), JobStep(StepStart, Pending)]
    case _ => []
  }

  /** A job has exactly the phases of its verb, once each and in the order they run; all are pending. */
  lemma PlannedPhases(o: Order)
    ensures var plan := StepsFor(o);
            && (forall i :: 0 <= i < |plan| ==> plan[i].state.Pending?)
            && (o.action.Reboot? ==> Names(plan) == [StepStop, StepVerify, StepStart])
            && (o.action.Snapshot? ==> Names(plan) == [StepPrepare, StepSnapshot, StepResume])
            && (o.action.Restore? && !o.mode.Staged? ==> Names(plan) == [StepRollback])
            && (o.action.Restore? && o.mode.Staged? ==>
                Names(plan) == [StepStop, StepVerify, StepRollback] + if o.startAfter then [StepStart] else [])
            && (o.action !in {Action.Reboot, Snapshot, Restore} ==> plan == [])
  {
  }

  function Names(s: seq<JobStep>): seq<StepName> {
    seq(|s|, i requires 0 <= i < |s| => s[i].name)
  }

  // ---- step lists as values ----

  function Has(s: seq<JobStep>, n: StepName): bool {
    exists i :: 0 <= i < |s| && s[i].name == n
  }

  /** The state of the first step called `n`; a step that is not there counts as pending. */
  function StateOf(s: seq<JobStep>, n: StepName): StepState {
    if s == [] then Pending
    else if s[0].name == n then s[0].state
    else StateOf(s[1..], n)
  }

  function Updated(s: seq<JobStep>, n: StepName, st: StepState): seq<JobStep> {
    if s == [] then []
    else if s[0].name == n then [JobStep(n, st)] + s[1..]
    else [s[0]] + Updated(s[1..], n, st)
  }

  function ExpiredState(st: StepState): StepState {
    if st.Active? then Failed else st
  }

  /** The timeout branch of `run`: the phase the bound interrupted is the phase that did not land. */
  function Expired(s: seq<JobStep>): seq<JobStep> {
    seq(|s|, i requires 0 <= i < |s| => JobStep(s[i].name, ExpiredState(s[i].state)))
  }

  predicate SameNames(a: seq<JobStep>, b: seq<JobStep>) {
    |a| == |b| && forall i :: 0 <= i < |a| ==> a[i].name == b[i].name
  }

  predicate NoneActive(s: seq<JobStep>) {
    forall i :: 0 <= i < |s| ==> !s[i].state.Active?
  }

  lemma {:induction false} UpdatedStates(s: seq<JobStep>, n: StepName, st: StepState)
    requires Has(s, n)
    ensures SameNames(Updated(s, n, st), s)
    ensures forall m :: StateOf(Updated(s, n, st), m) == if m == n then st else StateOf(s, m)
  {
    if s[0].name != n {
      assert Has(s[1..], n);
      UpdatedStates(s[1..], n, st);
    }
  }

  lemma {:induction false} UpdatedAt(s: seq<JobStep>, n: StepName, st: StepState, i: nat)
    requires i < |s| && s[i].name == n && forall j :: 0 <= j < i ==> s[j].name != n
    ensures Updated(s, n, st) == s[i := JobStep(n, st)]
  {
    if i > 0 {
      UpdatedAt(s[1..], n, st, i - 1);
      assert s[i := JobStep(n, st)] == [s[0]] + s[1..][i - 1 := JobStep(n, st)];
    }
  }

  lemma {:induction false} ExpiredStates(s: seq<JobStep>)
    ensures SameNames(Expired(s), s) && NoneActive(Expired(s))
    ensures forall m :: StateOf(Expired(s), m) == if StateOf(s, m).Active? then Failed else StateOf(s, m)
  {
    if s == [] {
    } else {
      ExpiredStates(s[1..]);
      assert Expired(s) == [JobStep(s[0].name, ExpiredState(s[0].state))] + Expired(s[1..]);
    }
  }

  lemma {:induction false} StateOfIsSome(s: seq<JobStep>, n: StepName)
    ensures StateOf(s, n) != Pending ==> Has(s, n)
    decreases |s|
  {
    if s != [] && s[0].name != n {
      StateOfIsSome(s[1..], n);
      if Has(s[1..], n) {
        var i :| 0 <= i < |s[1..]| && s[1..][i].name == n;
        assert s[i + 1].name == n;
      }
    } else if s != [] {
      assert s[0].name == n;
    }
  }

  /** Each phase's state by name; a phase the job does not have reads pending. */
  datatype Pills = Pills(stop: StepState, verify: StepState, rollback: StepState, start: StepState,
                         prepare: StepState, snapshot: StepState, resume: StepState)

  function Pill(p: Pills, n: StepName): StepState {
    match n
    case StepStop => p.stop
    case StepVerify => p.verify
    case StepRollback => p.rollback
    case StepStart => p.start
    case StepPrepare => p.prepare
    case StepSnapshot => p.snapshot
    case StepResume => p.resume
  }

  function Set(p: Pills, n: StepName, st: StepState): Pills {
    match n
    case StepStop => p.(stop := st)
    case StepVerify => p.(verify := st)
    case StepRollback => p.(rollback := st)
    case StepStart => p.(start := st)
    case StepPrepare => p.(prepare := st)
    case StepSnapshot => p.(snapshot := st)
    case StepResume => p.(resume := st)
  }

  function Expire(p: Pills): Pills {
    Pills(ExpiredState(p.stop), ExpiredState(p.verify), ExpiredState(p.rollback), ExpiredState(p.start),
          ExpiredState(p.prepare), ExpiredState(p.snapshot), ExpiredState(p.resume))
  }

  function PillsOf(s: seq<JobStep>): Pills {
    Pills(StateOf(s, StepStop), StateOf(s, StepVerify), StateOf(s, StepRollback), StateOf(s, StepStart),
          StateOf(s, StepPrepare), StateOf(s, StepSnapshot), StateOf(s, StepResume))
  }

  const ALL_PENDING := Pills(Pending, Pending, Pending, Pending, Pending, Pending, Pending)

  /** The value after a move, whether or not a timeout struck just before it. */
  lemma MoveEffect(s: seq<JobStep>, n: StepName, st: StepState)
    requires Has(s, n)
    ensures SameNames(Updated(s, n, st), s) && PillsOf(Updated(s, n, st)) == Set(PillsOf(s), n, st)
  {
    UpdatedStates(s, n, st);
  }

  lemma ExpiryEffect(s: seq<JobStep>)
    ensures SameNames(Expired(s), s) && NoneActive(Expired(s)) && PillsOf(Expired(s)) == Expire(PillsOf(s))
  {
    ExpiredStates(s);
  }

  // ---- the order the phases must keep ----

  predicate Settled(st: StepState) {
    st.Done? || st.Skipped?
  }

  /** A phase leaves pending only once the phases it depends on have landed. */
  predicate Ordered(o: Order, p: Pills) {
    match o.action
    case Restore => o.mode.Staged? ==>
                      && (p.rollback != Pending ==> p.verify.Done? && Settled(p.stop))
                      && (p.start != Pending ==> p.rollback.Done?)
    case Reboot =>
      && (p.verify != Pending ==> p.stop.Done?)
      && (p.start != Pending ==> p.verify.Done?)
    case Snapshot =>
      && (p.snapshot != Pending ==> Settled(p.prepare))
      && (p.resume != Pending ==> p.snapshot.Done? || p.snapshot.Failed?)
    case _ => true
  }

  predicate Near(r: StepState, p: StepState) {
    p == r || p == ExpiredState(r)
  }

  /** What a timeout that struck at some point can have made of `r`: a phase that was active then may read failed. */
  predicate Drifted(r: Pills, p: Pills) {
    Near(r.stop, p.stop) && Near(r.verify, p.verify) && Near(r.rollback, p.rollback) && Near(r.start, p.start)
    && Near(r.prepare, p.prepare) && Near(r.snapshot, p.snapshot) && Near(r.resume, p.resume)
  }

  lemma DriftKeepsOrder(o: Order, r: Pills, p: Pills)
    requires Drifted(r, p) && Ordered(o, r)
    ensures Ordered(o, p)
  {
  }

  lemma DriftOutlivesExpiry(r: Pills, p: Pills)
    requires Drifted(r, p)
    ensures Drifted(r, Expire(p))
  {
  }

  /** One value a reader holding the mutex could have seen. */
  datatype View = View(state: JobState, steps: seq<JobStep>)

  /**
   One change a job may make: names stay, phases stay in order, states move forward, and a verdict leaves no phase
   active.
   */
  predicate GoodMove(o: Order, a: View, b: View) {
    && SameNames(b.steps, StepsFor(o)) && Ordered(o, PillsOf(b.steps))
    && LegalMove(a.state, b.state)
    && (Terminal(b.state) && !Terminal(a.state) ==> NoneActive(b.steps))
  }

  predicate Instant(h: seq<View>, i: int) {
    0 <= i < |h|
  }

  /** A life of a job: it starts as submitted and makes only good moves. */
  ghost predicate GoodHistory(o: Order, h: seq<View>) {
    && h != []
    && forall i {:trigger Instant(h, i)} :: Instant(h, i) ==>
         if i == 0 then h[0] == View(JobPending, StepsFor(o)) else GoodMove(o, h[i - 1], h[i])
  }

  /** What a good history says of every instant and of every change, however the timer and the executor interleave. */
  lemma EveryInstant(o: Order, h: seq<View>, i: nat)
    requires GoodHistory(o, h) && i < |h|
    ensures SameNames(h[i].steps, StepsFor(o)) && Ordered(o, PillsOf(h[i].steps))
    ensures i > 0 ==> GoodMove(o, h[i - 1], h[i])
  {
    assert Instant(h, i);
    PlanIsOrdered(o);
  }

  /** A job gets one verdict and keeps it. */
  lemma {:induction false} VerdictIsFinal(o: Order, h: seq<View>, i: nat, k: nat)
    requires GoodHistory(o, h) && i <= k < |h| && Terminal(h[i].state)
    ensures h[k].state == h[i].state
    decreases k
  {
    if i < k {
      VerdictIsFinal(o, h, i, k - 1);
      EveryInstant(o, h, k);
    }
  }

  /**
   What a job's observers can rely on: at every instant the planned step names with the phases in order, never back to
   pending, one verdict for good, and no step active at the instant it is given.
   */
  ghost predicate WholeLife(o: Order, h: seq<View>) {
    && h != [] && h[0] == View(JobPending, StepsFor(o))
    && (forall i :: 0 <= i < |h| ==> SameNames(h[i].steps, StepsFor(o)) && Ordered(o, PillsOf(h[i].steps)))
    && (forall i, k :: 0 <= i <= k < |h| ==>
          && (Terminal(h[i].state) ==> h[k].state == h[i].state)
          && (h[k].state.JobPending? ==> h[i].state.JobPending?))
    && (forall i {:trigger Instant(h, i)} ::
          Instant(h, i) && i > 0 && Terminal(h[i].state) && !Terminal(h[i - 1].state) ==>
          NoneActive(h[i].steps))
  }

  lemma {:induction false} NeverPendingAgain(o: Order, h: seq<View>, i: nat, k: nat)
    requires GoodHistory(o, h) && i <= k < |h| && h[k].state.JobPending?
    ensures h[i].state.JobPending?
    decreases k
  {
    if i == k {
    } else {
      EveryInstant(o, h, k);
      NeverPendingAgain(o, h, i, k - 1);
    }
  }

  lemma GoodMovesMakeWholeLife(o: Order, h: seq<View>)
    requires GoodHistory(o, h)
    ensures WholeLife(o, h)
  {
    assert Instant(h, 0);
    forall i | 0 <= i < |h|
      ensures SameNames(h[i].steps, StepsFor(o)) && Ordered(o, PillsOf(h[i].steps))
    {
      EveryInstant(o, h, i);
    }
    forall i, k | 0 <= i <= k < |h|
      ensures Terminal(h[i].state) ==> h[k].state == h[i].state
      ensures h[k].state.JobPending? ==> h[i].state.JobPending?
    {
      if Terminal(h[i].state) { VerdictIsFinal(o, h, i, k); }
      if h[k].state.JobPending? { NeverPendingAgain(o, h, i, k); }
    }
  }

  lemma {:induction false} PlanIsPending(s: seq<JobStep>)
    requires forall i :: 0 <= i < |s| ==> s[i].state == Pending
    ensures forall n :: StateOf(s, n) == Pending
  {
    if s == [] {
    } else {
      PlanIsPending(s[1..]);
    }
  }

  lemma PlanIsOrdered(o: Order)
    ensures PillsOf(StepsFor(o)) == ALL_PENDING && Ordered(o, ALL_PENDING)
  {
    PlanIsPending(StepsFor(o));
  }

  lemma HistoryGrows(o: Order, h: seq<View>, v: View)
    requires GoodHistory(o, h) && GoodMove(o, h[|h| - 1], v)
    ensures GoodHistory(o, h + [v])
  {
    var longer := h + [v];
    forall i {:trigger Instant(longer, i)} | Instant(longer, i)
      ensures if i == 0 then longer[0] == View(JobPending, StepsFor(o)) else GoodMove(o, longer[i - 1], longer[i])
    {
      assert i < |h| ==> Instant(h, i);
    }
  }

  predicate Distinct(s: seq<JobStep>) {
    forall i, j :: 0 <= i < j < |s| ==> s[i].name != s[j].name
  }

  lemma {:induction false} StateAt(s: seq<JobStep>, i: nat)
    requires Distinct(s) && i < |s|
    ensures StateOf(s, s[i].name) == s[i].state
  {
    if i > 0 {
      assert s[0].name != s[i].name;
      StateAt(s[1..], i - 1);
    }
  }

  /** Phase names are never repeated, so asking by name misses no phase. */
  lemma IdleByName(o: Order, s: seq<JobStep>)
    requires SameNames(s, StepsFor(o)) && forall n :: !StateOf(s, n).Active?
    ensures NoneActive(s)
  {
    assert Distinct(StepsFor(o));
    forall i | 0 <= i < |s|
      ensures !s[i].state.Active?
    {
      StateAt(s, i);
    }
  }

  predicate Look(n: StepName) {
    true
  }

  /** `p` is what the steps say; kept behind `Look` so that only those who ask see the steps. */
  ghost predicate Shown(p: Pills, s: seq<JobStep>) {
    forall n {:trigger Look(n)} :: Look(n) ==> Pill(p, n) == StateOf(s, n)
  }

  lemma PillOf(s: seq<JobStep>, n: StepName)
    ensures Pill(PillsOf(s), n) == StateOf(s, n)
  {
    match n
    case StepStop => case StepVerify => case StepRollback => case StepStart =>
    case StepPrepare => case StepSnapshot => case StepResume =>
  }

  lemma ShownIsPillsOf(p: Pills, s: seq<JobStep>)
    ensures Shown(p, s) <==> p == PillsOf(s)
  {
    forall n ensures Pill(PillsOf(s), n) == StateOf(s, n) { PillOf(s, n); }
    assert Look(StepStop) && Look(StepVerify) && Look(StepRollback) && Look(StepStart) && Look(StepPrepare)
           && Look(StepSnapshot) && Look(StepResume);
  }

  class Job {
    const id: string
    const order: Order
    var state: JobState
    var steps: array<JobStep>
    /** Every value of state and steps since submit, oldest first. */
    ghost var history: seq<View>

    /** Each phase's present state, by name. */
    ghost var pills: Pills

    ghost predicate Valid()
      reads this, steps
    {
      && GoodHistory(order, history)
      && history[|history| - 1] == View(state, steps[..])
      && Shown(pills, steps[..])
    }

    constructor (id: string, order: Order)
      ensures Valid() && state == JobPending && steps[..] == StepsFor(order) && pills == ALL_PENDING
      ensures fresh(steps) && this.id == id && this.order == order && |history| == 1
    {
      this.id, this.order, this.state := id, order, JobPending;
      var plan := StepsFor(order);
      var a := new JobStep[|plan|](i requires 0 <= i < |plan| => plan[i]);
      assert a[..] == plan;
      PlanIsOrdered(order);
      ShownIsPillsOf(ALL_PENDING, plan);
      steps := a;
      history := [View(JobPending, plan)];
      pills := ALL_PENDING;
    }

    /** Adds the job's present value to its history. */
    ghost method Record(p: Pills)
      requires GoodHistory(order, history) && GoodMove(order, history[|history| - 1], View(state, steps[..]))
      requires p == PillsOf(steps[..])
      modifies this`history, this`pills
      ensures Valid() && history == old(history) + [View(state, steps[..])] && pills == p
    {
      HistoryGrows(order, history, View(state, steps[..]));
      history := history + [View(state, steps[..])];
      pills := p;
      ShownIsPillsOf(p, steps[..]);
    }

    /** The present value has the planned phases, in order. */
    lemma Present()
      requires Valid()
      ensures SameNames(steps[..], StepsFor(order)) && pills == PillsOf(steps[..]) && Ordered(order, pills)
    {
      EveryInstant(order, history, |history| - 1);
      ShownIsPillsOf(pills, steps[..]);
    }

    /** Phase names are never repeated, so a job whose pills are all at rest has no active step. */
    lemma AtRest()
      requires Valid() && pills == Expire(pills)
      ensures NoneActive(steps[..])
    {
      Present();
      forall n
        ensures !StateOf(steps[..], n).Active?
      {
        PillOf(steps[..], n);
        assert Pill(Expire(pills), n) == ExpiredState(Pill(pills, n));
      }
      IdleByName(order, steps[..]);
    }

    /** The write to a step that is there. */
    method Change(i: nat, n: StepName, st: StepState)
      requires Valid() && i < steps.Length && steps[i].name == n && forall j :: 0 <= j < i ==> steps[j].name != n
      requires Ordered(order, Set(pills, n, st))
      modifies this`history, this`pills, steps
      ensures Valid() && pills == Set(old(pills), n, st) && steps[..] == Updated(old(steps[..]), n, st)
      ensures history == old(history) + [View(state, steps[..])]
    {
      ghost var was := steps[..];
      Present();
      UpdatedAt(was, n, st, i);
      MoveEffect(was, n, st);
      steps[i] := JobStep(n, st);
      assert steps[..] == Updated(was, n, st);
      Record(Set(pills, n, st));
    }

    /** The growth by a step that was never planned. */
    method Append(n: StepName, st: StepState)
      modifies this`steps, this`history
      ensures steps[..] == old(steps[..]) + [JobStep(n, st)] && history == old(history) + [View(state, steps[..])]
    {
      var grown := steps[..] + [JobStep(n, st)];
      var longer := new JobStep[|grown|](i requires 0 <= i < |grown| => grown[i]);
      assert longer[..] == grown;
      steps := longer;
      history := history + [View(state, steps[..])];
    }

    /** Moves one step; a step the submit did not build would be appended. */
    method SetStep(n: StepName, st: StepState)
      requires Valid()
      requires Has(StepsFor(order), n) ==> Ordered(order, Set(pills, n, st))
      modifies this`steps, this`history, this`pills, steps
      ensures Has(StepsFor(order), n) ==> Valid() && steps == old(steps) && pills == Set(old(pills), n, st)
      ensures steps[..] == if Has(StepsFor(order), n) then Updated(old(steps[..]), n, st)
              else old(steps[..]) + [JobStep(n, st)]
      ensures history == old(history) + [View(state, steps[..])]
    {
      Present();
      assert SameNames(steps[..], StepsFor(order));
      for i := 0 to steps.Length
        invariant forall j :: 0 <= j < i ==> steps[j].name != n
      {
        if steps[i].name == n {
          assert StepsFor(order)[i].name == n;
          Change(i, n, st);
          return;
        }
      }
      assert forall j :: 0 <= j < |StepsFor(order)| ==> StepsFor(order)[j].name == steps[..][j].name;
      Append(n, st);
    }

    /** The runner's first act. */
    method Begin()
      requires Valid() && state == JobPending
      modifies this`state, this`history, this`pills
      ensures Valid() && state == JobRunning && pills == old(pills)
              && history == old(history) + [View(state, steps[..])]
    {
      Present();
      state := JobRunning;
      Record(pills);
    }

    /** A verdict from the executor's own answer. */
    method Finish(verdict: JobState)
      requires Valid() && state == JobRunning && Terminal(verdict) && NoneActive(steps[..])
      modifies this`state, this`history, this`pills
      ensures Valid() && state == verdict && pills == old(pills) && history == old(history) + [View(state, steps[..])]
    {
      Present();
      state := verdict;
      Record(pills);
    }

    /** The loop of the timeout branch. */
    method ExpireSteps()
      modifies steps
      ensures steps[..] == Expired(old(steps[..]))
    {
      ghost var was := steps[..];
      for i := 0 to steps.Length
        invariant forall j :: 0 <= j < i ==> steps[j] == Expired(was)[j]
        invariant forall j :: i <= j < steps.Length ==> steps[j] == was[j]
      {
        if steps[i].state == Active {
          steps[i] := JobStep(steps[i].name, Failed);
        }
      }
      assert steps[..] == Expired(was);
    }

    /** The verdict of the runner's timer. */
    method TimeOut()
      requires Valid() && state == JobRunning
      modifies this`state, this`history, this`pills, steps
      ensures Valid() && state == JobTimeout && steps[..] == Expired(old(steps[..])) && pills == Expire(old(pills))
      ensures history == old(history) + [View(state, steps[..])]
    {
      Present();
      ExpiryEffect(steps[..]);
      state := JobTimeout;
      ExpireSteps();
      Record(Expire(pills));
    }
  }
}
