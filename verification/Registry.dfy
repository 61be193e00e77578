/**
 The job registry of internal/actions/actions.go: `register`, `sweepLocked`, `List` and `clone` on a heap of jobs, and
 single flight over every run of submits, runner steps and sweeps.
 */
module Registry {
  import opened Basics
  import opened Clocks
  import opened Executors
  import opened Jobs

  /** What the single-flight check and the sweep look at. */
  datatype Rec = Rec(domain: string, action: Action, state: JobState, requested: int)

  predicate InFlight(r: Rec, domain: string, action: Action) {
    r.domain == domain && r.action == action && !Terminal(r.state)
  }

  predicate TooOld(r: Rec, now: int) {
    now - r.requested > JOB_RETENTION
  }

  ghost predicate Free(reg: map<string, Rec>, domain: string, action: Action) {
    forall k :: k in reg ==> !InFlight(reg[k], domain, action)
  }

  function Swept(reg: map<string, Rec>, now: int): map<string, Rec> {
    map id | id in reg && !TooOld(reg[id], now) :: reg[id]
  }

  /** Whether a job of this key stands in the way: unfinished, and within retention. */
  predicate Blocks(r: Rec, domain: string, action: Action, now: int) {
    && r.domain == domain && r.action == action && (r.state.JobPending? || r.state.JobRunning?)
    && now - r.requested <= JOB_RETENTION
  }

  ghost predicate Clear(reg: map<string, Rec>, domain: string, action: Action, now: int) {
    forall k :: k in reg ==> !Blocks(reg[k], domain, action, now)
  }

  /** After the sweep a key is free if and only if no job of it is both unfinished and within retention. */
  lemma FreeAfterSweepIff(reg: map<string, Rec>, domain: string, action: Action, now: int)
    ensures Free(Swept(reg, now), domain, action) <==> Clear(reg, domain, action, now)
  {
    var kept := Swept(reg, now);
    assert forall k :: k in kept ==> k in reg && kept[k] == reg[k];
    forall k | k in reg
      ensures Blocks(reg[k], domain, action, now) <==> k in kept && InFlight(kept[k], domain, action)
    {
    }
  }

  // ---- every run ----

  /**
   Where the goroutine of `run` stands. `GotAnswer` and `GotTimer` have left the select but not yet written the verdict.
   */
  datatype Pos = Spawned | Selecting | GotAnswer(r: Result) | GotTimer | Finished

  /** One job's two goroutines, runner and executor, and the one-slot channel from the executor to the runner. */
  datatype Task = Task(pos: Pos, working: bool, done: Option<Result>)

  /** `all` keeps every job ever built, also after the registry has dropped it; its runner still has it. */
  datatype Reg = Reg(all: map<string, Rec>, held: set<string>, tasks: map<string, Task>)

  const EMPTY := Reg(map[], {}, map[])

  datatype Event =
    | Submit(id: string, domain: string, action: Action, now: int, requested: int)
    | Begin(id: string)                       // the runner marks the job running and starts its executor
    | ExecutorEnds(id: string, r: Result)     // also long after the runner has given up on it
    | TakeAnswer(id: string)                  // the select takes the executor's answer
    | TakeTimer(id: string)                   // the select takes the timer
    | Write(id: string)                       // the critical section that records the verdict
    | Sweep(now: int)

  function Held(s: Reg): map<string, Rec> {
    map id | id in s.held && id in s.all :: s.all[id]
  }

  predicate At(s: Reg, id: string, pos: Pos) {
    id in s.all && id in s.tasks && s.tasks[id].pos == pos
  }

  /** Fresh ids are assumed. No guard looks at a job's state: the runner writes whatever its own position says. */
  predicate Enabled(s: Reg, e: Event) {
    match e
    case Submit(id, _, _, _, _) => id !in s.all
    case Begin(id) => At(s, id, Spawned)
    case ExecutorEnds(id, _) => id in s.tasks && s.tasks[id].working
    case TakeAnswer(id) => At(s, id, Selecting) && s.tasks[id].done.Some?
    case TakeTimer(id) => At(s, id, Selecting)
    case Write(id) => id in s.all && id in s.tasks && (s.tasks[id].pos.GotAnswer? || s.tasks[id].pos.GotTimer?)
    case Sweep(_) => true
  }

  function Put(s: Reg, id: string, state: JobState, task: Task): Reg
    requires id in s.all
  {
    s.(all := s.all[id := s.all[id].(state := state)], tasks := s.tasks[id := task])
  }

  ghost function Step(s: Reg, e: Event): Reg
    requires Enabled(s, e)
  {
    match e
    case Submit(id, domain, action, now, requested) =>
      var kept := Swept(Held(s), now);
      if !Free(kept, domain, action) then s.(held := kept.Keys)
      else Reg(s.all[id := Rec(domain, action, JobPending, requested)], kept.Keys + {id},
               s.tasks[id := Task(Spawned, false, None)])
    case Begin(id) => Put(s, id, JobRunning, Task(Selecting, true, None))
    case ExecutorEnds(id, r) => s.(tasks := s.tasks[id := s.tasks[id].(working := false, done := Some(r))])
    case TakeAnswer(id) =>
      var x := s.tasks[id];
      s.(tasks := s.tasks[id := x.(pos := GotAnswer(x.done.value), done := None)])
    case TakeTimer(id) => s.(tasks := s.tasks[id := s.tasks[id].(pos := GotTimer)])
    case Write(id) =>
      var x := s.tasks[id];
      Put(s, id, if x.pos.GotAnswer? then VerdictOf(x.pos.r) else JobTimeout, x.(pos := Finished))
    case Sweep(now) => s.(held := Swept(Held(s), now).Keys)
  }

  ghost function Next(s: Reg, e: Event): Reg {
    if Enabled(s, e) then Step(s, e) else s
  }

  ghost function Run(s: Reg, es: seq<Event>): Reg
    decreases |es|
  {
    if es == [] then s else Run(Next(s, es[0]), es[1..])
  }

  /** What the runner's position says about its job's state. */
  predicate Tied(state: JobState, pos: Pos) {
    match pos
    case Spawned => state.JobPending?
    case Selecting => state.JobRunning?
    case GotAnswer(_) => state.JobRunning?
    case GotTimer => state.JobRunning?
    case Finished => Terminal(state)
  }

  ghost predicate SingleFlight(reg: map<string, Rec>) {
    forall i, j ::
      i in reg && j in reg && InFlight(reg[i], reg[j].domain, reg[j].action) && !Terminal(reg[j].state) ==> i == j
  }

  ghost predicate TasksInv(s: Reg) {
    && s.tasks.Keys == s.all.Keys && s.held <= s.all.Keys
    && forall id :: id in s.all ==> Tied(s.all[id].state, s.tasks[id].pos)
  }

  ghost predicate Inv(s: Reg) {
    TasksInv(s) && SingleFlight(Held(s))
  }

  lemma StepKeepsTasks(s: Reg, e: Event)
    requires TasksInv(s) && Enabled(s, e)
    ensures TasksInv(Step(s, e))
  {
  }

  /**
   Because every runner writes only what its position allows, each step moves each job from pending to running, from
   running to a verdict, or not at all, and never changes what the job is.
   */
  lemma StepIsLegal(s: Reg, e: Event, id: string)
    requires TasksInv(s) && Enabled(s, e) && id in s.all
    ensures var t := Step(s, e);
            id in t.all && LegalMove(s.all[id].state, t.all[id].state)
                && t.all[id].(state := s.all[id].state) == s.all[id]
  {
  }

  /** A step adds no unfinished job to the registry but an accepted submit's own. */
  lemma StepKeepsSingleFlight(s: Reg, e: Event)
    requires Inv(s) && Enabled(s, e)
    ensures SingleFlight(Held(Step(s, e)))
  {
    var before, after := Held(s), Held(Step(s, e));
    forall i, j | i in after && j in after && InFlight(after[i], after[j].domain, after[j].action)
        && !Terminal(after[j].state)
      ensures i == j
    {
      if i in s.all { StepIsLegal(s, e, i); }
      if j in s.all { StepIsLegal(s, e, j); }
      assert i in s.all ==> i in before && !Terminal(before[i].state);
      assert j in s.all ==> j in before && !Terminal(before[j].state);
    }
  }

  lemma {:induction false} RunKeepsInv(s: Reg, es: seq<Event>)
    requires Inv(s)
    ensures Inv(Run(s, es))
    decreases |es|
  {
    if es == [] {
    } else {
      if Enabled(s, es[0]) {
        StepKeepsTasks(s, es[0]);
        StepKeepsSingleFlight(s, es[0]);
      }
      RunKeepsInv(Next(s, es[0]), es[1..]);
    }
  }

  /**
   The registry never holds two jobs for the same domain and action that are both pending or running, whatever happens
   in whatever order.
   */
  lemma NeverTwoInFlight(es: seq<Event>, i: string, j: string)
    requires var jobs := Held(Run(EMPTY, es));
             && i in jobs && j in jobs && !Terminal(jobs[i].state) && !Terminal(jobs[j].state)
             && jobs[i].domain == jobs[j].domain && jobs[i].action == jobs[j].action
    ensures i == j
  {
    RunKeepsInv(EMPTY, es);
  }

  lemma {:induction false} ForwardFrom(s: Reg, es: seq<Event>, id: string)
    requires Inv(s) && id in s.all
    ensures var t := Run(s, es);
            && id in t.all && t.all[id].(state := s.all[id].state) == s.all[id]
            && (Terminal(s.all[id].state) ==> t.all[id].state == s.all[id].state)
            && (t.all[id].state.JobPending? ==> s.all[id].state.JobPending?)
    decreases |es|
  {
    if es == [] {
    } else {
      if Enabled(s, es[0]) {
        StepIsLegal(s, es[0], id);
        StepKeepsTasks(s, es[0]);
        StepKeepsSingleFlight(s, es[0]);
      }
      ForwardFrom(Next(s, es[0]), es[1..], id);
    }
  }

  /**
   In every run, with timers racing answers and abandoned executors ending at any time, also for jobs already swept: a
   job's identity never changes, it never becomes pending again, and a verdict is for good.
   */
  lemma JobsOnlyMoveForward(es: seq<Event>, more: seq<Event>, id: string)
    requires id in Run(EMPTY, es).all
    ensures var s, t := Run(EMPTY, es), Run(Run(EMPTY, es), more);
            && id in t.all && t.all[id].(state := s.all[id].state) == s.all[id]
            && (Terminal(s.all[id].state) ==> t.all[id].state == s.all[id].state)
            && (t.all[id].state.JobPending? ==> s.all[id].state.JobPending?)
  {
    RunKeepsInv(EMPTY, es);
    ForwardFrom(Run(EMPTY, es), more, id);
  }

  // ---- what decides a verdict, and how long a job is held ----

  /** What has happened to one job: what its executor ended with, if it has, and whether the runner took that answer. */
  datatype Fate = Fate(ended: Option<Result>, took: bool)

  function FateAfter(s: Reg, e: Event, id: string, m: Fate): Fate {
    if !Enabled(s, e) then m
    else match e
         case ExecutorEnds(k, r) => if k == id then m.(ended := Some(r)) else m
         case TakeAnswer(k) => if k == id then m.(took := true) else m
         case _ => m
  }

  ghost function FateIn(s: Reg, es: seq<Event>, id: string, m: Fate): Fate
    decreases |es|
  {
    if es == [] then m else FateIn(Next(s, es[0]), es[1..], id, FateAfter(s, es[0], id, m))
  }

  predicate JustVerdict(state: JobState, m: Fate) {
    if m.took then
      && m.ended.Some?
      && (state.JobOK? <==> m.ended == Some(Ok)) && (state.JobTimeout? <==> m.ended == Some(Err(NotStopped)))
      && (state.JobFailed? <==> m.ended.value.Err? && !m.ended.value.error.NotStopped?)
    else state.JobTimeout?
  }

  /** How far a job has come fits what has happened to it. */
  ghost predicate Fits(s: Reg, id: string, m: Fate) {
    if id !in s.all || id !in s.tasks then m == Fate(None, false)
    else
      var x := s.tasks[id];
      match x.pos
      case Spawned => m == Fate(None, false) && !x.working
      case Selecting => !m.took && x.done == m.ended
      case GotAnswer(r) => m == Fate(Some(r), true) && !x.working
      case GotTimer => !m.took
      case Finished => JustVerdict(s.all[id].state, m) && (m.took ==> !x.working)
  }

  ghost predicate OneAnswer(s: Reg) {
    forall id :: id in s.tasks && s.tasks[id].done.Some? ==> !s.tasks[id].working
  }

  lemma StepFits(s: Reg, e: Event, id: string, m: Fate)
    requires TasksInv(s) && OneAnswer(s) && Enabled(s, e) && Fits(s, id, m)
    ensures Fits(Step(s, e), id, FateAfter(s, e, id, m)) && OneAnswer(Step(s, e))
  {
  }

  lemma {:induction false} RunFits(s: Reg, es: seq<Event>, id: string, m: Fate)
    requires TasksInv(s) && OneAnswer(s) && Fits(s, id, m)
    ensures Fits(Run(s, es), id, FateIn(s, es, id, m)) && TasksInv(Run(s, es))
    decreases |es|
  {
    if es == [] {
    } else {
      if Enabled(s, es[0]) {
        StepKeepsTasks(s, es[0]);
        StepFits(s, es[0], id, m);
      }
      RunFits(Next(s, es[0]), es[1..], id, FateAfter(s, es[0], id, m));
    }
  }

  /**
   In every run, however timers and executors interleave: a job whose answer was taken is ok if and only if its executor
   ended well, timed out if and only if the guest did not stop, and failed otherwise; a job whose answer was not taken
   timed out.
   */
  lemma VerdictHasItsCause(es: seq<Event>, id: string)
    requires id in Run(EMPTY, es).all && Terminal(Run(EMPTY, es).all[id].state)
    ensures JustVerdict(Run(EMPTY, es).all[id].state, FateIn(EMPTY, es, id, Fate(None, false)))
  {
    RunFits(EMPTY, es, id, Fate(None, false));
  }

  lemma OneStep(s: Reg, e: Event, rest: seq<Event>)
    ensures Run(s, [e] + rest) == Run(Next(s, e), rest)
  {
    assert ([e] + rest)[1..] == rest;
  }

  /** The runner's own next step, if its executor never answers. */
  function OwnStep(pos: Pos, id: string): Event {
    match pos
    case Spawned => Begin(id)
    case Selecting => TakeTimer(id)
    case _ => Write(id)
  }

  /** How many of its own steps a runner is from its end. */
  function StepsLeft(pos: Pos): nat {
    match pos
    case Spawned => 3
    case Selecting => 2
    case Finished => 0
    case _ => 1
  }

  lemma {:induction false} RunnerEndsFrom(s: Reg, id: string) returns (rest: seq<Event>)
    requires TasksInv(s) && id in s.all
    ensures |rest| == StepsLeft(s.tasks[id].pos)
    ensures forall e :: e in rest ==> e in {Begin(id), TakeTimer(id), Write(id)}
    ensures id in Run(s, rest).all && Terminal(Run(s, rest).all[id].state)
    decreases StepsLeft(s.tasks[id].pos)
  {
    var e := OwnStep(s.tasks[id].pos, id);
    if s.tasks[id].pos.Finished? {
      rest := [];
    } else {
      StepKeepsTasks(s, e);
      var more := RunnerEndsFrom(Step(s, e), id);
      OneStep(s, e, more);
      rest := [e] + more;
    }
  }

  /**
   Every job gets its verdict: in any reachable state at most three steps of its own runner end it, whether or not its
   executor ever answers and whatever the registry still holds.
   */
  lemma EveryJobEnds(es: seq<Event>, id: string) returns (rest: seq<Event>)
    requires id in Run(EMPTY, es).all
    ensures |rest| <= 3 && forall e :: e in rest ==> e in {Begin(id), TakeTimer(id), Write(id)}
    ensures var t := Run(Run(EMPTY, es), rest); id in t.all && Terminal(t.all[id].state)
  {
    RunKeepsInv(EMPTY, es);
    rest := RunnerEndsFrom(Run(EMPTY, es), id);
  }

  /** An executor that answers before the timer decides: a job that has not begun ends as its executor does. */
  lemma AnsweredJobEnds(es: seq<Event>, id: string, r: Result)
    requires At(Run(EMPTY, es), id, Spawned)
    ensures var t := Run(Run(EMPTY, es), [Begin(id), ExecutorEnds(id, r), TakeAnswer(id), Write(id)]);
            && id in t.all
            && (t.all[id].state.JobOK? <==> r == Ok) && (t.all[id].state.JobTimeout? <==> r == Err(NotStopped))
            && (t.all[id].state.JobFailed? <==> r.Err? && !r.error.NotStopped?)
  {
    var s := Run(EMPTY, es);
    var e1, e2, e3, e4 := Begin(id), ExecutorEnds(id, r), TakeAnswer(id), Write(id);
    assert [e1, e2, e3, e4] == [e1] + [e2, e3, e4] && [e2, e3, e4] == [e2] + [e3, e4] && [e3, e4] == [e3] + [e4];
    OneStep(s, e1, [e2, e3, e4]);
    OneStep(Next(s, e1), e2, [e3, e4]);
    OneStep(Next(Next(s, e1), e2), e3, [e4]);
    assert [e4] + [] == [e4];
    OneStep(Next(Next(Next(s, e1), e2), e3), e4, []);
  }

  /** No submit or sweep in the run comes more than the retention time after `since`. */
  ghost predicate NoneTooLate(s: Reg, es: seq<Event>, since: int)
    decreases |es|
  {
    es != [] ==>
      && (es[0].Sweep? || (es[0].Submit? && es[0].id !in s.all) ==> es[0].now - since <= JOB_RETENTION)
      && NoneTooLate(Next(s, es[0]), es[1..], since)
  }

  lemma StepHolds(s: Reg, e: Event, id: string)
    requires TasksInv(s) && Enabled(s, e) && id in s.all
    ensures id in Step(s, e).held <==>
            id in s.held && (e.Submit? || e.Sweep? ==> e.now - s.all[id].requested <= JOB_RETENTION)
  {
  }

  /** A job is held until the first submit or sweep that comes past its retention, finished or not. */
  lemma {:induction false} HeldUntilRetention(s: Reg, es: seq<Event>, id: string)
    requires TasksInv(s) && id in s.all
    ensures id in Run(s, es).held <==> id in s.held && NoneTooLate(s, es, s.all[id].requested)
    decreases |es|
  {
    if es == [] {
    } else {
      if Enabled(s, es[0]) {
        StepKeepsTasks(s, es[0]);
        StepIsLegal(s, es[0], id);
        StepHolds(s, es[0], id);
      }
      HeldUntilRetention(Next(s, es[0]), es[1..], id);
    }
  }

  /** In every run an accepted job is held from its submit until the first submit or sweep past its retention. */
  lemma AcceptedIsHeld(es: seq<Event>, e: Event, more: seq<Event>)
    requires e.Submit? && Enabled(Run(EMPTY, es), e) && e.id in Step(Run(EMPTY, es), e).all
    ensures var s := Step(Run(EMPTY, es), e);
            && s.all[e.id] == Rec(e.domain, e.action, JobPending, e.requested)
            && (e.id in Run(s, more).held <==> NoneTooLate(s, more, e.requested))
  {
    RunKeepsInv(EMPTY, es);
    StepKeepsTasks(Run(EMPTY, es), e);
    HeldUntilRetention(Step(Run(EMPTY, es), e), more, e.id);
  }

  /** And a submit is accepted if and only if no job held at that moment blocks it. */
  lemma AcceptedIff(s: Reg, e: Event)
    requires TasksInv(s) && e.Submit? && Enabled(s, e)
    ensures e.id in Step(s, e).all <==> forall k :: k in s.held ==> !Blocks(s.all[k], e.domain, e.action, e.now)
  {
    FreeAfterSweepIff(Held(s), e.domain, e.action, e.now);
    assert forall k :: k in s.held ==> k in Held(s) && Held(s)[k] == s.all[k];
  }

  // ---- one unfinished job per key, in the registry or not ----

  /** Of all jobs ever built, no two unfinished ones share domain and action. */
  ghost predicate OnePerKey(s: Reg) {
    SingleFlight(s.all)
  }

  /** A submit for a key whose unfinished job the registry has dropped, or drops now because it is past retention. */
  ghost predicate LateSubmit(s: Reg, e: Event) {
    && e.Submit? && Enabled(s, e)
    && exists k :: k in s.all && InFlight(s.all[k], e.domain, e.action) && (k !in s.held || TooOld(s.all[k], e.now))
  }

  ghost predicate AlwaysOnePerKey(s: Reg, es: seq<Event>)
    decreases |es|
  {
    OnePerKey(s) && (es != [] ==> AlwaysOnePerKey(Next(s, es[0]), es[1..]))
  }

  ghost predicate NoLateSubmit(s: Reg, es: seq<Event>)
    decreases |es|
  {
    es != [] ==> !LateSubmit(s, es[0]) && NoLateSubmit(Next(s, es[0]), es[1..])
  }

  /** A late submit is accepted beside the job it cannot see. */
  lemma LateSubmitDoubles(s: Reg, e: Event)
    requires Inv(s) && OnePerKey(s) && LateSubmit(s, e)
    ensures !OnePerKey(Step(s, e))
  {
    var k :| k in s.all && InFlight(s.all[k], e.domain, e.action) && (k !in s.held || TooOld(s.all[k], e.now));
    var kept, t := Swept(Held(s), e.now), Step(s, e);
    forall i | i in kept
      ensures !InFlight(kept[i], e.domain, e.action)
    {
      assert i in s.all && kept[i] == s.all[i];
    }
    assert Free(kept, e.domain, e.action);
    assert k in t.all && e.id in t.all && t.all[k] == s.all[k] && k != e.id;
  }

  /** A submit that is not late and is accepted finds no unfinished job of its key anywhere. */
  lemma AcceptedIsAlone(s: Reg, e: Event, k: string)
    requires Inv(s) && e.Submit? && Enabled(s, e) && !LateSubmit(s, e) && k in s.all
    requires Free(Swept(Held(s), e.now), e.domain, e.action)
    ensures !InFlight(s.all[k], e.domain, e.action)
  {
    assert k in s.held && !TooOld(s.all[k], e.now) ==> k in Swept(Held(s), e.now);
  }

  lemma OtherStepsKeepOne(s: Reg, e: Event)
    requires Inv(s) && OnePerKey(s) && Enabled(s, e) && !LateSubmit(s, e)
    ensures OnePerKey(Step(s, e))
  {
    var t := Step(s, e);
    forall i, j | i in t.all && j in t.all && InFlight(t.all[i], t.all[j].domain, t.all[j].action)
        && !Terminal(t.all[j].state)
      ensures i == j
    {
      if i in s.all { StepIsLegal(s, e, i); }
      if j in s.all { StepIsLegal(s, e, j); }
      if e.Submit? && Free(Swept(Held(s), e.now), e.domain, e.action) {
        if i in s.all { AcceptedIsAlone(s, e, i); }
        if j in s.all { AcceptedIsAlone(s, e, j); }
      }
    }
  }

  lemma {:induction false} OnePerKeyFrom(s: Reg, es: seq<Event>)
    requires Inv(s) && OnePerKey(s)
    ensures AlwaysOnePerKey(s, es) <==> NoLateSubmit(s, es)
    decreases |es|
  {
    if es == [] {
    } else {
      if Enabled(s, es[0]) {
        StepKeepsTasks(s, es[0]);
        StepKeepsSingleFlight(s, es[0]);
      }
      if LateSubmit(s, es[0]) {
        LateSubmitDoubles(s, es[0]);
      } else {
        if Enabled(s, es[0]) { OtherStepsKeepOne(s, es[0]); }
        OnePerKeyFrom(Next(s, es[0]), es[1..]);
      }
    }
  }

  /**
   Single flight looks at the registry only. Over a whole run no domain and action ever has two unfinished jobs if and
   only if no submit comes for a key whose unfinished job is no longer held or is past retention at that submit.
   */
  lemma OneUnfinishedIff(es: seq<Event>)
    ensures AlwaysOnePerKey(EMPTY, es) <==> NoLateSubmit(EMPTY, es)
  {
    OnePerKeyFrom(EMPTY, es);
  }

  // ---- when every verdict comes before retention runs out ----

  /** No unfinished job is past retention when a submit or a sweep comes. */
  ghost predicate InTime(s: Reg, e: Event) {
    Enabled(s, e) && (e.Submit? || e.Sweep?) ==>
      forall k :: k in s.all && !Terminal(s.all[k].state) ==> !TooOld(s.all[k], e.now)
  }

  ghost predicate AlwaysInTime(s: Reg, es: seq<Event>)
    decreases |es|
  {
    es != [] ==> InTime(s, es[0]) && AlwaysInTime(Next(s, es[0]), es[1..])
  }

  ghost predicate UnfinishedIsHeld(s: Reg) {
    forall k :: k in s.all && !Terminal(s.all[k].state) ==> k in s.held
  }

  lemma InTimeKeepsHeld(s: Reg, e: Event)
    requires TasksInv(s) && UnfinishedIsHeld(s) && InTime(s, e) && Enabled(s, e)
    ensures UnfinishedIsHeld(Step(s, e)) && !LateSubmit(s, e)
  {
    var t := Step(s, e);
    forall k | k in t.all && !Terminal(t.all[k].state)
      ensures k in t.held
    {
      if k in s.all {
        StepIsLegal(s, e, k);
        assert k in Held(s);
      }
    }
  }

  /** If no unfinished job is ever past retention when a submit or a sweep comes, no submit is ever late. */
  lemma {:induction false} InTimeIsNeverLate(s: Reg, es: seq<Event>)
    requires TasksInv(s) && UnfinishedIsHeld(s) && AlwaysInTime(s, es)
    ensures NoLateSubmit(s, es)
    decreases |es|
  {
    if es == [] {
    } else {
      if Enabled(s, es[0]) {
        InTimeKeepsHeld(s, es[0]);
        StepKeepsTasks(s, es[0]);
      }
      InTimeIsNeverLate(Next(s, es[0]), es[1..]);
    }
  }

  /**
   An instance: a second submit while the first job still runs is accepted if and only if the first is older than
   retention; the first is then no longer listed, although it has not finished.
   */
  lemma RetentionFreesTheSlot(first: string, second: string, domain: string, action: Action, since: int, now: int)
    requires first != second
    ensures var s := Run(EMPTY, [Submit(first, domain, action, since, since), Begin(first),
                                 Submit(second, domain, action, now, now)]);
            && first in s.all && s.all[first].state.JobRunning?
            && s.held == if now - since > JOB_RETENTION then {second} else {first}
  {
    var e1, e2, e3 := Submit(first, domain, action, since, since), Begin(first),
        Submit(second, domain, action, now, now);
    assert [e1, e2, e3][1..] == [e2, e3] && [e2, e3][1..] == [e3] && [e3][1..] == [];
    var r := Rec(domain, action, JobPending, since);
    var s1 := Step(EMPTY, e1);
    assert s1 == Reg(map[first := r], {first}, map[first := Task(Spawned, false, None)]);
    var s2 := Step(s1, e2);
    assert s2.all == map[first := r.(state := JobRunning)] && s2.held == {first};
    assert Held(s2) == map[first := r.(state := JobRunning)];
    var kept := Swept(Held(s2), now);
    if now - since > JOB_RETENTION {
      assert kept == map[];
    } else {
      assert first in kept && InFlight(kept[first], domain, action);
    }
    assert Run(s2, [e3]) == Step(s2, e3);
  }

  // ---- the heap ----

  /** A job as `clone` hands it out: its own step storage. */
  datatype JobCopy = JobCopy(id: string, order: Order, state: JobState, steps: array<JobStep>)

  function Ids(s: seq<JobCopy>): seq<string> {
    seq(|s|, i requires 0 <= i < |s| => s[i].id)
  }

  /** The same copies, and the same ids, in some order. */
  predicate Permuted(s: seq<JobCopy>, t: seq<JobCopy>) {
    multiset(s) == multiset(t) && multiset(Ids(s)) == multiset(Ids(t))
  }

  predicate Oldest(s: seq<JobCopy>) {
    forall i, j :: 0 <= i < j < |s| ==> s[i].order.requested <= s[j].order.requested
  }

  /** `s` is in order up to `n`, except that the element at `k` may still belong further left. */
  predicate Sinking(s: seq<JobCopy>, k: int, n: int) {
    && 0 <= k < n <= |s|
    && (forall i, j :: 0 <= i < j < n && j != k ==> s[i].order.requested <= s[j].order.requested)
  }

  lemma SwapSinks(s: seq<JobCopy>, t: seq<JobCopy>, k: int, n: int)
    requires Sinking(s, k, n) && k > 0 && s[k].order.requested < s[k - 1].order.requested
    requires t == s[k := s[k - 1]][k - 1 := s[k]]
    ensures Sinking(t, k - 1, n) && Permuted(t, s)
  {
    assert Ids(t) == Ids(s)[k := Ids(s)[k - 1]][k - 1 := Ids(s)[k]];
  }

  lemma SunkIsSorted(s: seq<JobCopy>, k: int, n: int)
    requires Sinking(s, k, n) && (k == 0 || s[k - 1].order.requested <= s[k].order.requested)
    ensures Oldest(s[..n])
  {
    forall i, j | 0 <= i < j < n
      ensures s[i].order.requested <= s[j].order.requested
    {
      if j == k && i < k - 1 { assert s[i].order.requested <= s[k - 1].order.requested; }
    }
  }

  /** Moves element `i` left to its place among the first `i`. */
  method Sink(out: array<JobCopy>, i: nat)
    requires i < out.Length && Oldest(out[..i])
    modifies out
    ensures Oldest(out[..i + 1]) && Permuted(out[..], old(out[..]))
  {
    var k := i;
    while k > 0 && out[k].order.requested < out[k - 1].order.requested
      invariant Sinking(out[..], k, i + 1) && Permuted(out[..], old(out[..]))
    {
      ghost var was := out[..];
      out[k], out[k - 1] := out[k - 1], out[k];
      SwapSinks(was, out[..], k, i + 1);
      k := k - 1;
    }
    SunkIsSorted(out[..], k, i + 1);
    assert out[..][..i + 1] == out[..i + 1];
  }

  /** The in-place insertion sort of `List`. */
  method SortByRequested(out: array<JobCopy>)
    modifies out
    ensures Oldest(out[..]) && Permuted(out[..], old(out[..]))
  {
    var i := 1;
    while i < out.Length
      invariant 1 <= i && Permuted(out[..], old(out[..]))
      invariant Oldest(out[..if i < out.Length then i else out.Length])
    {
      Sink(out, i);
      i := i + 1;
    }
    assert out[..] == out[..out.Length];
  }

  method Sorted(acc: seq<JobCopy>) returns (out: array<JobCopy>)
    ensures fresh(out) && Oldest(out[..]) && Permuted(out[..], acc)
  {
    out := new JobCopy[|acc|](i requires 0 <= i < |acc| => acc[i]);
    assert out[..] == acc;
    SortByRequested(out);
  }

  function RecOf(o: Order, state: JobState): Rec {
    Rec(o.domain, o.action, state, o.requested)
  }

  class Store {
    var jobs: map<string, Job>

    ghost predicate Valid()
      reads this, jobs.Values
    {
      forall id :: id in jobs ==> jobs[id].id == id
    }

    ghost function Recs(): map<string, Rec>
      reads this, jobs.Values
    {
      map id | id in jobs :: RecOf(jobs[id].order, jobs[id].state)
    }

    constructor ()
      ensures Valid() && jobs == map[]
    {
      jobs := map[];
    }

    /** Drops jobs past retention. */
    method SweepLocked(now: int)
      requires Valid()
      modifies this
      ensures Valid() && Recs() == Swept(old(Recs()), now)
      ensures forall id :: id in jobs ==> id in old(jobs) && jobs[id] == old(jobs)[id]
      ensures forall id :: id in old(jobs) ==> (id in jobs <==> now - old(jobs)[id].order.requested <= JOB_RETENTION)
    {
      var todo := jobs.Keys;
      while todo != {}
        invariant Valid() && todo <= jobs.Keys <= old(jobs).Keys
        invariant forall id :: id in jobs ==> jobs[id] == old(jobs)[id]
        invariant forall id :: id in old(jobs) && id !in todo ==>
                                 (id in jobs <==> now - old(jobs)[id].order.requested <= JOB_RETENTION)
        decreases todo
      {
        ghost var some := SomeMember(todo);
        var id :| id in todo;
        if now - jobs[id].order.requested > JOB_RETENTION {
          jobs := jobs - {id};
        }
        todo := todo - {id};
      }
    }

    /** A copy with its own steps: nothing the runner does later shows in it. */
    method Clone(j: Job) returns (c: JobCopy)
      ensures c.id == j.id && c.order == j.order && c.state == j.state
      ensures fresh(c.steps) && c.steps[..] == j.steps[..]
    {
      var steps := new JobStep[j.steps.Length](i requires 0 <= i < j.steps.Length reads j, j.steps => j.steps[i]);
      assert steps[..] == j.steps[..];
      c := JobCopy(j.id, j.order, j.state, steps);
    }

    /** The single-flight check, in whatever order the map is walked. */
    method FindInFlight(domain: string, action: Action) returns (found: Job?)
      requires Valid()
      ensures found == null <==> Free(Recs(), domain, action)
      ensures found != null ==>
              found.id in jobs && jobs[found.id] == found && InFlight(RecOf(found.order, found.state), domain, action)
    {
      var todo := jobs.Keys;
      while todo != {}
        invariant todo <= jobs.Keys
        invariant forall k :: k in jobs && k !in todo ==> !InFlight(RecOf(jobs[k].order, jobs[k].state), domain, action)
        decreases todo
      {
        ghost var some := SomeMember(todo);
        var k :| k in todo;
        var j := jobs[k];
        if j.order.domain == domain && j.order.action == action && (j.state.JobPending? || j.state.JobRunning?) {
          assert k in Recs() && InFlight(Recs()[k], domain, action);
          return j;
        }
        todo := todo - {k};
      }
      found := null;
    }

    /** One submit: refused with a copy of the job in flight, or registered. */
    method Register(id: string, order: Order, now: int) returns (copy: JobCopy, accepted: bool)
      requires Valid() && id !in jobs
      modifies this
      ensures Valid() && fresh(copy.steps)
      ensures accepted <==> Clear(old(Recs()), order.domain, order.action, now)
      ensures !accepted ==> Recs() == Swept(old(Recs()), now)
      ensures !accepted ==> copy.id in Recs() && InFlight(Recs()[copy.id], order.domain, order.action)
      ensures accepted ==>
              Recs() == Swept(old(Recs()), now)[id := Rec(order.domain, order.action, JobPending, order.requested)]
      ensures accepted ==>
              id in jobs && fresh(jobs[id]) && jobs[id].Valid() && jobs[id].order == order
                  && jobs[id].pills == ALL_PENDING
      ensures accepted ==> copy.id == id && copy.order == order && copy.state.JobPending?
      ensures copy.id in jobs && copy.steps[..] == jobs[copy.id].steps[..] && copy.steps != jobs[copy.id].steps
    {
      FreeAfterSweepIff(Recs(), order.domain, order.action, now);
      SweepLocked(now);
      var inFlight := FindInFlight(order.domain, order.action);
      if inFlight != null {
        copy := Clone(inFlight);
        return copy, false;
      }
      copy := Enter(id, order);
      accepted := true;
    }

    /** Builds the job with its steps and puts it in the registry. */
    method Enter(id: string, order: Order) returns (copy: JobCopy)
      requires Valid() && id !in jobs
      modifies this
      ensures Valid() && fresh(copy.steps)
      ensures Recs() == old(Recs())[id := Rec(order.domain, order.action, JobPending, order.requested)]
      ensures id in jobs && fresh(jobs[id]) && jobs[id].Valid() && jobs[id].order == order
              && jobs[id].pills == ALL_PENDING
      ensures copy.id == id && copy.order == order && copy.state.JobPending?
      ensures copy.steps[..] == jobs[id].steps[..] && copy.steps != jobs[id].steps
    {
      var job := new Job(id, order);
      jobs := jobs[id := job];
      copy := Clone(job);
    }

    /** `c` shows job `j` as it is now. */
    ghost predicate Shows(c: JobCopy, j: Job)
      reads j, j.steps, c.steps
    {
      c.id == j.id && c.order == j.order && c.state == j.state && c.steps[..] == j.steps[..]
    }

    /** Copies of all jobs, in whatever order the map is walked. */
    method CloneAll() returns (acc: seq<JobCopy>)
      requires Valid()
      ensures multiset(Ids(acc)) == multiset(jobs.Keys)
      ensures forall c :: c in acc ==> c.id in jobs && fresh(c.steps) && Shows(c, jobs[c.id])
    {
      acc := [];
      var todo := jobs.Keys;
      while todo != {}
        invariant todo <= jobs.Keys
        invariant multiset(Ids(acc)) == multiset(jobs.Keys - todo)
        invariant forall c :: c in acc ==> c.id in jobs && fresh(c.steps) && Shows(c, jobs[c.id])
        decreases todo
      {
        ghost var some := SomeMember(todo);
        var id :| id in todo;
        var c := Clone(jobs[id]);
        assert Ids(acc + [c]) == Ids(acc) + [id];
        assert jobs.Keys - (todo - {id}) == (jobs.Keys - todo) + {id};
        acc, todo := acc + [c], todo - {id};
      }
      assert jobs.Keys - {} == jobs.Keys;
    }

    /** Every retained job exactly once, oldest request first, sharing no step storage with the registry. */
    method List(now: int) returns (out: array<JobCopy>)
      requires Valid()
      modifies this
      ensures Valid() && Recs() == Swept(old(Recs()), now)
      ensures forall id :: id in jobs ==> id in old(jobs) && jobs[id] == old(jobs)[id]
      ensures forall id :: id in old(jobs) ==> (id in jobs <==> now - old(jobs)[id].order.requested <= JOB_RETENTION)
      ensures fresh(out) && Oldest(out[..]) && multiset(Ids(out[..])) == multiset(jobs.Keys)
      ensures forall i :: 0 <= i < out.Length ==>
              out[i].id in jobs && fresh(out[i].steps) && Shows(out[i], jobs[out[i].id])
    {
      SweepLocked(now);
      var acc := CloneAll();
      out := Sorted(acc);
      assert forall c :: c in acc ==> c.id in jobs && fresh(c.steps) && Shows(c, jobs[c.id]);
      forall i | 0 <= i < out.Length
        ensures out[i] in acc
      {
        assert out[..][i] in multiset(out[..]);
      }
    }
  }

  /** Something the runner or its executor may do to a job. */
  datatype Change = Begins | Moves(n: StepName, st: StepState) | TimesOut | Ends(verdict: JobState)

  /** One change, passed over when the job is not in a state for it. */
  method Apply(job: Job, c: Change)
    requires job.Valid()
    modifies job, job.steps
    ensures job.Valid() && job.steps == old(job.steps)
  {
    job.Present();
    match c {
      case Begins => if job.state == JobPending { job.Begin(); }
      case Moves(n, st) =>
        if Has(StepsFor(job.order), n) && Ordered(job.order, Set(PillsOf(job.steps[..]), n, st)) { job.SetStep(n, st); }
      case TimesOut => if job.state == JobRunning { job.TimeOut(); }
      case Ends(verdict) =>
        if job.state == JobRunning && Terminal(verdict) && NoneActive(job.steps[..]) { job.Finish(verdict); }
    }
  }

  method ApplyAll(job: Job, changes: seq<Change>)
    requires job.Valid()
    modifies job, job.steps
    ensures job.Valid() && job.steps == old(job.steps)
  {
    for k := 0 to |changes|
      invariant job.Valid() && job.steps == old(job.steps)
    {
      Apply(job, changes[k]);
    }
  }

  /** However much happens to a registered job afterwards, every copy `List` handed out stays as its job was then. */
  method CopiesSurvive(store: Store, id: string, changes: seq<Change>, now: int)
    returns (out: array<JobCopy>, ghost was: map<string, seq<JobStep>>)
    requires store.Valid() && id in store.jobs && store.jobs[id].Valid()
    modifies store, store.jobs[id], store.jobs[id].steps
    ensures was == old(map k | k in store.jobs :: store.jobs[k].steps[..])
    ensures forall i :: 0 <= i < out.Length ==> out[i].id in was && out[i].steps[..] == was[out[i].id]
  {
    was := map k | k in store.jobs :: store.jobs[k].steps[..];
    var job := store.jobs[id];
    out := store.List(now);
    assert forall i :: 0 <= i < out.Length ==> out[i].steps[..] == was[out[i].id];
    ApplyAll(job, changes);
  }
}
