/**
 The job registry with a clock. A runner's timer gives its job a verdict within the job's bound, and retention counts
 from the same request: which configurations keep the two apart?
 */
module Retention {
  import opened Basics
  import opened Clocks
  import opened Executors
  import opened Jobs
  import R = Registry

  /** `due` is when a job has its verdict at the latest. */
  datatype Timed = Timed(reg: R.Reg, now: int, due: map<string, int>)

  /** `Do` is a step of a runner or an executor. */
  datatype Event = Launch(id: string, o: Order) | Do(e: R.Event) | SweepNow | Pass(d: nat)

  function Boot(start: int): Timed {
    Timed(R.EMPTY, start, map[])
  }

  predicate Unfinished(s: R.Reg, id: string) {
    id in s.all && !Terminal(s.all[id].state)
  }

  /**
   The timer is the only promise about time: the clock does not pass a job's due time while the job has no verdict.
   `slack` is what scheduling may add to the bound.
   */
  ghost predicate Enabled(s: Timed, e: Event) {
    match e
    case Launch(id, _) => id !in s.reg.all
    case Do(e) => !e.Submit? && !e.Sweep? && R.Enabled(s.reg, e)
    case SweepNow => true
    case Pass(d) => forall id :: Unfinished(s.reg, id) && id in s.due ==> s.now + d <= s.due[id]
  }

  /** What the event is to the registry; waiting is nothing to it. */
  function Asks(s: Timed, e: Event): seq<R.Event> {
    match e
    case Launch(id, o) => [R.Submit(id, o.domain, o.action, s.now, s.now)]
    case Do(e) => [e]
    case SweepNow => [R.Sweep(s.now)]
    case Pass(_) => []
  }

  ghost function Step(s: Timed, e: Event, c: Config, slack: nat): Timed
    requires Enabled(s, e)
  {
    match e
    case Launch(id, o) =>
      Timed(R.Run(s.reg, Asks(s, e)), s.now, s.due[id := s.now + Bound(c, o) + slack])
    case Pass(d) => s.(now := s.now + d)
    case _ => s.(reg := R.Run(s.reg, Asks(s, e)))
  }

  ghost function Next(s: Timed, e: Event, c: Config, slack: nat): Timed {
    if Enabled(s, e) then Step(s, e, c, slack) else s
  }

  ghost function Run(s: Timed, es: seq<Event>, c: Config, slack: nat): Timed
    decreases |es|
  {
    if es == [] then s else Run(Next(s, es[0], c, slack), es[1..], c, slack)
  }

  /** The registry's own events in a timed run. */
  ghost function Requests(s: Timed, es: seq<Event>, c: Config, slack: nat): seq<R.Event>
    decreases |es|
  {
    if es == [] then []
    else (if Enabled(s, es[0]) then Asks(s, es[0]) else []) + Requests(Next(s, es[0], c, slack), es[1..], c, slack)
  }

  // ---- the bounds ----

  /** The largest bound a runner can have. */
  function MaxBound(c: Config): int {
    Max(Max(c.timeout, c.snapshotTimeout), c.rebootTimeout + MINUTE)
  }

  /** Every verdict comes before retention can run out. */
  predicate Fits(c: Config, slack: nat) {
    MaxBound(c) + slack <= JOB_RETENTION
  }

  lemma BoundIsAtMost(c: Config, o: Order)
    ensures Bound(c, o) <= MaxBound(c)
  {
  }

  /** Some job really has the largest bound. */
  lemma MaxBoundIsReached(c: Config) returns (o: Order)
    ensures Bound(c, o) == MaxBound(c)
  {
    var action :=
      if MaxBound(c) == c.timeout then Action.Start
      else if MaxBound(c) == c.snapshotTimeout then Snapshot
      else Reboot;
    o := Order("", action, 0, "", OtherMode, false, false);
  }

  /** The shipped bounds leave fifty-six minutes. */
  lemma ShippedBoundsFit(slack: nat)
    requires slack <= 56 * MINUTE
    ensures Fits(WithDefaults(Config(0, 0, 0, 0, 0)), slack)
  {
  }

  // ---- fitting bounds are enough ----

  /** Every unfinished job is still within its due time, which is within retention. */
  ghost predicate Inv(s: Timed) {
    && R.Inv(s.reg) && R.UnfinishedIsHeld(s.reg)
    && forall id :: Unfinished(s.reg, id) ==>
         id in s.due && s.now <= s.due[id] <= s.reg.all[id].requested + JOB_RETENTION
  }

  lemma OneRequest(s: R.Reg, e: R.Event)
    ensures R.Run(s, [e]) == R.Next(s, e)
  {
    assert [e][1..] == [];
  }

  lemma RegistryKeepsInv(s: R.Reg, e: R.Event)
    requires R.Inv(s) && R.UnfinishedIsHeld(s) && R.InTime(s, e)
    ensures R.Inv(R.Next(s, e)) && R.UnfinishedIsHeld(R.Next(s, e))
  {
    if R.Enabled(s, e) {
      R.StepKeepsTasks(s, e);
      R.StepKeepsSingleFlight(s, e);
      R.InTimeKeepsHeld(s, e);
    }
  }

  /** What is unfinished after a registry step was so before, with the same request time, or was just submitted. */
  lemma UnfinishedBefore(s: R.Reg, e: R.Event, id: string)
    requires R.TasksInv(s) && Unfinished(R.Next(s, e), id)
    ensures (Unfinished(s, id) && R.Next(s, e).all[id].requested == s.all[id].requested)
            || (e.Submit? && e.id == id && R.Enabled(s, e) && R.Next(s, e).all[id].requested == e.requested)
  {
    if id in s.all && R.Enabled(s, e) { R.StepIsLegal(s, e, id); }
  }

  lemma StepKeepsInv(s: Timed, e: Event, c: Config, slack: nat)
    requires Inv(s) && Enabled(s, e) && Fits(c, slack) && Sound(c)
    ensures Inv(Step(s, e, c, slack))
    ensures !e.Pass? ==> R.InTime(s.reg, Asks(s, e)[0])
  {
    if !e.Pass? {
      var t, ask := Step(s, e, c, slack), Asks(s, e)[0];
      OneRequest(s.reg, ask);
      RegistryKeepsInv(s.reg, ask);
      forall id | Unfinished(t.reg, id)
        ensures id in t.due && t.now <= t.due[id] <= t.reg.all[id].requested + JOB_RETENTION
      {
        UnfinishedBefore(s.reg, ask, id);
        if e.Launch? { BoundIsAtMost(c, e.o); }
      }
    }
  }

  lemma JoinInTime(s: R.Reg, es: seq<R.Event>, more: seq<R.Event>)
    requires |es| <= 1 && (es != [] ==> R.InTime(s, es[0])) && R.AlwaysInTime(R.Run(s, es), more)
    ensures R.AlwaysInTime(s, es + more)
  {
    if es == [] {
      assert es + more == more;
    } else {
      assert es == [es[0]] && (es + more)[1..] == more;
      OneRequest(s, es[0]);
    }
  }

  lemma {:induction false} RunIsInTime(s: Timed, es: seq<Event>, c: Config, slack: nat)
    requires Inv(s) && Fits(c, slack) && Sound(c)
    ensures R.AlwaysInTime(s.reg, Requests(s, es, c, slack))
    decreases |es|
  {
    if es == [] {
    } else if Enabled(s, es[0]) {
      StepKeepsInv(s, es[0], c, slack);
      RunIsInTime(Next(s, es[0], c, slack), es[1..], c, slack);
      JoinInTime(s.reg, Asks(s, es[0]), Requests(Next(s, es[0], c, slack), es[1..], c, slack));
    } else {
      RunIsInTime(s, es[1..], c, slack);
      assert Requests(s, es, c, slack) == Requests(s, es[1..], c, slack);
    }
  }

  /**
   When the largest bound and the slack fit into retention, no run ever has two unfinished jobs of one domain and
   action, held or not.
   */
  lemma FittingBoundsKeepOne(start: int, es: seq<Event>, c: Config, slack: nat)
    requires Fits(c, slack) && Sound(c)
    ensures R.AlwaysOnePerKey(R.EMPTY, Requests(Boot(start), es, c, slack))
  {
    var asked := Requests(Boot(start), es, c, slack);
    RunIsInTime(Boot(start), es, c, slack);
    R.InTimeIsNeverLate(R.EMPTY, asked);
    R.OneUnfinishedIff(asked);
  }

  // ---- and needed ----

  /** When they do not fit, two submits of the job with the largest bound give two unfinished jobs. */
  lemma LongBoundsAllowTwo(start: int, c: Config, slack: nat) returns (es: seq<Event>)
    requires !Fits(c, slack)
    ensures !R.AlwaysOnePerKey(R.EMPTY, Requests(Boot(start), es, c, slack))
  {
    var o := MaxBoundIsReached(c);
    var late := JOB_RETENTION + 1;
    es := [Launch("a", o), Pass(late), Launch("b", o)];
    assert es[1..] == [Pass(late), Launch("b", o)] && es[1..][1..] == [Launch("b", o)] && es[1..][1..][1..] == [];
    var s0 := Boot(start);
    var e1 := R.Submit("a", o.domain, o.action, start, start);
    var e2 := R.Submit("b", o.domain, o.action, start + late, start + late);
    OneRequest(R.EMPTY, e1);
    var s1 := Step(s0, es[0], c, slack);
    assert s1.reg == R.Step(R.EMPTY, e1);
    assert s1.reg.all == map["a" := R.Rec(o.domain, o.action, JobPending, start)] && s1.reg.held == {"a"};
    assert Enabled(s1, Pass(late));
    var s2 := Step(s1, Pass(late), c, slack);
    assert s2.reg == s1.reg && Enabled(s2, Launch("b", o));
    assert Requests(s2, [Launch("b", o)], c, slack) == [e2];
    assert Requests(s1, [Pass(late), Launch("b", o)], c, slack) == [e2];
    assert Requests(s0, es, c, slack) == [e1] + [e2] == [e1, e2];
    TwoLateSubmits(e1, e2);
  }

  /** Two submits of one key, the second when the first is past retention. */
  lemma TwoLateSubmits(e1: R.Event, e2: R.Event)
    requires e1.Submit? && e2.Submit? && e1.id != e2.id && e1.domain == e2.domain && e1.action == e2.action
    requires e2.now - e1.requested > JOB_RETENTION
    ensures !R.AlwaysOnePerKey(R.EMPTY, [e1, e2])
  {
    var s1 := R.Step(R.EMPTY, e1);
    assert s1.all == map[e1.id := R.Rec(e1.domain, e1.action, JobPending, e1.requested)];
    assert e1.id in s1.all && R.InFlight(s1.all[e1.id], e2.domain, e2.action) && R.TooOld(s1.all[e1.id], e2.now);
    assert R.LateSubmit(s1, e2);
    assert [e1, e2][1..] == [e2] && [e2][1..] == [];
    assert !R.NoLateSubmit(s1, [e2]);
    R.OneUnfinishedIff([e1, e2]);
  }

  /**
   The condition a configurer can check: every run keeps to one unfinished job per domain and action if and only if the
   largest runner bound plus the scheduling slack is at most the retention time.
   */
  lemma OneUnfinishedIffBoundsFit(start: int, c: Config, slack: nat)
    requires Sound(c)
    ensures (forall es :: R.AlwaysOnePerKey(R.EMPTY, Requests(Boot(start), es, c, slack))) <==> Fits(c, slack)
  {
    if Fits(c, slack) {
      forall es
        ensures R.AlwaysOnePerKey(R.EMPTY, Requests(Boot(start), es, c, slack))
      {
        FittingBoundsKeepOne(start, es, c, slack);
      }
    } else {
      var es := LongBoundsAllowTwo(start, c, slack);
    }
  }

  /** Time never has to stop for a verdict: whatever an unfinished job's position, its runner can move on its own. */
  lemma RunnersCanMove(s: Timed, id: string) returns (e: R.Event)
    requires R.Inv(s.reg) && Unfinished(s.reg, id)
    ensures Enabled(s, Do(e)) && e in [R.Begin(id), R.TakeTimer(id), R.Write(id)]
  {
    var pos := s.reg.tasks[id].pos;
    e := if pos.Spawned? then R.Begin(id) else if pos.Selecting? then R.TakeTimer(id) else R.Write(id);
  }
}
