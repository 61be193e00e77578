/**
 Progress of the snapshot service: its fetches never deadlock, and left to themselves they finish in finitely many
 steps, whoever goes first each time and whatever the middleware answers.
 */
module SnapshotProgress {
  import opened Basics
  import opened SnapshotMerge
  import opened SnapshotService

  /** A fetch exists, or a sweep is on. */
  predicate Busy(s: Svc) {
    s.fetches != map[] || s.sweeping
  }

  /** A step of a fetch or of the sweep, as against the callers' steps. */
  predicate FetchSide(e: Event) {
    !FromCaller(e) && !e.RefreshAll?
  }

  /** As long as a fetch exists or a sweep is on, some fetch or the sweep can take a step, whatever the callers do. */
  lemma FetchesNeverDeadlock(s: Svc) returns (e: Event)
    requires Inv(s) && Busy(s)
    ensures Enabled(s, e) && FetchSide(e)
  {
    if s.slot.Some? {
      var f := s.slot.value;
      match s.fetches[f].pc
      case Holding => e := Admit(f, false, [], false, "");
      case Asking =>
        InOrderIsNewestFirst(AllRows(s.fetches[f].answers));
        e := Finish(f, InOrder(AllRows(s.fetches[f].answers)), 0);
      case InCall => e := Hear(f, Rows([]));
      case Leaving => e := Unlock(f);
    } else if s.fetches != map[] {
      var f := SomeMember(s.fetches.Keys);
      assert s.fetches[f].pc.Waiting?;
      e := Lock(f);
    } else {
      assert s.current == None;
      var f: nat := 0;
      e := if s.queue == [] then SweepEnd else SweepNext(f);
    }
  }

  /** Asking about one dataset after the other and hearing `answers`. */
  function Hearing(f: nat, answers: seq<Answer>): seq<Event> {
    if answers == [] then [] else [Ask(f), Hear(f, answers[0])] + Hearing(f, answers[1..])
  }

  function Heard(s: Svc, f: nat, answers: seq<Answer>): Svc
    requires f in s.fetches
  {
    s.(fetches := s.fetches[f := s.fetches[f].(answers := s.fetches[f].answers + answers)])
  }

  lemma HeardTwice(s: Svc, f: nat, a: seq<Answer>, b: seq<Answer>)
    requires f in s.fetches
    ensures Heard(Heard(s, f, a), f, b) == Heard(s, f, a + b) && Heard(s, f, []) == s
  {
    var before := s.fetches[f].answers;
    assert before + a + b == before + (a + b) && before + [] == before;
  }

  lemma OneQuestion(s: Svc, f: nat, a: Answer, rest: seq<Event>)
    requires At(s, f, Asking) && s.fetches[f].connected && (a.Refused? ==> a.why != "")
    requires |s.fetches[f].answers| < |s.fetches[f].datasets|
    ensures Run(s, [Ask(f), Hear(f, a)] + rest) == Run(Heard(s, f, [a]), rest)
  {
    var es := [Ask(f), Hear(f, a)] + rest;
    assert es[0] == Ask(f) && es[1..] == [Hear(f, a)] + rest && ([Hear(f, a)] + rest)[1..] == rest;
    assert Step(Step(s, Ask(f)), Hear(f, a)) == Heard(s, f, [a]);
  }

  /** A fetch can ask about every dataset of its VM, whatever it hears, and keeps all it has heard. */
  lemma {:induction false} FetchHearsAll(s: Svc, f: nat, answers: seq<Answer>)
    requires At(s, f, Asking) && s.fetches[f].connected && Honest(answers)
    requires |s.fetches[f].answers| + |answers| <= |s.fetches[f].datasets|
    ensures Run(s, Hearing(f, answers)) == Heard(s, f, answers)
    decreases |answers|
  {
    if answers == [] {
      HeardTwice(s, f, [], []);
    } else {
      OneQuestion(s, f, answers[0], Hearing(f, answers[1..]));
      FetchHearsAll(Heard(s, f, [answers[0]]), f, answers[1..]);
      HeardTwice(s, f, [answers[0]], answers[1..]);
      assert [answers[0]] + answers[1..] == answers;
    }
  }

  /** How far the fetch in the slot has come, and how much of its query loop is left. */
  function Stage(s: Svc): nat {
    if s.slot.None? || s.slot.value !in s.fetches then 5 else StageOf(s.fetches[s.slot.value])
  }

  function StageOf(x: Fetch): nat {
    match x.pc
    case Waiting => 5
    case Holding => 4
    case Asking => 3
    case InCall => 3
    case Leaving => 1
  }

  function Left(s: Svc): nat {
    if s.slot.None? || s.slot.value !in s.fetches then 0 else LeftOf(s.fetches[s.slot.value])
  }

  function LeftOf(x: Fetch): nat {
    var r := if |x.answers| < |x.datasets| then |x.datasets| - |x.answers| else 0;
    if x.pc.Asking? then 2 * r + 1 else if x.pc.InCall? then 2 * r else 0
  }

  /** How much work is left, as numbers compared from left to right. */
  datatype Rank = Rank(sweeping: nat, queue: nat, fetches: nat, stage: nat, left: nat)

  function RankOf(s: Svc): Rank {
    Rank(if s.sweeping then 1 else 0, |s.queue|, |s.fetches|, Stage(s), Left(s))
  }

  predicate Below(x: Rank, y: Rank) {
    || x.sweeping < y.sweeping
    || (x.sweeping == y.sweeping
        && (|| x.queue < y.queue
            || (x.queue == y.queue
                && (|| x.fetches < y.fetches
                    || (x.fetches == y.fetches && (x.stage < y.stage || (x.stage == y.stage && x.left < y.left)))))))
  }

  /** `t` is closer to the end of all fetches than `s`. */
  predicate Closer(t: Svc, s: Svc) {
    Below(RankOf(t), RankOf(s))
  }

  lemma SameSize(m: map<nat, Fetch>, f: nat, x: Fetch)
    requires f in m
    ensures |m[f := x]| == |m| && |m - {f}| == |m| - 1
  {
    assert m[f := x].Keys == m.Keys && (m - {f}).Keys == m.Keys - {f};
    assert |m| == |m.Keys| && |m[f := x]| == |m[f := x].Keys| && |m - {f}| == |(m - {f}).Keys|;
  }

  /** What the steps of one fetch do to it. */
  lemma FetchMovesOn(s: Svc, e: Event)
    requires Enabled(s, e) && (e.Lock? || e.Admit? || e.Ask? || e.Hear? || e.Finish?) && SoundFetch(s.fetches[e.f])
    ensures var t, x := Step(s, e), s.fetches[e.f];
            && e.f in t.fetches && t.fetches == s.fetches[e.f := t.fetches[e.f]]
            && t.slot == (if e.Lock? then Some(e.f) else s.slot) && t.queue == s.queue && t.sweeping == s.sweeping
            && (StageOf(t.fetches[e.f]) < StageOf(x)
                || (StageOf(t.fetches[e.f]) == StageOf(x) && LeftOf(t.fetches[e.f]) < LeftOf(x)))
  {
  }

  lemma SlotStepsGetCloser(s: Svc, e: Event)
    requires OneSlot(s) && Enabled(s, e) && (e.Lock? || e.Admit? || e.Ask? || e.Hear? || e.Finish?)
             && SoundFetch(s.fetches[e.f])
    ensures Closer(Step(s, e), s)
  {
    FetchMovesOn(s, e);
    SameSize(s.fetches, e.f, Step(s, e).fetches[e.f]);
  }

  /**
   Every step of a fetch or of the sweep gets closer, whatever the middleware answers and however many disks a VM
   has.
   */
  lemma FetchStepsGetCloser(s: Svc, e: Event)
    requires OneSlot(s) && Enabled(s, e) && FetchSide(e)
    requires forall f :: f in s.fetches ==> SoundFetch(s.fetches[f])
    ensures Closer(Step(s, e), s)
  {
    if e.Unlock? {
      SameSize(s.fetches, e.f, s.fetches[e.f]);
    } else if !e.SweepNext? && !e.SweepEnd? {
      SlotStepsGetCloser(s, e);
    }
  }

  ghost predicate Reachable(s: Svc) {
    exists es :: s == Run(INIT, es)
  }

  lemma {:induction false} RunOneMore(s: Svc, es: seq<Event>, e: Event)
    ensures var t := Run(s, es); Run(s, es + [e]) == if Enabled(t, e) then Step(t, e) else t
    decreases |es|
  {
    if es == [] {
      assert es + [e] == [e] && [e][1..] == [];
    } else {
      assert (es + [e])[1..] == es[1..] + [e];
      RunOneMore(if Enabled(s, es[0]) then Step(s, es[0]) else s, es[1..], e);
    }
  }

  /**
   A scheduler that never idles while there is work. It may change its mind over time and owes no fetch any favour.
   */
  ghost predicate Diligent(choose: (nat, Svc) -> Event) {
    forall i: nat, s {:trigger choose(i, s)} ::
      Reachable(s) && Busy(s) ==> Enabled(s, choose(i, s)) && FetchSide(choose(i, s))
  }

  ghost function Advance(s: Svc, choose: (nat, Svc) -> Event, i: nat): Svc {
    if Enabled(s, choose(i, s)) then Step(s, choose(i, s)) else s
  }

  ghost function Drive(s: Svc, choose: (nat, Svc) -> Event, i: nat, n: nat): Svc
    decreases n
  {
    if n == 0 then s else Drive(Advance(s, choose, i), choose, i + 1, n - 1)
  }

  lemma DiligentStep(s: Svc, choose: (nat, Svc) -> Event, i: nat)
    requires Reachable(s) && Busy(s) && Diligent(choose)
    ensures Reachable(Advance(s, choose, i)) && Closer(Advance(s, choose, i), s)
  {
    var e := choose(i, s);
    var es :| s == Run(INIT, es);
    RunKeepsInv(INIT, es);
    RunOneMore(INIT, es, e);
    FetchStepsGetCloser(s, e);
  }

  /** No fetch and no sweep is left, and no domain is marked. */
  ghost predicate Quiet(s: Svc) {
    !Busy(s) && forall d :: d in s.states ==> !s.states[d].fetching
  }

  lemma RestIsUnmarked(s: Svc)
    requires Reachable(s) && !Busy(s)
    ensures Quiet(s)
  {
    var es :| s == Run(INIT, es);
    RunKeepsInv(INIT, es);
    assert forall d :: d in s.states && s.states[d].fetching ==> Coming(s, d);
  }

  /** One step of the argument: a busy state's successor is reachable and ranks lower. */
  lemma RankFalls(s: Svc, choose: (nat, Svc) -> Event, i: nat) returns (t: Svc, lower: Rank)
    requires Reachable(s) && Busy(s) && Diligent(choose)
    ensures Reachable(t) && lower == RankOf(t) && Below(lower, RankOf(s))
    ensures forall n: nat {:trigger Drive(t, choose, i + 1, n)} ::
              Drive(s, choose, i, n + 1) == Drive(t, choose, i + 1, n)
  {
    DiligentStep(s, choose, i);
    t := Advance(s, choose, i);
    lower := RankOf(t);
  }

  lemma {:induction false} ClearsBelow(s: Svc, rank: Rank, choose: (nat, Svc) -> Event, i: nat) returns (n: nat)
    requires Reachable(s) && Diligent(choose) && rank == RankOf(s)
    ensures Quiet(Drive(s, choose, i, n))
    decreases rank.sweeping, rank.queue, rank.fetches, rank.stage, rank.left
  {
    if !Busy(s) {
      n := 0;
      RestIsUnmarked(s);
    } else {
      var t, lower := RankFalls(s, choose, i);
      var rest := ClearsBelow(t, lower, choose, i + 1);
      n := rest + 1;
    }
  }

  /**
   Every mark is cleared in the end: from any reachable state, whichever fetch or sweep step is taken next each time and
   whatever the middleware answers, finitely many steps leave no fetch and no domain marked, and the next sweep can run.
   */
  lemma EveryFlagClears(s: Svc, choose: (nat, Svc) -> Event, i: nat) returns (n: nat)
    requires Reachable(s) && Diligent(choose)
    ensures var t := Drive(s, choose, i, n);
            t.fetches == map[] && !t.sweeping && forall d :: d in t.states ==> !t.states[d].fetching
  {
    n := ClearsBelow(s, RankOf(s), choose, i);
  }
}
