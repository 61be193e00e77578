/**
 The frozen-guest marks of internal/actions/actions.go over every run: when the sweep forces a thaw, and when the marks
 cover every guest that is really frozen.
 */
module FreezeSweep {
  import opened Clocks
  import opened FreezeBook

  const B := FREEZE_HOLD_BOUND

  // ---- timing: a thaw and the clearing of its mark count as one step here ----

  /**
   `frozen` is the truth in the guests. `tried` records, for the mark now held, the times of its forced thaws. The
   ticker fires at `nextTick` and every `B` after.
   */
  datatype Sweep =
    Sweep(now: int, nextTick: int, frozen: set<string>, marks: map<string, int>, tried: map<string, seq<int>>)

  datatype Event =
    | Wait(d: nat)
    | Freeze(domain: string)                 // a freeze that succeeded, and its mark
    | ThawAndClear(domain: string)           // a job's own thaw that succeeded
    | Tick(thaws: set<string>)               // one sweep pass; `thaws` are the guests whose forced thaw succeeds

  predicate Enabled(s: Sweep, e: Event) {
    match e
    case Wait(d) => s.now + d <= s.nextTick
    case Tick(_) => s.now == s.nextTick
    case _ => true
  }

  function Step(s: Sweep, e: Event): Sweep
    requires Enabled(s, e)
  {
    match e
    case Wait(d) => s.(now := s.now + d)
    case Freeze(domain) =>
      s.(frozen := s.frozen + {domain}, marks := s.marks[domain := s.now], tried := s.tried[domain := []])
    case ThawAndClear(domain) =>
      s.(frozen := s.frozen - {domain}, marks := s.marks - {domain}, tried := s.tried - {domain})
    case Tick(thaws) =>
      var kept := map d | d in s.marks && !(Overdue(s.marks, d, s.now) && d in thaws) :: s.marks[d];
      var tried := map d | d in kept :: (if d in s.tried then s.tried[d] else [])
          + if Overdue(s.marks, d, s.now) then [s.now] else [];
      s.(nextTick := s.nextTick + B, frozen := s.frozen * kept.Keys, marks := kept, tried := tried)
  }

  function Run(s: Sweep, es: seq<Event>): Sweep
    decreases |es|
  {
    if es == [] then s
    else Run(if Enabled(s, es[0]) then Step(s, es[0]) else s, es[1..])
  }

  /**
   The forced thaws of a mark made at `since`: the first in its second period, then one at every tick up to `last`.
   */
  predicate EveryTickSince(tries: seq<int>, since: int, last: int) {
    if tries == [] then last - since <= B
    else
      && tries[0] - since <= 2 * B && (forall i :: 0 <= i < |tries| ==> tries[i] - since > B)
      && tries[|tries| - 1] == last
      && forall i :: 0 < i < |tries| ==> tries[i] == tries[i - 1] + B
  }

  ghost predicate Inv(s: Sweep) {
    && s.nextTick - B <= s.now <= s.nextTick
    && s.tried.Keys == s.marks.Keys == s.frozen
    && forall d :: d in s.marks ==> s.marks[d] <= s.now && EveryTickSince(s.tried[d], s.marks[d], s.nextTick - B)
  }

  lemma NextTick(tries: seq<int>, since: int, tick: int)
    requires since <= tick && EveryTickSince(tries, since, tick - B)
    ensures EveryTickSince(tries + if tick - since > B then [tick] else [], since, tick)
  {
  }

  lemma TickKeepsMark(s: Sweep, thaws: set<string>, d: string)
    requires Inv(s) && s.now == s.nextTick && d in Step(s, Tick(thaws)).marks
    ensures var t := Step(s, Tick(thaws));
            d in t.tried && t.marks[d] == s.marks[d] <= t.now && EveryTickSince(t.tried[d], t.marks[d], t.nextTick - B)
  {
    var t := Step(s, Tick(thaws));
    assert t.tried[d] == s.tried[d] + if s.now - s.marks[d] > B then [s.now] else [];
    NextTick(s.tried[d], s.marks[d], s.now);
  }

  lemma TickKeepsInv(s: Sweep, thaws: set<string>)
    requires Inv(s) && s.now == s.nextTick
    ensures Inv(Step(s, Tick(thaws)))
  {
    var t := Step(s, Tick(thaws));
    assert t.tried.Keys == t.marks.Keys == t.frozen;
    forall d | d in t.marks
      ensures t.marks[d] <= t.now && EveryTickSince(t.tried[d], t.marks[d], t.nextTick - B)
    {
      TickKeepsMark(s, thaws, d);
    }
  }

  lemma StepKeepsInv(s: Sweep, e: Event)
    requires Inv(s) && Enabled(s, e)
    ensures Inv(Step(s, e))
  {
    if e.Tick? { TickKeepsInv(s, e.thaws); }
  }

  lemma {:induction false} RunKeepsInv(s: Sweep, es: seq<Event>)
    requires Inv(s)
    ensures Inv(Run(s, es))
    decreases |es|
  {
    if es == [] {
    } else {
      if Enabled(s, es[0]) { StepKeepsInv(s, es[0]); }
      RunKeepsInv(if Enabled(s, es[0]) then Step(s, es[0]) else s, es[1..]);
    }
  }

  /** Before anything has happened. */
  function Boot(start: int): Sweep {
    Sweep(start, start + B, {}, map[], map[])
  }

  /**
   In every run, the marked guests are exactly the frozen ones, and a guest still frozen more than two bounds after its
   freeze has been force-thawed: first at an age of more than one bound and at most two, and at every tick since.
   */
  lemma FrozenGuestsAreForced(start: int, es: seq<Event>, d: string)
    ensures var s := Run(Boot(start), es);
            && (d in s.frozen <==> d in s.marks)
            && (d in s.frozen ==>
                  && d in s.tried && EveryTickSince(s.tried[d], s.marks[d], s.nextTick - B)
                  && (s.now - s.marks[d] > 2 * B ==> s.tried[d] != []))
  {
    RunKeepsInv(Boot(start), es);
  }

  /** A freeze stands, with the time it was made, until a thaw; and a thaw until the next freeze. */
  lemma {:induction false} StandsUntil(s: Sweep, es: seq<Event>, d: string)
    requires forall i :: 0 <= i < |es| ==> es[i] != Freeze(d)
    ensures d !in s.frozen ==> d !in Run(s, es).frozen
    ensures d in s.marks && d in s.frozen
            && (forall i :: 0 <= i < |es| ==> es[i] != ThawAndClear(d) && !(es[i].Tick? && d in es[i].thaws)) ==>
              d in Run(s, es).frozen && d in Run(s, es).marks && Run(s, es).marks[d] == s.marks[d]
    decreases |es|
  {
    if es == [] {
    } else {
      var t := if Enabled(s, es[0]) then Step(s, es[0]) else s;
      assert forall i :: 0 <= i < |es| - 1 ==> es[1..][i] == es[i + 1];
      StandsUntil(t, es[1..], d);
    }
  }

  lemma FreezesAndThawsStand(start: int, es: seq<Event>, d: string, later: seq<Event>)
    requires forall i :: 0 <= i < |later| ==> later[i] != Freeze(d)
    ensures var s := Run(Boot(start), es);
            && d !in Run(Step(s, ThawAndClear(d)), later).frozen
            && ((forall i :: 0 <= i < |later| ==>
                   later[i] != ThawAndClear(d) && !(later[i].Tick? && d in later[i].thaws)) ==>
                d in Run(Step(s, Freeze(d)), later).frozen && d in Run(Step(s, Freeze(d)), later).marks
                && Run(Step(s, Freeze(d)), later).marks[d] == s.now)
  {
    var s := Run(Boot(start), es);
    StandsUntil(Step(s, ThawAndClear(d)), later, d);
    StandsUntil(Step(s, Freeze(d)), later, d);
  }

  /** Waiting until the next tick is due and taking it; a forced thaw of `d` would work. */
  function TickOn(s: Sweep, d: string): Sweep
    requires s.now <= s.nextTick
  {
    Step(Step(s, Wait(s.nextTick - s.now)), Tick({d}))
  }

  lemma TickComes(s: Sweep, d: string)
    requires Inv(s)
    ensures var t := TickOn(s, d);
            && Inv(t) && t.now == s.nextTick == t.nextTick - B
            && t.frozen == s.frozen - (if Overdue(s.marks, d, s.nextTick) then {d} else {})
            && (d in t.marks ==> d in s.marks && t.marks[d] == s.marks[d])
  {
    StepKeepsInv(s, Wait(s.nextTick - s.now));
    StepKeepsInv(Step(s, Wait(s.nextTick - s.now)), Tick({d}));
  }

  lemma ThreeTicksThaw(s: Sweep, d: string)
    requires Inv(s)
    ensures TickOn(s, d).now <= TickOn(s, d).nextTick
    ensures TickOn(TickOn(s, d), d).now <= TickOn(TickOn(s, d), d).nextTick
    ensures TickOn(TickOn(TickOn(s, d), d), d).frozen == s.frozen - {d}
  {
    TickComes(s, d);
    TickComes(TickOn(s, d), d);
    TickComes(TickOn(TickOn(s, d), d), d);
  }

  /** In any reachable state a guest that would answer is not frozen three ticks later, and no other is touched. */
  lemma FrozenGuestsAreThawed(start: int, es: seq<Event>, d: string)
    ensures var s := Run(Boot(start), es);
            && s.now <= s.nextTick && TickOn(s, d).now <= TickOn(s, d).nextTick
            && TickOn(TickOn(s, d), d).now <= TickOn(TickOn(s, d), d).nextTick
            && TickOn(TickOn(TickOn(s, d), d), d).frozen == s.frozen - {d}
  {
    RunKeepsInv(Boot(start), es);
    ThreeTicksThaw(Run(Boot(start), es), d);
  }

  // ---- several jobs and the sweep, with every call and its bookkeeping as the separate steps they are ----

  /**
   `frozen` is the truth in the guests. `marking` and `clearing` are goroutines, of jobs or of the sweep, between a
   freeze and its mark or between a thaw and its clear. `marks` and `tried` are as above.
   */
  datatype Truth = Truth(
    now: int,
    nextTick: int,
    frozen: set<string>,
    marks: map<string, int>,
    tried: map<string, seq<int>>,
    marking: multiset<string>,
    clearing: multiset<string>)

  /** At `Ticks` the sweep tries every overdue guest; those in `thaws` are thawed, their clears are still to come. */
  datatype Move =
    | Lapse(time: nat)
    | FreezeOK(d: string)
    | MarkIt(d: string)
    | ThawOK(d: string)
    | ClearIt(d: string)
    | Ticks(thaws: set<string>)

  predicate CanMove(s: Truth, m: Move) {
    match m
    case Lapse(time) => s.now + time <= s.nextTick
    case FreezeOK(_) => true
    case MarkIt(d) => d in s.marking
    case ThawOK(_) => true
    case ClearIt(d) => d in s.clearing
    case Ticks(_) => s.now == s.nextTick
  }

  function Tried(s: Truth, d: string): seq<int> {
    if d in s.tried then s.tried[d] else []
  }

  function Moved(s: Truth, m: Move): Truth {
    if !CanMove(s, m) then s
    else match m
         case Lapse(time) => s.(now := s.now + time)
         case FreezeOK(d) => s.(frozen := s.frozen + {d}, marking := s.marking + multiset{d})
         case MarkIt(d) =>
           s.(marks := s.marks[d := s.now], tried := s.tried[d := []], marking := s.marking - multiset{d})
         case ThawOK(d) => s.(frozen := s.frozen - {d}, clearing := s.clearing + multiset{d})
         case ClearIt(d) => s.(marks := s.marks - {d}, clearing := s.clearing - multiset{d})
         case Ticks(thaws) =>
           var done := set d | d in s.marks && Overdue(s.marks, d, s.now) && d in thaws;
           var tried := map d | d in s.marks :: Tried(s, d) + if Overdue(s.marks, d, s.now) then [s.now] else [];
           s.(nextTick := s.nextTick + B, frozen := s.frozen - done,
              clearing := s.clearing + multiset(done), tried := tried)
  }

  function MovedAll(s: Truth, ms: seq<Move>): Truth
    decreases |ms|
  {
    if ms == [] then s else MovedAll(Moved(s, ms[0]), ms[1..])
  }

  function Quiet(start: int): Truth {
    Truth(start, start + B, {}, map[], map[], multiset{}, multiset{})
  }

  /** The sweep will find every frozen guest: it is marked, or about to be. */
  ghost predicate Covered(s: Truth) {
    forall d :: d in s.frozen ==> d in s.marks || d in s.marking
  }

  /** Every mark that stands has had its forced thaws on time, whatever became of the guest meanwhile. */
  ghost predicate Forced(s: Truth) {
    && s.nextTick - B <= s.now <= s.nextTick
    && forall d :: d in s.marks ==>
         s.marks[d] <= s.now && EveryTickSince(Tried(s, d), s.marks[d], s.nextTick - B)
  }

  lemma MarkStaysForced(s: Truth, m: Move, d: string)
    requires Forced(s) && CanMove(s, m) && d in Moved(s, m).marks
    ensures var t := Moved(s, m); t.marks[d] <= t.now && EveryTickSince(Tried(t, d), t.marks[d], t.nextTick - B)
  {
    if m.Ticks? {
      NextTick(Tried(s, d), s.marks[d], s.now);
    }
  }

  lemma MovesKeepForced(s: Truth, m: Move)
    requires Forced(s)
    ensures Forced(Moved(s, m))
  {
    if CanMove(s, m) {
      forall d | d in Moved(s, m).marks
        ensures var t := Moved(s, m);
                t.marks[d] <= t.now && EveryTickSince(Tried(t, d), t.marks[d], t.nextTick - B)
      {
        MarkStaysForced(s, m, d);
      }
    }
  }

  lemma {:induction false} RunKeepsForced(s: Truth, ms: seq<Move>)
    requires Forced(s)
    ensures Forced(MovedAll(s, ms))
    decreases |ms|
  {
    if ms == [] {
    } else {
      MovesKeepForced(s, ms[0]);
      RunKeepsForced(Moved(s, ms[0]), ms[1..]);
    }
  }

  /** A clear that comes after someone else froze and marked the same guest again. */
  predicate LateClear(s: Truth, m: Move) {
    m.ClearIt? && CanMove(s, m) && m.d in s.frozen && m.d !in s.marking
  }

  ghost predicate AlwaysCovered(s: Truth, ms: seq<Move>)
    decreases |ms|
  {
    Covered(s) && (ms != [] ==> AlwaysCovered(Moved(s, ms[0]), ms[1..]))
  }

  ghost predicate NoLateClear(s: Truth, ms: seq<Move>)
    decreases |ms|
  {
    ms != [] ==> !LateClear(s, ms[0]) && NoLateClear(Moved(s, ms[0]), ms[1..])
  }

  lemma MoveUncovers(s: Truth, m: Move)
    requires Covered(s)
    ensures Covered(Moved(s, m)) <==> !LateClear(s, m)
  {
    if LateClear(s, m) {
      var t := Moved(s, m);
      assert m.d in t.frozen && m.d !in t.marks && m.d !in t.marking;
    }
  }

  /** The marks cover the frozen guests at every instant of a run if and only if the run has no late clear. */
  lemma {:induction false} CoveredUnlessClearedLate(s: Truth, ms: seq<Move>)
    requires Covered(s)
    ensures AlwaysCovered(s, ms) <==> NoLateClear(s, ms)
    decreases |ms|
  {
    if ms == [] {
    } else {
      MoveUncovers(s, ms[0]);
      if Covered(Moved(s, ms[0])) {
        CoveredUnlessClearedLate(Moved(s, ms[0]), ms[1..]);
      }
    }
  }

  lemma {:induction false} EndIsCovered(s: Truth, ms: seq<Move>)
    requires AlwaysCovered(s, ms)
    ensures Covered(MovedAll(s, ms))
    decreases |ms|
  {
    if ms == [] {
    } else {
      EndIsCovered(Moved(s, ms[0]), ms[1..]);
    }
  }

  /**
   Any number of jobs, their freezes, marks, thaws and clears in any interleaving with the sweep's own: every mark has
   been forced on time; and in a run without a late clear every frozen guest is about to be marked or has such a mark,
   so one marked more than two bounds ago has been forced.
   */
  lemma FrozenGuestsAreFoundAndForced(start: int, ms: seq<Move>, d: string)
    ensures var s := MovedAll(Quiet(start), ms);
            && (d in s.marks ==> EveryTickSince(Tried(s, d), s.marks[d], s.nextTick - B))
            && (NoLateClear(Quiet(start), ms) && d in s.frozen ==>
                  d in s.marking
                  || (d in s.marks && (s.now - s.marks[d] > 2 * B ==> Tried(s, d) != [])))
  {
    RunKeepsForced(Quiet(start), ms);
    CoveredUnlessClearedLate(Quiet(start), ms);
    if NoLateClear(Quiet(start), ms) { EndIsCovered(Quiet(start), ms); }
  }

  /** Waiting until the next tick is due and taking it; a forced thaw of `d` works. */
  function TicksOn(s: Truth, d: string): Truth
    requires s.now <= s.nextTick
  {
    Moved(Moved(s, Lapse(s.nextTick - s.now)), Ticks({d}))
  }

  lemma TicksThaw(s: Truth, d: string)
    requires s.now == s.nextTick
    ensures var t := Moved(s, Ticks({d}));
            && t.now == s.now && t.nextTick == s.nextTick + B && t.marks == s.marks
            && t.frozen == s.frozen - (if Overdue(s.marks, d, s.now) then {d} else {})
  {
    assert (set k | k in s.marks && Overdue(s.marks, k, s.now) && k in {d})
        == if Overdue(s.marks, d, s.now) then {d} else {};
  }

  lemma TicksCome(s: Truth, d: string)
    requires Forced(s)
    ensures var t := TicksOn(s, d);
            && Forced(t) && t.now == s.nextTick == t.nextTick - B && t.marks == s.marks
            && t.frozen == s.frozen - (if Overdue(s.marks, d, s.nextTick) then {d} else {})
  {
    var w := Moved(s, Lapse(s.nextTick - s.now));
    MovesKeepForced(s, Lapse(s.nextTick - s.now));
    MovesKeepForced(w, Ticks({d}));
    TicksThaw(w, d);
    assert w == s.(now := s.nextTick);
  }

  /** With calls and bookkeeping apart, too: a marked guest that would answer is not frozen three ticks later. */
  lemma MarkedGuestsAreThawed(start: int, ms: seq<Move>, d: string)
    requires d in MovedAll(Quiet(start), ms).marks
    ensures var s := MovedAll(Quiet(start), ms);
            && s.now <= s.nextTick && TicksOn(s, d).now <= TicksOn(s, d).nextTick
            && TicksOn(TicksOn(s, d), d).now <= TicksOn(TicksOn(s, d), d).nextTick
            && TicksOn(TicksOn(TicksOn(s, d), d), d).frozen == s.frozen - {d}
  {
    RunKeepsForced(Quiet(start), ms);
    var s := MovedAll(Quiet(start), ms);
    TicksCome(s, d);
    TicksCome(TicksOn(s, d), d);
    TicksCome(TicksOn(TicksOn(s, d), d), d);
  }

  lemma OneMove(s: Truth, m: Move, ms: seq<Move>)
    requires CanMove(s, m)
    ensures AlwaysCovered(s, [m] + ms) <==> Covered(s) && AlwaysCovered(Moved(s, m), ms)
  {
    assert ([m] + ms)[1..] == ms;
  }

  /**
   It happens: a thaw whose clear is outstanding, a second job that freezes and marks the guest, and only then the
   clear. The guest stays frozen and the sweep never hears of it.
   */
  lemma LateClearUncovers(start: int, d: string)
    ensures !AlwaysCovered(Quiet(start), [FreezeOK(d), MarkIt(d), ThawOK(d), FreezeOK(d), MarkIt(d), ClearIt(d)])
  {
    var s := Quiet(start);
    var s1 := Moved(s, FreezeOK(d));
    var s2 := Moved(s1, MarkIt(d));
    var s3 := Moved(s2, ThawOK(d));
    var s4 := Moved(s3, FreezeOK(d));
    var s5 := Moved(s4, MarkIt(d));
    var s6 := Moved(s5, ClearIt(d));
    assert d in s6.frozen && d !in s6.marks && d !in s6.marking;
    OneMove(s5, ClearIt(d), []);
    OneMove(s4, MarkIt(d), [ClearIt(d)]);
    OneMove(s3, FreezeOK(d), [MarkIt(d), ClearIt(d)]);
    OneMove(s2, ThawOK(d), [FreezeOK(d), MarkIt(d), ClearIt(d)]);
    OneMove(s1, MarkIt(d), [ThawOK(d), FreezeOK(d), MarkIt(d), ClearIt(d)]);
    OneMove(s, FreezeOK(d), [MarkIt(d), ThawOK(d), FreezeOK(d), MarkIt(d), ClearIt(d)]);
    assert [ClearIt(d)] + [] == [ClearIt(d)] && [MarkIt(d)] + [ClearIt(d)] == [MarkIt(d), ClearIt(d)];
    assert [FreezeOK(d)] + [MarkIt(d), ClearIt(d)] == [FreezeOK(d), MarkIt(d), ClearIt(d)];
    assert [ThawOK(d)] + [FreezeOK(d), MarkIt(d), ClearIt(d)] == [ThawOK(d), FreezeOK(d), MarkIt(d), ClearIt(d)];
    assert [MarkIt(d)] + [ThawOK(d), FreezeOK(d), MarkIt(d), ClearIt(d)]
        == [MarkIt(d), ThawOK(d), FreezeOK(d), MarkIt(d), ClearIt(d)];
    assert [FreezeOK(d)] + [MarkIt(d), ThawOK(d), FreezeOK(d), MarkIt(d), ClearIt(d)]
        == [FreezeOK(d), MarkIt(d), ThawOK(d), FreezeOK(d), MarkIt(d), ClearIt(d)];
  }
}
