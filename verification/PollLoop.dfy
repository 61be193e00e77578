/**
 `pollLoop` in cmd/pademelon/main.go: the select loop, the one-slot nudge channel and the re-poke timers, under every
 schedule of senders, ticker, timers and clock.
 */
module PollLoop {
  import opened Basics
  import opened Clocks

  /** What may happen next. A turn that cannot happen yet is passed over, so every schedule is a run. */
  datatype Turn =
    | Pass(d: nat)         // the clock moves
    | Send                 // someone asks for a poll (a non-blocking send)
    | Fire(i: nat)         // a re-poke timer whose time has come
    | Tick                 // the select takes the ticker
    | Take                 // the select takes the nudge
    | Decide               // the loop compares the clock with the end of the last poll
    | PollEnds

  datatype Pc = Selecting | Deciding | Polling

  /** `end` is the value `last` gets. */
  datatype Poll = Poll(start: int, end: int, over: bool, nudged: bool)

  /**
   `armed` are the times the re-poke timers are due; `unserved` counts the requests sent since the last poll
   started.
   */
  datatype State =
    State(now: int, last: int, pc: Pc, slot: bool, armed: seq<int>, unserved: nat, polls: seq<Poll>)

  function Boot(start: int): State {
    State(start, start, Polling, false, [], 0, [Poll(start, start, false, false)])
  }

  function StartPoll(s: State, nudged: bool): State {
    s.(pc := Polling, unserved := 0, polls := s.polls + [Poll(s.now, s.now, false, nudged)])
  }

  function EndPoll(s: State): State {
    if s.polls == [] then s
    else
      var k := |s.polls| - 1;
      s.(pc := Selecting, last := s.now, polls := s.polls[k := s.polls[k].(end := s.now, over := true)])
  }

  function Step(s: State, t: Turn): State {
    match t
    case Pass(d) => s.(now := s.now + d)
    case Send => s.(unserved := s.unserved + 1, slot := true)
    case Fire(k) =>
      if k < |s.armed| && s.armed[k] <= s.now then s.(armed := s.armed[..k] + s.armed[k + 1..], slot := true) else s
    case Tick => if s.pc.Selecting? then StartPoll(s, false) else s
    case Take => if s.pc.Selecting? && s.slot then s.(slot := false, pc := Deciding) else s
    case Decide =>
      if !s.pc.Deciding? then s
      else if s.now - s.last >= NUDGE_INTERVAL then StartPoll(s, true)
      else s.(pc := Selecting, armed := s.armed + [s.last + NUDGE_INTERVAL])
    case PollEnds => if s.pc.Polling? then EndPoll(s) else s
  }

  function Run(start: int, schedule: seq<Turn>): State {
    if schedule == [] then Boot(start)
    else Step(Run(start, schedule[..|schedule| - 1]), schedule[|schedule| - 1])
  }

  lemma RunOneMore(start: int, schedule: seq<Turn>, t: Turn)
    ensures Run(start, schedule + [t]) == Step(Run(start, schedule), t)
  {
    assert (schedule + [t])[..|schedule|] == schedule;
  }

  // ---- what holds of every run ----

  /** `b` may follow `a`: `a` has ended, and a nudged poll keeps a full interval's distance from that end. */
  predicate Follows(a: Poll, b: Poll) {
    a.over && a.end <= b.start && (b.nudged ==> b.start - a.end >= NUDGE_INTERVAL)
  }

  predicate Apart(polls: seq<Poll>) {
    forall i {:trigger polls[i]} :: 0 <= i < |polls| - 1 ==> Follows(polls[i], polls[i + 1])
  }

  /**
   A request no poll has started after is in the slot, in the loop's hand, or in a timer that is due no later than one
   interval after the last poll ended.
   */
  ghost predicate NothingLost(s: State) {
    && (s.unserved > 0 ==> s.slot || s.pc.Deciding? || s.armed != [])
    && forall k :: 0 <= k < |s.armed| ==> s.armed[k] <= s.last + NUDGE_INTERVAL
  }

  ghost predicate Inv(s: State) {
    && s.last <= s.now && NothingLost(s)
    && s.polls != [] && Apart(s.polls)
    && var p := s.polls[|s.polls| - 1];
       p.start <= s.now && (p.over <==> !s.pc.Polling?) && (p.over ==> p.end == s.last)
  }

  lemma StartKeepsInv(s: State, nudged: bool)
    requires Inv(s) && !s.pc.Polling? && (nudged ==> s.now - s.last >= NUDGE_INTERVAL)
    ensures Inv(StartPoll(s, nudged))
  {
  }

  lemma StepKeepsInv(s: State, t: Turn)
    requires Inv(s)
    ensures Inv(Step(s, t))
  {
    if (t.Tick? && s.pc.Selecting?) || (t.Decide? && s.pc.Deciding? && s.now - s.last >= NUDGE_INTERVAL) {
      StartKeepsInv(s, t.Decide?);
    } else if t.PollEnds? && s.pc.Polling? {
      var polls := Step(s, t).polls;
      assert forall i :: 0 <= i < |s.polls| - 1 ==> polls[i] == s.polls[i];
    }
  }

  lemma {:induction false} RunKeepsInv(start: int, schedule: seq<Turn>)
    ensures Inv(Run(start, schedule))
  {
    if schedule == [] {
    } else {
      RunKeepsInv(start, schedule[..|schedule| - 1]);
      StepKeepsInv(Run(start, schedule[..|schedule| - 1]), schedule[|schedule| - 1]);
    }
  }

  /** The loop waits in its select, with an empty slot and no timer due. */
  predicate AtRest(s: State) {
    s.pc.Selecting? && !s.slot && forall k :: 0 <= k < |s.armed| ==> s.armed[k] > s.now
  }

  /**
   After every step of every run no request is lost, and every nudged poll starts at least one interval after the poll
   before it ended. So once an interval has passed, a loop at rest with an empty slot and no due timer has served every
   request.
   */
  lemma NudgeNeverLost(start: int, schedule: seq<Turn>)
    ensures var s := Run(start, schedule);
            && NothingLost(s) && Apart(s.polls)
            && (AtRest(s) && s.now - s.last >= NUDGE_INTERVAL ==> s.unserved == 0)
  {
    RunKeepsInv(start, schedule);
    var s := Run(start, schedule);
    assert s.armed != [] ==> s.armed[0] <= s.last + NUDGE_INTERVAL;
  }

  // ---- every request is served ----

  /** The time up to which the clock may move with nothing else happening. `until` bounds a poll in progress. */
  function Limit(s: State, until: int): int {
    if s.pc.Polling? then Max(until, s.last + NUDGE_INTERVAL) else s.last + NUDGE_INTERVAL
  }

  /**
   A turn that does something: a step of the loop or of a timer that can really run, or some waiting up to the
   limit.
   */
  predicate Moves(s: State, t: Turn, until: int) {
    match t
    case Pass(d) => d > 0 && s.now + d <= Limit(s, until)
    case Send => false
    case Fire(k) => k < |s.armed| && s.armed[k] <= s.now
    case Tick => s.pc.Selecting?
    case Take => s.pc.Selecting? && s.slot
    case Decide => s.pc.Deciding?
    case PollEnds => s.pc.Polling?
  }

  /** While a request waits there is always something to do. */
  lemma SomethingMoves(s: State, until: int) returns (t: Turn)
    requires Inv(s) && s.unserved > 0
    ensures Moves(s, t, until)
  {
    if s.pc.Polling? {
      t := PollEnds;
    } else if s.pc.Deciding? {
      t := Decide;
    } else if s.slot {
      t := Take;
    } else if s.armed[0] <= s.now {
      t := Fire(0);
    } else {
      assert s.armed[0] <= s.last + NUDGE_INTERVAL;
      t := Pass(s.armed[0] - s.now);
    }
  }

  /** A scheduler that never idles while a request waits. */
  ghost predicate Diligent(choose: (nat, State) -> Turn, until: int) {
    forall i: nat, s {:trigger choose(i, s)} :: Inv(s) && s.unserved > 0 ==> Moves(s, choose(i, s), until)
  }

  function Drive(s: State, choose: (nat, State) -> Turn, i: nat, n: nat): State
    decreases n
  {
    if n == 0 then s else Drive(Step(s, choose(i, s)), choose, i + 1, n - 1)
  }

  /** How many timers are due. */
  function Due(armed: seq<int>, now: int): nat {
    if armed == [] then 0
    else Due(armed[..|armed| - 1], now) + if armed[|armed| - 1] <= now then 1 else 0
  }

  lemma {:induction false} FiringLeavesFewer(armed: seq<int>, now: int, k: nat)
    requires k < |armed| && armed[k] <= now
    ensures Due(armed[..k] + armed[k + 1..], now) == Due(armed, now) - 1
    decreases |armed|
  {
    var n := |armed| - 1;
    var rest := armed[..k] + armed[k + 1..];
    if k == n {
      assert rest == armed[..n];
    } else {
      assert rest[..|rest| - 1] == armed[..n][..k] + armed[..n][k + 1..] && rest[|rest| - 1] == armed[n];
      FiringLeavesFewer(armed[..n], now, k);
    }
  }

  lemma ArmingLaterAddsNone(armed: seq<int>, now: int, later: int)
    requires later > now
    ensures Due(armed + [later], now) == Due(armed, now)
  {
    assert (armed + [later])[..|armed|] == armed;
  }

  /** How much can still happen before a poll must start, compared from left to right. */
  datatype Rank = Rank(polling: nat, patience: nat, due: nat, hand: nat)

  function RankOf(s: State, until: int): Rank {
    Rank(if s.pc.Polling? then 1 else 0,
         if s.now < Limit(s, until) then Limit(s, until) - s.now else 0,
         Due(s.armed, s.now),
         (if s.slot then 2 else 0) + (if s.pc.Deciding? then 1 else 0))
  }

  predicate Below(x: Rank, y: Rank) {
    || x.polling < y.polling
    || (x.polling == y.polling
        && (|| x.patience < y.patience
            || (x.patience == y.patience && (x.due < y.due || (x.due == y.due && x.hand < y.hand)))))
  }

  /** When the waiting request's poll starts at the latest. */
  function Deadline(s: State, until: int): int {
    if s.pc.Polling? then Max(s.now, Limit(s, until)) + NUDGE_INTERVAL else Max(s.now, Limit(s, until))
  }

  /** Has the poll that serves every waiting request started? */
  predicate Serving(s: State, t: State) {
    t.unserved == 0 && t.pc.Polling? && |t.polls| == |s.polls| + 1 && t.polls[|s.polls|].start == t.now
  }

  /** The poll has started in time, or is closer and no later. */
  predicate Advances(s: State, u: State, until: int) {
    || (Serving(s, u) && u.now <= Deadline(s, until))
    || (u.unserved == s.unserved && |u.polls| == |s.polls| && Below(RankOf(u, until), RankOf(s, until))
        && Deadline(u, until) <= Deadline(s, until))
  }

  lemma FiringAdvances(s: State, k: nat, until: int)
    requires Inv(s) && s.unserved > 0 && Moves(s, Fire(k), until)
    ensures Advances(s, Step(s, Fire(k)), until)
  {
    FiringLeavesFewer(s.armed, s.now, k);
  }

  lemma DecidingAdvances(s: State, until: int)
    requires Inv(s) && s.unserved > 0 && Moves(s, Decide, until)
    ensures Advances(s, Step(s, Decide), until)
  {
    if s.now - s.last < NUDGE_INTERVAL { ArmingLaterAddsNone(s.armed, s.now, s.last + NUDGE_INTERVAL); }
  }

  lemma EveryMoveAdvances(s: State, t: Turn, until: int)
    requires Inv(s) && s.unserved > 0 && Moves(s, t, until)
    ensures Advances(s, Step(s, t), until)
  {
    if t.Fire? {
      FiringAdvances(s, t.i, until);
    } else if t.Decide? {
      DecidingAdvances(s, until);
    }
  }

  lemma {:induction false} ServedFrom(s: State, rank: Rank, choose: (nat, State) -> Turn, i: nat, until: int)
    returns (n: nat)
    requires Inv(s) && s.unserved > 0 && Diligent(choose, until) && rank == RankOf(s, until)
    ensures var t := Drive(s, choose, i, n); Serving(s, t) && t.now <= Deadline(s, until)
    decreases rank.polling, rank.patience, rank.due, rank.hand
  {
    var t := choose(i, s);
    var u := Step(s, t);
    EveryMoveAdvances(s, t, until);
    StepKeepsInv(s, t);
    if Serving(s, u) && u.now <= Deadline(s, until) {
      n := 1;
      assert Drive(s, choose, i, 1) == Drive(u, choose, i + 1, 0);
    } else {
      var rest := ServedFrom(u, RankOf(u, until), choose, i + 1, until);
      n := rest + 1;
    }
  }

  /**
   Every request is served: from any reachable state with a request waiting, whatever the loop, the ticker and the
   timers do next each time, as long as they do not idle and the poll in progress ends by `until`, finitely many turns
   start a poll, at the latest one interval after that.
   */
  lemma NudgeIsServed(start: int, schedule: seq<Turn>, choose: (nat, State) -> Turn, until: int) returns (n: nat)
    requires Run(start, schedule).unserved > 0 && Diligent(choose, until)
    ensures var s, t := Run(start, schedule), Drive(Run(start, schedule), choose, 0, n);
            && t.unserved == 0 && |t.polls| == |s.polls| + 1 && t.polls[|s.polls|].start == t.now
            && t.now <= Max(Max(s.now, until), s.last + NUDGE_INTERVAL) + NUDGE_INTERVAL
  {
    RunKeepsInv(start, schedule);
    var s := Run(start, schedule);
    n := ServedFrom(s, RankOf(s, until), choose, 0, until);
  }

  // ---- the loop ----

  /** The loop's variables, the nudge channel and the timers. The ghost part is the run the machine makes beside it. */
  class Poller {
    const start: int
    var now: int
    var last: int
    var slot: bool
    var armed: seq<int>
    ghost var pc: Pc
    ghost var unserved: nat
    ghost var polls: seq<Poll>
    ghost var turns: seq<Turn>

    ghost function View(): State
      reads this
    {
      State(now, last, pc, slot, armed, unserved, polls)
    }

    ghost predicate InStep()
      reads this
    {
      View() == Run(start, turns)
    }

    /** The first poll has just started. */
    constructor (start: int)
      ensures InStep() && turns == [] && pc.Polling?
    {
      this.start := start;
      now, last, slot, armed := start, start, false, [];
      pc, unserved, polls, turns := Polling, 0, [Poll(start, start, false, false)], [];
    }

    /** The machine takes the turn the real variables have just taken. */
    ghost method Follow(t: Turn, s: State)
      requires s == Run(start, turns)
      requires var u := Step(s, t); now == u.now && last == u.last && slot == u.slot && armed == u.armed
      modifies this`pc, this`unserved, this`polls, this`turns
      ensures InStep() && turns == old(turns) + [t] && View() == Step(s, t)
    {
      RunOneMore(start, turns, t);
      pc, unserved, polls, turns := Step(s, t).pc, Step(s, t).unserved, Step(s, t).polls, turns + [t];
    }

    /** What every happening outside the loop leaves alone. */
    twostate predicate Beside()
      reads this
    {
      && InStep() && old(turns) <= turns && pc == old(pc) && polls == old(polls) && last == old(last)
      && old(now) <= now && (old(slot) ==> slot)
    }

    method Wait(d: nat)
      requires InStep()
      modifies this
      ensures Beside()
    {
      ghost var s := View();
      now := now + d;
      Follow(Pass(d), s);
    }

    /** A non-blocking send: a full slot already stands for this request. */
    method Nudge()
      requires InStep()
      modifies this
      ensures Beside() && slot && unserved == old(unserved) + 1
    {
      ghost var s := View();
      slot := true;
      Follow(Send, s);
    }

    /** A timer whose time has come sends its nudge. */
    method Timer(k: nat)
      requires InStep() && k < |armed| && armed[k] <= now
      modifies this
      ensures Beside() && slot && armed == old(armed[..k] + armed[k + 1..]) && unserved == old(unserved)
    {
      ghost var s := View();
      armed, slot := armed[..k] + armed[k + 1..], true;
      Follow(Fire(k), s);
    }

    /** Time passes, requests come in and timers fire, in any order and number. */
    method Others()
      requires InStep()
      modifies this
      ensures Beside()
    {
      var happenings: nat :| true;
      for i := 0 to happenings
        invariant Beside()
      {
        var k: nat :| true;
        var what: nat :| true;
        if what == 0 {
          Wait(k);
        } else if what == 1 {
          Nudge();
        } else if k < |armed| && armed[k] <= now {
          Timer(k);
        }
      }
    }

    /** The last poll has ended, and nothing else has happened to the polls. */
    ghost predicate Finished(before: seq<Poll>, after: seq<Poll>, end: int) {
      before != [] && var k := |before| - 1; after == before[k := before[k].(end := end, over := true)]
    }

    /** The rest of a poll that has started, and the clock reading after it. */
    method FinishPoll()
      requires InStep() && pc.Polling?
      modifies this
      ensures InStep() && old(turns) <= turns && pc.Selecting? && last == now
      ensures Finished(old(polls), polls, now)
    {
      RunKeepsInv(start, turns);
      Others();
      ghost var s := View();
      RunKeepsInv(start, turns);
      last := now;
      Follow(PollEnds, s);
    }

    /** One more poll has run, nudged or not, and it started at `from` or later. */
    ghost predicate PolledSince(before: seq<Poll>, nudged: bool, from: int)
      reads this
    {
      |polls| == |before| + 1 && var p := polls[|before|]; p.nudged == nudged && p.over && p.start >= from
    }

    /** The nudge is put off until one interval after the last poll. */
    ghost predicate PutOff(before: seq<Poll>, end: int)
      reads this
    {
      polls == before && last == end && armed != [] && armed[|armed| - 1] == end + NUDGE_INTERVAL
    }

    /** Too soon after the last poll the nudge is put off, not dropped. */
    method Serve()
      requires InStep() && pc.Deciding?
      modifies this
      ensures InStep() && old(turns) <= turns && pc.Selecting?
      ensures if old(now) - old(last) >= NUDGE_INTERVAL then PolledSince(old(polls), true, old(now))
              else PutOff(old(polls), old(last)) && armed == old(armed) + [old(last) + NUDGE_INTERVAL]
    {
      ghost var s := View();
      var delay := NUDGE_INTERVAL - (now - last);
      if delay <= 0 {
        Follow(Decide, s);
        FinishPoll();
      } else {
        armed := armed + [now + delay];
        Follow(Decide, s);
      }
    }

    /**
     One round of the select. A tick starts a poll. Otherwise a waiting nudge starts one or, if it comes too soon after
     the last poll, is put off to one interval after it.
     */
    method Select() returns (ticked: bool)
      requires InStep() && pc.Selecting?
      modifies this
      ensures InStep() && old(turns) <= turns && pc.Selecting?
      ensures ticked ==> PolledSince(old(polls), false, old(now))
      ensures !ticked && old(slot) ==>
                || PolledSince(old(polls), true, Max(old(now), old(last) + NUDGE_INTERVAL))
                || PutOff(old(polls), old(last))
    {
      Others();
      ghost var s := View();
      ticked := *;
      if ticked {
        Follow(Tick, s);
        FinishPoll();
      } else if slot {
        slot := false;
        Follow(Take, s);
        Others();
        Serve();
      }
    }

    /**
     The loop up to any round. Its variables are always those of some run of the machine, so what holds of every run
     holds of the loop: nothing lost, and nudged polls an interval apart.
     */
    method Loop(rounds: nat)
      requires InStep() && pc.Polling?
      modifies this
      ensures InStep() && old(turns) <= turns && pc.Selecting?
      ensures NothingLost(View()) && Apart(polls)
    {
      FinishPoll();
      for i := 0 to rounds
        invariant InStep() && old(turns) <= turns && pc.Selecting?
      {
        var ticked := Select();
      }
      NudgeNeverLost(start, turns);
    }
  }
}
