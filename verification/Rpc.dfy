/**
 The JSON-RPC multiplexer of internal/truenas/truenas.go as a step machine.

 Any number of calls (`request`), reader loops (`readLoop`) and teardowns (`drop`) interleave.
 Each step is one critical section or one channel operation. The server is arbitrary: a reader may
 read any message at any time, so duplicate, late and unsolicited replies are all included.
 */
module Rpc {
  import opened Basics

  /** The two shapes a reply takes in section 5 of the JSON-RPC 2.0 Specification: a result or an error object. */
  datatype Body = Data(text: string) | Refused(text: string)

  /** What travels through a call's channel. `id` records which reply it is; the code itself sends only the body. */
  datatype Outcome = Reply(id: int, body: Body) | Failure(reason: string)

  /** What one read can return. A message without an id is a notification (section 4.1). */
  datatype Message = Undecodable | Notification | UnreadableId | Response(id: int, body: Body)

  /** What `connMu` and the channel hold for one id: is it in the pending map, and what sits in its one-slot channel. */
  datatype Line = Line(pending: bool, slot: seq<Outcome>)

  const FRESH := Line(true, [])

  function Forgotten(l: Line): Line {
    l.(pending := false)
  }

  function Filled(l: Line, o: Outcome): Line {
    l.(slot := l.slot + [o])
  }

  /** `failPendingLocked` seen from one id. */
  function Failed(l: Line, reason: string): Line {
    if l.pending then Filled(Forgotten(l), Failure(reason)) else l
  }

  /** What `request` returns. */
  datatype Verdict = Answer(o: Outcome) | WriteError | Expired

  /** Where one `request` stands. `Leaving` has its result but has not yet run the deferred `removePending`. */
  datatype Frame = Writing | Waiting | Leaving(v: Verdict) | Returned(v: Verdict)

  /** Who may still send on a call's channel. History only: no step consults it. */
  datatype Owner = Table | Hand(r: nat) | Channel | Spent

  /**
   `conn` is the connection the request is written to, named by its reader. `sends` counts channel sends. History only:
   no step consults either.
   */
  datatype Call = Call(conn: nat, line: Line, frame: Frame, sends: nat, owner: Owner)

  /** Where one `readLoop` stands. `Holding` is between taking the pending entry and sending on the channel. */
  datatype Reader = Reading | Holding(id: int, o: Outcome) | Dying(reason: string) | Gone

  datatype Sys = Sys(nextID: nat, calls: map<int, Call>, readers: map<nat, Reader>)

  /** `conn` in `Begin` is the connection the caller was given. */
  datatype Event =
    | Begin(conn: nat)
    | WriteOk(id: int)
    | WriteFails(id: int)
    | Receive(id: int)
    | Expire(id: int)
    | Return(id: int)
    | StartReader(r: nat)
    | Read(r: nat, m: Message)
    | Deliver(r: nat)
    | ReadFails(r: nat, reason: string)
    | FailPending(r: nat)
    | Drop(reason: string)

  const INIT := Sys(0, map[], map[])

  predicate At(s: Sys, id: int, f: Frame) {
    id in s.calls && s.calls[id].frame == f
  }

  /** A call that has not decided its result yet. */
  predicate Open(c: Call) {
    c.frame.Writing? || c.frame.Waiting?
  }

  predicate Holds(s: Sys, r: nat) {
    r in s.readers && s.readers[r].Holding?
  }

  predicate Pending(s: Sys, id: int) {
    id in s.calls && s.calls[id].line.pending
  }

  /**
   Can this step run now? A connection's reader starts before any request goes out on it. A channel send has no guard
   on the slot: `NoSendBlocks` shows it never waits.
   */
  predicate Enabled(s: Sys, e: Event) {
    match e
    case Begin(conn) => conn in s.readers
    case WriteOk(id) => At(s, id, Writing)
    case WriteFails(id) => At(s, id, Writing)
    case Receive(id) => At(s, id, Waiting) && s.calls[id].line.slot != []
    case Expire(id) => At(s, id, Waiting)
    case Return(id) => id in s.calls && s.calls[id].frame.Leaving?
    case StartReader(r) => r !in s.readers
    case Read(r, _) => r in s.readers && s.readers[r].Reading?
    case Deliver(r) => Holds(s, r) && s.readers[r].id in s.calls
    case ReadFails(r, _) => r in s.readers && s.readers[r].Reading?
    case FailPending(r) => r in s.readers && s.readers[r].Dying?
    case Drop(_) => true
  }

  function FailCall(c: Call, reason: string): Call {
    if c.line.pending then c.(line := Failed(c.line, reason), sends := c.sends + 1, owner := Channel) else c
  }

  /** `failPendingLocked`: every pending channel gets the reason, whatever connection the call went out on. */
  function FailEveryone(s: Sys, reason: string): Sys {
    s.(calls := map id | id in s.calls :: FailCall(s.calls[id], reason))
  }

  /** One message read by reader `r`. */
  function Dispatch(s: Sys, r: nat, m: Message): Sys {
    if m.Response? && Pending(s, m.id) then
      var c := s.calls[m.id];
      s.(calls := s.calls[m.id := c.(line := Forgotten(c.line), owner := Hand(r))],
         readers := s.readers[r := Holding(m.id, Reply(m.id, m.body))])
    else s
  }

  function Step(s: Sys, e: Event): Sys
    requires Enabled(s, e)
  {
    match e
    case Begin(conn) =>
      var id := s.nextID + 1;
      s.(nextID := id, calls := s.calls[id := Call(conn, FRESH, Writing, 0, Table)])
    case WriteOk(id) => s.(calls := s.calls[id := s.calls[id].(frame := Waiting)])
    case WriteFails(id) => s.(calls := s.calls[id := s.calls[id].(frame := Leaving(WriteError))])
    case Receive(id) =>
      var c := s.calls[id];
      s.(calls := s.calls[id := c.(line := c.line.(slot := c.line.slot[1..]),
                                   frame := Leaving(Answer(c.line.slot[0])), owner := Spent)])
    case Expire(id) => s.(calls := s.calls[id := s.calls[id].(frame := Leaving(Expired))])
    case Return(id) =>
      var c := s.calls[id];
      s.(calls := s.calls[id := c.(line := Forgotten(c.line), frame := Returned(c.frame.v),
                                   owner := if c.line.pending then Spent else c.owner)])
    case StartReader(r) => s.(readers := s.readers[r := Reading])
    case Read(r, m) => Dispatch(s, r, m)
    case Deliver(r) =>
      var h := s.readers[r];
      var c := s.calls[h.id];
      s.(calls := s.calls[h.id := c.(line := Filled(c.line, h.o), sends := c.sends + 1, owner := Channel)],
         readers := s.readers[r := Reading])
    case ReadFails(r, reason) => s.(readers := s.readers[r := Dying(reason)])
    case FailPending(r) => FailEveryone(s, s.readers[r].reason).(readers := s.readers[r := Gone])
    case Drop(reason) => FailEveryone(s, reason)
  }

  /** A step that cannot run yet is skipped. */
  function Next(s: Sys, e: Event): Sys {
    if Enabled(s, e) then Step(s, e) else s
  }

  /** Runs a schedule. Since events that cannot run are skipped, every schedule is a run. */
  function Run(s: Sys, es: seq<Event>): Sys
    decreases |es|
  {
    if es == [] then s else Run(Next(s, es[0]), es[1..])
  }

  // ---- the invariant: exactly one place owns the right to send on a call's channel ----

  /** The answer a call has decided on. */
  predicate Answers(c: Call, o: Outcome) {
    !Open(c) && c.frame.v == Answer(o)
  }

  predicate CallInv(s: Sys, id: int, c: Call) {
    && 1 <= id <= s.nextID
    && (c.line.pending <==> c.owner.Table?)
    && (c.frame.Returned? ==> !c.line.pending)
    && (!Open(c) && c.frame.v.Answer? ==> c.owner.Spent?)
    && match c.owner
       case Table => c.line.slot == [] && c.sends == 0
       case Hand(r) => c.line.slot == [] && c.sends == 0 && Holds(s, r) && s.readers[r].id == id
       case Channel => c.sends == 1 && |c.line.slot| == 1
       case Spent => c.sends <= 1 && c.line.slot == [] && !Open(c)
  }

  ghost predicate Inv(s: Sys) {
    && (forall id :: id in s.calls ==> CallInv(s, id, s.calls[id]))
    && (forall r :: Holds(s, r) ==> s.readers[r].id in s.calls && s.calls[s.readers[r].id].owner == Hand(r))
  }

  /** `failPendingLocked` hands each pending call its one outcome and touches no other call. */
  lemma FailEveryoneKeepsInv(s: Sys, reason: string)
    requires Inv(s)
    ensures Inv(FailEveryone(s, reason))
  {
    var t := FailEveryone(s, reason);
    forall id | id in t.calls
      ensures CallInv(t, id, t.calls[id])
    {
      assert CallInv(s, id, s.calls[id]);
    }
  }

  /** Steps of one `request`: they change that call only. */
  lemma CallStepKeepsInv(s: Sys, e: Event)
    requires Inv(s) && Enabled(s, e)
    requires e.WriteOk? || e.WriteFails? || e.Receive? || e.Expire? || e.Return?
    ensures Inv(Step(s, e))
  {
    var t := Step(s, e);
    forall id | id in t.calls
      ensures CallInv(t, id, t.calls[id])
    {
      assert CallInv(s, id, s.calls[id]);
    }
  }

  lemma BeginKeepsInv(s: Sys, conn: nat)
    requires Inv(s) && Enabled(s, Begin(conn))
    ensures Inv(Step(s, Begin(conn)))
  {
    var t := Step(s, Begin(conn));
    forall id | id in t.calls
      ensures CallInv(t, id, t.calls[id])
    {
      if id != t.nextID { assert CallInv(s, id, s.calls[id]); }
    }
  }

  /** Steps of one reader. */
  lemma ReaderStepKeepsInv(s: Sys, e: Event)
    requires Inv(s) && Enabled(s, e)
    requires e.StartReader? || e.Read? || e.Deliver? || e.ReadFails?
    ensures Inv(Step(s, e))
  {
    var t := Step(s, e);
    forall id | id in t.calls
      ensures CallInv(t, id, t.calls[id])
    {
      assert CallInv(s, id, s.calls[id]);
    }
  }

  lemma StepKeepsInv(s: Sys, e: Event)
    requires Inv(s) && Enabled(s, e)
    ensures Inv(Step(s, e))
  {
    match e
    case Begin(conn) => BeginKeepsInv(s, conn);
    case Drop(reason) => FailEveryoneKeepsInv(s, reason);
    case FailPending(r) => FailEveryoneKeepsInv(s, s.readers[r].reason);
    case StartReader(_) => ReaderStepKeepsInv(s, e);
    case Read(_, _) => ReaderStepKeepsInv(s, e);
    case Deliver(_) => ReaderStepKeepsInv(s, e);
    case ReadFails(_, _) => ReaderStepKeepsInv(s, e);
    case _ => CallStepKeepsInv(s, e);
  }

  lemma {:induction false} RunKeepsInv(s: Sys, es: seq<Event>)
    requires Inv(s)
    ensures Inv(Run(s, es))
    decreases |es|
  {
    if es == [] {
    } else {
      if Enabled(s, es[0]) { StepKeepsInv(s, es[0]); }
      RunKeepsInv(Next(s, es[0]), es[1..]);
    }
  }

  // ---- what holds of every run ----

  /**
   Each channel gets at most one send, and every send finds its slot empty, so neither a reader nor a teardown ever
   waits.
   */
  lemma NoSendBlocks(es: seq<Event>)
    ensures var s := Run(INIT, es);
            && (forall id :: id in s.calls ==> s.calls[id].sends <= 1)
            && (forall id :: id in s.calls && s.calls[id].line.pending ==> s.calls[id].line.slot == [])
            && (forall r :: Holds(s, r) ==> Enabled(s, Deliver(r)) && s.calls[s.readers[r].id].line.slot == [])
  {
    RunKeepsInv(INIT, es);
    var s := Run(INIT, es);
    assert forall id :: id in s.calls ==> CallInv(s, id, s.calls[id]);
  }

  // ---- where outcomes come from ----

  /** The outcome a step settles on call `id`: the step really runs, and runs while the id is pending. */
  function Settles(s: Sys, e: Event, id: int): Option<Outcome> {
    if !Enabled(s, e) || !Pending(s, id) then None
    else match e
         case Read(_, Response(k, body)) => if k == id then Some(Reply(id, body)) else None
         case Drop(why) => Some(Failure(why))
         case FailPending(r) => Some(Failure(s.readers[r].reason))
         case _ => None
  }

  /** Somewhere in the run a step settles `o` on call `id`. */
  ghost predicate Settled(s: Sys, es: seq<Event>, id: int, o: Outcome)
    decreases |es|
  {
    es != [] && (Settles(s, es[0], id) == Some(o) || Settled(Next(s, es[0]), es[1..], id, o))
  }

  /** Reader `r` is about to send `o` to call `id`. */
  predicate InHand(s: Sys, r: nat, id: int, o: Outcome) {
    Holds(s, r) && s.readers[r].id == id && s.readers[r].o == o
  }

  /** The outcome sits in the call's channel, in a reader's hand or in the call's verdict. */
  ghost predicate Has(s: Sys, id: int, o: Outcome) {
    && id in s.calls
    && (o in s.calls[id].line.slot || Answers(s.calls[id], o) || exists r :: InHand(s, r, id, o))
  }

  /** A step of one `request` moves its outcome along and neither makes nor loses one. */
  lemma CallStepMoves(s: Sys, e: Event, id: int, o: Outcome)
    requires Inv(s) && Enabled(s, e)
    requires e.WriteOk? || e.WriteFails? || e.Receive? || e.Expire? || e.Return? || e.Begin?
    ensures Has(Step(s, e), id, o) <==> Has(s, id, o)
  {
    var t := Step(s, e);
    assert forall r :: InHand(t, r, id, o) <==> InHand(s, r, id, o);
    assert id in s.calls ==> CallInv(s, id, s.calls[id]);
    if e.Begin? {
      assert forall r :: Holds(s, r) ==> CallInv(s, s.readers[r].id, s.calls[s.readers[r].id]);
    }
  }

  lemma TeardownSettles(s: Sys, e: Event, id: int, o: Outcome)
    requires Inv(s) && Enabled(s, e) && (e.Drop? || e.FailPending?)
    ensures Has(Step(s, e), id, o) <==> Has(s, id, o) || Settles(s, e, id) == Some(o)
  {
    var t := Step(s, e);
    assert forall r :: InHand(t, r, id, o) <==> InHand(s, r, id, o);
    assert id in s.calls ==> CallInv(s, id, s.calls[id]);
  }

  lemma ReaderStepSettles(s: Sys, e: Event, id: int, o: Outcome)
    requires Inv(s) && Enabled(s, e) && (e.StartReader? || e.Read? || e.Deliver? || e.ReadFails?)
    ensures Has(Step(s, e), id, o) <==> Has(s, id, o) || Settles(s, e, id) == Some(o)
  {
    var t := Step(s, e);
    assert forall r :: r != e.r ==> (InHand(t, r, id, o) <==> InHand(s, r, id, o));
    assert id in s.calls ==> CallInv(s, id, s.calls[id]);
    assert InHand(t, e.r, id, o) || !InHand(t, e.r, id, o);
    assert InHand(s, e.r, id, o) || !InHand(s, e.r, id, o);
  }

  /** One step: an outcome is there afterwards exactly if it was there before or the step settled it. */
  lemma StepSettles(s: Sys, e: Event, id: int, o: Outcome)
    requires Inv(s)
    ensures Has(Next(s, e), id, o) <==> Has(s, id, o) || Settles(s, e, id) == Some(o)
  {
    if !Enabled(s, e) {
    } else if e.Drop? || e.FailPending? {
      TeardownSettles(s, e, id, o);
    } else if e.StartReader? || e.Read? || e.Deliver? || e.ReadFails? {
      ReaderStepSettles(s, e, id, o);
    } else {
      CallStepMoves(s, e, id, o);
    }
  }

  lemma {:induction false} RunSettles(s: Sys, es: seq<Event>, id: int, o: Outcome)
    requires Inv(s)
    ensures Has(Run(s, es), id, o) <==> Has(s, id, o) || Settled(s, es, id, o)
    decreases |es|
  {
    if es == [] {
    } else {
      StepSettles(s, es[0], id, o);
      if Enabled(s, es[0]) { StepKeepsInv(s, es[0]); }
      RunSettles(Next(s, es[0]), es[1..], id, o);
    }
  }

  /**
   In every run a call has an outcome (in its channel, in a reader's hand or as its verdict) if and only if some step
   that ran while the call was pending was the read of a reply to its own id, a `drop`, or a dead reader's
   `failPending`, with exactly that outcome.
   */
  lemma OutcomesAreSettled(es: seq<Event>, id: int, o: Outcome)
    ensures Has(Run(INIT, es), id, o) <==> Settled(INIT, es, id, o)
  {
    RunSettles(INIT, es, id, o);
  }

  lemma HasOne(s: Sys, id: int, o: Outcome, p: Outcome)
    requires Inv(s) && Has(s, id, o) && Has(s, id, p)
    ensures o == p
  {
    assert CallInv(s, id, s.calls[id]);
    if r :| InHand(s, r, id, o) { assert s.calls[id].owner == Hand(r); }
    if r :| InHand(s, r, id, p) { assert s.calls[id].owner == Hand(r); }
  }

  /**
   A call never gets two outcomes, and one it has got is the only answer it can ever give, whatever runs afterwards.
   */
  lemma OneOutcome(es: seq<Event>, more: seq<Event>, id: int, o: Outcome, p: Outcome)
    requires Has(Run(INIT, es), id, o)
    ensures var t := Run(Run(INIT, es), more);
            Has(t, id, o) && (Has(t, id, p) ==> p == o)
  {
    RunKeepsInv(INIT, es);
    RunSettles(Run(INIT, es), more, id, o);
    RunKeepsInv(Run(INIT, es), more);
    var t := Run(Run(INIT, es), more);
    if Has(t, id, p) { HasOne(t, id, o, p); }
  }

  lemma {:induction false} SettledIsOwn(s: Sys, es: seq<Event>, id: int, o: Outcome)
    requires Settled(s, es, id, o)
    ensures o.Reply? ==> o.id == id
    decreases |es|
  {
    if Settles(s, es[0], id) == Some(o) {
    } else {
      SettledIsOwn(Next(s, es[0]), es[1..], id, o);
    }
  }

  /**
   A call answers with a reply to its own id that was read while it was pending, or with a reason some loss gave it
   then.
   */
  lemma AnswersAreOwn(es: seq<Event>, id: int, o: Outcome)
    requires var s := Run(INIT, es); id in s.calls && Answers(s.calls[id], o)
    ensures Settled(INIT, es, id, o) && (o.Reply? ==> o.id == id)
  {
    OutcomesAreSettled(es, id, o);
    SettledIsOwn(INIT, es, id, o);
  }

  // ---- failures and connections ----

  predicate Alive(s: Sys, r: nat) {
    r in s.readers && (s.readers[r].Reading? || s.readers[r].Holding?)
  }

  /** A `drop`, or the death of another connection's reader, runs while the call is pending. */
  predicate FailsFromOutside(s: Sys, e: Event, id: int) {
    && Enabled(s, e) && Pending(s, id)
    && (e.Drop? || (e.FailPending? && e.r != s.calls[id].conn))
  }

  ghost predicate FailedFromOutside(s: Sys, es: seq<Event>, id: int)
    decreases |es|
  {
    es != [] && (FailsFromOutside(s, es[0], id) || FailedFromOutside(Next(s, es[0]), es[1..], id))
  }

  /** A reader that died stays dead, and a call never changes its connection. */
  lemma {:induction false} DeathIsFinal(s: Sys, es: seq<Event>, r: nat, id: int)
    ensures r in s.readers && !Alive(s, r) ==> !Alive(Run(s, es), r)
    ensures id in s.calls && id <= s.nextID ==> id in Run(s, es).calls && Run(s, es).calls[id].conn == s.calls[id].conn
    decreases |es|
  {
    if es == [] {
    } else {
      DeathIsFinal(Next(s, es[0]), es[1..], r, id);
    }
  }

  lemma {:induction false} FailureIsFromOutside(s: Sys, es: seq<Event>, id: int)
    requires Inv(s)
    requires var t := Run(s, es); id in t.calls && Alive(t, t.calls[id].conn)
    ensures (exists why :: Settled(s, es, id, Failure(why))) <==> FailedFromOutside(s, es, id)
    decreases |es|
  {
    if es == [] {
    } else {
      var e, u := es[0], Next(s, es[0]);
      if Enabled(s, e) { StepKeepsInv(s, e); }
      FailureIsFromOutside(u, es[1..], id);
      if FailsFromOutside(s, e, id) {
        var why := Settles(s, e, id).value.reason;
        assert Settled(s, es, id, Failure(why));
      }
      if why :| Settled(u, es[1..], id, Failure(why)) { assert Settled(s, es, id, Failure(why)); }
      if why :| Settled(s, es, id, Failure(why)) {
        if Settles(s, e, id) == Some(Failure(why)) && !FailsFromOutside(s, e, id) {
          assert CallInv(s, id, s.calls[id]);
          DeathIsFinal(u, es[1..], e.r, id);
          assert false;
        }
      }
    }
  }

  /**
   A call whose own reader still lives fails if and only if a `drop`, or the death of another connection's reader, runs
   while the call is pending.
   */
  lemma FailsOnLiveConnectionIff(es: seq<Event>, id: int)
    requires var t := Run(INIT, es); id in t.calls && Alive(t, t.calls[id].conn)
    ensures (exists why :: Has(Run(INIT, es), id, Failure(why))) <==> FailedFromOutside(INIT, es, id)
  {
    forall why
      ensures Has(Run(INIT, es), id, Failure(why)) <==> Settled(INIT, es, id, Failure(why))
    {
      OutcomesAreSettled(es, id, Failure(why));
    }
    FailureIsFromOutside(INIT, es, id);
  }

  /** The pending map only ever names live `request` frames; once all have returned it is empty. */
  lemma PendingIsLive(es: seq<Event>)
    ensures var s := Run(INIT, es);
            && (forall id :: id in s.calls && s.calls[id].line.pending ==> !s.calls[id].frame.Returned?)
            && ((forall id :: id in s.calls ==> s.calls[id].frame.Returned?) ==>
                  forall id :: id in s.calls ==> !s.calls[id].line.pending)
  {
    RunKeepsInv(INIT, es);
    var s := Run(INIT, es);
    assert forall id :: id in s.calls ==> CallInv(s, id, s.calls[id]);
  }

  /** An outcome waits in the channel, or a reader is about to send it. */
  ghost predicate Answered(s: Sys, id: int) {
    id in s.calls && (s.calls[id].line.slot != [] || exists r :: Holds(s, r) && s.readers[r].id == id)
  }

  /** An id that left the pending map never comes back. */
  lemma {:induction false} NeverPendingAgain(s: Sys, es: seq<Event>, id: int)
    requires id in s.calls && 1 <= id <= s.nextID && !s.calls[id].line.pending
    ensures var t := Run(s, es); id in t.calls && !t.calls[id].line.pending
    decreases |es|
  {
    if es == [] {
    } else {
      NeverPendingAgain(Next(s, es[0]), es[1..], id);
    }
  }

  /**
   After a `drop` or a dead reader's `failPending`, and for ever after, each call registered before it
   that has not decided its result has an outcome in its channel or in a reader's hand.
   */
  lemma NoneLeftUnanswered(before: seq<Event>, e: Event, after: seq<Event>, id: int)
    requires e.Drop? || e.FailPending?
    requires Enabled(Run(INIT, before), e)
    requires id in Run(INIT, before).calls
    ensures var t := Run(Step(Run(INIT, before), e), after);
            && id in t.calls && !t.calls[id].line.pending
            && (Open(t.calls[id]) ==> Answered(t, id))
  {
    RunKeepsInv(INIT, before);
    var s := Step(Run(INIT, before), e);
    StepKeepsInv(Run(INIT, before), e);
    assert CallInv(s, id, s.calls[id]);
    NeverPendingAgain(s, after, id);
    RunKeepsInv(s, after);
    var t := Run(s, after);
    assert CallInv(t, id, t.calls[id]);
    if t.calls[id].owner.Hand? {
      assert Holds(t, t.calls[id].owner.r);
    }
  }

  /**
   In any reachable state an answered call that waits can finish with its answer: no timer and no message is needed.
   */
  lemma AnsweredCallFinishes(es: seq<Event>, id: int) returns (rest: seq<Event>)
    requires At(Run(INIT, es), id, Waiting) && Answered(Run(INIT, es), id)
    ensures |rest| <= 3
    ensures forall e :: e in rest ==> e.Deliver? || e == Receive(id) || e == Return(id)
    ensures var t := Run(Run(INIT, es), rest);
            id in t.calls && t.calls[id].frame.Returned? && t.calls[id].frame.v.Answer?
  {
    RunKeepsInv(INIT, es);
    var s := Run(INIT, es);
    assert CallInv(s, id, s.calls[id]);
    var tail := [Receive(id), Return(id)];
    if s.calls[id].line.slot != [] {
      rest := tail;
      FinishFromChannel(s, id);
    } else {
      var r :| Holds(s, r) && s.readers[r].id == id;
      rest := [Deliver(r)] + tail;
      assert rest[1..] == tail;
      FinishFromChannel(Step(s, Deliver(r)), id);
    }
  }

  /**
   Every call returns on its own: in any reachable state the timer ends a waiting call, a write error ends a writing
   one, and the deferred cleanup follows; no reader, no message and no other call has to move.
   */
  lemma EveryCallReturns(es: seq<Event>, id: int)
    ensures At(Run(INIT, es), id, Waiting) ==>
              var t := Run(INIT, es + [Expire(id)] + [Return(id)]);
              At(t, id, Returned(Verdict.Expired)) && !Pending(t, id)
    ensures At(Run(INIT, es), id, Writing) ==>
              var t := Run(INIT, es + [WriteFails(id)] + [Return(id)]);
              At(t, id, Returned(WriteError)) && !Pending(t, id)
    ensures var s := Run(INIT, es);
            id in s.calls && s.calls[id].frame.Leaving? ==>
              var t := Run(INIT, es + [Return(id)]);
              At(t, id, Returned(s.calls[id].frame.v)) && !Pending(t, id)
  {
    RunOneMore(INIT, es, Expire(id));
    RunOneMore(INIT, es + [Expire(id)], Return(id));
    RunOneMore(INIT, es, WriteFails(id));
    RunOneMore(INIT, es + [WriteFails(id)], Return(id));
    RunOneMore(INIT, es, Return(id));
  }

  /** A call on a living reader can complete: in any reachable state its reply takes it from begin to return. */
  lemma CallCompletes(es: seq<Event>, r: nat, body: Body) returns (id: int, all: seq<Event>)
    requires r in Run(INIT, es).readers && Run(INIT, es).readers[r].Reading?
    ensures id == Run(INIT, es).nextID + 1
    ensures all == es + [Begin(r)] + [WriteOk(id)] + [Read(r, Response(id, body))] + [Deliver(r)] + [Receive(id)]
                   + [Return(id)]
    ensures At(Run(INIT, all), id, Returned(Answer(Reply(id, body)))) && !Pending(Run(INIT, all), id)
  {
    var s;
    all, s := es, Run(INIT, es);
    id := s.nextID + 1;
    all, s := Further(all, s, Begin(r));
    all, s := Further(all, s, WriteOk(id));
    all, s := Further(all, s, Read(r, Response(id, body)));
    all, s := Further(all, s, Deliver(r));
    all, s := Further(all, s, Receive(id));
    all, s := Further(all, s, Return(id));
  }

  /** A `drop` ends every waiting call nobody has answered, with its reason. */
  lemma DropEndsWaitingCalls(es: seq<Event>, reason: string, id: int) returns (all: seq<Event>)
    requires At(Run(INIT, es), id, Waiting) && Pending(Run(INIT, es), id)
    ensures all == es + [Drop(reason)] + [Receive(id)] + [Return(id)]
    ensures At(Run(INIT, all), id, Returned(Answer(Failure(reason)))) && !Pending(Run(INIT, all), id)
  {
    RunKeepsInv(INIT, es);
    var s;
    all, s := es, Run(INIT, es);
    assert CallInv(s, id, s.calls[id]);
    all, s := Further(all, s, Drop(reason));
    all, s := Further(all, s, Receive(id));
    all, s := Further(all, s, Return(id));
  }

  lemma Further(es: seq<Event>, s: Sys, e: Event) returns (more: seq<Event>, t: Sys)
    requires s == Run(INIT, es) && Enabled(s, e)
    ensures more == es + [e] && t == Step(s, e) == Run(INIT, more)
  {
    more, t := es + [e], Step(s, e);
    RunOneMore(INIT, es, e);
  }

  lemma FinishFromChannel(s: Sys, id: int)
    requires At(s, id, Waiting) && s.calls[id].line.slot != []
    ensures var t := Run(s, [Receive(id), Return(id)]);
            id in t.calls && t.calls[id].frame == Returned(Answer(s.calls[id].line.slot[0]))
  {
    var es := [Receive(id), Return(id)];
    assert es[1..] == [Return(id)];
    var s1 := Step(s, Receive(id));
    assert Enabled(s1, Return(id));
    assert [Return(id)][1..] == [];
    assert Run(s1, [Return(id)]) == Step(s1, Return(id));
  }

  /** Any dying reader fails every pending call, whatever connection the call went out on. */
  lemma AnyReaderFailsEveryCall(es: seq<Event>, r: nat, id: int)
    requires var s := Run(INIT, es); Enabled(s, FailPending(r)) && At(s, id, Waiting) && Pending(s, id)
    ensures var s := Run(INIT, es);
            var t := Step(s, FailPending(r));
            Enabled(t, Receive(id)) && At(Step(t, Receive(id)), id, Leaving(Answer(Failure(s.readers[r].reason))))
  {
    RunKeepsInv(INIT, es);
    var s := Run(INIT, es);
    assert CallInv(s, id, s.calls[id]);
  }

  /** One more event of a run. */
  lemma {:induction false} RunOneMore(s: Sys, es: seq<Event>, e: Event)
    ensures Run(s, es + [e]) == Next(Run(s, es), e)
    decreases |es|
  {
    if es == [] {
      assert es + [e] == [e] && [e][1..] == [];
    } else {
      assert (es + [e])[1..] == es[1..] + [e];
      RunOneMore(Next(s, es[0]), es[1..], e);
    }
  }

  /**
   So a call can fail although its own connection is healthy: here the reader of connection 0 dies late and fails call
   1, which went out on connection 1, whose reader lives.
   */
  lemma OldReaderFailsNewCall() returns (es: seq<Event>)
    ensures Enabled(Run(INIT, es), FailPending(0))
    ensures var t := Step(Run(INIT, es), FailPending(0));
            && 1 in t.calls && t.calls[1].conn == 1 && Alive(t, 1)
            && Enabled(t, Receive(1)) && At(Step(t, Receive(1)), 1, Leaving(Answer(Failure("lost"))))
  {
    var script := [StartReader(0), StartReader(1), Begin(1), WriteOk(1), ReadFails(0, "lost")];
    es := [];
    var s := INIT;
    for i := 0 to |script|
      invariant es == script[..i] && s == Run(INIT, es)
      invariant i > 0 ==>
                  s.readers == if i == 1 then map[0 := Reading]
                               else if i < 5 then map[0 := Reading, 1 := Reading]
                               else map[0 := Dying("lost"), 1 := Reading]
      invariant s.nextID == if i < 3 then 0 else 1
      invariant i >= 3 ==>
                  Pending(s, 1) && s.calls[1].conn == 1 && s.calls[1].frame == if i == 3 then Writing else Waiting
      invariant i == 0 ==> s == INIT
    {
      RunOneMore(INIT, es, script[i]);
      es := es + [script[i]];
      s := Next(s, script[i]);
    }
    AnyReaderFailsEveryCall(es, 0, 1);
  }
}
