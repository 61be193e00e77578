/** The shared fields of `Client` in internal/truenas/truenas.go and the critical sections that change them. */
module RpcClient {
  import opened Basics
  import opened Rpc

  /** A Go channel with one slot. A send on a full slot would block, so `Send` demands an empty one. */
  class Chan {
    var slot: seq<Outcome>

    constructor ()
      ensures slot == []
    {
      slot := [];
    }

    method Send(o: Outcome)
      requires slot == []
      modifies this
      ensures slot == [o]
    {
      slot := [o];
    }
  }

  /** What the machine in `Rpc` says a teardown does to every id. */
  ghost function FailLines(lines: map<int, Line>, reason: string): map<int, Line> {
    map id | id in lines :: Failed(lines[id], reason)
  }

  class Client {
    var nextID: nat
    var pending: map<int, Chan>
    /** The connection and the cancel function of its reader, both named by the reader. */
    var conn: Option<nat>
    var readerCancel: Option<nat>
    var connected: bool
    var version: string
    var error: string
    /** When the reported state last changed. */
    var since: int
    /** Every channel ever made, whether or not it is still pending. */
    ghost var made: map<int, Chan>

    ghost predicate Valid()
      reads this`pending, this`made, this`nextID, made.Values
    {
      && (forall id :: id in pending ==> id in made && pending[id] == made[id] && made[id].slot == [])
      && (forall i, j :: i in made && j in made && i != j ==> made[i] != made[j])
      && (forall id :: id in made ==> 1 <= id <= nextID)
    }

    /** The view the step machine has of this object. */
    ghost function Lines(): map<int, Line>
      reads this`pending, this`made, made.Values
    {
      map id | id in made :: Line(id in pending, made[id].slot)
    }

    constructor ()
      ensures Valid() && Lines() == map[] && nextID == 0
    {
      nextID, pending, made := 0, map[], map[];
      conn, readerCancel := None, None;
      connected, version, error, since := false, "", "", 0;
    }

    /** The first critical section of `request`. */
    method Register() returns (id: int, wait: Chan)
      requires Valid()
      modifies this
      ensures Valid() && id == nextID == old(nextID) + 1
      ensures fresh(wait) && made == old(made)[id := wait]
      ensures Lines() == old(Lines())[id := FRESH]
    {
      nextID := nextID + 1;
      id := nextID;
      wait := new Chan();
      pending := pending[id := wait];
      made := made[id := wait];
    }

    /** The deferred cleanup of `request`. */
    method RemovePending(id: int)
      requires Valid()
      modifies this`pending
      ensures Valid()
      ensures Lines() == if id in old(Lines()) then old(Lines())[id := Forgotten(old(Lines())[id])] else old(Lines())
    {
      pending := pending - {id};
    }

    /** The critical section of `readLoop`: look the id up and take it out. */
    method Claim(id: int) returns (wait: Chan?)
      requires Valid()
      modifies this`pending
      ensures Valid()
      ensures wait != null <==> id in old(Lines()) && old(Lines())[id].pending
      ensures wait != null ==> wait == made[id] && wait.slot == []
      ensures Lines() == if wait != null then old(Lines())[id := Forgotten(old(Lines())[id])] else old(Lines())
    {
      wait := null;
      if id in pending {
        wait := pending[id];
        pending := pending - {id};
      }
    }

    /** `readLoop` sends outside the lock, on a channel it has taken out of the map. */
    method Deliver(id: int, wait: Chan, o: Outcome)
      requires Valid() && id in made && made[id] == wait && id !in pending && wait.slot == []
      modifies wait
      ensures Valid()
      ensures Lines() == old(Lines())[id := Filled(old(Lines())[id], o)]
    {
      wait.Send(o);
      assert Filled(old(Lines())[id], o) == Line(false, [o]);
      forall i | i in made
        ensures Lines()[i] == if i == id then Filled(old(Lines())[id], o) else old(Lines())[i]
      {
      }
    }

    /** Hands every waiting call the reason, in whatever order the map is walked. */
    method FailPendingLocked(reason: string)
      requires Valid()
      modifies this`pending, pending.Values
      ensures Valid() && pending == map[]
      ensures Lines() == FailLines(old(Lines()), reason)
    {
      ghost var all := pending;
      var todo := pending.Keys;
      while todo != {}
        invariant todo == pending.Keys <= all.Keys
        invariant forall id :: id in pending ==> pending[id] == made[id]
        invariant forall id :: id in made ==>
                                 made[id].slot == if id in all && id !in pending then [Failure(reason)]
                                     else old(made[id].slot)
        decreases todo
      {
        ghost var some := SomeMember(todo);
        var id :| id in todo;
        var wait := pending[id];
        pending, todo := pending - {id}, todo - {id};
        wait.Send(Failure(reason));
      }
      forall id | id in made
        ensures Line(id in pending, made[id].slot) == Failed(old(Lines())[id], reason)
      {
        if id in all { assert old(made[id].slot) == []; }
      }
    }

    /** Version survives a failure: the last known release is better than a blank. */
    method SetState(connected: bool, version: string, errMsg: string, now: int)
      modifies this`connected, this`version, this`error, this`since
      ensures (old(Valid()) ==> Valid()) && Lines() == old(Lines())
      ensures this.connected == connected && this.error == errMsg && this.since == now
      ensures this.version == if version == "" then old(this.version) else version
    {
      this.connected, this.error, this.since := connected, errMsg, now;
      if version != "" { this.version := version; }
    }

    /** Forgets the connection and its reader, and hands both back. */
    method Detach() returns (cancel: Option<nat>, close: Option<nat>)
      modifies this`conn, this`readerCancel
      ensures (old(Valid()) ==> Valid()) && Lines() == old(Lines())
      ensures conn == None && readerCancel == None && cancel == old(readerCancel) && close == old(conn)
    {
      close, conn := conn, None;
      cancel, readerCancel := readerCancel, None;
    }

    /** Tears the connection down. The returned values name the reader to cancel and the socket to close. */
    method Drop(reason: string, now: int) returns (cancel: Option<nat>, close: Option<nat>)
      requires Valid()
      modifies this, pending.Values
      ensures Valid() && pending == map[] && made == old(made)
      ensures conn == None && readerCancel == None && cancel == old(readerCancel) && close == old(conn)
      ensures Lines() == FailLines(old(Lines()), reason)
      ensures !connected && error == reason && version == old(version) && since == now
    {
      cancel, close := Detach();
      FailPendingLocked(reason);
      SetState(false, "", reason, now);
    }
  }

  ghost function LinesOf(s: Sys): map<int, Line> {
    map id | id in s.calls :: s.calls[id].line
  }

  /** Each critical section above is the step of the machine: one side for the map, the other for the channel. */
  lemma StepsMatchClient(s: Sys, e: Event)
    requires Enabled(s, e)
    ensures e.Drop? ==> LinesOf(Step(s, e)) == FailLines(LinesOf(s), e.reason)
    ensures e.FailPending? ==> LinesOf(Step(s, e)) == FailLines(LinesOf(s), s.readers[e.r].reason)
    ensures e.Begin? ==> LinesOf(Step(s, e)) == LinesOf(s)[s.nextID + 1 := FRESH]
    ensures e.Return? ==> LinesOf(Step(s, e)) == LinesOf(s)[e.id := Forgotten(LinesOf(s)[e.id])]
    ensures e.Read? && e.m.Response? && e.m.id in s.calls && s.calls[e.m.id].line.pending ==>
              LinesOf(Step(s, e)) == LinesOf(s)[e.m.id := Forgotten(LinesOf(s)[e.m.id])]
    ensures e.Read? && !(e.m.Response? && e.m.id in s.calls && s.calls[e.m.id].line.pending) ==>
              LinesOf(Step(s, e)) == LinesOf(s)
    ensures e.Deliver? ==>
              var h := s.readers[e.r];
              LinesOf(Step(s, e)) == LinesOf(s)[h.id := Filled(LinesOf(s)[h.id], h.o)]
  {
    if e.Drop? || e.FailPending? {
      var reason := if e.Drop? then e.reason else s.readers[e.r].reason;
      assert forall id :: id in s.calls ==> FailCall(s.calls[id], reason).line == Failed(s.calls[id].line, reason);
    }
  }
}
