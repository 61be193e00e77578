/** The fields of `Service` in internal/snapshots/snapshots.go and the critical sections that change them. */
module SnapshotStore {
  import opened Basics
  import opened SnapshotMerge
  import opened SnapshotService

  datatype Verdict = Yes | No | CannotTell

  class Service {
    var states: map<string, Entry>
    var sweeping: bool

    constructor ()
      ensures states == map[] && !sweeping
    {
      states, sweeping := map[], false;
    }

    /** What the other goroutines may do between two critical sections: anything. */
    method Others()
      modifies this
    {
      states, sweeping := *, *;
    }

    method Has(list: seq<Row>, id: string) returns (found: bool)
      ensures found <==> ContainsID(list, id)
    {
      for i := 0 to |list|
        invariant forall k :: 0 <= k < i ==> list[k].id != id
      {
        if list[i].id == id { return true; }
      }
      found := false;
    }

    /** A read that may start a fetch; `spawn` says that it did. */
    method Request(d: string, force: bool, now: int) returns (view: Entry, spawn: bool)
      modifies this`states
      ensures spawn <==> force && !EntryIn(old(states), d).fetching && !TooSoon(EntryIn(old(states), d), now)
      ensures view == EntryIn(old(states), d).(fetching := spawn || EntryIn(old(states), d).fetching)
      ensures states == old(states)[d := view]
    {
      if d !in states { states := states[d := BLANK]; }
      spawn := false;
      if force && !states[d].fetching {
        var fetchedAt := states[d].fetchedAt;
        var tooSoon := fetchedAt.Some? && states[d].err == "" && now - fetchedAt.value < FLOOR;
        if !tooSoon {
          states := states[d := states[d].(fetching := true)];
          spawn := true;
        }
      }
      view := states[d];
    }

    /** Drops what the poller no longer knows, then marks and queues what needs a fetch. */
    method RefreshAll(vms: seq<string>, now: int) returns (queued: seq<string>)
      modifies this
      ensures var kept := map d | d in old(states) && d in vms :: old(states)[d];
              && queued == (if old(sweeping) then [] else QueueUp(kept, vms, now).1)
              && states == (if old(sweeping) then kept else QueueUp(kept, vms, now).0)
              && sweeping == (old(sweeping) || queued != [])
    {
      ghost var kept := map d | d in states && d in vms :: states[d];
      var todo := states.Keys;
      while todo != {}
        invariant todo <= old(states).Keys && sweeping == old(sweeping)
        invariant states == map d | d in old(states) && (d in vms || d in todo) :: old(states)[d]
        decreases todo
      {
        ghost var some := SomeMember(todo);
        var d :| d in todo;
        if d !in vms { states := states - {d}; }
        todo := todo - {d};
      }
      assert states == kept;
      queued := [];
      if sweeping { return; }
      assert vms[..0] == [];
      for i := 0 to |vms|
        invariant !sweeping && (states, queued) == QueueUp(kept, vms[..i], now)
      {
        assert vms[..i + 1][..i] == vms[..i];
        var d := vms[i];
        var e := if d in states then states[d] else BLANK;
        if !e.fetching && !TooSoon(e, now) {
          states := states[d := e.(fetching := true)];
          queued := queued + [d];
        }
      }
      assert vms[..|vms|] == vms;
      sweeping := queued != [];
    }

    /** The first critical section of `ValidateKnown`: says yes at once, or makes sure a fetch is coming. */
    method Check(d: string, id: string) returns (known: bool, spawn: bool)
      modifies this`states
      ensures known <==> !EntryIn(old(states), d).fetching && Says(EntryIn(old(states), d), id, Yes)
      ensures spawn <==> !known && !EntryIn(old(states), d).fetching
      ensures states == if known then old(states) else old(states)[d := EntryIn(old(states), d).(fetching := true)]
    {
      known, spawn := false, false;
      if d in states && !states[d].fetching && states[d].err == "" {
        known := Has(states[d].snapshots, id);
        if known { return; }
      }
      if d !in states { states := states[d := BLANK]; }
      if !states[d].fetching {
        states := states[d := states[d].(fetching := true)];
        spawn := true;
      }
    }

    /**
     Answers at once from a clean list that has the id; otherwise makes sure a fetch is coming and reads the record
     after each of at most `polls` waits. Only an error-free list can give a yes or a no.
     */
    method ValidateKnown(d: string, id: string, polls: nat) returns (v: Verdict, spawn: bool)
      modifies this
      ensures v != CannotTell ==> d in states && !states[d].fetching && Says(states[d], id, v)
      ensures v == CannotTell ==> polls == 0 || d !in states || states[d].fetching || Says(states[d], id, v)
      ensures var e := EntryIn(old(states), d);
              !e.fetching && Says(e, id, Yes) ==> v == Yes && states == old(states) && !spawn
      ensures spawn <==> !EntryIn(old(states), d).fetching && !Says(EntryIn(old(states), d), id, Yes)
    {
      var known;
      known, spawn := Check(d, id);
      if known { return Yes, spawn; }
      for i := 0 to polls
        invariant i > 0 ==> d in states && states[d].fetching
      {
        Others();
        if d !in states { return CannotTell, spawn; }
        if !states[d].fetching {
          if states[d].err != "" { return CannotTell, spawn; }
          var held := Has(states[d].snapshots, id);
          return if held then Yes else No, spawn;
        }
      }
      v := CannotTell;
    }

    /** The first critical section of `fetch`: a VM or a record that is gone ends it. */
    method Admit(d: string, found: bool) returns (go: bool)
      modifies this`states
      ensures go <==> found && d in old(states)
      ensures states == if go then old(states) else old(states) - {d}
    {
      go := d in states && found;
      if !go { states := states - {d}; }
    }

    /** The library sort, which promises nothing about rows of equal creation time. */
    method Sorted(rows: seq<Row>) returns (list: seq<Row>)
      ensures NewestFirst(list, rows)
    {
      list := *;
      if !NewestFirst(list, rows) {
        InOrderIsNewestFirst(rows);
        list := InOrder(rows);
      }
    }

    /** The part of `fetch` between its two critical sections: query, sort, and choose the error text. */
    method Gather(d: string, datasets: seq<string>, connected: bool, statusErr: string)
      returns (list: seq<Row>, msg: string, x: Fetch)
      ensures x.domain == d && x.datasets == datasets && SoundFetch(x)
      ensures NewestFirst(list, AllRows(x.answers)) && msg == Outcome(x, list).msg
    {
      var rows, firstErr := [], "";
      var answers: seq<Answer> := [];
      if datasets != [] && connected {
        rows, firstErr, answers := QueryAll(datasets);
      }
      x := Fetch(d, Asking, datasets, connected, statusErr, answers);
      list := Sorted(rows);
      msg := firstErr;
      if !connected && datasets != [] {
        if statusErr != "" { msg := statusErr; } else if msg == "" { msg := NOT_CONNECTED; }
      }
    }

    /** The last critical section of `fetch`. */
    method PourIn(d: string, datasets: nat, list: seq<Row>, msg: string, now: int)
      modifies this`states
      ensures states ==
              if d in old(states) then old(states)[d := Merge(old(states)[d], Fetched(datasets, list, msg), now)]
              else old(states)
    {
      if d !in states { return; }
      var e := states[d].(fetchedAt := Some(now), fetching := false);
      if datasets == 0 {
        e := e.(snapshots := [], err := "", stale := false);
      } else if msg == "" {
        e := e.(snapshots := list, err := "", stale := false);
      } else if list != [] {
        e := e.(snapshots := list, err := msg, stale := false);
      } else if e.snapshots != [] {
        e := e.(err := msg, stale := true);
      } else {
        e := e.(snapshots := [], err := msg, stale := false);
      }
      states := states[d := e];
    }
  }

  /** The verdict that the held record gives, when no fetch is under way. */
  predicate Says(e: Entry, id: string, v: Verdict) {
    match v
    case Yes => e.err == "" && ContainsID(e.snapshots, id)
    case No => e.err == "" && !ContainsID(e.snapshots, id)
    case CannotTell => e.err != ""
  }

  /**
   Each critical section above is the step of the machine in `SnapshotService`: same records, a goroutine spawned in
   the same cases, and a yes recorded exactly when the record says yes.
   */
  lemma StepsMatchService(s: Svc, e: Event)
    requires Enabled(s, e)
    ensures e.Request? ==>
              var en := EntryIn(s.states, e.d);
              var spawn := e.force && !en.fetching && !TooSoon(en, e.now);
              && Step(s, e).states == s.states[e.d := en.(fetching := spawn || en.fetching)]
              && (e.f in Step(s, e).fetches <==> spawn)
    ensures e.RefreshAll? ==>
              var kept := map d | d in s.states && d in e.vms :: s.states[d];
              && Step(s, e).states == (if s.sweeping then kept else QueueUp(kept, e.vms, e.now).0)
              && (!s.sweeping && s.queue == [] ==> Step(s, e).queue == QueueUp(kept, e.vms, e.now).1)
              && Step(s, e).sweeping == (s.sweeping || QueueUp(kept, e.vms, e.now).1 != [])
    ensures e.Validate? ==>
              var en := EntryIn(s.states, e.d);
              && (e.f in Step(s, e).fetches <==> !en.fetching && !Says(en, e.id, Yes))
              && Step(s, e).vouched == s.vouched + if !en.fetching && Says(en, e.id, Yes) then {(e.d, e.id)} else {}
    ensures e.ReadVerdict? ==>
              Step(s, e) == s.(vouched := s.vouched + if Says(s.states[e.d], e.id, Yes) then {(e.d, e.id)} else {})
    ensures e.Admit? ==>
              var d := s.fetches[e.f].domain;
              Step(s, e).states == if d in s.states && e.found then s.states else s.states - {d}
    ensures e.Finish? ==>
              var d := s.fetches[e.f].domain;
              Step(s, e).states ==
              if d in s.states then s.states[d := Merge(s.states[d], Outcome(s.fetches[e.f], e.list), e.now)]
              else s.states
  {
    if e.RefreshAll? {
      QueueUpMarks(Known(s, e.vms).states, e.vms, e.now);
      assert Known(s, e.vms).states == map d | d in s.states && d in e.vms :: s.states[d];
      QueueUpEmpty(Known(s, e.vms).states, e.vms, e.now);
    }
  }

  /** A sweep that finds nothing to do leaves every record as it was. */
  lemma {:induction false} QueueUpEmpty(states: map<string, Entry>, vms: seq<string>, now: int)
    ensures QueueUp(states, vms, now).1 == [] ==> QueueUp(states, vms, now).0 == states
    decreases |vms|
  {
    if vms == [] {
    } else {
      QueueUpEmpty(states, vms[..|vms| - 1], now);
    }
  }
}
