/**
 The frozen-guest bookkeeping of internal/actions/actions.go: `frozenMark`, `frozenClear`, `thaw`, `forceThaw` and one
 tick of `SweepLoop`.
 */
module FreezeBook {
  import opened Basics
  import opened Clocks
  import opened Protocol
  import opened World

  predicate Overdue(frozen: map<string, int>, domain: string, now: int) {
    domain in frozen && now - frozen[domain] > FREEZE_HOLD_BOUND
  }

  /**
   The calls of one forced thaw: the guest is reached and thawed, in at most two tries, unless libvirt or the domain
   cannot be found.
   */
  predicate ForcedCalls(calls: seq<Ev>, ok: bool) {
    || (!ok && calls == [Connect(false)])
    || (!ok && (calls == [Connect(true), List(Missing)] || calls == [Connect(true), List(ListError)]))
    || (ok && calls == [Connect(true), List(Found), Ev.Thaw(true)])
    || calls == [Connect(true), List(Found), Ev.Thaw(false), Ev.Thaw(ok)]
  }

  /** One forced thaw of a sweep. */
  datatype Try = Try(domain: string, calls: seq<Ev>)

  function AllCalls(tries: seq<Try>): seq<Ev> {
    if tries == [] then [] else AllCalls(tries[..|tries| - 1]) + tries[|tries| - 1].calls
  }

  predicate Tried(tries: seq<Try>, domain: string) {
    exists i :: 0 <= i < |tries| && tries[i].domain == domain
  }

  /** Each attempted guest had exactly one forced thaw, and those that were thawed are the ones where it worked. */
  ghost predicate OnceEach(tries: seq<Try>, attempted: set<string>, thawed: set<string>) {
    && thawed <= attempted && |tries| == |attempted|
    && (forall d :: d in attempted <==> Tried(tries, d))
    && (forall i :: 0 <= i < |tries| ==> ForcedCalls(tries[i].calls, tries[i].domain in thawed))
  }

  lemma OneMoreTry(tries: seq<Try>, attempted: set<string>, thawed: set<string>, more: Try, ok: bool)
    requires OnceEach(tries, attempted, thawed) && more.domain !in attempted && ForcedCalls(more.calls, ok)
    ensures OnceEach(tries + [more], attempted + {more.domain}, thawed + if ok then {more.domain} else {})
    ensures AllCalls(tries + [more]) == AllCalls(tries) + more.calls
  {
    var longer := tries + [more];
    assert longer[..|tries|] == tries;
    forall d
      ensures Tried(longer, d) <==> Tried(tries, d) || d == more.domain
    {
      if i :| 0 <= i < |tries| && tries[i].domain == d { assert longer[i].domain == d; }
      assert longer[|tries|].domain == more.domain;
    }
    forall i | 0 <= i < |tries|
      ensures tries[i].domain != more.domain
    {
      assert Tried(tries, tries[i].domain);
    }
  }

  lemma OneMoreGone(marks: map<string, int>, thawed: set<string>, domain: string, ok: bool)
    ensures (if ok then marks - thawed - {domain} else marks - thawed)
            == marks - (thawed + if ok then {domain} else {})
  {
  }

  class Book {
    /** Guests frozen by us and not known to be thawed, with the time of the freeze. */
    var frozen: map<string, int>

    constructor ()
      ensures frozen == map[]
    {
      frozen := map[];
    }

    method Mark(domain: string, now: int)
      modifies this
      ensures frozen == old(frozen)[domain := now]
    {
      frozen := frozen[domain := now];
    }

    /** Two tries, two seconds apart; the mark goes only on success. */
    method Thaw(h: Host, domain: string) returns (ok: bool)
      requires 2000 <= h.costs.nap
      modifies this, h
      ensures frozen == if ok then old(frozen) - {domain} else old(frozen)
      ensures h.trace == old(h.trace) + [Ev.Thaw(true)] || h.trace == old(h.trace) + [Ev.Thaw(false), Ev.Thaw(ok)]
      ensures h.trace == old(h.trace) + [Ev.Thaw(true)] ==> ok
      ensures h.now >= old(h.now) + if h.trace == old(h.trace) + [Ev.Thaw(true)] then 0 else 2000
    {
      ok := h.Thaws();
      if ok {
        frozen := frozen - {domain};
        return;
      }
      h.Sleep(2000);
      ok := h.Thaws();
      assert h.trace == old(h.trace) + [Ev.Thaw(false), Ev.Thaw(ok)];
      if ok {
        frozen := frozen - {domain};
      }
    }

    /** Reaches the guest and thaws it; gives up when libvirt or the domain is away. */
    method ForceThaw(h: Host, domain: string) returns (ok: bool, ghost calls: seq<Ev>)
      requires 2000 <= h.costs.nap
      modifies this, h
      ensures frozen == if ok then old(frozen) - {domain} else old(frozen)
      ensures h.trace == old(h.trace) + calls && ForcedCalls(calls, ok) && h.now >= old(h.now)
    {
      ok := h.Connects();
      calls := [Connect(ok)];
      if !ok { return; }
      var l := h.FindDomain();
      Joined(old(h.trace), calls, [List(l)]);
      calls := calls + [List(l)];
      if !l.Found? {
        assert calls == [Connect(true), List(l)];
        return false, calls;
      }
      label found:
      ok := Thaw(h, domain);
      ghost var tries := if h.trace == old@found(h.trace) + [Ev.Thaw(true)] then [Ev.Thaw(true)]
                         else [Ev.Thaw(false), Ev.Thaw(ok)];
      Joined(old(h.trace), calls, tries);
      calls := calls + tries;
    }

    /**
     The marks that are overdue, each judged by its own reading of the clock: all that were so when the tick came, and
     none that is not so when the collecting ends.
     */
    method Expired(h: Host) returns (expired: set<string>)
      modifies h
      ensures old(h.now) <= h.now && h.trace == old(h.trace)
      ensures forall d :: Overdue(frozen, d, old(h.now)) ==> d in expired
      ensures forall d :: d in expired ==> Overdue(frozen, d, h.now)
    {
      expired := {};
      var todo := frozen.Keys;
      while todo != {}
        invariant todo <= frozen.Keys && old(h.now) <= h.now && h.trace == old(h.trace)
        invariant forall d :: Overdue(frozen, d, old(h.now)) ==> d in expired || d in todo
        invariant forall d :: d in expired ==> Overdue(frozen, d, h.now)
        decreases todo
      {
        ghost var some := SomeMember(todo);
        var domain :| domain in todo;
        var now := h.Now();
        if now - frozen[domain] > FREEZE_HOLD_BOUND {
          expired := expired + {domain};
        }
        todo := todo - {domain};
      }
    }

    /** What the attempts of one tick have done to the marks `marks` and the trace `before` so far. */
    ghost predicate Done(h: Host, marks: map<string, int>, before: seq<Ev>, tries: seq<Try>, attempted: set<string>,
                         thawed: set<string>)
      reads this, h
    {
      frozen == marks - thawed && h.trace == before + AllCalls(tries) && OnceEach(tries, attempted, thawed)
    }

    /** One attempt of the tick. */
    method ForceNext(h: Host, domain: string, thawed: set<string>, ghost attempted: set<string>,
                     ghost marks: map<string, int>, ghost before: seq<Ev>, ghost tries: seq<Try>)
      returns (thawedNow: set<string>, ghost triesNow: seq<Try>)
      requires 2000 <= h.costs.nap && domain !in attempted && Done(h, marks, before, tries, attempted, thawed)
      modifies this, h
      ensures Done(h, marks, before, triesNow, attempted + {domain}, thawedNow) && h.now >= old(h.now)
    {
      var ok;
      ghost var calls;
      ok, calls := ForceThaw(h, domain);
      Joined(before, AllCalls(tries), calls);
      OneMoreGone(marks, thawed, domain, ok);
      OneMoreTry(tries, attempted, thawed, Try(domain, calls), ok);
      thawedNow, triesNow := thawed + if ok then {domain} else {}, tries + [Try(domain, calls)];
    }

    /**
     One tick. Every overdue mark gets one forced thaw; a mark disappears exactly when its thaw succeeded; every other
     mark, and the age of every mark that stays, is untouched. `collected` is when the attempts began.
     */
    method SweepTick(h: Host)
      returns (attempted: set<string>, thawed: set<string>, ghost collected: int, ghost tries: seq<Try>)
      requires 2000 <= h.costs.nap
      modifies this, h
      ensures old(h.now) <= collected <= h.now
      ensures forall d :: Overdue(old(frozen), d, old(h.now)) ==> d in attempted
      ensures forall d :: d in attempted ==> Overdue(old(frozen), d, collected)
      ensures frozen == old(frozen) - thawed
      ensures h.trace == old(h.trace) + AllCalls(tries) && OnceEach(tries, attempted, thawed)
    {
      var expired := Expired(h);
      collected := h.now;
      attempted, thawed, tries := {}, {}, [];
      var todo := expired;
      while todo != {}
        invariant todo <= expired && attempted == expired - todo && h.now >= collected
        invariant Done(h, old(frozen), old(h.trace), tries, attempted, thawed)
        decreases todo
      {
        ghost var some := SomeMember(todo);
        var domain :| domain in todo;
        thawed, tries := ForceNext(h, domain, thawed, attempted, old(frozen), old(h.trace), tries);
        attempted, todo := attempted + {domain}, todo - {domain};
      }
    }
  }
}
