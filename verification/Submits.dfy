/**
 The guarded submits of internal/actions/actions.go: `validateSnapshot`, `SubmitRestore`, `SubmitDelete`, and what they
 buy: a restore or delete job that exists carries an id the middleware listed without an error.
 */
module Submits {
  import opened Basics
  import opened Jobs
  import opened Registry
  import opened SnapshotId
  import L = SnapshotLists
  import M = SnapshotMerge
  import S = SnapshotService
  import opened SnapshotStore

  datatype Refusal = MiddlewareOff | BadRestore | GuardUnavailable | UnknownSnapshot | InvalidState | AlreadyInFlight

  datatype RestoreOpts = RestoreOpts(snapshot: string, mode: Mode, startAfter: bool, ack: bool)

  /** The middleware's answer that stands behind a submit: the guard's clean list has this well-formed id. */
  ghost predicate Vouched(guard: Service?, domain: string, id: string)
    reads guard
  {
    && guard != null && '@' in id
    && domain in guard.states && !guard.states[domain].fetching && guard.states[domain].err == ""
    && M.ContainsID(guard.states[domain].snapshots, id)
  }

  /** `polls` bounds the wait. None means accepted; `asked` is what the guard said, if there was one to ask. */
  method ValidateSnapshot(guard: Service?, domain: string, id: string, polls: nat)
    returns (bad: Option<Refusal>, ghost asked: Option<Verdict>)
    modifies guard
    ensures asked.Some? <==> guard != null
    ensures bad.None? <==> asked == Some(Yes) && '@' in id
    ensures bad.None? ==> Vouched(guard, domain, id)
    ensures bad == Some(GuardUnavailable) <==> asked in {None, Some(CannotTell)}
    ensures bad.Some? ==> bad.value in {GuardUnavailable, UnknownSnapshot}
  {
    asked := None;
    if guard == null { return Some(GuardUnavailable), None; }
    var v, spawn := guard.ValidateKnown(domain, id, polls);
    asked := Some(v);
    if v == CannotTell { return Some(GuardUnavailable), asked; }
    if v == No { return Some(UnknownSnapshot), asked; }
    CutThenRebuild(id);
    var cut := Cut(id);
    bad := if cut.None? then Some(UnknownSnapshot) else None;
  }

  /** What a refused submit leaves behind: no job it did not find, and none lost but to retention. */
  ghost predicate Untouched(store: Store, before: map<string, Rec>, now: int)
    reads store, store.jobs.Values
  {
    store.Recs() in {before, Swept(before, now)}
  }

  /**
   A restore job is registered exactly when every check passes, and it carries the options it was checked with. A direct
   rollback under a running guest needs the acknowledgement; `running` is None when the poller has no such VM.
   */
  method SubmitRestore(store: Store, middleware: bool, guard: Service?, running: Option<bool>, domain: string,
                       opts: RestoreOpts,
                       id: string, now: int, requested: int, polls: nat)
    returns (bad: Option<Refusal>, copy: Option<JobCopy>, ghost asked: Option<Verdict>)
    requires store.Valid() && id !in store.jobs
    modifies store, guard
    ensures store.Valid()
    ensures bad.None? <==>
              && middleware && !opts.mode.OtherMode? && asked == Some(Yes) && '@' in opts.snapshot
              && (opts.mode.Direct? && running == Some(true) ==> opts.ack)
              && Clear(old(store.Recs()), domain, Restore, now)
    ensures bad == Some(MiddlewareOff) <==> !middleware
    ensures bad == Some(BadRestore) <==> middleware && opts.mode.OtherMode?
    ensures bad == Some(InvalidState) <==>
              && middleware && asked == Some(Yes) && '@' in opts.snapshot
              && opts.mode.Direct? && running == Some(true) && !opts.ack
    ensures bad.None? ==> Vouched(guard, domain, opts.snapshot) && id in store.jobs && copy.Some? && copy.value.id == id
    ensures bad.None? ==>
              store.jobs[id].order
                  == Order(domain, Restore, requested, opts.snapshot, opts.mode, opts.startAfter, opts.ack)
    ensures bad.Some? ==> Untouched(store, old(store.Recs()), now) && (copy.Some? <==> bad == Some(AlreadyInFlight))
    ensures bad == Some(AlreadyInFlight) ==>
              copy.value.id in store.Recs() && InFlight(store.Recs()[copy.value.id], domain, Restore)
  {
    copy, asked := None, None;
    if !middleware { return Some(MiddlewareOff), copy, asked; }
    if opts.mode.OtherMode? { return Some(BadRestore), copy, asked; }
    bad, asked := ValidateSnapshot(guard, domain, opts.snapshot, polls);
    if bad.Some? { return; }
    if opts.mode.Direct? && running == Some(true) && !opts.ack { return Some(InvalidState), copy, asked; }
    var order := Order(domain, Restore, requested, opts.snapshot, opts.mode, opts.startAfter, opts.ack);
    var c, accepted := store.Register(id, order, now);
    copy := Some(c);
    bad := if accepted then None else Some(AlreadyInFlight);
  }

  method SubmitDelete(store: Store, middleware: bool, guard: Service?, domain: string, snapshot: string,
                      id: string, now: int, requested: int, polls: nat)
    returns (bad: Option<Refusal>, copy: Option<JobCopy>, ghost asked: Option<Verdict>)
    requires store.Valid() && id !in store.jobs
    modifies store, guard
    ensures store.Valid()
    ensures bad.None? <==>
              middleware && asked == Some(Yes) && '@' in snapshot && Clear(old(store.Recs()), domain, Delete, now)
    ensures bad == Some(MiddlewareOff) <==> !middleware
    ensures bad.None? ==> Vouched(guard, domain, snapshot) && id in store.jobs && copy.Some? && copy.value.id == id
    ensures bad.None? ==> store.jobs[id].order == Order(domain, Delete, requested, snapshot, OtherMode, false, false)
    ensures bad.Some? ==> Untouched(store, old(store.Recs()), now) && (copy.Some? <==> bad == Some(AlreadyInFlight))
    ensures bad == Some(AlreadyInFlight) ==>
              copy.value.id in store.Recs() && InFlight(store.Recs()[copy.value.id], domain, Delete)
  {
    copy, asked := None, None;
    if !middleware { return Some(MiddlewareOff), copy, asked; }
    bad, asked := ValidateSnapshot(guard, domain, snapshot, polls);
    if bad.Some? { return; }
    var c, accepted := store.Register(id, Order(domain, Delete, requested, snapshot, OtherMode, false, false), now);
    copy := Some(c);
    bad := if accepted then None else Some(AlreadyInFlight);
  }

  // ---- every run of the service with submits in it ----

  /** The snapshot service, and the restore and delete orders registered so far. */
  datatype Sys = Sys(svc: S.Svc, orders: map<string, Order>)

  datatype Event = Serve(e: S.Event) | Enlist(job: string, order: Order)

  /** A submit registers what `ValidateKnown` has said yes to, at any later moment. */
  predicate Enabled(s: Sys, e: Event) {
    match e
    case Serve(e) => S.Enabled(s.svc, e)
    case Enlist(job, o) => job !in s.orders && (o.domain, o.snapshot) in s.svc.vouched && '@' in o.snapshot
  }

  function Step(s: Sys, e: Event): Sys
    requires Enabled(s, e)
  {
    match e
    case Serve(e) => s.(svc := S.Step(s.svc, e))
    case Enlist(job, o) => s.(orders := s.orders[job := o])
  }

  function Run(s: Sys, es: seq<Event>): Sys
    decreases |es|
  {
    if es == [] then s
    else Run(if Enabled(s, es[0]) then Step(s, es[0]) else s, es[1..])
  }

  function Services(es: seq<Event>): seq<S.Event> {
    if es == [] then []
    else (if es[0].Serve? then [es[0].e] else []) + Services(es[1..])
  }

  lemma {:induction false} VouchedStays(s: S.Svc, e: S.Event)
    requires S.Enabled(s, e)
    ensures s.vouched <= S.Step(s, e).vouched
  {
  }

  /** Submits never disturb the service, and an order once registered had been vouched for. */
  lemma {:induction false} RunProjects(s: Sys, es: seq<Event>)
    requires forall j :: j in s.orders ==>
             (s.orders[j].domain, s.orders[j].snapshot) in s.svc.vouched && '@' in s.orders[j].snapshot
    ensures var t := Run(s, es);
            && t.svc == S.Run(s.svc, Services(es))
            && forall j :: j in t.orders ==>
                (t.orders[j].domain, t.orders[j].snapshot) in t.svc.vouched && '@' in t.orders[j].snapshot
    decreases |es|
  {
    if es == [] {
    } else {
      var e := es[0];
      var t := if Enabled(s, e) then Step(s, e) else s;
      if e.Serve? {
        if Enabled(s, e) { VouchedStays(s.svc, e.e); }
        assert Services(es) == [e.e] + Services(es[1..]);
        assert Services(es)[1..] == Services(es[1..]);
      } else {
        assert Services(es) == Services(es[1..]);
      }
      RunProjects(t, es[1..]);
    }
  }

  /**
   Whatever the interleaving: the id of a registered restore or delete was brought back by a fetch for its own domain
   in which every zvol dataset answered without an error, and what goes to the middleware is that id, byte for byte.
   */
  lemma RegisteredIdWasListed(es: seq<Event>, job: string)
    requires job in Run(Sys(S.INIT, map[]), es).orders
    ensures var o := Run(Sys(S.INIT, map[]), es).orders[job];
            && S.Brought(S.INIT, Services(es), o.domain, o.snapshot)
            && Cut(o.snapshot).Some?
            && Rebuilt(Cut(o.snapshot).value.0, Cut(o.snapshot).value.1) == o.snapshot
  {
    RunProjects(Sys(S.INIT, map[]), es);
    var o := Run(Sys(S.INIT, map[]), es).orders[job];
    S.YesMeansKnown(Services(es), o.domain, o.snapshot);
    CutThenRebuild(o.snapshot);
  }

  /**
   In every run a restore or delete whose check reads a record with no fetch under way is registered if and only if the
   last fetch on that record got an error-free answer for every dataset and one of them lists the id.
   */
  lemma RegisteredIffListed(es: seq<Event>, job: string, o: Order)
    requires var s := Run(Sys(S.INIT, map[]), es);
             && S.Enabled(s.svc, S.ReadVerdict(o.domain, o.snapshot)) && (o.domain, o.snapshot) !in s.svc.vouched
             && job !in s.orders && '@' in o.snapshot
    ensures var m := L.Recall(S.INIT, Services(es), o.domain, L.NOTHING);
            var t := Run(Run(Sys(S.INIT, map[]), es), [Serve(S.ReadVerdict(o.domain, o.snapshot)), Enlist(job, o)]);
            && (job in t.orders <==> m.fetched && m.clean && M.Listed(m.answers, o.snapshot))
            && (job in t.orders ==> t.orders[job] == o)
  {
    var s := Run(Sys(S.INIT, map[]), es);
    RunProjects(Sys(S.INIT, map[]), es);
    L.YesIffListed(Services(es), o.domain, o.snapshot);
    var e1, e2 := Serve(S.ReadVerdict(o.domain, o.snapshot)), Enlist(job, o);
    assert [e1, e2][1..] == [e2] && [e2][1..] == [];
    var t := Step(s, e1);
    assert Run(s, [e1, e2]) == Run(t, [e2]);
    assert Run(t, [e2]) == if Enabled(t, e2) then Step(t, e2) else t;
  }
}
