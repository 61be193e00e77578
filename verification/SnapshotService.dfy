/**
 The snapshot service of internal/snapshots/snapshots.go as a step machine: any number of `Request`, `RefreshAll` and
 `ValidateKnown` calls, the fetches they spawn, the one sweep goroutine and the one fetch slot, interleaved in every
 order.
 */
module SnapshotService {
  import opened Basics
  import opened Clocks
  import opened SnapshotMerge

  const FLOOR := SNAPSHOT_REFETCH_FLOOR

  /** `Holding` has the fetch slot but has not looked at the state yet; `Leaving` has merged and only unlocks. */
  datatype Pc = Waiting | Holding | Asking | InCall | Leaving

  /** One `fetch` goroutine (or one round of the sweep's loop). */
  datatype Fetch = Fetch(
    domain: string,
    pc: Pc,
    datasets: seq<string>,
    connected: bool,
    statusErr: string,
    answers: seq<Answer>)

  /**
   `queue` is what is left of a sweep and `current` the fetch it is running. The last three fields are history:
   `known` are the (domain, id) pairs of fetches in which every dataset answered without an error, `cleanAt` the time
   of a domain's last clean fetch while its state lives, `vouched` the pairs `ValidateKnown` said yes to.
   */
  datatype Svc = Svc(
    states: map<string, Entry>,
    sweeping: bool,
    queue: seq<string>,
    current: Option<nat>,
    fetches: map<nat, Fetch>,
    slot: Option<nat>,
    known: set<(string, string)>,
    cleanAt: map<string, int>,
    vouched: set<(string, string)>)

  /** `f` names the goroutine a call spawns, if it spawns one. */
  datatype Event =
    | Request(d: string, force: bool, now: int, f: nat)
    | RefreshAll(vms: seq<string>, now: int)
    | Validate(d: string, id: string, f: nat)
    | ReadVerdict(d: string, id: string)
    | SweepNext(f: nat)
    | SweepEnd
    | Lock(f: nat)
    | Admit(f: nat, found: bool, datasets: seq<string>, connected: bool, statusErr: string)
    | Ask(f: nat)
    | Hear(f: nat, a: Answer)
    | Finish(f: nat, list: seq<Row>, now: int)
    | Unlock(f: nat)

  const INIT := Svc(map[], false, [], None, map[], None, {}, map[], {})

  function Idle(d: string): Fetch {
    Fetch(d, Waiting, [], false, "", [])
  }

  function EntryIn(states: map<string, Entry>, d: string): Entry {
    if d in states then states[d] else BLANK
  }

  /** A clean fetch inside the floor is fresh enough. */
  predicate TooSoon(e: Entry, now: int) {
    e.fetchedAt.Some? && e.err == "" && now - e.fetchedAt.value < FLOOR
  }

  predicate At(s: Svc, f: nat, pc: Pc) {
    f in s.fetches && s.fetches[f].pc == pc
  }

  predicate Enabled(s: Svc, e: Event) {
    match e
    case Request(_, _, _, f) => f !in s.fetches
    case RefreshAll(_, _) => true
    case Validate(_, _, f) => f !in s.fetches
    case ReadVerdict(d, _) => d in s.states && !s.states[d].fetching
    case SweepNext(f) => s.sweeping && s.queue != [] && s.current == None && f !in s.fetches
    case SweepEnd => s.sweeping && s.queue == [] && s.current == None
    case Lock(f) => At(s, f, Waiting) && s.slot == None
    case Admit(f, _, _, _, _) => At(s, f, Holding)
    case Ask(f) => At(s, f, Asking) && s.fetches[f].connected && |s.fetches[f].answers| < |s.fetches[f].datasets|
    case Hear(f, a) => At(s, f, InCall) && (a.Refused? ==> a.why != "")
    case Finish(f, list, _) => At(s, f, Asking) && NewestFirst(list, AllRows(s.fetches[f].answers))
    case Unlock(f) => At(s, f, Leaving)
  }

  /** Marks the domain and spawns its fetch. */
  function Start(s: Svc, d: string, f: nat): Svc {
    s.(states := s.states[d := EntryIn(s.states, d).(fetching := true)], fetches := s.fetches[f := Idle(d)])
  }

  /** Makes sure the domain has a record. */
  function Touch(s: Svc, d: string): Svc {
    s.(states := s.states[d := EntryIn(s.states, d)])
  }

  /** The marking loop of `RefreshAll`: which domains it queues, and the states after it. */
  function QueueUp(states: map<string, Entry>, vms: seq<string>, now: int): (map<string, Entry>, seq<string>) {
    if vms == [] then (states, [])
    else
      var (marked, queued) := QueueUp(states, vms[..|vms| - 1], now);
      var d := vms[|vms| - 1];
      var e := EntryIn(marked, d);
      if e.fetching || TooSoon(e, now) then (marked, queued)
      else (marked[d := e.(fetching := true)], queued + [d])
  }

  function Known(s: Svc, vms: seq<string>): Svc {
    s.(states := map d | d in s.states && d in vms :: s.states[d],
       cleanAt := map d | d in s.cleanAt && d in vms :: s.cleanAt[d])
  }

  function Outcome(f: Fetch, list: seq<Row>): Fetched {
    Fetched(|f.datasets|, list,
            Message(|f.datasets|, f.connected, f.statusErr,
                FirstErr(f.answers, f.connected && |f.answers| < |f.datasets|)))
  }

  function Ids(list: seq<Row>, d: string): set<(string, string)> {
    set i | 0 <= i < |list| :: (d, list[i].id)
  }

  function MergeIn(s: Svc, f: nat, list: seq<Row>, now: int): Svc
    requires f in s.fetches
  {
    var x := s.fetches[f];
    var s1 := s.(fetches := s.fetches[f := x.(pc := Leaving)],
                 known := s.known + if AllAnswered(x.datasets, x.answers) then Ids(list, x.domain) else {});
    if x.domain !in s.states then s1
    else
      var e := Merge(s.states[x.domain], Outcome(x, list), now);
      s1.(states := s.states[x.domain := e],
          cleanAt := if AllAnswered(x.datasets, x.answers) then s.cleanAt[x.domain := now] else s.cleanAt - {x.domain})
  }

  function Step(s: Svc, e: Event): Svc
    requires Enabled(s, e)
  {
    match e
    case Request(d, force, now, f) =>
      var en := EntryIn(s.states, d);
      if force && !en.fetching && !TooSoon(en, now) then Start(s, d, f) else Touch(s, d)
    case RefreshAll(vms, now) =>
      var s1 := Known(s, vms);
      if s.sweeping then s1
      else
        var (marked, queued) := QueueUp(s1.states, vms, now);
        if queued == [] then s1 else s1.(states := marked, queue := queued, sweeping := true)
    case Validate(d, id, f) =>
      var en := EntryIn(s.states, d);
      if !en.fetching && en.err == "" && ContainsID(en.snapshots, id) then s.(vouched := s.vouched + {(d, id)})
      else if en.fetching then s else Start(s, d, f)
    case ReadVerdict(d, id) =>
      var en := s.states[d];
      if en.err == "" && ContainsID(en.snapshots, id) then s.(vouched := s.vouched + {(d, id)}) else s
    case SweepNext(f) =>
      s.(queue := s.queue[1..], current := Some(f), fetches := s.fetches[f := Idle(s.queue[0])])
    case SweepEnd => s.(sweeping := false)
    case Lock(f) => s.(slot := Some(f), fetches := s.fetches[f := s.fetches[f].(pc := Holding)])
    case Admit(f, found, datasets, connected, statusErr) =>
      var x := s.fetches[f];
      if x.domain !in s.states || !found then
        s.(states := s.states - {x.domain}, cleanAt := s.cleanAt - {x.domain},
           fetches := s.fetches[f := x.(pc := Leaving)])
      else
        var y := x.(pc := Asking, datasets := datasets, connected := connected, statusErr := statusErr);
        s.(fetches := s.fetches[f := y])
    case Ask(f) => s.(fetches := s.fetches[f := s.fetches[f].(pc := InCall)])
    case Hear(f, a) => s.(fetches := s.fetches[f := s.fetches[f].(pc := Asking, answers := s.fetches[f].answers + [a])])
    case Finish(f, list, now) => MergeIn(s, f, list, now)
    case Unlock(f) =>
      s.(slot := None, fetches := s.fetches - {f}, current := if s.current == Some(f) then None else s.current)
  }

  function Run(s: Svc, es: seq<Event>): Svc
    decreases |es|
  {
    if es == [] then s
    else Run(if Enabled(s, es[0]) then Step(s, es[0]) else s, es[1..])
  }

  // ---- the flag never sticks, and the slot is exclusive ----

  /** `f` will still clear the flag of `d`. */
  predicate Serves(s: Svc, f: nat, d: string) {
    f in s.fetches && s.fetches[f].domain == d && !s.fetches[f].pc.Leaving?
  }

  ghost predicate Coming(s: Svc, d: string) {
    d in s.queue || exists f :: Serves(s, f, d)
  }

  ghost predicate NoneStuck(s: Svc) {
    forall d :: d in s.states && s.states[d].fetching ==> Coming(s, d)
  }

  ghost predicate OneSlot(s: Svc) {
    && (forall f :: f in s.fetches && !s.fetches[f].pc.Waiting? ==> s.slot == Some(f))
    && (s.slot.Some? ==> s.slot.value in s.fetches && !s.fetches[s.slot.value].pc.Waiting?)
    && (s.current.Some? ==> s.current.value in s.fetches && s.sweeping)
    && (!s.sweeping ==> s.queue == [])
  }

  predicate NoRepeats(q: seq<string>) {
    forall i, j :: 0 <= i < j < |q| ==> q[i] != q[j]
  }

  /** `RefreshAll` queues and marks exactly the domains that are neither coming already nor fresh enough, each once. */
  lemma {:induction false} QueueUpMarks(states: map<string, Entry>, vms: seq<string>, now: int)
    ensures var (marked, queued) := QueueUp(states, vms, now);
            && marked.Keys == states.Keys + (set d | d in queued)
            && NoRepeats(queued)
            && (forall d :: d in marked ==>
                  marked[d] == if d in queued then EntryIn(states, d).(fetching := true) else EntryIn(states, d))
            && (forall d :: d in queued <==>
                d in vms && !EntryIn(states, d).fetching && !TooSoon(EntryIn(states, d), now))
    decreases |vms|
  {
    if vms == [] {
    } else {
      var front, last := vms[..|vms| - 1], vms[|vms| - 1];
      QueueUpMarks(states, front, now);
      assert forall d :: d in vms <==> d in front || d == last;
    }
  }

  /** Steps of callers about one domain, as against `RefreshAll` and the steps of a fetch or of the sweep. */
  predicate FromCaller(e: Event) {
    e.Request? || e.Validate? || e.ReadVerdict?
  }

  lemma SlotRefresh(s: Svc, vms: seq<string>, now: int)
    requires OneSlot(s)
    ensures OneSlot(Step(s, RefreshAll(vms, now)))
  {
  }

  lemma SlotStart(s: Svc, d: string, f: nat)
    requires OneSlot(s) && f !in s.fetches
    ensures OneSlot(Start(s, d, f))
  {
  }

  lemma SlotCallerStep(s: Svc, e: Event)
    requires OneSlot(s) && Enabled(s, e) && FromCaller(e)
    ensures OneSlot(Step(s, e))
  {
    if !e.ReadVerdict? { SlotStart(s, e.d, e.f); }
  }

  lemma SlotFetchStep(s: Svc, e: Event)
    requires OneSlot(s) && Enabled(s, e) && !FromCaller(e) && !e.RefreshAll?
    ensures OneSlot(Step(s, e))
  {
  }

  lemma StuckStart(s: Svc, d: string, f: nat)
    requires NoneStuck(s) && f !in s.fetches
    ensures NoneStuck(Start(s, d, f)) && NoneStuck(Touch(s, d))
  {
    var t := Start(s, d, f);
    assert Serves(t, f, d);
    forall k | k in t.states && t.states[k].fetching && k != d
      ensures Coming(t, k)
    {
      if k !in s.queue {
        var g :| Serves(s, g, k);
        assert Serves(t, g, k);
      }
    }
    forall k | k in Touch(s, d).states && Touch(s, d).states[k].fetching
      ensures Coming(Touch(s, d), k)
    {
      if k !in s.queue {
        var g :| Serves(s, g, k);
        assert Serves(Touch(s, d), g, k);
      }
    }
  }

  lemma StuckCallerStep(s: Svc, e: Event)
    requires NoneStuck(s) && Enabled(s, e) && FromCaller(e)
    ensures NoneStuck(Step(s, e))
  {
    if e.ReadVerdict? {
      SameFlags(s, Step(s, e));
    } else {
      StuckStart(s, e.d, e.f);
      SameFlags(s, s.(vouched := Step(s, e).vouched));
    }
  }

  lemma SameFlags(s: Svc, t: Svc)
    requires NoneStuck(s) && t.states == s.states && t.queue == s.queue && t.fetches == s.fetches
    ensures NoneStuck(t)
  {
    forall d | d in t.states && t.states[d].fetching
      ensures Coming(t, d)
    {
      if d !in s.queue {
        var f :| Serves(s, f, d);
        assert Serves(t, f, d);
      }
    }
  }

  lemma StuckRefresh(s: Svc, vms: seq<string>, now: int)
    requires OneSlot(s) && NoneStuck(s)
    ensures NoneStuck(Step(s, RefreshAll(vms, now)))
  {
    var t := Step(s, RefreshAll(vms, now));
    QueueUpMarks(Known(s, vms).states, vms, now);
    forall d | d in t.states && t.states[d].fetching
      ensures Coming(t, d)
    {
      if d !in t.queue {
        var f :| Serves(s, f, d);
        assert Serves(t, f, d);
      }
    }
  }

  /** A fetch that moves on without merging still serves its domain. */
  lemma StuckFetchStep(s: Svc, e: Event)
    requires OneSlot(s) && NoneStuck(s) && Enabled(s, e)
    requires e.Lock? || e.Ask? || e.Hear? || e.Unlock? || e.SweepEnd?
    ensures NoneStuck(Step(s, e))
  {
    var t := Step(s, e);
    forall d | d in t.states && t.states[d].fetching
      ensures Coming(t, d)
    {
      if d !in s.queue {
        var f :| Serves(s, f, d);
        assert Serves(t, f, d);
      }
    }
  }

  /** The sweep hands one domain over from its queue to a fetch. */
  lemma StuckSweepNext(s: Svc, f: nat)
    requires OneSlot(s) && NoneStuck(s) && Enabled(s, SweepNext(f))
    ensures NoneStuck(Step(s, SweepNext(f)))
  {
    var t := Step(s, SweepNext(f));
    assert Serves(t, f, s.queue[0]);
    forall d | d in t.states && t.states[d].fetching
      ensures Coming(t, d)
    {
      if d !in s.queue {
        var g :| Serves(s, g, d);
        assert Serves(t, g, d);
      }
    }
  }

  /** A fetch that gives up deletes its domain's record. */
  lemma StuckAdmit(s: Svc, e: Event)
    requires NoneStuck(s) && Enabled(s, e) && e.Admit?
    ensures NoneStuck(Step(s, e))
  {
    var t := Step(s, e);
    forall d | d in t.states && t.states[d].fetching
      ensures Coming(t, d)
    {
      if d !in s.queue {
        var f :| Serves(s, f, d);
        assert Serves(t, f, d);
      }
    }
  }

  /** A fetch that leaves its domain unmarked strands no other. */
  lemma StuckLeave(s: Svc, t: Svc, f: nat)
    requires NoneStuck(s) && f in s.fetches && t.queue == s.queue
    requires t.fetches == s.fetches[f := s.fetches[f].(pc := Leaving)]
    requires forall d :: d in t.states && t.states[d].fetching ==>
             d != s.fetches[f].domain && d in s.states && s.states[d].fetching
    ensures NoneStuck(t)
  {
    forall d | d in t.states && t.states[d].fetching
      ensures Coming(t, d)
    {
      if d !in s.queue {
        var g :| Serves(s, g, d);
        assert Serves(t, g, d);
      }
    }
  }

  /** A fetch that merges clears its domain's flag. */
  lemma MergeUnmarks(e: Entry, o: Fetched, now: int)
    ensures !Merge(e, o, now).fetching
  {
  }

  lemma StuckFinish(s: Svc, f: nat, list: seq<Row>, now: int)
    requires NoneStuck(s) && Enabled(s, Finish(f, list, now))
    ensures NoneStuck(MergeIn(s, f, list, now))
  {
    var d := s.fetches[f].domain;
    if d in s.states { MergeUnmarks(s.states[d], Outcome(s.fetches[f], list), now); }
    StuckLeave(s, MergeIn(s, f, list, now), f);
  }

  // ---- what ValidateKnown vouches for ----

  predicate SoundFetch(f: Fetch) {
    && Honest(f.answers) && |f.answers| <= |f.datasets|
    && (f.pc.InCall? ==> |f.answers| < |f.datasets|)
    && (f.answers != [] || f.pc.InCall? ==> f.connected)
    && (f.pc.Waiting? || f.pc.Holding? ==> f.answers == [])
  }

  predicate SoundEntry(e: Entry, d: string, known: set<(string, string)>) {
    e.err == "" ==> forall i :: 0 <= i < |e.snapshots| ==> (d, e.snapshots[i].id) in known
  }

  ghost predicate Sound(s: Svc) {
    && (forall f :: f in s.fetches ==> SoundFetch(s.fetches[f]))
    && (forall d :: d in s.states ==> SoundEntry(s.states[d], d, s.known))
    && s.vouched <= s.known
    && (forall d :: d in s.cleanAt <==> d in s.states && s.states[d].err == "" && s.states[d].fetchedAt.Some?)
    && (forall d :: d in s.cleanAt ==> s.states[d].fetchedAt == Some(s.cleanAt[d]))
  }

  /** The merged error text is empty exactly when every dataset answered without an error. */
  lemma NoErrorMeansAllAnswered(f: Fetch, list: seq<Row>)
    requires SoundFetch(f)
    ensures Outcome(f, list).msg == "" <==> AllAnswered(f.datasets, f.answers)
  {
    assert |NOT_CONNECTED| > 0;
    CleanMeansAllAnswered(f.answers, f.connected && |f.answers| < |f.datasets|);
  }

  lemma SoundStart(s: Svc, d: string, f: nat)
    requires Sound(s)
    ensures Sound(Start(s, d, f)) && Sound(Touch(s, d))
  {
    assert d in s.states ==> SoundEntry(s.states[d], d, s.known);
    SoundSame(s, d, EntryIn(s.states, d));
    SoundSame(s, d, EntryIn(s.states, d).(fetching := true));
    assert SoundFetch(Idle(d));
  }

  /** Writing a record that differs in its flag only, or a blank one. */
  lemma SoundSame(s: Svc, d: string, e: Entry)
    requires Sound(s) && e.(fetching := false) == EntryIn(s.states, d).(fetching := false)
    ensures Sound(s.(states := s.states[d := e]))
  {
    assert d in s.states ==> SoundEntry(s.states[d], d, s.known);
  }

  lemma SoundCallerStep(s: Svc, e: Event)
    requires Sound(s) && Enabled(s, e) && FromCaller(e)
    ensures Sound(Step(s, e))
  {
    if e.Request? {
      SoundStart(s, e.d, e.f);
    } else {
      if e.Validate? { SoundStart(s, e.d, e.f); }
      SoundVerdict(s, e.d, e.id);
    }
  }

  /** A yes needs an error-free list with the id in it. */
  lemma SoundVerdict(s: Svc, d: string, id: string)
    requires Sound(s)
    ensures EntryIn(s.states, d).err == "" && ContainsID(EntryIn(s.states, d).snapshots, id) ==>
            Sound(s.(vouched := s.vouched + {(d, id)}))
  {
    assert d in s.states ==> SoundEntry(s.states[d], d, s.known);
  }

  lemma SoundRefresh(s: Svc, vms: seq<string>, now: int)
    requires Sound(s)
    ensures Sound(Step(s, RefreshAll(vms, now)))
  {
    var t, k := Step(s, RefreshAll(vms, now)), Known(s, vms);
    QueueUpMarks(k.states, vms, now);
    assert Sound(k);
    forall d | d in t.states
      ensures SoundEntry(t.states[d], d, t.known)
    {
      assert d in k.states ==> SoundEntry(k.states[d], d, k.known);
    }
  }

  lemma HearIsHonest(answers: seq<Answer>, a: Answer)
    requires Honest(answers) && (a.Refused? ==> a.why != "")
    ensures Honest(answers + [a])
  {
  }

  lemma SoundFetchStep(s: Svc, e: Event)
    requires Sound(s) && Enabled(s, e) && !FromCaller(e) && !e.RefreshAll? && !e.Finish?
    ensures Sound(Step(s, e))
  {
    if e.Hear? { HearIsHonest(s.fetches[e.f].answers, e.a); }
  }

  /** Merging keeps an error-free list made of known ids, and a clean fetch always ends error-free. */
  lemma SoundMerge(e: Entry, x: Fetch, list: seq<Row>, now: int, known: set<(string, string)>)
    requires SoundFetch(x) && SoundEntry(e, x.domain, known)
    ensures var e' := Merge(e, Outcome(x, list), now);
            && SoundEntry(e', x.domain, known + if AllAnswered(x.datasets, x.answers) then Ids(list, x.domain) else {})
            && (AllAnswered(x.datasets, x.answers) <==> e'.err == "") && e'.fetchedAt == Some(now)
  {
    NoErrorMeansAllAnswered(x, list);
    assert forall i :: 0 <= i < |list| ==> (x.domain, list[i].id) in Ids(list, x.domain);
  }

  /** Knowing more ids never hurts. */
  lemma SoundMoreKnown(s: Svc, f: nat, more: set<(string, string)>)
    requires Sound(s) && f in s.fetches
    ensures Sound(s.(fetches := s.fetches[f := s.fetches[f].(pc := Leaving)], known := s.known + more))
  {
    var t := s.(fetches := s.fetches[f := s.fetches[f].(pc := Leaving)], known := s.known + more);
    forall d | d in t.states
      ensures SoundEntry(t.states[d], d, t.known)
    {
      assert SoundEntry(s.states[d], d, s.known);
    }
    assert SoundFetch(s.fetches[f]);
  }

  lemma SoundPut(s: Svc, d: string, e: Entry, clean: bool, now: int)
    requires Sound(s) && d in s.states && SoundEntry(e, d, s.known)
    requires (clean <==> e.err == "") && e.fetchedAt == Some(now)
    ensures Sound(s.(states := s.states[d := e], cleanAt := if clean then s.cleanAt[d := now] else s.cleanAt - {d}))
  {
  }

  lemma SoundFinish(s: Svc, f: nat, list: seq<Row>, now: int)
    requires Sound(s) && Enabled(s, Finish(f, list, now))
    ensures Sound(MergeIn(s, f, list, now))
  {
    var x := s.fetches[f];
    var clean := AllAnswered(x.datasets, x.answers);
    var more := if clean then Ids(list, x.domain) else {};
    SoundMoreKnown(s, f, more);
    if x.domain in s.states {
      assert SoundEntry(s.states[x.domain], x.domain, s.known) && SoundFetch(x);
      SoundMerge(s.states[x.domain], x, list, now, s.known);
      SoundPut(s.(fetches := s.fetches[f := x.(pc := Leaving)], known := s.known + more), x.domain,
               Merge(s.states[x.domain], Outcome(x, list), now), clean, now);
    }
  }

  // ---- every run ----

  ghost predicate Inv(s: Svc) {
    OneSlot(s) && NoneStuck(s) && Sound(s)
  }

  lemma StepKeepsInv(s: Svc, e: Event)
    requires Inv(s) && Enabled(s, e)
    ensures Inv(Step(s, e))
  {
    if e.RefreshAll? {
      SlotRefresh(s, e.vms, e.now); StuckRefresh(s, e.vms, e.now); SoundRefresh(s, e.vms, e.now);
    } else if FromCaller(e) {
      SlotCallerStep(s, e); StuckCallerStep(s, e); SoundCallerStep(s, e);
    } else {
      SlotFetchStep(s, e);
      if e.Finish? { SoundFinish(s, e.f, e.list, e.now); } else { SoundFetchStep(s, e); }
      if e.SweepNext? { StuckSweepNext(s, e.f); }
      else if e.Admit? { StuckAdmit(s, e); }
      else if e.Finish? { StuckFinish(s, e.f, e.list, e.now); }
      else { StuckFetchStep(s, e); }
    }
  }

  lemma {:induction false} RunKeepsInv(s: Svc, es: seq<Event>)
    requires Inv(s)
    ensures Inv(Run(s, es))
    decreases |es|
  {
    if es == [] {
    } else {
      if Enabled(s, es[0]) { StepKeepsInv(s, es[0]); }
      RunKeepsInv(if Enabled(s, es[0]) then Step(s, es[0]) else s, es[1..]);
    }
  }

  /** A domain marked fetching always has a fetch that will clear the mark, or waits in the sweep's queue. */
  lemma FetchingNeverSticks(es: seq<Event>, d: string)
    ensures var s := Run(INIT, es);
            d in s.states && s.states[d].fetching ==> Coming(s, d)
  {
    RunKeepsInv(INIT, es);
  }

  /** Middleware queries never overlap, across domains or within one. */
  lemma QueriesNeverOverlap(es: seq<Event>, f: nat, g: nat)
    requires At(Run(INIT, es), f, InCall) && At(Run(INIT, es), g, InCall)
    ensures f == g
  {
    RunKeepsInv(INIT, es);
  }

  /** Somewhere in the run a fetch for `d` in which every dataset answered without an error brought `id` back. */
  ghost predicate Brought(s: Svc, es: seq<Event>, d: string, id: string)
    decreases |es|
  {
    es != [] &&
    (|| (es[0].Finish? && Enabled(s, es[0]) && s.fetches[es[0].f].domain == d && ContainsID(es[0].list, id)
         && AllAnswered(s.fetches[es[0].f].datasets, s.fetches[es[0].f].answers))
     || Brought(if Enabled(s, es[0]) then Step(s, es[0]) else s, es[1..], d, id))
  }

  lemma {:induction false} KnownWasBrought(s: Svc, es: seq<Event>, d: string, id: string)
    requires (d, id) in Run(s, es).known && (d, id) !in s.known
    ensures Brought(s, es, d, id)
    decreases |es|
  {
    var t := if Enabled(s, es[0]) then Step(s, es[0]) else s;
    if (d, id) in t.known {
      assert es[0].Finish? && (d, id) in Ids(es[0].list, s.fetches[es[0].f].domain);
    } else {
      KnownWasBrought(t, es[1..], d, id);
    }
  }

  /**
   `ValidateKnown` says yes only to an id that some fetch for that domain brought back while every zvol dataset
   answered without an error.
   */
  lemma YesMeansKnown(es: seq<Event>, d: string, id: string)
    requires (d, id) in Run(INIT, es).vouched
    ensures Brought(INIT, es, d, id)
  {
    RunKeepsInv(INIT, es);
    KnownWasBrought(INIT, es, d, id);
  }

  /** A list that failed in part or whole never gets a yes: the reader gets an error instead. */
  lemma FailedListsAreRefused(s: Svc, d: string, id: string)
    requires d in s.states && s.states[d].err != ""
    ensures Enabled(s, ReadVerdict(d, id)) ==> Step(s, ReadVerdict(d, id)) == s
    ensures forall f :: f !in s.fetches ==> Step(s, Validate(d, id, f)).vouched == s.vouched
  {
  }

  /** At every moment of the run the domain's record shows an error. */
  ghost predicate FailedThroughout(s: Svc, es: seq<Event>, d: string)
    decreases |es|
  {
    && d in s.states && s.states[d].err != ""
    && (es != [] ==> FailedThroughout(if Enabled(s, es[0]) then Step(s, es[0]) else s, es[1..], d))
  }

  /** As long as a domain's record shows an error, no id of the domain gets a yes, whoever asks and whatever runs. */
  lemma {:induction false} NoYesWhileFailed(s: Svc, es: seq<Event>, d: string, id: string)
    requires FailedThroughout(s, es, d) && (d, id) in Run(s, es).vouched
    ensures (d, id) in s.vouched
    decreases |es|
  {
    if es == [] {
    } else {
      NoYesWhileFailed(if Enabled(s, es[0]) then Step(s, es[0]) else s, es[1..], d, id);
    }
  }

  /** Less than the floor ago a fetch of the domain ended clean, and its record has been there since. */
  predicate Fresh(s: Svc, d: string, now: int) {
    d in s.cleanAt && now - s.cleanAt[d] < FLOOR
  }

  /**
   In every run, a forced request starts a fetch if and only if none is coming and the last clean one is not within the
   floor; an idle sweep queues exactly the known domains of which the same holds.
   */
  lemma FloorHolds(es: seq<Event>, d: string, now: int, f: nat, vms: seq<string>)
    requires f !in Run(INIT, es).fetches
    ensures var s := Run(INIT, es);
            && (f in Step(s, Request(d, true, now, f)).fetches <==>
                !EntryIn(s.states, d).fetching && !Fresh(s, d, now))
            && (!s.sweeping ==>
                (d in Step(s, RefreshAll(vms, now)).queue <==>
                d in vms && !EntryIn(s.states, d).fetching && !Fresh(s, d, now)))
  {
    RunKeepsInv(INIT, es);
    var s := Run(INIT, es);
    QueueUpMarks(Known(s, vms).states, vms, now);
  }

  /** A check that does not get its yes at once has a fetch coming whose end it will read. */
  lemma CheckedIsComing(es: seq<Event>, d: string, id: string, f: nat)
    requires f !in Run(INIT, es).fetches
    ensures var s, t := Run(INIT, es), Step(Run(INIT, es), Validate(d, id, f));
            || (d in s.states && s.states[d].err == "" && ContainsID(s.states[d].snapshots, id) && (d, id) in t.vouched)
            || (d in t.states && t.states[d].fetching && Coming(t, d))
  {
    RunKeepsInv(INIT, es);
    StepKeepsInv(Run(INIT, es), Validate(d, id, f));
  }

  // ---- at most one fetch per domain ----

  /** No sweep drops the record of a domain while it is being fetched. */
  predicate Keeps(s: Svc, e: Event) {
    e.RefreshAll? ==> forall d :: d in s.states && s.states[d].fetching ==> d in e.vms
  }

  ghost predicate NeverDrops(s: Svc, es: seq<Event>)
    decreases |es|
  {
    es != [] ==>
      && Keeps(s, es[0])
      && NeverDrops(if Enabled(s, es[0]) then Step(s, es[0]) else s, es[1..])
  }

  ghost predicate Single(s: Svc) {
    && (forall f, g, d {:trigger Serves(s, f, d), Serves(s, g, d)} :: Serves(s, f, d) && Serves(s, g, d) ==> f == g)
    && (forall f, d {:trigger Serves(s, f, d)} :: Serves(s, f, d) ==>
        d in s.states && s.states[d].fetching && d !in s.queue)
    && (forall d :: d in s.queue ==> d in s.states && s.states[d].fetching)
    && NoRepeats(s.queue)
  }

  lemma SingleStart(s: Svc, d: string, f: nat)
    requires Single(s) && f !in s.fetches && !EntryIn(s.states, d).fetching
    ensures Single(Start(s, d, f))
  {
    var t := Start(s, d, f);
    assert forall g, k :: Serves(t, g, k) ==> (g == f && k == d) || Serves(s, g, k);
  }

  lemma SingleCallerStep(s: Svc, e: Event)
    requires Single(s) && Enabled(s, e) && FromCaller(e)
    ensures Single(Step(s, e))
  {
    var t := Step(s, e);
    if !e.ReadVerdict? && !EntryIn(s.states, e.d).fetching { SingleStart(s, e.d, e.f); }
    if t.fetches == s.fetches {
      assert forall g, k :: Serves(t, g, k) ==> Serves(s, g, k);
    }
  }

  lemma SingleRefresh(s: Svc, vms: seq<string>, now: int)
    requires OneSlot(s) && Single(s) && Keeps(s, RefreshAll(vms, now))
    ensures Single(Step(s, RefreshAll(vms, now)))
  {
    var t, k := Step(s, RefreshAll(vms, now)), Known(s, vms);
    QueueUpMarks(k.states, vms, now);
    assert forall g, d :: Serves(t, g, d) ==> Serves(s, g, d);
    assert forall d :: d in s.states && s.states[d].fetching ==> d in k.states && k.states[d].fetching;
  }

  lemma SingleFetchStep(s: Svc, e: Event)
    requires Single(s) && Enabled(s, e)
    requires e.Lock? || e.Ask? || e.Hear? || e.Unlock? || e.SweepEnd?
    ensures Single(Step(s, e))
  {
    var t := Step(s, e);
    assert forall g, d :: Serves(t, g, d) ==> Serves(s, g, d);
  }

  lemma SingleSweepNext(s: Svc, f: nat)
    requires Single(s) && Enabled(s, SweepNext(f))
    ensures Single(Step(s, SweepNext(f)))
  {
    var t := Step(s, SweepNext(f));
    assert forall g, d :: Serves(t, g, d) ==> (g == f && d == s.queue[0]) || Serves(s, g, d);
  }

  lemma SingleHandOver(s: Svc, e: Event)
    requires Single(s) && Enabled(s, e)
    requires e.Admit? || e.Finish?
    ensures Single(Step(s, e))
  {
    var t := Step(s, e);
    assert Serves(s, e.f, s.fetches[e.f].domain);
    assert forall g, d :: Serves(t, g, d) ==> Serves(s, g, d);
    assert t.queue == s.queue;
  }

  lemma {:induction false} RunKeepsSingle(s: Svc, es: seq<Event>)
    requires Inv(s) && Single(s) && NeverDrops(s, es)
    ensures Single(Run(s, es))
    decreases |es|
  {
    if es == [] {
    } else {
      var e := es[0];
      if Enabled(s, e) {
        StepKeepsInv(s, e);
        if e.RefreshAll? { SingleRefresh(s, e.vms, e.now); }
        else if FromCaller(e) { SingleCallerStep(s, e); }
        else if e.SweepNext? { SingleSweepNext(s, e.f); }
        else if e.Admit? || e.Finish? { SingleHandOver(s, e); }
        else { SingleFetchStep(s, e); }
      }
      RunKeepsSingle(if Enabled(s, e) then Step(s, e) else s, es[1..]);
    }
  }

  /** As long as no sweep drops a domain mid-fetch, a domain has at most one fetch, and only while it is marked. */
  lemma OneFetchPerDomain(es: seq<Event>, f: nat, g: nat, d: string)
    requires NeverDrops(INIT, es)
    requires Serves(Run(INIT, es), f, d) && Serves(Run(INIT, es), g, d)
    ensures f == g && d in Run(INIT, es).states && Run(INIT, es).states[d].fetching
  {
    RunKeepsSingle(INIT, es);
  }

  /**
   A mid-fetch drop always lets a second fetch in: in any state, once a sweep drops a domain that is being fetched, a
   forced request can run at once and leaves both fetches serving the domain.
   */
  lemma DroppedDomainFetchesTwice(s: Svc, f: nat, g: nat, d: string, vms: seq<string>, now: int)
    requires Serves(s, f, d) && d !in vms && g !in s.fetches
    ensures var t := Step(s, RefreshAll(vms, now));
            && Enabled(t, Request(d, true, now, g))
            && Serves(Step(t, Request(d, true, now, g)), f, d) && Serves(Step(t, Request(d, true, now, g)), g, d)
  {
    QueueUpMarks(Known(s, vms).states, vms, now);
  }

  /**
   And nothing else does: in every run without such a drop so far, a sweep followed by a forced request for a domain
   that is being fetched starts a second fetch for it if and only if the sweep drops the domain.
   */
  lemma SecondFetchIffDropped(es: seq<Event>, f: nat, g: nat, d: string, vms: seq<string>, now: int, later: int)
    requires NeverDrops(INIT, es) && Serves(Run(INIT, es), f, d) && g !in Run(INIT, es).fetches
    ensures var t := Step(Run(INIT, es), RefreshAll(vms, now));
            && Enabled(t, Request(d, true, later, g)) && Serves(Step(t, Request(d, true, later, g)), f, d)
            && (Serves(Step(t, Request(d, true, later, g)), g, d) <==> d !in vms)
  {
    var s := Run(INIT, es);
    OneFetchPerDomain(es, f, f, d);
    QueueUpMarks(Known(s, vms).states, vms, now);
  }

  // ---- over a whole run ----

  /** No domain is served by two fetches. */
  ghost predicate NoDoubles(s: Svc) {
    forall f, g, d {:trigger Serves(s, f, d), Serves(s, g, d)} :: Serves(s, f, d) && Serves(s, g, d) ==> f == g
  }

  /** This step starts a fetch for `d`. */
  predicate Starts(s: Svc, e: Event, d: string) {
    match e
    case Request(k, force, now, _) =>
      k == d && force && !EntryIn(s.states, d).fetching && !TooSoon(EntryIn(s.states, d), now)
    case Validate(k, id, _) =>
      var en := EntryIn(s.states, d);
      k == d && !en.fetching && !(en.err == "" && ContainsID(en.snapshots, id))
    case SweepNext(_) => s.queue != [] && s.queue[0] == d
    case _ => false
  }

  /** A start for a domain that an earlier fetch still serves: its mark must have gone with a dropped record. */
  ghost predicate DoubleStart(s: Svc, e: Event) {
    Enabled(s, e) && exists f, d :: Serves(s, f, d) && Starts(s, e, d)
  }

  ghost predicate NeverDoubles(s: Svc, es: seq<Event>)
    decreases |es|
  {
    NoDoubles(s) && (es != [] ==> NeverDoubles(if Enabled(s, es[0]) then Step(s, es[0]) else s, es[1..]))
  }

  ghost predicate NoDoubleStart(s: Svc, es: seq<Event>)
    decreases |es|
  {
    es != [] ==>
      && !DoubleStart(s, es[0])
      && NoDoubleStart(if Enabled(s, es[0]) then Step(s, es[0]) else s, es[1..])
  }

  lemma DoubleStartDoubles(s: Svc, e: Event)
    requires DoubleStart(s, e)
    ensures !NoDoubles(Step(s, e))
  {
    var f, d :| Serves(s, f, d) && Starts(s, e, d);
    assert Serves(Step(s, e), f, d) && Serves(Step(s, e), e.f, d) && f != e.f;
  }

  /** A fetch that serves a domain after a step did so before, or the step started it. */
  lemma ServedBefore(s: Svc, e: Event, f: nat, d: string)
    requires Enabled(s, e) && Serves(Step(s, e), f, d)
    ensures Serves(s, f, d) || (Starts(s, e, d) && (e.Request? || e.Validate? || e.SweepNext?) && e.f == f)
  {
  }

  lemma OtherStepsNeverDouble(s: Svc, e: Event)
    requires NoDoubles(s) && Enabled(s, e) && !DoubleStart(s, e)
    ensures NoDoubles(Step(s, e))
  {
    var t := Step(s, e);
    forall f, g, d | Serves(t, f, d) && Serves(t, g, d)
      ensures f == g
    {
      ServedBefore(s, e, f, d);
      ServedBefore(s, e, g, d);
    }
  }

  lemma {:induction false} DoublesFrom(s: Svc, es: seq<Event>)
    requires NoDoubles(s)
    ensures NeverDoubles(s, es) <==> NoDoubleStart(s, es)
    decreases |es|
  {
    if es == [] {
    } else if DoubleStart(s, es[0]) {
      DoubleStartDoubles(s, es[0]);
    } else {
      if Enabled(s, es[0]) { OtherStepsNeverDouble(s, es[0]); }
      DoublesFrom(if Enabled(s, es[0]) then Step(s, es[0]) else s, es[1..]);
    }
  }

  /**
   Over a whole run no domain ever has two fetches if and only if no request, check or sweep starts one for a domain
   that a fetch still serves.
   */
  lemma OneFetchIff(es: seq<Event>)
    ensures NeverDoubles(INIT, es) <==> NoDoubleStart(INIT, es)
  {
    DoublesFrom(INIT, es);
  }

  /** Such a start needs a sweep that has dropped the domain's record mid-fetch. */
  lemma {:induction false} DoubleStartNeedsDrop(s: Svc, es: seq<Event>)
    requires Inv(s) && Single(s) && NeverDrops(s, es)
    ensures NoDoubleStart(s, es)
    decreases |es|
  {
    if es == [] {
    } else {
      var t := if Enabled(s, es[0]) then Step(s, es[0]) else s;
      assert !DoubleStart(s, es[0]);
      if Enabled(s, es[0]) { StepKeepsInv(s, es[0]); }
      assert NeverDrops(s, [es[0]]) by { assert [es[0]][1..] == []; }
      RunKeepsSingle(s, [es[0]]);
      assert Run(s, [es[0]]) == t by { assert [es[0]][1..] == []; }
      DoubleStartNeedsDrop(t, es[1..]);
    }
  }
}
