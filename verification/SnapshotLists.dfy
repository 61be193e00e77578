/**
 What one VM's record shows, over every run of the snapshot service: the rows of the last fetch that did not fail
 totally, newest first, and whether they are stale.
 */
module SnapshotLists {
  import opened Basics
  import opened SnapshotMerge
  import opened SnapshotService

  /**
   History of one domain's record since it was made: the answers to its last fetch that did not fail totally, whether
   its last fetch did, whether every dataset answered it without an error, and whether there was one at all.
   */
  datatype Memory = Memory(answers: seq<Answer>, failed: bool, clean: bool, fetched: bool)

  const NOTHING := Memory([], false, false, false)

  /** What the end of fetch `x` makes of it. */
  function Learn(x: Fetch, list: seq<Row>, m: Memory): Memory {
    if TotalFailure(Outcome(x, list)) then Memory(m.answers, true, false, true)
    else Memory(x.answers, false, AllAnswered(x.datasets, x.answers), true)
  }

  /** A record that is dropped forgets everything; otherwise only the end of one of its own fetches counts. */
  function Remember(s: Svc, e: Event, d: string, m: Memory): Memory
    requires Enabled(s, e)
  {
    if d !in Step(s, e).states then NOTHING
    else if !(e.Finish? && s.fetches[e.f].domain == d && d in s.states) then m
    else Learn(s.fetches[e.f], e.list, m)
  }

  function Recall(s: Svc, es: seq<Event>, d: string, m: Memory): Memory
    decreases |es|
  {
    if es == [] then m
    else if Enabled(s, es[0]) then Recall(Step(s, es[0]), es[1..], d, Remember(s, es[0], d, m))
    else Recall(s, es[1..], d, m)
  }

  predicate Matches(e: Entry, m: Memory) {
    && NewestFirst(e.snapshots, AllRows(m.answers))
    && (e.stale <==> m.failed && e.snapshots != [])
    && (e.stale ==> e.err != "")
    && (e.fetchedAt.Some? <==> m.fetched)
    && (if m.fetched then e.err == "" <==> m.clean else e.err == "" && m.answers == [])
  }

  ghost predicate Tells(s: Svc, d: string, m: Memory) {
    if d in s.states then Matches(s.states[d], m) else m == NOTHING
  }

  lemma EmptyTogether(list: seq<Row>, rows: seq<Row>)
    requires multiset(list) == multiset(rows)
    ensures list == [] <==> rows == []
  {
    assert |multiset(list)| == |list| && |multiset(rows)| == |rows|;
  }

  /** Merging keeps a total failure from touching the list, and replaces the list by any other outcome's rows. */
  lemma MergeMatches(e: Entry, x: Fetch, list: seq<Row>, now: int, m: Memory)
    requires Matches(e, m) && SoundFetch(x) && NewestFirst(list, AllRows(x.answers))
    ensures Matches(Merge(e, Outcome(x, list), now), Learn(x, list, m))
  {
    NoErrorMeansAllAnswered(x, list);
    EmptyTogether(list, AllRows(x.answers));
  }

  lemma MarkingMatches(e: Entry, m: Memory)
    requires Matches(e, m)
    ensures Matches(e.(fetching := true), m)
  {
  }

  /** A sweep drops a record, leaves it, marks it or makes a new one. */
  lemma RefreshedEntry(s: Svc, vms: seq<string>, now: int, d: string)
    requires d in Step(s, RefreshAll(vms, now)).states
    ensures Step(s, RefreshAll(vms, now)).states[d] in
              [EntryIn(s.states, d), EntryIn(s.states, d).(fetching := true), BLANK.(fetching := true)]
    ensures d in s.states ==>
              Step(s, RefreshAll(vms, now)).states[d] in [s.states[d], s.states[d].(fetching := true)]
  {
    QueueUpMarks(Known(s, vms).states, vms, now);
    assert d !in Known(s, vms).states ==> d !in s.states || d !in vms;
  }

  lemma RefreshTells(s: Svc, vms: seq<string>, now: int, d: string, m: Memory)
    requires Tells(s, d, m)
    ensures Tells(Step(s, RefreshAll(vms, now)), d, Remember(s, RefreshAll(vms, now), d, m))
  {
    if d in Step(s, RefreshAll(vms, now)).states {
      RefreshedEntry(s, vms, now, d);
      if d in s.states { MarkingMatches(s.states[d], m); }
    }
  }

  /** Callers only mark records and make new, empty ones. */
  lemma StartTells(s: Svc, k: string, f: nat, d: string, m: Memory)
    requires Tells(s, d, m)
    ensures d in Start(s, k, f).states ==> Matches(Start(s, k, f).states[d], m)
    ensures d in Touch(s, k).states ==> Matches(Touch(s, k).states[d], m)
    ensures d !in s.states ==> m == NOTHING
  {
  }

  lemma CallerStepTells(s: Svc, e: Event, d: string, m: Memory)
    requires Enabled(s, e) && FromCaller(e) && Tells(s, d, m)
    ensures Tells(Step(s, e), d, Remember(s, e, d, m))
  {
    if e.Request? || e.Validate? { StartTells(s, e.d, e.f, d, m); }
    CallerEffect(s, e);
  }

  lemma CallerEffect(s: Svc, e: Event)
    requires Enabled(s, e) && FromCaller(e)
    ensures Step(s, e).states == s.states
            || (!e.ReadVerdict? && Step(s, e).states in [Start(s, e.d, e.f).states, Touch(s, e.d).states])
  {
  }

  lemma FetchStepTells(s: Svc, e: Event, d: string, m: Memory)
    requires Enabled(s, e) && !FromCaller(e) && !e.RefreshAll? && Tells(s, d, m)
    requires forall f :: f in s.fetches ==> SoundFetch(s.fetches[f])
    ensures Tells(Step(s, e), d, Remember(s, e, d, m))
  {
    if e.Finish? && s.fetches[e.f].domain == d && d in s.states {
      MergeMatches(s.states[d], s.fetches[e.f], e.list, e.now, m);
    }
  }

  lemma {:induction false} RunTells(s: Svc, es: seq<Event>, d: string, m: Memory)
    requires Inv(s) && Tells(s, d, m)
    ensures Tells(Run(s, es), d, Recall(s, es, d, m))
    decreases |es|
  {
    if es == [] {
    } else if Enabled(s, es[0]) {
      var e := es[0];
      if e.RefreshAll? {
        RefreshTells(s, e.vms, e.now, d, m);
      } else if FromCaller(e) {
        CallerStepTells(s, e, d, m);
      } else {
        FetchStepTells(s, e, d, m);
      }
      StepKeepsInv(s, e);
      RunTells(Step(s, e), es[1..], d, Remember(s, e, d, m));
    } else {
      RunTells(s, es[1..], d, m);
    }
  }

  lemma SameIds(list: seq<Row>, rows: seq<Row>, id: string)
    requires multiset(list) == multiset(rows)
    ensures ContainsID(list, id) <==> ContainsID(rows, id)
  {
    if i :| 0 <= i < |list| && list[i].id == id { assert list[i] in multiset(rows); }
    if i :| 0 <= i < |rows| && rows[i].id == id { assert rows[i] in multiset(list); }
  }

  /**
   In every run a domain's record holds a newest-first order of the rows of its last fetch that did not fail totally
   (none if there was none): an id is in it exactly when some dataset's answer to that fetch lists it. It is stale
   exactly when its last fetch failed totally and there are such rows.
   */
  lemma HeldListIsLastGood(es: seq<Event>, d: string, id: string)
    requires d in Run(INIT, es).states
    ensures var e, m := Run(INIT, es).states[d], Recall(INIT, es, d, NOTHING);
            && NewestFirst(e.snapshots, AllRows(m.answers))
            && (ContainsID(e.snapshots, id) <==> Listed(m.answers, id))
            && (e.stale <==> m.failed && e.snapshots != [])
            && (e.stale ==> e.err != "")
  {
    RunTells(INIT, es, d, NOTHING);
    var m := Recall(INIT, es, d, NOTHING);
    SameIds(Run(INIT, es).states[d].snapshots, AllRows(m.answers), id);
    AllRowsHaveIds(m.answers, id);
  }

  /**
   In every run a reader gets a yes if and only if the last fetch on the domain's record got an error-free answer for
   every dataset and one of them lists the id.
   */
  lemma YesIffListed(es: seq<Event>, d: string, id: string)
    requires Enabled(Run(INIT, es), ReadVerdict(d, id)) && (d, id) !in Run(INIT, es).vouched
    ensures var s, m := Run(INIT, es), Recall(INIT, es, d, NOTHING);
            (d, id) in Step(s, ReadVerdict(d, id)).vouched <==> m.fetched && m.clean && Listed(m.answers, id)
  {
    RunTells(INIT, es, d, NOTHING);
    HeldListIsLastGood(es, d, id);
  }

  /** The domain's last fetch on this record got an error-free answer for every dataset, and none of them lists `id`. */
  predicate KnownAbsent(m: Memory, id: string) {
    m.fetched && m.clean && !Listed(m.answers, id)
  }

  /**
   In every run, a reader that gets a no from a record can rely on it (a fetch of that very domain ended clean and
   without the id, and none has ended since) if and only if some fetch has ended on the record since it was made.
   */
  lemma NoIsBackedIff(es: seq<Event>, d: string, id: string)
    requires var s := Run(INIT, es);
             Enabled(s, ReadVerdict(d, id)) && s.states[d].err == "" && !ContainsID(s.states[d].snapshots, id)
    ensures var m := Recall(INIT, es, d, NOTHING);
            && (KnownAbsent(m, id) <==> Run(INIT, es).states[d].fetchedAt.Some?)
            && (KnownAbsent(m, id) <==> m.fetched)
  {
    RunTells(INIT, es, d, NOTHING);
    HeldListIsLastGood(es, d, id);
  }

  /**
   The unbacked no happens: a check makes a record and starts a fetch, a sweep drops the record, a read makes a new one,
   and the check reads its no there before the fetch has even begun.
   */
  lemma BlankRecordSaysNo(d: string, id: string)
    ensures var s := Run(INIT, [Validate(d, id, 0), RefreshAll([], 0), Request(d, false, 0, 1)]);
            && Enabled(s, ReadVerdict(d, id)) && s.states[d].err == "" && !ContainsID(s.states[d].snapshots, id)
            && s.states[d].fetchedAt == None && At(s, 0, Waiting) && s.known == {}
  {
    var e1, e2, e3 := Validate(d, id, 0), RefreshAll([], 0), Request(d, false, 0, 1);
    assert [e1, e2, e3][1..] == [e2, e3] && [e2, e3][1..] == [e3] && [e3][1..] == [];
    var s1 := Step(INIT, e1);
    var s2 := Step(s1, e2);
    assert d !in s2.states && 1 !in s2.fetches;
    assert Run(s2, [e3]) == Step(s2, e3);
  }
}
