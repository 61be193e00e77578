/**
 The fetch of one VM's snapshot list in internal/snapshots/snapshots.go: the query loop, and how its outcome is
 merged.
 */
module SnapshotMerge {
  import opened Basics

  datatype Row = Row(id: string, dataset: string, created: int)

  /** What the middleware says about one dataset. Error texts are not empty. */
  datatype Answer = Rows(rows: seq<Row>) | Refused(why: string)

  const OUT_OF_TIME := "snapshot fetch ran out of time"
  const NOT_CONNECTED := "middleware not connected"

  predicate Honest(answers: seq<Answer>) {
    forall i :: 0 <= i < |answers| && answers[i].Refused? ==> answers[i].why != ""
  }

  function AllRows(answers: seq<Answer>): seq<Row> {
    if answers == [] then []
    else AllRows(answers[..|answers| - 1]) + if answers[|answers| - 1].Rows? then answers[|answers| - 1].rows else []
  }

  /** Nothing is lost or reordered: the rows of one list of answers come whole, right after those of the list before. */
  lemma {:induction false} AllRowsJoin(a: seq<Answer>, b: seq<Answer>)
    ensures AllRows(a + b) == AllRows(a) + AllRows(b)
    decreases |b|
  {
    if b == [] {
      assert a + b == a;
    } else {
      var front, last := b[..|b| - 1], b[|b| - 1];
      assert (a + b)[..|a + b| - 1] == a + front && (a + b)[|a + b| - 1] == last;
      AllRowsJoin(a, front);
    }
  }

  /** A dataset's answer gives exactly its rows, and a refusal gives none. */
  lemma AllRowsOfOne(rows: seq<Row>, why: string)
    ensures AllRows([]) == [] && AllRows([Rows(rows)]) == rows && AllRows([Refused(why)]) == []
  {
    assert [Rows(rows)][..0] == [] && [Refused(why)][..0] == [];
  }

  predicate ContainsID(list: seq<Row>, id: string) {
    exists i :: 0 <= i < |list| && list[i].id == id
  }

  /** Some answer lists the id. */
  predicate Listed(answers: seq<Answer>, id: string) {
    exists i :: 0 <= i < |answers| && answers[i].Rows? && ContainsID(answers[i].rows, id)
  }

  /** The rows have an id if and only if some answer lists it. */
  lemma {:induction false} AllRowsHaveIds(answers: seq<Answer>, id: string)
    ensures ContainsID(AllRows(answers), id) <==> Listed(answers, id)
    decreases |answers|
  {
    if answers == [] {
    } else {
      var front, last := answers[..|answers| - 1], answers[|answers| - 1];
      AllRowsHaveIds(front, id);
      ContainedInJoin(AllRows(front), if last.Rows? then last.rows else [], id);
      assert Listed(answers, id) <==> Listed(front, id) || (last.Rows? && ContainsID(last.rows, id)) by {
        if Listed(front, id) {
          var i :| 0 <= i < |front| && front[i].Rows? && ContainsID(front[i].rows, id);
          assert answers[i] == front[i];
        }
        if Listed(answers, id) {
          var i :| 0 <= i < |answers| && answers[i].Rows? && ContainsID(answers[i].rows, id);
          assert i < |front| ==> answers[i] == front[i];
        }
      }
    }
  }

  lemma ContainedInJoin(a: seq<Row>, b: seq<Row>, id: string)
    ensures ContainsID(a + b, id) <==> ContainsID(a, id) || ContainsID(b, id)
  {
    if i :| 0 <= i < |a| && a[i].id == id { assert (a + b)[i].id == id; }
    if i :| 0 <= i < |b| && b[i].id == id { assert (a + b)[|a| + i].id == id; }
    if i :| 0 <= i < |a + b| && (a + b)[i].id == id { assert if i < |a| then a[i].id == id else b[i - |a|].id == id; }
  }

  /** The first thing that went wrong; `late` when the budget ended the loop. */
  function FirstErr(answers: seq<Answer>, late: bool): string {
    if answers == [] then if late then OUT_OF_TIME else ""
    else if answers[0].Refused? then answers[0].why
    else FirstErr(answers[1..], late)
  }

  /** The text is that of the first refusal; without one it is empty, or says that the budget ended the loop. */
  lemma {:induction false} FirstErrIsFirst(answers: seq<Answer>, late: bool, i: nat)
    requires i <= |answers| && forall k :: 0 <= k < i ==> answers[k].Rows?
    ensures i < |answers| && answers[i].Refused? ==> FirstErr(answers, late) == answers[i].why
    ensures i == |answers| ==> FirstErr(answers, late) == if late then OUT_OF_TIME else ""
  {
    if i > 0 {
      assert answers[0].Rows?;
      assert forall k :: 0 <= k < i - 1 ==> answers[1..][k] == answers[k + 1];
      FirstErrIsFirst(answers[1..], late, i - 1);
    }
  }

  /** Every dataset answered, and without an error. */
  predicate AllAnswered(datasets: seq<string>, answers: seq<Answer>) {
    |answers| == |datasets| && forall i :: 0 <= i < |answers| ==> answers[i].Rows?
  }

  lemma {:induction false} CleanMeansAllAnswered(answers: seq<Answer>, late: bool)
    requires Honest(answers)
    ensures FirstErr(answers, late) == "" <==> !late && forall i :: 0 <= i < |answers| ==> answers[i].Rows?
  {
    if answers == [] {
    } else {
      CleanMeansAllAnswered(answers[1..], late);
      assert (forall i :: 0 <= i < |answers| ==> answers[i].Rows?) <==>
             answers[0].Rows? && forall i :: 0 <= i < |answers[1..]| ==> answers[1..][i].Rows?;
    }
  }

  lemma {:induction false} FirstErrGrows(answers: seq<Answer>, a: Answer)
    requires Honest(answers + [a])
    ensures FirstErr(answers + [a], false) == if FirstErr(answers, false) != "" then FirstErr(answers, false)
                                              else if a.Refused? then a.why else ""
  {
    if answers == [] {
      assert answers + [a] == [a] && [a][1..] == [];
    } else {
      assert (answers + [a])[1..] == answers[1..] + [a];
      assert forall i :: 0 <= i < |answers[1..] + [a]| ==> (answers[1..] + [a])[i] == (answers + [a])[i + 1];
      assert answers[0] == (answers + [a])[0];
      FirstErrGrows(answers[1..], a);
    }
  }

  lemma {:induction false} FirstErrLate(answers: seq<Answer>)
    requires Honest(answers)
    ensures FirstErr(answers, true) == if FirstErr(answers, false) != "" then FirstErr(answers, false) else OUT_OF_TIME
  {
    if answers == [] {
    } else {
      FirstErrLate(answers[1..]);
    }
  }

  /** The query loop: one dataset after the other, going on after an error, stopping when the budget is spent. */
  method QueryAll(datasets: seq<string>) returns (list: seq<Row>, firstErr: string, answers: seq<Answer>)
    ensures |answers| <= |datasets| && Honest(answers)
    ensures list == AllRows(answers) && firstErr == FirstErr(answers, |answers| < |datasets|)
    ensures firstErr == "" <==> AllAnswered(datasets, answers)
  {
    list, firstErr, answers := [], "", [];
    for i := 0 to |datasets|
      invariant |answers| == i && Honest(answers)
      invariant list == AllRows(answers) && firstErr == FirstErr(answers, false)
    {
      var expired: bool := *;
      if expired {
        FirstErrLate(answers);
        CleanMeansAllAnswered(answers, true);
        if firstErr == "" { firstErr := OUT_OF_TIME; }
        return;
      }
      var a: Answer := *;
      if a.Refused? && a.why == "" { a := Refused("error"); }
      ghost var more := answers + [a];
      assert forall k :: 0 <= k < |more| ==> more[k] == if k < i then answers[k] else a;
      FirstErrGrows(answers, a);
      assert (answers + [a])[..i] == answers;
      assert list + [] == list;
      match a {
        case Refused(why) => if firstErr == "" { firstErr := why; }
        case Rows(rows) => list := list + rows;
      }
      answers := answers + [a];
    }
    CleanMeansAllAnswered(answers, false);
  }

  predicate NewestFirst(list: seq<Row>, rows: seq<Row>) {
    multiset(list) == multiset(rows) && forall i, j :: 0 <= i < j < |list| ==> list[i].created >= list[j].created
  }

  function Place(list: seq<Row>, r: Row): seq<Row> {
    if list == [] || r.created >= list[0].created then [r] + list
    else [list[0]] + Place(list[1..], r)
  }

  /** Stands for the library sort: some newest-first order of the rows. */
  function InOrder(rows: seq<Row>): seq<Row> {
    if rows == [] then [] else Place(InOrder(rows[..|rows| - 1]), rows[|rows| - 1])
  }

  lemma {:induction false} PlaceKeepsOrder(list: seq<Row>, r: Row)
    requires forall i, j :: 0 <= i < j < |list| ==> list[i].created >= list[j].created
    ensures multiset(Place(list, r)) == multiset(list) + multiset{r}
    ensures forall i, j :: 0 <= i < j < |Place(list, r)| ==> Place(list, r)[i].created >= Place(list, r)[j].created
    ensures Place(list, r)[0] == r || (list != [] && Place(list, r)[0] == list[0])
  {
    if list != [] && r.created < list[0].created {
      assert list == [list[0]] + list[1..];
      PlaceKeepsOrder(list[1..], r);
    }
  }

  lemma {:induction false} InOrderIsNewestFirst(rows: seq<Row>)
    ensures NewestFirst(InOrder(rows), rows)
    decreases |rows|
  {
    if rows == [] {
    } else {
      InOrderIsNewestFirst(rows[..|rows| - 1]);
      PlaceKeepsOrder(InOrder(rows[..|rows| - 1]), rows[|rows| - 1]);
      assert rows == rows[..|rows| - 1] + [rows[|rows| - 1]];
    }
  }

  /** What one fetch brings back. `datasets` counts the VM's zvol disks. */
  datatype Fetched = Fetched(datasets: nat, list: seq<Row>, msg: string)

  /** The text the panel shows: a dead connection's own reason comes before what the queries report. */
  function Message(datasets: nat, connected: bool, statusErr: string, firstErr: string): string {
    if connected || datasets == 0 then firstErr
    else if statusErr != "" then statusErr
    else if firstErr == "" then NOT_CONNECTED
    else firstErr
  }

  /** With the middleware away the panel never shows a blank error, and the connection's own reason if it has one. */
  lemma MessageNamesTheReason(datasets: nat, statusErr: string, firstErr: string)
    ensures Message(datasets, true, statusErr, firstErr) == firstErr
    ensures datasets > 0 && statusErr != "" ==> Message(datasets, false, statusErr, firstErr) == statusErr
    ensures datasets > 0 ==> Message(datasets, false, statusErr, firstErr) != ""
    ensures datasets > 0 && statusErr == "" && firstErr != "" ==>
              Message(datasets, false, statusErr, firstErr) == firstErr
  {
    assert |NOT_CONNECTED| > 0;
  }

  /** One VM's record. */
  datatype Entry = Entry(snapshots: seq<Row>, fetchedAt: Option<int>, err: string, stale: bool, fetching: bool)

  const BLANK := Entry([], None, "", false, false)

  /** The last critical section of `fetch`. */
  function Merge(e: Entry, o: Fetched, now: int): Entry {
    var e1 := e.(fetchedAt := Some(now), fetching := false);
    if o.datasets == 0 then e1.(snapshots := [], err := "", stale := false)
    else if o.msg == "" then e1.(snapshots := o.list, err := "", stale := false)
    else if o.list != [] then e1.(snapshots := o.list, err := o.msg, stale := false)
    else if e.snapshots != [] then e1.(err := o.msg, stale := true)
    else e1.(snapshots := [], err := o.msg, stale := false)
  }

  predicate TotalFailure(o: Fetched) {
    o.datasets > 0 && o.msg != "" && o.list == []
  }

  function MergeAll(os: seq<Fetched>): Entry {
    if os == [] then BLANK
    else Merge(MergeAll(os[..|os| - 1]), os[|os| - 1], |os|)
  }

  /** Outcome `k` is the last that was not a total failure. */
  ghost predicate LastGood(os: seq<Fetched>, k: int) {
    0 <= k < |os| && !TotalFailure(os[k]) && forall j :: k < j < |os| ==> TotalFailure(os[j])
  }

  function RowsOf(o: Fetched): seq<Row> {
    if o.datasets == 0 then [] else o.list
  }

  lemma LastGoodStays(os: seq<Fetched>, k: int)
    requires os != [] && TotalFailure(os[|os| - 1])
    ensures LastGood(os, k) <==> LastGood(os[..|os| - 1], k)
  {
    if LastGood(os[..|os| - 1], k) {
      assert forall j :: k < j < |os| - 1 ==> os[j] == os[..|os| - 1][j];
    }
    if LastGood(os, k) {
      assert os[k] == os[..|os| - 1][k];
    }
  }

  /**
   Over any sequence of outcomes the held list is that of the last outcome that was not a total failure, wherever
   that is.
   */
  lemma {:induction false} HiccupsKeepTheList(os: seq<Fetched>, k: int)
    ensures LastGood(os, k) ==> MergeAll(os).snapshots == RowsOf(os[k])
    ensures (forall i :: 0 <= i < |os| ==> TotalFailure(os[i])) ==> MergeAll(os).snapshots == []
    decreases |os|
  {
    if os == [] {
    } else {
      HiccupsKeepTheList(os[..|os| - 1], k);
      if TotalFailure(os[|os| - 1]) {
        LastGoodStays(os, k);
      } else if LastGood(os, k) {
        assert k == |os| - 1;
      }
    }
  }

  /**
   Stale means the last outcome was a total failure and there is an older list to show; a stale list always has an
   error.
   */
  lemma StaleMeansOld(os: seq<Fetched>)
    ensures MergeAll(os).stale <==> os != [] && TotalFailure(os[|os| - 1]) && MergeAll(os).snapshots != []
    ensures MergeAll(os).err != "" <==> os != [] && os[|os| - 1].datasets > 0 && os[|os| - 1].msg != ""
    ensures MergeAll(os).stale ==> MergeAll(os).err != ""
    ensures os != [] && os[|os| - 1].datasets > 0 ==> MergeAll(os).err == os[|os| - 1].msg
  {
  }
}
