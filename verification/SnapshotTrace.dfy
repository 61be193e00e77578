/**
 The calls of one snapshot job, as a shape: a hold, one create per dataset, the matching release. What the shape
 means for the guest is proved for every trace that has it; `Executors` proves that the job's traces have it.
 */
module SnapshotTrace {
  import opened Protocol

  datatype Hold = NoHold | Frozen | Paused

  /** What the poller last said about the guest. */
  datatype Vm = Vm(running: bool, agentOK: bool, disks: seq<string>)

  /** The calls that get the guest held: freeze when the agent answers, pause otherwise or when the freeze fails. */
  function HoldCalls(vm: Vm, freezeOK: bool, pauseOK: bool): seq<Ev> {
    if !vm.running then []
    else if vm.agentOK && freezeOK then [Freeze(true)]
    else (if vm.agentOK then [Freeze(false)] else []) + [Suspend(pauseOK)]
  }

  function HoldOf(vm: Vm, freezeOK: bool): Hold {
    if !vm.running then NoHold else if vm.agentOK && freezeOK then Frozen else Paused
  }

  predicate HoldWorked(vm: Vm, freezeOK: bool, pauseOK: bool) {
    HoldOf(vm, freezeOK).Paused? ==> pauseOK
  }

  function Creates(datasets: seq<string>, name: string, oks: seq<bool>): seq<Ev>
    requires |oks| == |datasets|
  {
    seq(|datasets|, i requires 0 <= i < |datasets| => CreateSnapshot(datasets[i], name, oks[i]))
  }

  /** Thaw is tried twice at most, resume once. */
  predicate Releases(hold: Hold, calls: seq<Ev>, released: bool) {
    match hold
    case NoHold => calls == [] && released
    case Frozen => (calls == [Thaw(true)] && released) || calls == [Thaw(false), Thaw(released)]
    case Paused => calls == [ResumeGuest(released)]
  }

  /** Datasets whose create answered `ok`, in order. */
  function Picked(datasets: seq<string>, oks: seq<bool>, ok: bool): seq<string>
    requires |oks| == |datasets|
  {
    if datasets == [] then []
    else
      var k := |datasets| - 1;
      Picked(datasets[..k], oks[..k], ok) + if oks[k] == ok then [datasets[k]] else []
  }

  lemma {:induction false} PickedPartition(datasets: seq<string>, oks: seq<bool>)
    requires |oks| == |datasets|
    ensures multiset(Picked(datasets, oks, true)) + multiset(Picked(datasets, oks, false)) == multiset(datasets)
    decreases |datasets|
  {
    if datasets == [] {
    } else {
      var k := |datasets| - 1;
      PickedPartition(datasets[..k], oks[..k]);
      var yes, no := Picked(datasets[..k], oks[..k], true), Picked(datasets[..k], oks[..k], false);
      assert datasets == datasets[..k] + [datasets[k]];
      assert Picked(datasets, oks, oks[k]) == (if oks[k] then yes else no) + [datasets[k]];
      assert Picked(datasets, oks, !oks[k]) == if oks[k] then no else yes;
    }
  }

  /** Nothing failed exactly when every create succeeded. */
  lemma {:induction false} NoneFailed(datasets: seq<string>, oks: seq<bool>)
    requires |oks| == |datasets|
    ensures Picked(datasets, oks, false) == [] <==> forall i :: 0 <= i < |oks| ==> oks[i]
    decreases |datasets|
  {
    if datasets == [] {
    } else {
      var k := |datasets| - 1;
      NoneFailed(datasets[..k], oks[..k]);
      assert forall i :: 0 <= i < k ==> oks[..k][i] == oks[i];
      assert Picked(datasets, oks, false) == [] <==> oks[k] && Picked(datasets[..k], oks[..k], false) == [];
    }
  }

  predicate Holding(e: Ev) {
    e == Freeze(true) || e == Suspend(true)
  }

  predicate Letting(e: Ev) {
    e.Thaw? || e.ResumeGuest?
  }

  /** The three parts of a job's calls, with the guest held at the end of the first and let go in the last only. */
  ghost predicate Guarded(hold: seq<Ev>, creates: seq<Ev>, release: seq<Ev>) {
    && hold != [] && Holding(hold[|hold| - 1])
    && (forall i :: 0 <= i < |hold| - 1 ==> hold[i] == Freeze(false))
    && (forall i :: 0 <= i < |creates| ==> creates[i].CreateSnapshot?)
    && release != [] && (forall i :: 0 <= i < |release| ==> Letting(release[i]))
    && (hold[|hold| - 1] == Freeze(true) ==> |release| <= 2 && forall i :: 0 <= i < |release| ==> release[i].Thaw?)
    && (hold[|hold| - 1] == Suspend(true) ==> |release| == 1 && release[0].ResumeGuest?)
  }

  lemma CallsAreGuarded(vm: Vm, freezeOK: bool, pauseOK: bool, datasets: seq<string>, name: string, oks: seq<bool>,
                        release: seq<Ev>, released: bool)
    requires vm.running && HoldWorked(vm, freezeOK, pauseOK) && |oks| == |datasets|
    requires Releases(HoldOf(vm, freezeOK), release, released)
    ensures Guarded(HoldCalls(vm, freezeOK, pauseOK), Creates(datasets, name, oks), release)
  {
  }

  /**
   While a snapshot is being created the guest is held: some earlier call is a freeze or pause that succeeded, it is
   the only one in the whole job, and no thaw or resume comes before the last create. The release matches the hold.
   */
  lemma GuestIsHeld(hold: seq<Ev>, creates: seq<Ev>, release: seq<Ev>, i: nat, k: nat)
    requires Guarded(hold, creates, release)
    requires var t := hold + creates + release; i < |t| && k < |t|
    ensures var t := hold + creates + release;
            && (t[i].CreateSnapshot? ==> |hold| <= i < |hold| + |creates| && Holding(t[|hold| - 1]))
            && (Holding(t[i]) ==> i == |hold| - 1)
            && (t[i].CreateSnapshot? && Letting(t[k]) ==> i < k)
            && Letting(t[|hold| + |creates|])
            && (t[|hold| - 1] == Freeze(true) ==> !t[k].ResumeGuest?)
            && (t[|hold| - 1] == Suspend(true) ==> !t[k].Thaw?)
  {
    var t := hold + creates + release;
    CallAt(hold, creates, release, i);
    CallAt(hold, creates, release, k);
    CallAt(hold, creates, release, |hold| - 1);
    CallAt(hold, creates, release, |hold| + |creates|);
  }

  lemma CallAt(hold: seq<Ev>, creates: seq<Ev>, release: seq<Ev>, i: nat)
    requires i < |hold + creates + release|
    ensures (hold + creates + release)[i] ==
            if i < |hold| then hold[i] else if i < |hold| + |creates| then creates[i - |hold|]
                else release[i - |hold| - |creates|]
  {
  }

  /** `h` holds the guest, `k` lets it go in the same way, and between them there is nothing but creates. */
  predicate HeldBetween(t: seq<Ev>, h: int, k: int) {
    && 0 <= h < k < |t| && Holding(t[h]) && Letting(t[k])
    && (forall m :: h < m < k ==> t[m].CreateSnapshot?)
    && (t[h] == Freeze(true) <==> t[k].Thaw?)
  }

  lemma GuardedIsHeld(before: seq<Ev>, hold: seq<Ev>, creates: seq<Ev>, release: seq<Ev>)
    requires Guarded(hold, creates, release)
    ensures HeldBetween(before + (hold + creates + release), |before| + |hold| - 1, |before| + |hold| + |creates|)
  {
    var t, h, k := before + (hold + creates + release), |before| + |hold| - 1, |before| + |hold| + |creates|;
    assert t[h] == hold[|hold| - 1] && t[k] == release[0];
    forall m | h < m < k
      ensures t[m] == creates[m - |before| - |hold|]
    {
    }
  }
}
