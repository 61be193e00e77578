/**
 What a destructive job may do to the outside world, as an automaton over external calls, and what that means
 for every trace it allows. The executors of internal/actions/actions.go are proved to follow it in `Executors`.
 */
module Protocol {
  import opened SnapshotId

  /** What `DomainGetInfo` can say. */
  datatype Reading = Off | On | Unreadable

  /** What guest-shutdown can say. The agent disappearing is the usual success. */
  datatype AgentReply = Accepted | Disappeared | Refused

  datatype Listing = Found | Missing | ListError

  /** External calls with their answers. */
  datatype Ev =
    | Connect(ok: bool)
    | List(listing: Listing)
    | Info(reading: Reading)
    | AgentShutdown(reply: AgentReply)
    | Acpi(ok: bool)
    | Rollback(dataset: string, name: string, recursive: bool, ok: bool)
    | StartGuest(ok: bool)
    | Suspend(ok: bool)
    | ResumeGuest(ok: bool)
    | Destroy(ok: bool)
    | Freeze(ok: bool)
    | Thaw(ok: bool)
    | CreateSnapshot(dataset: string, name: string, ok: bool)
    | DeleteSnapshot(dataset: string, name: string, ok: bool)

  datatype Plan =
    | StagedRestore(snapshot: string, ack: bool, startAfter: bool)
    | DirectRestore(snapshot: string, ack: bool)
    | Rebooting

  /**
   `Ready`: nothing stands between the job and its point of no return. `Watching(on)`: waiting for the guest to
   stop, `on` when the last call was a reading that said it still runs. `Falling`: the agent refused, ACPI is next.
   */
  datatype Phase =
    | Unconnected | Unreached | Unlisted | Fresh | Stopping | Falling(resend: bool) | Watching(on: bool)
    | Ready | RolledBack | Over(success: bool) | Broken

  function FirstPhase(plan: Plan): Phase {
    match plan
    case StagedRestore(_, _, _) => Fresh
    case DirectRestore(_, _) => Ready
    case Rebooting => Stopping
  }

  function Asked(reply: AgentReply, resend: bool): Phase {
    if reply.Refused? then Falling(resend) else Watching(false)
  }

  function Next(plan: Plan, p: Phase, e: Ev): Phase {
    match (p, e)
    case (Unconnected, Connect(ok)) => if ok then Unlisted else Unreached
    case (Unlisted, List(l)) => if l.Found? then FirstPhase(plan) else Over(false)
    case (Fresh, Info(r)) => if r.Off? then Ready else if r.On? then Stopping else Over(false)
    case (Stopping, AgentShutdown(reply)) => Asked(reply, false)
    case (Stopping, Acpi(ok)) => if ok then Watching(false) else Over(false)
    case (Falling(resend), Acpi(ok)) => if ok || resend then Watching(false) else Over(false)
    case (Watching(_), Info(r)) => if r.Off? then Ready else if r.On? then Watching(true) else Over(false)
    case (Watching(true), AgentShutdown(reply)) => Asked(reply, true)
    case (Watching(true), Acpi(_)) => Watching(false)
    case (Ready, Rollback(d, n, recursive, ok)) =>
      if plan.Rebooting? || Rebuilt(d, n) != plan.snapshot || recursive != plan.ack then Broken
      else if !ok then Over(false)
      else if plan.StagedRestore? && plan.startAfter then RolledBack
      else Over(true)
    case (Ready, StartGuest(ok)) => if plan.Rebooting? then Over(ok) else Broken
    case (RolledBack, StartGuest(ok)) => Over(ok)
    case _ => Broken
  }

  function Follow(plan: Plan, t: seq<Ev>): Phase {
    if t == [] then Unconnected
    else Next(plan, Follow(plan, t[..|t| - 1]), t[|t| - 1])
  }

  predicate Allowed(plan: Plan, t: seq<Ev>) {
    !Follow(plan, t).Broken?
  }

  /** Calls made in two parts. */
  lemma Joined(before: seq<Ev>, first: seq<Ev>, second: seq<Ev>)
    ensures before + first + second == before + (first + second)
  {
  }

  lemma FollowOne(plan: Plan, t: seq<Ev>, e: Ev)
    ensures Follow(plan, t + [e]) == Next(plan, Follow(plan, t), e)
  {
    assert (t + [e])[..|t|] == t;
  }

  /** Every prefix of an allowed trace is allowed. */
  lemma {:induction false} PrefixAllowed(plan: Plan, t: seq<Ev>, k: nat)
    requires Allowed(plan, t) && k <= |t|
    ensures Allowed(plan, t[..k])
    decreases |t| - k
  {
    if k < |t| {
      PrefixAllowed(plan, t, k + 1);
      assert t[..k + 1][..k] == t[..k];
    } else {
      assert t[..k] == t;
    }
  }

  lemma NextGoesOn(plan: Plan, p: Phase, e: Ev)
    ensures !Next(plan, p, e).Unconnected?
    ensures Next(plan, p, e).Unreached? ==> p.Unconnected? && e == Connect(false)
    ensures p.Unreached? ==> Next(plan, p, e).Broken?
    ensures p.Unconnected? && !Next(plan, p, e).Broken? ==> e.Connect?
  {
  }

  /** An allowed trace begins with a connect, and goes on only if that succeeded. */
  lemma ConnectsFirst(plan: Plan, t: seq<Ev>)
    requires Allowed(plan, t) && t != []
    ensures t[0].Connect? && if t[0].ok then !Follow(plan, t).Unreached? else t == [Connect(false)]
  {
    var k := |t| - 1;
    StepAt(plan, t, 0);
    NextGoesOn(plan, Unconnected, t[0]);
    if k > 0 {
      StepAt(plan, t, 1);
      NextGoesOn(plan, Follow(plan, t[..1]), t[1]);
      NextGoesOn(plan, Follow(plan, t[..k - 1]), t[k - 1]);
      StepAt(plan, t, k - 1);
      NextGoesOn(plan, Follow(plan, t[..k]), t[k]);
    }
  }

  lemma StepAt(plan: Plan, t: seq<Ev>, i: nat)
    requires Allowed(plan, t) && i < |t|
    ensures Follow(plan, t[..i + 1]) == Next(plan, Follow(plan, t[..i]), t[i])
    ensures Allowed(plan, t[..i]) && Allowed(plan, t[..i + 1])
  {
    PrefixAllowed(plan, t, i);
    PrefixAllowed(plan, t, i + 1);
    assert t[..i + 1][..i] == t[..i];
  }

  /**
   How a trace gets ready: the last call was a reading that said the guest is off (or the job is a direct rollback).
   */
  lemma ReadyMeansOff(plan: Plan, t: seq<Ev>, i: nat)
    requires Allowed(plan, t) && i < |t| && Follow(plan, t[..i]).Ready?
    ensures i > 0
    ensures !plan.DirectRestore? ==> t[i - 1] == Info(Off)
  {
    assert i > 0;
    StepAt(plan, t, i - 1);
    assert t[..i] == t[..i - 1 + 1];
  }

  /**
   A staged restore calls rollback only when the call just before it was a reading that said shut off; every
   rollback names exactly the job's snapshot, with recursive equal to the operator's acknowledgement.
   */
  lemma RollbackNeedsOff(plan: Plan, t: seq<Ev>, i: nat)
    requires Allowed(plan, t) && i < |t| && t[i].Rollback?
    ensures !plan.Rebooting? && Rebuilt(t[i].dataset, t[i].name) == plan.snapshot && t[i].recursive == plan.ack
    ensures i > 0 && (plan.StagedRestore? ==> t[i - 1] == Info(Off))
  {
    StepAt(plan, t, i);
    ReadyMeansOff(plan, t, i);
  }

  /**
   A guest is asked to stop only when it runs: in a restore the call just before was a reading that said so, or the
   agent's refusal; a direct restore never asks.
   */
  lemma StopNeedsOn(plan: Plan, t: seq<Ev>, i: nat)
    requires Allowed(plan, t) && i < |t| && (t[i].AgentShutdown? || t[i].Acpi?)
    ensures !plan.DirectRestore? && i > 0
    ensures t[i - 1] == Info(On) || (t[i].Acpi? && t[i - 1] == AgentShutdown(AgentReply.Refused))
            || (plan.Rebooting? && t[i - 1] == List(Found))
  {
    StepAt(plan, t, i);
    assert i > 0;
    StepAt(plan, t, i - 1);
    assert t[..i] == t[..i - 1 + 1];
    if plan.DirectRestore? { NeverStops(plan, t, i); }
  }

  /** A direct restore is never waiting for its guest to stop. */
  lemma {:induction false} NeverStops(plan: Plan, t: seq<Ev>, i: nat)
    requires Allowed(plan, t) && i <= |t| && plan.DirectRestore?
    ensures var p := Follow(plan, t[..i]); !p.Fresh? && !p.Stopping? && !p.Falling? && !p.Watching?
    decreases i
  {
    if i == 0 {
    } else {
      NeverStops(plan, t, i - 1);
      StepAt(plan, t, i - 1);
      assert t[..i] == t[..i - 1 + 1];
    }
  }

  predicate Past(p: Phase) {
    p.RolledBack? || p.Over?
  }

  lemma {:induction false} PastStaysPast(plan: Plan, t: seq<Ev>, i: nat, k: nat)
    requires Allowed(plan, t) && i <= k <= |t| && Past(Follow(plan, t[..i]))
    ensures Past(Follow(plan, t[..k]))
    decreases k
  {
    if i < k {
      PastStaysPast(plan, t, i, k - 1);
      StepAt(plan, t, k - 1);
      assert t[..k] == t[..k - 1 + 1];
    }
  }

  lemma RollbackOnlyFromReady(plan: Plan, p: Phase, e: Ev)
    requires e.Rollback? && !Next(plan, p, e).Broken?
    ensures p.Ready? && Past(Next(plan, p, e))
  {
  }

  lemma RollbackAtMostOnce(plan: Plan, t: seq<Ev>, i: nat, k: nat)
    requires Allowed(plan, t) && i < |t| && k < |t| && t[i].Rollback? && t[k].Rollback?
    ensures i == k
  {
    var a, b := if i < k then i else k, if i < k then k else i;
    if a < b {
      StepAt(plan, t, a);
      RollbackOnlyFromReady(plan, Follow(plan, t[..a]), t[a]);
      PastStaysPast(plan, t, a + 1, b);
      StepAt(plan, t, b);
      RollbackOnlyFromReady(plan, Follow(plan, t[..b]), t[b]);
    }
  }

  /**
   A restore starts the guest only if it was asked to and the call just before was its own rollback, answered with
   success. A reboot starts it only on a reading that said shut off.
   */
  lemma StartNeedsRollback(plan: Plan, t: seq<Ev>, i: nat)
    requires Allowed(plan, t) && i < |t| && t[i].StartGuest?
    ensures i > 0 && !plan.DirectRestore?
    ensures plan.StagedRestore? ==> plan.startAfter && t[i - 1].Rollback? && t[i - 1].ok
    ensures plan.Rebooting? ==> t[i - 1] == Info(Off)
  {
    StepAt(plan, t, i);
    if plan.Rebooting? {
      ReadyMeansOff(plan, t, i);
    } else {
      assert i > 0;
      StepAt(plan, t, i - 1);
      assert t[..i] == t[..i - 1 + 1];
    }
  }

  /** The call a plan works towards, answered with success: the start if there is to be one, else the rollback. */
  predicate Achieves(plan: Plan, e: Ev) {
    if plan.Rebooting? || (plan.StagedRestore? && plan.startAfter) then e == StartGuest(true) else e.Rollback? && e.ok
  }

  /** A job ends well if and only if its last call was the one its plan works towards, answered with success. */
  lemma HowItEnds(plan: Plan, t: seq<Ev>)
    ensures Follow(plan, t) == Over(true) <==> Allowed(plan, t) && t != [] && Achieves(plan, t[|t| - 1])
  {
  }

  /** An answer after which a job cannot go on. */
  predicate Fatal(e: Ev) {
    || (e.List? && !e.listing.Found?) || e == Info(Unreadable) || e == Acpi(false)
    || (e.Rollback? && !e.ok) || e == StartGuest(false)
  }

  /**
   A job gives up only on a fatal answer to its last call, or, while waiting for the guest to stop, on a reading that
   says it still runs.
   */
  lemma GivesUpForCause(plan: Plan, t: seq<Ev>)
    ensures Follow(plan, t) == Over(false) ==> t != [] && Fatal(t[|t| - 1])
    ensures Follow(plan, t) == Watching(true) ==> t != [] && t[|t| - 1] == Info(On)
  {
  }
}
