/**
 Everything outside the process: libvirt, the guest agent, the middleware and the clock. Answers are arbitrary; each
 call costs at most what `costs` allows, and the clock never goes back. `trace` records the calls.
 */
module World {
  import opened Basics
  import opened Protocol

  /**
   Upper bounds on time spent: one connect, one libvirt call, one agent call, one sleep, one stretch of our own
   code.
   */
  datatype Costs = Costs(connect: nat, call: nat, agent: nat, nap: nat, slack: nat)

  class Host {
    const costs: Costs
    var now: int
    ghost var trace: seq<Ev>
    /** Whether the last poll had seen the guest's agent, each time it was looked up. */
    ghost var looks: seq<bool>

    constructor (costs: Costs, now: int)
      ensures this.costs == costs && this.now == now && trace == []
    {
      this.costs, this.now, trace, looks := costs, now, [], [];
    }

    method Spend(most: nat)
      modifies this`now
      ensures old(now) <= now <= old(now) + most
    {
      var d: nat :| d <= most;
      now := now + d;
    }

    /** The clock may move while our own code runs. */
    method Now() returns (t: int)
      modifies this`now
      ensures t == now && old(now) <= now <= old(now) + costs.slack
    {
      Spend(costs.slack);
      t := now;
    }

    /** A sleep lasts at least as long as asked. */
    method Sleep(least: nat)
      requires least <= costs.nap
      modifies this`now
      ensures old(now) + least <= now <= old(now) + costs.nap
    {
      Spend(costs.nap - least);
      now := now + least;
    }

    method Connects() returns (ok: bool)
      modifies this
      ensures trace == old(trace) + [Connect(ok)] && old(now) <= now <= old(now) + costs.connect
    {
      ok := *;
      trace := trace + [Connect(ok)];
      Spend(costs.connect);
    }

    method FindDomain() returns (l: Listing)
      modifies this
      ensures trace == old(trace) + [List(l)] && old(now) <= now <= old(now) + costs.call
    {
      l := *;
      trace := trace + [List(l)];
      Spend(costs.call);
    }

    method GetInfo() returns (r: Reading)
      modifies this
      ensures trace == old(trace) + [Info(r)] && old(now) <= now <= old(now) + costs.call
    {
      r := *;
      trace := trace + [Info(r)];
      Spend(costs.call);
    }

    /** What the last poll saw. */
    method AgentSeen() returns (seen: bool)
      modifies this`looks
      ensures looks == old(looks) + [seen]
    {
      seen := *;
      looks := looks + [seen];
    }

    method AgentShuts() returns (r: AgentReply)
      modifies this`trace, this`now
      ensures trace == old(trace) + [AgentShutdown(r)] && old(now) <= now <= old(now) + costs.agent
    {
      r := *;
      trace := trace + [AgentShutdown(r)];
      Spend(costs.agent);
    }

    method AcpiShuts() returns (ok: bool)
      modifies this`trace, this`now
      ensures trace == old(trace) + [Acpi(ok)] && old(now) <= now <= old(now) + costs.call
    {
      ok := *;
      trace := trace + [Acpi(ok)];
      Spend(costs.call);
    }

    method Starts() returns (ok: bool)
      modifies this
      ensures trace == old(trace) + [StartGuest(ok)] && old(now) <= now <= old(now) + costs.call
    {
      ok := *;
      trace := trace + [StartGuest(ok)];
      Spend(costs.call);
    }

    method Suspends() returns (ok: bool)
      modifies this
      ensures trace == old(trace) + [Suspend(ok)] && old(now) <= now
    {
      ok := *;
      trace := trace + [Suspend(ok)];
      Spend(costs.call);
    }

    method Resumes() returns (ok: bool)
      modifies this
      ensures trace == old(trace) + [ResumeGuest(ok)] && old(now) <= now
    {
      ok := *;
      trace := trace + [ResumeGuest(ok)];
      Spend(costs.call);
    }

    method Destroys() returns (ok: bool)
      modifies this
      ensures trace == old(trace) + [Destroy(ok)] && old(now) <= now
    {
      ok := *;
      trace := trace + [Destroy(ok)];
      Spend(costs.call);
    }

    method Freezes() returns (ok: bool)
      modifies this
      ensures trace == old(trace) + [Freeze(ok)] && old(now) <= now
    {
      ok := *;
      trace := trace + [Freeze(ok)];
      Spend(costs.agent);
    }

    method Thaws() returns (ok: bool)
      modifies this
      ensures trace == old(trace) + [Thaw(ok)] && old(now) <= now
    {
      ok := *;
      trace := trace + [Thaw(ok)];
      Spend(costs.agent);
    }

    /** Middleware calls may take as long as they like. */
    method Rollbacks(dataset: string, name: string, recursive: bool) returns (ok: bool)
      modifies this
      ensures trace == old(trace) + [Rollback(dataset, name, recursive, ok)] && old(now) <= now
    {
      ok := *;
      trace := trace + [Rollback(dataset, name, recursive, ok)];
      var most: nat := *;
      Spend(most);
    }

    method Creates(dataset: string, name: string) returns (ok: bool)
      modifies this
      ensures trace == old(trace) + [CreateSnapshot(dataset, name, ok)] && old(now) <= now
    {
      ok := *;
      trace := trace + [CreateSnapshot(dataset, name, ok)];
      var most: nat := *;
      Spend(most);
    }

    method Deletes(dataset: string, name: string) returns (ok: bool)
      modifies this
      ensures trace == old(trace) + [DeleteSnapshot(dataset, name, ok)] && old(now) <= now
    {
      ok := *;
      trace := trace + [DeleteSnapshot(dataset, name, ok)];
      var most: nat := *;
      Spend(most);
    }
  }
}
