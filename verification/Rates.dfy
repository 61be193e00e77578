/** The byte-counter differencing of internal/libvirtsrc/source.go: one table keyed by domain, NUL and device. */
module Rates {
  import opened Basics

  /** Nanoseconds in a second: readings are stamped in nanoseconds, rates are bytes per second. */
  const NS := 1_000_000_000

  // ---- composite keys ----

  /** A domain name as libvirt hands it over: a C string, so free of NUL. Device names need no such promise. */
  type Name = s: string | '\0' !in s witness ""

  function Key(domain: string, dev: string): string {
    domain + ['\0'] + dev
  }

  /** One domain's prefix opens that domain's keys and no other's, and a key tells its domain and device apart. */
  lemma KeysKeepPairs(d: Name, dev: string, e: Name, other: string)
    ensures e + ['\0'] <= Key(d, dev) <==> d == e
    ensures Key(d, dev) == Key(e, other) <==> d == e && dev == other
  {
    var k, p := Key(d, dev), e + ['\0'];
    assert k[|d|] == '\0' && k[..|d|] == d && k[|d| + 1..] == dev;
    assert Key(e, other)[|e|] == '\0' && Key(e, other)[..|e|] == e && Key(e, other)[|e| + 1..] == other;
    if p <= k || k == Key(e, other) {
      assert k[|e|] == '\0' && k[..|e|] == e;
    }
    if d == e { assert k[..|p|] == p; }
  }

  /** Without that promise the table would confuse two disks. */
  lemma KeysCollideOnNul()
    ensures Key("a\0b", "c") == Key("a", "b\0c")
  {
  }

  // ---- one device over its polls ----

  /** Bytes read and written by a disk, or received and sent by a network card. */
  datatype Pair = Pair(first: int, second: int) {
    function Lane(second: bool): int {
      if second then this.second else first
    }
  }

  datatype Reply = Failed | Counters(counts: Pair)
  datatype Sample = Sample(counts: Pair, at: int)
  datatype Event = Poll(domain: Name, dev: string, at: int, reply: Reply) | Forget(domain: Name)

  /** Whole bytes per second between two readings; None when no time passed or the counter went backwards. */
  function BytesPerSecond(prev: int, cur: int, elapsed: int): (rate: Option<nat>)
    ensures rate.Some? <==> elapsed > 0 && prev <= cur
    ensures rate.Some? ==> rate.value * elapsed <= (cur - prev) * NS < (rate.value + 1) * elapsed
  {
    if elapsed <= 0 || cur < prev then None
    else
      var moved := (cur - prev) * NS;
      assert moved == elapsed * (moved / elapsed) + moved % elapsed;
      Some(moved / elapsed)
  }

  predicate Good(r: Reply) {
    r.Counters? && r.counts.first >= 0 && r.counts.second >= 0
  }

  predicate Polls(e: Event, d: Name, dev: string) {
    e.Poll? && e.domain == d && e.dev == dev
  }

  /** The events come newest first; the sample held for a device after them. */
  function Held(log: seq<Event>, d: Name, dev: string): Option<Sample> {
    if log == [] then None
    else if log[0] == Forget(d) then None
    else if !Polls(log[0], d, dev) || log[0].reply.Failed? then Held(log[1..], d, dev)
    else if Good(log[0].reply) then Some(Sample(log[0].reply.counts, log[0].at))
    else None
  }

  /** The rate one poll reports for one of its two counters. */
  function Rate(held: Option<Sample>, at: int, reply: Reply, lane: bool): Option<nat> {
    if held.Some? && Good(reply)
    then BytesPerSecond(held.value.counts.Lane(lane), reply.counts.Lane(lane), at - held.value.at)
    else None
  }

  /** What all reported rates amount to, each over its own interval: byte-nanoseconds per second. */
  function Implied(log: seq<Event>, d: Name, dev: string, lane: bool): (total: int) {
    if log == [] then 0
    else
      var rest := Implied(log[1..], d, dev, lane);
      var held := Held(log[1..], d, dev);
      if Polls(log[0], d, dev) && Rate(held, log[0].at, log[0].reply, lane).Some?
      then rest + Rate(held, log[0].at, log[0].reply, lane).value * (log[0].at - held.value.at)
      else rest
  }

  /** Where in the log the held sample was taken. */
  function HeldAt(log: seq<Event>, d: Name, dev: string): (i: nat)
    requires Held(log, d, dev).Some?
    ensures i < |log| && Polls(log[i], d, dev) && Good(log[i].reply)
    ensures Held(log, d, dev) == Some(Sample(log[i].reply.counts, log[i].at))
  {
    if !Polls(log[0], d, dev) || log[0].reply.Failed? then 1 + HeldAt(log[1..], d, dev) else 0
  }

  /** The bytes a device really moved since it was defined, and how many of them before its present QEMU process. */
  datatype Truth = Truth(total: int, base: int)

  /** Newest first, one entry per event: both only grow, and every good reading counts from the last restart. */
  ghost predicate Real(log: seq<Event>, truth: seq<Truth>, d: Name, dev: string, lane: bool) {
    && |truth| == |log|
    && (forall i, j :: 0 <= i <= j < |truth| ==> truth[j].total <= truth[i].total && truth[j].base <= truth[i].base)
    && (forall i :: 0 <= i < |log| && Polls(log[i], d, dev) && Good(log[i].reply) ==>
          log[i].reply.counts.Lane(lane) == truth[i].total - truth[i].base)
  }

  lemma RealBefore(log: seq<Event>, truth: seq<Truth>, d: Name, dev: string, lane: bool)
    requires log != [] && Real(log, truth, d, dev, lane)
    ensures Real(log[1..], truth[1..], d, dev, lane)
  {
    assert forall i :: 0 <= i < |log| - 1 ==> log[1..][i] == log[i + 1] && truth[1..][i] == truth[i + 1];
  }

  /**
   Whatever libvirt answers, fails or forgets, and however often the guest restarts: the reported rates never add up to
   more than the bytes that really moved, already by the time of the held sample.
   */
  lemma {:induction false} NeverMoreThanMoved(log: seq<Event>, truth: seq<Truth>, d: Name, dev: string, lane: bool)
    requires log != [] && Real(log, truth, d, dev, lane)
    ensures Implied(log, d, dev, lane) <= NS * (truth[0].total - truth[|log| - 1].total)
    ensures Held(log, d, dev).Some? ==>
              Implied(log, d, dev, lane) <= NS * (truth[HeldAt(log, d, dev)].total - truth[|log| - 1].total)
  {
    if |log| == 1 {
      assert log[1..] == [];
    } else {
      var rest := log[1..];
      RealBefore(log, truth, d, dev, lane);
      NeverMoreThanMoved(rest, truth[1..], d, dev, lane);
      assert truth[1..][|rest| - 1] == truth[|log| - 1];
      if Held(rest, d, dev).Some? {
        var i := HeldAt(rest, d, dev);
        assert rest[i] == log[i + 1] && truth[1..][i] == truth[i + 1];
      }
    }
  }

  /** A stretch of polls in which nothing was forgotten, no counter was missing and the guest never restarted. */
  ghost predicate Undisturbed(log: seq<Event>, truth: seq<Truth>, d: Name, dev: string) {
    && |truth| == |log| > 0
    && Forget(d) !in log
    && (forall i :: 0 <= i < |log| && Polls(log[i], d, dev) ==> log[i].reply.Failed? || Good(log[i].reply))
    && (forall i, j :: 0 <= i < j < |log| && Polls(log[i], d, dev) && Polls(log[j], d, dev) ==> log[j].at < log[i].at)
    && (forall i :: 0 <= i < |truth| ==> truth[i].base == truth[0].base)
    && Polls(log[|log| - 1], d, dev) && Good(log[|log| - 1].reply)
  }

  lemma UndisturbedBefore(log: seq<Event>, truth: seq<Truth>, d: Name, dev: string)
    requires |log| > 1 && Undisturbed(log, truth, d, dev)
    ensures Undisturbed(log[1..], truth[1..], d, dev)
  {
    assert forall i :: 0 <= i < |log| - 1 ==> log[1..][i] == log[i + 1] && truth[1..][i] == truth[i + 1];
  }

  lemma WholeBytes(before: int, after: int, elapsed: int)
    requires before <= after && elapsed > 0
    ensures var rate := BytesPerSecond(before, after, elapsed);
            rate.Some? && NS * (after - before) <= rate.value * elapsed + elapsed
  {
  }

  /** One undisturbed poll reports all of its interval but for less than one byte per second. */
  lemma LatestInterval(log: seq<Event>, truth: seq<Truth>, d: Name, dev: string, lane: bool)
    requires Real(log, truth, d, dev, lane) && Undisturbed(log, truth, d, dev)
    requires Polls(log[0], d, dev) && log[0].reply.Counters? && Held(log[1..], d, dev).Some?
    ensures var i := HeldAt(log[1..], d, dev) + 1;
            var rate := Rate(Held(log[1..], d, dev), log[0].at, log[0].reply, lane);
            var elapsed := log[0].at - log[i].at;
            rate.Some? && NS * (truth[0].total - truth[i].total) <= rate.value * elapsed + elapsed
  {
    var i := HeldAt(log[1..], d, dev) + 1;
    assert log[1..][i - 1] == log[i];
    var before, after := log[i].reply.counts.Lane(lane), log[0].reply.counts.Lane(lane);
    assert after - before == truth[0].total - truth[i].total >= 0 && Good(log[0].reply) && log[i].at < log[0].at;
    WholeBytes(before, after, log[0].at - log[i].at);
  }

  /**
   Over an undisturbed stretch, however many reads fail inside it, the rates account for everything up to the held
   sample but for less than one byte per second: a failed read stretches the next interval instead of losing bytes.
   */
  lemma {:induction false} AlmostAllIsReported(log: seq<Event>, truth: seq<Truth>, d: Name, dev: string, lane: bool)
    requires Real(log, truth, d, dev, lane) && Undisturbed(log, truth, d, dev)
    ensures Held(log, d, dev).Some?
    ensures var i := HeldAt(log, d, dev);
            NS * (truth[i].total - truth[|log| - 1].total)
            <= Implied(log, d, dev, lane) + (log[i].at - log[|log| - 1].at)
  {
    if |log| == 1 {
      assert log[1..] == [];
    } else {
      var rest := log[1..];
      RealBefore(log, truth, d, dev, lane);
      UndisturbedBefore(log, truth, d, dev);
      AlmostAllIsReported(rest, truth[1..], d, dev, lane);
      var i := HeldAt(rest, d, dev);
      assert log[0] != Forget(d) && rest[i] == log[i + 1] && truth[1..][i] == truth[i + 1];
      if Polls(log[0], d, dev) && log[0].reply.Counters? { LatestInterval(log, truth, d, dev, lane); }
    }
  }

  // ---- the table ----

  function Lookup(m: map<string, Sample>, k: string): Option<Sample> {
    if k in m then Some(m[k]) else None
  }

  datatype Disk = Disk(dev: string, capacityBytes: nat, rdBytesPS: nat, wrBytesPS: nat, ratesKnown: bool)
  datatype Nic = Nic(device: string, rxBytesPS: nat, txBytesPS: nat, ratesKnown: bool)

  function OrZero(r: Option<nat>): nat {
    if r.Some? then r.value else 0
  }

  /** What one poll makes of a device's table: a failed read keeps it, a missing counter deletes the entry. */
  predicate Stored(before: map<string, Sample>, after: map<string, Sample>, key: string, reply: Reply, now: int) {
    match reply
    case Failed => after == before
    case Counters(c) =>
      if c.first < 0 || c.second < 0 then after == before - {key} else after == before[key := Sample(c, now)]
  }

  class Source {
    var prevBlock: map<string, Sample>
    var prevNet: map<string, Sample>
    ghost var blockLog: seq<Event>
    ghost var netLog: seq<Event>

    /** The string-keyed tables hold, for every domain and device, what the history of that pair alone says. */
    ghost predicate Valid()
      reads this
    {
      && (forall d: Name, dev :: Lookup(prevBlock, Key(d, dev)) == Held(blockLog, d, dev))
      && (forall d: Name, dev :: Lookup(prevNet, Key(d, dev)) == Held(netLog, d, dev))
    }

    constructor ()
      ensures Valid() && blockLog == [] && netLog == []
    {
      prevBlock, prevNet, blockLog, netLog := map[], map[], [], [];
    }

    method FillDiskLive(domain: Name, disk: Disk, now: int, capacity: Option<nat>, stats: Reply) returns (shown: Disk)
      requires Valid()
      modifies this
      ensures Valid() && netLog == old(netLog)
      ensures blockLog == [Poll(domain, disk.dev, now, stats)] + old(blockLog)
      ensures Stored(old(prevBlock), prevBlock, Key(domain, disk.dev), stats, now) && prevNet == old(prevNet)
      ensures shown.dev == disk.dev
      ensures shown.capacityBytes == if capacity.Some? then capacity.value else disk.capacityBytes
      ensures var held := Held(old(blockLog), domain, disk.dev);
              var rd, wr := Rate(held, now, stats, false), Rate(held, now, stats, true);
              if held.Some? && stats.Counters? && stats.counts.first >= 0 && stats.counts.second >= 0
              then shown.rdBytesPS == OrZero(rd) && shown.wrBytesPS == OrZero(wr)
                   && (shown.ratesKnown <==> rd.Some? && wr.Some?)
                   && rd == BytesPerSecond(held.value.counts.first, stats.counts.first, now - held.value.at)
                   && wr == BytesPerSecond(held.value.counts.second, stats.counts.second, now - held.value.at)
              else (shown.rdBytesPS, shown.wrBytesPS, shown.ratesKnown)
                   == (disk.rdBytesPS, disk.wrBytesPS, disk.ratesKnown)
    {
      shown := disk;
      if capacity.Some? { shown := shown.(capacityBytes := capacity.value); }
      var key := Key(domain, disk.dev);
      assert old(Lookup(prevBlock, key)) == Held(old(blockLog), domain, disk.dev);
      blockLog := [Poll(domain, disk.dev, now, stats)] + blockLog;
      if stats.Counters? {
        var rd, wr := stats.counts.first, stats.counts.second;
        var prev := Lookup(prevBlock, key);
        prevBlock := prevBlock[key := Sample(stats.counts, now)];
        if rd < 0 || wr < 0 {
          prevBlock := prevBlock - {key};
        } else if prev.Some? {
          var elapsed := now - prev.value.at;
          var rdPS := BytesPerSecond(prev.value.counts.first, rd, elapsed);
          var wrPS := BytesPerSecond(prev.value.counts.second, wr, elapsed);
          shown := shown.(rdBytesPS := OrZero(rdPS), wrBytesPS := OrZero(wrPS), ratesKnown := rdPS.Some? && wrPS.Some?);
        }
      }
      assert blockLog[1..] == old(blockLog);
      forall d: Name, dev
        ensures Lookup(prevBlock, Key(d, dev)) == Held(blockLog, d, dev)
      {
        assert old(Lookup(prevBlock, Key(d, dev))) == Held(old(blockLog), d, dev);
        KeysKeepPairs(d, dev, domain, disk.dev);
      }
    }

    method FillNicLive(domain: Name, nic: Nic, now: int, stats: Reply) returns (shown: Nic)
      requires Valid()
      modifies this
      ensures Valid() && blockLog == old(blockLog) && shown.device == nic.device
      ensures if nic.device == "" then prevNet == old(prevNet)
              else Stored(old(prevNet), prevNet, Key(domain, nic.device), stats, now)
      ensures prevBlock == old(prevBlock)
      ensures netLog == (if nic.device == "" then [] else [Poll(domain, nic.device, now, stats)]) + old(netLog)
      ensures var held := Held(old(netLog), domain, nic.device);
              var rx, tx := Rate(held, now, stats, false), Rate(held, now, stats, true);
              if nic.device != ""
                 && held.Some? && stats.Counters? && stats.counts.first >= 0 && stats.counts.second >= 0
              then shown.rxBytesPS == OrZero(rx) && shown.txBytesPS == OrZero(tx)
                   && (shown.ratesKnown <==> rx.Some? && tx.Some?)
                   && rx == BytesPerSecond(held.value.counts.first, stats.counts.first, now - held.value.at)
                   && tx == BytesPerSecond(held.value.counts.second, stats.counts.second, now - held.value.at)
              else shown == nic
    {
      shown := nic;
      if nic.device == "" { return; }
      var key := Key(domain, nic.device);
      assert old(Lookup(prevNet, key)) == Held(old(netLog), domain, nic.device);
      netLog := [Poll(domain, nic.device, now, stats)] + netLog;
      if stats.Counters? {
        var rx, tx := stats.counts.first, stats.counts.second;
        var prev := Lookup(prevNet, key);
        prevNet := prevNet[key := Sample(stats.counts, now)];
        if rx < 0 || tx < 0 {
          prevNet := prevNet - {key};
        } else if prev.Some? {
          var elapsed := now - prev.value.at;
          var rxPS := BytesPerSecond(prev.value.counts.first, rx, elapsed);
          var txPS := BytesPerSecond(prev.value.counts.second, tx, elapsed);
          shown := shown.(rxBytesPS := OrZero(rxPS), txBytesPS := OrZero(txPS), ratesKnown := rxPS.Some? && txPS.Some?);
        }
      }
      assert netLog[1..] == old(netLog);
      forall d: Name, dev
        ensures Lookup(prevNet, Key(d, dev)) == Held(netLog, d, dev)
      {
        assert old(Lookup(prevNet, Key(d, dev))) == Held(old(netLog), d, dev);
        KeysKeepPairs(d, dev, domain, nic.device);
      }
    }

    /** Drops exactly the entries under the domain's prefix, from both tables, in any iteration order. */
    method ForgetDomainSamples(domain: Name)
      requires Valid()
      modifies this
      ensures Valid()
      ensures blockLog == [Forget(domain)] + old(blockLog) && netLog == [Forget(domain)] + old(netLog)
      ensures forall k :: k in prevBlock <==> k in old(prevBlock) && !(domain + ['\0'] <= k)
      ensures forall k :: k in prevNet <==> k in old(prevNet) && !(domain + ['\0'] <= k)
      ensures forall k :: k in prevBlock ==> prevBlock[k] == old(prevBlock)[k]
      ensures forall k :: k in prevNet ==> prevNet[k] == old(prevNet)[k]
    {
      prevBlock := Without(prevBlock, domain + ['\0']);
      prevNet := Without(prevNet, domain + ['\0']);
      blockLog, netLog := [Forget(domain)] + blockLog, [Forget(domain)] + netLog;
      assert blockLog[1..] == old(blockLog) && netLog[1..] == old(netLog);
      forall d: Name, dev
        ensures Lookup(prevBlock, Key(d, dev)) == Held(blockLog, d, dev)
        ensures Lookup(prevNet, Key(d, dev)) == Held(netLog, d, dev)
      {
        assert old(Lookup(prevBlock, Key(d, dev))) == Held(old(blockLog), d, dev);
        assert old(Lookup(prevNet, Key(d, dev))) == Held(old(netLog), d, dev);
        KeysKeepPairs(d, dev, domain, "");
      }
    }
  }

  /** The deleting loop over a table. */
  method Without(table: map<string, Sample>, prefix: string) returns (kept: map<string, Sample>)
    ensures forall k :: k in kept <==> k in table && !(prefix <= k)
    ensures forall k :: k in kept ==> kept[k] == table[k]
  {
    kept := table;
    var todo := table.Keys;
    while todo != {}
      invariant todo <= kept.Keys <= table.Keys
      invariant forall k :: k in table && k !in todo ==> (k in kept <==> !(prefix <= k))
      invariant forall k :: k in kept ==> kept[k] == table[k]
      decreases todo
    {
      ghost var some := SomeMember(todo);
      var k :| k in todo;
      if prefix <= k { kept := kept - {k}; }
      todo := todo - {k};
    }
  }
}
