/** The failed-attempt throttle of internal/web/auth.go: `backoffFor`, `throttleFailed` and `clearFailures`. */
module Auth {
  import opened Basics
  import opened Clocks

  function Pow2(n: nat): nat {
    if n == 0 then 1 else 2 * Pow2(n - 1)
  }

  /** The delay after `count` consecutive failures, with the shift capped at 10 as the code caps it. */
  function BackoffFor(count: int): int
    requires count >= 1
  {
    Min(AUTH_BACKOFF_BASE * Pow2(Min(count - 1, 10)), AUTH_BACKOFF_MAX)
  }

  lemma {:induction false} Pow2Grows(a: nat, b: nat)
    requires a <= b
    ensures 1 <= Pow2(a) <= Pow2(b)
    decreases b
  {
    if a < b { Pow2Grows(a, b - 1); }
    else if a > 0 { Pow2Grows(a - 1, a - 1); }
  }

  lemma Pow2Ten()
    ensures Pow2(10) == 1024
  {
    assert Pow2(5) == 32;
    assert Pow2(8) == 8 * Pow2(5);
  }

  /**
   Capping the shift loses nothing: the delay is base * 2^(n-1) up to the maximum for every n >= 1, and it never shrinks
   as failures mount.
   */
  lemma BackoffIsDoubling(n: int, m: int)
    requires 1 <= n <= m
    ensures BackoffFor(n) == Min(AUTH_BACKOFF_BASE * Pow2(n - 1), AUTH_BACKOFF_MAX)
    ensures AUTH_BACKOFF_BASE <= BackoffFor(n) <= BackoffFor(m) <= AUTH_BACKOFF_MAX
  {
    Pow2Ten();
    Pow2Grows(Min(n - 1, 10), n - 1);
    Pow2Grows(Min(n - 1, 10), Min(m - 1, 10));
    if n - 1 > 10 { Pow2Grows(10, n - 1); }
  }

  /** In nanoseconds the shifted value stays far inside 63 bits. */
  lemma ShiftNeverOverflows(n: int)
    requires n >= 1
    ensures AUTH_BACKOFF_BASE * 1_000_000 * Pow2(Min(n - 1, 10)) < 0x7FFF_FFFF_FFFF_FFFF
  {
    Pow2Ten();
    Pow2Grows(Min(n - 1, 10), 10);
  }

  /** From failure to failure: half a second, then twice as long each time, up to half a minute. */
  lemma DelaysDouble(n: int)
    requires n >= 1
    ensures BackoffFor(1) == 500 && BackoffFor(n + 1) == Min(2 * BackoffFor(n), 30_000)
  {
    assert Pow2(1) == 2 * Pow2(0);
    Pow2Ten();
    if n > 10 {
      assert BackoffFor(n) == BackoffFor(n + 1) == 30_000;
    } else {
      assert Pow2(n) == 2 * Pow2(n - 1);
    }
  }

  // ---- the failure count ----

  /** A failure is stamped before the lock is taken, so stamps need not be in the order of the log. */
  datatype Attempt = Fail(ip: string, at: int) | Success(ip: string)

  /** Attempts come newest first. The stamp of the latest failure from `ip`, unless a success came after it. */
  function LastFail(log: seq<Attempt>, ip: string): Option<int> {
    if log == [] then None
    else if log[0].ip != ip then LastFail(log[1..], ip)
    else match log[0]
         case Success(_) => None
         case Fail(_, at) => Some(at)
  }

  /** Some other source has since failed with a stamp more than an hour past that failure. */
  predicate Pruned(log: seq<Attempt>, ip: string) {
    && log != [] && log[0].ip != ip
    && (Pruned(log[1..], ip)
        || (log[0].Fail? && LastFail(log[1..], ip).Some? && log[0].at - LastFail(log[1..], ip).value > HOUR))
  }

  /**
   The length of the latest run of failures from `ip`: a success ends it, and so does any failure, its own or another
   source's, stamped more than an hour past its latest.
   */
  function RunLength(log: seq<Attempt>, ip: string): nat {
    if log == [] then 0
    else if log[0].ip != ip then RunLength(log[1..], ip)
    else match log[0]
         case Success(_) => 0
         case Fail(_, at) =>
           var last := LastFail(log[1..], ip);
           if last.Some? && !Pruned(log[1..], ip) && at - last.value <= HOUR then 1 + RunLength(log[1..], ip) else 1
  }

  lemma {:induction false} NoFailNoRun(log: seq<Attempt>, ip: string)
    ensures LastFail(log, ip).None? <==> RunLength(log, ip) == 0
  {
    if log == [] {
    } else {
      NoFailNoRun(log[1..], ip);
    }
  }

  /** The attempts of one source, newest first. */
  function Own(log: seq<Attempt>, ip: string): seq<Attempt> {
    if log == [] then []
    else (if log[0].ip == ip then [log[0]] else []) + Own(log[1..], ip)
  }

  /** `n` attempts at the front of `own` are failures at most an hour apart, and there the run stops. */
  ghost predicate LatestRun(own: seq<Attempt>, n: nat) {
    && n <= |own|
    && (forall i :: 0 <= i < n ==> own[i].Fail?)
    && (forall i, j :: 0 <= i && j == i + 1 && j < n ==> own[i].at - own[j].at <= HOUR)
    && (n < |own| && own[n].Fail? ==> n > 0 && own[n - 1].at - own[n].at > HOUR)
  }

  /** What the source's own attempts say of its latest failure. */
  lemma {:induction false} LastFailIsOwn(log: seq<Attempt>, ip: string)
    ensures LastFail(log, ip) == if Own(log, ip) != [] && Own(log, ip)[0].Fail? then Some(Own(log, ip)[0].at) else None
  {
    if log == [] {
    } else {
      LastFailIsOwn(log[1..], ip);
      if log[0].ip != ip {
        assert Own(log, ip) == Own(log[1..], ip);
      }
    }
  }

  /**
   Another source's stamp has ended a run that the source's own stamps would have kept going: somewhere in its latest
   run two own failures at most an hour apart have a stamp more than an hour past the older one logged between them.
   */
  predicate CutShort(log: seq<Attempt>, ip: string) {
    if log == [] then false
    else if log[0].ip != ip then CutShort(log[1..], ip)
    else match log[0]
         case Success(_) => false
         case Fail(_, at) =>
           && LastFail(log[1..], ip).Some? && at - LastFail(log[1..], ip).value <= HOUR
           && (Pruned(log[1..], ip) || CutShort(log[1..], ip))
  }

  lemma RunGrows(a: Attempt, rest: seq<Attempt>, n: nat)
    requires n > 0 && rest != [] && a.Fail? && rest[0].Fail? && a.at - rest[0].at <= HOUR
    ensures LatestRun([a] + rest, n + 1) <==> LatestRun(rest, n)
  {
    var own := [a] + rest;
    assert forall i :: 0 <= i < |rest| ==> own[i + 1] == rest[i];
    if LatestRun(own, n + 1) {
      forall i, j | 0 <= i && j == i + 1 && j < n
        ensures rest[i].Fail? && rest[j].Fail? && rest[i].at - rest[j].at <= HOUR
      {
        assert own[i + 1].Fail? && own[j + 1].Fail? && own[i + 1].at - own[j + 1].at <= HOUR;
      }
      forall i | 0 <= i < n
        ensures rest[i].Fail?
      {
        assert own[i + 1].Fail?;
      }
    }
  }

  /**
   For every log, stamps in any order: the count is the length of the source's latest run of failures at most an hour
   apart if and only if no other source's stamp has cut that run short.
   */
  lemma {:induction false} CountIsLatestRunIff(log: seq<Attempt>, ip: string)
    ensures LatestRun(Own(log, ip), RunLength(log, ip)) <==> !CutShort(log, ip)
  {
    if log == [] {
    } else {
      var own, rest := Own(log, ip), Own(log[1..], ip);
      CountIsLatestRunIff(log[1..], ip);
      if log[0].ip != ip {
        assert own == rest;
      } else {
        assert own == [log[0]] + rest;
        LastFailIsOwn(log[1..], ip);
        NoFailNoRun(log[1..], ip);
        var last := LastFail(log[1..], ip);
        if log[0].Fail? && last.Some? && log[0].at - last.value <= HOUR && !Pruned(log[1..], ip) {
          RunGrows(log[0], rest, RunLength(log[1..], ip));
        }
      }
    }
  }

  // ---- how far stamps may be out of order ----

  predicate NoneLater(log: seq<Attempt>, at: int) {
    forall i :: 0 <= i < |log| && log[i].Fail? ==> log[i].at <= at
  }

  /** No failure is stamped more than `skew` before one that was logged earlier. */
  ghost predicate SkewedBy(log: seq<Attempt>, skew: nat) {
    log != [] ==> (log[0].Fail? ==> NoneLater(log[1..], log[0].at + skew)) && SkewedBy(log[1..], skew)
  }

  /** Consecutive failures of a source are more than an hour apart, or less than that by at least `skew`. */
  ghost predicate ClearGaps(own: seq<Attempt>, skew: nat) {
    forall i, j :: 0 <= i && j == i + 1 && j < |own| && own[i].Fail? && own[j].Fail? ==>
                     own[i].at - own[j].at > HOUR || own[i].at - own[j].at + skew <= HOUR
  }

  lemma {:induction false} PruningNeedsLater(log: seq<Attempt>, ip: string, at: int)
    requires NoneLater(log, at) && LastFail(log, ip).Some? && at - LastFail(log, ip).value <= HOUR
    ensures !Pruned(log, ip)
  {
    if log == [] {
    } else if log[0].ip != ip {
      assert forall i :: 0 <= i < |log| - 1 ==> log[1..][i] == log[i + 1];
      PruningNeedsLater(log[1..], ip, at);
    }
  }

  lemma {:induction false} SkewCutsNothing(log: seq<Attempt>, ip: string, skew: nat)
    requires SkewedBy(log, skew) && ClearGaps(Own(log, ip), skew)
    ensures !CutShort(log, ip)
  {
    if log == [] {
    } else {
      var own, rest := Own(log, ip), Own(log[1..], ip);
      if log[0].ip != ip {
        assert own == rest;
      } else {
        assert own == [log[0]] + rest;
        LastFailIsOwn(log[1..], ip);
        assert forall i :: 0 <= i < |rest| ==> own[i + 1] == rest[i];
        if log[0].Fail? && LastFail(log[1..], ip).Some? && log[0].at - LastFail(log[1..], ip).value <= HOUR {
          assert own[0] == log[0] && own[1] == rest[0];
          PruningNeedsLater(log[1..], ip, log[0].at + skew);
        }
      }
      GapsStayClear(own, rest, skew);
      SkewCutsNothing(log[1..], ip, skew);
    }
  }

  lemma GapsStayClear(own: seq<Attempt>, rest: seq<Attempt>, skew: nat)
    requires ClearGaps(own, skew) && (own == rest || (own != [] && own[1..] == rest))
    ensures ClearGaps(rest, skew)
  {
    if own != rest {
      forall i, j | 0 <= i && j == i + 1 && j < |rest| && rest[i].Fail? && rest[j].Fail?
        ensures rest[i].at - rest[j].at > HOUR || rest[i].at - rest[j].at + skew <= HOUR
      {
        assert rest[i] == own[i + 1] && rest[j] == own[j + 1];
      }
    }
  }

  /**
   Stamps out of order by less than an hour minus the source's own gaps are harmless: with `skew` milliseconds of
   disorder the count is still the latest run, unless two own failures lie within `skew` of an hour apart.
   */
  lemma SmallSkewsAreHarmless(log: seq<Attempt>, ip: string, skew: nat)
    requires SkewedBy(log, skew) && ClearGaps(Own(log, ip), skew)
    ensures LatestRun(Own(log, ip), RunLength(log, ip))
  {
    SkewCutsNothing(log, ip, skew);
    CountIsLatestRunIff(log, ip);
  }

  /** With stamps in order the count is always the latest run, whatever other sources did in between. */
  lemma RunLengthIsLatestRun(log: seq<Attempt>, ip: string)
    requires SkewedBy(log, 0)
    ensures LatestRun(Own(log, ip), RunLength(log, ip))
  {
    SmallSkewsAreHarmless(log, ip, 0);
  }

  /**
   An instance of a run cut short: two failures of one source a second apart, and between them a failure of another
   source stamped an hour ahead. To get there the handler of the later own failure must stall for an hour between
   reading the clock and taking the lock.
   */
  lemma OthersCanEndARun(a: string, b: string)
    requires a != b
    ensures var log := [Fail(a, SECOND), Fail(b, HOUR + SECOND), Fail(a, 0)];
            CutShort(log, a) && RunLength(log, a) == 1 && LatestRun(Own(log, a), 2)
  {
    var log := [Fail(a, SECOND), Fail(b, HOUR + SECOND), Fail(a, 0)];
    assert log[1..] == [Fail(b, HOUR + SECOND), Fail(a, 0)] && log[1..][1..] == [Fail(a, 0)];
    assert log[1..][1..][1..] == [];
    assert Own([Fail(a, 0)], a) == [Fail(a, 0)];
    assert Own(log[1..], a) == [Fail(a, 0)];
    assert Own(log, a) == [Fail(a, SECOND), Fail(a, 0)];
  }

  datatype Failure = Failure(count: int, resetAt: int)

  class AuthState {
    var failures: map<string, Failure>
    /** Every attempt, newest first. */
    ghost var log: seq<Attempt>

    /** What the map holds about one source. */
    ghost predicate Tracks(ip: string)
      reads this
    {
      && (ip in failures <==> LastFail(log, ip).Some? && !Pruned(log, ip))
      && (ip in failures ==>
            failures[ip].count == RunLength(log, ip) >= 1 && LastFail(log, ip) == Some(failures[ip].resetAt - HOUR))
    }

    ghost predicate Valid()
      reads this
    {
      forall ip :: Tracks(ip)
    }

    constructor ()
      ensures Valid() && failures == map[] && log == []
    {
      failures, log := map[], [];
    }

    /** Records a failure, dropping every source that has been quiet for an hour on the way. */
    method ThrottleFailed(ip: string, now: int) returns (delay: int)
      requires Valid()
      modifies this
      ensures Valid() && log == [Fail(ip, now)] + old(log)
      ensures ip in failures && failures[ip].count == RunLength(log, ip)
      ensures delay == BackoffFor(RunLength(log, ip))
    {
      var todo := failures.Keys;
      while todo != {}
        invariant todo <= failures.Keys <= old(failures).Keys && log == old(log)
        invariant forall k :: k in failures ==> failures[k] == old(failures)[k]
        invariant forall k :: k in old(failures) && k !in todo ==> (k in failures <==> now <= old(failures)[k].resetAt)
        decreases todo
      {
        ghost var some := SomeMember(todo);
        var k :| k in todo;
        if now > failures[k].resetAt { failures := failures - {k}; }
        todo := todo - {k};
      }
      assert old(Tracks(ip));
      var f := if ip in failures then failures[ip] else Failure(0, 0);
      f := Failure(f.count + 1, now + HOUR);
      failures := failures[ip := f];
      log := [Fail(ip, now)] + log;
      forall k
        ensures Tracks(k)
      {
        assert old(Tracks(k));
        assert log[1..] == old(log);
      }
      delay := BackoffFor(f.count);
    }

    /** A Bearer login forgets its source and no other. */
    method ClearFailures(ip: string)
      requires Valid()
      modifies this
      ensures Valid() && ip !in failures && log == [Success(ip)] + old(log)
    {
      failures := failures - {ip};
      log := [Success(ip)] + log;
      forall k
        ensures Tracks(k)
      {
        assert old(Tracks(k));
        assert log[1..] == old(log);
      }
    }
  }
}
