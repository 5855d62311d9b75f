/** Waiting until a file is no longer being written: two equal samples one stability duration apart. */
module Detector {
  import opened Common

  datatype Stat = Stat(size: nat, modTime: int)

  /** The world as the detector samples it: the file (None when stat fails) and cancellation, over time. */
  datatype Env = Env(sample: int -> Option<Stat>, cancelled: int -> bool)

  datatype End = Stable | Cancelled | StatFailed | DeadlineExceeded

  /** How a wait ended, and when. */
  datatype Ended = Ended(end: End, at: int)

  /** Time at which round `i` starts: each unsuccessful round sleeps twice. */
  function RoundStart(start: int, d: int, i: nat): int { start + i * (2 * d) }

  /** What round `i` does; None means another round follows. */
  function Round(env: Env, start: int, d: int, maxWait: int, i: nat): Option<Ended>
  {
    var t := RoundStart(start, d, i);
    if env.cancelled(t) then Some(Ended(Cancelled, t))
    else if env.sample(t).None? then Some(Ended(StatFailed, t))
    else if env.sample(t + d).None? then Some(Ended(StatFailed, t + d))
    else if env.sample(t) == env.sample(t + d) then Some(Ended(Stable, t + d))
    else if maxWait > 0 && t + d + d - start > maxWait then Some(Ended(DeadlineExceeded, t + d + d))
    else None
  }

  /** The last round that can start within the limit. */
  function LastRound(d: int, maxWait: int): nat
    requires d > 0 && maxWait > 0
  {
    maxWait / (2 * d)
  }

  lemma RoundArithmetic(d: int, maxWait: int, i: nat)
    requires d > 0 && maxWait > 0
    ensures (i + 1) * (2 * d) > maxWait <==> i >= LastRound(d, maxWait)
  {
    var k := LastRound(d, maxWait);
    assert maxWait == k * (2 * d) + maxWait % (2 * d);
    if i >= k { Times(k + 1, i + 1, 2 * d); } else { Times(i + 1, k, 2 * d); }
  }

  lemma Times(a: int, b: int, c: int)
    requires a <= b && c > 0
    ensures a * c <= b * c
  {
  }

  lemma NextRound(start: int, d: int, i: nat)
    ensures RoundStart(start, d, i + 1) == RoundStart(start, d, i) + d + d
  {
  }

  /** No round beyond the last one within the limit is ever reached, and none ends much after the limit. */
  lemma RoundsAreBounded(env: Env, start: int, d: int, maxWait: int, i: nat)
    requires d > 0 && maxWait > 0
    ensures i >= LastRound(d, maxWait) ==> Round(env, start, d, maxWait, i).Some?
    ensures i <= LastRound(d, maxWait) && Round(env, start, d, maxWait, i).Some? ==>
              Round(env, start, d, maxWait, i).value.at - start <= maxWait + 2 * d
  {
    RoundArithmetic(d, maxWait, i);
    NextRound(start, d, i);
    if 0 < i <= LastRound(d, maxWait) { RoundArithmetic(d, maxWait, i - 1); }
  }

  ghost predicate Ends(env: Env, start: int, d: int, maxWait: int)
  {
    exists i: nat :: Round(env, start, d, maxWait, i).Some?
  }

  /** A file that is modified at every instant. */
  function Restless(): Env { Env(t => Some(Stat(0, t)), t => false) }

  /** The wait ends whatever the file does exactly when there is a positive limit. */
  lemma EndsExactlyWithLimit(start: int, d: int, maxWait: int)
    requires d > 0
    ensures (forall env: Env :: Ends(env, start, d, maxWait)) <==> maxWait > 0
  {
    if maxWait > 0 {
      forall env: Env ensures Ends(env, start, d, maxWait) {
        RoundsAreBounded(env, start, d, maxWait, LastRound(d, maxWait));
      }
    } else {
      assert !Ends(Restless(), start, d, maxWait);
    }
  }

  /** A wait that reports a stable file saw two equal samples one stability duration apart, the last one at the end. */
  lemma StableMeansUnchanged(env: Env, start: int, d: int, maxWait: int, i: nat)
    ensures var r := Round(env, start, d, maxWait, i);
              r.Some? && r.value.end == Stable ==>
                env.sample(r.value.at).Some? && env.sample(r.value.at - d) == env.sample(r.value.at)
  {
  }

  /** From `quiet` on the file does not change, and all the time it is there and nobody cancels. */
  ghost predicate Settles(env: Env, quiet: int)
  {
    && (forall t :: !env.cancelled(t) && env.sample(t).Some?)
    && (forall t | t >= quiet :: env.sample(t) == env.sample(quiet))
  }

  /** The first round that begins at or after `quiet`. */
  function FirstQuietRound(start: int, d: int, quiet: int): nat
    requires d > 0
  {
    if quiet <= start then 0 else (quiet - start + 2 * d - 1) / (2 * d)
  }

  lemma FirstQuietRoundIs(start: int, d: int, quiet: int)
    requires d > 0
    ensures var k := FirstQuietRound(start, d, quiet);
              quiet <= RoundStart(start, d, k) && (k > 0 ==> RoundStart(start, d, k - 1) < quiet)
  {
    if quiet > start {
      var k, n := FirstQuietRound(start, d, quiet), quiet - start + 2 * d - 1;
      assert n == k * (2 * d) + n % (2 * d);
      Times(1, k, 2 * d);
      NextRound(start, d, k - 1);
    }
  }

  lemma RoundsInOrder(start: int, d: int, i: nat, j: nat)
    requires d > 0 && i <= j
    ensures RoundStart(start, d, i) <= RoundStart(start, d, j)
  {
    Times(i, j, 2 * d);
  }

  /**
   A file that stops changing is found stable by the round that begins next, so at most three stability
   durations later, if the limit leaves the time for it; and nothing else can end the wait before.
   */
  lemma SettledFileIsStable(env: Env, start: int, d: int, maxWait: int, quiet: int)
    requires d > 0 && start <= quiet && Settles(env, quiet)
    requires maxWait > 0 ==> quiet + 2 * d - start <= maxWait
    ensures var k := FirstQuietRound(start, d, quiet);
              && Round(env, start, d, maxWait, k) == Some(Ended(Stable, RoundStart(start, d, k) + d))
              && RoundStart(start, d, k) + d < quiet + 3 * d
              && forall i | 0 <= i < k :: var r := Round(env, start, d, maxWait, i); r.Some? ==> r.value.end == Stable
  {
    var k := FirstQuietRound(start, d, quiet);
    FirstQuietRoundIs(start, d, quiet);
    if k > 0 { NextRound(start, d, k - 1); }
    assert env.sample(RoundStart(start, d, k)) == env.sample(RoundStart(start, d, k) + d);
    forall i | 0 <= i < k ensures var r := Round(env, start, d, maxWait, i); r.Some? ==> r.value.end == Stable {
      RoundsInOrder(start, d, i, k - 1);
    }
  }

  /**
   How a round ends, if it ends the wait: at its start if cancelled, when a stat fails, when two samples
   agree, or, having slept twice, when more than a positive limit has passed.
   */
  lemma RoundTells(env: Env, start: int, d: int, maxWait: int, i: nat, end: Ended)
    requires Round(env, start, d, maxWait, i) == Some(end)
    ensures var t := start + i * (2 * d);
            var gone := env.sample(t).None? || env.sample(t + d).None?;
              && (end.end == Cancelled <==> env.cancelled(t)) && (end.end == Cancelled ==> end.at == t)
              && (end.end == StatFailed <==> !env.cancelled(t) && gone)
              && (end.end == StatFailed ==> env.sample(end.at).None? && end.at in {t, t + d})
              && (end.end == DeadlineExceeded ==> end.at == t + 2 * d && 0 < maxWait < end.at - start)
  {
  }

  /** The wait goes on only if the file was there and changing, nobody cancelled, and there is time left. */
  lemma RoundGoesOn(env: Env, start: int, d: int, maxWait: int, i: nat)
    ensures var t := start + i * (2 * d);
              Round(env, start, d, maxWait, i).None?
              <==> && !env.cancelled(t) && env.sample(t).Some? && env.sample(t + d).Some?
                   && env.sample(t) != env.sample(t + d) && (maxWait <= 0 || t + 2 * d - start <= maxWait)
  {
  }

  /** Once cancelled, the wait is over with the next round at the latest, and says so unless it ends before. */
  lemma CancellationIsHeard(env: Env, start: int, d: int, maxWait: int, from: int)
    requires d > 0 && start <= from && forall t | t >= from :: env.cancelled(t)
    ensures var k := FirstQuietRound(start, d, from);
              && Round(env, start, d, maxWait, k) == Some(Ended(Cancelled, RoundStart(start, d, k)))
              && RoundStart(start, d, k) < from + 2 * d
  {
    var k := FirstQuietRound(start, d, from);
    FirstQuietRoundIs(start, d, from);
    if k > 0 { NextRound(start, d, k - 1); }
  }

  class PartialUploadDetector {
    const d: int // stability duration
    var clock: int

    constructor (stabilityDuration: int, now: int)
      ensures clock == now
      ensures d == if stabilityDuration == 0 then 1_000_000_000 else stabilityDuration
    {
      d := if stabilityDuration == 0 then 1_000_000_000 else stabilityDuration;
      clock := now;
    }

    method Sleep()
      modifies this
      ensures clock == old(clock) + d
    {
      clock := clock + d;
    }

    /** Some(true) for a stable file, None for a failing stat. */
    method IsStable(env: Env) returns (stable: Option<bool>)
      modifies this
      ensures var first := env.sample(old(clock));
              var second := env.sample(old(clock) + d);
                && clock == (if first.None? then old(clock) else old(clock) + d)
                && stable == if first.None? || second.None? then None else Some(first == second)
    {
      var first := env.sample(clock);
      if first.None? { return None; }
      Sleep();
      var second := env.sample(clock);
      if second.None? { return None; }
      stable := Some(first.value.size == second.value.size && first.value.modTime == second.value.modTime);
    }

    method WaitForStability(env: Env, maxWait: int) returns (end: End, ghost rounds: nat)
      requires d > 0 && Ends(env, clock, d, maxWait)
      modifies this
      ensures rounds > 0 && Round(env, old(clock), d, maxWait, rounds - 1) == Some(Ended(end, clock))
      ensures forall i | 0 <= i < rounds - 1 :: Round(env, old(clock), d, maxWait, i).None?
      ensures maxWait > 0 ==> rounds <= maxWait / (2 * d) + 1 && clock - old(clock) <= maxWait + 2 * d
    {
      var start := clock;
      ghost var last: nat :| Round(env, start, d, maxWait, last).Some?;
      rounds := 0;
      while true
        invariant clock == RoundStart(start, d, rounds)
        invariant forall i | 0 <= i < rounds :: Round(env, start, d, maxWait, i).None?
        invariant rounds <= last && (maxWait > 0 ==> rounds <= LastRound(d, maxWait))
        decreases last - rounds
      {
        rounds := rounds + 1;
        if maxWait > 0 { RoundsAreBounded(env, start, d, maxWait, rounds - 1); }
        NextRound(start, d, rounds - 1);
        if env.cancelled(clock) { return Cancelled, rounds; }
        var stable := IsStable(env);
        if stable.None? { return StatFailed, rounds; }
        if stable.value { return Stable, rounds; }
        Sleep();
        if maxWait > 0 && clock - start > maxWait { return DeadlineExceeded, rounds; }
      }
    }
  }
}
