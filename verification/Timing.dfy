/**
 When retries happen: a failed item is due exactly the prescribed delay after its last failure, a poll
 takes the first item that is due and nothing before that, and polls that come late enough bring every
 item to its end.
 */
module Timing {
  import opened Common
  import opened Items
  import opened Backoff
  import opened Queue
  import opened SystemRuns
  import opened Lives
  import opened QueueLaws

  /** The delay after a failed attempt number `n`, for positive settings. */
  function DelayAfter(s: Settings, n: nat): int
  {
    if n == 0 then s.base else Min(s.base * Pow2(n), s.max)
  }

  // --- The retry time ------------------------------------------------------------------------

  /** Event number `k` of a run is a failure of the item with this ID. */
  predicate FailsAt(s: Settings, x: Sys, es: seq<Event>, k: nat, id: string)
  {
    k < |es| && es[k].Fail? && Enabled(Run(s, x, es[..k]), es[k]) && Run(s, x, es[..k]).hand.value.id == id
  }

  /** ... with the attempts the item has now, and no later event of the run fails it again. */
  ghost predicate LastFailsAt(s: Settings, x: Sys, es: seq<Event>, k: nat, it: ItemRec)
  {
    && FailsAt(s, x, es, k, it.id)
    && Run(s, x, es[..k]).hand.value.attempts == it.attempts
    && forall j | k < j :: !FailsAt(s, x, es, j, it.id)
  }

  lemma RequeuedEntry(s: Settings, q: QueueState, it: ItemRec, err: string, now: int, w: Entry)
    requires 0 < s.base && 0 < s.max && w in RequeueSpec(s, q, it, err, now).q.entries && w !in q.entries
    ensures w.item.id == it.id && w.item.attempts == it.attempts
    ensures w.item.nextRetry == now + DelayAfter(s, w.item.attempts)
  {
    RequeueSchedules(s, q, it, err, now);
  }

  /** The entry was failed by the last event ... */
  lemma NewByFailure(s: Settings, x: Sys, e: Event, w: Entry)
    requires 0 < s.base && 0 < s.max && Conserved(x) && w in Apply(s, x, e).q.entries && w !in x.q.entries
    requires w.item.status == Failed
    ensures e.Fail? && Enabled(x, e) && x.hand.value.id == w.item.id && x.hand.value.attempts == w.item.attempts
    ensures w.item.nextRetry == e.now + DelayAfter(s, w.item.attempts)
  {
    match e
    case Arrive(it) =>
    case Poll(now, start) => PollFacts(x.q, now);
    case Note(_, _) =>
    case Succeed(_) =>
    case Fail(err, now) => RequeuedEntry(s, x.q, x.hand.value, err, now, w);
  }

  /** ... or it was there before, and then the event failed another one. */
  lemma QueuedNotInHand(x: Sys, w: Entry)
    requires IndexAgrees(x.q) && Placed(x) && x.hand.Some? && w in x.q.entries
    ensures x.hand.value.id != w.item.id
  {
    assert w.item.id in x.q.index && x.hand.value.id in HandIds(x);
  }

  lemma FailsBefore(s: Settings, x: Sys, es: seq<Event>, k: nat, id: string)
    requires es != [] && k < |es| - 1
    ensures FailsAt(s, x, es, k, id) <==> FailsAt(s, x, es[..|es| - 1], k, id)
  {
    assert es[..|es| - 1][..k] == es[..k];
  }

  /** One more event that does not fail the item leaves its last failure where it was. */
  lemma StillLast(s: Settings, x: Sys, es: seq<Event>, k: nat, it: ItemRec)
    requires es != [] && LastFailsAt(s, x, es[..|es| - 1], k, it)
    requires !FailsAt(s, x, es, |es| - 1, it.id)
    ensures LastFailsAt(s, x, es, k, it)
  {
    FailsBefore(s, x, es, k, it.id);
    assert es[..|es| - 1][..k] == es[..k];
    forall j | k < j ensures !FailsAt(s, x, es, j, it.id) {
      if j < |es| - 1 { FailsBefore(s, x, es, j, it.id); }
    }
  }

  /** The item is due exactly the prescribed delay after its last failure in the run. */
  ghost predicate DueByRule(s: Settings, x: Sys, es: seq<Event>, it: ItemRec)
  {
    exists k: nat :: LastFailsAt(s, x, es, k, it) && it.nextRetry == es[k].now + DelayAfter(s, it.attempts)
  }

  lemma DueByRuleStays(s: Settings, x: Sys, es: seq<Event>, it: ItemRec)
    requires es != [] && DueByRule(s, x, es[..|es| - 1], it)
    requires !FailsAt(s, x, es, |es| - 1, it.id)
    ensures DueByRule(s, x, es, it)
  {
    var init := es[..|es| - 1];
    var k: nat :| LastFailsAt(s, x, init, k, it) && it.nextRetry == init[k].now + DelayAfter(s, it.attempts);
    StillLast(s, x, es, k, it);
    assert es[k] == init[k];
  }

  /**
   After every run each failed item in the queue, unless it has been there all along, is due exactly
   base * 2^attempts, cut off at the maximum, after its last failure.
   */
  lemma {:induction false} DueAfterLastFailure(s: Settings, x: Sys, es: seq<Event>, w: Entry)
    requires 0 < s.base && 0 < s.max && Inv(s, x)
    requires w in Run(s, x, es).q.entries && w.item.status == Failed
    ensures w in x.q.entries || DueByRule(s, x, es, w.item)
  {
    if es != [] {
      var init, e := es[..|es| - 1], es[|es| - 1];
      var y := Run(s, x, init);
      RunKeepsInv(s, x, init);
      if w !in y.q.entries {
        NewByFailure(s, y, e, w);
        assert LastFailsAt(s, x, es, |es| - 1, w.item);
      } else {
        DueAfterLastFailure(s, x, init, w);
        if y.hand.Some? { QueuedNotInHand(y, w); }
        if w !in x.q.entries { DueByRuleStays(s, x, es, w.item); }
      }
    }
  }

  // --- Polls ---------------------------------------------------------------------------------

  /** A poll takes the first entry that is neither dead nor waiting, and begins an attempt at it. */
  lemma PollTakesDue(s: Settings, x: Sys, now: int, start: int, k: nat)
    requires IndexAgrees(x.q) && Enabled(x, Poll(now, start)) && k < |x.q.entries|
    requires forall j | 0 <= j < k :: var it := x.q.entries[j].item;
               it.status == Dlq || (it.status == Failed && now < it.nextRetry)
    requires var it := x.q.entries[k].item; it.status != Dlq && (it.status == Failed ==> it.nextRetry <= now)
    ensures var it := x.q.entries[k].item;
            var y := Apply(s, x, Poll(now, start));
              && y.hand == Some(it.(status := Processing, attempts := it.attempts + 1, lastAttempt := start))
              && y.q.entries == x.q.entries[..k] + x.q.entries[k + 1..]
              && y.taken == x.taken + multiset{it.id}
  {
    DequeueTakes(x.q, now, k);
  }

  /** A failure with attempts left puts the item at the end of the queue, with its retry time. */
  lemma FailAppends(s: Settings, x: Sys, err: string, now: int)
    requires 0 < s.base && 0 < s.max && Conserved(x) && Enabled(x, Fail(err, now))
    requires s.maxRetries < 0 || x.hand.value.attempts < s.maxRetries
    ensures var it := x.hand.value;
            var y := Apply(s, x, Fail(err, now));
            var n := |x.q.entries|;
              && IndexAgrees(y.q) && y.hand.None? && y.clock == now
              && |y.q.entries| == n + 1 && y.q.entries[..n] == x.q.entries
              && y.q.entries[n].item
                 == it.(status := Failed, error := err, nextRetry := now + DelayAfter(s, it.attempts))
  {
    RequeueSchedules(s, x.q, x.hand.value, err, now);
    FailConserves(s, x, err, now);
    var y := Apply(s, x, Fail(err, now));
    assert ItemsOf(y.q)[|x.q.entries|] == y.q.entries[|x.q.entries|].item;
  }

  /** If only the last entry can be due, a poll takes it exactly from its retry time on. */
  lemma LastIsTaken(s: Settings, x: Sys, n: nat, poll: int, start: int)
    requires IndexAgrees(x.q) && Enabled(x, Poll(poll, start)) && |x.q.entries| == n + 1
    requires x.q.entries[n].item.status == Failed
    requires forall e | e in x.q.entries[..n] :: e.item.status == Failed && poll < e.item.nextRetry
    ensures var it := x.q.entries[n].item;
            var y := Apply(s, x, Poll(poll, start));
              if poll < it.nextRetry then y.hand.None?
              else y.hand == Some(it.(status := Processing, attempts := it.attempts + 1, lastAttempt := start))
  {
    forall j | 0 <= j < n ensures x.q.entries[j] in x.q.entries[..n] {
      assert x.q.entries[..n][j] == x.q.entries[j];
    }
    if poll < x.q.entries[n].item.nextRetry {
      DequeueFindsNothing(x.q, poll);
    } else {
      PollTakesDue(s, x, poll, start, n);
    }
  }

  /**
   An item that fails with attempts left, while all others wait, is taken by the next poll if and only
   if that comes after the delay: not too early and not too late.
   */
  lemma RetriedWhenDue(s: Settings, x: Sys, err: string, now: int, poll: int, start: int)
    requires 0 < s.base && 0 < s.max && Conserved(x) && Enabled(x, Fail(err, now)) && now <= poll <= start
    requires s.maxRetries < 0 || x.hand.value.attempts < s.maxRetries
    requires forall e | e in x.q.entries :: e.item.status == Failed && poll < e.item.nextRetry
    ensures var it := x.hand.value;
            var y := Apply(s, Apply(s, x, Fail(err, now)), Poll(poll, start));
              if poll < now + DelayAfter(s, it.attempts) then y.hand.None?
              else y.hand.Some? && y.hand.value.id == it.id && y.hand.value.attempts == it.attempts + 1
  {
    FailAppends(s, x, err, now);
    LastIsTaken(s, Apply(s, x, Fail(err, now)), |x.q.entries|, poll, start);
  }

  // --- Late polls ----------------------------------------------------------------------------

  /** The processor polls, begins, and ends its attempt if it took something. */
  datatype Round = Round(poll: int, start: int, ok: bool, err: string, end: int)

  function Ending(r: Round): Event { if r.ok then Succeed(r.end) else Fail(r.err, r.end) }

  function PlayRound(s: Settings, x: Sys, r: Round): Sys
  {
    Apply(s, Apply(s, x, Poll(r.poll, r.start)), Ending(r))
  }

  function Played(s: Settings, x: Sys, rs: seq<Round>): Sys
  {
    if rs == [] then x else PlayRound(s, Played(s, x, rs[..|rs| - 1]), rs[|rs| - 1])
  }

  /** Time does not go back, and when the round polls no queued item has to wait any more. */
  predicate Late(x: Sys, r: Round)
  {
    && x.clock <= r.poll <= r.start <= r.end
    && forall e | e in x.q.entries :: e.item.status == Failed ==> e.item.nextRetry <= r.poll
  }

  predicate AllLate(s: Settings, x: Sys, rs: seq<Round>)
  {
    forall i | 0 <= i < |rs| :: Late(Played(s, x, rs[..i]), rs[i])
  }

  lemma LatePrefix(s: Settings, x: Sys, rs: seq<Round>)
    requires rs != [] && AllLate(s, x, rs)
    ensures AllLate(s, x, rs[..|rs| - 1]) && Late(Played(s, x, rs[..|rs| - 1]), rs[|rs| - 1])
  {
    var init := rs[..|rs| - 1];
    forall i | 0 <= i < |init| ensures Late(Played(s, x, init[..i]), init[i]) {
      assert init[..i] == rs[..i];
    }
  }

  lemma QueuedStatus(s: Settings, x: Sys)
    requires Inv(s, x)
    ensures forall e | e in x.q.entries :: e.item.status == Pending || e.item.status == Failed
  {
    forall e | e in x.q.entries ensures e.item.status == Pending || e.item.status == Failed {
      assert QueuedOk(s, x, e.item);
    }
  }

  /** A late poll takes the first entry, if there is one. */
  lemma LatePoll(s: Settings, x: Sys, r: Round)
    requires Inv(s, x) && x.hand.None? && Late(x, r)
    ensures var y := Apply(s, x, Poll(r.poll, r.start));
              if x.q.entries == [] then y.hand.None? && y.q.entries == [] && y.taken == x.taken
              else y.hand.Some? && y.taken == x.taken + multiset{x.q.entries[0].item.id}
  {
    QueuedStatus(s, x);
    if x.q.entries == [] {
      DequeueFindsNothing(x.q, r.poll);
    } else {
      assert x.q.entries[0] in x.q.entries;
      PollTakesDue(s, x, r.poll, r.start, 0);
    }
  }

  lemma PollLeaves(s: Settings, x: Sys, now: int, start: int)
    requires x.clock <= now <= start
    ensures var y := Apply(s, x, Poll(now, start));
              y.log == x.log && y.done == x.done && y.clock <= start
  {
  }

  lemma EndAttempt(s: Settings, x: Sys, e: Event)
    requires (e.Succeed? || e.Fail?) && x.clock <= e.now
    ensures var y := Apply(s, x, e);
              && y.hand.None? && y.log == x.log && y.taken == x.taken
              && (x.hand.None? ==> y == x)
              && (e.Fail? ==> y.done == x.done)
  {
  }

  /** A late round takes the first entry, if there is one, and ends the attempt at it. */
  lemma LateRound(s: Settings, x: Sys, r: Round)
    requires Inv(s, x) && x.hand.None? && Late(x, r)
    ensures var y := PlayRound(s, x, r);
              && Inv(s, y) && y.hand.None? && y.log == x.log
              && (x.q.entries == [] ==> y.q.entries == [])
              && (!r.ok ==> y.done == x.done)
              && y.taken == x.taken + (if x.q.entries == [] then multiset{} else multiset{x.q.entries[0].item.id})
              && (s.maxRetries >= 0 ==> Potential(s, y) <= Potential(s, x) - (if x.q.entries == [] then 0 else 1))
  {
    LatePoll(s, x, r);
    PollLeaves(s, x, r.poll, r.start);
    ApplyInv(s, x, Poll(r.poll, r.start));
    var mid := Apply(s, x, Poll(r.poll, r.start));
    EndAttempt(s, mid, Ending(r));
    ApplyInv(s, mid, Ending(r));
    if s.maxRetries >= 0 {
      ApplyDrains(s, x, Poll(r.poll, r.start));
      ApplyDrains(s, mid, Ending(r));
    }
  }

  lemma {:induction false} LateRounds(s: Settings, x: Sys, rs: seq<Round>)
    requires Inv(s, x) && x.hand.None? && AllLate(s, x, rs)
    ensures var y := Played(s, x, rs);
              && Inv(s, y) && y.hand.None? && y.log == x.log
              && ((forall r | r in rs :: !r.ok) ==> y.done == x.done)
              && (s.maxRetries >= 0 ==> y.q.entries == [] || Potential(s, y) + |rs| <= Potential(s, x))
  {
    if rs != [] {
      var init, r := rs[..|rs| - 1], rs[|rs| - 1];
      LatePrefix(s, x, rs);
      LateRounds(s, x, init);
      LateRound(s, Played(s, x, init), r);
    }
  }

  /** As many late rounds as the potential leave nothing queued: an item is completed, or dead after all attempts. */
  lemma LateRoundsDecideAll(s: Settings, x: Sys, rs: seq<Round>, id: string)
    requires s.maxRetries >= 0 && Inv(s, x) && x.hand.None? && AllLate(s, x, rs) && |rs| >= Potential(s, x)
    ensures var y := Played(s, x, rs);
              && y.q.entries == [] && y.hand.None?
              && (id in x.log ==> (id in y.done) != (id in y.dead) && (id in y.dead ==> y.taken[id] == Limit(s)))
  {
    LateRounds(s, x, rs);
    var y := Played(s, x, rs);
    QueueWeightCounts(s, y.q.entries);
    LawfulNow(s, y, id);
    assert id in x.log ==> id in Logged(y);
  }

  /** So if every attempt from now on fails, each item that was not completed is dead after exactly the limit. */
  lemma AllFailAllDie(s: Settings, x: Sys, rs: seq<Round>, id: string)
    requires s.maxRetries >= 0 && Inv(s, x) && x.hand.None? && AllLate(s, x, rs) && |rs| >= Potential(s, x)
    requires forall r | r in rs :: !r.ok
    ensures var y := Played(s, x, rs);
              id in x.log && id !in x.done ==> id in y.dead && y.taken[id] == y.failed[id] == Max(1, s.maxRetries)
  {
    LateRounds(s, x, rs);
    LateRoundsDecideAll(s, x, rs, id);
    LawfulNow(s, Played(s, x, rs), id);
  }

  lemma NothingElseQueued(s: Settings, x: Sys, id: string)
    requires Placed(x) && IndexAgrees(x.q) && x.log == [id]
    ensures forall e | e in x.q.entries :: e.item.id == id
    ensures x.hand.None? && id !in x.done && id !in x.dead ==> id in x.q.index
    ensures id in x.dead ==> x.q.entries == []
  {
    assert Logged(x) == {id};
    forall e | e in x.q.entries ensures e.item.id == id {
      assert e.item.id in x.q.index;
    }
    if x.q.entries != [] {
      assert x.q.entries[0] in x.q.entries && x.q.entries[0].item.id in x.q.index;
    }
  }

  lemma QueuedHasEntry(q: QueueState, id: string)
    requires IndexAgrees(q) && id in q.index
    ensures exists e :: e in q.entries && e.item.id == id
  {
    assert id in IdSet(q.entries);
  }

  lemma QueuedOne(s: Settings, x: Sys, id: string, e: Entry)
    requires QueuedOk(s, x, e.item) && e.item.id == id
    ensures s.maxRetries >= 0 ==> x.taken[id] < Limit(s)
  {
  }

  /** With a single item made, it is dead exactly after its last attempt, and else the only one queued. */
  lemma OnlyOne(s: Settings, x: Sys, id: string)
    requires Inv(s, x) && x.hand.None? && x.log == [id] && id !in x.done
    ensures if id in x.dead then x.q.entries == [] else x.q.entries != [] && x.q.entries[0].item.id == id
    ensures id in x.dead <==> s.maxRetries >= 0 && x.taken[id] >= Limit(s)
  {
    NothingElseQueued(s, x, id);
    if id in x.dead {
      assert DeadOk(s, x, x.dead[id]);
    } else {
      QueuedHasEntry(x.q, id);
      assert x.q.entries[0] in x.q.entries;
      QueuedOne(s, x, id, x.q.entries[0]);
    }
  }

  /** The system after `n` failing late rounds with one item: it was attempted every time until it was dead. */
  ghost predicate Tried(s: Settings, x: Sys, id: string, n: nat)
  {
    && Inv(s, x) && x.hand.None? && x.log == [id] && id !in x.done
    && x.taken[id] == (if s.maxRetries < 0 then n else Min(n, Max(1, s.maxRetries)))
    && (id in x.dead <==> s.maxRetries >= 0 && n >= Max(1, s.maxRetries))
  }

  lemma TryAgain(s: Settings, x: Sys, y: Sys, id: string, n: nat)
    requires Tried(s, x, id, n) && Inv(s, y) && y.hand.None? && y.log == x.log && y.done == x.done
    requires y.taken == x.taken + (if x.q.entries == [] then multiset{} else multiset{x.q.entries[0].item.id})
    ensures Tried(s, y, id, n + 1)
  {
    OnlyOne(s, x, id);
    OnlyOne(s, y, id);
  }

  lemma NotTriedYet(s: Settings, clock: int, it: ItemRec)
    requires IsNew(it)
    ensures Tried(s, Apply(s, Start(clock), Arrive(it)), it.id, 0)
  {
    Reachable(s, clock, []);
    ApplyInv(s, Start(clock), Arrive(it));
  }

  lemma {:induction false} TriesGoOn(s: Settings, x: Sys, rs: seq<Round>, id: string)
    requires Tried(s, x, id, 0) && AllLate(s, x, rs) && forall r | r in rs :: !r.ok
    ensures Tried(s, Played(s, x, rs), id, |rs|)
  {
    if rs != [] {
      var y := Played(s, x, rs[..|rs| - 1]);
      LatePrefix(s, x, rs);
      TriesGoOn(s, x, rs[..|rs| - 1], id);
      LateRound(s, y, rs[|rs| - 1]);
      TryAgain(s, y, Played(s, x, rs), id, |rs| - 1);
    }
  }

  /**
   An item that always fails, polled late enough each time, is attempted at every round until it is dead,
   and that is after exactly max(1, maxRetries) attempts, or never if retries are unlimited.
   */
  lemma AlwaysFailing(s: Settings, clock: int, it: ItemRec, rs: seq<Round>)
    requires IsNew(it) && AllLate(s, Apply(s, Start(clock), Arrive(it)), rs) && forall r | r in rs :: !r.ok
    ensures var y := Played(s, Apply(s, Start(clock), Arrive(it)), rs);
              && y.taken[it.id] == (if s.maxRetries < 0 then |rs| else Min(|rs|, Max(1, s.maxRetries)))
              && (it.id in y.dead <==> s.maxRetries >= 0 && |rs| >= Max(1, s.maxRetries))
  {
    NotTriedYet(s, clock, it);
    TriesGoOn(s, Apply(s, Start(clock), Arrive(it)), rs, it.id);
  }
}
