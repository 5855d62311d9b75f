/**
 The running system as a state machine: producers enqueue new items at any moment, one processor
 takes an item, works on it, and either completes it or hands it back. Every queue operation is one
 atomic step, as the mutex makes it. The invariants below hold in every reachable state.
 */
module SystemRuns {
  import opened Common
  import opened Items
  import opened Backoff
  import opened Queue
  import opened QueueRuns

  /** The system, with a record of what happened so far. */
  datatype Sys = Sys(
    q: QueueState,
    hand: Option<ItemRec>,        // the item being processed
    done: map<string, ItemRec>,   // completed items
    dead: map<string, ItemRec>,   // items marked DLQ
    log: seq<string>,             // IDs in the order they were enqueued
    firsts: seq<string>,          // IDs in the order they were first dequeued
    taken: multiset<string>,      // IDs of all attempts begun
    failed: multiset<string>,     // IDs of all attempts that failed
    began: map<string, int>,      // when the first attempt at an item began
    clock: int)

  datatype Event =
    | Arrive(item: ItemRec)              // a producer enqueues a new item
    | Poll(now: int, start: int)         // the processor dequeues at `now` and begins at `start`
    | Note(checksum: string, path: string) // the item in hand gets its checksum
    | Succeed(now: int)
    | Fail(err: string, now: int)

  function Start(clock: int): Sys
  {
    Sys(Fresh(0), None, map[], map[], [], [], multiset{}, multiset{}, map[], clock)
  }

  predicate IsNew(it: ItemRec) { it.status == Pending && it.attempts == 0 }

  /** Events that can happen: new items have unused IDs, one item is processed at a time, time does not go back. */
  predicate Enabled(x: Sys, e: Event)
  {
    match e
    case Arrive(it) => IsNew(it) && it.id !in x.log
    case Poll(now, start) => x.hand.None? && x.clock <= now <= start
    case Note(_, _) => x.hand.Some?
    case Succeed(now) => x.hand.Some? && x.clock <= now
    case Fail(_, now) => x.hand.Some? && x.clock <= now
  }

  function Arrived(x: Sys, it: ItemRec): Sys
  {
    var r := EnqueueSpec(x.q, it);
    if r.ok then x.(q := r.q, log := x.log + [it.id]) else x
  }

  function Polled(x: Sys, now: int, start: int): Sys
  {
    var r := DequeueSpec(x.q, now);
    match r.item
    case None => x.(clock := now)
    case Some(it) =>
      x.(q := r.q, hand := Some(AsProcessing(it, start)), clock := start,
         taken := x.taken + multiset{it.id},
         firsts := if it.attempts == 0 then x.firsts + [it.id] else x.firsts,
         began := if it.attempts == 0 then x.began[it.id := start] else x.began)
  }

  function Succeeded(x: Sys, now: int): Sys
    requires x.hand.Some?
  {
    var it := AsCompleted(x.hand.value, now);
    x.(hand := None, done := x.done[it.id := it], clock := now)
  }

  function HandedBack(s: Settings, x: Sys, err: string, now: int): Sys
    requires x.hand.Some?
  {
    var r := RequeueSpec(s, x.q, x.hand.value, err, now);
    x.(q := r.q, hand := None, clock := now, failed := x.failed + multiset{r.item.id},
       dead := if r.ok then x.dead else x.dead[r.item.id := r.item])
  }

  /** One step; an event that cannot happen changes nothing. */
  function Apply(s: Settings, x: Sys, e: Event): Sys
  {
    if !Enabled(x, e) then x else
      match e
      case Arrive(it) => Arrived(x, it)
      case Poll(now, start) => Polled(x, now, start)
      case Note(checksum, path) =>
        x.(hand := Some(x.hand.value.(checksum := checksum, checksumPath := path)))
      case Succeed(now) => Succeeded(x, now)
      case Fail(err, now) => HandedBack(s, x, err, now)
  }

  function Run(s: Settings, x: Sys, es: seq<Event>): Sys
  {
    if es == [] then x else Apply(s, Run(s, x, es[..|es| - 1]), es[|es| - 1])
  }

  // --- Conservation --------------------------------------------------------------------------

  function HandIds(x: Sys): set<string>
  {
    if x.hand.Some? then {x.hand.value.id} else {}
  }

  function Logged(x: Sys): set<string> { set id | id in x.log }

  /** Every enqueued ID is in exactly one of queue, hand, completed and DLQ. */
  ghost predicate Placed(x: Sys)
  {
    && Distinct(x.log)
    && Logged(x) == x.q.index.Keys + HandIds(x) + x.done.Keys + x.dead.Keys
    && x.q.index.Keys !! HandIds(x) !! x.done.Keys !! x.dead.Keys
    && (forall id | id in x.done :: x.done[id].id == id)
    && (forall id | id in x.dead :: x.dead[id].id == id)
  }

  /** ... and the queue's index agrees with its list, so an ID is in the queue once. */
  ghost predicate Conserved(x: Sys)
  {
    IndexAgrees(x.q) && Placed(x)
  }

  lemma PollFacts(q: QueueState, now: int)
    requires IndexAgrees(q)
    ensures var r := DequeueSpec(q, now);
              && IndexAgrees(r.q)
              && (forall e | e in r.q.entries :: e in q.entries)
              && match r.item
                 case None => r.q == q
                 case Some(it) =>
                   && (exists e :: e in q.entries && e.item == it && Ready(it, now))
                   && it.id in q.index
                   && r.q.index.Keys == q.index.Keys - {it.id}
                   && (forall e | e in r.q.entries :: e.item.id != it.id)
  {
    var k := FirstReady(q.entries, now);
    if k < |q.entries| {
      RemoveAgrees(q, k);
      assert q.entries[k] in q.entries;
      forall e | e in RemoveAt(q, k).entries ensures e in q.entries && e.item.id != q.entries[k].item.id {
        OthersDiffer(q, k, e);
      }
    }
  }

  lemma PushFacts(q: QueueState, it: ItemRec)
    requires IndexAgrees(q) && it.id !in q.index
    ensures IndexAgrees(Push(q, it)) && Push(q, it).index.Keys == q.index.Keys + {it.id}
    ensures forall e :: e in Push(q, it).entries <==> e in q.entries || e == Entry(q.next, it)
  {
    PushAgrees(q, it);
  }

  lemma ArrivePlaces(x: Sys, it: ItemRec)
    requires Placed(x) && it.id !in x.log
    ensures Placed(Arrived(x, it)) && it.id !in x.q.index
  {
    assert it.id !in Logged(x);
    var y := Arrived(x, it);
    DistinctSnoc(x.log, it.id);
    assert y.log == x.log + [it.id];
    assert Logged(y) == Logged(x) + {it.id};
    assert y.q.index.Keys == x.q.index.Keys + {it.id};
  }

  lemma ArriveConserves(x: Sys, it: ItemRec)
    requires Conserved(x) && it.id !in x.log
    ensures Conserved(Arrived(x, it)) && it.id !in x.q.index
  {
    ArrivePlaces(x, it);
    PushFacts(x.q, it);
  }

  lemma PollPlaces(x: Sys, now: int, start: int)
    requires Placed(x) && x.hand.None?
    requires var r := DequeueSpec(x.q, now);
               if r.item.None? then r.q == x.q
               else r.item.value.id in x.q.index && r.q.index.Keys == x.q.index.Keys - {r.item.value.id}
    ensures Placed(Polled(x, now, start))
  {
    var y := Polled(x, now, start);
    assert Logged(y) == Logged(x);
    assert HandIds(x) == {};
    assert y.hand.Some? ==> x.q.index.Keys == y.q.index.Keys + HandIds(y);
  }

  lemma PollConserves(x: Sys, now: int, start: int)
    requires Conserved(x) && x.hand.None?
    ensures Conserved(Polled(x, now, start))
  {
    PollFacts(x.q, now);
    PollPlaces(x, now, start);
  }

  lemma SucceedConserves(x: Sys, now: int)
    requires Conserved(x) && x.hand.Some?
    ensures Conserved(Succeeded(x, now))
  {
    assert Logged(Succeeded(x, now)) == Logged(x);
    assert Succeeded(x, now).done.Keys == x.done.Keys + HandIds(x);
  }

  lemma FailPlaces(s: Settings, x: Sys, err: string, now: int)
    requires Placed(x) && x.hand.Some?
    ensures Placed(HandedBack(s, x, err, now)) && x.hand.value.id !in x.q.index
  {
    var id := x.hand.value.id;
    var y := HandedBack(s, x, err, now);
    assert id in HandIds(x);
    assert Logged(y) == Logged(x);
    if y.dead == x.dead {
      assert y.q.index.Keys == x.q.index.Keys + {id};
    } else {
      assert y.dead.Keys == x.dead.Keys + {id};
    }
  }

  lemma FailConserves(s: Settings, x: Sys, err: string, now: int)
    requires Conserved(x) && x.hand.Some?
    ensures Conserved(HandedBack(s, x, err, now)) && x.hand.value.id !in x.q.index
  {
    FailPlaces(s, x, err, now);
    PushAgrees(x.q, RequeueSpec(s, x.q, x.hand.value, err, now).item);
  }

  lemma ApplyConserves(s: Settings, x: Sys, e: Event)
    requires Conserved(x)
    ensures Conserved(Apply(s, x, e))
  {
    if Enabled(x, e) {
      match e
      case Arrive(it) => ArriveConserves(x, it);
      case Poll(now, start) => PollConserves(x, now, start);
      case Note(_, _) =>
      case Succeed(now) => SucceedConserves(x, now);
      case Fail(err, now) => FailConserves(s, x, err, now);
    }
  }

  // --- The chronicle of attempts -------------------------------------------------------------

  /** The number of attempts an item gets when retries are finite. */
  function Limit(s: Settings): int { Max(1, s.maxRetries) }

  /** The delays imposed after attempts 1 .. a. */
  function Waited(s: Settings, a: nat): int
  {
    if a == 0 then 0 else Waited(s, a - 1) + Delay(s.base, s.max, a)
  }

  predicate Attempted(x: Sys, it: ItemRec, taken: int, failed: int)
  {
    x.taken[it.id] == taken && x.failed[it.id] == failed
  }

  predicate QueuedOk(s: Settings, x: Sys, it: ItemRec)
  {
    && Attempted(x, it, it.attempts, it.attempts)
    && if it.attempts == 0 then it.status == Pending else
         && it.status == Failed
         && (s.maxRetries >= 0 ==> it.attempts < s.maxRetries)
         && it.id in x.began && x.began[it.id] + Waited(s, it.attempts) <= it.nextRetry
  }

  /** Also says what is left of it when the item is completed or dead. */
  predicate AttemptOk(s: Settings, x: Sys, it: ItemRec)
  {
    && 1 <= it.attempts && (s.maxRetries >= 0 ==> it.attempts <= Limit(s))
    && it.id in x.began && x.began[it.id] + Waited(s, it.attempts - 1) <= it.lastAttempt
  }

  predicate HandOk(s: Settings, x: Sys, it: ItemRec)
  {
    && it.status == Processing && AttemptOk(s, x, it) && it.lastAttempt <= x.clock
    && Attempted(x, it, it.attempts, it.attempts - 1)
  }

  predicate DoneOk(s: Settings, x: Sys, it: ItemRec)
  {
    it.status == Completed && AttemptOk(s, x, it) && Attempted(x, it, it.attempts, it.attempts - 1)
  }

  predicate DeadOk(s: Settings, x: Sys, it: ItemRec)
  {
    && it.status == Dlq && AttemptOk(s, x, it) && Attempted(x, it, it.attempts, it.attempts)
    && s.maxRetries >= 0 && it.attempts == Limit(s)
  }

  ghost predicate Chronicle(s: Settings, x: Sys)
  {
    && (forall e | e in x.q.entries :: QueuedOk(s, x, e.item))
    && (x.hand.Some? ==> HandOk(s, x, x.hand.value))
    && (forall id | id in x.done :: DoneOk(s, x, x.done[id]))
    && (forall id | id in x.dead :: DeadOk(s, x, x.dead[id]))
    && (forall id | id in x.taken || id in x.failed :: id in x.log)
  }

  /** What the chronicle says of an item depends only on what happened to that item. */
  predicate SameHistory(x: Sys, y: Sys, id: string)
  {
    && x.taken[id] == y.taken[id] && x.failed[id] == y.failed[id]
    && (id in x.began ==> id in y.began && y.began[id] == x.began[id])
  }

  /** A step that adds nothing to the history of other items leaves the chronicle right about them. */
  lemma OthersStayRight(s: Settings, x: Sys, y: Sys, except: set<string>)
    requires Chronicle(s, x) && Placed(x)
    requires forall id | id !in except :: SameHistory(x, y, id)
    ensures forall e | e in x.q.entries && e.item.id !in except :: QueuedOk(s, y, e.item)
    ensures forall id | id in x.done && id !in except :: DoneOk(s, y, x.done[id])
    ensures forall id | id in x.dead && id !in except :: DeadOk(s, y, x.dead[id])
  {
    forall e | e in x.q.entries && e.item.id !in except ensures QueuedOk(s, y, e.item) {
      assert SameHistory(x, y, e.item.id);
    }
    forall id | id in x.done && id !in except ensures DoneOk(s, y, x.done[id]) {
      assert SameHistory(x, y, id);
    }
    forall id | id in x.dead && id !in except ensures DeadOk(s, y, x.dead[id]) {
      assert SameHistory(x, y, id);
    }
  }

  lemma ArriveChronicle(s: Settings, x: Sys, it: ItemRec)
    requires Conserved(x) && Chronicle(s, x) && IsNew(it) && it.id !in x.log
    ensures Chronicle(s, Arrived(x, it))
  {
    var y := Arrived(x, it);
    ArrivePlaces(x, it);
    PushFacts(x.q, it);
    assert it.id !in x.taken && it.id !in x.failed;
    OthersStayRight(s, x, y, {});
  }

  /** Taking an item: it was ready, so its delay has passed and the attempt is within the limit. */
  lemma TakenItemRight(s: Settings, x: Sys, now: int, start: int, it: ItemRec)
    requires DequeueSpec(x.q, now).item == Some(it) && now <= start
    requires QueuedOk(s, x, it) && Ready(it, now)
    ensures HandOk(s, Polled(x, now, start), AsProcessing(it, start))
  {
    var y := Polled(x, now, start);
    assert y.taken[it.id] == x.taken[it.id] + 1;
  }

  lemma PollChronicle(s: Settings, x: Sys, now: int, start: int)
    requires Conserved(x) && Chronicle(s, x) && x.hand.None? && x.clock <= now <= start
    ensures Chronicle(s, Polled(x, now, start))
  {
    PollFacts(x.q, now);
    if DequeueSpec(x.q, now).item.Some? {
      PollTakes(s, x, now, start, DequeueSpec(x.q, now).item.value);
    }
  }

  lemma PollTakes(s: Settings, x: Sys, now: int, start: int, it: ItemRec)
    requires Placed(x) && Chronicle(s, x) && x.hand.None? && x.clock <= now <= start
    requires DequeueSpec(x.q, now).item == Some(it) && it.id in x.q.index
    requires exists e :: e in x.q.entries && e.item == it && Ready(it, now)
    requires forall e | e in DequeueSpec(x.q, now).q.entries :: e in x.q.entries && e.item.id != it.id
    ensures Chronicle(s, Polled(x, now, start))
  {
    var y := Polled(x, now, start);
    assert it.id in Logged(x);
    OthersStayRight(s, x, y, {it.id});
    TakenItemRight(s, x, now, start, it);
  }

  lemma SucceedChronicle(s: Settings, x: Sys, now: int)
    requires Conserved(x) && Chronicle(s, x) && x.hand.Some? && x.clock <= now
    ensures Chronicle(s, Succeeded(x, now))
  {
    OthersStayRight(s, x, Succeeded(x, now), {});
  }

  /** Handing back: the delay now added separates the last attempt from the next. */
  lemma FailedItemRight(s: Settings, x: Sys, err: string, now: int)
    requires x.hand.Some? && HandOk(s, x, x.hand.value) && x.clock <= now
    ensures var y := HandedBack(s, x, err, now);
            var r := RequeueSpec(s, x.q, x.hand.value, err, now);
              if r.ok then QueuedOk(s, y, r.item) else DeadOk(s, y, r.item)
  {
  }

  lemma FailChronicle(s: Settings, x: Sys, err: string, now: int)
    requires Conserved(x) && Chronicle(s, x) && x.hand.Some? && x.clock <= now
    ensures Chronicle(s, HandedBack(s, x, err, now))
  {
    var it := x.hand.value;
    var y := HandedBack(s, x, err, now);
    FailPlaces(s, x, err, now);
    PushFacts(x.q, RequeueSpec(s, x.q, it, err, now).item);
    OthersStayRight(s, x, y, {it.id});
    FailedItemRight(s, x, err, now);
    assert it.id in HandIds(x) && it.id in Logged(x);
    forall e | e in x.q.entries ensures e.item.id != it.id {
      assert e.item.id in IdSet(x.q.entries);
    }
  }

  lemma NoteChronicle(s: Settings, x: Sys, checksum: string, path: string)
    requires Chronicle(s, x) && x.hand.Some?
    ensures Chronicle(s, x.(hand := Some(x.hand.value.(checksum := checksum, checksumPath := path))))
  {
  }

  lemma ApplyChronicle(s: Settings, x: Sys, e: Event)
    requires Conserved(x) && Chronicle(s, x)
    ensures Chronicle(s, Apply(s, x, e))
  {
    if Enabled(x, e) {
      match e
      case Arrive(it) => ArriveChronicle(s, x, it);
      case Poll(now, start) => PollChronicle(s, x, now, start);
      case Note(checksum, path) => NoteChronicle(s, x, checksum, path);
      case Succeed(now) => SucceedChronicle(s, x, now);
      case Fail(err, now) => FailChronicle(s, x, err, now);
    }
  }

  // --- First in, first out -------------------------------------------------------------------

  /** IDs of the entries not attempted yet, in list order. */
  function Unattempted(es: seq<Entry>): seq<string>
  {
    if es == [] then [] else
      Unattempted(es[..|es| - 1]) + if es[|es| - 1].item.attempts == 0 then [es[|es| - 1].item.id] else []
  }

  lemma {:induction false} UnattemptedConcat(a: seq<Entry>, b: seq<Entry>)
    ensures Unattempted(a + b) == Unattempted(a) + Unattempted(b)
  {
    if b == [] {
      assert a + b == a;
    } else {
      UnattemptedConcat(a, b[..|b| - 1]);
      assert (a + b)[..|a + b| - 1] == a + b[..|b| - 1];
    }
  }

  lemma {:induction false} NoneUnattempted(es: seq<Entry>)
    requires forall e | e in es :: e.item.attempts > 0
    ensures Unattempted(es) == []
  {
    if es != [] { NoneUnattempted(es[..|es| - 1]); }
  }

  /** First attempts happen in the order of enqueueing; what has not been attempted waits in that order. */
  ghost predicate Fifo(x: Sys)
  {
    && |x.firsts| <= |x.log|
    && x.firsts == x.log[..|x.firsts|]
    && Unattempted(x.q.entries) == x.log[|x.firsts|..]
  }

  lemma UnattemptedSplit(a: seq<Entry>, e: Entry, b: seq<Entry>)
    ensures Unattempted(a + [e] + b)
         == Unattempted(a) + (if e.item.attempts == 0 then [e.item.id] else []) + Unattempted(b)
  {
    UnattemptedConcat(a + [e], b);
    assert (a + [e])[..|a|] == a;
  }

  /** Entries before the first ready one are all waiting for a retry. */
  lemma BeforeFirstReady(q: QueueState, now: int)
    requires forall e | e in q.entries :: e.item.attempts == 0 ==> e.item.status == Pending
    ensures Unattempted(q.entries[..FirstReady(q.entries, now)]) == []
  {
    var k := FirstReady(q.entries, now);
    forall w | w in q.entries[..k] ensures w.item.attempts > 0 {
      var j :| 0 <= j < k && q.entries[j] == w;
      assert !Ready(w.item, now) && w in q.entries;
    }
    NoneUnattempted(q.entries[..k]);
  }

  /** Removing the first ready entry removes the oldest unattempted one, or none of them. */
  lemma UnattemptedAfterPoll(q: QueueState, now: int)
    requires forall e | e in q.entries :: e.item.attempts == 0 ==> e.item.status == Pending
    ensures var r := DequeueSpec(q, now);
              Unattempted(q.entries)
              == (if r.item.Some? && r.item.value.attempts == 0 then [r.item.value.id] else [])
                 + Unattempted(r.q.entries)
  {
    var k := FirstReady(q.entries, now);
    if k < |q.entries| {
      var a, e, b := q.entries[..k], q.entries[k], q.entries[k + 1..];
      assert q.entries == a + [e] + b;
      BeforeFirstReady(q, now);
      UnattemptedSplit(a, e, b);
      UnattemptedConcat(a, b);
    }
  }

  lemma UnattemptedAfterPush(q: QueueState, it: ItemRec)
    ensures Unattempted(Push(q, it).entries) == Unattempted(q.entries) + if it.attempts == 0 then [it.id] else []
  {
    assert Push(q, it).entries[..|q.entries|] == q.entries;
  }

  lemma PollFifo(x: Sys, now: int, start: int)
    requires Fifo(x) && forall e | e in x.q.entries :: e.item.attempts == 0 ==> e.item.status == Pending
    ensures Fifo(Polled(x, now, start))
  {
    UnattemptedAfterPoll(x.q, now);
    var r := DequeueSpec(x.q, now);
    if r.item.Some? && r.item.value.attempts == 0 {
      TakeNext(x.log, |x.firsts|, r.item.value.id, Unattempted(r.q.entries));
    }
  }

  lemma UnattemptedArePending(s: Settings, x: Sys)
    requires Chronicle(s, x)
    ensures forall e | e in x.q.entries :: e.item.attempts == 0 ==> e.item.status == Pending
  {
    forall e | e in x.q.entries ensures e.item.attempts == 0 ==> e.item.status == Pending {
      assert QueuedOk(s, x, e.item);
    }
  }

  lemma TakeNext(log: seq<string>, n: nat, id: string, rest: seq<string>)
    requires n <= |log| && log[n..] == [id] + rest
    ensures n < |log| && log[..n + 1] == log[..n] + [id] && log[n + 1..] == rest
  {
    assert log[n] == log[n..][0];
    assert log[n + 1..] == log[n..][1..];
  }

  lemma ArriveFifo(x: Sys, it: ItemRec)
    requires Fifo(x) && it.attempts == 0 && it.id !in x.q.index
    ensures Fifo(Arrived(x, it))
  {
    UnattemptedAfterPush(x.q, it);
    assert (x.log + [it.id])[|x.firsts|..] == x.log[|x.firsts|..] + [it.id];
    assert (x.log + [it.id])[..|x.firsts|] == x.log[..|x.firsts|];
  }

  lemma FailFifo(s: Settings, x: Sys, err: string, now: int)
    requires Fifo(x) && x.hand.Some? && x.hand.value.attempts > 0
    ensures Fifo(HandedBack(s, x, err, now))
  {
    UnattemptedAfterPush(x.q, RequeueSpec(s, x.q, x.hand.value, err, now).item);
  }

  lemma ApplyFifo(s: Settings, x: Sys, e: Event)
    requires Conserved(x) && Chronicle(s, x) && Fifo(x)
    ensures Fifo(Apply(s, x, e))
  {
    if Enabled(x, e) {
      match e
      case Arrive(it) => ArrivePlaces(x, it); ArriveFifo(x, it);
      case Poll(now, start) =>
        UnattemptedArePending(s, x);
        PollFifo(x, now, start);
      case Note(_, _) =>
      case Succeed(now) =>
      case Fail(err, now) => FailFifo(s, x, err, now);
    }
  }

  // --- Every reachable state -----------------------------------------------------------------

  ghost predicate Inv(s: Settings, x: Sys)
  {
    Conserved(x) && Chronicle(s, x) && Fifo(x)
  }

  lemma ApplyInv(s: Settings, x: Sys, e: Event)
    requires Inv(s, x)
    ensures Inv(s, Apply(s, x, e))
  {
    ApplyConserves(s, x, e);
    ApplyChronicle(s, x, e);
    ApplyFifo(s, x, e);
  }

  /** Conservation, the chronicle of attempts and FIFO order hold after every run from the empty system. */
  lemma {:induction false} Reachable(s: Settings, clock: int, es: seq<Event>)
    ensures Inv(s, Run(s, Start(clock), es))
  {
    if es == [] {
      assert Logged(Start(clock)) == {};
    } else {
      Reachable(s, clock, es[..|es| - 1]);
      ApplyInv(s, Run(s, Start(clock), es[..|es| - 1]), es[|es| - 1]);
    }
  }

  // --- The retry law -------------------------------------------------------------------------

  /**
   No item is attempted more than max(1, maxRetries) times, and an item is dead exactly when that
   many attempts at it have failed; from the first to the last of them at least the prescribed
   delays have passed.
   */
  predicate RetriedLawfully(s: Settings, x: Sys, id: string)
    requires s.maxRetries >= 0
  {
    && x.taken[id] <= Limit(s)
    && (id in x.dead <==> x.failed[id] == Limit(s))
    && (id in x.dead ==>
          && x.taken[id] == Limit(s)
          && id in x.began
          && x.dead[id].lastAttempt - x.began[id] >= Waited(s, Limit(s) - 1))
  }

  lemma LawfulNow(s: Settings, x: Sys, id: string)
    requires Conserved(x) && Chronicle(s, x) && s.maxRetries >= 0
    ensures RetriedLawfully(s, x, id)
  {
    if id in x.q.index {
      assert id in IdSet(x.q.entries);
      var e :| e in x.q.entries && e.item.id == id;
      assert QueuedOk(s, x, e.item);
    } else if id in x.done {
      assert DoneOk(s, x, x.done[id]);
    } else if id in x.dead {
      assert DeadOk(s, x, x.dead[id]);
    } else if id !in HandIds(x) {
      assert id !in Logged(x);
    }
  }

  /** The retry law holds for every item after every run with finite retries. */
  lemma RetryLaw(s: Settings, clock: int, es: seq<Event>, id: string)
    requires s.maxRetries >= 0
    ensures RetriedLawfully(s, Run(s, Start(clock), es), id)
  {
    Reachable(s, clock, es);
    LawfulNow(s, Run(s, Start(clock), es), id);
  }

  /** So once nothing is queued or in hand, every item was completed or failed as often as it may. */
  lemma EmptyMeansDecided(s: Settings, clock: int, es: seq<Event>, id: string)
    requires s.maxRetries >= 0
    ensures var x := Run(s, Start(clock), es);
              x.q.entries == [] && x.hand.None? && id in x.log ==>
                (id in x.done) != (id in x.dead) && (id in x.dead ==> x.taken[id] == x.failed[id] == Limit(s))
  {
    var x := Run(s, Start(clock), es);
    Reachable(s, clock, es);
    LawfulNow(s, x, id);
    assert id in x.log ==> id in Logged(x);
  }

  /** With unlimited retries nothing is ever dead. */
  lemma UnlimitedNeverDies(s: Settings, clock: int, es: seq<Event>, id: string)
    requires s.maxRetries < 0
    ensures id !in Run(s, Start(clock), es).dead
  {
    Reachable(s, clock, es);
    var x := Run(s, Start(clock), es);
    assert id in x.dead ==> DeadOk(s, x, x.dead[id]);
  }

  /** The total of the delays: a sum of capped powers of two, and base * (2^(a+1) - 2) below the cap. */
  lemma {:induction false} WaitedClosedForm(s: Settings, a: nat)
    requires 0 < s.base && 0 < s.max && s.base * Pow2(a) <= s.max
    ensures Waited(s, a) == s.base * (Pow2(a + 1) - 2)
  {
    if a > 0 {
      Doubling(s.base, a);
      Pow2Monotone(0, a - 1);
      ScaleMonotone(s.base, 1, Pow2(a - 1));
      WaitedClosedForm(s, a - 1);
      BackoffClosedForm(s.base, s.max, a);
      assert Delay(s.base, s.max, a) == s.base * Pow2(a);
      Distribute(s.base, Pow2(a));
    }
  }

  lemma Distribute(b: int, p: int)
    ensures b * (p - 2) + b * p == b * (2 * p - 2)
  {
  }

  // --- Draining ------------------------------------------------------------------------------

  /** Attempts an item can still take up. */
  function Weight(s: Settings, it: ItemRec): int { Max(1, s.maxRetries - it.attempts) }

  function QueueWeight(s: Settings, es: seq<Entry>): int
  {
    if es == [] then 0 else QueueWeight(s, es[..|es| - 1]) + Weight(s, es[|es| - 1].item)
  }

  function Potential(s: Settings, x: Sys): int
  {
    QueueWeight(s, x.q.entries)
    + if x.hand.Some? then 1 + Max(0, s.maxRetries - x.hand.value.attempts) else 0
  }

  lemma {:induction false} QueueWeightConcat(s: Settings, a: seq<Entry>, b: seq<Entry>)
    ensures QueueWeight(s, a + b) == QueueWeight(s, a) + QueueWeight(s, b)
  {
    if b == [] {
      assert a + b == a;
    } else {
      QueueWeightConcat(s, a, b[..|b| - 1]);
      assert (a + b)[..|a + b| - 1] == a + b[..|b| - 1];
    }
  }

  lemma {:induction false} QueueWeightCounts(s: Settings, es: seq<Entry>)
    ensures QueueWeight(s, es) >= |es|
  {
    if es != [] { QueueWeightCounts(s, es[..|es| - 1]); }
  }

  predicate Finishes(x: Sys, e: Event) { (e.Succeed? || e.Fail?) && Enabled(x, e) }

  lemma QueueWeightSplit(s: Settings, a: seq<Entry>, e: Entry, b: seq<Entry>)
    ensures QueueWeight(s, a + [e] + b) == QueueWeight(s, a + b) + Weight(s, e.item)
  {
    QueueWeightConcat(s, a + [e], b);
    QueueWeightConcat(s, a, b);
    assert (a + [e])[..|a|] == a;
  }

  lemma PollWeight(s: Settings, q: QueueState, now: int)
    ensures var r := DequeueSpec(q, now);
              QueueWeight(s, q.entries)
              == QueueWeight(s, r.q.entries) + if r.item.Some? then Weight(s, r.item.value) else 0
  {
    var k := FirstReady(q.entries, now);
    if k < |q.entries| {
      assert q.entries == q.entries[..k] + [q.entries[k]] + q.entries[k + 1..];
      QueueWeightSplit(s, q.entries[..k], q.entries[k], q.entries[k + 1..]);
    }
  }

  lemma PushWeight(s: Settings, q: QueueState, it: ItemRec)
    ensures QueueWeight(s, Push(q, it).entries) == QueueWeight(s, q.entries) + Weight(s, it)
  {
    assert Push(q, it).entries[..|q.entries|] == q.entries;
  }

  lemma PollDrains(s: Settings, x: Sys, now: int, start: int)
    requires s.maxRetries >= 0 && x.hand.None?
    ensures Potential(s, Polled(x, now, start)) == Potential(s, x)
  {
    PollWeight(s, x.q, now);
  }

  lemma FailDrains(s: Settings, x: Sys, err: string, now: int)
    requires s.maxRetries >= 0 && x.hand.Some?
    ensures Potential(s, HandedBack(s, x, err, now)) == Potential(s, x) - 1
  {
    PushWeight(s, x.q, RequeueSpec(s, x.q, x.hand.value, err, now).item);
  }

  /** Dequeueing moves potential into the hand; finishing an attempt, well or badly, uses some up. */
  lemma ApplyDrains(s: Settings, x: Sys, e: Event)
    requires s.maxRetries >= 0 && !e.Arrive?
    ensures Potential(s, Apply(s, x, e)) <= Potential(s, x) - if Finishes(x, e) then 1 else 0
  {
    if Enabled(x, e) {
      match e
      case Poll(now, start) => PollDrains(s, x, now, start);
      case Note(_, _) =>
      case Succeed(now) =>
      case Fail(err, now) => FailDrains(s, x, err, now);
    }
  }

  function Finished(s: Settings, x: Sys, es: seq<Event>): nat
  {
    if es == [] then 0 else
      Finished(s, x, es[..|es| - 1]) + if Finishes(Run(s, x, es[..|es| - 1]), es[|es| - 1]) then 1 else 0
  }

  /** Without new arrivals every finished attempt lowers the potential, so only so many can follow. */
  lemma {:induction false} RunDrains(s: Settings, x: Sys, es: seq<Event>)
    requires s.maxRetries >= 0 && forall e | e in es :: !e.Arrive?
    ensures Finished(s, x, es) + Potential(s, Run(s, x, es)) <= Potential(s, x)
  {
    if es != [] {
      RunDrains(s, x, es[..|es| - 1]);
      ApplyDrains(s, Run(s, x, es[..|es| - 1]), es[|es| - 1]);
    }
  }

  /** After as many finished attempts as the initial potential nothing is queued and nothing is in hand. */
  lemma QueueEmpties(s: Settings, x: Sys, es: seq<Event>)
    requires s.maxRetries >= 0 && forall e | e in es :: !e.Arrive?
    requires Finished(s, x, es) >= Potential(s, x)
    ensures Run(s, x, es).q.entries == [] && Run(s, x, es).hand.None?
  {
    RunDrains(s, x, es);
    QueueWeightCounts(s, Run(s, x, es).q.entries);
  }
}
