/**
 Whole sequences of queue operations: agreement of the index with the list, equivalence of a saved
 and reloaded queue, and bounded waiting.
 */
module QueueRuns {
  import opened Common
  import opened Items
  import opened Queue
  import opened FileSystem
  import opened Persistence

  /** One atomic operation; the clock reading is part of it. */
  datatype Op = Enq(item: ItemRec) | Deq(now: int) | Req(item: ItemRec, err: string, at: int)

  datatype Reply = Accepted(ok: bool) | Delivered(what: Option<ItemRec>) | Returned(item: ItemRec, ok: bool)

  datatype Turn = Turn(q: QueueState, reply: Reply)

  function Do(s: Settings, q: QueueState, op: Op): Turn
  {
    match op
    case Enq(it) => var r := EnqueueSpec(q, it); Turn(r.q, Accepted(r.ok))
    case Deq(now) => var r := DequeueSpec(q, now); Turn(r.q, Delivered(r.item))
    case Req(it, err, at) => var r := RequeueSpec(s, q, it, err, at); Turn(r.q, Returned(r.item, r.ok))
  }

  function Exec(s: Settings, q: QueueState, ops: seq<Op>): QueueState
    decreases |ops|
  {
    if ops == [] then q else Exec(s, Do(s, q, ops[0]).q, ops[1..])
  }

  function Replies(s: Settings, q: QueueState, ops: seq<Op>): seq<Reply>
    decreases |ops|
  {
    if ops == [] then [] else [Do(s, q, ops[0]).reply] + Replies(s, Do(s, q, ops[0]).q, ops[1..])
  }

  // --- Index agreement -----------------------------------------------------------------------

  lemma AgreeingIdsDiffer(q: QueueState, i: nat, j: nat)
    requires IndexAgrees(q) && i < j < |q.entries|
    ensures q.entries[i].item.id != q.entries[j].item.id
  {
    assert q.entries[i] in q.entries && q.entries[j] in q.entries;
  }

  /** Adding an element keeps the index in agreement exactly when its ID is not queued already. */
  lemma PushAgrees(q: QueueState, it: ItemRec)
    requires IndexAgrees(q)
    ensures IndexAgrees(Push(q, it)) <==> it.id !in q.index
  {
    var p := Push(q, it);
    assert p.entries[|q.entries|] == Entry(q.next, it);
    assert IdSet(p.entries) == IdSet(q.entries) + {it.id};
    if it.id in q.index {
      var e :| e in q.entries && e.item.id == it.id;
      assert e in p.entries && e.handle != p.index[it.id];
    } else {
      forall i, j | 0 <= i < j < |p.entries| ensures p.entries[i].handle != p.entries[j].handle {
        assert q.entries[i] in q.entries;
      }
    }
  }

  lemma OthersDiffer(q: QueueState, k: nat, e: Entry)
    requires IndexAgrees(q) && k < |q.entries| && e in RemoveAt(q, k).entries
    ensures e in q.entries && e.item.id != q.entries[k].item.id
  {
    if e in q.entries[..k] {
      var i :| 0 <= i < k && q.entries[i] == e;
      AgreeingIdsDiffer(q, i, k);
    } else {
      var i :| k < i < |q.entries| && q.entries[i] == e;
      AgreeingIdsDiffer(q, k, i);
    }
  }

  lemma IdsAfterRemoval(q: QueueState, k: nat)
    requires IndexAgrees(q) && k < |q.entries|
    ensures IdSet(RemoveAt(q, k).entries) == IdSet(q.entries) - {q.entries[k].item.id}
  {
    var x, rest := q.entries[k], RemoveAt(q, k).entries;
    assert q.entries == q.entries[..k] + [x] + q.entries[k + 1..];
    forall e | e in rest ensures e in q.entries && e.item.id != x.item.id { OthersDiffer(q, k, e); }
    forall id | id in IdSet(q.entries) - {x.item.id} ensures id in IdSet(rest) {
      var e :| e in q.entries && e.item.id == id;
      assert e in rest;
    }
  }

  lemma HandlesAfterRemoval(q: QueueState, k: nat, i: nat, j: nat)
    requires IndexAgrees(q) && k < |q.entries| && i < j < |q.entries| - 1
    ensures RemoveAt(q, k).entries[i].handle != RemoveAt(q, k).entries[j].handle
  {
    assert RemoveAt(q, k).entries[i] == q.entries[if i < k then i else i + 1];
    assert RemoveAt(q, k).entries[j] == q.entries[if j < k then j else j + 1];
  }

  lemma RemoveAgrees(q: QueueState, k: nat)
    requires IndexAgrees(q) && k < |q.entries|
    ensures IndexAgrees(RemoveAt(q, k)) && q.entries[k].item.id !in RemoveAt(q, k).index
  {
    var p := RemoveAt(q, k);
    IdsAfterRemoval(q, k);
    assert p.index.Keys == IdSet(p.entries);
    forall e | e in p.entries ensures e.item.id in p.index && p.index[e.item.id] == e.handle < p.next {
      OthersDiffer(q, k, e);
    }
    forall i, j | 0 <= i < j < |p.entries| ensures p.entries[i].handle != p.entries[j].handle {
      HandlesAfterRemoval(q, k, i, j);
    }
  }

  /** What a caller must respect: an item given to Requeue is not in the queue. The processor does. */
  predicate Disciplined(s: Settings, q: QueueState, ops: seq<Op>)
    decreases |ops|
  {
    ops == [] || ((ops[0].Req? ==> ops[0].item.id !in q.index) && Disciplined(s, Do(s, q, ops[0]).q, ops[1..]))
  }

  lemma DoAgrees(s: Settings, q: QueueState, op: Op)
    requires IndexAgrees(q) && (op.Req? ==> op.item.id !in q.index)
    ensures IndexAgrees(Do(s, q, op).q)
  {
    match op
    case Enq(it) => PushAgrees(q, it);
    case Deq(now) => if FirstReady(q.entries, now) < |q.entries| { RemoveAgrees(q, FirstReady(q.entries, now)); }
    case Req(it, err, at) => PushAgrees(q, RequeueSpec(s, q, it, err, at).item);
  }

  /** Over every disciplined run the index agrees with the list. */
  lemma {:induction false} RunAgrees(s: Settings, q: QueueState, ops: seq<Op>)
    requires IndexAgrees(q) && Disciplined(s, q, ops)
    ensures IndexAgrees(Exec(s, q, ops))
    decreases |ops|
  {
    if ops != [] {
      DoAgrees(s, q, ops[0]);
      RunAgrees(s, Do(s, q, ops[0]).q, ops[1..]);
    }
  }

  function Ids(xs: seq<ItemRec>): seq<string>
  {
    seq(|xs|, i requires 0 <= i < |xs| => xs[i].id)
  }

  lemma {:induction false} PushAllItems(n: nat, xs: seq<ItemRec>)
    ensures ItemsOf(PushAll(Fresh(n), xs)) == xs
    ensures forall id :: id in PushAll(Fresh(n), xs).index <==> id in Ids(xs)
  {
    if xs != [] {
      var init := xs[..|xs| - 1];
      PushAllItems(n, init);
      var q := PushAll(Fresh(n), init);
      assert ItemsOf(Push(q, xs[|xs| - 1])) == ItemsOf(q) + [xs[|xs| - 1]];
      assert Ids(xs) == Ids(init) + [xs[|xs| - 1].id];
    }
  }

  /** Load re-establishes agreement exactly for lists without duplicate IDs. */
  lemma {:induction false} LoadAgrees(n: nat, xs: seq<ItemRec>)
    ensures IndexAgrees(PushAll(Fresh(n), xs)) <==> Distinct(Ids(xs))
  {
    PushAllItems(n, xs);
    if xs != [] {
      var init, last := xs[..|xs| - 1], xs[|xs| - 1];
      var q := PushAll(Fresh(n), init);
      LoadAgrees(n, init);
      PushAllItems(n, init);
      assert Ids(xs) == Ids(init) + [last.id];
      DistinctSnoc(Ids(init), last.id);
      if IndexAgrees(q) {
        PushAgrees(q, last);
      } else if IndexAgrees(Push(q, last)) {
        IdsOfAgreeing(Push(q, last));
      }
    }
  }

  lemma IdsOfAgreeing(q: QueueState)
    requires IndexAgrees(q)
    ensures Distinct(Ids(ItemsOf(q)))
  {
    forall i, j | 0 <= i < j < |q.entries| ensures q.entries[i].item.id != q.entries[j].item.id {
      AgreeingIdsDiffer(q, i, j);
    }
  }

  lemma DistinctSnoc(xs: seq<string>, x: string)
    ensures Distinct(xs + [x]) <==> Distinct(xs) && x !in xs
  {
    var ys := xs + [x];
    if Distinct(ys) {
      forall i, j | 0 <= i < j < |xs| ensures xs[i] != xs[j] {
        assert ys[i] != ys[j];
      }
      forall i | 0 <= i < |xs| ensures xs[i] != x {
        assert ys[i] != ys[|xs|];
      }
    }
  }

  // --- Saving and reloading ------------------------------------------------------------------

  /** Two queues that list the same items and know the same IDs. */
  predicate Alike(q: QueueState, q': QueueState)
  {
    ItemsOf(q) == ItemsOf(q') && q.index.Keys == q'.index.Keys
  }

  lemma {:induction false} FirstReadyAlike(es: seq<Entry>, es': seq<Entry>, now: int)
    requires |es| == |es'| && forall i | 0 <= i < |es| :: es[i].item == es'[i].item
    ensures FirstReady(es, now) == FirstReady(es', now)
  {
    if es != [] { FirstReadyAlike(es[1..], es'[1..], now); }
  }

  lemma PushAlike(q: QueueState, q': QueueState, it: ItemRec)
    requires Alike(q, q')
    ensures Alike(Push(q, it), Push(q', it))
  {
    assert ItemsOf(Push(q, it)) == ItemsOf(q) + [it];
    assert ItemsOf(Push(q', it)) == ItemsOf(q') + [it];
  }

  lemma SameItems(q: QueueState, q': QueueState)
    requires ItemsOf(q) == ItemsOf(q')
    ensures |q.entries| == |q'.entries| && forall i | 0 <= i < |q.entries| :: q.entries[i].item == q'.entries[i].item
  {
    assert |q.entries| == |ItemsOf(q)| == |ItemsOf(q')|;
    forall i | 0 <= i < |q.entries| ensures q.entries[i].item == q'.entries[i].item {
      assert ItemsOf(q)[i] == ItemsOf(q')[i];
    }
  }

  lemma ItemsAfterRemoval(q: QueueState, k: nat)
    requires k < |q.entries|
    ensures ItemsOf(RemoveAt(q, k)) == ItemsOf(q)[..k] + ItemsOf(q)[k + 1..]
  {
  }

  lemma DoAlike(s: Settings, q: QueueState, q': QueueState, op: Op)
    requires Alike(q, q')
    ensures Alike(Do(s, q, op).q, Do(s, q', op).q) && Do(s, q, op).reply == Do(s, q', op).reply
  {
    match op
    case Enq(it) => PushAlike(q, q', it);
    case Req(it, err, at) => PushAlike(q, q', RequeueSpec(s, q, it, err, at).item);
    case Deq(now) =>
      SameItems(q, q');
      FirstReadyAlike(q.entries, q'.entries, now);
      var k := FirstReady(q.entries, now);
      if k < |q.entries| {
        ItemsAfterRemoval(q, k);
        ItemsAfterRemoval(q', k);
      }
  }

  lemma {:induction false} AlikeQueuesReplyAlike(s: Settings, q: QueueState, q': QueueState, ops: seq<Op>)
    requires Alike(q, q')
    ensures Replies(s, q, ops) == Replies(s, q', ops)
    decreases |ops|
  {
    if ops != [] {
      DoAlike(s, q, q', ops[0]);
      AlikeQueuesReplyAlike(s, Do(s, q, ops[0]).q, Do(s, q', ops[0]).q, ops[1..]);
    }
  }

  /**
   A queue reloaded from its saved list cannot be told from the original by any sequence of
   operations under the same clock, although all its elements are new.
   */
  lemma ReloadedQueueIsEquivalent(s: Settings, q: QueueState, n: nat, ops: seq<Op>)
    requires IndexAgrees(q)
    ensures Replies(s, PushAll(Fresh(n), ItemsOf(q)), ops) == Replies(s, q, ops)
  {
    var q' := PushAll(Fresh(n), ItemsOf(q));
    PushAllItems(n, ItemsOf(q));
    forall id ensures id in q.index <==> id in Ids(ItemsOf(q)) {
      if id in q.index {
        var i :| 0 <= i < |q.entries| && q.entries[i].item.id == id;
        assert Ids(ItemsOf(q))[i] == id;
      }
      if id in Ids(ItemsOf(q)) {
        var i :| 0 <= i < |q.entries| && Ids(ItemsOf(q))[i] == id;
        assert q.entries[i] in q.entries;
      }
    }
    AlikeQueuesReplyAlike(s, q, q', ops);
  }

  /**
   Saving and loading through the disk: after a successful save the loaded queue answers like the saved
   one; after any failure the load finds what it would have found without the attempt.
   */
  lemma SaveThenLoad(s: Settings, c: Codec, w: World, path: string, q: QueueState, write: WriteFault, rename: bool,
                     n: nat, ops: seq<Op>)
    requires Lossless(c) && IndexAgrees(q)
    ensures var saved := SaveSpec(c, w, path, ItemsOf(q), write, rename);
            var xs := LoadSpec(c, saved.world.files, path, false);
              if saved.ok then xs.Some? && Replies(s, PushAll(Fresh(n), xs.value), ops) == Replies(s, q, ops)
              else xs == LoadSpec(c, w.files, path, false)
  {
    var saved := SaveSpec(c, w, path, ItemsOf(q), write, rename);
    SaveIsAtomic(c, w, path, ItemsOf(q), write, rename);
    assert Lookup(saved.world.files, path)
        == if saved.ok then Some(c.marshal(ItemsOf(q))) else Lookup(w.files, path);
    assert c.unmarshal(c.marshal(ItemsOf(q))) == Some(ItemsOf(q));
    ReloadedQueueIsEquivalent(s, q, n, ops);
  }

  // --- Bounded waiting -----------------------------------------------------------------------

  /** Where the element at position `p` is after one operation; None if it is handed out. */
  function NextPosition(q: QueueState, op: Op, p: nat): Option<nat>
  {
    if !op.Deq? then Some(p) else
      var k := FirstReady(q.entries, op.now);
      if k == p then None else Some(if k < p then p - 1 else p)
  }

  /** Where the element now at position `p` is after the operations; None once it was handed out. */
  function Track(s: Settings, q: QueueState, ops: seq<Op>, p: nat): Option<nat>
    decreases |ops|
  {
    if ops == [] then Some(p) else
      match NextPosition(q, ops[0], p)
      case None => None
      case Some(p') => Track(s, Do(s, q, ops[0]).q, ops[1..], p')
  }

  function Dequeues(ops: seq<Op>): nat
  {
    if ops == [] then 0 else (if ops[0].Deq? then 1 else 0) + Dequeues(ops[1..])
  }

  lemma NextPositionFollows(s: Settings, q: QueueState, op: Op, p: nat)
    requires p < |q.entries|
    ensures var t := Do(s, q, op);
            match NextPosition(q, op, p)
            case Some(p') => p' <= p && p' < |t.q.entries| && t.q.entries[p'] == q.entries[p]
            case None => t.reply == Delivered(Some(q.entries[p].item))
  {
  }

  /** Tracking is faithful: the element is found there, or its item was among the deliveries. */
  lemma {:induction false} TrackFollows(s: Settings, q: QueueState, ops: seq<Op>, p: nat)
    requires p < |q.entries|
    ensures match Track(s, q, ops, p)
            case Some(p') => p' < |Exec(s, q, ops).entries| && Exec(s, q, ops).entries[p'] == q.entries[p]
            case None => Delivered(Some(q.entries[p].item)) in Replies(s, q, ops)
    decreases |ops|
  {
    if ops != [] {
      var op, rest := ops[0], ops[1..];
      NextPositionFollows(s, q, op, p);
      var p' := NextPosition(q, op, p);
      if p'.Some? { TrackFollows(s, Do(s, q, op).q, rest, p'.value); }
    }
  }

  /** The number of elements ahead never grows, whatever is enqueued, requeued or dequeued. */
  lemma {:induction false} NeverOvertaken(s: Settings, q: QueueState, ops: seq<Op>, p: nat)
    requires p < |q.entries|
    ensures var t := Track(s, q, ops, p); t.Some? ==> t.value <= p
    decreases |ops|
  {
    if ops != [] {
      NextPositionFollows(s, q, ops[0], p);
      var p' := NextPosition(q, ops[0], p);
      if p'.Some? { NeverOvertaken(s, Do(s, q, ops[0]).q, ops[1..], p'.value); }
    }
  }

  /**
   From the moment an element is ready it is handed out within (elements ahead + 1) dequeues,
   whatever is enqueued or requeued meanwhile.
   */
  lemma BoundedWaiting(s: Settings, q: QueueState, ops: seq<Op>, p: nat, since: int)
    requires p < |q.entries| && Ready(q.entries[p].item, since)
    requires forall op | op in ops && op.Deq? :: since <= op.now
    requires Dequeues(ops) > p
    ensures Track(s, q, ops, p) == None
    ensures Delivered(Some(q.entries[p].item)) in Replies(s, q, ops)
  {
    WaitingShrinks(s, q, ops, p);
    TrackFollows(s, q, ops, p);
  }

  /** A ready element is handed out by the next dequeue, or moves one place up. */
  lemma ReadyMovesUp(q: QueueState, op: Op, p: nat)
    requires p < |q.entries| && (op.Deq? ==> Ready(q.entries[p].item, op.now))
    ensures NextPosition(q, op, p) == if !op.Deq? then Some(p)
                                      else if FirstReady(q.entries, op.now) == p then None else Some(p - 1)
    ensures op.Deq? ==> FirstReady(q.entries, op.now) <= p
  {
  }

  lemma {:induction false} WaitingShrinks(s: Settings, q: QueueState, ops: seq<Op>, p: nat)
    requires p < |q.entries|
    requires forall op | op in ops && op.Deq? :: Ready(q.entries[p].item, op.now)
    ensures var t := Track(s, q, ops, p); t.Some? ==> t.value + Dequeues(ops) <= p
    decreases |ops|
  {
    if ops != [] {
      var op, rest := ops[0], ops[1..];
      assert op in ops && forall o | o in rest :: o in ops;
      ReadyMovesUp(q, op, p);
      NextPositionFollows(s, q, op, p);
      var p' := NextPosition(q, op, p);
      if p'.Some? { WaitingShrinks(s, Do(s, q, op).q, rest, p'.value); }
    }
  }
}
