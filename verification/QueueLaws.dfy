/** What each operation of the queue does, said on the fields of the items and without its specification function. */
module QueueLaws {
  import opened Common
  import opened Items
  import opened Backoff
  import opened FileSystem
  import opened Persistence
  import opened Queue
  import opened QueueRuns

  lemma AppendedLast(q: QueueState, it: ItemRec)
    ensures ItemsOf(Push(q, it)) == ItemsOf(q) + [it]
    ensures IndexAgrees(q) && it.id !in q.index ==> IndexAgrees(Push(q, it))
  {
    if IndexAgrees(q) { PushAgrees(q, it); }
  }

  /** An item is refused exactly if one with its ID is queued; otherwise it goes to the end. */
  lemma EnqueueAppends(q: QueueState, it: ItemRec)
    requires IndexAgrees(q)
    ensures var r := EnqueueSpec(q, it);
              && (r.ok <==> forall e | e in q.entries :: e.item.id != it.id)
              && (!r.ok ==> r.q == q)
              && (r.ok ==> ItemsOf(r.q) == ItemsOf(q) + [it] && IndexAgrees(r.q))
  {
    if it.id in q.index {
      assert it.id in IdSet(q.entries);
    } else {
      forall e | e in q.entries ensures e.item.id != it.id { assert e.item.id in q.index; }
      AppendedLast(q, it);
    }
  }

  /** The first entry that is neither dead nor waiting for its retry time is taken out of the queue. */
  lemma DequeueTakes(q: QueueState, now: int, k: nat)
    requires IndexAgrees(q) && k < |q.entries|
    requires forall j | 0 <= j < k :: var it := q.entries[j].item;
               it.status == Dlq || (it.status == Failed && now < it.nextRetry)
    requires var it := q.entries[k].item; it.status != Dlq && (it.status == Failed ==> it.nextRetry <= now)
    ensures var r := DequeueSpec(q, now);
              && r.item == Some(q.entries[k].item)
              && r.q.entries == q.entries[..k] + q.entries[k + 1..]
              && IndexAgrees(r.q)
  {
    FirstReadyIs(q.entries, now, k);
    RemoveAgrees(q, k);
  }

  /** Nothing is taken, and nothing changes, exactly if every entry is dead or waiting. */
  lemma DequeueFindsNothing(q: QueueState, now: int)
    ensures var r := DequeueSpec(q, now);
              && (r.item.None? <==> forall e | e in q.entries ::
                                      e.item.status == Dlq || (e.item.status == Failed && now < e.item.nextRetry))
              && (r.item.None? ==> r.q == q)
  {
    var k := FirstReady(q.entries, now);
    if k < |q.entries| {
      assert q.entries[k] in q.entries;
    }
  }

  /**
   A failed item gets its error and its retry time, base * 2^attempts cut off at the maximum from now;
   it is put at the end of the queue if it has attempts left, else it is dead and not queued.
   */
  lemma RequeueSchedules(s: Settings, q: QueueState, it: ItemRec, err: string, now: int)
    requires 0 < s.base && 0 < s.max
    ensures var r := RequeueSpec(s, q, it, err, now);
            var delay := if it.attempts == 0 then s.base else Min(s.base * Pow2(it.attempts), s.max);
            var left := s.maxRetries < 0 || it.attempts < s.maxRetries;
              && r.item == it.(status := if left then Failed else Dlq, error := err, nextRetry := now + delay)
              && r.ok == left
              && ItemsOf(r.q) == ItemsOf(q) + (if left then [r.item] else [])
              && (IndexAgrees(q) && it.id !in q.index ==> IndexAgrees(r.q))
  {
    BackoffClosedForm(s.base, s.max, it.attempts);
    AppendedLast(q, RequeueSpec(s, q, it, err, now).item);
  }

  /**
   A missing state file gives an empty queue; one that cannot be read or parsed is an error; any other
   gives the items it holds, in order.
   */
  lemma LoadOutcomes(c: Codec, files: Files, path: string, read: bool, next: nat)
    ensures var xs := LoadSpec(c, files, path, read);
              && (xs.None? <==> path in files && (read || c.unmarshal(files[path]).None?))
              && (path !in files ==> xs.Some? && PushAll(Fresh(next), xs.value).entries == [])
              && (path in files && xs.Some? ==>
                    Some(ItemsOf(PushAll(Fresh(next), xs.value))) == c.unmarshal(files[path]))
  {
    var xs := LoadSpec(c, files, path, read);
    if xs.Some? { PushAllItems(next, xs.value); }
  }
}
