/** The retry queue: a list of items, an index from IDs to list elements, and retry scheduling. */
module Queue {
  import opened Common
  import opened Items
  import opened Backoff
  import opened FileSystem
  import opened Persistence

  datatype Settings = Settings(maxRetries: int, base: int, max: int)

  /** A list element: `handle` stands for its identity, which is what the index refers to. */
  datatype Entry = Entry(handle: nat, item: ItemRec)

  datatype QueueState = QueueState(entries: seq<Entry>, index: map<string, nat>, next: nat)

  predicate Ready(it: ItemRec, now: int)
  {
    !(it.status == Failed && now < it.nextRetry) && it.status != Dlq
  }

  /** Position of the first ready entry, or the length of the list. */
  function FirstReady(es: seq<Entry>, now: int): (i: nat)
    ensures i <= |es|
    ensures forall j | 0 <= j < i :: !Ready(es[j].item, now)
    ensures i < |es| ==> Ready(es[i].item, now)
  {
    if es == [] || Ready(es[0].item, now) then 0 else 1 + FirstReady(es[1..], now)
  }

  function Push(q: QueueState, it: ItemRec): QueueState
  {
    QueueState(q.entries + [Entry(q.next, it)], q.index[it.id := q.next], q.next + 1)
  }

  datatype Enqueued = Enqueued(q: QueueState, ok: bool)

  function EnqueueSpec(q: QueueState, it: ItemRec): Enqueued
  {
    if it.id in q.index then Enqueued(q, false) else Enqueued(Push(q, it), true)
  }

  datatype Dequeued = Dequeued(q: QueueState, item: Option<ItemRec>)

  function RemoveAt(q: QueueState, i: nat): QueueState
    requires i < |q.entries|
  {
    QueueState(q.entries[..i] + q.entries[i + 1..], q.index - {q.entries[i].item.id}, q.next)
  }

  function DequeueSpec(q: QueueState, now: int): Dequeued
  {
    var i := FirstReady(q.entries, now);
    if i == |q.entries| then Dequeued(q, None) else Dequeued(RemoveAt(q, i), Some(q.entries[i].item))
  }

  datatype Requeued = Requeued(q: QueueState, item: ItemRec, ok: bool)

  function RequeueSpec(s: Settings, q: QueueState, it: ItemRec, err: string, now: int): Requeued
  {
    var failed := AsFailed(it, err, Delay(s.base, s.max, it.attempts), now);
    if ShouldRetry(failed, s.maxRetries) then Requeued(Push(q, failed), failed, true)
    else Requeued(q, AsDlq(failed), false)
  }

  /** The queue that Load builds from a list of items. */
  function PushAll(q: QueueState, xs: seq<ItemRec>): QueueState
  {
    if xs == [] then q else Push(PushAll(q, xs[..|xs| - 1]), xs[|xs| - 1])
  }

  function Fresh(next: nat): QueueState { QueueState([], map[], next) }

  function ItemsOf(q: QueueState): seq<ItemRec>
  {
    seq(|q.entries|, i requires 0 <= i < |q.entries| => q.entries[i].item)
  }

  function IdSet(es: seq<Entry>): set<string>
  {
    set e | e in es :: e.item.id
  }

  /** The index maps exactly the IDs in the list, each to its own element; no element is there twice. */
  predicate IndexAgrees(q: QueueState)
  {
    && q.index.Keys == IdSet(q.entries)
    && (forall e | e in q.entries :: e.item.id in q.index && q.index[e.item.id] == e.handle < q.next)
    && (forall i, j | 0 <= i < j < |q.entries| :: q.entries[i].handle != q.entries[j].handle)
  }

  // --- The imperative queue ------------------------------------------------------------------

  datatype Element = Element(handle: nat, item: Item)

  class Queue {
    var items: seq<Element>
    var itemMap: map<string, Element>
    var nextHandle: nat
    const settings: Settings
    const persistence: Persistence

    ghost function Objects(): set<Item>
      reads this
    {
      set e | e in items :: e.item
    }

    ghost function Entries(): seq<Entry>
      reads this, Objects()
    {
      seq(|items|, i requires 0 <= i < |items| reads this, Objects() =>
        assert items[i] in items;
        Entry(items[i].handle, items[i].item.View()))
    }

    ghost function State(): QueueState
      reads this, Objects()
    {
      QueueState(Entries(), map id | id in itemMap :: itemMap[id].handle, nextHandle)
    }

    constructor (settings: Settings, persistence: Persistence)
      ensures State() == Fresh(0) && this.settings == settings && this.persistence == persistence
    {
      this.settings, this.persistence := settings, persistence;
      items, itemMap, nextHandle := [], map[], 0;
    }

    method PushBack(item: Item)
      modifies this
      ensures items == old(items) + [Element(old(nextHandle), item)]
      ensures Objects() == old(Objects()) + {item}
      ensures State() == Push(old(State()), item.View())
    {
      var element := Element(nextHandle, item);
      items := items + [element];
      itemMap := itemMap[item.id := element];
      nextHandle := nextHandle + 1;
    }

    method Enqueue(item: Item) returns (ok: bool)
      modifies this
      ensures Enqueued(State(), ok) == EnqueueSpec(old(State()), item.View())
      ensures Objects() == old(Objects()) + if ok then {item} else {}
    {
      if item.id in itemMap { return false; }
      PushBack(item);
      ok := true;
    }

    method RemoveElement(i: nat) returns (item: Item)
      requires i < |items|
      modifies this
      ensures item == old(items[i].item)
      ensures items == old(items[..i] + items[i + 1..])
      ensures State() == RemoveAt(old(State()), i)
    {
      item := items[i].item;
      assert items[i] in items;
      items := items[..i] + items[i + 1..];
      itemMap := itemMap - {item.id};
      assert Entries() == old(Entries())[..i] + old(Entries())[i + 1..];
    }

    method Dequeue(now: int) returns (item: Item?)
      modifies this
      ensures Dequeued(State(), if item == null then None else Some(item.View())) == DequeueSpec(old(State()), now)
      ensures item == null <==> forall e | e in old(Entries()) ::
                e.item.status == Dlq || (e.item.status == Failed && now < e.item.nextRetry)
      ensures Objects() <= old(Objects())
      ensures item != null ==> item in old(Objects())
      ensures item != null && IndexAgrees(old(State())) ==> item !in Objects()
    {
      item := null;
      var i := 0;
      while i < |items|
        invariant i <= |items|
        invariant forall j | 0 <= j < i :: !Ready(Entries()[j].item, now)
      {
        var candidate := items[i].item;
        assert items[i] in items && candidate.View() == Entries()[i].item;
        if candidate.status == Failed && now < candidate.nextRetry {
          i := i + 1;
          continue;
        }
        if candidate.status == Dlq {
          i := i + 1;
          continue;
        }
        FirstReadyIs(Entries(), now, i);
        item := RemoveElement(i);
        SameIdElsewhere(i);
        return;
      }
      FirstReadyIs(Entries(), now, |items|);
    }

    /** With an agreeing index, the object at position `i` is at no other position. */
    twostate lemma SameIdElsewhere(i: nat)
      requires i < |old(items)| && items == old(items[..i] + items[i + 1..])
      ensures Objects() <= old(Objects())
      ensures old(items[i].item) in old(Objects())
      ensures IndexAgrees(old(State())) ==> old(items[i].item) !in Objects()
    {
      assert old(items[i]) in old(items);
      forall e | e in items ensures e in old(items) {}
      if IndexAgrees(old(State())) {
        forall e | e in items ensures e.item != old(items[i].item) {
          var j :| 0 <= j < |old(items)| && j != i && old(items)[j] == e;
          assert old(Entries())[j].handle == e.handle;
          assert old(Entries())[j].item.id == e.item.id && old(Entries())[i].item.id == old(items[i].item).id;
        }
      }
    }

    method Requeue(item: Item, err: string, now: int) returns (ok: bool)
      modifies this, item
      ensures item !in old(Objects()) ==>
                Requeued(State(), item.View(), ok) == RequeueSpec(settings, old(State()), old(item.View()), err, now)
      ensures 0 < settings.base && 0 < settings.max ==>
                item.nextRetry == now + if old(item.attempts) == 0 then settings.base
                                        else Min(settings.base * Pow2(old(item.attempts)), settings.max)
      ensures items == old(items) + if ok then [Element(old(nextHandle), item)] else []
    {
      if 0 < settings.base && 0 < settings.max { BackoffClosedForm(settings.base, settings.max, item.attempts); }
      ghost var before := State();
      var delay := CalculateBackoff(settings.base, settings.max, item.attempts);
      item.MarkFailed(err, delay, now);
      assert item !in old(Objects()) ==> State() == before;
      ok := settings.maxRetries < 0 || item.attempts < settings.maxRetries;
      if !ok {
        item.MarkDlq();
        assert item !in old(Objects()) ==> State() == before;
        return;
      }
      PushBack(item);
    }

    method Size() returns (n: nat)
      ensures n == |State().entries|
    {
      n := |items|;
    }

    method List() returns (xs: seq<ItemRec>)
      ensures xs == ItemsOf(State())
    {
      xs := [];
      var i := 0;
      while i < |items|
        invariant i <= |items| == |State().entries|
        invariant xs == ItemsOf(State())[..i]
      {
        assert items[i] in items;
        xs := xs + [items[i].item.View()];
        i := i + 1;
      }
    }

    method Save(disk: Disk, write: WriteFault, rename: bool) returns (ok: bool)
      modifies disk
      ensures Outcome(disk.View(), ok)
           == SaveSpec(persistence.codec, old(disk.View()), persistence.statePath, ItemsOf(old(State())), write, rename)
    {
      ghost var before := State();
      var xs := List();
      assert State() == before;
      ok := persistence.Save(disk, xs, write, rename);
    }

    method Restore(r: ItemRec)
      modifies this
      ensures State() == Push(old(State()), r)
      ensures fresh(Objects() - old(Objects()))
    {
      var item := new Item(r);
      assert State() == old(State());
      PushBack(item);
    }

    method Load(disk: Disk, read: bool) returns (ok: bool)
      modifies this
      ensures var xs := LoadSpec(persistence.codec, disk.files, persistence.statePath, read);
              && ok == xs.Some?
              && State() == if ok then PushAll(Fresh(old(nextHandle)), xs.value) else old(State())
      ensures ok ==> fresh(Objects())
    {
      var xs := persistence.Load(disk, read);
      if xs.None? { return false; }
      items, itemMap := [], map[];
      var i := 0;
      while i < |xs.value|
        invariant i <= |xs.value|
        invariant State() == PushAll(Fresh(old(nextHandle)), xs.value[..i])
        invariant fresh(Objects())
      {
        Restore(xs.value[i]);
        i := i + 1;
        assert xs.value[..i][..i - 1] == xs.value[..i - 1];
      }
      assert xs.value[..i] == xs.value;
      ok := true;
    }
  }

  lemma {:induction false} FirstReadyIs(es: seq<Entry>, now: int, i: nat)
    requires i <= |es|
    requires forall j | 0 <= j < i :: !Ready(es[j].item, now)
    requires i < |es| ==> Ready(es[i].item, now)
    ensures FirstReady(es, now) == i
  {
  }
}
