/**
 One life of the process after another: the queue is saved, the process ends, and the next one starts
 with the list. What the items say of their attempts carries the account of earlier lives on.
 */
module Lives {
  import opened Common
  import opened Items
  import opened Queue
  import opened QueueRuns
  import opened SystemRuns

  // --- Starting with a list ------------------------------------------------------------------

  /** What every saved list is like: new items, and failed ones with attempts left. */
  predicate Loadable(s: Settings, xs: seq<ItemRec>)
  {
    && Distinct(Ids(xs))
    && forall it | it in xs ::
         if it.attempts == 0 then it.status == Pending
         else it.status == Failed && (s.maxRetries >= 0 ==> it.attempts < s.maxRetries)
  }

  /** The IDs of the items that were attempted, or of those that were not. */
  function IdsWhere(xs: seq<ItemRec>, tried: bool): seq<string>
  {
    if xs == [] then [] else
      var last := xs[|xs| - 1];
      IdsWhere(xs[..|xs| - 1], tried) + if (last.attempts > 0) == tried then [last.id] else []
  }

  function Counts(xs: seq<ItemRec>): multiset<string>
  {
    if xs == [] then multiset{} else Counts(xs[..|xs| - 1])[xs[|xs| - 1].id := xs[|xs| - 1].attempts]
  }

  /** The latest instants at which the first attempts can have begun. */
  function Begun(s: Settings, xs: seq<ItemRec>): map<string, int>
  {
    if xs == [] then map[] else
      var last := xs[|xs| - 1];
      Begun(s, xs[..|xs| - 1])[last.id := last.nextRetry - Waited(s, last.attempts)]
  }

  /** The system that starts with a loaded list, the account of attempts being that of the items. */
  function Resumed(s: Settings, now: int, xs: seq<ItemRec>): Sys
  {
    Sys(PushAll(Fresh(0), xs), None, map[], map[],
        IdsWhere(xs, true) + IdsWhere(xs, false), IdsWhere(xs, true),
        Counts(xs), Counts(xs), Begun(s, xs), now)
  }

  predicate HasId(xs: seq<ItemRec>, id: string) { exists it | it in xs :: it.id == id }

  lemma {:induction false} IdsWhereIs(xs: seq<ItemRec>, tried: bool, id: string)
    ensures id in IdsWhere(xs, tried) <==> exists it | it in xs :: it.id == id && (it.attempts > 0) == tried
  {
    if xs != [] {
      IdsWhereIs(xs[..|xs| - 1], tried, id);
      assert xs == xs[..|xs| - 1] + [xs[|xs| - 1]];
    }
  }

  lemma NotAmong(xs: seq<ItemRec>, id: string)
    requires id !in Ids(xs)
    ensures !HasId(xs, id)
  {
    forall it | it in xs ensures it.id in Ids(xs) {
      var i :| 0 <= i < |xs| && xs[i] == it;
      assert Ids(xs)[i] == it.id;
    }
  }

  lemma {:induction false} IdsWhereDistinct(xs: seq<ItemRec>, tried: bool)
    requires Distinct(Ids(xs))
    ensures Distinct(IdsWhere(xs, tried))
  {
    if xs != [] {
      var init, last := xs[..|xs| - 1], xs[|xs| - 1];
      assert Ids(xs) == Ids(init) + [last.id];
      DistinctSnoc(Ids(init), last.id);
      IdsWhereDistinct(init, tried);
      IdsWhereIs(init, tried, last.id);
      DistinctSnoc(IdsWhere(init, tried), last.id);
      NotAmong(init, last.id);
    }
  }

  lemma SameIdSameItem(xs: seq<ItemRec>, a: ItemRec, b: ItemRec)
    requires Distinct(Ids(xs)) && a in xs && b in xs && a.id == b.id
    ensures a == b
  {
    var i :| 0 <= i < |xs| && xs[i] == a;
    var j :| 0 <= j < |xs| && xs[j] == b;
    assert Ids(xs)[i] == Ids(xs)[j];
  }

  lemma {:induction false} CountsAre(s: Settings, xs: seq<ItemRec>, id: string)
    requires Distinct(Ids(xs))
    ensures !HasId(xs, id) ==> Counts(xs)[id] == 0
    ensures forall it | it in xs && it.id == id ::
              Counts(xs)[id] == it.attempts && id in Begun(s, xs)
              && Begun(s, xs)[id] == it.nextRetry - Waited(s, it.attempts)
  {
    if xs != [] {
      var init, last := xs[..|xs| - 1], xs[|xs| - 1];
      assert Ids(xs) == Ids(init) + [last.id];
      DistinctSnoc(Ids(init), last.id);
      CountsAre(s, init, id);
      assert xs == init + [last];
      forall it | it in xs && it.id == last.id ensures it == last {
        SameIdSameItem(xs, it, last);
      }
    }
  }

  lemma {:induction false} EntriesOfLoaded(xs: seq<ItemRec>)
    ensures Unattempted(PushAll(Fresh(0), xs).entries) == IdsWhere(xs, false)
  {
    if xs != [] {
      EntriesOfLoaded(xs[..|xs| - 1]);
      UnattemptedAfterPush(PushAll(Fresh(0), xs[..|xs| - 1]), xs[|xs| - 1]);
    }
  }

  lemma LoadedItem(xs: seq<ItemRec>, e: Entry)
    requires e in PushAll(Fresh(0), xs).entries
    ensures e.item in xs
  {
    var q := PushAll(Fresh(0), xs);
    PushAllItems(0, xs);
    var i :| 0 <= i < |q.entries| && q.entries[i] == e;
    assert ItemsOf(q)[i] == e.item;
  }

  lemma LoadedIndex(xs: seq<ItemRec>, id: string)
    ensures id in PushAll(Fresh(0), xs).index <==> HasId(xs, id)
  {
    PushAllItems(0, xs);
    if id in Ids(xs) {
      var i :| 0 <= i < |xs| && Ids(xs)[i] == id;
      assert xs[i] in xs;
    }
    if HasId(xs, id) {
      var it :| it in xs && it.id == id;
      var i :| 0 <= i < |xs| && xs[i] == it;
      assert Ids(xs)[i] == id;
    }
  }

  lemma LoggedIs(xs: seq<ItemRec>, id: string)
    ensures id in IdsWhere(xs, true) + IdsWhere(xs, false) <==> HasId(xs, id)
  {
    IdsWhereIs(xs, true, id);
    IdsWhereIs(xs, false, id);
  }

  lemma LogDistinct(xs: seq<ItemRec>)
    requires Distinct(Ids(xs))
    ensures Distinct(IdsWhere(xs, true) + IdsWhere(xs, false))
  {
    var a, b := IdsWhere(xs, true), IdsWhere(xs, false);
    IdsWhereDistinct(xs, true);
    IdsWhereDistinct(xs, false);
    forall id | id in a && id in b ensures false {
      IdsWhereIs(xs, true, id);
      IdsWhereIs(xs, false, id);
      var it :| it in xs && it.id == id && it.attempts > 0;
      var it' :| it' in xs && it'.id == id && it'.attempts == 0;
      SameIdSameItem(xs, it, it');
    }
    forall i, j | 0 <= i < j < |a + b| ensures (a + b)[i] != (a + b)[j] {
      if i < |a| <= j { assert a[i] in a && b[j - |a|] in b; }
    }
  }

  lemma ResumedConserves(s: Settings, now: int, xs: seq<ItemRec>)
    requires Distinct(Ids(xs))
    ensures Conserved(Resumed(s, now, xs))
  {
    var x := Resumed(s, now, xs);
    LoadAgrees(0, xs);
    LogDistinct(xs);
    forall id ensures id in Logged(x) <==> id in x.q.index {
      LoggedIs(xs, id);
      LoadedIndex(xs, id);
    }
    assert Logged(x) == x.q.index.Keys;
  }

  lemma ResumedChronicle(s: Settings, now: int, xs: seq<ItemRec>)
    requires Loadable(s, xs)
    ensures Chronicle(s, Resumed(s, now, xs))
  {
    var x := Resumed(s, now, xs);
    forall e | e in x.q.entries ensures QueuedOk(s, x, e.item) {
      LoadedItem(xs, e);
      CountsAre(s, xs, e.item.id);
    }
    forall id | id in x.taken || id in x.failed ensures id in x.log {
      CountsAre(s, xs, id);
      LoggedIs(xs, id);
    }
  }

  /** The account of a loaded list is in order, so everything proved of runs holds of the next life too. */
  lemma ResumedInv(s: Settings, now: int, xs: seq<ItemRec>)
    requires Loadable(s, xs)
    ensures Inv(s, Resumed(s, now, xs))
  {
    ResumedConserves(s, now, xs);
    ResumedChronicle(s, now, xs);
    EntriesOfLoaded(xs);
    var x := Resumed(s, now, xs);
    assert x.log[..|x.firsts|] == x.firsts && x.log[|x.firsts|..] == IdsWhere(xs, false);
  }

  lemma {:induction false} RunKeepsInv(s: Settings, x: Sys, es: seq<Event>)
    requires Inv(s, x)
    ensures Inv(s, Run(s, x, es))
  {
    if es != [] {
      RunKeepsInv(s, x, es[..|es| - 1]);
      ApplyInv(s, Run(s, x, es[..|es| - 1]), es[|es| - 1]);
    }
  }

  /** The retry law in a life that starts with a list: the attempts the items came with count. */
  lemma RetryLawResumed(s: Settings, now: int, xs: seq<ItemRec>, es: seq<Event>, id: string)
    requires Loadable(s, xs) && s.maxRetries >= 0
    ensures RetriedLawfully(s, Run(s, Resumed(s, now, xs), es), id)
    ensures Resumed(s, now, xs).taken[id] == Counts(xs)[id]
  {
    ResumedInv(s, now, xs);
    RunKeepsInv(s, Resumed(s, now, xs), es);
    LawfulNow(s, Run(s, Resumed(s, now, xs), es), id);
  }

  /** What is queued can be saved and loaded, and the account goes on where it was. */
  lemma QueuedIsLoadable(s: Settings, x: Sys)
    requires Inv(s, x)
    ensures Loadable(s, ItemsOf(x.q))
  {
    IdsOfAgreeing(x.q);
    forall it | it in ItemsOf(x.q) ensures exists e :: e in x.q.entries && e.item == it {
      var i :| 0 <= i < |x.q.entries| && ItemsOf(x.q)[i] == it;
      assert x.q.entries[i] in x.q.entries;
    }
    forall e | e in x.q.entries ensures QueuedOk(s, x, e.item) {
    }
  }

  lemma AccountGoesOn(s: Settings, x: Sys, now: int, id: string)
    requires Inv(s, x)
    ensures var y := Resumed(s, now, ItemsOf(x.q));
              if id in x.q.index then y.taken[id] == x.taken[id] && y.failed[id] == x.failed[id]
              else y.taken[id] == 0 == y.failed[id]
  {
    var xs := ItemsOf(x.q);
    QueuedIsLoadable(s, x);
    CountsAre(s, xs, id);
    if id in x.q.index {
      assert id in IdSet(x.q.entries);
      var e :| e in x.q.entries && e.item.id == id;
      var i :| 0 <= i < |x.q.entries| && x.q.entries[i] == e;
      assert xs[i] == e.item && QueuedOk(s, x, e.item);
    }
  }

  // --- Over all lives ------------------------------------------------------------------------

  /** The system and, over all lives, the attempts begun and the IDs given out. */
  datatype Saga = Saga(sys: Sys, begun: multiset<string>, used: set<string>)

  datatype Turn =
    | Step(e: Event)    // something happens in the current life
    | Renew(now: int)   // the queue is saved, the process ends and starts again with what was saved

  function Turned(s: Settings, x: Saga, t: Turn): Saga
  {
    match t
    case Step(e) =>
      if e.Arrive? && e.item.id in x.used then x else
        var sys := Apply(s, x.sys, e);
        Saga(sys, x.begun + (sys.taken - x.sys.taken), if e.Arrive? then x.used + {e.item.id} else x.used)
    case Renew(now) => x.(sys := Resumed(s, now, ItemsOf(x.sys.q)))
  }

  function Told(s: Settings, x: Saga, ts: seq<Turn>): Saga
  {
    if ts == [] then x else Turned(s, Told(s, x, ts[..|ts| - 1]), ts[|ts| - 1])
  }

  /** The account of the current life is that of all lives, for the items it knows. */
  ghost predicate Accounted(s: Settings, x: Saga)
  {
    && Inv(s, x.sys)
    && (forall id | id in x.sys.log :: id in x.used && x.begun[id] == x.sys.taken[id])
    && (forall id | id !in x.used :: x.begun[id] == 0)
    && (s.maxRetries >= 0 ==> forall id :: x.begun[id] <= Limit(s))
  }

  lemma TakenGrows(s: Settings, x: Sys, e: Event, id: string)
    ensures x.taken[id] <= Apply(s, x, e).taken[id]
    ensures id in x.log ==> id in Apply(s, x, e).log
    ensures id in Apply(s, x, e).log ==> id in x.log || (e.Arrive? && e.item.id == id)
  {
  }

  lemma StepAccounted(s: Settings, x: Saga, e: Event)
    requires Accounted(s, x) && !(e.Arrive? && e.item.id in x.used)
    ensures Accounted(s, Turned(s, x, Step(e)))
  {
    var y := Turned(s, x, Step(e));
    ApplyInv(s, x.sys, e);
    forall id
      ensures id in y.sys.log ==> id in y.used && y.begun[id] == y.sys.taken[id]
      ensures id !in y.used ==> y.begun[id] == 0
      ensures s.maxRetries >= 0 ==> y.begun[id] <= Limit(s)
    {
      TakenGrows(s, x.sys, e, id);
      assert id in x.sys.taken ==> id in x.sys.log;
      assert id in y.sys.taken ==> id in y.sys.log;
      if s.maxRetries >= 0 { LawfulNow(s, y.sys, id); }
    }
  }

  lemma RenewAccounted(s: Settings, x: Saga, now: int)
    requires Accounted(s, x)
    ensures Accounted(s, Turned(s, x, Renew(now)))
  {
    var xs := ItemsOf(x.sys.q);
    QueuedIsLoadable(s, x.sys);
    ResumedInv(s, now, xs);
    var y := Resumed(s, now, xs);
    forall id | id in y.log ensures id in x.sys.log && y.taken[id] == x.sys.taken[id] {
      assert id in Logged(y);
      assert id in y.q.index;
      AccountGoesOn(s, x.sys, now, id);
      LoadedIndex(xs, id);
      QueuedIds(x.sys.q, id);
      assert id in Logged(x.sys);
    }
  }

  lemma QueuedIds(q: QueueState, id: string)
    requires IndexAgrees(q) && HasId(ItemsOf(q), id)
    ensures id in q.index
  {
    var it :| it in ItemsOf(q) && it.id == id;
    var i :| 0 <= i < |q.entries| && ItemsOf(q)[i] == it;
    assert q.entries[i] in q.entries;
  }

  lemma {:induction false} ToldAccounted(s: Settings, clock: int, ts: seq<Turn>)
    ensures Accounted(s, Told(s, Saga(Start(clock), multiset{}, {}), ts))
  {
    var x0 := Saga(Start(clock), multiset{}, {});
    if ts == [] {
      Reachable(s, clock, []);
    } else {
      var x, t := Told(s, x0, ts[..|ts| - 1]), ts[|ts| - 1];
      ToldAccounted(s, clock, ts[..|ts| - 1]);
      match t
      case Step(e) => if !(e.Arrive? && e.item.id in x.used) { StepAccounted(s, x, e); }
      case Renew(now) => RenewAccounted(s, x, now);
    }
  }

  /**
   However often the process is restarted with its queue as it was, no item is attempted more than
   max(1, maxRetries) times in all its lives together.
   */
  lemma AttemptsOverAllLives(s: Settings, clock: int, ts: seq<Turn>, id: string)
    requires s.maxRetries >= 0
    ensures Told(s, Saga(Start(clock), multiset{}, {}), ts).begun[id] <= Limit(s)
  {
    ToldAccounted(s, clock, ts);
  }

  /** With a list that is older this is not so: an item that is dead by now is attempted again. */
  lemma OldListForgets(it: ItemRec)
    requires IsNew(it)
    ensures var s := Settings(1, 1, 60);
            var saved := Run(s, Start(0), [Arrive(it)]);
            var later := Run(s, saved, [Poll(0, 0), Fail("", 0)]);
            var next := Run(s, Resumed(s, 0, ItemsOf(saved.q)), [Poll(0, 0)]);
              later.taken[it.id] == Limit(s) && it.id in later.dead && next.hand == Some(AsProcessing(it, 0))
  {
    var s := Settings(1, 1, 60);
    var saved := Apply(s, Start(0), Arrive(it));
    RunOne(s, Start(0), Arrive(it));
    assert saved.q == Push(Fresh(0), it) && ItemsOf(saved.q) == [it];
    var taken := Apply(s, saved, Poll(0, 0));
    RunOne(s, saved, Poll(0, 0));
    assert [Poll(0, 0), Fail("", 0)][..1] == [Poll(0, 0)];
    assert FirstReady(saved.q.entries, 0) == 0;
    assert taken.hand == Some(AsProcessing(it, 0)) && taken.taken[it.id] == 1;
    assert [it][..0] == [];
    assert PushAll(Fresh(0), [it]) == Push(Fresh(0), it);
    var resumed := Resumed(s, 0, [it]);
    assert FirstReady(resumed.q.entries, 0) == 0;
    RunOne(s, resumed, Poll(0, 0));
  }

  lemma RunOne(s: Settings, x: Sys, e: Event)
    ensures Run(s, x, [e]) == Apply(s, x, e)
  {
    assert [e][..0] == [];
  }
}
