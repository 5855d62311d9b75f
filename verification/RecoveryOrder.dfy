/** Every step of the service keeps its items in order, whatever becomes of the files. */
module RecoveryOrder {
  import opened Paths
  import opened Items
  import opened Queue
  import opened Watcher
  import opened Processor
  import opened SystemRuns
  import opened Lives
  import opened Recovery

  /** What is not on the disk is the same in both states. */
  predicate SameBooks(x: State, y: State)
  {
    y.origin == x.origin && y.made == x.made && y.finished == x.finished && y.again == x.again
  }

  /** The item in hand, if it is the only one for its file, was not completed before. */
  lemma HandIsNotFinished(p: Service, x: State)
    requires AllBelong(p, x) && Single(x) && x.sys.hand.Some? && x.sys.hand.value.source !in x.again
    ensures !WasCompleted(x, x.sys.hand.value.source)
  {
    var it := x.sys.hand.value;
    if WasCompleted(x, it.source) {
      var id :| id in x.finished && id in x.made && x.made[id] == it.source;
      assert it.id in Live(x) && Clash(x, it.id, id);
      assert false;
    }
  }

  /** Noting a checksum in the item in hand changes nothing else. */
  lemma NoteKeeps(s: Settings, x: State, y: State, e: Event, named: ItemRec -> bool)
    requires Registered(x) && AllOwned(x, named) && NamesOnly(named) && Single(x)
    requires x.sys.hand.Some? && e.Note? && SameBooks(x, y) && y.sys == Apply(s, x.sys, e)
    ensures Registered(y) && AllOwned(y, named) && Single(y)
    ensures y.sys.hand.Some? && y.sys.hand.value.source == x.sys.hand.value.source
  {
    assert Live(y) == Live(x);
    SingleKeeps(x, y);
  }

  lemma SingleKeeps(x: State, y: State)
    requires Single(x) && Live(y) <= Live(x)
    requires y.made == x.made && y.finished == x.finished && y.again == x.again
    ensures Single(y)
  {
    forall id, id' | id in Live(y) && id' in Live(y) + y.finished && Clash(y, id, id') ensures y.made[id] in y.again {
      assert Clash(x, id, id');
    }
  }

  /** Completing the item in hand completes its file and no other. */
  lemma SucceedFinishes(x: State, y: State, now: int, named: ItemRec -> bool)
    requires Registered(x) && AllOwned(x, named) && x.sys.hand.Some?
    requires y == x.(sys := Succeeded(x.sys, now), phase := y.phase, finished := x.finished + {x.sys.hand.value.id})
    ensures Registered(y) && AllOwned(y, named)
    ensures forall r :: WasCompleted(y, r) <==> WasCompleted(x, r) || r == x.sys.hand.value.source
  {
    var it := x.sys.hand.value;
    forall r ensures WasCompleted(y, r) <==> WasCompleted(x, r) || r == it.source {
      assert it.id in y.finished && it.id in y.made && y.made[it.id] == it.source;
    }
  }

  lemma SucceedSingle(x: State, y: State, now: int)
    requires Placed(x.sys) && Single(x) && x.sys.hand.Some?
    requires y == x.(sys := Succeeded(x.sys, now), phase := y.phase, finished := x.finished + {x.sys.hand.value.id})
    ensures Single(y)
  {
    var mine := x.sys.hand.value.id;
    assert mine in HandIds(x.sys);
    forall id, id' | id in Live(y) && id' in Live(y) + y.finished && Clash(y, id, id') ensures y.made[id] in y.again {
      assert id in Live(x) && id != mine;
      assert id' in Live(x) + x.finished;
      assert Clash(x, id, id');
    }
  }

  /** An item handed back still belongs to its file. */
  lemma FailBelongs(s: Settings, x: State, y: State, err: string, now: int, named: ItemRec -> bool)
    requires Registered(x) && AllOwned(x, named) && NamesOnly(named) && x.sys.hand.Some?
    requires y == x.(sys := HandedBack(s, x.sys, err, now), phase := y.phase)
    ensures Registered(y) && AllOwned(y, named) && y.sys.hand.None? && Live(y) <= Live(x)
  {
  }

  lemma UploadArrives(p: Service, x: State, y: State, name: string, bytes: string)
    requires Arrivals(p, x) && AllBelong(p, x) && PlainName(name) && Base(Join(p.src, name)) == name
    requires y == x.(disk := y.disk, origin := x.origin[Join(p.src, name) := bytes])
    ensures Arrivals(p, y) && AllBelong(p, y)
  {
  }

  lemma AdmittedItem(p: Service, x: State, s: Sighting)
    requires Sound(p) && Arrivals(p, x) && Possible(p, x, Admit(s))
    ensures var it := OnCreated(Folders(p), s).value;
              && IsNew(it) && it.id == s.id && it.source == s.path
              && Named(p, it)
  {
    assert s.path == Join(p.src, Base(s.path));
    SplitOfJoin(p.src, Base(s.path));
    EncryptionNames(p.src, p.dst, Base(s.path));
  }

  /** The new item belongs to its file, and items made before to theirs. */
  lemma AdmitBelongs(x: State, y: State, it: ItemRec, named: ItemRec -> bool)
    requires Registered(x) && AllOwned(x, named) && named(it)
    requires it.source in x.origin && it.id !in x.made && it.id !in x.sys.q.index
    requires y == WithItem(x, Arrived(x.sys, it), it.id, it.source)
    ensures Registered(y) && AllOwned(y, named) && Live(y) == Live(x) + {it.id}
  {
    forall e | e in y.sys.q.entries ensures Owned(y, named, e.item) {
      assert e in x.sys.q.entries || e.item == it;
    }
  }

  lemma AdmitSingle(x: State, y: State, mine: string, path: string)
    requires Single(x) && mine !in x.made && Live(x) <= x.made.Keys
    requires x.finished <= x.made.Keys
    requires Live(y) == Live(x) + {mine} && y.made == x.made[mine := path] && y.finished == x.finished
    requires y.again == if Busy(x, path) then x.again + {path} else x.again
    ensures Single(y)
  {
    forall id, id' | id in Live(y) && id' in Live(y) + y.finished && Clash(y, id, id') ensures y.made[id] in y.again {
      if id != mine && id' != mine {
        assert Clash(x, id, id');
      } else {
        var other := if id == mine then id' else id;
        assert other in Live(x) + x.finished && x.made[other] == path;
      }
    }
  }

  lemma AdmitFinishes(x: State, y: State, id: string, path: string, r: string)
    requires x.finished <= x.made.Keys && id !in x.made
    requires y.made == x.made[id := path] && y.finished == x.finished
    ensures WasCompleted(y, r) <==> WasCompleted(x, r)
  {
  }

  /** All live items were made. */
  lemma LiveIsMade(p: Service, x: State)
    requires Placed(x.sys) && Arrivals(p, x)
    ensures Live(x) <= x.made.Keys
  {
    forall id | id in Live(x) ensures id in x.made {
      assert id in Logged(x.sys);
    }
  }

  lemma PollBelongs(x: State, y: State, now: int, start: int, named: ItemRec -> bool)
    requires IndexAgrees(x.sys.q) && Registered(x) && AllOwned(x, named) && NamesOnly(named) && x.sys.hand.None?
    requires y == x.(sys := Polled(x.sys, now, start), phase := y.phase)
    ensures Registered(y) && AllOwned(y, named) && Live(y) <= Live(x)
  {
    PollFacts(x.sys.q, now);
  }

  function IdsIn(xs: seq<ItemRec>): set<string> { set it | it in xs :: it.id }

  lemma RestartSingle(p: Service, x: State, y: State, xs: seq<ItemRec>)
    requires Arrivals(p, x) && Single(x) && (forall it | it in xs :: Belongs(p, x, it))
    requires y.made == x.made && y.finished == x.finished && y.again == x.again + Repeated(x, xs)
    requires Live(y) == IdsIn(xs)
    ensures Single(y)
  {
    forall id, id' | id in Live(y) && id' in Live(y) + y.finished && Clash(y, id, id') ensures y.made[id] in y.again {
      var it :| it in xs && it.id == id;
      if id' in y.finished {
        assert WasCompleted(x, it.source);
      } else {
        var it' :| it' in xs && it'.id == id';
        assert it'.source == it.source;
      }
      assert it.source in Repeated(x, xs);
    }
  }

  lemma RestartBelongs(s: Settings, x: State, y: State, now: int, xs: seq<ItemRec>, named: ItemRec -> bool)
    requires Registered(x) && (forall it | it in xs :: Owned(x, named, it))
    requires y.sys == Resumed(s, now, xs) && y.origin == x.origin && y.made == x.made && y.finished == x.finished
    ensures Registered(y) && AllOwned(y, named) && Live(y) == IdsIn(xs)
  {
    forall id ensures id in PushAll(Fresh(0), xs).index <==> id in IdsIn(xs) {
      LoadedIndex(xs, id);
    }
    assert y.sys.q.index.Keys == IdsIn(xs);
    forall id | id in y.sys.log ensures id in y.made {
      LoggedIs(xs, id);
    }
    forall e | e in y.sys.q.entries ensures Owned(y, named, e.item) {
      LoadedItem(xs, e);
    }
  }

  predicate SettledWell(x: State, y: State, now: int)
    requires x.sys.hand.Some?
  {
    var it := x.sys.hand.value;
    y == x.(sys := Succeeded(x.sys, now), phase := Disposing(it.source), finished := x.finished + {it.id})
  }

  predicate SettledBadly(s: Settings, x: State, y: State, err: string, now: int)
    requires x.sys.hand.Some?
  {
    && y == x.(sys := HandedBack(s, x.sys, err, now), phase := y.phase)
    && (y.phase.IntoFailed? || y.phase.IntoDlq?) && y.phase.path == x.sys.hand.value.source
  }

  lemma SettleIs(p: Service, x: State, ok: bool, f: Effort)
    requires x.sys.hand.Some? && x.sys.clock <= f.finish
    ensures var y := WorkSettle(p, x, ok, f);
              if ok then SettledWell(x, y, f.finish) else SettledBadly(p.settings, x, y, f.err, f.finish)
  {
  }


  // --- The steps -----------------------------------------------------------------------------

  /** A step that leaves the items alone. */
  lemma FilesOnlyOrderly(p: Service, x: State, y: State)
    requires Orderly(p, x) && SameBooks(x, y) && y.sys == x.sys && Holding(y) == Holding(x)
    ensures Orderly(p, y)
  {
    SingleKeeps(x, y);
  }

  lemma NoteOrderly(p: Service, x: State, y: State, e: Event)
    requires Orderly(p, x) && e.Note? && x.sys.hand.Some? && SameBooks(x, y) && Holding(y)
    requires y.sys == Apply(p.settings, x.sys, e)
    ensures Orderly(p, y)
  {
    NamedByNames(p);
    NoteKeeps(p.settings, x, y, e, NamedBy(p));
  }

  lemma SettleOrderly(p: Service, x: State, y: State, ok: bool, f: Effort)
    requires Placed(x.sys) && Orderly(p, x) && x.phase == Settling(ok)
    requires if ok then SettledWell(x, y, f.finish) else SettledBadly(p.settings, x, y, f.err, f.finish)
    ensures Orderly(p, y)
  {
    if ok {
      SucceedFinishes(x, y, f.finish, NamedBy(p));
      SucceedSingle(x, y, f.finish);
    } else {
      NamedByNames(p);
      FailBelongs(p.settings, x, y, f.err, f.finish, NamedBy(p));
      SingleKeeps(x, y);
    }
  }

  lemma UploadOrderly(p: Service, x: State, y: State, name: string, bytes: string)
    requires Sound(p) && Orderly(p, x) && PlainName(name)
    requires y == x.(disk := y.disk, origin := x.origin[Join(p.src, name) := bytes])
    requires Join(p.src, name) !in x.origin
    ensures Orderly(p, y)
  {
    SplitOfJoin(p.src, name);
    UploadArrives(p, x, y, name, bytes);
    SingleKeeps(x, y);
  }

  lemma AdmitOrderly(p: Service, x: State, y: State, it: ItemRec)
    requires Placed(x.sys) && Orderly(p, x)
    requires it.source in x.origin && it.id !in x.made && Named(p, it)
    requires y == WithItem(x, Arrived(x.sys, it), it.id, it.source)
    ensures Orderly(p, y)
  {
    LiveIsMade(p, x);
    assert it.id !in Live(x);
    AdmitBelongs(x, y, it, NamedBy(p));
    AdmitSingle(x, y, it.id, it.source);
  }

  lemma PollOrderly(p: Service, x: State, y: State, now: int, start: int)
    requires IndexAgrees(x.sys.q) && Orderly(p, x) && x.phase.Idle?
    requires y == x.(sys := Polled(x.sys, now, start), phase := if y.sys.hand.Some? then Summing else Idle)
    ensures Orderly(p, y)
  {
    NamedByNames(p);
    PollBelongs(x, y, now, start, NamedBy(p));
    SingleKeeps(x, y);
  }

  lemma RestartOrderly(p: Service, x: State, y: State, now: int, xs: seq<ItemRec>)
    requires Orderly(p, x) && forall it | it in xs :: Belongs(p, x, it)
    requires y == Restarted(p, x, now, xs)
    ensures Orderly(p, y)
  {
    RestartBelongs(p.settings, x, y, now, xs, NamedBy(p));
    RestartSingle(p, x, y, xs);
  }

  lemma WorkOrderly(p: Service, x: State, f: Effort)
    requires Placed(x.sys) && Orderly(p, x) && Possible(p, x, Work(f))
    ensures Orderly(p, Worked(p, x, f))
  {
    match x.phase
    case Summing => SumOrderly(p, x, WorkSum(p, x, SumPath(x.sys.hand.value), f), SumPath(x.sys.hand.value), f);
    case Settling(ok) => SettleIs(p, x, ok, f); SettleOrderly(p, x, WorkSettle(p, x, ok, f), ok, f);
    case Encrypting => FilesOnlyOrderly(p, x, WorkEncrypt(p, x, f));
    case SavingKey(ciphertext) => FilesOnlyOrderly(p, x, WorkKey(x, ciphertext, f));
    case IntoDlq(_) => FilesOnlyOrderly(p, x, Worked(p, x, f));
    case IntoFailed(_) => FilesOnlyOrderly(p, x, Worked(p, x, f));
    case Disposing(_) => FilesOnlyOrderly(p, x, Worked(p, x, f));
    case Idle =>
  }

  lemma SumOrderly(p: Service, x: State, y: State, path: string, f: Effort)
    requires Orderly(p, x) && x.phase.Summing? && y == WorkSum(p, x, path, f)
    ensures Orderly(p, y)
  {
    var r := SumStep(p.setup.cipher, p.setup.calculateChecksum, x.disk, x.sys.hand.value, path, f);
    NoteOrderly(p, x, y, Note(r.item.checksum, r.item.checksumPath));
  }

  lemma AdmitStepOrderly(p: Service, x: State, s: Sighting)
    requires Sound(p) && Placed(x.sys) && Orderly(p, x) && Possible(p, x, Admit(s))
    ensures Orderly(p, Admitted(p, x, s))
  {
    AdmittedItem(p, x, s);
    LiveIsMade(p, x);
    var it := OnCreated(Folders(p), s).value;
    assert it.id in x.sys.log ==> it.id in x.made;
    AdmitOrderly(p, x, Admitted(p, x, s), it);
  }

  lemma PollStepOrderly(p: Service, x: State, now: int, start: int)
    requires Conserved(x.sys) && Orderly(p, x) && Possible(p, x, Take(now, start))
    ensures Orderly(p, Taken(p, x, now, start))
  {
    PollOrderly(p, x, Taken(p, x, now, start), now, start);
  }

  lemma NextOrderly(p: Service, x: State, h: Happening)
    requires Sound(p) && Conserved(x.sys) && Orderly(p, x)
    ensures Orderly(p, Next(p, x, h))
  {
    if Possible(p, x, h) {
      match h
      case Upload(name, bytes) => UploadOrderly(p, x, Uploaded(p, x, name, bytes), name, bytes);
      case Admit(s) => AdmitStepOrderly(p, x, s);
      case Take(now, start) => PollStepOrderly(p, x, now, start);
      case Scribble(bytes) => FilesOnlyOrderly(p, x, x.(disk := x.disk.Set(Target(x), bytes)));
      case Work(f) => WorkOrderly(p, x, f);
      case Restart(now, xs) => RestartOrderly(p, x, Restarted(p, x, now, xs), now, xs);
    }
  }
}
