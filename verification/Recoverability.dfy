/** What holds in every reachable state; of a safe service, that each file that ever arrived can be recovered. */
module Recoverability {
  import opened Common
  import opened Paths
  import opened FileSystem
  import opened Transit
  import opened RewrapBatches
  import opened Envelope
  import opened Queue
  import opened Watcher
  import opened Processor
  import opened SystemRuns
  import opened Lives
  import opened Recovery
  import opened RecoveryOrder
  import opened RecoverySteps

  lemma HistorySnoc(p: Service, x: State, hs: seq<Happening>, h: Happening)
    ensures History(p, x, hs + [h]) == Next(p, History(p, x, hs), h)
  {
    assert (hs + [h])[..|hs + [h]| - 1] == hs;
  }

  /** Nothing, or one step of the queue machine. */
  ghost predicate QueueStep(s: Settings, a: Sys, b: Sys)
  {
    b == a || exists e :: b == Apply(s, a, e)
  }

  lemma WorkQueueStep(p: Service, x: State, f: Effort)
    requires Holding(x) ==> x.sys.hand.Some?
    ensures QueueStep(p.settings, x.sys, Worked(p, x, f).sys)
  {
    match x.phase
    case Summing =>
      var it := x.sys.hand.value;
      var path := SumPath(it);
      var r := SumStep(p.setup.cipher, p.setup.calculateChecksum, x.disk, it, path, f);
      assert WorkSum(p, x, path, f).sys == Apply(p.settings, x.sys, Note(r.item.checksum, r.item.checksumPath));
    case Settling(ok) =>
      var e := if ok then Succeed(f.finish) else Fail(f.err, f.finish);
      assert WorkSettle(p, x, ok, f).sys == Apply(p.settings, x.sys, e);
    case _ =>
  }

  lemma NextQueueStep(p: Service, x: State, h: Happening)
    requires !h.Restart?
    ensures QueueStep(p.settings, x.sys, Next(p, x, h).sys)
  {
    if Possible(p, x, h) && Holding(x) == x.sys.hand.Some? {
      match h
      case Admit(s) =>
        var e := Arrive(OnCreated(Folders(p), s).value);
        assert Admitted(p, x, s).sys == Apply(p.settings, x.sys, e);
      case Take(now, start) =>
        var e := Poll(now, start);
        assert Taken(p, x, now, start).sys == Apply(p.settings, x.sys, e);
      case Work(f) => WorkQueueStep(p, x, f);
      case _ =>
    }
  }

  lemma RunSnoc(s: Settings, x: Sys, es: seq<Event>, e: Event)
    ensures Run(s, x, es + [e]) == Apply(s, Run(s, x, es), e)
  {
    assert (es + [e])[..|es + [e]| - 1] == es;
  }

  /** Until it starts again, the queue, the item in hand and the clock of the service are a run of the queue machine. */
  lemma {:induction false} HistoryIsRun(p: Service, files: Files, clock: int, hs: seq<Happening>)
    requires forall h | h in hs :: !h.Restart?
    ensures exists es :: History(p, Boot(files, clock), hs).sys == Run(p.settings, Start(clock), es)
  {
    var start := Start(clock);
    if hs == [] {
      assert History(p, Boot(files, clock), hs).sys == Run(p.settings, start, []);
    } else {
      HistoryIsRun(p, files, clock, hs[..|hs| - 1]);
      var before := History(p, Boot(files, clock), hs[..|hs| - 1]);
      var es :| before.sys == Run(p.settings, start, es);
      NextQueueStep(p, before, hs[|hs| - 1]);
      var now := History(p, Boot(files, clock), hs).sys;
      assert QueueStep(p.settings, before.sys, now);
      if now == before.sys {
        assert now == Run(p.settings, start, es);
      } else {
        var e :| now == Apply(p.settings, before.sys, e);
        RunSnoc(p.settings, start, es, e);
      }
    }
  }

  lemma NextInv(p: Service, x: State, h: Happening)
    requires Inv(p.settings, x.sys)
    ensures Inv(p.settings, Next(p, x, h).sys)
  {
    var y := Next(p, x, h);
    if h.Restart? {
      if Possible(p, x, h) { ResumedInv(p.settings, h.now, h.xs); }
    } else {
      NextQueueStep(p, x, h);
      assert QueueStep(p.settings, x.sys, y.sys);
      if y.sys != x.sys {
        var e :| y.sys == Apply(p.settings, x.sys, e);
        ApplyInv(p.settings, x.sys, e);
      }
    }
  }

  /** In every reachable state the items are in order, and conservation, the chronicle and FIFO order hold. */
  lemma {:induction false} HistoryOrderly(p: Service, files: Files, clock: int, hs: seq<Happening>)
    requires Sound(p)
    ensures Orderly(p, History(p, Boot(files, clock), hs)) && Inv(p.settings, History(p, Boot(files, clock), hs).sys)
  {
    if hs == [] {
      Reachable(p.settings, clock, []);
    } else {
      var before := History(p, Boot(files, clock), hs[..|hs| - 1]);
      HistoryOrderly(p, files, clock, hs[..|hs| - 1]);
      NextOrderly(p, before, hs[|hs| - 1]);
      NextInv(p, before, hs[|hs| - 1]);
    }
  }

  lemma {:induction false} HistorySecure(p: Service, files: Files, clock: int, hs: seq<Happening>)
    requires Sound(p) && Safe(p)
    ensures Secure(p, History(p, Boot(files, clock), hs))
  {
    if hs != [] {
      var before := History(p, Boot(files, clock), hs[..|hs| - 1]);
      HistorySecure(p, files, clock, hs[..|hs| - 1]);
      HistoryOrderly(p, files, clock, hs[..|hs| - 1]);
      NextSecure(p, before, hs[|hs| - 1]);
    }
  }

  /** The retry law holds in every reachable state, the attempts that loaded items came with counted in. */
  lemma ServiceRetriesLawfully(p: Service, files: Files, clock: int, hs: seq<Happening>, id: string)
    requires Sound(p) && p.settings.maxRetries >= 0
    ensures RetriedLawfully(p.settings, History(p, Boot(files, clock), hs).sys, id)
  {
    HistoryOrderly(p, files, clock, hs);
    LawfulNow(p.settings, History(p, Boot(files, clock), hs).sys, id);
  }

  /** The bytes of `path` are in exactly one home, or gone with the encrypted pair in their place. */
  ghost predicate Recoverable(p: Service, x: State, path: string)
    requires path in x.origin
  {
    || (exists d :: OnlyIn(p, x.disk.files, Base(path), d, x.origin[path]))
    || (&& NameFree(p, x.disk.files, Base(path)) && Handlings(p).behavior.Delete?
        && PairOf(p, x.disk.files, path) == Some(x.origin[path]))
  }

  /**
   In every reachable state of a safe service, whatever the interleaving of uploads, admissions, polls,
   steps, faults and restarts, every file that ever arrived can be recovered; and once an item for it is
   completed, unless it gets another one, the pair made for it decrypts to its bytes.
   */
  lemma AlwaysRecoverable(p: Service, files: Files, clock: int, hs: seq<Happening>, path: string)
    requires Sound(p) && Safe(p)
    ensures var x := History(p, Boot(files, clock), hs);
              path in x.origin ==>
                && Recoverable(p, x, path)
                && (WasCompleted(x, path) && path !in x.again ==> PairOf(p, x.disk.files, path) == Some(x.origin[path]))
  {
    HistorySecure(p, files, clock, hs);
    var x := History(p, Boot(files, clock), hs);
    assert path in x.origin ==> Kept(p, x, path);
    assert WasCompleted(x, path) && path !in x.again ==> Sealed(p, x, path);
  }

  /** ... and that pair does so after any history of rewrap batches over the output directory. */
  lemma SealedThroughRewraps(p: Service, x: State, path: string, bs: seq<Batch>)
    requires KeepsKeys(p.setup.vault) && (forall b | b in bs :: KeyFileList(b.o, b.keyFiles)) && Sealed(p, x, path)
    ensures PairOf(p, AfterBatches(p.setup.vault, x.disk.files, bs), path) == Some(x.origin[path])
  {
    ExtendJoin(p.dst, Base(path), ".enc");
    ExtendJoin(p.dst, Base(path), ".key");
    SuffixOfConcat(Join(p.dst, Base(path)), ".enc");
    SuffixOfConcat(Join(p.dst, Base(path)), ".key");
    RewrapsKeepPairs(p.setup.vault, p.setup.cipher, x.disk.files, bs, DestOf(p, path), KeyOf(p, path));
  }

  /** So files that were deleted, or completed by their only item, stay behind their pairs through all rewraps. */
  lemma PairsThroughRewraps(p: Service, files: Files, clock: int, hs: seq<Happening>, path: string, bs: seq<Batch>)
    requires Sound(p) && Safe(p) && KeepsKeys(p.setup.vault) && forall b | b in bs :: KeyFileList(b.o, b.keyFiles)
    ensures var x := History(p, Boot(files, clock), hs);
              path in x.origin
              && (NameFree(p, x.disk.files, Base(path)) || (WasCompleted(x, path) && path !in x.again)) ==>
                PairOf(p, AfterBatches(p.setup.vault, x.disk.files, bs), path) == Some(x.origin[path])
  {
    var x := History(p, Boot(files, clock), hs);
    AlwaysRecoverable(p, files, clock, hs, path);
    if path in x.origin && Sealed(p, x, path) { SealedThroughRewraps(p, x, path, bs); }
  }

  // --- Which lists may be loaded -------------------------------------------------------------

  lemma NextKeepsMade(p: Service, x: State, h: Happening, id: string)
    requires id in x.made
    ensures id in Next(p, x, h).made && Next(p, x, h).made[id] == x.made[id]
  {
  }

  lemma {:induction false} HistoryKeepsMade(p: Service, x: State, hs: seq<Happening>, k: nat, id: string)
    requires k <= |hs| && id in History(p, x, hs[..k]).made
    ensures id in History(p, x, hs).made && History(p, x, hs).made[id] == History(p, x, hs[..k]).made[id]
  {
    if k == |hs| {
      assert hs[..k] == hs;
    } else {
      assert hs[..|hs| - 1][..k] == hs[..k];
      HistoryKeepsMade(p, x, hs[..|hs| - 1], k, id);
      NextKeepsMade(p, History(p, x, hs[..|hs| - 1]), hs[|hs| - 1], id);
    }
  }

  lemma QueuedBelong(p: Service, x: State)
    requires AllBelong(p, x)
    ensures forall it | it in ItemsOf(x.sys.q) :: Belongs(p, x, it)
  {
    forall it | it in ItemsOf(x.sys.q) ensures Belongs(p, x, it) {
      var i :| 0 <= i < |x.sys.q.entries| && ItemsOf(x.sys.q)[i] == it;
      assert x.sys.q.entries[i] in x.sys.q.entries;
    }
  }

  /** The service may start again with any list it ever saved, however old. */
  lemma AnySavedListWillDo(p: Service, files: Files, clock: int, hs: seq<Happening>, k: nat, now: int)
    requires Sound(p) && k <= |hs|
    ensures var saved := ItemsOf(History(p, Boot(files, clock), hs[..k]).sys.q);
              Possible(p, History(p, Boot(files, clock), hs), Restart(now, saved))
  {
    var saving, x := History(p, Boot(files, clock), hs[..k]), History(p, Boot(files, clock), hs);
    HistoryOrderly(p, files, clock, hs[..k]);
    QueuedBelong(p, saving);
    QueuedIsLoadable(p.settings, saving.sys);
    forall it | it in ItemsOf(saving.sys.q) ensures Belongs(p, x, it) {
      assert Belongs(p, saving, it);
      HistoryKeepsMade(p, Boot(files, clock), hs, k, it.id);
    }
  }

  /** With the checksum on, only files that are there get encrypted. */
  lemma EncryptsWhatIsThere(p: Service, files: Files, clock: int, hs: seq<Happening>)
    requires Sound(p) && p.setup.calculateChecksum && History(p, Boot(files, clock), hs).phase.Encrypting?
    ensures var x := History(p, Boot(files, clock), hs);
              x.sys.hand.Some? && Lookup(x.disk.files, x.sys.hand.value.source).Some?
  {
    HistorySecure(p, files, clock, hs);
    HistoryOrderly(p, files, clock, hs);
  }

  /** The assumptions about directories and services can be met. */
  lemma SoundIsPossible()
    ensures exists p :: Sound(p)
  {
    LawsAreConsistent();
    var h := Handling(Delete, "a", "f", "q");
    var setup := Setup(ToyVault(), ToyCipher(), h, h, true, true);
    assert Sound(Service(setup, Settings(3, 1, 60), "s", "d", true));
  }
}
