/**
 A file that has left its source directory stays where it is. So the file of a completed item, once its
 disposal has worked, is in the archive and nowhere else, or nowhere at all, in every later state.
 */
module FinalPlace {
  import opened Paths
  import opened FileSystem
  import opened Items
  import opened Watcher
  import opened Processor
  import opened SystemRuns
  import opened Recovery
  import opened RecoveryOrder
  import opened RecoverySteps
  import opened Recoverability

  /** The files named `n` are the same in all homes. */
  ghost predicate SameHomes(p: Service, f: Files, f': Files, n: string)
  {
    forall d | d in Homes(p) :: Lookup(f', Join(d, n)) == Lookup(f, Join(d, n))
  }

  lemma SameHomesMeans(p: Service, f: Files, f': Files, n: string)
    requires SameHomes(p, f, f', n)
    ensures forall d, m :: OnlyIn(p, f, n, d, m) ==> OnlyIn(p, f', n, d, m)
    ensures NameFree(p, f, n) ==> NameFree(p, f', n)
  {
  }

  lemma OutputWritten(p: Service, f: Files, f': Files, n: string, i: nat, n': string)
    requires Sound(p) && PlainName(n) && PlainName(n') && i < 3 && SameBut(f, f', Outputs(p.dst, n)[i])
    ensures SameHomes(p, f, f', n')
  {
    forall d | d in Homes(p) ensures Lookup(f', Join(d, n')) == Lookup(f, Join(d, n')) {
      OutputNotAtHome(p, n, i, d, n');
    }
  }

  lemma OtherMoved(p: Service, f: Files, f': Files, n: string, d: string, e: string, n': string)
    requires Sound(p) && PlainName(n) && PlainName(n') && n != n'
    requires d in Homes(p) && e in Homes(p) && SameButIn(f, f', n, d, e)
    ensures SameHomes(p, f, f', n')
  {
    forall h | h in Homes(p) ensures Lookup(f', Join(h, n')) == Lookup(f, Join(h, n')) {
      if Join(h, n') == Join(d, n) { JoinInjective(h, n', d, n); }
      if Join(h, n') == Join(e, n) { JoinInjective(h, n', e, n); }
    }
  }

  // --- Each step -----------------------------------------------------------------------------

  /** A rename out of the source directory, of this file or of another one. */
  lemma MoveIsElsewhere(p: Service, x: State, w: World, path: string, dir: string, fails: bool, gone: string)
    requires Sound(p) && Origins(p, x.origin) && path in x.origin && gone in x.origin && gone !in x.disk.files
    requires dir in Homes(p) && w == MoveInto(x.disk, path, dir, fails)
    ensures SameHomes(p, x.disk.files, w.files, Base(gone))
  {
    if path != gone && !fails && path in x.disk.files {
      assert path == Join(p.src, Base(path)) && gone == Join(p.src, Base(gone));
      assert SameButIn(x.disk.files, w.files, Base(path), p.src, dir);
      OtherMoved(p, x.disk.files, w.files, Base(path), p.src, dir, Base(gone));
    }
  }

  lemma DropIsElsewhere(p: Service, x: State, path: string, gone: string)
    requires Sound(p) && Origins(p, x.origin) && path in x.origin && gone in x.origin && path != gone
    ensures SameHomes(p, x.disk.files, x.disk.Drop(path).files, Base(gone))
  {
    assert path == Join(p.src, Base(path)) && gone == Join(p.src, Base(gone));
    assert SameButIn(x.disk.files, x.disk.Drop(path).files, Base(path), p.src, p.src);
    OtherMoved(p, x.disk.files, x.disk.Drop(path).files, Base(path), p.src, p.src, Base(gone));
  }

  lemma AsideIsElsewhere(p: Service, x: State, f: Effort, gone: string)
    requires Sound(p) && Books(p, x) && !Holding(x) && gone in x.origin && gone !in x.disk.files
    ensures SameHomes(p, x.disk.files, Worked(p, x, f).disk.files, Base(gone))
  {
    var h := Handlings(p);
    match x.phase
    case Idle =>
    case IntoDlq(path) =>
      if h.dlqDir != "" { MoveIsElsewhere(p, x, Worked(p, x, f).disk, path, h.dlqDir, f.dlq, gone); }
    case IntoFailed(path) =>
      if h.failedDir != "" { MoveIsElsewhere(p, x, Worked(p, x, f).disk, path, h.failedDir, f.failed, gone); }
    case Disposing(path) =>
      if h.behavior.Archive? {
        MoveIsElsewhere(p, x, Worked(p, x, f).disk, path, h.archiveDir, f.dispose, gone);
      } else if h.behavior.Delete? && !f.dispose && path in x.disk.files {
        DropIsElsewhere(p, x, path, gone);
      }
  }

  /** What the strategy writes next, if anything, is one of the three outputs. */
  lemma StrategyIsElsewhere(p: Service, x: State, f: Effort, gone: string)
    requires Sound(p) && Books(p, x) && Holding(x) && gone in x.origin
    ensures SameHomes(p, x.disk.files, Worked(p, x, f).disk.files, Base(gone))
  {
    var it := x.sys.hand.value;
    var n := Base(it.source);
    PathsOf(p, x);
    match x.phase
    case Summing =>
      SumChanges(p.setup.cipher, p.setup.calculateChecksum, x.disk, it, SumPath(it), f);
      OutputWritten(p, x.disk.files, Worked(p, x, f).disk.files, n, 2, Base(gone));
    case Encrypting =>
      EncryptChanges(p.setup.vault, p.setup.cipher, x.disk, it, f);
      OutputWritten(p, x.disk.files, Worked(p, x, f).disk.files, n, 0, Base(gone));
    case SavingKey(ciphertext) =>
      WrittenChanges(x.disk, it.keyPath, ciphertext, f.saveKey);
      OutputWritten(p, x.disk.files, Worked(p, x, f).disk.files, n, 1, Base(gone));
    case Settling(_) =>
  }

  lemma ScribbleIsElsewhere(p: Service, x: State, f': Files, gone: string)
    requires Sound(p) && Books(p, x) && Holding(x) && Writing(p, x) && gone in x.origin
    requires SameBut(x.disk.files, f', Target(x))
    ensures SameHomes(p, x.disk.files, f', Base(gone))
  {
    var i := if x.phase.Encrypting? then 0 else if x.phase.SavingKey? then 1 else 2;
    PathsOf(p, x);
    OutputWritten(p, x.disk.files, f', Base(x.sys.hand.value.source), i, Base(gone));
  }

  lemma UploadIsElsewhere(p: Service, x: State, name: string, bytes: string, gone: string)
    requires Sound(p) && Origins(p, x.origin) && gone in x.origin && PlainName(name) && Join(p.src, name) !in x.origin
    ensures SameHomes(p, x.disk.files, x.disk.Set(Join(p.src, name), bytes).files, Base(gone))
  {
    var f' := x.disk.Set(Join(p.src, name), bytes).files;
    assert gone == Join(p.src, Base(gone));
    assert SameButIn(x.disk.files, f', name, p.src, p.src);
    OtherMoved(p, x.disk.files, f', name, p.src, p.src, Base(gone));
  }

  lemma WorkLeavesIt(p: Service, x: State, f: Effort, gone: string)
    requires Sound(p) && Books(p, x) && gone in x.origin && gone !in x.disk.files
    ensures SameHomes(p, x.disk.files, Worked(p, x, f).disk.files, Base(gone))
  {
    if Holding(x) { StrategyIsElsewhere(p, x, f, gone); } else { AsideIsElsewhere(p, x, f, gone); }
  }

  lemma QuietSteps(p: Service, x: State, h: Happening)
    requires !h.Upload? && !h.Scribble? && !h.Work?
    ensures Next(p, x, h).disk == x.disk
  {
  }

  /** No step touches a file that has left its source. */
  lemma NextLeavesIt(p: Service, x: State, h: Happening, gone: string)
    requires Sound(p) && Books(p, x) && gone in x.origin && gone !in x.disk.files
    ensures SameHomes(p, x.disk.files, Next(p, x, h).disk.files, Base(gone))
  {
    if Possible(p, x, h) {
      match h
      case Upload(name, bytes) => UploadIsElsewhere(p, x, name, bytes, gone);
      case Scribble(bytes) => ScribbleIsElsewhere(p, x, x.disk.Set(Target(x), bytes).files, gone);
      case Work(f) => WorkLeavesIt(p, x, f, gone);
      case _ => QuietSteps(p, x, h);
    }
  }

  lemma NextKeepsOrigin(p: Service, x: State, h: Happening, path: string)
    requires path in x.origin
    ensures path in Next(p, x, h).origin && Next(p, x, h).origin[path] == x.origin[path]
  {
  }

  // --- Every later state ---------------------------------------------------------------------

  /** From `x` to `z` nothing happened to the file, if it was away from its source. */
  ghost predicate Untouched(p: Service, x: State, z: State, gone: string)
  {
    gone in x.origin && gone !in x.disk.files ==>
      && SameHomes(p, x.disk.files, z.disk.files, Base(gone))
      && gone in z.origin && z.origin[gone] == x.origin[gone]
  }

  lemma UntouchedNext(p: Service, x: State, y: State, h: Happening, gone: string)
    requires Sound(p) && Books(p, y) && Untouched(p, x, y, gone)
    ensures Untouched(p, x, Next(p, y, h), gone)
  {
    if gone in x.origin && gone !in x.disk.files {
      assert gone == Join(p.src, Base(gone));
      assert p.src in Homes(p);
      NextLeavesIt(p, y, h, gone);
      NextKeepsOrigin(p, y, h, gone);
    }
  }

  lemma BooksAt(p: Service, files: Files, clock: int, hs: seq<Happening>)
    requires Sound(p) && Safe(p)
    ensures Books(p, History(p, Boot(files, clock), hs))
  {
    HistoryOrderly(p, files, clock, hs);
    HistorySecure(p, files, clock, hs);
  }

  lemma {:induction false} LeftForGood(p: Service, files: Files, clock: int, hs: seq<Happening>, hs': seq<Happening>,
                                       gone: string)
    requires Sound(p) && Safe(p)
    ensures Untouched(p, History(p, Boot(files, clock), hs), History(p, Boot(files, clock), hs + hs'), gone)
  {
    if hs' == [] {
      assert hs + hs' == hs;
    } else {
      var init := hs'[..|hs'| - 1];
      LeftForGood(p, files, clock, hs, init, gone);
      BooksAt(p, files, clock, hs + init);
      UntouchedNext(p, History(p, Boot(files, clock), hs), History(p, Boot(files, clock), hs + init),
                    hs'[|hs'| - 1], gone);
      HistorySnoc(p, Boot(files, clock), hs + init, hs'[|hs'| - 1]);
      assert hs + hs' == hs + init + [hs'[|hs'| - 1]];
    }
  }

  /** The disposal itself, when it works: the file is only in the archive, or gone, or where it was. */
  lemma DisposalWorks(p: Service, x: State, path: string, f: Effort)
    requires Sound(p) && Books(p, x) && x.phase == Disposing(path) && !f.dispose
    ensures var y := Worked(p, x, f);
              && path in x.origin && y.origin == x.origin
              && match Handlings(p).behavior
                 case Archive => OnlyIn(p, y.disk.files, Base(path), Handlings(p).archiveDir, x.origin[path])
                 case Delete => NameFree(p, y.disk.files, Base(path))
                 case Keep => OnlyIn(p, y.disk.files, Base(path), p.src, x.origin[path])
  {
    var h, y := Handlings(p), Worked(p, x, f);
    assert path == Join(p.src, Base(path));
    match h.behavior
    case Archive => MovedFile(p, x.disk.files, y.disk.files, Base(path), p.src, h.archiveDir, x.origin[path]);
    case Delete => DeletedFile(p, x.disk.files, y.disk.files, Base(path), x.origin[path]);
    case Keep =>
  }

  /**
   Once the file of a completed item was disposed of without fault, it is, in that state and in every
   later one, only in the archive directory with its bytes, or it is nowhere, as the behaviour says.
   */
  lemma DisposedForGood(p: Service, files: Files, clock: int, hs: seq<Happening>, f: Effort, hs': seq<Happening>,
                        path: string)
    requires Sound(p) && Safe(p) && Handlings(p).archiveDir != p.src && !f.dispose
    requires History(p, Boot(files, clock), hs).phase == Disposing(path)
    requires Possible(p, History(p, Boot(files, clock), hs), Work(f))
    ensures var z := History(p, Boot(files, clock), hs + [Work(f)] + hs');
              && path in z.origin
              && (Handlings(p).behavior.Archive? ==>
                    OnlyIn(p, z.disk.files, Base(path), Handlings(p).archiveDir, z.origin[path]))
              && (Handlings(p).behavior.Delete? ==> NameFree(p, z.disk.files, Base(path)))
  {
    var x := History(p, Boot(files, clock), hs);
    BooksAt(p, files, clock, hs);
    HistorySnoc(p, Boot(files, clock), hs, Work(f));
    DisposalWorks(p, x, path, f);
    var y := Worked(p, x, f);
    assert path == Join(p.src, Base(path));
    if !Handlings(p).behavior.Keep? {
      assert path !in y.disk.files;
      LeftForGood(p, files, clock, hs + [Work(f)], hs', path);
      SameHomesMeans(p, y.disk.files, History(p, Boot(files, clock), hs + [Work(f)] + hs').disk.files, Base(path));
    } else {
      OriginStays(p, Boot(files, clock), hs + [Work(f)], hs', path);
    }
  }

  lemma {:induction false} OriginStays(p: Service, x: State, hs: seq<Happening>, hs': seq<Happening>, path: string)
    requires path in History(p, x, hs).origin
    ensures path in History(p, x, hs + hs').origin
  {
    if hs' == [] {
      assert hs + hs' == hs;
    } else {
      OriginStays(p, x, hs, hs'[..|hs'| - 1], path);
      NextKeepsOrigin(p, History(p, x, hs + hs'[..|hs'| - 1]), hs'[|hs'| - 1], path);
      assert (hs + hs')[..|hs + hs'| - 1] == hs + hs'[..|hs'| - 1];
    }
  }
}
