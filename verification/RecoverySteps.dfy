/** Every step of a safe service keeps the files: where each is, which pairs are good, what each phase relies on. */
module RecoverySteps {
  import opened Common
  import opened Paths
  import opened FileSystem
  import opened Transit
  import opened Items
  import opened Watcher
  import opened Processor
  import opened SystemRuns
  import opened Recovery
  import opened RecoveryOrder

  // --- What a write changes ------------------------------------------------------------------

  /** The disks agree except at path `q`. */
  ghost predicate SameBut(f: Files, f': Files, q: string)
  {
    forall r {:trigger Lookup(f', r)} :: r != q ==> Lookup(f', r) == Lookup(f, r)
  }

  /** An output of encrypting a file is in no home of any file. */
  lemma OutputNotAtHome(p: Service, n: string, i: nat, d: string, n': string)
    requires Sound(p) && PlainName(n) && PlainName(n') && i < 3 && d in Homes(p)
    ensures Join(d, n') != Outputs(p.dst, n)[i]
  {
    ExtendedName(n, ENDINGS[i]);
    if Join(d, n') == Outputs(p.dst, n)[i] {
      JoinInjective(d, n', p.dst, n + ENDINGS[i]);
      assert false;
    }
  }

  /** A write to an output of one file leaves all files where they are. */
  lemma HomesUndisturbed(p: Service, f: Files, f': Files, n: string, i: nat, n': string)
    requires Sound(p) && PlainName(n) && PlainName(n') && i < 3 && SameBut(f, f', Outputs(p.dst, n)[i])
    ensures forall d, m :: OnlyIn(p, f, n', d, m) ==> OnlyIn(p, f', n', d, m)
    ensures NameFree(p, f, n') ==> NameFree(p, f', n')
  {
    forall d | d in Homes(p) ensures Lookup(f', Join(d, n')) == Lookup(f, Join(d, n')) {
      OutputNotAtHome(p, n, i, d, n');
    }
  }

  /** ... and the pairs made for other files closed; the checksum is no part of any pair. */
  lemma PairsUndisturbed(p: Service, f: Files, f': Files, path: string, i: nat, path': string)
    requires Sound(p) && PlainName(Base(path)) && PlainName(Base(path')) && (Base(path) != Base(path') || i == 2)
    requires i < 3 && SameBut(f, f', Outputs(p.dst, Base(path))[i])
    ensures PairOf(p, f', path') == PairOf(p, f, path')
  {
    OutputsDisjoint(p.dst, Base(path), i, Base(path'), 0);
    OutputsDisjoint(p.dst, Base(path), i, Base(path'), 1);
    assert Lookup(f', DestOf(p, path')) == Lookup(f, DestOf(p, path'));
    assert Lookup(f', KeyOf(p, path')) == Lookup(f, KeyOf(p, path'));
  }

  /** A write to an output of the item in hand disturbs nothing that is kept or sealed, unless its file is gone. */
  lemma WriteKeeps(p: Service, x: State, y: State, i: nat)
    requires Sound(p) && Orderly(p, x) && AllKept(p, x) && AllSealed(p, x)
    requires x.sys.hand.Some? && i < 3 && SameBooks(x, y)
    requires i < 2 ==> !NameFree(p, x.disk.files, Base(x.sys.hand.value.source))
    requires SameBut(x.disk.files, y.disk.files, Outputs(p.dst, Base(x.sys.hand.value.source))[i])
    ensures AllKept(p, y) && AllSealed(p, y)
    ensures forall path :: AtSource(p, x, path) ==> AtSource(p, y, path)
  {
    var mine := x.sys.hand.value.source;
    if mine !in x.again { HandIsNotFinished(p, x); }
    forall path | path in x.origin
      ensures Kept(p, y, path)
      ensures AtSource(p, x, path) ==> AtSource(p, y, path)
    {
      assert Kept(p, x, path);
      OneWriteKeeps(p, x, y, mine, i, path);
    }
    forall path | WasCompleted(y, path) && path !in y.again ensures Sealed(p, y, path) {
      assert WasCompleted(x, path) && Sealed(p, x, path);
      SealUndisturbed(p, x, y, mine, i, path);
    }
  }

  lemma SealUndisturbed(p: Service, x: State, y: State, mine: string, i: nat, path: string)
    requires Sound(p) && Arrivals(p, x) && mine in x.origin && Sealed(p, x, path) && y.origin == x.origin
    requires i < 3 && SameBut(x.disk.files, y.disk.files, Outputs(p.dst, Base(mine))[i])
    requires path != mine || i == 2
    ensures Sealed(p, y, path)
  {
    assert path == Join(p.src, Base(path)) && mine == Join(p.src, Base(mine));
    PairsUndisturbed(p, x.disk.files, y.disk.files, mine, i, path);
  }

  lemma OneWriteKeeps(p: Service, x: State, y: State, mine: string, i: nat, path: string)
    requires Sound(p) && Arrivals(p, x) && mine in x.origin && path in x.origin && SameBooks(x, y)
    requires i < 2 ==> !NameFree(p, x.disk.files, Base(mine))
    requires i < 3 && SameBut(x.disk.files, y.disk.files, Outputs(p.dst, Base(mine))[i])
    requires Kept(p, x, path)
    ensures Kept(p, y, path)
    ensures AtSource(p, x, path) ==> AtSource(p, y, path)
  {
    HomesUndisturbed(p, x.disk.files, y.disk.files, Base(mine), i, Base(path));
    if Sealed(p, x, path) && (path != mine || i == 2) { SealUndisturbed(p, x, y, mine, i, path); }
  }

  /** The paths of an item are the outputs for its source. */
  lemma PathsOf(p: Service, x: State)
    requires Sound(p) && Arrivals(p, x) && AllBelong(p, x) && x.sys.hand.Some?
    ensures var it := x.sys.hand.value;
            var outs := Outputs(p.dst, Base(it.source));
              && it.source in x.origin
              && it.dest == outs[0] && it.keyPath == outs[1] && SumPath(it) == outs[2]
              && outs[0] != outs[1]
  {
    var it := x.sys.hand.value;
    EncryptionNames(p.src, p.dst, Base(it.source));
    OutputsDisjoint(p.dst, Base(it.source), 0, Base(it.source), 1);
    assert it.source == Join(p.src, Base(it.source));
  }

  // --- The steps of the strategy -------------------------------------------------------------

  lemma WrittenChanges(w: World, path: string, data: string, fault: WriteFault)
    ensures SameBut(w.files, Written(w, path, data, fault).world.files, path)
    ensures fault.Fine? ==> Lookup(Written(w, path, data, fault).world.files, path) == Some(data)
  {
    WrittenFiles(w, path, data, fault);
  }

  lemma SumChanges(c: Cipher, on: bool, w: World, it: ItemRec, path: string, f: Effort)
    ensures var r := SumStep(c, on, w, it, path, f);
              && SameBut(w.files, r.world.files, path)
              && r.item == it.(checksum := r.item.checksum, checksumPath := r.item.checksumPath)
              && (on && r.ok ==> it.source in w.files)
  {
    if on && !f.sum && it.source in w.files { WrittenChanges(w, path, c.hash(w.files[it.source]), f.saveSum); }
  }

  lemma EncryptChanges(v: Vault, c: Cipher, w: World, it: ItemRec, f: Effort)
    requires WrapsItsKeys(v) && Decrypts(c)
    ensures var e := CryptStep(v, c, w, it, f);
              && SameBut(w.files, e.world.files, it.dest)
              && (e.ciphertext.Some? ==>
                    && it.source in w.files && it.dest in e.world.files
                    && v.unwrap(e.ciphertext.value).Some?
                    && c.dec(v.unwrap(e.ciphertext.value).value, e.world.files[it.dest]) == Some(w.files[it.source]))
  {
    var e := CryptStep(v, c, w, it, f);
    if e.ciphertext.Some? {
      var key := v.generate(f.request).value;
      var body := c.enc(key.plaintext, f.salt, w.files[it.source]);
      WrittenChanges(w, it.dest, body, Fine);
      assert c.dec(key.plaintext, body) == Some(w.files[it.source]);
    }
  }

  /** A file that is at its source is there with its original bytes, and nowhere else. */
  lemma FoundAtSource(p: Service, x: State, path: string)
    requires Arrivals(p, x) && AllKept(p, x) && path in x.origin && path in x.disk.files && p.src in Homes(p)
    ensures AtSource(p, x, path)
  {
    assert Kept(p, x, path);
    assert path == Join(p.src, Base(path));
  }

  lemma SumSecure(p: Service, x: State, y: State, path: string, f: Effort)
    requires Sound(p) && Books(p, x) && x.phase.Summing?
    requires path == Outputs(p.dst, Base(x.sys.hand.value.source))[2] && y == WorkSum(p, x, path, f)
    ensures Secure(p, y)
  {
    var it := x.sys.hand.value;
    SumChanges(p.setup.cipher, p.setup.calculateChecksum, x.disk, it, path, f);
    if it.source in x.disk.files { FoundAtSource(p, x, it.source); }
    WriteKeeps(p, x, y, 2);
  }

  /** A file that is somewhere is not gone. */
  lemma SourceTakesName(p: Service, x: State, path: string)
    requires Origins(p, x.origin) && path in x.origin && path in x.disk.files
    ensures !NameFree(p, x.disk.files, Base(path))
  {
    assert path == Join(p.src, Base(path)) && p.src in Homes(p);
  }

  /** In a safe service, the file that is encrypted is not gone, unless nothing is going to be written. */
  lemma EncryptingIsSafe(p: Service, x: State)
    requires Safe(p) && Books(p, x) && x.phase.Encrypting? && x.sys.hand.value.source in x.origin
    ensures var source := x.sys.hand.value.source;
              !NameFree(p, x.disk.files, Base(source)) || (!p.leaks && source !in x.disk.files)
  {
    var source := x.sys.hand.value.source;
    if source in x.disk.files {
      SourceTakesName(p, x, source);
    } else {
      assert Kept(p, x, source) && source == Join(p.src, Base(source));
    }
  }

  lemma NothingEncrypted(v: Vault, c: Cipher, w: World, it: ItemRec, f: Effort)
    requires it.source !in w.files && Quiet(f.crypt)
    ensures CryptStep(v, c, w, it, f).world == w && CryptStep(v, c, w, it, f).ciphertext.None?
  {
  }

  lemma EncryptSecure(p: Service, x: State, y: State, f: Effort)
    requires Sound(p) && Safe(p) && Books(p, x) && x.phase.Encrypting? && Lawful(p, x, f) && y == WorkEncrypt(p, x, f)
    ensures Secure(p, y)
  {
    var it := x.sys.hand.value;
    PathsOf(p, x);
    EncryptingIsSafe(p, x);
    if NameFree(p, x.disk.files, Base(it.source)) {
      NothingEncrypted(p.setup.vault, p.setup.cipher, x.disk, it, f);
      Unmoved(p, x, y);
    } else {
      EncryptChanges(p.setup.vault, p.setup.cipher, x.disk, it, f);
      WriteKeeps(p, x, y, 0);
      if y.phase.SavingKey? { FoundAtSource(p, x, it.source); }
    }
  }

  lemma KeySecure(p: Service, x: State, y: State, ciphertext: string, f: Effort)
    requires Sound(p) && Books(p, x) && x.phase == SavingKey(ciphertext) && y == WorkKey(x, ciphertext, f)
    ensures Secure(p, y)
  {
    var it := x.sys.hand.value;
    PathsOf(p, x);
    SourceTakesName(p, x, it.source);
    WrittenChanges(x.disk, it.keyPath, ciphertext, f.saveKey);
    WrittenFiles(x.disk, it.keyPath, ciphertext, f.saveKey);
    WriteKeeps(p, x, y, 1);
    assert Lookup(y.disk.files, it.dest) == Lookup(x.disk.files, it.dest);
  }

  /** Whatever a file being written holds, the files stay safe. */
  lemma ScribbleSecure(p: Service, x: State, y: State, i: nat, q: string, bytes: string)
    requires Sound(p) && Books(p, x) && Holding(x) && !x.phase.Settling? && i < 3
    requires q == Outputs(p.dst, Base(x.sys.hand.value.source))[i]
    requires i < 2 ==> !NameFree(p, x.disk.files, Base(x.sys.hand.value.source))
    requires x.phase.SavingKey? ==> q != x.sys.hand.value.dest
    requires y == x.(disk := x.disk.Set(q, bytes))
    ensures Secure(p, y)
  {
    var it := x.sys.hand.value;
    WriteKeeps(p, x, y, i);
    assert q != it.dest ==> Lookup(y.disk.files, it.dest) == Lookup(x.disk.files, it.dest);
  }

  // --- Settling ------------------------------------------------------------------------------

  /** Files and what is known of their origin stay; more may be completed. */
  lemma CompletionsKeep(p: Service, x: State, y: State)
    requires AllKept(p, x) && y.origin == x.origin && y.disk == x.disk
    requires forall path | WasCompleted(x, path) :: WasCompleted(y, path)
    ensures AllKept(p, y)
  {
    forall path | path in y.origin ensures Kept(p, y, path) {
      assert Kept(p, x, path);
    }
  }

  lemma CompletionSeals(p: Service, x: State, y: State, path: string)
    requires AllSealed(p, x) && y.origin == x.origin && y.disk == x.disk && y.again == x.again
    requires Sealed(p, x, path)
    requires forall r | WasCompleted(y, r) :: WasCompleted(x, r) || r == path
    ensures AllSealed(p, y)
  {
    forall r | WasCompleted(y, r) && r !in y.again ensures Sealed(p, y, r) {
      assert r != path ==> WasCompleted(x, r) && Sealed(p, x, r);
    }
  }

  lemma SucceedKeeps(p: Service, x: State, y: State, path: string)
    requires AllKept(p, x) && AllSealed(p, x) && Sealed(p, x, path) && AtSource(p, x, path) && Answers(p)
    requires y.origin == x.origin && y.disk == x.disk && y.again == x.again
    requires forall r :: WasCompleted(y, r) <==> WasCompleted(x, r) || r == path
    requires Holding(y) == y.sys.hand.Some? && y.phase == Disposing(path)
    ensures AllKept(p, y) && AllSealed(p, y) && PhaseOk(p, y)
  {
    CompletionsKeep(p, x, y);
    CompletionSeals(p, x, y, path);
  }

  lemma SucceedSecure(p: Service, x: State, y: State, now: int)
    requires Books(p, x) && x.phase == Settling(true) && SettledWell(x, y, now)
    ensures Secure(p, y)
  {
    SucceedFinishes(x, y, now, NamedBy(p));
    SucceedKeeps(p, x, y, x.sys.hand.value.source);
  }

  /** A step that completes nothing and leaves the disk alone. */
  lemma QueueStepSecure(p: Service, x: State, y: State)
    requires AllKept(p, x) && AllSealed(p, x) && PhaseOk(p, y)
    requires y.origin == x.origin && y.disk == x.disk && x.again <= y.again
    requires forall path :: WasCompleted(y, path) <==> WasCompleted(x, path)
    ensures Secure(p, y)
  {
    CompletionsKeep(p, x, y);
    forall path | WasCompleted(y, path) && path !in y.again ensures Sealed(p, y, path) {
      assert WasCompleted(x, path) && Sealed(p, x, path);
    }
  }

  /** ... and brings no phase that relies on anything. */
  lemma QuietStepSecure(p: Service, x: State, y: State)
    requires AllKept(p, x) && AllSealed(p, x)
    requires y == x.(sys := y.sys, phase := y.phase, again := y.again) && x.again <= y.again
    requires Holding(y) <==> y.sys.hand.Some?
    requires y.phase.Idle? || y.phase.Summing?
          || ((y.phase.IntoFailed? || y.phase.IntoDlq?) && y.phase.path in x.origin)
    ensures Secure(p, y)
  {
    forall r ensures WasCompleted(y, r) <==> WasCompleted(x, r) {
      FinishedSame(x, y, r);
    }
    QueueStepSecure(p, x, y);
  }

  lemma FinishedSame(x: State, y: State, r: string)
    requires y.made == x.made && y.finished == x.finished
    ensures WasCompleted(y, r) <==> WasCompleted(x, r)
  {
  }

  // --- Moving and deleting the source file ---------------------------------------------------

  /** The disks agree except where the file named `n` is in homes `d` and `e`. */
  ghost predicate SameButIn(f: Files, f': Files, n: string, d: string, e: string)
  {
    forall r {:trigger Lookup(f', r)} :: r != Join(d, n) && r != Join(e, n) ==> Lookup(f', r) == Lookup(f, r)
  }

  lemma OtherNamesStay(p: Service, f: Files, f': Files, n: string, d: string, e: string, n': string)
    requires Sound(p) && PlainName(n) && PlainName(n') && n != n'
    requires d in Homes(p) && e in Homes(p) && SameButIn(f, f', n, d, e)
    ensures forall h, m :: OnlyIn(p, f, n', h, m) ==> OnlyIn(p, f', n', h, m)
    ensures NameFree(p, f, n') ==> NameFree(p, f', n')
  {
    forall h | h in Homes(p) ensures Lookup(f', Join(h, n')) == Lookup(f, Join(h, n')) {
      if Join(h, n') == Join(d, n) { JoinInjective(h, n', d, n); }
      if Join(h, n') == Join(e, n) { JoinInjective(h, n', e, n); }
    }
  }

  lemma PairsStay(p: Service, f: Files, f': Files, n: string, d: string, e: string, path: string)
    requires Sound(p) && PlainName(n) && PlainName(Base(path))
    requires d in Homes(p) && e in Homes(p) && SameButIn(f, f', n, d, e)
    ensures PairOf(p, f', path) == PairOf(p, f, path)
    ensures Lookup(f', DestOf(p, path)) == Lookup(f, DestOf(p, path))
  {
    forall i: nat | i < 2
      ensures Lookup(f', Outputs(p.dst, Base(path))[i]) == Lookup(f, Outputs(p.dst, Base(path))[i])
    {
      OutputNotAtHome(p, Base(path), i, d, n);
      OutputNotAtHome(p, Base(path), i, e, n);
    }
    assert Lookup(f', DestOf(p, path)) == Lookup(f, Outputs(p.dst, Base(path))[0]);
    assert Lookup(f', KeyOf(p, path)) == Lookup(f, Outputs(p.dst, Base(path))[1]);
  }

  /** Files only arrive, and nothing else is recorded. */
  predicate MoreFiles(x: State, y: State)
  {
    && (forall r | r in x.origin :: r in y.origin && y.origin[r] == x.origin[r])
    && y.made == x.made && y.finished == x.finished && y.again == x.again
  }

  lemma OtherFileKept(p: Service, x: State, y: State, n: string, d: string, e: string, r: string)
    requires Sound(p) && r in x.origin && Kept(p, x, r) && PlainName(n) && PlainName(Base(r)) && n != Base(r)
    requires MoreFiles(x, y) && d in Homes(p) && e in Homes(p) && SameButIn(x.disk.files, y.disk.files, n, d, e)
    ensures Kept(p, y, r)
  {
    OtherNamesStay(p, x.disk.files, y.disk.files, n, d, e, Base(r));
    PairsStay(p, x.disk.files, y.disk.files, n, d, e, r);
  }

  /** A change to the file of one source path, within its homes, that keeps that file, keeps everything. */
  lemma HomeChangeKeeps(p: Service, x: State, y: State, path: string, d: string, e: string)
    requires Sound(p) && Origins(p, x.origin) && AllKept(p, x) && AllSealed(p, x)
    requires path in y.origin && Kept(p, y, path) && PlainName(Base(path)) && path == Join(p.src, Base(path))
    requires MoreFiles(x, y) && y.origin.Keys == x.origin.Keys + {path}
    requires d in Homes(p) && e in Homes(p) && SameButIn(x.disk.files, y.disk.files, Base(path), d, e)
    ensures AllKept(p, y) && AllSealed(p, y)
  {
    forall r | r in y.origin ensures Kept(p, y, r) {
      if r != path {
        assert Kept(p, x, r) && r == Join(p.src, Base(r));
        OtherFileKept(p, x, y, Base(path), d, e, r);
      }
    }
    forall r | WasCompleted(y, r) && r !in y.again ensures Sealed(p, y, r) {
      assert WasCompleted(x, r) && Sealed(p, x, r);
      PairsStay(p, x.disk.files, y.disk.files, Base(path), d, e, r);
    }
  }

  /** Moving the file from the source to another home. */
  lemma MoveKeeps(p: Service, x: State, y: State, path: string, dir: string, fails: bool)
    requires Sound(p) && Arrivals(p, x) && AllKept(p, x) && AllSealed(p, x)
    requires path in x.origin && dir in Homes(p)
    requires y == x.(disk := MoveInto(x.disk, path, dir, fails), phase := y.phase)
    ensures AllKept(p, y) && AllSealed(p, y)
  {
    var n := Base(path);
    if fails || path !in x.disk.files {
      Unmoved(p, x, y);
    } else {
      FoundAtSource(p, x, path);
      assert path == Join(p.src, n);
      MovedFile(p, x.disk.files, y.disk.files, n, p.src, dir, x.origin[path]);
      HomeChangeKeeps(p, x, y, path, p.src, dir);
    }
  }

  lemma Unmoved(p: Service, x: State, y: State)
    requires AllKept(p, x) && AllSealed(p, x)
    requires y == x.(disk := y.disk, phase := y.phase) && y.disk.files == x.disk.files
    ensures AllKept(p, y) && AllSealed(p, y)
  {
    forall r | r in y.origin ensures Kept(p, y, r) {
      assert Kept(p, x, r);
    }
    forall r | WasCompleted(y, r) && r !in y.again ensures Sealed(p, y, r) {
      assert WasCompleted(x, r) && Sealed(p, x, r);
    }
  }

  lemma MovedFile(p: Service, f: Files, f': Files, n: string, d: string, e: string, m: string)
    requires OnlyIn(p, f, n, d, m) && e in Homes(p) && Sound(p) && PlainName(n)
    requires f' == (f - {Join(d, n)})[Join(e, n) := m]
    ensures OnlyIn(p, f', n, e, m) && SameButIn(f, f', n, d, e)
  {
    forall h | h in Homes(p) && h != e ensures Join(h, n) !in f' {
      if Join(h, n) == Join(e, n) { JoinInjective(h, n, e, n); }
    }
  }

  lemma DeletedFile(p: Service, f: Files, f': Files, n: string, m: string)
    requires OnlyIn(p, f, n, p.src, m) && f' == f - {Join(p.src, n)}
    ensures NameFree(p, f', n) && SameButIn(f, f', n, p.src, p.src)
  {
  }

  lemma DeleteKeeps(p: Service, x: State, y: State, path: string)
    requires Sound(p) && Arrivals(p, x) && AllKept(p, x) && AllSealed(p, x)
    requires AtSource(p, x, path) && WasCompleted(x, path) && Sealed(p, x, path)
    requires Handlings(p).behavior.Delete? && Answers(p)
    requires y == x.(disk := x.disk.Drop(path), phase := y.phase)
    ensures AllKept(p, y) && AllSealed(p, y)
  {
    assert path == Join(p.src, Base(path));
    DeletedFile(p, x.disk.files, y.disk.files, Base(path), x.origin[path]);
    PairsStay(p, x.disk.files, y.disk.files, Base(path), p.src, p.src, path);
    assert WasCompleted(y, path);
    HomeChangeKeeps(p, x, y, path, p.src, p.src);
  }

  /** A step that only moves files, with nothing in hand. */
  lemma MovedSecure(p: Service, x: State, y: State)
    requires x.sys.hand.None? && AllKept(p, y) && AllSealed(p, y)
    requires y == x.(disk := y.disk, phase := y.phase)
    requires y.phase.Idle? || (y.phase.IntoFailed? && y.phase.path in x.origin)
    ensures Secure(p, y)
  {
  }

  lemma IntoDlqSecure(p: Service, x: State, path: string, f: Effort)
    requires Sound(p) && Books(p, x) && x.phase == IntoDlq(path)
    ensures Secure(p, Worked(p, x, f))
  {
    var h, y := Handlings(p), Worked(p, x, f);
    if h.dlqDir != "" { MoveKeeps(p, x, y, path, h.dlqDir, f.dlq); } else { Unmoved(p, x, y); }
    MovedSecure(p, x, y);
  }

  lemma IntoFailedSecure(p: Service, x: State, path: string, f: Effort)
    requires Sound(p) && Books(p, x) && x.phase == IntoFailed(path)
    ensures Secure(p, Worked(p, x, f))
  {
    var h, y := Handlings(p), Worked(p, x, f);
    if h.failedDir != "" { MoveKeeps(p, x, y, path, h.failedDir, f.failed); } else { Unmoved(p, x, y); }
    MovedSecure(p, x, y);
  }

  lemma DisposeSecure(p: Service, x: State, path: string, f: Effort)
    requires Sound(p) && Books(p, x) && x.phase == Disposing(path)
    ensures Secure(p, Worked(p, x, f))
  {
    var h, y := Handlings(p), Worked(p, x, f);
    if h.behavior.Archive? {
      MoveKeeps(p, x, y, path, h.archiveDir, f.dispose);
    } else if h.behavior.Delete? && !f.dispose && path in x.disk.files {
      DeleteKeeps(p, x, y, path);
    } else {
      Unmoved(p, x, y);
    }
    MovedSecure(p, x, y);
  }

  // --- Arrivals and polling ------------------------------------------------------------------

  lemma UploadedFile(p: Service, f: Files, f': Files, name: string, bytes: string)
    requires Sound(p) && PlainName(name) && NameFree(p, f, name) && f' == f[Join(p.src, name) := bytes]
    ensures OnlyIn(p, f', name, p.src, bytes) && SameButIn(f, f', name, p.src, p.src)
  {
    forall d | d in Homes(p) && d != p.src ensures Join(d, name) !in f' {
      if Join(d, name) == Join(p.src, name) { JoinInjective(d, name, p.src, name); }
    }
  }

  lemma UploadKeeps(p: Service, x: State, y: State, name: string, bytes: string)
    requires Sound(p) && Arrivals(p, x) && AllKept(p, x) && AllSealed(p, x)
    requires PlainName(name) && Join(p.src, name) !in x.origin && NameFree(p, x.disk.files, name)
    requires y == x.(disk := y.disk, origin := x.origin[Join(p.src, name) := bytes])
    requires y.disk.files == x.disk.files[Join(p.src, name) := bytes]
    ensures Base(Join(p.src, name)) == name
    ensures AllKept(p, y) && AllSealed(p, y)
  {
    SplitOfJoin(p.src, name);
    UploadedFile(p, x.disk.files, y.disk.files, name, bytes);
    HomeChangeKeeps(p, x, y, Join(p.src, name), p.src, p.src);
  }

  /** What the current phase relies on concerns other files. */
  lemma UploadPhase(p: Service, x: State, y: State, name: string)
    requires Sound(p) && Arrivals(p, x) && AllBelong(p, x) && PhaseOk(p, x)
    requires PlainName(name) && Join(p.src, name) !in x.origin
    requires y.sys == x.sys && y.phase == x.phase && y.made == x.made && y.finished == x.finished
    requires forall r | r in x.origin :: r in y.origin && y.origin[r] == x.origin[r]
    requires SameButIn(x.disk.files, y.disk.files, name, p.src, p.src)
    ensures PhaseOk(p, y)
  {
    forall path | path in x.origin
      ensures AtSource(p, x, path) ==> AtSource(p, y, path)
      ensures PairOf(p, y.disk.files, path) == PairOf(p, x.disk.files, path)
      ensures Lookup(y.disk.files, DestOf(p, path)) == Lookup(x.disk.files, DestOf(p, path))
    {
      assert path == Join(p.src, Base(path));
      OtherNamesStay(p, x.disk.files, y.disk.files, name, p.src, p.src, Base(path));
      PairsStay(p, x.disk.files, y.disk.files, name, p.src, p.src, path);
    }
  }

  lemma UploadSecure(p: Service, x: State, y: State, name: string, bytes: string)
    requires Sound(p) && Books(p, x)
    requires PlainName(name) && Join(p.src, name) !in x.origin && NameFree(p, x.disk.files, name)
    requires y == Uploaded(p, x, name, bytes)
    ensures Secure(p, y)
  {
    UploadKeeps(p, x, y, name, bytes);
    UploadPhase(p, x, y, name);
  }

  lemma AdmitPhase(p: Service, x: State, y: State)
    requires PhaseOk(p, x) && y.sys.hand == x.sys.hand && y.phase == x.phase && y.disk == x.disk && y.origin == x.origin
    requires forall path :: WasCompleted(y, path) <==> WasCompleted(x, path)
    ensures PhaseOk(p, y)
  {
  }

  lemma AdmitSecure(p: Service, x: State, y: State, it: ItemRec)
    requires Books(p, x) && it.id !in x.made && it.id !in x.sys.q.index
    requires y == WithItem(x, Arrived(x.sys, it), it.id, it.source)
    ensures Secure(p, y)
  {
    forall r ensures WasCompleted(y, r) <==> WasCompleted(x, r) {
      AdmitFinishes(x, y, it.id, it.source, r);
    }
    AdmitPhase(p, x, y);
    QueueStepSecure(p, x, y);
  }

  // --- Every step ----------------------------------------------------------------------------

  lemma SettleSecure(p: Service, x: State, y: State, ok: bool, f: Effort)
    requires Books(p, x) && x.phase == Settling(ok)
    requires if ok then SettledWell(x, y, f.finish) else SettledBadly(p.settings, x, y, f.err, f.finish)
    requires x.sys.hand.value.source in x.origin
    ensures Secure(p, y)
  {
    if ok { SucceedSecure(p, x, y, f.finish); } else { QuietStepSecure(p, x, y); }
  }

  /** A step of the strategy, or its end. */
  lemma WorkHeldSecure(p: Service, x: State, f: Effort)
    requires Sound(p) && Safe(p) && Books(p, x) && Possible(p, x, Work(f)) && Holding(x)
    ensures Secure(p, Worked(p, x, f))
  {
    PathsOf(p, x);
    match x.phase
    case Summing => SumSecure(p, x, WorkSum(p, x, SumPath(x.sys.hand.value), f), SumPath(x.sys.hand.value), f);
    case Encrypting => EncryptSecure(p, x, WorkEncrypt(p, x, f), f);
    case SavingKey(ciphertext) => KeySecure(p, x, WorkKey(x, ciphertext, f), ciphertext, f);
    case Settling(ok) => SettleIs(p, x, ok, f); SettleSecure(p, x, WorkSettle(p, x, ok, f), ok, f);
  }

  lemma WorkSecure(p: Service, x: State, f: Effort)
    requires Sound(p) && Safe(p) && Books(p, x) && Possible(p, x, Work(f))
    ensures Secure(p, Worked(p, x, f))
  {
    match x.phase
    case IntoDlq(path) => IntoDlqSecure(p, x, path, f);
    case IntoFailed(path) => IntoFailedSecure(p, x, path, f);
    case Disposing(path) => DisposeSecure(p, x, path, f);
    case _ => WorkHeldSecure(p, x, f);
  }

  lemma ScribbleStep(p: Service, x: State, y: State, q: string, bytes: string)
    requires Sound(p) && Safe(p) && Books(p, x) && Holding(x) && Writing(p, x) && q == Target(x)
    requires y == x.(disk := x.disk.Set(q, bytes))
    ensures Secure(p, y)
  {
    var source := x.sys.hand.value.source;
    PathsOf(p, x);
    if x.phase.Encrypting? { EncryptingIsSafe(p, x); }
    if x.phase.SavingKey? { SourceTakesName(p, x, source); }
    var i := if x.phase.Encrypting? then 0 else if x.phase.SavingKey? then 1 else 2;
    ScribbleSecure(p, x, y, i, q, bytes);
  }

  lemma AdmitStep(p: Service, x: State, s: Sighting)
    requires Sound(p) && Placed(x.sys) && Books(p, x) && Possible(p, x, Admit(s))
    ensures Secure(p, Admitted(p, x, s))
  {
    AdmittedItem(p, x, s);
    LiveIsMade(p, x);
    var it := OnCreated(Folders(p), s).value;
    assert it.id !in Live(x) && it.id !in x.sys.log;
    AdmitSecure(p, x, Admitted(p, x, s), it);
  }

  lemma UploadStep(p: Service, x: State, name: string, bytes: string)
    requires Sound(p) && Books(p, x) && Possible(p, x, Upload(name, bytes))
    ensures Secure(p, Uploaded(p, x, name, bytes))
  {
    UploadSecure(p, x, Uploaded(p, x, name, bytes), name, bytes);
  }

  lemma PollStep(p: Service, x: State, now: int, start: int)
    requires Books(p, x) && Possible(p, x, Take(now, start))
    ensures Secure(p, Taken(p, x, now, start))
  {
    QuietStepSecure(p, x, Taken(p, x, now, start));
  }

  lemma RestartStep(p: Service, x: State, now: int, xs: seq<ItemRec>)
    requires AllKept(p, x) && AllSealed(p, x)
    ensures Secure(p, Restarted(p, x, now, xs))
  {
    QuietStepSecure(p, x, Restarted(p, x, now, xs));
  }

  /** Every step of a safe service keeps all files safe. */
  lemma NextSecure(p: Service, x: State, h: Happening)
    requires Sound(p) && Safe(p) && Placed(x.sys) && Books(p, x)
    ensures Secure(p, Next(p, x, h))
  {
    if Possible(p, x, h) {
      match h
      case Upload(name, bytes) => UploadStep(p, x, name, bytes);
      case Admit(s) => AdmitStep(p, x, s);
      case Take(now, start) => PollStep(p, x, now, start);
      case Scribble(bytes) => ScribbleStep(p, x, x.(disk := x.disk.Set(Target(x), bytes)), Target(x), bytes);
      case Work(f) => WorkSecure(p, x, f);
      case Restart(now, xs) => RestartStep(p, x, now, xs);
    }
  }
}
