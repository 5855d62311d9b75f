/** Every step of the decryption machine preserves what was delivered. */
module DecryptionSteps {
  import opened Common
  import opened Paths
  import opened FileSystem
  import opened Watcher
  import opened Processor
  import opened Decryption

  // --- Names ---------------------------------------------------------------------------------

  lemma NamesDecide(n: string, key: bool, n': string, key': bool)
    requires NameOf(n, key) == NameOf(n', key')
    ensures n == n' && key == key'
  {
    var x := NameOf(n, key);
    assert x[|x| - 1] == (if key then 'y' else 'c') == (if key' then 'y' else 'c');
    assert x[..|x| - 4] == n && x[..|x| - 4] == n';
  }

  lemma PlainNames(n: string)
    requires PlainName(n)
    ensures PlainName(n + ".enc") && PlainName(n + ".key") && PlainName(n + ".sha256")
  {
    ExtendedName(n, ".enc");
    ExtendedName(n, ".key");
    ExtendedName(n, ".sha256");
  }

  /** Different delivered files, or homes, are different paths. */
  lemma HomesApart(p: Station, d: string, n: string, key: bool, d': string, n': string, key': bool)
    requires Sound(p) && PlainName(n) && PlainName(n') && d in Homes(p) && d' in Homes(p)
    requires Join(d, NameOf(n, key)) == Join(d', NameOf(n', key'))
    ensures d == d' && n == n' && key == key'
  {
    PlainNames(n);
    PlainNames(n');
    JoinInjective(d, NameOf(n, key), d', NameOf(n', key'));
    NamesDecide(n, key, n', key');
  }

  lemma OutputApart(p: Station, n: string, d: string, n': string, key: bool)
    requires Sound(p) && PlainName(n) && PlainName(n') && d in Homes(p)
    ensures Join(d, NameOf(n', key)) != OutPath(p, n)
  {
    PlainNames(n');
    if Join(d, NameOf(n', key)) == OutPath(p, n) {
      JoinInjective(d, NameOf(n', key), p.dst, n);
      assert false;
    }
  }

  lemma SumApart(p: Station, n: string, dir: string, d: string, n': string, key: bool)
    ensures Join(dir, n + ".sha256") != Join(d, NameOf(n', key))
  {
    var a, b := Join(dir, n + ".sha256"), Join(d, NameOf(n', key));
    assert a[|a| - 1] == '6' && b[|b| - 1] != '6';
  }

  lemma OutputsDiffer(p: Station, n: string, n': string)
    requires Sound(p) && PlainName(n) && PlainName(n') && n != n'
    ensures OutPath(p, n) != OutPath(p, n')
  {
    if OutPath(p, n) == OutPath(p, n') { JoinInjective(p.dst, n, p.dst, n'); }
  }

  // --- What a change leaves alone ------------------------------------------------------------

  ghost predicate SameFile(p: Station, f: Files, f': Files, n: string, key: bool)
  {
    forall d | d in Homes(p) :: Lookup(f', Join(d, NameOf(n, key))) == Lookup(f, Join(d, NameOf(n, key)))
  }

  /** Nothing that concerns `n` is different. */
  ghost predicate SameFor(p: Station, f: Files, f': Files, n: string)
  {
    SameFile(p, f, f', n, false) && SameFile(p, f, f', n, true) && Lookup(f', OutPath(p, n)) == Lookup(f, OutPath(p, n))
  }

  lemma SameFileKept(p: Station, f: Files, f': Files, n: string, d: Delivery, key: bool)
    requires SameFile(p, f, f', n, key)
    ensures forall dir :: OnlyIn(p, f, n, d, key, dir) ==> OnlyIn(p, f', n, d, key, dir)
    ensures Free(p, f, n, key) <==> Free(p, f', n, key)
  {
    forall dir | OnlyIn(p, f, n, d, key, dir) ensures OnlyIn(p, f', n, d, key, dir) {
      assert Lookup(f', Join(dir, NameOf(n, key))) == Lookup(f, Join(dir, NameOf(n, key)));
      forall dir' | dir' in Homes(p) && dir' != dir ensures Join(dir', NameOf(n, key)) !in f' {
        assert Lookup(f', Join(dir', NameOf(n, key))) == Lookup(f, Join(dir', NameOf(n, key)));
      }
    }
    forall dir | dir in Homes(p) ensures Join(dir, NameOf(n, key)) in f <==> Join(dir, NameOf(n, key)) in f' {
      assert Lookup(f', Join(dir, NameOf(n, key))) == Lookup(f, Join(dir, NameOf(n, key)));
    }
  }

  lemma SameForKept(p: Station, f: Files, f': Files, n: string, d: Delivery)
    requires SameFor(p, f, f', n) && Kept(p, f, n, d)
    ensures Kept(p, f', n, d)
  {
    SameFileKept(p, f, f', n, d, false);
    SameFileKept(p, f, f', n, d, true);
    forall key ensures InOneHome(p, f', n, d, key) || Free(p, f', n, key) {
      assert InOneHome(p, f, n, d, key) || Free(p, f, n, key);
    }
  }

  /** Found in a home, a delivered file is good and nowhere else. */
  lemma FoundInHome(p: Station, f: Files, n: string, d: Delivery, key: bool, dir: string)
    requires Kept(p, f, n, d) && dir in Homes(p) && Join(dir, NameOf(n, key)) in f
    ensures OnlyIn(p, f, n, d, key, dir)
  {
    assert InOneHome(p, f, n, d, key) || Free(p, f, n, key);
  }

  /** A change that concerns one delivery only. */
  lemma OneChanged(p: Station, x: State, y: State, n: string)
    requires AllKept(p, x) && PlainName(n) && n in y.origin && Kept(p, y.disk.files, n, y.origin[n])
    requires y.origin.Keys == x.origin.Keys + {n}
    requires forall n' | n' in x.origin && n' != n ::
               y.origin[n'] == x.origin[n'] && SameFor(p, x.disk.files, y.disk.files, n')
    ensures AllKept(p, y)
  {
    forall n' | n' in y.origin ensures PlainName(n') && Kept(p, y.disk.files, n', y.origin[n']) {
      if n' != n { SameForKept(p, x.disk.files, y.disk.files, n', x.origin[n']); }
    }
  }

  // --- Which change concerns what ------------------------------------------------------------

  ghost predicate SameBut(f: Files, f': Files, q: string, r: string)
  {
    forall s {:trigger Lookup(f', s)} :: s != q && s != r ==> Lookup(f', s) == Lookup(f, s)
  }

  lemma OutputChange(p: Station, f: Files, f': Files, n: string, n': string)
    requires Sound(p) && PlainName(n) && PlainName(n') && SameBut(f, f', OutPath(p, n), OutPath(p, n))
    ensures SameFile(p, f, f', n', false) && SameFile(p, f, f', n', true)
    ensures n' != n ==> SameFor(p, f, f', n')
  {
    forall d, key | d in Homes(p)
      ensures Lookup(f', Join(d, NameOf(n', key))) == Lookup(f, Join(d, NameOf(n', key)))
    {
      OutputApart(p, n, d, n', key);
    }
    if n' != n { OutputsDiffer(p, n, n'); }
  }

  lemma HomeChange(p: Station, f: Files, f': Files, n: string, key: bool, d: string, e: string, n': string)
    requires Sound(p) && PlainName(n) && PlainName(n') && d in Homes(p) && e in Homes(p)
    requires SameBut(f, f', Join(d, NameOf(n, key)), Join(e, NameOf(n, key)))
    ensures SameFile(p, f, f', n, !key) && Lookup(f', OutPath(p, n)) == Lookup(f, OutPath(p, n))
    ensures n' != n ==> SameFor(p, f, f', n')
  {
    forall h, m, k | h in Homes(p) && PlainName(m) && (m != n || k != key)
      ensures Lookup(f', Join(h, NameOf(m, k))) == Lookup(f, Join(h, NameOf(m, k)))
    {
      if Join(h, NameOf(m, k)) == Join(d, NameOf(n, key)) { HomesApart(p, h, m, k, d, n, key); }
      if Join(h, NameOf(m, k)) == Join(e, NameOf(n, key)) { HomesApart(p, h, m, k, e, n, key); }
    }
    OutputApart(p, n, d, n, key);
    OutputApart(p, n, e, n, key);
    OutputApart(p, n', d, n, key);
    OutputApart(p, n', e, n, key);
  }

  // --- Writing the output --------------------------------------------------------------------

  /** Neither of the two files is missing. */
  ghost predicate Present(p: Station, f: Files, n: string)
  {
    !Free(p, f, n, false) && !Free(p, f, n, true)
  }

  /** While both files are there, the output may hold anything. */
  lemma OutputKept(p: Station, x: State, y: State, n: string)
    requires Sound(p) && AllKept(p, x) && n in x.origin && y.origin == x.origin && Present(p, x.disk.files, n)
    requires SameBut(x.disk.files, y.disk.files, OutPath(p, n), OutPath(p, n))
    ensures AllKept(p, y)
    ensures SameFile(p, x.disk.files, y.disk.files, n, true)
  {
    var f, f', d := x.disk.files, y.disk.files, x.origin[n];
    forall n' | n' in x.origin ensures n' != n ==> SameFor(p, f, f', n') {
      OutputChange(p, f, f', n, n');
    }
    OutputChange(p, f, f', n, n);
    SameFileKept(p, f, f', n, d, false);
    SameFileKept(p, f, f', n, d, true);
    forall key ensures InOneHome(p, f', n, d, key) && !Free(p, f', n, key) {
      assert InOneHome(p, f, n, d, key) || Free(p, f, n, key);
    }
    OneChanged(p, x, y, n);
  }

  // --- Moving and deleting -------------------------------------------------------------------

  lemma MovedKept(p: Station, f: Files, f': Files, n: string, d: Delivery, key: bool, dir: string)
    requires Sound(p) && PlainName(n) && Kept(p, f, n, d) && dir in Homes(p) && Join(p.src, NameOf(n, key)) in f
    requires f' == (f - {Join(p.src, NameOf(n, key))})[Join(dir, NameOf(n, key)) := f[Join(p.src, NameOf(n, key))]]
    ensures Kept(p, f', n, d)
    ensures Lookup(f', OutPath(p, n)) == Lookup(f, OutPath(p, n))
  {
    FoundInHome(p, f, n, d, key, p.src);
    HomeChange(p, f, f', n, key, p.src, dir, n);
    SameFileKept(p, f, f', n, d, !key);
    forall h | h in Homes(p) && h != dir ensures Join(h, NameOf(n, key)) !in f' {
      if Join(h, NameOf(n, key)) == Join(dir, NameOf(n, key)) { HomesApart(p, h, n, key, dir, n, key); }
    }
    assert OnlyIn(p, f', n, d, key, dir);
    assert InOneHome(p, f, n, d, !key) || Free(p, f, n, !key);
    assert InOneHome(p, f', n, d, !key) || Free(p, f', n, !key);
    forall k ensures InOneHome(p, f', n, d, k) || Free(p, f', n, k) {
      assert k == key || k == !key;
    }
    assert forall k :: Free(p, f', n, k) ==> k == !key && Free(p, f, n, k);
  }

  lemma DeletedKept(p: Station, f: Files, f': Files, n: string, d: Delivery, key: bool)
    requires Sound(p) && PlainName(n) && Kept(p, f, n, d) && Join(p.src, NameOf(n, key)) in f
    requires Handlings(p).behavior.Delete? && HasPlain(p, f, n, d)
    requires f' == f - {Join(p.src, NameOf(n, key))}
    ensures Kept(p, f', n, d) && HasPlain(p, f', n, d)
  {
    FoundInHome(p, f, n, d, key, p.src);
    HomeChange(p, f, f', n, key, p.src, p.src, n);
    SameFileKept(p, f, f', n, d, !key);
    assert Free(p, f', n, key);
    assert InOneHome(p, f, n, d, !key) || Free(p, f, n, !key);
    assert InOneHome(p, f', n, d, !key) || Free(p, f', n, !key);
    forall k ensures InOneHome(p, f', n, d, k) || Free(p, f', n, k) {
      assert k == key || k == !key;
    }
  }

  /** A move or removal of the encrypted file or the key file from the source directory. */
  lemma TakenKept(p: Station, x: State, y: State, n: string, key: bool, e: string)
    requires Sound(p) && AllKept(p, x) && n in x.origin && y.origin == x.origin && e in Homes(p)
    requires SameBut(x.disk.files, y.disk.files, Join(p.src, NameOf(n, key)), Join(e, NameOf(n, key)))
    requires Kept(p, y.disk.files, n, x.origin[n])
    ensures AllKept(p, y)
  {
    forall n' | n' in x.origin ensures n' != n ==> SameFor(p, x.disk.files, y.disk.files, n') {
      HomeChange(p, x.disk.files, y.disk.files, n, key, p.src, e, n');
    }
    OneChanged(p, x, y, n);
  }

  lemma NothingKept(p: Station, x: State, y: State)
    requires AllKept(p, x) && y.origin == x.origin && y.disk.files == x.disk.files
    ensures AllKept(p, y)
  {
  }

  lemma NameIs(p: Station, dir: string, n: string, key: bool)
    requires PlainName(n)
    ensures Base(Join(dir, NameOf(n, key))) == NameOf(n, key)
  {
    PlainNames(n);
    BaseOfJoin(dir, NameOf(n, key));
  }

  lemma MoveKept(p: Station, x: State, y: State, n: string, key: bool, path: string, dir: string, fails: bool)
    requires Sound(p) && AllKept(p, x) && n in x.origin && y.origin == x.origin && dir in Homes(p)
    requires path == Join(p.src, NameOf(n, key)) && y.disk == MoveInto(x.disk, path, dir, fails)
    ensures AllKept(p, y)
    ensures HasPlain(p, x.disk.files, n, x.origin[n]) ==> HasPlain(p, y.disk.files, n, x.origin[n])
  {
    NameIs(p, p.src, n, key);
    if fails || path !in x.disk.files {
      NothingKept(p, x, y);
    } else {
      MovedKept(p, x.disk.files, y.disk.files, n, x.origin[n], key, dir);
      TakenKept(p, x, y, n, key, dir);
    }
  }

  lemma DisposeKept(p: Station, x: State, y: State, n: string, key: bool, path: string, fails: bool)
    requires Sound(p) && AllKept(p, x) && n in x.origin && y.origin == x.origin
    requires HasPlain(p, x.disk.files, n, x.origin[n])
    requires path == Join(p.src, NameOf(n, key)) && y.disk == Dispose(Handlings(p), x.disk, path, fails)
    ensures AllKept(p, y) && HasPlain(p, y.disk.files, n, x.origin[n])
  {
    match Handlings(p).behavior
    case Keep => NothingKept(p, x, y);
    case Archive => MoveKept(p, x, y, n, key, path, Handlings(p).archiveDir, fails);
    case Delete =>
      if fails || path !in x.disk.files {
        NothingKept(p, x, y);
      } else {
        DeletedKept(p, x.disk.files, y.disk.files, n, x.origin[n], key);
        TakenKept(p, x, y, n, key, p.src);
      }
  }

  /** Checksum files are nobody's delivered files and no outputs. */
  lemma SumChangeKept(p: Station, x: State, y: State, n: string, d: string, e: string)
    requires Sound(p) && AllKept(p, x) && y.origin == x.origin && PlainName(n) && d in Homes(p) && e in Homes(p)
    requires SameBut(x.disk.files, y.disk.files, Join(d, n + ".sha256"), Join(e, n + ".sha256"))
    ensures AllKept(p, y)
    ensures forall m | m in x.origin :: SameFor(p, x.disk.files, y.disk.files, m)
  {
    PlainNames(n);
    forall m | m in x.origin
      ensures SameFor(p, x.disk.files, y.disk.files, m) && Kept(p, y.disk.files, m, x.origin[m])
    {
      forall h, key | h in Homes(p)
        ensures Lookup(y.disk.files, Join(h, NameOf(m, key))) == Lookup(x.disk.files, Join(h, NameOf(m, key)))
      {
        SumApart(p, n, d, h, m, key);
        SumApart(p, n, e, h, m, key);
      }
      if OutPath(p, m) == Join(d, n + ".sha256") { JoinInjective(p.dst, m, d, n + ".sha256"); }
      if OutPath(p, m) == Join(e, n + ".sha256") { JoinInjective(p.dst, m, e, n + ".sha256"); }
      SameForKept(p, x.disk.files, y.disk.files, m, x.origin[m]);
    }
  }

  // --- The steps -----------------------------------------------------------------------------

  lemma OpenBooks(p: Station, x: State, n: string, f: Effort, last: bool)
    requires Sound(p) && Books(p, x) && x.phase == Opening(n)
    ensures Books(p, WorkOpen(p, x, n, f, last))
  {
    var y := WorkOpen(p, x, n, f, last);
    NothingKept(p, x, y);
    if y.phase.Decrypting? { FoundInHome(p, x.disk.files, n, x.origin[n], true, p.src); }
  }

  lemma PairOpens(p: Station, d: Delivery, key: string)
    requires p.setup.vault.unwrap(key) == Some(d.key) && Stands(p, d)
    ensures Opens(p)
  {
    assert Delivered(p, d.enc, key).Some?;
  }

  /** In a safe station nothing is written unless both files are there. */
  lemma WritingIsSafe(p: Station, x: State, n: string)
    requires Safe(p) && Books(p, x) && x.phase.Decrypting? && n == x.phase.n
    requires p.leaks || EncPath(p, n) in x.disk.files
    ensures Present(p, x.disk.files, n)
  {
    var d := x.origin[n];
    assert Join(p.src, NameOf(n, true)) in x.disk.files;
    if EncPath(p, n) in x.disk.files {
      assert Join(p.src, NameOf(n, false)) in x.disk.files && p.src in Homes(p);
    } else {
      PairOpens(p, d, x.disk.files[Join(p.src, NameOf(n, true))]);
    }
  }

  lemma NothingDecrypted(p: Station, x: State, n: string, key: string, f: Effort, last: bool)
    requires EncPath(p, n) !in x.disk.files && Quiet(f.crypt)
    ensures WorkDecrypt(p, x, n, key, f, last) == x.(phase := Failing(n, last))
  {
  }

  lemma DecryptChanges(p: Station, x: State, n: string, key: string, f: Effort, last: bool)
    ensures var y := WorkDecrypt(p, x, n, key, f, last);
              && SameBut(x.disk.files, y.disk.files, OutPath(p, n), OutPath(p, n))
              && y == x.(disk := y.disk, phase := y.phase) && y.phase in {Verifying(n), Failing(n, last)}
              && (y.phase.Verifying? ==>
                    && EncPath(p, n) in x.disk.files
                    && Lookup(y.disk.files, OutPath(p, n)) == p.setup.cipher.dec(key, x.disk.files[EncPath(p, n)]))
  {
    var enc := EncPath(p, n);
    if enc in x.disk.files && p.setup.cipher.dec(key, x.disk.files[enc]).Some? {
      WrittenFiles(x.disk, OutPath(p, n), p.setup.cipher.dec(key, x.disk.files[enc]).value, Fine);
    }
  }

  lemma DecryptBooks(p: Station, x: State, n: string, key: string, f: Effort, last: bool)
    requires Sound(p) && Safe(p) && Books(p, x) && x.phase == Decrypting(n, key) && Possible(p, x, Work(f, last))
    ensures Books(p, WorkDecrypt(p, x, n, key, f, last))
  {
    var y := WorkDecrypt(p, x, n, key, f, last);
    if !p.leaks && EncPath(p, n) !in x.disk.files {
      NothingDecrypted(p, x, n, key, f, last);
      NothingKept(p, x, y);
    } else {
      WritingIsSafe(p, x, n);
      DecryptChanges(p, x, n, key, f, last);
      OutputKept(p, x, y, n);
      if y.phase.Verifying? {
        FoundInHome(p, x.disk.files, n, x.origin[n], false, p.src);
        assert Stands(p, x.origin[n]);
      }
    }
  }

  lemma ScribbleBooks(p: Station, x: State, y: State, n: string, bytes: string)
    requires Sound(p) && Safe(p) && Books(p, x) && x.phase.Decrypting? && n == x.phase.n
    requires p.leaks || EncPath(p, n) in x.disk.files
    requires y == x.(disk := x.disk.Set(OutPath(p, n), bytes))
    ensures Books(p, y)
  {
    WritingIsSafe(p, x, n);
    OutputKept(p, x, y, n);
    SameFileKept(p, x.disk.files, y.disk.files, n, x.origin[n], true);
  }

  /** After disposing of a file or moving it aside. */
  lemma AfterwardsBooks(p: Station, x: State, y: State)
    requires Books(p, x) && AllKept(p, y) && y.origin == x.origin && PhaseOk(p, y)
    ensures Books(p, y)
  {
  }

  lemma DisposeBooks(p: Station, x: State, y: State, f: Effort, last: bool)
    requires Sound(p) && Books(p, x) && y == Worked(p, x, f, last)
    requires x.phase.DisposeEnc? || x.phase.DisposeKey? || x.phase.DisposeSum?
    ensures Books(p, y)
  {
    match x.phase
    case DisposeEnc(n) => DisposeKept(p, x, y, n, false, EncPath(p, n), f.dispose);
    case DisposeKey(n) => DisposeKept(p, x, y, n, true, KeyPath(p, n), f.disposeKey);
    case DisposeSum(n) => DisposedSumKept(p, x, y, n, SumPath(p, n), f.disposeSum);
  }

  lemma DisposedSumKept(p: Station, x: State, y: State, n: string, path: string, fails: bool)
    requires Sound(p) && AllKept(p, x) && PlainName(n) && y.origin == x.origin && path == SumPath(p, n)
    requires y.disk == if path in x.disk.files then Dispose(Handlings(p), x.disk, path, fails) else x.disk
    ensures AllKept(p, y)
  {
    PlainNames(n);
    BaseOfJoin(p.src, n + ".sha256");
    var e := if Handlings(p).behavior.Archive? then Handlings(p).archiveDir else p.src;
    SumChangeKept(p, x, y, n, p.src, e);
  }

  lemma AsideBooks(p: Station, x: State, y: State, f: Effort, last: bool)
    requires Sound(p) && Books(p, x) && y == Worked(p, x, f, last) && (x.phase.IntoDlq? || x.phase.IntoFailed?)
    ensures Books(p, y)
  {
    var h, n := Handlings(p), x.phase.n;
    var dir, fails := if x.phase.IntoDlq? then h.dlqDir else h.failedDir, if x.phase.IntoDlq? then f.dlq else f.failed;
    if dir != "" {
      MoveKept(p, x, y, n, false, EncPath(p, n), dir, fails);
    } else {
      NothingKept(p, x, y);
    }
  }

  lemma WorkBooks(p: Station, x: State, f: Effort, last: bool)
    requires Sound(p) && Safe(p) && Books(p, x) && Possible(p, x, Work(f, last))
    ensures Books(p, Worked(p, x, f, last))
  {
    match x.phase
    case Opening(n) => OpenBooks(p, x, n, f, last);
    case Decrypting(n, key) => DecryptBooks(p, x, n, key, f, last);
    case Verifying(n) => NothingKept(p, x, WorkVerify(p, x, n, f, last));
    case DisposeEnc(_) => DisposeBooks(p, x, Worked(p, x, f, last), f, last);
    case DisposeKey(_) => DisposeBooks(p, x, Worked(p, x, f, last), f, last);
    case DisposeSum(_) => DisposeBooks(p, x, Worked(p, x, f, last), f, last);
    case IntoDlq(_) => AsideBooks(p, x, Worked(p, x, f, last), f, last);
    case IntoFailed(_) => AsideBooks(p, x, Worked(p, x, f, last), f, last);
    case Idle =>
  }

  /** What the phase relies on concerns the file it is about, so a change for another file does not matter. */
  lemma PhaseStays(p: Station, x: State, y: State)
    requires PhaseOk(p, x) && y.phase == x.phase && !x.phase.Idle?
    requires x.phase.n in y.origin && y.origin[x.phase.n] == x.origin[x.phase.n]
    requires SameFor(p, x.disk.files, y.disk.files, x.phase.n)
    ensures PhaseOk(p, y)
  {
    SameFileKept(p, x.disk.files, y.disk.files, x.phase.n, x.origin[x.phase.n], true);
  }

  lemma SumBooks(p: Station, x: State, n: string, text: string)
    requires Sound(p) && Books(p, x) && PlainName(n)
    ensures Books(p, x.(disk := x.disk.Set(SumPath(p, n), text)))
  {
    var y := x.(disk := x.disk.Set(SumPath(p, n), text));
    SumChangeKept(p, x, y, n, p.src, p.src);
    if !x.phase.Idle? { PhaseStays(p, x, y); }
  }

  lemma RewrappedIs(p: Station, f: Files, f': Files, n: string, d: Delivery, dir: string, key: string)
    requires Sound(p) && PlainName(n) && OnlyIn(p, f, n, d, true, dir) && p.setup.vault.unwrap(key) == Some(d.key)
    requires f' == f[Join(dir, NameOf(n, true)) := key]
    ensures OnlyIn(p, f', n, d, true, dir)
  {
    forall h | h in Homes(p) && h != dir ensures Join(h, NameOf(n, true)) !in f' {
      if Join(h, NameOf(n, true)) == Join(dir, NameOf(n, true)) { HomesApart(p, h, n, true, dir, n, true); }
    }
  }

  lemma RewrappedKept(p: Station, f: Files, f': Files, n: string, d: Delivery, dir: string)
    requires Kept(p, f, n, d) && OnlyIn(p, f', n, d, true, dir) && SameFile(p, f, f', n, false)
    requires Lookup(f', OutPath(p, n)) == Lookup(f, OutPath(p, n))
    ensures Kept(p, f', n, d)
  {
    SameFileKept(p, f, f', n, d, false);
    assert InOneHome(p, f, n, d, false) || Free(p, f, n, false);
    forall k ensures InOneHome(p, f', n, d, k) || Free(p, f', n, k) {
      assert k || !k;
    }
  }

  lemma RewrapBooks(p: Station, x: State, y: State, n: string, dir: string, key: string)
    requires Sound(p) && Books(p, x) && n in x.origin && dir in Homes(p) && Join(dir, NameOf(n, true)) in x.disk.files
    requires p.setup.vault.unwrap(key) == Some(x.origin[n].key)
    requires y == x.(disk := x.disk.Set(Join(dir, NameOf(n, true)), key))
    ensures Books(p, y)
  {
    var f, f', d := x.disk.files, y.disk.files, x.origin[n];
    FoundInHome(p, f, n, d, true, dir);
    HomeChange(p, f, f', n, true, dir, dir, n);
    RewrappedIs(p, f, f', n, d, dir, key);
    RewrappedKept(p, f, f', n, d, dir);
    forall n' | n' in x.origin ensures n' != n ==> SameFor(p, f, f', n') {
      HomeChange(p, f, f', n, true, dir, dir, n');
    }
    OneChanged(p, x, y, n);
    if !x.phase.Idle? && x.phase.n != n { PhaseStays(p, x, y); }
  }

  lemma ArrivedIs(p: Station, x: State, y: State, n: string, enc: string, key: string, d: Delivery)
    requires Sound(p) && PlainName(n) && Delivered(p, enc, key) == Some(d) && y == Arrived(p, x, n, enc, key)
    requires Free(p, x.disk.files, n, false) && Free(p, x.disk.files, n, true)
    ensures OnlyIn(p, y.disk.files, n, d, false, p.src) && OnlyIn(p, y.disk.files, n, d, true, p.src)
  {
    assert KeyPath(p, n) == Join(p.src, NameOf(n, true)) && EncPath(p, n) == Join(p.src, NameOf(n, false));
    forall h, k | h in Homes(p) && h != p.src ensures Join(h, NameOf(n, k)) !in y.disk.files {
      if Join(h, NameOf(n, k)) == EncPath(p, n) { HomesApart(p, h, n, k, p.src, n, false); }
      if Join(h, NameOf(n, k)) == KeyPath(p, n) { HomesApart(p, h, n, k, p.src, n, true); }
    }
    if EncPath(p, n) == KeyPath(p, n) { HomesApart(p, p.src, n, false, p.src, n, true); }
  }

  lemma TwoSets(f: Files, q: string, a: string, r: string, b: string)
    ensures SameBut(f, f[q := a], q, q) && SameBut(f[q := a], f[q := a][r := b], r, r)
  {
  }

  lemma DeliverConcerns(p: Station, x: State, y: State, n: string, enc: string, key: string, n': string)
    requires Sound(p) && PlainName(n) && PlainName(n') && n' != n
    requires Delivered(p, enc, key).Some? && y == Arrived(p, x, n, enc, key)
    ensures SameFor(p, x.disk.files, y.disk.files, n')
  {
    var f := x.disk.files;
    var mid := f[KeyPath(p, n) := key];
    TwoSets(f, KeyPath(p, n), key, EncPath(p, n), enc);
    HomeChange(p, f, mid, n, true, p.src, p.src, n');
    HomeChange(p, mid, mid[EncPath(p, n) := enc], n, false, p.src, p.src, n');
  }

  /** With both files in a home, all is well, whatever the output holds. */
  lemma BothKept(p: Station, f: Files, n: string, d: Delivery)
    requires InOneHome(p, f, n, d, false) && InOneHome(p, f, n, d, true)
    ensures Kept(p, f, n, d)
  {
    forall k ensures InOneHome(p, f, n, d, k) && !Free(p, f, n, k) {
      assert k || !k;
    }
  }

  /** A new delivery that is kept, and leaves the others alone. */
  lemma NewBooks(p: Station, x: State, y: State, n: string, d: Delivery)
    requires Books(p, x) && PlainName(n) && n !in x.origin && Stands(p, d)
    requires y == x.(disk := y.disk, origin := x.origin[n := d]) && Kept(p, y.disk.files, n, d)
    requires forall n' | n' in x.origin :: SameFor(p, x.disk.files, y.disk.files, n')
    ensures Books(p, y)
  {
    OneChanged(p, x, y, n);
    if !x.phase.Idle? { PhaseStays(p, x, y); }
  }

  lemma DeliverBooks(p: Station, x: State, y: State, n: string, enc: string, key: string, d: Delivery)
    requires Sound(p) && Books(p, x) && PlainName(n) && n !in x.origin && Delivered(p, enc, key) == Some(d)
    requires Free(p, x.disk.files, n, false) && Free(p, x.disk.files, n, true)
    requires y == Arrived(p, x, n, enc, key)
    ensures Books(p, y)
  {
    DeliverKept(p, x, y, n, enc, key, d);
    forall n' | n' in x.origin ensures SameFor(p, x.disk.files, y.disk.files, n') {
      DeliverConcerns(p, x, y, n, enc, key, n');
    }
    NewBooks(p, x, y, n, d);
  }

  lemma DeliverKept(p: Station, x: State, y: State, n: string, enc: string, key: string, d: Delivery)
    requires Sound(p) && PlainName(n) && Delivered(p, enc, key) == Some(d) && y == Arrived(p, x, n, enc, key)
    requires Free(p, x.disk.files, n, false) && Free(p, x.disk.files, n, true)
    ensures Kept(p, y.disk.files, n, d) && y == x.(disk := y.disk, origin := x.origin[n := d])
  {
    ArrivedIs(p, x, y, n, enc, key, d);
    BothKept(p, y.disk.files, n, d);
  }

  /** Every step of a safe station keeps the books right. */
  lemma NextBooks(p: Station, x: State, h: Happening)
    requires Sound(p) && Safe(p) && Books(p, x)
    ensures Books(p, Next(p, x, h))
  {
    if Possible(p, x, h) {
      match h
      case Deliver(n, enc, key) =>
        DeliverBooks(p, x, Arrived(p, x, n, enc, key), n, enc, key, Delivered(p, enc, key).value);
      case Sum(n, text) => SumBooks(p, x, n, text);
      case Rewrap(n, dir, key) => RewrapBooks(p, x, x.(disk := x.disk.Set(Join(dir, n + ".key"), key)), n, dir, key);
      case Begin(n) => NothingKept(p, x, x.(phase := Opening(n)));
      case Kill => NothingKept(p, x, x.(phase := Idle));
      case Scribble(bytes) =>
        var n := x.phase.n;
        ScribbleBooks(p, x, x.(disk := x.disk.Set(OutPath(p, n), bytes)), n, bytes);
      case Work(f, last) => WorkBooks(p, x, f, last);
    }
  }
}
