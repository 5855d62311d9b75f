/**
 A file through the service and back: an encryption item, later a decryption item made for its output.
 Whatever faults there were, if both items are completed the file that comes out is the one that went in.
 */
module ItemRoundTrip {
  import opened Common
  import opened Paths
  import opened FileSystem
  import opened Transit
  import opened RewrapBatches
  import opened Envelope
  import opened Items
  import opened Queue
  import opened Watcher
  import opened Processor
  import opened RetryFate
  import opened Checksums

  // --- One attempt ---------------------------------------------------------------------------

  /** What a successful encryption attempt leaves at the three output paths. */
  lemma EncryptionLeaves(v: Vault, c: Cipher, on: bool, w: World, it: ItemRec, sumPath: string, f: Effort)
    requires WrapsItsKeys(v) && Decrypts(c)
    requires it.dest != it.keyPath && sumPath !in {it.dest, it.keyPath, it.source}
    ensures var r := EncryptProcess(v, c, on, w, it, sumPath, f);
              r.ok ==>
                && it.source in w.files
                && Opened(v, c, r.world.files, it.dest, it.keyPath) == Some(w.files[it.source])
                && Lookup(r.world.files, sumPath)
                   == if on then Some(c.hash(w.files[it.source])) else Lookup(w.files, sumPath)
  {
    var s := SumStep(c, on, w, it, sumPath, f);
    if s.ok && it.source in w.files {
      if on { WrittenFiles(w, sumPath, c.hash(w.files[it.source]), f.saveSum); }
      var e := CryptStep(v, c, s.world, s.item, f);
      if e.ciphertext.Some? {
        EncryptSeals(v, c, s.world, it.source, it.dest, it.keyPath, f.request, f.salt, f.crypt);
        var body := c.enc(v.generate(f.request).value.plaintext, f.salt, s.world.files[it.source]);
        WrittenFiles(s.world, it.dest, body, Fine);
        WrittenFiles(e.world, it.keyPath, e.ciphertext.value, f.saveKey);
      }
    }
  }

  /** A successful decryption attempt writes what the pair stands for, and nothing else. */
  lemma DecryptionWrites(p: Setup, w: World, it: ItemRec, f: Effort)
    requires it.operation.Decrypt? && Strategy(p, w, it, f).ok
    ensures var m := Opened(p.vault, p.cipher, w.files, it.source, it.keyPath);
              m.Some? && Strategy(p, w, it, f).world.files == w.files[it.dest := m.value]
  {
    var m := Opened(p.vault, p.cipher, w.files, it.source, it.keyPath);
    if m.Some? { WrittenFiles(w, it.dest, m.value, Fine); }
  }

  /** The recorded checksum, if there is one, is that of `m`, up to white space around it. */
  ghost predicate RightSum(c: Cipher, sum: Option<string>, m: string)
  {
    sum.Some? ==> Records(sum.value, c.hash(m))
  }

  /** The checksum file says nothing against the contents `m`. */
  ghost predicate ChecksumAgrees(c: Cipher, files: Files, path: string, m: string)
  {
    RightSum(c, Lookup(files, path), m)
  }

  lemma VerifiedExactly(c: Cipher, w: World, w': World, it: ItemRec, path: string, m: string, f: Effort)
    requires path == VerifyPath(it.source) && it.dest != path && w'.files == w.files[it.dest := m]
    ensures VerifyStep(c, w', it, f)
       <==> path !in w.files || f.loadSum || (!f.verify && ChecksumAgrees(c, w.files, path, m))
  {
    if path in w.files { TrimExactly(w.files[path], c.hash(m)); }
  }

  /**
   A decryption attempt succeeds exactly if its key can be read and unwrapped, the cipher works, the
   pair stands for something and, when verification is on, there is no checksum file that can be read
   beside it, or the checksum of the result can be computed and is the recorded one.
   */
  lemma DecryptionSucceedsExactly(p: Setup, w: World, it: ItemRec, f: Effort, path: string)
    requires it.operation.Decrypt? && path == VerifyPath(it.source) && it.dest != path
    ensures var m := Opened(p.vault, p.cipher, w.files, it.source, it.keyPath);
              Strategy(p, w, it, f).ok
              <==> && !f.readKey && !f.unwrap && f.crypt.Works? && m.Some?
                   && (p.verifyChecksum && path in w.files && !f.loadSum ==>
                         !f.verify && ChecksumAgrees(p.cipher, w.files, path, m.value))
  {
    var m := Opened(p.vault, p.cipher, w.files, it.source, it.keyPath);
    if m.Some? {
      WrittenFiles(w, it.dest, m.value, Fine);
      VerifiedExactly(p.cipher, w, Written(w, it.dest, m.value, Fine).world, it, path, m.value, f);
    }
  }

  lemma SumSucceedsExactly(c: Cipher, on: bool, w: World, it: ItemRec, path: string, f: Effort)
    ensures var r := SumStep(c, on, w, it, path, f);
              && (r.ok <==> on ==> it.source in w.files && !f.sum && f.saveSum.Fine?)
              && (r.ok ==>
                    && r.item.source == it.source
                    && (it.source in r.world.files <==> it.source in w.files || (on && it.source == path)))
  {
    if on && it.source in w.files { WrittenFiles(w, path, c.hash(w.files[it.source]), f.saveSum); }
  }

  lemma CryptSucceedsExactly(v: Vault, c: Cipher, w: World, it: ItemRec, f: Effort)
    ensures CryptStep(v, c, w, it, f).ciphertext.Some?
       <==> it.source in w.files && v.generate(f.request).Some? && f.crypt.Works?
  {
  }

  /**
   An encryption attempt succeeds exactly if its file is there, the checksum that is on can be computed
   and saved, Vault hands out a key, the cipher works and the key is saved; an unknown operation never does.
   */
  lemma EncryptionSucceedsExactly(p: Setup, w: World, it: ItemRec, f: Effort)
    ensures it.operation.Encrypt? ==>
              (Strategy(p, w, it, f).ok
               <==> && it.source in w.files && (p.calculateChecksum ==> !f.sum && f.saveSum.Fine?)
                    && p.vault.generate(f.request).Some? && f.crypt.Works? && f.saveKey.Fine?)
    ensures it.operation.Other? ==> !Strategy(p, w, it, f).ok
  {
    if it.operation.Encrypt? {
      var path := ChecksumPath(it.dest, it.source);
      var sum := SumStep(p.cipher, p.calculateChecksum, w, it, path, f);
      SumSucceedsExactly(p.cipher, p.calculateChecksum, w, it, path, f);
      CryptSucceedsExactly(p.vault, p.cipher, sum.world, sum.item, f);
      var e := CryptStep(p.vault, p.cipher, sum.world, sum.item, f);
      if e.ciphertext.Some? { WrittenFiles(e.world, sum.item.keyPath, e.ciphertext.value, f.saveKey); }
    }
  }

  // --- Disposal ------------------------------------------------------------------------------

  lemma NamesDiffer(d: string, n: string, d': string, n': string)
    requires PlainName(n) && PlainName(n') && n != n'
    ensures Join(d, n) != Join(d', n')
  {
    BaseOfJoin(d, n);
    BaseOfJoin(d', n');
  }

  /** Files with another name than the one disposed of, in whatever directory, stay. */
  lemma DisposeKeeps(h: Handling, w: World, path: string, n: string, fails: bool, q: string, dir': string, n': string)
    requires PlainName(n) && PlainName(n') && n != n' && Base(path) == n
    requires q == Join(dir', n') && q != path
    ensures Lookup(Dispose(h, w, path, fails).files, q) == Lookup(w.files, q)
  {
    NamesDiffer(h.archiveDir, n, dir', n');
  }

  /** The inputs of a decryption are named after the file, so no file named otherwise is among them. */
  lemma InputApart(dir: string, n: string, ending: string, q: string, dir': string, n': string)
    requires PlainName(n) && PlainName(n') && '/' !in ending && n' != n + ending && q == Join(dir', n')
    ensures Base(Join(dir, n + ending)) == n + ending && q != Join(dir, n + ending) && PlainName(n + ending)
  {
    ExtendedName(n, ending);
    BaseOfJoin(dir, n + ending);
    NamesDiffer(dir, n + ending, dir', n');
  }

  /** Disposing of the three inputs of a decryption keeps every file with another name. */
  lemma DisposeInputsKeeps(h: Handling, w: World, enc: string, key: string, sum: string, n: string, f: Effort,
                           q: string, dir': string, n': string)
    requires Base(enc) == n + ".enc" && Base(key) == n + ".key" && Base(sum) == n + ".sha256" && q !in {enc, key, sum}
    requires PlainName(n + ".enc") && PlainName(n + ".key") && PlainName(n + ".sha256") && PlainName(n')
    requires n' !in {n + ".enc", n + ".key", n + ".sha256"} && q == Join(dir', n')
    ensures Lookup(DisposeInputs(h, w, enc, key, sum, f).files, q) == Lookup(w.files, q)
  {
    var w1 := Dispose(h, w, enc, f.dispose);
    var w2 := if key == "" then w1 else Dispose(h, w1, key, f.disposeKey);
    DisposeKeeps(h, w, enc, n + ".enc", f.dispose, q, dir', n');
    DisposeKeeps(h, w1, key, n + ".key", f.disposeKey, q, dir', n');
    DisposeKeeps(h, w2, sum, n + ".sha256", f.disposeSum, q, dir', n');
  }

  // --- The round trip ------------------------------------------------------------------------

  /** An attempt ends Completed exactly if the strategy succeeds, and then goes on with the disposal. */
  lemma CompletedExactly(p: Setup, s: Settings, w: World, q: QueueState, it: ItemRec, f: Effort)
    ensures var r := Strategy(p, w, AsProcessing(it, f.start), f);
            var z := ProcessSpec(p, s, w, q, it, f);
              && (z.item.status == Completed <==> r.ok)
              && (r.ok ==> z == AfterSuccess(p, r.world, q, r.item, f))
  {
  }

  /** An item for encrypting the file named `n` into directory `dst`. */
  predicate Encrypts(it: ItemRec, src: string, dst: string, n: string)
  {
    && it.operation.Encrypt? && it.source == Join(src, n)
    && it.dest == Join(dst, n + ".enc") && it.keyPath == Join(dst, n + ".key")
  }

  /** An item for decrypting what was made of it into directory `out`. */
  predicate DecryptsItem(it: ItemRec, dst: string, n: string, out: string)
  {
    && it.operation.Decrypt? && it.source == Join(dst, n + ".enc")
    && it.keyPath == Join(dst, n + ".key") && it.dest == Join(out, n)
  }

  lemma OutputsApart(src: string, dst: string, n: string)
    requires PlainName(n)
    ensures var enc, key, sum := Join(dst, n + ".enc"), Join(dst, n + ".key"), Join(dst, n + ".sha256");
              enc != key && sum !in {enc, key, Join(src, n)} && Join(src, n) !in {enc, key}
    ensures PlainName(n + ".enc") && PlainName(n + ".key") && PlainName(n + ".sha256")
  {
    forall e: string | e in {".enc", ".key", ".sha256"} ensures PlainName(n + e) && Join(dst, n + e) != Join(src, n) {
      ExtendedName(n, e);
      NamesDiffer(dst, n + e, src, n);
    }
    var enc, key, sum := Join(dst, n + ".enc"), Join(dst, n + ".key"), Join(dst, n + ".sha256");
    assert enc[|enc| - 1] == 'c' && key[|key| - 1] == 'y' && sum[|sum| - 1] == '6';
  }

  lemma SumPathOf(src: string, dst: string, n: string)
    requires PlainName(n) && CleanDir(dst)
    ensures ChecksumPath(Join(dst, n + ".enc"), Join(src, n)) == Join(dst, n + ".sha256")
  {
    BaseOfJoin(src, n);
    ExtendedName(n, ".enc");
    SplitOfJoin(dst, n + ".enc");
  }

  /** A completed encryption item leaves a pair for the source's bytes, and their checksum if there is to be one. */
  lemma EncryptedItem(p: Setup, s: Settings, w: World, q: QueueState, it: ItemRec, f: Effort,
                      src: string, dst: string, n: string)
    requires WrapsItsKeys(p.vault) && Decrypts(p.cipher) && PlainName(n) && CleanDir(dst) && Encrypts(it, src, dst, n)
    requires ProcessSpec(p, s, w, q, it, f).item.status == Completed
    ensures var z := ProcessSpec(p, s, w, q, it, f).world.files;
            var sum := Join(dst, n + ".sha256");
              && it.source in w.files
              && Opened(p.vault, p.cipher, z, it.dest, it.keyPath) == Some(w.files[it.source])
              && Lookup(z, sum)
                 == if p.calculateChecksum then Some(p.cipher.hash(w.files[it.source])) else Lookup(w.files, sum)
  {
    var began := AsProcessing(it, f.start);
    var sum := Join(dst, n + ".sha256");
    var r := Strategy(p, w, began, f);
    CompletedExactly(p, s, w, q, it, f);
    OutputsApart(src, dst, n);
    SumPathOf(src, dst, n);
    EncryptionLeaves(p.vault, p.cipher, p.calculateChecksum, w, began, sum, f);
    EncryptFrame(p.vault, p.cipher, p.calculateChecksum, w, began, sum, f, it.source);
    BaseOfJoin(src, n);
    DisposeKeeps(p.encrypt, r.world, it.source, n, f.dispose, it.dest, dst, n + ".enc");
    DisposeKeeps(p.encrypt, r.world, it.source, n, f.dispose, it.keyPath, dst, n + ".key");
    DisposeKeeps(p.encrypt, r.world, it.source, n, f.dispose, sum, dst, n + ".sha256");
    var z := ProcessSpec(p, s, w, q, it, f).world.files;
    assert z == Dispose(p.encrypt, r.world, it.source, f.dispose).files;
    assert Lookup(z, it.dest) == Lookup(r.world.files, it.dest);
    assert Lookup(z, it.keyPath) == Lookup(r.world.files, it.keyPath);
  }

  /** A completed decryption item leaves what the pair stood for at its output. */
  lemma DecryptedItem(p: Setup, s: Settings, w: World, q: QueueState, it: ItemRec, f: Effort,
                      dst: string, n: string, out: string)
    requires PlainName(n) && DecryptsItem(it, dst, n, out)
    requires ProcessSpec(p, s, w, q, it, f).item.status == Completed
    ensures var m := Opened(p.vault, p.cipher, w.files, it.source, it.keyPath);
              m.Some? && Lookup(ProcessSpec(p, s, w, q, it, f).world.files, it.dest) == m
  {
    var began := AsProcessing(it, f.start);
    var r := Strategy(p, w, began, f);
    CompletedExactly(p, s, w, q, it, f);
    DecryptionWrites(p, w, began, f);
    CompanionFound(dst, n, ".sha256");
    InputApart(dst, n, ".enc", it.dest, out, n);
    InputApart(dst, n, ".key", it.dest, out, n);
    InputApart(dst, n, ".sha256", it.dest, out, n);
    var sum := Join(dst, n + ".sha256");
    DisposeInputsKeeps(p.decrypt, r.world, it.source, it.keyPath, sum, n, f, it.dest, out, n);
  }

  /** The strategies write no place where the file can be put aside, whatever the directories are. */
  lemma EncryptionApart(p: Setup, it: ItemRec, src: string, dst: string, n: string)
    requires PlainName(n) && CleanDir(dst) && Encrypts(it, src, dst, n)
    ensures Writes(it) !! Spots(RouteOf(p, it))
  {
    OutputsApart(src, dst, n);
    SumPathOf(src, dst, n);
    BaseOfJoin(src, n);
    forall e: string, d: string | e in {".enc", ".key", ".sha256"} ensures Join(dst, n + e) != Join(d, n) {
      ExtendedName(n, e);
      NamesDiffer(dst, n + e, d, n);
    }
  }

  lemma DecryptionApart(p: Setup, it: ItemRec, dst: string, n: string, out: string)
    requires PlainName(n) && DecryptsItem(it, dst, n, out)
    ensures Writes(it) !! Spots(RouteOf(p, it))
  {
    ExtendedName(n, ".enc");
    BaseOfJoin(dst, n + ".enc");
    forall d: string ensures Join(out, n) != Join(d, n + ".enc") {
      NamesDiffer(out, n, d, n + ".enc");
    }
  }

  // --- Any number of attempts ----------------------------------------------------------------

  lemma PutAsideKeeps(p: Setup, w: World, it: ItemRec, requeued: bool, f: Effort, q: string)
    requires q !in Spots(RouteOf(p, it))
    ensures Lookup(PutAside(HandlerFor(p, it.operation), w, it.source, requeued, f).files, q) == Lookup(w.files, q)
  {
    var h := HandlerFor(p, it.operation);
    MoveKeepsOther(w, it.source, h.dlqDir, f.dlq, Goal(h.dlqDir, it.source), q);
    var w1 := if requeued then w else ToDlq(h, w, it.source, f.dlq);
    MoveKeepsOther(w1, it.source, h.failedDir, f.failed, Goal(h.failedDir, it.source), q);
  }

  lemma MoveKeepsOther(w: World, source: string, dir: string, fails: bool, goal: Option<string>, q: string)
    requires goal == Goal(dir, source) && q != source && goal != Some(q)
    ensures dir != "" ==> Lookup(MoveInto(w, source, dir, fails).files, q) == Lookup(w.files, q)
  {
  }

  lemma FailureKeeps(p: Setup, s: Settings, x: Life, f: Effort, q: string)
    requires q !in Writes(x.item) && q !in Spots(RouteOf(p, x.item))
    ensures var z := Attempt(p, s, x, f);
              z.item.status != Completed ==>
                SameItem(z.item, x.item) && Lookup(z.world.files, q) == Lookup(x.world.files, q)
  {
    var it := AsProcessing(x.item, f.start);
    var r := Strategy(p, x.world, it, f);
    SameWrites(it, x.item);
    SameRoute(p, it, x.item);
    CompletedExactly(p, s, x.world, Fresh(0), x.item, f);
    StrategyFrame(p, x.world, it, f, q);
    if !r.ok {
      AsideIs(p, s, r.world, Fresh(0), r.item, f);
      SameRoute(p, r.item, it);
      PutAsideKeeps(p, r.world, r.item, !IsLast(s, r.item.attempts), f, q);
    }
  }

  /** Failed attempts touch nothing but the outputs and the places where the file is put. */
  lemma {:induction false} FailuresKeep(p: Setup, s: Settings, x: Life, fs: seq<Effort>, q: string)
    requires q !in Writes(x.item) && q !in Spots(RouteOf(p, x.item)) && x.item.status != Completed
    ensures var z := Attempts(p, s, x, fs);
              z.item.status != Completed ==>
                SameItem(z.item, x.item) && Lookup(z.world.files, q) == Lookup(x.world.files, q)
  {
    if fs != [] {
      var y := Attempts(p, s, x, fs[..|fs| - 1]);
      FailuresKeep(p, s, x, fs[..|fs| - 1], q);
      if !Over(y.item) {
        SameWrites(y.item, x.item);
        SameRoute(p, y.item, x.item);
        FailureKeeps(p, s, y, fs[|fs| - 1], q);
      }
    }
  }

  /** While an item is not completed, its file is at its source unchanged, or not there. */
  lemma SourceAsItWas(p: Setup, s: Settings, w: World, it: ItemRec, fs: seq<Effort>, bytes: string)
    requires Begins(p, w, it, bytes)
    ensures var y := Attempts(p, s, Life(w, it), fs);
              y.item.status != Completed ==>
                SameItem(y.item, it) && Lookup(y.world.files, it.source) in {None, Some(bytes)}
  {
    FileIsAt(p, s, w, it, fs, bytes, None);
  }

  /** An encryption item that is completed in the end leaves a pair for its file as it was in the beginning. */
  lemma {:induction false} EncryptedInTheEnd(p: Setup, s: Settings, w: World, it: ItemRec, fs: seq<Effort>,
                                             bytes: string, src: string, dst: string, n: string)
    requires WrapsItsKeys(p.vault) && Decrypts(p.cipher) && PlainName(n) && CleanDir(dst) && Encrypts(it, src, dst, n)
    requires Begins(p, w, it, bytes)
    ensures var z := Attempts(p, s, Life(w, it), fs);
              z.item.status == Completed ==>
                Opened(p.vault, p.cipher, z.world.files, it.dest, it.keyPath) == Some(bytes)
  {
    if fs != [] {
      var init, f := fs[..|fs| - 1], fs[|fs| - 1];
      var y := Attempts(p, s, Life(w, it), init);
      EncryptedInTheEnd(p, s, w, it, init, bytes, src, dst, n);
      SourceAsItWas(p, s, w, it, init, bytes);
      if !Over(y.item) && Attempt(p, s, y, f).item.status == Completed {
        EncryptedItem(p, s, y.world, Fresh(0), y.item, f, src, dst, n);
      }
    }
  }

  lemma DecryptionBegins(p: Setup, w: World, it: ItemRec, m: string, dst: string, n: string, out: string)
    requires PlainName(n) && DecryptsItem(it, dst, n, out) && it.attempts == 0 && !Over(it)
    requires Opened(p.vault, p.cipher, w.files, it.source, it.keyPath) == Some(m)
    ensures Begins(p, w, it, w.files[it.source])
    ensures it.keyPath !in Writes(it) && it.keyPath !in Spots(RouteOf(p, it))
  {
    DecryptionApart(p, it, dst, n, out);
    InputApart(dst, n, ".key", it.dest, out, n);
    ExtendedName(n, ".enc");
    BaseOfJoin(dst, n + ".enc");
    assert (n + ".enc")[|n + ".enc"| - 1] != (n + ".key")[|n + ".key"| - 1];
    forall d: string ensures Join(dst, n + ".key") != Join(d, n + ".enc") {
      NamesDiffer(dst, n + ".key", d, n + ".enc");
    }
  }

  /** A decryption item that is completed in the end leaves what the pair stood for in the beginning. */
  lemma {:induction false} DecryptedInTheEnd(p: Setup, s: Settings, w: World, it: ItemRec, fs: seq<Effort>, m: string,
                                             dst: string, n: string, out: string)
    requires PlainName(n) && DecryptsItem(it, dst, n, out) && it.attempts == 0 && !Over(it)
    requires Opened(p.vault, p.cipher, w.files, it.source, it.keyPath) == Some(m)
    ensures var z := Attempts(p, s, Life(w, it), fs);
              z.item.status == Completed ==> Lookup(z.world.files, it.dest) == Some(m)
  {
    if fs != [] {
      var init, f := fs[..|fs| - 1], fs[|fs| - 1];
      var y := Attempts(p, s, Life(w, it), init);
      DecryptedInTheEnd(p, s, w, it, init, m, dst, n, out);
      DecryptionBegins(p, w, it, m, dst, n, out);
      SourceAsItWas(p, s, w, it, init, w.files[it.source]);
      FailuresKeep(p, s, Life(w, it), init, it.keyPath);
      if !Over(y.item) && Attempt(p, s, y, f).item.status == Completed {
        DecryptedItem(p, s, y.world, Fresh(0), y.item, f, dst, n, out);
        assert Lookup(y.world.files, it.keyPath) == Lookup(w.files, it.keyPath);
      }
    }
  }

  /**
   A file is encrypted by one item, the keys are rewrapped, and what came of the file is decrypted by
   another item. If both are completed in the end, then, whatever the faults, retries and disposals
   and whatever batches ran between, the file that comes out has the original bytes.
   */
  lemma RoundTrip(p: Setup, s: Settings, w: World, enc: ItemRec, fs: seq<Effort>, bytes: string, bs: seq<Batch>,
                  dec: ItemRec, fs': seq<Effort>, src: string, dst: string, n: string, out: string)
    requires WrapsItsKeys(p.vault) && KeepsKeys(p.vault) && Decrypts(p.cipher) && PlainName(n) && CleanDir(dst)
    requires Encrypts(enc, src, dst, n) && enc.attempts == 0 && !Over(enc) && Lookup(w.files, enc.source) == Some(bytes)
    requires DecryptsItem(dec, dst, n, out) && dec.attempts == 0 && !Over(dec)
    requires forall b | b in bs :: KeyFileList(b.o, b.keyFiles)
    ensures var a := Attempts(p, s, Life(w, enc), fs);
            var between := World(AfterBatches(p.vault, a.world.files, bs), []);
            var b := Attempts(p, s, Life(between, dec), fs');
              a.item.status == Completed && b.item.status == Completed ==>
                Lookup(b.world.files, dec.dest) == Some(bytes)
  {
    var a := Attempts(p, s, Life(w, enc), fs);
    if a.item.status == Completed {
      var between := World(AfterBatches(p.vault, a.world.files, bs), []);
      EncryptionApart(p, enc, src, dst, n);
      EncryptedInTheEnd(p, s, w, enc, fs, bytes, src, dst, n);
      ExtendJoin(dst, n, ".enc");
      ExtendJoin(dst, n, ".key");
      SuffixOfConcat(Join(dst, n), ".enc");
      SuffixOfConcat(Join(dst, n), ".key");
      RewrapsKeepPairs(p.vault, p.cipher, a.world.files, bs, enc.dest, enc.keyPath);
      DecryptedInTheEnd(p, s, between, dec, fs', bytes, dst, n, out);
    }
  }

  /** Without faults the encryption is completed exactly if the file is there ... */
  lemma SmoothEncryption(p: Setup, s: Settings, w: World, q: QueueState, it: ItemRec, sum: string)
    requires it.operation.Encrypt? && p.vault.generate(0).Some? && sum == ChecksumPath(it.dest, it.source)
    ensures ProcessSpec(p, s, w, q, it, SMOOTH).item.status == Completed <==> it.source in w.files
  {
    CompletedExactly(p, s, w, q, it, SMOOTH);
    if it.source in w.files {
      SmoothAttempt(p, w, AsProcessing(it, 0), sum);
    }
  }

  lemma SmoothDecryption(p: Setup, s: Settings, w: World, q: QueueState, it: ItemRec,
                         dst: string, n: string, out: string)
    requires PlainName(n) && CleanDir(dst) && DecryptsItem(it, dst, n, out)
    ensures var m := Opened(p.vault, p.cipher, w.files, it.source, it.keyPath);
            var sum := Join(dst, n + ".sha256");
              ProcessSpec(p, s, w, q, it, SMOOTH).item.status == Completed
              <==> m.Some? && (p.verifyChecksum ==> ChecksumAgrees(p.cipher, w.files, sum, m.value))
  {
    CompletedExactly(p, s, w, q, it, SMOOTH);
    ExtendedName(n, ".sha256");
    NamesDiffer(out, n, dst, n + ".sha256");
    ChecksumFound(dst, n);
    DecryptionSucceedsExactly(p, w, AsProcessing(it, 0), SMOOTH, Join(dst, n + ".sha256"));
  }

  /**
   ... and the decryption after it exactly if verification is off or the checksum file, the one just
   written or an old one, agrees with the original bytes.
   */
  lemma SmoothRoundTrip(p: Setup, s: Settings, w: World, q: QueueState, enc: ItemRec, f: Effort,
                        q': QueueState, dec: ItemRec, src: string, dst: string, n: string, out: string)
    requires WrapsItsKeys(p.vault) && Decrypts(p.cipher) && PlainName(n) && CleanDir(dst)
    requires Encrypts(enc, src, dst, n) && DecryptsItem(dec, dst, n, out) && enc.source in w.files
    ensures var m := w.files[enc.source];
            var before := Lookup(w.files, Join(dst, n + ".sha256"));
            var sum := if p.calculateChecksum then Some(p.cipher.hash(m)) else before;
            var a := ProcessSpec(p, s, w, q, enc, f);
              a.item.status == Completed ==>
                (ProcessSpec(p, s, a.world, q', dec, SMOOTH).item.status == Completed
                 <==> (p.verifyChecksum ==> RightSum(p.cipher, sum, m)))
  {
    var a := ProcessSpec(p, s, w, q, enc, f);
    if a.item.status == Completed {
      EncryptedItem(p, s, w, q, enc, f, src, dst, n);
      SmoothDecryption(p, s, a.world, q', dec, dst, n, out);
    }
  }

  /** So with a checksum just written it is completed if and only if that has no white space at its ends ... */
  lemma OwnChecksumPasses(p: Setup, s: Settings, w: World, q: QueueState, enc: ItemRec, f: Effort,
                          q': QueueState, dec: ItemRec, src: string, dst: string, n: string, out: string)
    requires WrapsItsKeys(p.vault) && Decrypts(p.cipher) && PlainName(n) && CleanDir(dst)
    requires Encrypts(enc, src, dst, n) && DecryptsItem(dec, dst, n, out) && enc.source in w.files
    requires p.calculateChecksum && p.verifyChecksum
    ensures var sum := p.cipher.hash(w.files[enc.source]);
            var a := ProcessSpec(p, s, w, q, enc, f);
              a.item.status == Completed ==>
                (ProcessSpec(p, s, a.world, q', dec, SMOOTH).item.status == Completed
                 <==> Bare(sum))
  {
    SmoothRoundTrip(p, s, w, q, enc, f, q', dec, src, dst, n, out);
    RecordsItself(p.cipher.hash(w.files[enc.source]));
  }

  /** ... and with one recorded before, say followed by a newline, if and only if it is the right one. */
  lemma RecordedChecksumDecides(p: Setup, s: Settings, w: World, q: QueueState, dec: ItemRec, m: string,
                                a: string, sum: string, b: string, dst: string, n: string, out: string)
    requires PlainName(n) && CleanDir(dst) && DecryptsItem(dec, dst, n, out) && p.verifyChecksum
    requires Opened(p.vault, p.cipher, w.files, dec.source, dec.keyPath) == Some(m)
    requires AllWhite(a) && AllWhite(b) && Bare(sum) && Lookup(w.files, Join(dst, n + ".sha256")) == Some(a + sum + b)
    ensures ProcessSpec(p, s, w, q, dec, SMOOTH).item.status == Completed <==> sum == p.cipher.hash(m)
  {
    SmoothDecryption(p, s, w, q, dec, dst, n, out);
    if Records(a + sum + b, p.cipher.hash(m)) { RecordsOne(a + sum + b, sum, p.cipher.hash(m)); }
  }

  /** The watcher makes just such items, when one service's output directory is the other's source. */
  lemma WatcherMakesThem(d: Dirs, n: string, seen: Sighting, seen': Sighting)
    requires CleanDir(d.encryptSource) && CleanDir(d.encryptDest) && d.decryptSource == d.encryptDest && PlainName(n)
    requires seen.path == Join(d.encryptSource, n) && seen'.path == Join(d.decryptSource, n + ".enc")
    ensures Encrypts(ItemFor(d, Encrypt, seen), d.encryptSource, d.encryptDest, n)
    ensures DecryptsItem(ItemFor(d, Decrypt, seen'), d.encryptDest, n, d.decryptDest)
  {
    EncryptionNames(d.encryptSource, d.encryptDest, n);
    NameRestored(d.decryptSource, d.decryptDest, n);
    CompanionFound(d.decryptSource, n, ".key");
  }
}
