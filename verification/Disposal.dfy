/** Where the inputs of a completed item are after it, said without the function that disposes of them. */
module Disposal {
  import opened Common
  import opened Paths
  import opened FileSystem
  import opened Transit
  import opened Envelope
  import opened Items
  import opened Queue
  import opened Watcher
  import opened Processor
  import opened RetryFate
  import opened ItemRoundTrip

  /**
   What has become of the input at `path` with contents `bytes`: kept where it was, if that is the
   behaviour or the disposal failed, else gone, or in the archive directory under its name.
   */
  predicate DisposedOf(h: Handling, files: Files, path: string, bytes: string, failed: bool)
  {
    if failed || h.behavior.Keep? then Lookup(files, path) == Some(bytes)
    else if h.behavior.Delete? then path !in files
    else
      && Lookup(files, Join(h.archiveDir, Base(path))) == Some(bytes)
      && (path != Join(h.archiveDir, Base(path)) ==> path !in files)
  }

  lemma DisposeIs(h: Handling, w: World, path: string, bytes: string, fails: bool)
    requires Lookup(w.files, path) == Some(bytes)
    ensures DisposedOf(h, Dispose(h, w, path, fails).files, path, bytes, fails)
  {
  }

  /** A completed encryption has disposed of its source, as the configured behaviour says. */
  lemma SourceDisposedOf(p: Setup, s: Settings, w: World, q: QueueState, it: ItemRec, f: Effort,
                         src: string, dst: string, n: string)
    requires PlainName(n) && CleanDir(dst) && Encrypts(it, src, dst, n)
    requires ProcessSpec(p, s, w, q, it, f).item.status == Completed
    ensures it.source in w.files
    ensures DisposedOf(p.encrypt, ProcessSpec(p, s, w, q, it, f).world.files, it.source, w.files[it.source], f.dispose)
  {
    var began := AsProcessing(it, f.start);
    var sum := Join(dst, n + ".sha256");
    var r := Strategy(p, w, began, f);
    CompletedExactly(p, s, w, q, it, f);
    OutputsApart(src, dst, n);
    SumPathOf(src, dst, n);
    EncryptFrame(p.vault, p.cipher, p.calculateChecksum, w, began, sum, f, it.source);
    if it.source !in w.files { SourceNeeded(p, w, began, sum, f); }
    DisposeIs(p.encrypt, r.world, it.source, w.files[it.source], f.dispose);
  }

  lemma SourceNeeded(p: Setup, w: World, it: ItemRec, path: string, f: Effort)
    requires it.source !in w.files && path != it.source
    ensures !EncryptProcess(p.vault, p.cipher, p.calculateChecksum, w, it, path, f).ok
  {
  }

  /** Disposing of an input leaves any other one alone, and alone in the archive, if its name is another. */
  lemma NextInput(h: Handling, w: World, path: string, fails: bool, q: string, bytes: string, failed: bool)
    requires PlainName(Base(path)) && PlainName(Base(q)) && Base(path) != Base(q) && path != q
    ensures Lookup(Dispose(h, w, path, fails).files, q) == Lookup(w.files, q)
    ensures DisposedOf(h, w.files, q, bytes, failed)
        ==> DisposedOf(h, Dispose(h, w, path, fails).files, q, bytes, failed)
  {
    BaseOfJoin(h.archiveDir, Base(path));
    BaseOfJoin(h.archiveDir, Base(q));
  }

  /** Whether disposing of a decryption's input with this ending fails. */
  function FailsFor(f: Effort, ending: string): bool
  {
    if ending == ".enc" then f.dispose else if ending == ".key" then f.disposeKey else f.disposeSum
  }

  lemma InputNames(dst: string, n: string)
    requires PlainName(n)
    ensures forall e | e in {".enc", ".key", ".sha256"} :: PlainName(n + e) && Base(Join(dst, n + e)) == n + e
    ensures n + ".enc" != n + ".key" && n + ".enc" != n + ".sha256" && n + ".key" != n + ".sha256"
  {
    forall e | e in {".enc", ".key", ".sha256"} ensures PlainName(n + e) && Base(Join(dst, n + e)) == n + e {
      ExtendedName(n, e);
      BaseOfJoin(dst, n + e);
    }
    assert (n + ".enc")[|n| + 3] == 'c' && (n + ".key")[|n| + 3] == 'y' && (n + ".sha256")[|n| + 3] == 'a';
  }

  lemma ThreeTurns(h: Handling, w: World, enc: string, key: string, sum: string, f: Effort)
    requires key != ""
    ensures DisposeInputs(h, w, enc, key, sum, f)
         == Dispose(h, Dispose(h, Dispose(h, w, enc, f.dispose), key, f.disposeKey), sum, f.disposeSum)
  {
  }

  /** Each of the three inputs, if it is there, is disposed of; a missing checksum file stays missing. */
  lemma InputsDisposedOf(h: Handling, w: World, dst: string, n: string, f: Effort, ending: string)
    requires PlainName(n) && ending in {".enc", ".key", ".sha256"}
    ensures var at := Join(dst, n + ending);
            var z := DisposeInputs(h, w, Join(dst, n + ".enc"), Join(dst, n + ".key"), Join(dst, n + ".sha256"), f);
              if at in w.files then DisposedOf(h, z.files, at, w.files[at], FailsFor(f, ending)) else at !in z.files
  {
    var enc, key, sum := Join(dst, n + ".enc"), Join(dst, n + ".key"), Join(dst, n + ".sha256");
    InputNames(dst, n);
    var w1 := Dispose(h, w, enc, f.dispose);
    var w2 := Dispose(h, w1, key, f.disposeKey);
    var at := Join(dst, n + ending);
    var bytes, failed := (if at in w.files then w.files[at] else ""), FailsFor(f, ending);
    ThreeTurns(h, w, enc, key, sum, f);
    Turn(h, w, enc, f.dispose, at, bytes, failed);
    Turn(h, w1, key, f.disposeKey, at, bytes, failed);
    Turn(h, w2, sum, f.disposeSum, at, bytes, failed);
  }

  /** One of the three disposals, seen from one of the inputs. */
  lemma Turn(h: Handling, w: World, path: string, fails: bool, at: string, bytes: string, failed: bool)
    requires PlainName(Base(path)) && PlainName(Base(at)) && (path == at || Base(path) != Base(at))
    ensures var z := Dispose(h, w, path, fails);
              if path != at then
                && Lookup(z.files, at) == Lookup(w.files, at)
                && (DisposedOf(h, w.files, at, bytes, failed) ==> DisposedOf(h, z.files, at, bytes, failed))
              else
                && (at !in w.files ==> z == w)
                && (Lookup(w.files, at) == Some(bytes) && fails == failed ==> DisposedOf(h, z.files, at, bytes, failed))
  {
    if path != at { NextInput(h, w, path, fails, at, bytes, failed); }
  }

  /** A completed decryption wrote only its output before the disposal. */
  lemma BeforeDisposal(p: Setup, s: Settings, w: World, q: QueueState, it: ItemRec, f: Effort, at: string)
    requires it.operation.Decrypt? && ProcessSpec(p, s, w, q, it, f).item.status == Completed && at != it.dest
    ensures var r := Strategy(p, w, AsProcessing(it, f.start), f);
              && Lookup(r.world.files, at) == Lookup(w.files, at)
              && ProcessSpec(p, s, w, q, it, f).world
                 == DisposeInputs(p.decrypt, r.world, it.source, it.keyPath, DisposedChecksum(it.source), f)
  {
    CompletedExactly(p, s, w, q, it, f);
    DecryptionWrites(p, w, AsProcessing(it, f.start), f);
  }

  /** A completed decryption has disposed of its encrypted file, of its key and of its checksum file alike. */
  lemma ThreeDisposedOf(p: Setup, s: Settings, w: World, q: QueueState, it: ItemRec, f: Effort,
                        dst: string, n: string, out: string, ending: string)
    requires PlainName(n) && DecryptsItem(it, dst, n, out) && ending in {".enc", ".key", ".sha256"}
    requires ProcessSpec(p, s, w, q, it, f).item.status == Completed
    ensures var at := Join(dst, n + ending);
            var z := ProcessSpec(p, s, w, q, it, f).world.files;
              if at in w.files then DisposedOf(p.decrypt, z, at, w.files[at], FailsFor(f, ending)) else at !in z
  {
    var at := Join(dst, n + ending);
    CompanionFound(dst, n, ".sha256");
    InputApart(dst, n, ending, it.dest, out, n);
    BeforeDisposal(p, s, w, q, it, f, at);
    InputsDisposedOf(p.decrypt, Strategy(p, w, AsProcessing(it, f.start), f).world, dst, n, f, ending);
  }
}
