/**
 What becomes of a file all of whose attempts fail. The documentation says that it ends in the DLQ
 directory (docs/ARCHITECTURE.md:196). But the code moves the file to the failed directory, if there is
 one, after the first failed attempt already; a retry finds no file then, and the DLQ directory never
 gets it. These lemmas say exactly when it does, for every item and whatever moves fail.
 */
module RetryFate {
  import opened Common
  import opened Paths
  import opened FileSystem
  import opened Transit
  import opened Envelope
  import opened Items
  import opened Queue
  import opened Watcher
  import opened Processor
  import opened SystemRuns

  /** Nothing outside the program goes wrong. */
  const SMOOTH: Effort :=
    Effort(0, 0, "", false, Fine, 0, 0, Works, Fine, false, false, false, false, false, false, false, false, false)

  lemma SmoothSum(c: Cipher, on: bool, w: World, it: ItemRec, path: string)
    ensures var r := SumStep(c, on, w, it, path, SMOOTH);
              && (it.source in w.files ==> r.ok && it.source in r.world.files)
              && r.item.source == it.source
  {
    if on && it.source in w.files { WrittenFiles(w, path, c.hash(w.files[it.source]), Fine); }
  }

  lemma SmoothAttempt(p: Setup, w: World, it: ItemRec, path: string)
    requires it.source in w.files && p.vault.generate(0).Some?
    ensures EncryptProcess(p.vault, p.cipher, p.calculateChecksum, w, it, path, SMOOTH).ok
  {
    SmoothSum(p.cipher, p.calculateChecksum, w, it, path);
  }

  /** Some circumstances let the encryption strategy succeed, with the checksum going to `path`. */
  ghost predicate Feasible(p: Setup, w: World, it: ItemRec, path: string)
  {
    exists f :: EncryptProcess(p.vault, p.cipher, p.calculateChecksum, w, it, path, f).ok
  }

  /** An attempt at an encryption can succeed exactly if the source file is there. */
  lemma CanSucceed(p: Setup, w: World, it: ItemRec, path: string)
    requires p.vault.generate(0).Some?
    ensures Feasible(p, w, it, path) <==> it.source in w.files
  {
    if it.source in w.files {
      SmoothAttempt(p, w, it, path);
    } else {
      assert forall f :: !EncryptProcess(p.vault, p.cipher, p.calculateChecksum, w, it, path, f).ok;
    }
  }

  /** Where a move of the file at `path` into `dir` would take it, unless `dir` is not set. */
  function Goal(dir: string, path: string): Option<string>
  {
    if dir == "" then None else Some(Join(dir, Base(path)))
  }

  /** The move really takes the file away. */
  predicate TakesAway(goal: Option<string>, path: string, fails: bool)
  {
    goal.Some? && !fails && goal.value != path
  }

  /**
   After a failed attempt that leaves retries, the next one can succeed exactly if the file was not
   moved to the failed directory: it is disabled, or the move failed.
   */
  lemma RetryCanSucceed(p: Setup, s: Settings, w: World, q: QueueState, it: ItemRec, f: Effort, path: string)
    requires it.operation.Encrypt? && p.vault.generate(0).Some? && it.source in w.files
    requires ShouldRetry(it, s.maxRetries)
    ensures var r := AfterFailure(p, s, w, q, it, f);
              Feasible(p, r.world, r.item, path)
              <==> !TakesAway(Goal(p.encrypt.failedDir, it.source), it.source, f.failed)
  {
    var r := AfterFailure(p, s, w, q, it, f);
    CanSucceed(p, r.world, r.item, path);
    assert r.world == PutAside(p.encrypt, w, it.source, true, f);
  }

  // --- A whole life --------------------------------------------------------------------------

  datatype Life = Life(world: World, item: ItemRec)

  predicate Over(it: ItemRec) { it.status == Completed || it.status == Dlq }

  function Attempt(p: Setup, s: Settings, x: Life, f: Effort): Life
  {
    var r := ProcessSpec(p, s, x.world, Fresh(0), x.item, f);
    Life(r.world, r.item)
  }

  /** Attempts at one item, until it is completed or in the DLQ. The queue does not matter here. */
  function Attempts(p: Setup, s: Settings, x: Life, fs: seq<Effort>): Life
  {
    if fs == [] then x else
      var y := Attempts(p, s, x, fs[..|fs| - 1]);
      if Over(y.item) then y else Attempt(p, s, y, fs[|fs| - 1])
  }

  // --- What one attempt does -----------------------------------------------------------------

  /** The file handler for an operation; an unknown operation has none, which moves nothing. */
  function HandlerFor(p: Setup, op: Operation): Handling
  {
    match op
    case Encrypt => p.encrypt
    case Decrypt => p.decrypt
    case Other => Handling(Keep, "", "", "")
  }

  /** The files that an attempt may write. */
  function Writes(it: ItemRec): set<string>
  {
    match it.operation
    case Encrypt => {it.dest, it.keyPath, ChecksumPath(it.dest, it.source)}
    case Decrypt => {it.dest}
    case Other => {}
  }

  predicate SameItem(a: ItemRec, b: ItemRec)
  {
    a.operation == b.operation && a.source == b.source && a.dest == b.dest && a.keyPath == b.keyPath
  }

  /** Items with the same paths write the same files. */
  lemma SameWrites(a: ItemRec, b: ItemRec)
    requires SameItem(a, b)
    ensures Writes(a) == Writes(b)
  {
  }

  lemma EncryptFrame(v: Vault, c: Cipher, on: bool, w: World, it: ItemRec, sum: string, f: Effort, q: string)
    requires q !in {it.dest, it.keyPath, sum}
    ensures var r := EncryptProcess(v, c, on, w, it, sum, f);
              && SameItem(r.item, it) && r.item.attempts == it.attempts
              && Lookup(r.world.files, q) == Lookup(w.files, q)
  {
    var s := SumStep(c, on, w, it, sum, f);
    if on && it.source in w.files { WrittenFiles(w, sum, c.hash(w.files[it.source]), f.saveSum); }
    var e := CryptStep(v, c, s.world, s.item, f);
    if e.ciphertext.Some? {
      var body := c.enc(v.generate(f.request).value.plaintext, f.salt, s.world.files[it.source]);
      WrittenFiles(s.world, it.dest, body, Fine);
      WrittenFiles(e.world, it.keyPath, e.ciphertext.value, f.saveKey);
    }
  }

  lemma DecryptFrame(v: Vault, c: Cipher, on: bool, w: World, it: ItemRec, f: Effort, q: string)
    requires q != it.dest
    ensures Lookup(DecryptProcess(v, c, on, w, it, f).world.files, q) == Lookup(w.files, q)
  {
    var m := Opened(v, c, w.files, it.source, it.keyPath);
    if m.Some? { WrittenFiles(w, it.dest, m.value, Fine); }
  }

  lemma EncryptKeepsItem(v: Vault, c: Cipher, on: bool, w: World, it: ItemRec, sum: string, f: Effort)
    ensures var r := EncryptProcess(v, c, on, w, it, sum, f).item; SameItem(r, it) && r.attempts == it.attempts
  {
  }

  lemma StrategyKeepsItem(p: Setup, w: World, it: ItemRec, f: Effort)
    ensures var r := Strategy(p, w, it, f).item; SameItem(r, it) && r.attempts == it.attempts
  {
    if it.operation.Encrypt? {
      EncryptKeepsItem(p.vault, p.cipher, p.calculateChecksum, w, it, ChecksumPath(it.dest, it.source), f);
    }
  }

  /** The strategy keeps the item's paths and attempts, and every file it does not write. */
  lemma StrategyFrame(p: Setup, w: World, it: ItemRec, f: Effort, q: string)
    requires q !in Writes(it)
    ensures var r := Strategy(p, w, it, f);
              SameItem(r.item, it) && r.item.attempts == it.attempts && Lookup(r.world.files, q) == Lookup(w.files, q)
  {
    match it.operation
    case Encrypt =>
      EncryptFrame(p.vault, p.cipher, p.calculateChecksum, w, it, ChecksumPath(it.dest, it.source), f, q);
    case Decrypt => DecryptFrame(p.vault, p.cipher, p.verifyChecksum, w, it, f, q);
    case Other =>
  }

  /** The status of an item after `n` failed attempts. */
  predicate FailedTimes(s: Settings, it: ItemRec, n: nat)
  {
    it.attempts == n && it.status == if s.maxRetries < 0 || n < s.maxRetries then Failed else Dlq
  }

  predicate IsLast(s: Settings, n: nat) { s.maxRetries >= 0 && n >= s.maxRetries }

  /** What follows a failed attempt: its file is put aside by the handler, unless there is none. */
  lemma AsideIs(p: Setup, s: Settings, w: World, q: QueueState, it: ItemRec, f: Effort)
    ensures var r := AfterFailure(p, s, w, q, it, f);
              && SameItem(r.item, it) && FailedTimes(s, r.item, it.attempts)
              && r.world == PutAside(HandlerFor(p, it.operation), w, it.source, !IsLast(s, it.attempts), f)
  {
  }

  // --- Where the file is ---------------------------------------------------------------------

  /** The source of an item, and where its file goes when attempts fail. */
  datatype Route = Route(source: string, failed: Option<string>, dlq: Option<string>)

  function RouteOf(p: Setup, it: ItemRec): Route
  {
    var h := HandlerFor(p, it.operation);
    Route(it.source, Goal(h.failedDir, it.source), Goal(h.dlqDir, it.source))
  }

  lemma SameRoute(p: Setup, a: ItemRec, b: ItemRec)
    requires SameItem(a, b)
    ensures RouteOf(p, a) == RouteOf(p, b)
  {
  }

  /** The places where the file can be. */
  function Spots(r: Route): set<string>
  {
    {r.source} + (if r.failed.Some? then {r.failed.value} else {}) + (if r.dlq.Some? then {r.dlq.value} else {})
  }

  /** Where a file that is at `at` is after a move from its source to `goal`. */
  function Moved(at: string, source: string, goal: Option<string>, fails: bool): string
  {
    if at == source && TakesAway(goal, source, fails) then goal.value else at
  }

  /** ... and after a failed attempt, the last one or not. */
  function PlaceAfter(r: Route, at: string, last: bool, f: Effort): string
  {
    Moved(if last then Moved(at, r.source, r.dlq, f.dlq) else at, r.source, r.failed, f.failed)
  }

  /** Where the file is after the first `n` attempts, all of which failed. */
  function Place(r: Route, s: Settings, fs: seq<Effort>, n: nat): string
    requires n <= |fs|
  {
    if n == 0 then r.source else PlaceAfter(r, Place(r, s, fs, n - 1), IsLast(s, n), fs[n - 1])
  }

  lemma {:induction false} PlaceOfPrefix(r: Route, s: Settings, fs: seq<Effort>, m: nat, n: nat)
    requires n <= m <= |fs|
    ensures Place(r, s, fs[..m], n) == Place(r, s, fs, n)
  {
    if n > 0 { PlaceOfPrefix(r, s, fs, m, n - 1); }
  }

  lemma {:induction false} PlaceIsSpot(r: Route, s: Settings, fs: seq<Effort>, n: nat)
    requires n <= |fs|
    ensures Place(r, s, fs, n) in Spots(r)
  {
    if n > 0 { PlaceIsSpot(r, s, fs, n - 1); }
  }

  /**
   The file with contents `bytes` is at `at`, and no longer at its source if that is elsewhere; `free`
   is a path that nothing else has taken.
   */
  predicate Whereabouts(files: Files, source: string, at: string, bytes: string, free: Option<string>)
  {
    && Lookup(files, at) == Some(bytes)
    && (at != source ==> source !in files)
    && (free.Some? && free.value in files ==> free.value == at)
  }

  lemma RenameIs(files: Files, source: string, at: string, bytes: string, to: string, free: Option<string>)
    requires Whereabouts(files, source, at, bytes, free) && source in files
    ensures Whereabouts((files - {source})[to := files[source]], source, to, bytes, free)
  {
  }

  lemma MoveIs(w: World, source: string, at: string, bytes: string, dir: string, goal: Option<string>, fails: bool,
               free: Option<string>)
    requires Whereabouts(w.files, source, at, bytes, free) && goal == Goal(dir, source)
    ensures var w' := if dir == "" then w else MoveInto(w, source, dir, fails);
              Whereabouts(w'.files, source, Moved(at, source, goal, fails), bytes, free)
  {
    if goal.Some? && !fails && source in w.files {
      RenameIs(w.files, source, at, bytes, goal.value, free);
    }
  }

  lemma PutAsideIs(p: Setup, w: World, it: ItemRec, at: string, bytes: string, last: bool, f: Effort,
                   free: Option<string>)
    requires Whereabouts(w.files, it.source, at, bytes, free)
    ensures var w' := PutAside(HandlerFor(p, it.operation), w, it.source, !last, f);
              Whereabouts(w'.files, it.source, PlaceAfter(RouteOf(p, it), at, last, f), bytes, free)
  {
    var h, r := HandlerFor(p, it.operation), RouteOf(p, it);
    var w1 := if last then ToDlq(h, w, it.source, f.dlq) else w;
    var there := if last then Moved(at, it.source, r.dlq, f.dlq) else at;
    if last { MoveIs(w, it.source, at, bytes, h.dlqDir, r.dlq, f.dlq, free); }
    MoveIs(w1, it.source, there, bytes, h.failedDir, r.failed, f.failed, free);
  }

  /** What a failed attempt is: the strategy, and the file put aside. */
  lemma AttemptFails(p: Setup, s: Settings, x: Life, f: Effort)
    requires Attempt(p, s, x, f).item.status != Completed
    ensures var z := Attempt(p, s, x, f);
            var made := Strategy(p, x.world, AsProcessing(x.item, f.start), f).world;
            var n := x.item.attempts + 1;
              && SameItem(z.item, x.item) && FailedTimes(s, z.item, n)
              && z.world == PutAside(HandlerFor(p, x.item.operation), made, x.item.source, !IsLast(s, n), f)
  {
    var it := AsProcessing(x.item, f.start);
    var made := Strategy(p, x.world, it, f);
    StrategyKeepsItem(p, x.world, it, f);
    AsideIs(p, s, made.world, Fresh(0), made.item, f);
  }

  /** A failed attempt that wrote none of the places of the file moves it on from where it was. */
  lemma FileMovesOn(p: Setup, w: World, made: World, it: ItemRec, last: bool, f: Effort, at: string, bytes: string,
                    free: Option<string>)
    requires Whereabouts(w.files, it.source, at, bytes, free)
    requires Lookup(made.files, at) == Lookup(w.files, at)
    requires Lookup(made.files, it.source) == Lookup(w.files, it.source)
    requires free.Some? ==> Lookup(made.files, free.value) == Lookup(w.files, free.value)
    ensures var w' := PutAside(HandlerFor(p, it.operation), made, it.source, !last, f);
              Whereabouts(w'.files, it.source, PlaceAfter(RouteOf(p, it), at, last, f), bytes, free)
  {
    PutAsideIs(p, made, it, at, bytes, last, f, free);
  }

  /** How many of `k` attempts are made if none succeeds. */
  function Made(s: Settings, k: nat): nat
  {
    if s.maxRetries < 0 then k else Min(k, Limit(s))
  }

  /** After the attempts `fs`, none of which succeeded. */
  predicate Astray(s: Settings, it: ItemRec, r: Route, fs: seq<Effort>, z: Life, bytes: string, free: Option<string>)
  {
    && SameItem(z.item, it) && (fs != [] ==> FailedTimes(s, z.item, Made(s, |fs|)))
    && Whereabouts(z.world.files, r.source, Place(r, s, fs, Made(s, |fs|)), bytes, free)
  }

  /** A new item whose file is there and whose outputs are elsewhere. */
  predicate Begins(p: Setup, w: World, it: ItemRec, bytes: string)
  {
    && it.attempts == 0 && !Over(it) && Lookup(w.files, it.source) == Some(bytes)
    && Writes(it) !! Spots(RouteOf(p, it))
  }

  /**
   As long as no attempt succeeds, the file is where the moves of the failed attempts have put it,
   with its contents, whatever else went wrong; and the item is dead exactly after its last attempt.
   */
  lemma {:induction false} FileIsAt(p: Setup, s: Settings, w: World, it: ItemRec, fs: seq<Effort>, bytes: string,
                                    free: Option<string>)
    requires Begins(p, w, it, bytes) && (free.Some? ==> free.value in Spots(RouteOf(p, it)))
    requires free.Some? && free.value in w.files ==> free.value == it.source
    ensures var z := Attempts(p, s, Life(w, it), fs);
              z.item.status != Completed ==> Astray(s, it, RouteOf(p, it), fs, z, bytes, free)
  {
    if fs != [] {
      var init, f := fs[..|fs| - 1], fs[|fs| - 1];
      var y := Attempts(p, s, Life(w, it), init);
      FileIsAt(p, s, w, it, init, bytes, free);
      if y.item.status != Completed { OneMore(p, s, it, RouteOf(p, it), fs, y, bytes, free); }
    }
  }

  /** One more failed attempt, told by what it leaves. */
  lemma AstrayOnward(s: Settings, it: ItemRec, y: ItemRec, r: Route, fs: seq<Effort>, at: string, z: Life,
                     bytes: string, free: Option<string>)
    requires fs != [] && Made(s, |fs|) == |fs| && at == Place(r, s, fs, |fs| - 1)
    requires SameItem(y, it) && SameItem(z.item, y) && FailedTimes(s, z.item, |fs|)
    requires Whereabouts(z.world.files, r.source, PlaceAfter(r, at, IsLast(s, |fs|), fs[|fs| - 1]), bytes, free)
    ensures Astray(s, it, r, fs, z, bytes, free)
  {
  }

  /** A dead item has used up its attempts, any other failed item has not. */
  lemma MadeNext(s: Settings, it: ItemRec, k: nat)
    requires k > 0 && FailedTimes(s, it, Made(s, k))
    ensures if it.status == Dlq then Made(s, k + 1) == Made(s, k) else Made(s, k + 1) == k + 1 && Made(s, k) == k
  {
  }

  lemma PlaceKnown(r: Route, s: Settings, fs: seq<Effort>, init: seq<Effort>, n: nat)
    requires fs != [] && init == fs[..|fs| - 1] && n <= |init|
    ensures Place(r, s, init, n) == Place(r, s, fs, n) && Place(r, s, fs, n) in Spots(r)
  {
    PlaceOfPrefix(r, s, fs, |init|, n);
    PlaceIsSpot(r, s, fs, n);
  }

  /** A dead item stays as it is. */
  lemma AstrayOver(s: Settings, it: ItemRec, r: Route, fs: seq<Effort>, init: seq<Effort>, y: Life, bytes: string,
                   free: Option<string>)
    requires fs != [] && init == fs[..|fs| - 1] && init != [] && Astray(s, it, r, init, y, bytes, free)
    requires y.item.status == Dlq
    ensures Astray(s, it, r, fs, y, bytes, free)
  {
    MadeNext(s, y.item, |init|);
    PlaceKnown(r, s, fs, init, Made(s, |init|));
  }

  /** Any other item has an attempt to come. */
  lemma AstrayStill(s: Settings, it: ItemRec, r: Route, fs: seq<Effort>, init: seq<Effort>, y: Life, bytes: string,
                    free: Option<string>)
    requires fs != [] && init == fs[..|fs| - 1] && Astray(s, it, r, init, y, bytes, free)
    requires y.item.status != Dlq && it.attempts == 0 && (init == [] ==> y.item == it)
    ensures Made(s, |fs|) == |fs| && y.item.attempts == |init| && SameItem(y.item, it)
    ensures Whereabouts(y.world.files, r.source, Place(r, s, fs, |init|), bytes, free)
    ensures Place(r, s, fs, |init|) in Spots(r)
  {
    if init != [] { MadeNext(s, y.item, |init|); }
    PlaceKnown(r, s, fs, init, |init|);
  }

  /** The strategy writes none of the places where the file can be. */
  lemma UntouchedByAttempt(p: Setup, x: Life, f: Effort, r: Route, at: string, free: Option<string>)
    requires Writes(x.item) !! Spots(r) && r.source == x.item.source && at in Spots(r)
    requires free.Some? ==> free.value in Spots(r)
    ensures var made := Strategy(p, x.world, AsProcessing(x.item, f.start), f).world;
              && Lookup(made.files, at) == Lookup(x.world.files, at)
              && Lookup(made.files, x.item.source) == Lookup(x.world.files, x.item.source)
              && (free.Some? ==> Lookup(made.files, free.value) == Lookup(x.world.files, free.value))
  {
    var it := AsProcessing(x.item, f.start);
    SameWrites(it, x.item);
    assert r.source in Spots(r);
    StrategyFrame(p, x.world, it, f, at);
    StrategyFrame(p, x.world, it, f, it.source);
    if free.Some? { StrategyFrame(p, x.world, it, f, free.value); }
  }

  lemma OneMore(p: Setup, s: Settings, it: ItemRec, r: Route, fs: seq<Effort>, y: Life, bytes: string,
                free: Option<string>)
    requires r == RouteOf(p, it) && fs != [] && Astray(s, it, r, fs[..|fs| - 1], y, bytes, free)
    requires it.attempts == 0 && !Over(it) && (|fs| == 1 ==> y.item == it)
    requires Writes(it) !! Spots(r) && (free.Some? ==> free.value in Spots(r))
    ensures var z := if Over(y.item) then y else Attempt(p, s, y, fs[|fs| - 1]);
              z.item.status != Completed ==> Astray(s, it, r, fs, z, bytes, free)
  {
    var init := fs[..|fs| - 1];
    if y.item.status == Dlq {
      AstrayOver(s, it, r, fs, init, y, bytes, free);
    } else if !Over(y.item) && Attempt(p, s, y, fs[|fs| - 1]).item.status != Completed {
      var at := Place(r, s, fs, |init|);
      AstrayStill(s, it, r, fs, init, y, bytes, free);
      SameWrites(y.item, it);
      SameRoute(p, y.item, it);
      UntouchedByAttempt(p, y, fs[|fs| - 1], r, at, free);
      AttemptFails(p, s, y, fs[|fs| - 1]);
      var made := Strategy(p, y.world, AsProcessing(y.item, fs[|fs| - 1].start), fs[|fs| - 1]).world;
      FileMovesOn(p, y.world, made, y.item, IsLast(s, |fs|), fs[|fs| - 1], at, bytes, free);
      AstrayOnward(s, it, y.item, r, fs, at, Attempt(p, s, y, fs[|fs| - 1]), bytes, free);
    }
  }

  // --- Where it ends -------------------------------------------------------------------------

  /** None of the first `n` attempts has moved the file to the failed directory. */
  ghost predicate Stayed(r: Route, fs: seq<Effort>, n: nat)
    requires n <= |fs|
  {
    forall k | 0 <= k < n :: !TakesAway(r.failed, r.source, fs[k].failed)
  }

  lemma {:induction false} PlaceBeforeLast(r: Route, s: Settings, fs: seq<Effort>, n: nat)
    requires n <= |fs| && (s.maxRetries < 0 || n < Limit(s))
    ensures if Stayed(r, fs, n) then Place(r, s, fs, n) == r.source
            else r.failed == Some(Place(r, s, fs, n)) && Place(r, s, fs, n) != r.source
  {
    if n > 0 { PlaceBeforeLast(r, s, fs, n - 1); }
  }

  lemma PlaceAtLast(r: Route, s: Settings, fs: seq<Effort>)
    requires s.maxRetries >= 0 && Limit(s) <= |fs| && r.dlq.Some? && r.dlq.value != r.source && r.failed != r.dlq
    ensures Place(r, s, fs, Limit(s)) == r.dlq.value
       <==> Stayed(r, fs, Limit(s) - 1) && TakesAway(r.dlq, r.source, fs[Limit(s) - 1].dlq)
  {
    PlaceBeforeLast(r, s, fs, Limit(s) - 1);
  }

  /** The name of the file is free in the DLQ directory, which is not the failed directory. */
  predicate DlqFree(w: World, r: Route)
  {
    r.dlq.Some? ==> r.dlq.value !in w.files && r.failed != r.dlq
  }

  predicate InDlq(files: Files, r: Route, bytes: string)
  {
    r.dlq.Some? && Lookup(files, r.dlq.value) == Some(bytes)
  }

  /**
   For every item, of whatever operation, all of whose attempts fail: its file ends in the DLQ
   directory exactly if no attempt before the last one moved it to the failed directory and the
   last one moved it to the DLQ directory.
   */
  lemma DeadFileInDlqExactly(p: Setup, s: Settings, w: World, it: ItemRec, fs: seq<Effort>, bytes: string)
    requires Begins(p, w, it, bytes) && DlqFree(w, RouteOf(p, it)) && s.maxRetries >= 0 && |fs| >= Limit(s)
    ensures var z := Attempts(p, s, Life(w, it), fs);
            var r := RouteOf(p, it);
              z.item.status == Dlq ==>
                (InDlq(z.world.files, r, bytes)
                 <==> Stayed(r, fs, Limit(s) - 1) && TakesAway(r.dlq, r.source, fs[Limit(s) - 1].dlq))
  {
    var z, r := Attempts(p, s, Life(w, it), fs), RouteOf(p, it);
    if z.item.status == Dlq && r.dlq.Some? {
      FileIsAt(p, s, w, it, fs, bytes, r.dlq);
      PlaceAtLast(r, s, fs);
    }
  }

  /** An item none of whose attempts succeeds is dead exactly after max(1, maxRetries) of them. */
  lemma DeadAfterLimit(p: Setup, s: Settings, w: World, it: ItemRec, fs: seq<Effort>, bytes: string)
    requires Begins(p, w, it, bytes)
    ensures var z := Attempts(p, s, Life(w, it), fs);
              z.item.status != Completed ==> (z.item.status == Dlq <==> s.maxRetries >= 0 && |fs| >= Limit(s))
  {
    FileIsAt(p, s, w, it, fs, bytes, None);
  }

  predicate MovesWork(fs: seq<Effort>) { forall f | f in fs :: !f.failed && !f.dlq }

  predicate AsDocumented(r: Route, s: Settings) { r.failed.None? || s.maxRetries <= 1 }

  lemma PlaceIfMovesWork(r: Route, s: Settings, fs: seq<Effort>)
    requires s.maxRetries >= 0 && Limit(s) <= |fs| && MovesWork(fs) && r.dlq.Some?
    requires r.dlq != Some(r.source) && r.failed != Some(r.source)
    ensures Some(Place(r, s, fs, Limit(s))) == if AsDocumented(r, s) then r.dlq else r.failed
  {
    PlaceBeforeLast(r, s, fs, Limit(s) - 1);
    assert r.failed.Some? && Limit(s) > 1 ==> TakesAway(r.failed, r.source, fs[0].failed);
  }

  /**
   What the documentation says of every dead item (docs/ARCHITECTURE.md:196), that its file is in the
   DLQ directory, holds with working moves exactly if there is no failed directory or there are no
   retries. Otherwise the file is in the failed directory.
   */
  lemma {:induction false} DocumentedFate(p: Setup, s: Settings, w: World, it: ItemRec, fs: seq<Effort>, bytes: string)
    requires Begins(p, w, it, bytes) && s.maxRetries >= 0 && |fs| >= Limit(s) && MovesWork(fs)
    requires var r := RouteOf(p, it); DlqFree(w, r) && r.dlq.Some? && r.failed != Some(r.source)
    ensures var z := Attempts(p, s, Life(w, it), fs);
            var r := RouteOf(p, it);
              z.item.status == Dlq ==>
                && (InDlq(z.world.files, r, bytes) <==> AsDocumented(r, s))
                && (!AsDocumented(r, s) ==> Lookup(z.world.files, r.failed.value) == Some(bytes))
  {
    var r := RouteOf(p, it);
    if Attempts(p, s, Life(w, it), fs).item.status == Dlq {
      FileIsAt(p, s, w, it, fs, bytes, r.dlq);
      PlaceIfMovesWork(r, s, fs);
    }
  }

  // --- No attempt without the file -----------------------------------------------------------

  lemma SourceNeededToDecrypt(p: Setup, w: World, it: ItemRec, f: Effort)
    requires it.source !in w.files
    ensures !DecryptProcess(p.vault, p.cipher, p.verifyChecksum, w, it, f).ok
  {
  }

  lemma NoSourceNoSuccess(p: Setup, w: World, it: ItemRec, f: Effort)
    requires it.source !in w.files
    ensures !Strategy(p, w, it, f).ok
  {
    match it.operation
    case Encrypt =>
    case Decrypt => SourceNeededToDecrypt(p, w, it, f);
    case Other =>
  }

  lemma NothingToPutAside(h: Handling, w: World, source: string, requeued: bool, f: Effort)
    requires source !in w.files
    ensures PutAside(h, w, source, requeued, f) == w
  {
  }

  /** Without the file the strategy fails, and the file stays away. */
  lemma FailsWithoutFile(p: Setup, w: World, it: ItemRec, f: Effort)
    requires it.source !in w.files && it.source !in Writes(it)
    ensures !Strategy(p, w, it, f).ok && it.source !in Strategy(p, w, it, f).world.files
  {
    NoSourceNoSuccess(p, w, it, f);
    StrategyFrame(p, w, it, f, it.source);
  }

  lemma NotCompleted(p: Setup, s: Settings, x: Life, f: Effort)
    requires !Strategy(p, x.world, AsProcessing(x.item, f.start), f).ok
    ensures Attempt(p, s, x, f).item.status != Completed
  {
    var r := Strategy(p, x.world, AsProcessing(x.item, f.start), f);
    AsideIs(p, s, r.world, Fresh(0), r.item, f);
  }

  /**
   Once its file was moved away, an item can only run out of attempts: whatever the circumstances of
   the later ones, none succeeds, and it is dead exactly when the limit is reached.
   */
  lemma {:induction false} NeverCompletes(p: Setup, s: Settings, x: Life, fs: seq<Effort>)
    requires x.item.source !in x.world.files && x.item.source !in Writes(x.item)
    requires FailedTimes(s, x.item, x.item.attempts)
    ensures var z := Attempts(p, s, x, fs);
            var n := x.item.attempts + |fs|;
              && SameItem(z.item, x.item) && x.item.source !in z.world.files
              && (Over(x.item) || FailedTimes(s, z.item, if s.maxRetries < 0 then n else Min(n, s.maxRetries)))
              && z.item.status != Completed
  {
    if fs != [] {
      var y := Attempts(p, s, x, fs[..|fs| - 1]);
      NeverCompletes(p, s, x, fs[..|fs| - 1]);
      if !Over(y.item) {
        var f := fs[|fs| - 1];
        var it := AsProcessing(y.item, f.start);
        SameWrites(it, x.item);
        FailsWithoutFile(p, y.world, it, f);
        NotCompleted(p, s, y, f);
        AttemptFails(p, s, y, f);
        var made := Strategy(p, y.world, it, f).world;
        var last := IsLast(s, y.item.attempts + 1);
        NothingToPutAside(HandlerFor(p, y.item.operation), made, y.item.source, !last, f);
      }
    }
  }

  // --- Two concrete lives --------------------------------------------------------------------

  /** A cipher failure. */
  const BROKEN: Effort := SMOOTH.(crypt := Fails(None))

  lemma BrokenStrategy(p: Setup, w: World, it: ItemRec, path: string)
    ensures !EncryptProcess(p.vault, p.cipher, p.calculateChecksum, w, it, path, BROKEN).ok
  {
  }

  lemma BrokenAttempt(p: Setup, s: Settings, x: Life)
    requires x.item.operation.Encrypt?
    ensures Attempt(p, s, x, BROKEN).item.status != Completed && Attempt(p, s, x, BROKEN).item.operation.Encrypt?
  {
    var it := AsProcessing(x.item, BROKEN.start);
    var r := Strategy(p, x.world, it, BROKEN);
    BrokenStrategy(p, x.world, it, ChecksumPath(it.dest, it.source));
    StrategyKeepsItem(p, x.world, it, BROKEN);
    AsideIs(p, s, r.world, Fresh(0), r.item, BROKEN);
  }

  function Broken(n: nat): seq<Effort> { seq(n, _ => BROKEN) }

  lemma {:induction false} BrokenLife(p: Setup, s: Settings, x: Life, n: nat)
    requires x.item.operation.Encrypt? && x.item.status != Completed
    ensures var z := Attempts(p, s, x, Broken(n)); z.item.status != Completed && z.item.operation.Encrypt?
  {
    if n > 0 {
      BrokenLife(p, s, x, n - 1);
      assert Broken(n)[..n - 1] == Broken(n - 1);
      BrokenAttempt(p, s, Attempts(p, s, x, Broken(n - 1)));
    }
  }

  function ExampleItem(): ItemRec { NewItem("1", Encrypt, "s/x", "d/x.enc", 0).(keyPath := "d/x.key") }

  function ExampleWorld(): World { World(map["s/x" := "m"], []) }

  function ExampleSetup(failedDir: string): Setup
  {
    var h := Handling(Archive, "a", failedDir, "q");
    Setup(ToyVault(), ToyCipher(), h, h, false, false)
  }

  lemma ExamplePaths()
    ensures Base("s/x") == "x" && ChecksumPath("d/x.enc", "s/x") == "d/x.sha256"
  {
    assert Join("s", "x") == "s/x" && Join("d", "x.enc") == "d/x.enc";
    SplitOfJoin("s", "x");
    SplitOfJoin("d", "x.enc");
  }

  lemma ExampleBegins(failedDir: string)
    requires failedDir == "" || failedDir == "f"
    ensures Begins(ExampleSetup(failedDir), ExampleWorld(), ExampleItem(), "m")
    ensures RouteOf(ExampleSetup(failedDir), ExampleItem())
         == Route("s/x", if failedDir == "" then None else Some("f/x"), Some("q/x"))
  {
    ExamplePaths();
    assert Join("q", "x") == "q/x" && Join("f", "x") == "f/x";
  }

  lemma ExampleFree(failed: Option<string>)
    requires failed in {None, Some("f/x")}
    ensures DlqFree(ExampleWorld(), Route("s/x", failed, Some("q/x"))) && failed != Some("s/x")
  {
    assert "q/x"[0] != "s/x"[0] && "q/x"[0] != "f/x"[0] && "f/x"[0] != "s/x"[0];
  }

  /** Three attempts, a failed directory: the item is dead, and its file is not in the DLQ directory. */
  lemma DeadButInFailed()
    ensures var z := Attempts(ExampleSetup("f"), Settings(3, 1, 60), Life(ExampleWorld(), ExampleItem()), Broken(3));
              && z.item.status == Dlq
              && Lookup(z.world.files, "f/x") == Some("m") && Lookup(z.world.files, "q/x") != Some("m")
  {
    var p, s := ExampleSetup("f"), Settings(3, 1, 60);
    ExampleBegins("f");
    ExampleFree(Some("f/x"));
    BrokenLife(p, s, Life(ExampleWorld(), ExampleItem()), 3);
    DeadAfterLimit(p, s, ExampleWorld(), ExampleItem(), Broken(3), "m");
    DocumentedFate(p, s, ExampleWorld(), ExampleItem(), Broken(3), "m");
  }

  /** Two attempts, no failed directory: the item is dead, and its file is in the DLQ directory. */
  lemma DeadAsDocumented()
    ensures var z := Attempts(ExampleSetup(""), Settings(2, 1, 60), Life(ExampleWorld(), ExampleItem()), Broken(2));
              z.item.status == Dlq && Lookup(z.world.files, "q/x") == Some("m")
  {
    var p, s := ExampleSetup(""), Settings(2, 1, 60);
    ExampleBegins("");
    ExampleFree(None);
    BrokenLife(p, s, Life(ExampleWorld(), ExampleItem()), 2);
    DeadAfterLimit(p, s, ExampleWorld(), ExampleItem(), Broken(2), "m");
    DocumentedFate(p, s, ExampleWorld(), ExampleItem(), Broken(2), "m");
  }

  // --- Names already taken -------------------------------------------------------------------

  /**
   Moving a file aside keeps every other file exactly if its name is not taken in the directory it
   goes to (or is taken by a file with the same contents): a rename replaces what is there.
   */
  lemma MoveLosesNothing(w: World, path: string, dir: string, fails: bool)
    ensures (forall q :: q in w.files && q != path ==>
               Lookup(MoveInto(w, path, dir, fails).files, q) == Some(w.files[q]))
       <==> (fails || path !in w.files || Lookup(w.files, Join(dir, Base(path))) in {None, Some(w.files[path])})
  {
    var t := Join(dir, Base(path));
    if !fails && path in w.files && t in w.files && w.files[t] != w.files[path] {
      assert t in w.files && t != path && Lookup(MoveInto(w, path, dir, fails).files, t) != Some(w.files[t]);
    }
  }
}
