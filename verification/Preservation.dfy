/**
 Decryption preserves what was delivered, exactly in safe stations; and the machine's steps, run without
 interruption, are one attempt of the processor at a decryption item.
 */
module Preservation {
  import opened Common
  import opened Paths
  import opened FileSystem
  import opened Transit
  import opened Envelope
  import opened Items
  import opened Queue
  import opened Watcher
  import opened Processor
  import opened RetryFate
  import opened ItemRoundTrip
  import opened Decryption
  import opened DecryptionSteps

  lemma {:induction false} HistoryBooks(p: Station, files: Files, hs: seq<Happening>)
    requires Sound(p) && Safe(p)
    ensures Books(p, History(p, Boot(files), hs))
  {
    if hs != [] {
      HistoryBooks(p, files, hs[..|hs| - 1]);
      NextBooks(p, History(p, Boot(files), hs[..|hs| - 1]), hs[|hs| - 1]);
    }
  }

  /**
   In every reachable state of a safe station each delivered file is preserved: its plaintext is at the
   output, or the encrypted file and its key are each in exactly one place and still good.
   */
  lemma AlwaysPreserved(p: Station, files: Files, hs: seq<Happening>, n: string)
    requires Sound(p) && Safe(p)
    ensures var x := History(p, Boot(files), hs); n in x.origin ==> Preserved(p, x, n)
  {
    HistoryBooks(p, files, hs);
    var x := History(p, Boot(files), hs);
    if n in x.origin {
      var f, d := x.disk.files, x.origin[n];
      assert Kept(p, f, n, d);
      assert InOneHome(p, f, n, d, false) || Free(p, f, n, false);
      assert InOneHome(p, f, n, d, true) || Free(p, f, n, true);
    }
  }

  // --- Why an unsafe station can lose a file -------------------------------------------------

  /** Delivered, decrypted and the encrypted file deleted; then the process is killed. */
  function HalfDone(enc: string, key: string): seq<Happening>
  {
    [Deliver("x", enc, key), Begin("x"), Work(SMOOTH, true), Work(SMOOTH, true), Work(SMOOTH, true),
     Work(SMOOTH, true), Kill]
  }

  /** The next attempt finds the key, but not the file, and spoils the output. */
  function Spoiling(left: string): Effort { SMOOTH.(crypt := Fails(Some(left))) }

  function Spoiled(left: string): seq<Happening>
  {
    [Begin("x"), Work(SMOOTH, true), Work(Spoiling(left), true)]
  }

  lemma {:induction false} HistoryConcat(p: Station, x: State, a: seq<Happening>, b: seq<Happening>)
    ensures History(p, x, a + b) == History(p, History(p, x, a), b)
  {
    if b == [] {
      assert a + b == a;
    } else {
      HistoryConcat(p, x, a, b[..|b| - 1]);
      assert (a + b)[..|a + b| - 1] == a + b[..|b| - 1];
    }
  }

  lemma HistoryStep(p: Station, x: State, hs: seq<Happening>)
    requires hs != []
    ensures History(p, x, hs) == History(p, Next(p, x, hs[0]), hs[1..])
  {
    HistoryConcat(p, x, [hs[0]], hs[1..]);
    assert [hs[0]] + hs[1..] == hs;
    assert [hs[0]][..0] == [];
  }

  /** The paths of the story are different. */
  lemma PathsApart(p: Station)
    requires Sound(p)
    ensures SumPath(p, "x") !in {EncPath(p, "x"), KeyPath(p, "x"), OutPath(p, "x")}
    ensures EncPath(p, "x") != KeyPath(p, "x") && OutPath(p, "x") !in {EncPath(p, "x"), KeyPath(p, "x")}
  {
    var enc, key, sum, out := EncPath(p, "x"), KeyPath(p, "x"), SumPath(p, "x"), OutPath(p, "x");
    assert enc[|enc| - 1] == 'c' && key[|key| - 1] == 'y' && sum[|sum| - 1] == '6' && out[|out| - 1] == 'x';
  }

  lemma DeliverIt(p: Station, enc: string, key: string, d: Delivery)
    requires Delivered(p, enc, key) == Some(d)
    ensures var y := Next(p, Boot(map[]), Deliver("x", enc, key));
              && y.phase.Idle? && y.origin == map["x" := d]
              && y.disk.files == map[KeyPath(p, "x") := key][EncPath(p, "x") := enc]
  {
  }

  lemma OpenIt(p: Station, x: State, key: string, d: Delivery)
    requires x.phase.Idle? && "x" in x.origin && Lookup(x.disk.files, KeyPath(p, "x")) == Some(key)
    requires p.setup.vault.unwrap(key) == Some(d.key)
    ensures Next(p, Next(p, x, Begin("x")), Work(SMOOTH, true)) == x.(phase := Decrypting("x", d.key))
  {
  }

  lemma DecryptIt(p: Station, x: State, d: Delivery)
    requires x.phase == Decrypting("x", d.key) && Lookup(x.disk.files, EncPath(p, "x")) == Some(d.enc) && Stands(p, d)
    ensures var y := Next(p, x, Work(SMOOTH, true));
              && y == x.(disk := y.disk, phase := Verifying("x"))
              && y.disk.files == x.disk.files[OutPath(p, "x") := d.plain]
  {
    WrittenFiles(x.disk, OutPath(p, "x"), d.plain, Fine);
  }

  lemma VerifyIt(p: Station, x: State)
    requires x.phase == Verifying("x") && SumPath(p, "x") !in x.disk.files
    ensures Next(p, x, Work(SMOOTH, true)) == x.(phase := DisposeEnc("x"))
  {
  }

  lemma DeleteIt(p: Station, x: State)
    requires x.phase == DisposeEnc("x") && EncPath(p, "x") in x.disk.files && Handlings(p).behavior.Delete?
    ensures var y := Next(p, Next(p, x, Work(SMOOTH, true)), Kill);
              y == x.(disk := y.disk, phase := Idle) && y.disk.files == x.disk.files - {EncPath(p, "x")}
  {
  }

  lemma SpoilIt(p: Station, x: State, d: Delivery, left: string)
    requires x.phase == Decrypting("x", d.key) && p.leaks
    ensures var y := Next(p, x, Work(Spoiling(left), true));
              y == x.(disk := y.disk, phase := y.phase) && y.disk.files == x.disk.files[OutPath(p, "x") := left]
  {
  }

  /** After the first attempt there is the plaintext, and the key, but not the encrypted file. */
  lemma HalfDoneLeaves(p: Station, enc: string, key: string, d: Delivery)
    requires Sound(p) && Handlings(p).behavior.Delete? && Delivered(p, enc, key) == Some(d)
    ensures var y := History(p, Boot(map[]), HalfDone(enc, key));
              && y.phase.Idle? && y.origin == map["x" := d]
              && y.disk.files == map[KeyPath(p, "x") := key, OutPath(p, "x") := d.plain]
  {
    var w, hs := Work(SMOOTH, true), HalfDone(enc, key);
    var x1 := Next(p, Boot(map[]), Deliver("x", enc, key));
    var x2 := Next(p, Next(p, x1, Begin("x")), w);
    var x3 := Next(p, x2, w);
    var x4 := Next(p, x3, w);
    PathsApart(p);
    DeliverIt(p, enc, key, d);
    OpenIt(p, x1, key, d);
    DecryptIt(p, x2, d);
    VerifyIt(p, x3);
    DeleteIt(p, x4);
    SevenSteps(p, Boot(map[]), hs);
  }

  lemma SevenSteps(p: Station, x: State, hs: seq<Happening>)
    requires |hs| == 7
    ensures var x3 := Next(p, Next(p, Next(p, x, hs[0]), hs[1]), hs[2]);
              History(p, x, hs) == Next(p, Next(p, Next(p, Next(p, x3, hs[3]), hs[4]), hs[5]), hs[6])
  {
    var x1 := Next(p, x, hs[0]);
    var x2 := Next(p, x1, hs[1]);
    var x3 := Next(p, x2, hs[2]);
    var x4 := Next(p, x3, hs[3]);
    HistoryStep(p, x, hs);
    HistoryStep(p, x1, hs[1..]);
    HistoryStep(p, x2, hs[1..][1..]);
    HistoryStep(p, x3, hs[1..][1..][1..]);
    ThreeSteps(p, x4, hs[1..][1..][1..][1..]);
  }

  lemma ThreeSteps(p: Station, x: State, hs: seq<Happening>)
    requires |hs| == 3
    ensures History(p, x, hs) == Next(p, Next(p, Next(p, x, hs[0]), hs[1]), hs[2])
  {
    HistoryStep(p, x, hs);
    HistoryStep(p, Next(p, x, hs[0]), hs[1..]);
    HistoryStep(p, Next(p, Next(p, x, hs[0]), hs[1]), hs[1..][1..]);
  }

  lemma StoryLoses(p: Station, enc: string, key: string, d: Delivery, left: string)
    requires Sound(p) && !Safe(p) && Delivered(p, enc, key) == Some(d) && left != d.plain
    ensures var y := History(p, Boot(map[]), HalfDone(enc, key) + Spoiled(left));
              "x" in y.origin && !Preserved(p, y, "x")
  {
    var x := History(p, Boot(map[]), HalfDone(enc, key));
    var y := History(p, x, Spoiled(left));
    var x1 := Next(p, Next(p, x, Begin("x")), Work(SMOOTH, true));
    PathsApart(p);
    HalfDoneLeaves(p, enc, key, d);
    OpenIt(p, x, key, d);
    SpoilIt(p, x1, d, left);
    ThreeSteps(p, x, Spoiled(left));
    HistoryConcat(p, Boot(map[]), HalfDone(enc, key), Spoiled(left));
    NoEncryptedFile(p, y.disk.files, key, left, d);
  }

  lemma NoEncryptedFile(p: Station, f: Files, key: string, left: string, d: Delivery)
    requires Sound(p) && f == map[KeyPath(p, "x") := key, OutPath(p, "x") := left] && left != d.plain
    ensures !HasPlain(p, f, "x", d) && !InOneHome(p, f, "x", d, false)
  {
    PathsApart(p);
    forall h | h in Homes(p) ensures Join(h, NameOf("x", false)) !in f {
      OutputApart(p, "x", h, "x", false);
      if Join(h, NameOf("x", false)) == KeyPath(p, "x") {
        assert KeyPath(p, "x") == Join(p.src, NameOf("x", true));
        HomesApart(p, h, "x", false, p.src, "x", true);
      }
    }
  }

  ghost predicate Loses(p: Station, files: Files, hs: seq<Happening>, n: string)
  {
    var x := History(p, Boot(files), hs);
    n in x.origin && !Preserved(p, x, n)
  }

  /**
   Everything delivered is preserved in every reachable state if and only if no file is deleted, or the
   cipher leaves its output alone when there is no encrypted file, or nothing can be decrypted at all.
   */
  lemma PreservedExactly(p: Station)
    requires Sound(p)
    ensures Safe(p) <==> forall files, hs, n :: !Loses(p, files, hs, n)
  {
    if Safe(p) {
      forall files, hs, n ensures !Loses(p, files, hs, n) {
        AlwaysPreserved(p, files, hs, n);
      }
    } else {
      var enc, key :| Delivered(p, enc, key).Some?;
      var d := Delivered(p, enc, key).value;
      var left := d.plain + "!";
      assert |left| > |d.plain|;
      StoryLoses(p, enc, key, d, left);
      assert Loses(p, map[], HalfDone(enc, key) + Spoiled(left), "x");
    }
  }

  /** A concrete station that is not safe, with the toy Vault and cipher. */
  function Unsafe(): Station
  {
    var h := Handling(Delete, "a", "f", "q");
    Station(Setup(ToyVault(), ToyCipher(), h, h, true, true), "e", "d", true)
  }

  lemma LostPlaintext()
    ensures var y := History(Unsafe(), Boot(map[]), HalfDone("m", "k") + Spoiled(""));
              "x" in y.origin && !Preserved(Unsafe(), y, "x")
  {
    var d := Delivery("m", Payload("k"), "m");
    assert Delivered(Unsafe(), "m", "k") == Some(d);
    StoryLoses(Unsafe(), "m", "k", d, "");
  }

  // --- The code's attempt --------------------------------------------------------------------

  function Runs(p: Station, x: State, f: Effort, last: bool, n: nat): State
    decreases n
  {
    if n == 0 then x else Runs(p, Next(p, x, Work(f, last)), f, last, n - 1)
  }

  /** What becomes of the files once the strategy has ended. */
  function Ended(p: Station, w: World, n: string, ok: bool, f: Effort, last: bool): World
  {
    if ok then DisposeInputs(Handlings(p), w, EncPath(p, n), KeyPath(p, n), SumPath(p, n), f)
    else PutAside(Handlings(p), w, EncPath(p, n), !last, f)
  }

  function Checked(p: Station, w: World, n: string, f: Effort): bool
  {
    p.setup.verifyChecksum ==> VerifyAt(p.setup.cipher, w, ItemOf(p, n), SumPath(p, n), f)
  }

  /** The rest of the strategy when the key is open. */
  function Decrypted(p: Station, w: World, n: string, key: string, f: Effort, last: bool): World
  {
    var enc, out := EncPath(p, n), OutPath(p, n);
    if f.crypt.Fails? || enc !in w.files || p.setup.cipher.dec(key, w.files[enc]).None? then
      Ended(p, LeaveBehind(w, out, if f.crypt.Fails? then f.crypt.left else None), n, false, f, last)
    else
      var w' := Written(w, out, p.setup.cipher.dec(key, w.files[enc]).value, Fine).world;
      Ended(p, w', n, Checked(p, w', n, f), f, last)
  }

  function Opened(p: Station, w: World, n: string, f: Effort, last: bool): World
  {
    var key := KeyPath(p, n);
    if f.readKey || key !in w.files || f.unwrap || p.setup.vault.unwrap(w.files[key]).None?
    then Ended(p, w, n, false, f, last)
    else Decrypted(p, w, n, p.setup.vault.unwrap(w.files[key]).value, f, last)
  }

  /** Where the files end if the attempt goes on without interruption. */
  function Outlook(p: Station, x: State, f: Effort, last: bool): World
  {
    var h := Handlings(p);
    match x.phase
    case Idle => x.disk
    case Opening(n) => Opened(p, x.disk, n, f, last)
    case Decrypting(n, key) => Decrypted(p, x.disk, n, key, f, last)
    case Verifying(n) => Ended(p, x.disk, n, Checked(p, x.disk, n, f), f, last)
    case DisposeEnc(n) => Ended(p, x.disk, n, true, f, last)
    case DisposeKey(n) =>
      var w := Dispose(h, x.disk, KeyPath(p, n), f.disposeKey);
      if SumPath(p, n) in w.files then Dispose(h, w, SumPath(p, n), f.disposeSum) else w
    case DisposeSum(n) =>
      if SumPath(p, n) in x.disk.files then Dispose(h, x.disk, SumPath(p, n), f.disposeSum) else x.disk
    case IntoDlq(n) => ToFailed(h, ToDlq(h, x.disk, EncPath(p, n), f.dlq), EncPath(p, n), f.failed)
    case IntoFailed(n) => ToFailed(h, x.disk, EncPath(p, n), f.failed)
  }

  function Rank(x: State): nat
  {
    match x.phase
    case Idle => 0
    case Opening(_) => 6
    case Decrypting(_, _) => 5
    case Verifying(_) => 4
    case DisposeEnc(_) => 3
    case DisposeKey(_) => 2
    case DisposeSum(_) => 1
    case IntoDlq(_) => 2
    case IntoFailed(_) => 1
  }

  /** What goes wrong is what can. */
  predicate Lawful(p: Station, x: State, f: Effort)
  {
    p.leaks || Quiet(f.crypt)
    || ((x.phase.Opening? || x.phase.Decrypting?) ==> EncPath(p, x.phase.n) in x.disk.files)
  }

  predicate GoesOn(p: Station, x: State, y: State, f: Effort, last: bool)
  {
    Lawful(p, y, f) && Rank(y) < Rank(x) && Outlook(p, y, f, last) == Outlook(p, x, f, last)
  }

  lemma OpenGoesOn(p: Station, x: State, n: string, f: Effort, last: bool)
    requires x.phase == Opening(n) && Lawful(p, x, f)
    ensures GoesOn(p, x, WorkOpen(p, x, n, f, last), f, last)
  {
  }

  lemma DecryptGoesOn(p: Station, x: State, n: string, key: string, f: Effort, last: bool)
    requires x.phase == Decrypting(n, key) && Lawful(p, x, f)
    ensures GoesOn(p, x, WorkDecrypt(p, x, n, key, f, last), f, last)
  {
  }

  lemma VerifyGoesOn(p: Station, x: State, n: string, f: Effort, last: bool)
    requires x.phase == Verifying(n)
    ensures GoesOn(p, x, WorkVerify(p, x, n, f, last), f, last)
  {
  }

  lemma MovesGoOn(p: Station, x: State, f: Effort, last: bool)
    requires !x.phase.Idle? && !x.phase.Opening? && !x.phase.Decrypting? && !x.phase.Verifying?
    ensures GoesOn(p, x, Worked(p, x, f, last), f, last)
  {
    if x.phase.DisposeEnc? { assert KeyPath(p, x.phase.n) != ""; }
  }

  lemma WorkGoesOn(p: Station, x: State, f: Effort, last: bool)
    requires !x.phase.Idle? && Lawful(p, x, f)
    ensures GoesOn(p, x, Worked(p, x, f, last), f, last) && Next(p, x, Work(f, last)) == Worked(p, x, f, last)
  {
    match x.phase
    case Opening(n) => OpenGoesOn(p, x, n, f, last);
    case Decrypting(n, key) => DecryptGoesOn(p, x, n, key, f, last);
    case Verifying(n) => VerifyGoesOn(p, x, n, f, last);
    case _ => MovesGoOn(p, x, f, last);
  }

  lemma {:induction false} RunsEnd(p: Station, x: State, f: Effort, last: bool, n: nat)
    requires Lawful(p, x, f) && n >= Rank(x)
    ensures var y := Runs(p, x, f, last, n); y.phase.Idle? && y.disk == Outlook(p, x, f, last)
    decreases n
  {
    if n > 0 {
      if !x.phase.Idle? { WorkGoesOn(p, x, f, last); }
      RunsEnd(p, Next(p, x, Work(f, last)), f, last, n - 1);
    }
  }

  /** Six steps from opening are one attempt of the processor at the item. */
  lemma StepsAreAttempt(p: Station, s: Settings, x: State, n: string, q: QueueState, it: ItemRec, f: Effort)
    requires Sound(p) && PlainName(n) && x.phase == Opening(n) && DecryptsItem(it, p.src, n, p.dst) && Lawful(p, x, f)
    ensures var y := Runs(p, x, f, IsLast(s, it.attempts + 1), 6);
              y.phase.Idle? && y.disk == ProcessSpec(p.setup, s, x.disk, q, it, f).world
  {
    RunsEnd(p, x, f, IsLast(s, it.attempts + 1), 6);
    ChecksumFound(p.src, n);
    CompanionFound(p.src, n, ".sha256");
    OpenedIsProcess(p, s, x.disk, n, q, it, f);
  }

  lemma OpenedIsStrategy(p: Station, w: World, n: string, it: ItemRec, f: Effort, last: bool)
    requires DecryptsItem(it, p.src, n, p.dst) && VerifyPath(it.source) == SumPath(p, n)
    ensures var r := Strategy(p.setup, w, it, f);
              r.item == it && Opened(p, w, n, f, last) == Ended(p, r.world, n, r.ok, f, last)
  {
  }

  lemma OpenedIsProcess(p: Station, s: Settings, w: World, n: string, q: QueueState, it: ItemRec, f: Effort)
    requires DecryptsItem(it, p.src, n, p.dst)
    requires VerifyPath(it.source) == SumPath(p, n) && DisposedChecksum(it.source) == SumPath(p, n)
    ensures Opened(p, w, n, f, IsLast(s, it.attempts + 1)) == ProcessSpec(p.setup, s, w, q, it, f).world
  {
    var began := AsProcessing(it, f.start);
    var r := Strategy(p.setup, w, began, f);
    OpenedIsStrategy(p, w, n, began, f, IsLast(s, it.attempts + 1));
    AsideIs(p.setup, s, r.world, q, r.item, f);
  }
}
