/**
 Why a service that is not safe can lose a file, and that it is exactly such services that can: the
 file is uploaded, encrypted and deleted; a second item is made for it, and its encryption fails and
 leaves something else where the first one left the encrypted file.
 */
module SecondItem {
  import opened Common
  import opened Paths
  import opened FileSystem
  import opened Transit
  import opened Envelope
  import opened Items
  import opened Queue
  import opened Watcher
  import opened Processor
  import opened SystemRuns
  import opened RetryFate
  import opened Recovery
  import opened RecoverySteps
  import opened Recoverability

  function PathOf(p: Service): string { Join(p.src, "x") }

  function Seen(p: Service, id: string): Sighting { Sighting(PathOf(p), true, 0, false, true, id, 0) }

  /** The first file is encrypted under the key of request `n`; then the cipher fails and leaves nothing of use. */
  function First(n: nat): Effort { SMOOTH.(request := n) }

  function Second(n: nat): Effort { SMOOTH.(request := n, crypt := Fails(Some(""))) }

  // --- The steps -----------------------------------------------------------------------------

  /** Nothing is going on, and nothing is queued. */
  predicate Waiting(p: Service, x: State, files: Files)
  {
    && x.phase.Idle? && x.sys.hand.None? && x.sys.q.entries == [] && x.sys.q.index == map[] && x.sys.clock == 0
    && PathOf(p) in x.origin && x.disk.files == files
  }

  /** The item for the file is in hand. */
  predicate Busied(p: Service, x: State, files: Files)
  {
    && Holding(x) && x.sys.hand.Some? && x.sys.q.entries == [] && x.sys.q.index == map[] && x.sys.clock == 0
    && x.sys.hand.value.source == PathOf(p) && Named(p, x.sys.hand.value)
    && PathOf(p) in x.origin && x.disk.files == files
  }

  /** What is known of the item and the file goes on as it was. */
  predicate Carries(x: State, y: State)
  {
    y.origin == x.origin && y.made == x.made && y.sys.log == x.sys.log
  }

  lemma NoSuffix(path: string, suffix: string)
    requires path != "" && suffix != "" && path[|path| - 1] != suffix[|suffix| - 1]
    ensures !HasSuffix(path, suffix)
  {
    assert |suffix| <= |path| ==> path[|path| - |suffix|..][|suffix| - 1] == path[|path| - 1];
  }

  lemma SeenIsMade(p: Service, id: string)
    requires Dir(PathOf(p)) == p.src
    ensures OnCreated(Folders(p), Seen(p, id)) == Some(ItemFor(Folders(p), Encrypt, Seen(p, id)))
  {
    NoSuffix(PathOf(p), ".enc");
    NoSuffix(PathOf(p), ".key");
  }

  lemma SeenItem(p: Service, id: string)
    requires Sound(p)
    ensures var it := OnCreated(Folders(p), Seen(p, id));
              && it.Some? && IsNew(it.value) && it.value.id == id && it.value.source == PathOf(p)
              && Named(p, it.value)
  {
    SplitOfJoin(p.src, "x");
    EncryptionNames(p.src, p.dst, "x");
    SeenIsMade(p, id);
  }

  lemma AdmitIt(p: Service, x: State, s: Sighting, it: ItemRec, files: Files)
    requires Waiting(p, x, files) && s.id !in x.made && s.id !in x.sys.log && s.path == PathOf(p)
    requires OnCreated(Folders(p), s) == Some(it) && it.id == s.id && IsNew(it)
    ensures var y := Next(p, x, Admit(s));
              y == x.(sys := Arrived(x.sys, it), made := x.made[s.id := PathOf(p)], again := y.again)
  {
  }

  lemma PollIt(x: Sys, it: ItemRec)
    requires x.q.entries == [] && x.q.index == map[] && x.hand.None? && IsNew(it)
    ensures var y := Polled(Arrived(x, it), 0, 0);
              && y.hand == Some(AsProcessing(it, 0)) && y.q.entries == [] && y.q.index == map[] && y.clock == 0
              && y.log == x.log + [it.id]
  {
    var arrived := Arrived(x, it);
    assert arrived.q.entries == [Entry(x.q.next, it)];
    assert FirstReady(arrived.q.entries, 0) == 0;
  }

  lemma TakeIt(p: Service, x: State, y: State, it: ItemRec, files: Files)
    requires Waiting(p, x, files) && IsNew(it) && it.source == PathOf(p) && Named(p, it)
    requires y == x.(sys := Arrived(x.sys, it), made := y.made, again := y.again)
    ensures var z := Next(p, y, Take(0, 0));
              && Busied(p, z, files) && z.phase.Summing?
              && z.origin == x.origin && z.made == y.made && z.sys.log == x.sys.log + [it.id]
  {
    PollIt(x.sys, it);
    assert Next(p, y, Take(0, 0)) == Taken(p, y, 0, 0);
  }

  lemma BeginIt(p: Service, x: State, id: string, files: Files)
    requires Sound(p) && Waiting(p, x, files) && id !in x.made && id !in x.sys.log
    ensures var y := Next(p, Next(p, x, Admit(Seen(p, id))), Take(0, 0));
              && Busied(p, y, files) && y.phase.Summing? && y.origin == x.origin
              && y.made == x.made[id := PathOf(p)] && y.sys.log == x.sys.log + [id]
  {
    SeenItem(p, id);
    var it := OnCreated(Folders(p), Seen(p, id)).value;
    AdmitIt(p, x, Seen(p, id), it, files);
    TakeIt(p, x, Next(p, x, Admit(Seen(p, id))), it, files);
  }

  /** With the checksum off there is nothing to do first. */
  lemma SumIt(p: Service, x: State, f: Effort, files: Files)
    requires Busied(p, x, files) && x.phase.Summing? && !p.setup.calculateChecksum
    ensures var y := Next(p, x, Work(f));
              Busied(p, y, files) && y.phase.Encrypting? && Carries(x, y)
  {
  }

  lemma EncryptIt(p: Service, x: State, n: nat, files: Files)
    requires Busied(p, x, files) && x.phase.Encrypting? && PathOf(p) in files && p.setup.vault.generate(n).Some?
    ensures var y := Next(p, x, Work(First(n)));
            var key := p.setup.vault.generate(n).value;
            var body := p.setup.cipher.enc(key.plaintext, 0, files[PathOf(p)]);
              Busied(p, y, files[DestOf(p, PathOf(p)) := body]) && y.phase == SavingKey(key.ciphertext) && Carries(x, y)
  {
    var body := p.setup.cipher.enc(p.setup.vault.generate(n).value.plaintext, 0, files[PathOf(p)]);
    WrittenFiles(x.disk, x.sys.hand.value.dest, body, Fine);
  }

  lemma SaveIt(p: Service, x: State, n: nat, ciphertext: string, files: Files)
    requires Busied(p, x, files) && x.phase == SavingKey(ciphertext)
    ensures var y := Next(p, x, Work(First(n)));
              Busied(p, y, files[KeyOf(p, PathOf(p)) := ciphertext]) && y.phase == Settling(true) && Carries(x, y)
  {
    WrittenFiles(x.disk, x.sys.hand.value.keyPath, ciphertext, Fine);
  }

  lemma SettleIt(p: Service, x: State, n: nat, files: Files)
    requires Busied(p, x, files) && x.phase == Settling(true)
    ensures var y := Next(p, x, Work(First(n)));
              && Waiting(p, y.(phase := Idle), files) && y.phase == Disposing(PathOf(p)) && Carries(x, y)
  {
  }

  lemma DeleteIt(p: Service, x: State, n: nat, files: Files)
    requires Waiting(p, x.(phase := Idle), files) && x.phase == Disposing(PathOf(p)) && PathOf(p) in files
    requires Handlings(p).behavior.Delete?
    ensures var y := Next(p, x, Work(First(n)));
              Waiting(p, y, files - {PathOf(p)}) && Carries(x, y)
  {
  }

  lemma RuinIt(p: Service, x: State, n: nat, files: Files)
    requires Busied(p, x, files) && x.phase.Encrypting? && p.leaks && p.setup.vault.generate(n).Some?
    ensures var y := Next(p, x, Work(Second(n)));
              y.disk.files == files[DestOf(p, PathOf(p)) := ""] && Carries(x, y)
  {
  }

  // --- The story -----------------------------------------------------------------------------

  /** From a waiting service with the file there to one with an encrypted pair and no file. */
  function Deleted(p: Service, n: nat): seq<Happening>
  {
    [Admit(Seen(p, "1")), Take(0, 0)]
    + [Work(First(n)), Work(First(n)), Work(First(n)), Work(First(n)), Work(First(n))]
  }

  function Ruined(p: Service, n: nat): seq<Happening>
  {
    [Admit(Seen(p, "2")), Take(0, 0), Work(First(n)), Work(Second(n))]
  }

  function Story(p: Service, n: nat, bytes: string): seq<Happening>
  {
    [Upload("x", bytes)] + Deleted(p, n) + Ruined(p, n)
  }

  lemma {:induction false} HistoryConcat(p: Service, x: State, a: seq<Happening>, b: seq<Happening>)
    ensures History(p, x, a + b) == History(p, History(p, x, a), b)
  {
    if b == [] {
      assert a + b == a;
    } else {
      HistoryConcat(p, x, a, b[..|b| - 1]);
      assert (a + b)[..|a + b| - 1] == a + b[..|b| - 1];
    }
  }

  lemma HistoryTwo(p: Service, x: State, a: Happening, b: Happening)
    ensures History(p, x, [a, b]) == Next(p, Next(p, x, a), b)
  {
    HistoryOne(p, x, a);
    HistorySnoc(p, x, [a], b);
    assert [a] + [b] == [a, b];
  }

  lemma HistoryFour(p: Service, x: State, a: Happening, b: Happening, c: Happening, d: Happening)
    ensures History(p, x, [a, b, c, d]) == Next(p, Next(p, Next(p, Next(p, x, a), b), c), d)
  {
    assert [a, b, c, d] == [a, b] + [c, d];
    HistoryConcat(p, x, [a, b], [c, d]);
    HistoryTwo(p, x, a, b);
    HistoryTwo(p, History(p, x, [a, b]), c, d);
  }

  lemma HistoryOne(p: Service, x: State, a: Happening)
    ensures History(p, x, [a]) == Next(p, x, a)
  {
    assert [a][..0] == [];
  }

  /** The files when the pair is made and the source deleted. */
  function Left(p: Service, n: nat, files: Files): Files
    requires p.setup.vault.generate(n).Some? && PathOf(p) in files
  {
    var key := p.setup.vault.generate(n).value;
    var body := p.setup.cipher.enc(key.plaintext, 0, files[PathOf(p)]);
    files[DestOf(p, PathOf(p)) := body][KeyOf(p, PathOf(p)) := key.ciphertext] - {PathOf(p)}
  }

  lemma DeletedLeaves(p: Service, x: State, n: nat, files: Files)
    requires Sound(p) && Waiting(p, x, files) && "1" !in x.made && "1" !in x.sys.log && PathOf(p) in files
    requires !p.setup.calculateChecksum && Handlings(p).behavior.Delete? && p.setup.vault.generate(n).Some?
    ensures var y := History(p, x, Deleted(p, n));
              && Waiting(p, y, Left(p, n, files)) && y.origin == x.origin
              && y.made == x.made["1" := PathOf(p)] && y.sys.log == x.sys.log + ["1"]
  {
    var key := p.setup.vault.generate(n).value;
    var files1 := files[DestOf(p, PathOf(p)) := p.setup.cipher.enc(key.plaintext, 0, files[PathOf(p)])];
    var files2 := files1[KeyOf(p, PathOf(p)) := key.ciphertext];
    var w := Work(First(n));
    var x1 := Next(p, Next(p, x, Admit(Seen(p, "1"))), Take(0, 0));
    var x2, x3 := Next(p, x1, w), Next(p, Next(p, x1, w), w);
    var x4, x5 := Next(p, x3, w), Next(p, Next(p, x3, w), w);
    BeginIt(p, x, "1", files);
    SumIt(p, x1, First(n), files);
    EncryptIt(p, x2, n, files);
    SaveIt(p, x3, n, key.ciphertext, files1);
    SettleIt(p, x4, n, files2);
    DeleteIt(p, x5, n, files2);
    WorkFive(p, x, Admit(Seen(p, "1")), Take(0, 0), w);
  }

  lemma WorkFive(p: Service, x: State, a: Happening, b: Happening, w: Happening)
    ensures History(p, x, [a, b] + [w, w, w, w, w])
         == Next(p, Next(p, Next(p, Next(p, Next(p, Next(p, Next(p, x, a), b), w), w), w), w), w)
  {
    var x1 := History(p, x, [a, b]);
    HistoryTwo(p, x, a, b);
    HistoryConcat(p, x, [a, b], [w, w, w, w, w]);
    assert [w, w, w, w, w] == [w, w] + [w, w] + [w];
    HistoryConcat(p, x1, [w, w] + [w, w], [w]);
    HistoryConcat(p, x1, [w, w], [w, w]);
    HistoryTwo(p, x1, w, w);
    HistoryTwo(p, History(p, x1, [w, w]), w, w);
    HistoryOne(p, History(p, x1, [w, w] + [w, w]), w);
  }

  lemma RuinedLeaves(p: Service, x: State, n: nat, files: Files)
    requires Sound(p) && Waiting(p, x, files) && "2" !in x.made && "2" !in x.sys.log
    requires !p.setup.calculateChecksum && p.leaks && p.setup.vault.generate(n).Some?
    ensures var y := History(p, x, Ruined(p, n));
              y.disk.files == files[DestOf(p, PathOf(p)) := ""] && y.origin == x.origin
  {
    var x1 := Next(p, Next(p, x, Admit(Seen(p, "2"))), Take(0, 0));
    BeginIt(p, x, "2", files);
    SumIt(p, x1, First(n), files);
    RuinIt(p, Next(p, x1, Work(First(n))), n, files);
    HistoryFour(p, x, Admit(Seen(p, "2")), Take(0, 0), Work(First(n)), Work(Second(n)));
  }

  lemma UploadWaits(p: Service, bytes: string)
    requires Sound(p)
    ensures var y := History(p, Boot(map[], 0), [Upload("x", bytes)]);
              && Waiting(p, y, map[PathOf(p) := bytes]) && y.origin == map[PathOf(p) := bytes]
              && y.made == map[] && y.sys.log == []
  {
    HistoryOne(p, Boot(map[], 0), Upload("x", bytes));
  }

  lemma StoryEnds(p: Service, n: nat, bytes: string)
    requires Sound(p) && !Safe(p) && p.setup.vault.generate(n).Some?
    ensures var x := History(p, Boot(map[], 0), [Upload("x", bytes)] + Deleted(p, n));
              x.disk.files == Left(p, n, map[PathOf(p) := bytes])
    ensures var y := History(p, Boot(map[], 0), Story(p, n, bytes));
              && y.disk.files == Left(p, n, map[PathOf(p) := bytes])[DestOf(p, PathOf(p)) := ""]
              && y.origin == map[PathOf(p) := bytes]
  {
    var x0 := Boot(map[], 0);
    var upload := [Upload("x", bytes)];
    var x1 := History(p, x0, upload);
    var x2 := History(p, x1, Deleted(p, n));
    UploadWaits(p, bytes);
    DeletedLeaves(p, x1, n, map[PathOf(p) := bytes]);
    RuinedLeaves(p, x2, n, Left(p, n, map[PathOf(p) := bytes]));
    HistoryConcat(p, x0, upload, Deleted(p, n));
    HistoryConcat(p, x0, upload + Deleted(p, n), Ruined(p, n));
  }

  /** What is left after the first item is a good pair, and nothing but that. */
  lemma LeftIsGood(p: Service, n: nat, bytes: string)
    requires Sound(p) && p.setup.vault.generate(n).Some?
    ensures var files := Left(p, n, map[PathOf(p) := bytes]);
              && PairOf(p, files, PathOf(p)) == Some(bytes) && NameFree(p, files, "x")
              && NameFree(p, files[DestOf(p, PathOf(p)) := ""], "x") && KeyOf(p, PathOf(p)) in files
              && DestOf(p, PathOf(p)) != KeyOf(p, PathOf(p))
              && files[KeyOf(p, PathOf(p))] == p.setup.vault.generate(n).value.ciphertext
  {
    var key := p.setup.vault.generate(n).value;
    SplitOfJoin(p.src, "x");
    OutputsDisjoint(p.dst, "x", 0, "x", 1);
    forall d | d in Homes(p) ensures Join(d, "x") !in {DestOf(p, PathOf(p)), KeyOf(p, PathOf(p))} {
      OutputNotAtHome(p, "x", 0, d, "x");
      OutputNotAtHome(p, "x", 1, d, "x");
    }
    assert p.src in Homes(p);
    forall d | d in Homes(p) && Join(d, "x") == PathOf(p) ensures d == p.src {
      JoinInjective(d, "x", p.src, "x");
    }
    assert p.setup.cipher.dec(key.plaintext, p.setup.cipher.enc(key.plaintext, 0, bytes)) == Some(bytes);
  }

  /**
   The story loses the file: before the second item a good pair stands for it; after it, its bytes are
   in no home, and the pair does not decrypt to them, unless the empty text happens to do so.
   */
  lemma StoryLoses(p: Service, n: nat, bytes: string)
    requires Sound(p) && !Safe(p) && p.setup.vault.generate(n).Some?
    requires p.setup.cipher.dec(p.setup.vault.generate(n).value.plaintext, "") != Some(bytes)
    ensures var x := History(p, Boot(map[], 0), [Upload("x", bytes)] + Deleted(p, n));
              NameFree(p, x.disk.files, "x") && PairOf(p, x.disk.files, PathOf(p)) == Some(bytes)
    ensures var y := History(p, Boot(map[], 0), Story(p, n, bytes));
              PathOf(p) in y.origin && !Recoverable(p, y, PathOf(p))
  {
    var y := History(p, Boot(map[], 0), Story(p, n, bytes));
    StoryEnds(p, n, bytes);
    LeftIsGood(p, n, bytes);
    SplitOfJoin(p.src, "x");
    assert PairOf(p, y.disk.files, PathOf(p)) != Some(bytes);
  }

  ghost predicate Loses(p: Service, files: Files, clock: int, hs: seq<Happening>, path: string)
  {
    var x := History(p, Boot(files, clock), hs);
    path in x.origin && !Recoverable(p, x, path)
  }

  /**
   Every file is recoverable in every reachable state, with any repeated items and any saved lists, if and
   only if the checksum is on, or files are not deleted, or the cipher leaves its output alone when there
   is no source file (or Vault never hands out a key).
   */
  lemma RecoverableExactly(p: Service)
    requires Sound(p)
    ensures Safe(p) <==> forall files, clock, hs, path :: !Loses(p, files, clock, hs, path)
  {
    if Safe(p) {
      forall files, clock, hs, path ensures !Loses(p, files, clock, hs, path) {
        AlwaysRecoverable(p, files, clock, hs, path);
      }
    } else {
      var n: nat :| p.setup.vault.generate(n).Some?;
      var ruin := p.setup.cipher.dec(p.setup.vault.generate(n).value.plaintext, "");
      var bytes := if ruin == Some("a") then "b" else "a";
      StoryLoses(p, n, bytes);
      assert Loses(p, map[], 0, Story(p, n, bytes), PathOf(p));
    }
  }

  /** A concrete service that is not safe, with the toy Vault and cipher. */
  function Unsafe(): Service
  {
    var h := Handling(Delete, "a", "f", "q");
    Service(Setup(ToyVault(), ToyCipher(), h, h, false, false), Settings(3, 1, 60), "s", "d", true)
  }

  lemma LostFile()
    ensures var y := History(Unsafe(), Boot(map[], 0), Story(Unsafe(), 0, "m"));
              "s/x" in y.origin && !Recoverable(Unsafe(), y, "s/x")
  {
    LawsAreConsistent();
    assert Unsafe().setup.vault.generate(0).Some?;
    assert PathOf(Unsafe()) == "s/x";
    StoryLoses(Unsafe(), 0, "m");
  }
}
