/** Processing one item: the two strategies, where the source file goes afterwards, and the processor loop. */
module Processor {
  import opened Common
  import opened Paths
  import opened FileSystem
  import opened Transit
  import opened Envelope
  import opened Items
  import opened Queue
  import opened QueueRuns
  import opened Watcher

  // --- File handler --------------------------------------------------------------------------

  datatype Behavior = Delete | Archive | Keep

  /** Keep stands for every behaviour but delete and archive; an empty directory disables the move into it. */
  datatype Handling = Handling(behavior: Behavior, archiveDir: string, failedDir: string, dlqDir: string)

  function MoveInto(w: World, path: string, dir: string, fails: bool): World
  {
    if fails || path !in w.files then w else w.Move(path, Join(dir, Base(path)))
  }

  function Dispose(h: Handling, w: World, path: string, fails: bool): World
  {
    match h.behavior
    case Delete => if fails || path !in w.files then w else w.Drop(path)
    case Archive => MoveInto(w, path, h.archiveDir, fails)
    case Keep => w
  }

  function ToFailed(h: Handling, w: World, path: string, fails: bool): World
  {
    if h.failedDir == "" then w else MoveInto(w, path, h.failedDir, fails)
  }

  function ToDlq(h: Handling, w: World, path: string, fails: bool): World
  {
    if h.dlqDir == "" then w else MoveInto(w, path, h.dlqDir, fails)
  }

  class FileHandler {
    const h: Handling

    constructor (h: Handling)
      ensures this.h == h
    {
      this.h := h;
    }

    method HandleSourceFile(disk: Disk, path: string, fails: bool)
      modifies disk
      ensures disk.View() == Dispose(h, old(disk.View()), path, fails)
      ensures h.behavior.Delete? && !fails ==> path !in disk.files
      ensures h.behavior.Archive? && !fails && path in old(disk.files) ==>
                Lookup(disk.files, Join(h.archiveDir, Base(path))) == Some(old(disk.files)[path])
    {
      match h.behavior
      case Delete => var _ := disk.Remove(path, fails);
      case Archive => var _ := disk.Rename(path, Join(h.archiveDir, Base(path)), fails);
      case Keep =>
    }

    method MoveToFailed(disk: Disk, path: string, fails: bool)
      modifies disk
      ensures disk.View() == ToFailed(h, old(disk.View()), path, fails)
    {
      if h.failedDir == "" { return; }
      var _ := disk.Rename(path, Join(h.failedDir, Base(path)), fails);
    }

    method MoveToDLQ(disk: Disk, item: Item, fails: bool)
      modifies disk
      ensures disk.View() == ToDlq(h, old(disk.View()), item.source, fails)
    {
      if h.dlqDir == "" { return; }
      var _ := disk.Rename(item.source, Join(h.dlqDir, Base(item.source)), fails);
    }
  }

  // --- Strategies ----------------------------------------------------------------------------

  /** Everything outside the program that decides how one item is processed. */
  datatype Effort = Effort(
    start: int, finish: int, err: string,  // clock readings, and the text of an error if there is one
    sum: bool, saveSum: WriteFault,        // computing and saving the checksum
    request: nat, salt: nat, crypt: CryptFault, saveKey: WriteFault,
    readKey: bool, unwrap: bool,           // decryption: reading the key file, asking Vault
    loadSum: bool, verify: bool,           // decryption: reading the checksum, computing the actual one
    dlq: bool, failed: bool, dispose: bool, disposeKey: bool, disposeSum: bool)

  datatype Step = Step(world: World, item: ItemRec, ok: bool)

  /** Computing the checksum of the source and saving it to `path`. */
  function SumAt(c: Cipher, w: World, it: ItemRec, path: string, f: Effort): Step
  {
    if f.sum || it.source !in w.files then Step(w, it, false) else
      var sum := c.hash(w.files[it.source]);
      var r := Written(w, path, sum, f.saveSum);
      Step(r.world, if r.ok then it.(checksum := sum, checksumPath := path) else it.(checksum := sum), r.ok)
  }

  /** The checksum part of EncryptStrategy.Process. */
  function SumStep(c: Cipher, on: bool, w: World, it: ItemRec, path: string, f: Effort): Step
  {
    if on then SumAt(c, w, it, path, f) else Step(w, it, true)
  }

  function CryptStep(v: Vault, c: Cipher, w: World, it: ItemRec, f: Effort): Encrypted
  {
    EncryptSpec(v, c, w, it.source, it.dest, f.request, f.salt, f.crypt)
  }

  /** EncryptStrategy.Process, saving the checksum (if any) to `sumPath`. */
  function EncryptProcess(v: Vault, c: Cipher, on: bool, w: World, it: ItemRec, sumPath: string, f: Effort): Step
  {
    var s := SumStep(c, on, w, it, sumPath, f);
    if !s.ok then s else
      var e := CryptStep(v, c, s.world, s.item, f);
      if e.ciphertext.None? then Step(e.world, s.item, false) else
        var k := Written(e.world, s.item.keyPath, e.ciphertext.value, f.saveKey);
        Step(k.world, s.item, k.ok)
  }

  /** White space in ASCII. */
  predicate IsSpace(ch: char) { ch == ' ' || '\t' <= ch <= '\r' }

  /** `strings.TrimSpace` on ASCII. */
  function TrimSpace(s: string): string
  {
    if s != "" && IsSpace(s[0]) then TrimSpace(s[1..])
    else if s != "" && IsSpace(s[|s| - 1]) then TrimSpace(s[..|s| - 1])
    else s
  }

  function VerifyStep(c: Cipher, w: World, it: ItemRec, f: Effort): bool
  {
    VerifyAt(c, w, it, VerifyPath(it.source), f)
  }

  /** Checksum verification: skipped when the checksum file is missing or unreadable. */
  function VerifyAt(c: Cipher, w: World, it: ItemRec, path: string, f: Effort): bool
  {
    if path !in w.files || f.loadSum then true
    else !f.verify && it.dest in w.files && c.hash(w.files[it.dest]) == TrimSpace(w.files[path])
  }

  function DecryptProcess(v: Vault, c: Cipher, on: bool, w: World, it: ItemRec, f: Effort): Step
  {
    var d := DecryptSpec(v, c, w, it.source, it.keyPath, it.dest, f.readKey, f.unwrap, f.crypt);
    Step(d.world, it, d.ok && (on ==> VerifyStep(c, d.world, it, f)))
  }

  class EncryptStrategy {
    const encryptor: Encryptor
    const calculateChecksum: bool

    constructor (encryptor: Encryptor, calculateChecksum: bool)
      ensures this.encryptor == encryptor && this.calculateChecksum == calculateChecksum
    {
      this.encryptor, this.calculateChecksum := encryptor, calculateChecksum;
    }

    method SaveSum(disk: Disk, item: Item, path: string, f: Effort) returns (ok: bool)
      modifies disk, item
      ensures Step(disk.View(), item.View(), ok)
           == SumAt(encryptor.cipher, old(disk.View()), old(item.View()), path, f)
    {
      if f.sum || item.source !in disk.files { return false; }
      item.checksum := encryptor.cipher.hash(disk.files[item.source]);
      ok := disk.WriteFile(path, item.checksum, f.saveSum);
      if ok { item.checksumPath := path; }
    }

    method Process(disk: Disk, item: Item, f: Effort) returns (ok: bool)
      modifies disk, item
      ensures Step(disk.View(), item.View(), ok)
           == EncryptProcess(encryptor.vault, encryptor.cipher, calculateChecksum, old(disk.View()), old(item.View()),
                             ChecksumPath(old(item.dest), item.source), f)
    {
      if calculateChecksum {
        var saved := SaveSum(disk, item, ChecksumPath(item.dest, item.source), f);
        if !saved { return false; }
      }
      ghost var it := item.View();
      var ciphertext := encryptor.EncryptFile(disk, item.source, item.dest, f.request, f.salt, f.crypt);
      if ciphertext.None? { return false; }
      ok := disk.WriteFile(item.keyPath, ciphertext.value, f.saveKey);
      assert item.View() == it;
    }
  }

  class DecryptStrategy {
    const decryptor: Decryptor
    const verifyChecksum: bool

    constructor (decryptor: Decryptor, verifyChecksum: bool)
      ensures this.decryptor == decryptor && this.verifyChecksum == verifyChecksum
    {
      this.decryptor, this.verifyChecksum := decryptor, verifyChecksum;
    }

    /** Compares the decrypted file with the checksum recorded at `path`, if that can be read. */
    method Verify(disk: Disk, item: Item, path: string, f: Effort) returns (ok: bool)
      ensures ok == VerifyAt(decryptor.cipher, disk.View(), item.View(), path, f)
    {
      if path !in disk.files || f.loadSum { return true; }
      var expected := TrimSpace(disk.files[path]);
      if f.verify || item.dest !in disk.files { return false; }
      ok := decryptor.cipher.hash(disk.files[item.dest]) == expected;
    }

    method Process(disk: Disk, item: Item, f: Effort) returns (ok: bool)
      modifies disk
      ensures Step(disk.View(), item.View(), ok)
           == DecryptProcess(decryptor.vault, decryptor.cipher, verifyChecksum, old(disk.View()), item.View(), f)
    {
      ok := decryptor.DecryptFile(disk, item.source, item.keyPath, item.dest, f.readKey, f.unwrap, f.crypt);
      if ok && verifyChecksum {
        ok := Verify(disk, item, VerifyPath(item.source), f);
      }
    }
  }

  // --- One item ------------------------------------------------------------------------------

  datatype Setup = Setup(
    vault: Vault, cipher: Cipher,
    encrypt: Handling, decrypt: Handling,
    calculateChecksum: bool, verifyChecksum: bool)

  /** The strategy chosen by the operation; an unknown operation is an error. */
  function Strategy(p: Setup, w: World, it: ItemRec, f: Effort): Step
  {
    match it.operation
    case Encrypt =>
      EncryptProcess(p.vault, p.cipher, p.calculateChecksum, w, it, ChecksumPath(it.dest, it.source), f)
    case Decrypt => DecryptProcess(p.vault, p.cipher, p.verifyChecksum, w, it, f)
    case Other => Step(w, it, false)
  }

  datatype Processed = Processed(world: World, q: QueueState, item: ItemRec)

  /** The file of a failed attempt goes to the DLQ if it was not requeued, then to failed if it is still there. */
  function PutAside(h: Handling, w: World, path: string, requeued: bool, f: Effort): World
  {
    ToFailed(h, if requeued then w else ToDlq(h, w, path, f.dlq), path, f.failed)
  }

  function AfterFailure(p: Setup, s: Settings, w: World, q: QueueState, it: ItemRec, f: Effort): Processed
  {
    var r := RequeueSpec(s, q, it, f.err, f.finish);
    var world :=
      match it.operation
      case Encrypt => PutAside(p.encrypt, w, it.source, r.ok, f)
      case Decrypt => PutAside(p.decrypt, w, it.source, r.ok, f)
      case Other => w;
    Processed(world, r.q, r.item)
  }

  /** The three input files of a decryption. */
  function DisposeInputs(h: Handling, w: World, source: string, keyPath: string, sumPath: string, f: Effort): World
  {
    var w1 := Dispose(h, w, source, f.dispose);
    var w2 := if keyPath == "" then w1 else Dispose(h, w1, keyPath, f.disposeKey);
    if sumPath in w2.files then Dispose(h, w2, sumPath, f.disposeSum) else w2
  }

  function AfterSuccess(p: Setup, w: World, q: QueueState, it: ItemRec, f: Effort): Processed
  {
    var world :=
      match it.operation
      case Encrypt => Dispose(p.encrypt, w, it.source, f.dispose)
      case Decrypt => DisposeInputs(p.decrypt, w, it.source, it.keyPath, DisposedChecksum(it.source), f)
      case Other => w;
    Processed(world, q, AsCompleted(it, f.finish))
  }

  function ProcessSpec(p: Setup, s: Settings, w: World, q: QueueState, it: ItemRec, f: Effort): Processed
  {
    var r := Strategy(p, w, AsProcessing(it, f.start), f);
    if r.ok then AfterSuccess(p, r.world, q, r.item, f) else AfterFailure(p, s, r.world, q, r.item, f)
  }

  class Processor {
    const queue: Queue
    const disk: Disk
    const setup: Setup
    const encryptStrategy: EncryptStrategy
    const decryptStrategy: DecryptStrategy
    const fileHandler: FileHandler
    const decryptFileHandler: FileHandler

    ghost predicate Valid()
    {
      && encryptStrategy.encryptor.vault == setup.vault && encryptStrategy.encryptor.cipher == setup.cipher
      && decryptStrategy.decryptor.vault == setup.vault && decryptStrategy.decryptor.cipher == setup.cipher
      && encryptStrategy.calculateChecksum == setup.calculateChecksum
      && decryptStrategy.verifyChecksum == setup.verifyChecksum
      && fileHandler.h == setup.encrypt && decryptFileHandler.h == setup.decrypt
    }

    constructor (queue: Queue, disk: Disk, p: Setup)
      ensures Valid() && this.queue == queue && this.disk == disk && setup == p
    {
      this.queue, this.disk, this.setup := queue, disk, p;
      var e := new Encryptor(p.vault, p.cipher);
      var d := new Decryptor(p.vault, p.cipher);
      encryptStrategy := new EncryptStrategy(e, p.calculateChecksum);
      decryptStrategy := new DecryptStrategy(d, p.verifyChecksum);
      fileHandler := new FileHandler(p.encrypt);
      decryptFileHandler := new FileHandler(p.decrypt);
    }

    /** Runs the strategy for the item's operation. */
    method RunStrategy(item: Item, f: Effort) returns (ok: bool)
      requires Valid()
      modifies disk, item
      ensures Step(disk.View(), item.View(), ok) == Strategy(setup, old(disk.View()), old(item.View()), f)
    {
      match item.operation
      case Encrypt => ok := encryptStrategy.Process(disk, item, f);
      case Decrypt => ok := decryptStrategy.Process(disk, item, f);
      case Other => ok := false;
    }

    method PutFileAside(handler: FileHandler, item: Item, requeued: bool, f: Effort)
      modifies disk
      ensures disk.View() == PutAside(handler.h, old(disk.View()), item.source, requeued, f)
    {
      if !requeued { handler.MoveToDLQ(disk, item, f.dlq); }
      handler.MoveToFailed(disk, item.source, f.failed);
    }

    method GiveBack(item: Item, f: Effort)
      requires Valid() && item !in queue.Objects()
      modifies queue, disk, item
      ensures Processed(disk.View(), queue.State(), item.View())
           == AfterFailure(setup, queue.settings, old(disk.View()), old(queue.State()), old(item.View()), f)
      ensures queue.Objects() <= old(queue.Objects()) + {item}
    {
      var requeued := queue.Requeue(item, f.err, f.finish);
      ghost var q, it := queue.State(), item.View();
      match item.operation {
        case Encrypt => PutFileAside(fileHandler, item, requeued, f);
        case Decrypt => PutFileAside(decryptFileHandler, item, requeued, f);
        case Other =>
      }
      assert queue.State() == q && item.View() == it;
    }

    method DisposeOfInputs(source: string, keyPath: string, sumPath: string, f: Effort)
      modifies disk
      ensures disk.View() == DisposeInputs(decryptFileHandler.h, old(disk.View()), source, keyPath, sumPath, f)
    {
      decryptFileHandler.HandleSourceFile(disk, source, f.dispose);
      if keyPath != "" { decryptFileHandler.HandleSourceFile(disk, keyPath, f.disposeKey); }
      if sumPath in disk.files { decryptFileHandler.HandleSourceFile(disk, sumPath, f.disposeSum); }
    }

    /** Disposes of what the item's operation took as input. */
    method DisposeFor(item: Item, f: Effort)
      requires Valid()
      modifies disk
      ensures disk.View() == AfterSuccess(setup, old(disk.View()), Fresh(0), item.View(), f).world
    {
      match item.operation {
        case Encrypt => fileHandler.HandleSourceFile(disk, item.source, f.dispose);
        case Decrypt => DisposeOfInputs(item.source, item.keyPath, DisposedChecksum(item.source), f);
        case Other =>
      }
    }

    method Finish(item: Item, f: Effort)
      requires Valid() && item !in queue.Objects()
      modifies disk, item
      ensures Processed(disk.View(), queue.State(), item.View())
           == AfterSuccess(setup, old(disk.View()), old(queue.State()), old(item.View()), f)
    {
      ghost var q := queue.State();
      item.MarkCompleted(f.finish);
      ghost var it := item.View();
      DisposeFor(item, f);
      assert queue.State() == q && item.View() == it;
    }

    method ProcessItem(item: Item, f: Effort)
      requires Valid() && item !in queue.Objects()
      modifies queue, disk, item
      ensures Processed(disk.View(), queue.State(), item.View())
           == ProcessSpec(setup, queue.settings, old(disk.View()), old(queue.State()), old(item.View()), f)
      ensures queue.Objects() <= old(queue.Objects()) + {item}
    {
      ghost var q := queue.State();
      item.MarkProcessing(f.start);
      var ok := RunStrategy(item, f);
      assert queue.State() == q;
      if ok { Finish(item, f); } else { GiveBack(item, f); }
    }

    /** One tick of the processor: take the next ready item, if any, and process it. */
    method Tick(now: int, f: Effort)
      requires Valid() && IndexAgrees(queue.State())
      modifies queue, disk, queue.Objects()
      ensures Plant(disk.View(), queue.State())
           == TickSpec(setup, queue.settings, old(Plant(disk.View(), queue.State())), now, f)
      ensures queue.Objects() <= old(queue.Objects())
    {
      var item := queue.Dequeue(now);
      if item != null { ProcessItem(item, f); }
    }

    /** The processor loop, until it is cancelled after these ticks. */
    method Start(ticks: seq<(int, Effort)>)
      requires Valid() && IndexAgrees(queue.State())
      modifies queue, disk, queue.Objects()
      ensures Plant(disk.View(), queue.State())
           == TicksSpec(setup, queue.settings, old(Plant(disk.View(), queue.State())), ticks)
      ensures IndexAgrees(queue.State())
    {
      ghost var begin := Plant(disk.View(), queue.State());
      var i := 0;
      while i < |ticks|
        invariant i <= |ticks| && IndexAgrees(queue.State()) && queue.Objects() <= old(queue.Objects())
        invariant Plant(disk.View(), queue.State()) == TicksSpec(setup, queue.settings, begin, ticks[..i])
      {
        TicksSnoc(setup, queue.settings, begin, ticks, i);
        TickAgrees(setup, queue.settings, Plant(disk.View(), queue.State()), ticks[i].0, ticks[i].1);
        Tick(ticks[i].0, ticks[i].1);
        i := i + 1;
      }
      assert ticks[..i] == ticks;
    }
  }

  datatype Plant = Plant(world: World, q: QueueState)

  function TickSpec(p: Setup, s: Settings, x: Plant, now: int, f: Effort): Plant
  {
    var d := DequeueSpec(x.q, now);
    match d.item
    case None => x
    case Some(it) => var r := ProcessSpec(p, s, x.world, d.q, it, f); Plant(r.world, r.q)
  }

  function TicksSpec(p: Setup, s: Settings, x: Plant, ticks: seq<(int, Effort)>): Plant
  {
    if ticks == [] then x else
      var t := ticks[|ticks| - 1];
      TickSpec(p, s, TicksSpec(p, s, x, ticks[..|ticks| - 1]), t.0, t.1)
  }

  lemma TicksSnoc(p: Setup, s: Settings, x: Plant, ticks: seq<(int, Effort)>, i: nat)
    requires i < |ticks|
    ensures TicksSpec(p, s, x, ticks[..i + 1])
         == TickSpec(p, s, TicksSpec(p, s, x, ticks[..i]), ticks[i].0, ticks[i].1)
  {
    assert ticks[..i + 1][..i] == ticks[..i];
  }

  lemma EncryptKeepsId(v: Vault, c: Cipher, on: bool, w: World, it: ItemRec, sumPath: string, f: Effort)
    ensures EncryptProcess(v, c, on, w, it, sumPath, f).item.id == it.id
  {
  }

  lemma StrategyKeepsId(p: Setup, w: World, it: ItemRec, f: Effort)
    ensures Strategy(p, w, it, f).item.id == it.id
  {
    match it.operation
    case Encrypt => EncryptKeepsId(p.vault, p.cipher, p.calculateChecksum, w, it, ChecksumPath(it.dest, it.source), f);
    case Decrypt => assert DecryptProcess(p.vault, p.cipher, p.verifyChecksum, w, it, f).item == it;
    case Other =>
  }

  /** The processor only gives back what it took, so it keeps the index in agreement. */
  lemma TickAgrees(p: Setup, s: Settings, x: Plant, now: int, f: Effort)
    requires IndexAgrees(x.q)
    ensures IndexAgrees(TickSpec(p, s, x, now, f).q)
  {
    var k := FirstReady(x.q.entries, now);
    if k < |x.q.entries| {
      var it := AsProcessing(x.q.entries[k].item, f.start);
      RemoveAgrees(x.q, k);
      StrategyKeepsId(p, x.world, it, f);
      var r := Strategy(p, x.world, it, f);
      PushAgrees(RemoveAt(x.q, k), RequeueSpec(s, RemoveAt(x.q, k), r.item, f.err, f.finish).item);
    }
  }
}
