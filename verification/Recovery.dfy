/**
 The whole encryption service as a state machine down to its file operations. Files arrive and are
 enqueued, again and again if need be, at any moment, between any two file operations of the
 processor; every file operation may fail; a file being written may hold anything; the process may be
 killed and started again with any saved list. In every reachable state each file that ever arrived
 can be recovered: its original bytes are in exactly one of the source, archive, failed and DLQ
 directories, or they were deleted and the encrypted pair decrypts to them.
 */
module Recovery {
  import opened Common
  import opened Paths
  import opened FileSystem
  import opened Transit
  import opened Envelope
  import opened Items
  import opened Queue
  import opened Watcher
  import opened Processor
  import opened SystemRuns
  import opened Lives

  /**
   The processor, the settings of its queue, the watched and the output directory, and whether the
   file cipher may write its output although there is no source file.
   */
  datatype Service = Service(setup: Setup, settings: Settings, src: string, dst: string, leaks: bool)

  /** What the processor does next with the item in hand, or with the file of one it has just settled. */
  datatype Phase =
    | Idle
    | Summing | Encrypting | SavingKey(ciphertext: string) | Settling(ok: bool)
    | IntoDlq(path: string) | IntoFailed(path: string) | Disposing(path: string)

  datatype State = State(
    sys: Sys, disk: World, phase: Phase,
    origin: map<string, string>, // the original bytes of every file that arrived, by source path
    made: map<string, string>,   // the source path of every item ever made, by ID
    finished: set<string>,       // the IDs of all items ever completed
    again: set<string>)          // the source paths that got an item beside a live or a completed one

  datatype Happening =
    | Upload(name: string, bytes: string)   // a file appears in the source directory
    | Admit(sighting: Sighting)             // the watcher makes an item for it
    | Take(now: int, start: int)            // the processor takes the next ready item
    | Scribble(bytes: string)               // a file being written holds some bytes
    | Work(f: Effort)                       // the processor performs its next step
    | Restart(now: int, xs: seq<ItemRec>)   // the process ends, anyhow, and starts again with a saved list

  function Boot(files: Files, clock: int): State
  {
    State(Start(clock), World(files, []), Idle, map[], map[], {}, {})
  }

  function Handlings(p: Service): Handling { p.setup.encrypt }

  function Folders(p: Service): Dirs { Dirs(p.src, p.dst, "", "") }

  // --- Steps ---------------------------------------------------------------------------------

  /** The directories a source file can be in: the source and, as far as they are set, the other three. */
  function Homes(p: Service): set<string>
  {
    {p.src} + ({Handlings(p).archiveDir, Handlings(p).failedDir, Handlings(p).dlqDir} - {""})
  }

  /** The name is not taken where the file is or may be moved to. */
  predicate NameFree(p: Service, files: Files, name: string)
  {
    forall d | d in Homes(p) :: Join(d, name) !in files
  }

  /** The IDs of the items that are queued or in hand. */
  function Live(x: State): set<string> { x.sys.q.index.Keys + HandIds(x.sys) }

  /** An item for the file is live, or was completed. */
  predicate Busy(x: State, path: string)
  {
    exists id | id in Live(x) + x.finished :: id in x.made && x.made[id] == path
  }

  predicate WasCompleted(x: State, path: string)
  {
    exists id | id in x.finished :: id in x.made && x.made[id] == path
  }

  predicate Twice(xs: seq<ItemRec>, it: ItemRec)
  {
    exists it' | it' in xs :: it'.id != it.id && it'.source == it.source
  }

  /** The sources in a list of items that occur in it twice or were completed before. */
  function Repeated(x: State, xs: seq<ItemRec>): set<string>
  {
    set it | it in xs && (WasCompleted(x, it.source) || Twice(xs, it)) :: it.source
  }

  predicate Quiet(c: CryptFault) { c.Works? || c.left.None? }

  /** Unless the cipher leaks, it writes nothing without the source file. */
  predicate Lawful(p: Service, x: State, f: Effort)
  {
    p.leaks || Quiet(f.crypt) || (x.sys.hand.Some? && x.sys.hand.value.source in x.disk.files)
  }

  /** Something may be writing the file that the current phase writes. */
  predicate Writing(p: Service, x: State)
  {
    || x.phase.SavingKey?
    || (x.phase.Encrypting? && (p.leaks || (x.sys.hand.Some? && x.sys.hand.value.source in x.disk.files)))
    || (x.phase.Summing? && p.setup.calculateChecksum)
  }

  /**
   What can happen. Source names are used once and IDs too; items may be made for a file again and
   again, and any list may be loaded that the service can have saved.
   */
  predicate Possible(p: Service, x: State, h: Happening)
  {
    match h
    case Upload(name, _) =>
      PlainName(name) && Join(p.src, name) !in x.origin && NameFree(p, x.disk.files, name)
    case Admit(s) => s.path in x.origin && s.id !in x.made && OnCreated(Folders(p), s).Some?
    case Take(now, start) => x.phase.Idle? && x.sys.clock <= now <= start
    case Scribble(_) => Writing(p, x)
    case Work(f) =>
      && !x.phase.Idle? && (x.phase.Settling? ==> x.sys.clock <= f.finish)
      && (x.phase.Encrypting? ==> Lawful(p, x, f))
    case Restart(_, xs) => Loadable(p.settings, xs) && forall it | it in xs :: Belongs(p, x, it)
  }

  function SumPath(it: ItemRec): string { ChecksumPath(it.dest, it.source) }

  /** The file that the current phase writes. */
  function Target(x: State): string
    requires x.sys.hand.Some?
  {
    var it := x.sys.hand.value;
    match x.phase
    case Encrypting => it.dest
    case SavingKey(_) => it.keyPath
    case _ => SumPath(it)
  }

  function WorkSum(p: Service, x: State, path: string, f: Effort): State
    requires x.sys.hand.Some?
  {
    var r := SumStep(p.setup.cipher, p.setup.calculateChecksum, x.disk, x.sys.hand.value, path, f);
    x.(disk := r.world, phase := if r.ok then Encrypting else Settling(false),
       sys := Apply(p.settings, x.sys, Note(r.item.checksum, r.item.checksumPath)))
  }

  function WorkEncrypt(p: Service, x: State, f: Effort): State
    requires x.sys.hand.Some?
  {
    var e := CryptStep(p.setup.vault, p.setup.cipher, x.disk, x.sys.hand.value, f);
    x.(disk := e.world, phase := if e.ciphertext.Some? then SavingKey(e.ciphertext.value) else Settling(false))
  }

  function WorkKey(x: State, ciphertext: string, f: Effort): State
    requires x.sys.hand.Some?
  {
    var k := Written(x.disk, x.sys.hand.value.keyPath, ciphertext, f.saveKey);
    x.(disk := k.world, phase := Settling(k.ok))
  }

  function WorkSettle(p: Service, x: State, ok: bool, f: Effort): State
    requires x.sys.hand.Some?
  {
    var it := x.sys.hand.value;
    if ok then
      x.(sys := Apply(p.settings, x.sys, Succeed(f.finish)), phase := Disposing(it.source),
         finished := x.finished + {it.id})
    else
      var r := RequeueSpec(p.settings, x.sys.q, it, f.err, f.finish);
      x.(sys := Apply(p.settings, x.sys, Fail(f.err, f.finish)),
         phase := if r.ok then IntoFailed(it.source) else IntoDlq(it.source))
  }

  predicate Holding(x: State)
  {
    x.phase.Summing? || x.phase.Encrypting? || x.phase.SavingKey? || x.phase.Settling?
  }

  function Worked(p: Service, x: State, f: Effort): State
    requires Holding(x) ==> x.sys.hand.Some?
  {
    match x.phase
    case Idle => x
    case Summing => WorkSum(p, x, SumPath(x.sys.hand.value), f)
    case Encrypting => WorkEncrypt(p, x, f)
    case SavingKey(ciphertext) => WorkKey(x, ciphertext, f)
    case Settling(ok) => WorkSettle(p, x, ok, f)
    case IntoDlq(path) => x.(disk := ToDlq(Handlings(p), x.disk, path, f.dlq), phase := IntoFailed(path))
    case IntoFailed(path) => x.(disk := ToFailed(Handlings(p), x.disk, path, f.failed), phase := Idle)
    case Disposing(path) => x.(disk := Dispose(Handlings(p), x.disk, path, f.dispose), phase := Idle)
  }

  function Taken(p: Service, x: State, now: int, start: int): State
  {
    var sys := Apply(p.settings, x.sys, Poll(now, start));
    x.(sys := sys, phase := if sys.hand.Some? then Summing else Idle)
  }

  /** The path joins `again` if the new item is not the only one that counts. */
  function WithItem(x: State, sys: Sys, id: string, path: string): State
  {
    x.(sys := sys, made := x.made[id := path], again := if Busy(x, path) then x.again + {path} else x.again)
  }

  function Admitted(p: Service, x: State, s: Sighting): State
  {
    var it := OnCreated(Folders(p), s);
    if it.None? then x else
      WithItem(x, Apply(p.settings, x.sys, Arrive(it.value)), s.id, s.path)
  }

  function Restarted(p: Service, x: State, now: int, xs: seq<ItemRec>): State
  {
    x.(sys := Resumed(p.settings, now, xs), phase := Idle, again := x.again + Repeated(x, xs))
  }

  function Uploaded(p: Service, x: State, name: string, bytes: string): State
  {
    x.(disk := x.disk.Set(Join(p.src, name), bytes), origin := x.origin[Join(p.src, name) := bytes])
  }

  /** One step; what cannot happen changes nothing. (In reachable states the phase and the hand agree.) */
  function Next(p: Service, x: State, h: Happening): State
  {
    if !Possible(p, x, h) || Holding(x) != x.sys.hand.Some? then x else
      match h
      case Upload(name, bytes) => Uploaded(p, x, name, bytes)
      case Admit(s) => Admitted(p, x, s)
      case Take(now, start) => Taken(p, x, now, start)
      case Scribble(bytes) => x.(disk := x.disk.Set(Target(x), bytes))
      case Work(f) => Worked(p, x, f)
      case Restart(now, xs) => Restarted(p, x, now, xs)
  }

  function History(p: Service, x: State, hs: seq<Happening>): State
  {
    if hs == [] then x else Next(p, History(p, x, hs[..|hs| - 1]), hs[|hs| - 1])
  }

  // --- Invariants ----------------------------------------------------------------------------

  /** Clean directories, none of them the output directory, and services that keep their laws. */
  ghost predicate Sound(p: Service)
  {
    && CleanDir(p.dst) && p.dst !in Homes(p)
    && (forall d | d in Homes(p) :: CleanDir(d))
    && (Handlings(p).behavior.Archive? ==> Handlings(p).archiveDir != "")
    && WrapsItsKeys(p.setup.vault) && Decrypts(p.setup.cipher)
  }

  /** The file named `n` is in home `d` with contents `m`, and in no other home. */
  ghost predicate OnlyIn(p: Service, files: Files, n: string, d: string, m: string)
  {
    && d in Homes(p)
    && Lookup(files, Join(d, n)) == Some(m)
    && forall d' | d' in Homes(p) && d' != d :: Join(d', n) !in files
  }

  function DestOf(p: Service, path: string): string { Join(p.dst, Base(path) + ".enc") }

  function KeyOf(p: Service, path: string): string { Join(p.dst, Base(path) + ".key") }

  /** What the encrypted file and the key file made for `path` stand for. */
  function PairOf(p: Service, files: Files, path: string): Option<string>
  {
    Opened(p.setup.vault, p.setup.cipher, files, DestOf(p, path), KeyOf(p, path))
  }

  /** Vault hands out a key for some request. */
  ghost predicate Answers(p: Service)
  {
    exists n: nat :: p.setup.vault.generate(n).Some?
  }

  /** The original bytes of `path` are in exactly one home, or gone with the encrypted pair in their place. */
  ghost predicate Kept(p: Service, x: State, path: string)
    requires path in x.origin
  {
    || (exists d :: OnlyIn(p, x.disk.files, Base(path), d, x.origin[path]))
    || (&& NameFree(p, x.disk.files, Base(path)) && Handlings(p).behavior.Delete? && Answers(p)
        && WasCompleted(x, path) && Sealed(p, x, path))
  }

  /** The pair made for `path` decrypts to its original bytes. */
  ghost predicate Sealed(p: Service, x: State, path: string)
  {
    path in x.origin && PairOf(p, x.disk.files, path) == Some(x.origin[path])
  }

  ghost predicate AllKept(p: Service, x: State)
  {
    forall path | path in x.origin :: Kept(p, x, path)
  }

  /** A completed item that remained alone has left a good pair. */
  ghost predicate AllSealed(p: Service, x: State)
  {
    forall path | WasCompleted(x, path) && path !in x.again :: Sealed(p, x, path)
  }

  ghost predicate Origins(p: Service, origin: map<string, string>)
  {
    forall path | path in origin :: PlainName(Base(path)) && path == Join(p.src, Base(path))
  }

  /** Items are made for files that arrived, and only such items are queued or completed. */
  ghost predicate Registered(x: State)
  {
    && (forall id | id in x.made :: x.made[id] in x.origin)
    && (forall id | id in x.sys.log :: id in x.made)
    && x.finished <= x.made.Keys
  }

  ghost predicate Arrivals(p: Service, x: State)
  {
    Origins(p, x.origin) && Registered(x)
  }

  predicate Clash(x: State, id: string, id': string)
  {
    && id in x.made && id' in x.made && x.made[id] == x.made[id']
    && (id != id' || id' in x.finished)
  }

  /** Two items for one file, one of them live and the other live or completed, are only there `again`. */
  ghost predicate Single(x: State)
  {
    forall id, id' | id in Live(x) && id' in Live(x) + x.finished && Clash(x, id, id') :: x.made[id] in x.again
  }

  predicate Named(p: Service, it: ItemRec)
  {
    it.operation.Encrypt? && it.dest == DestOf(p, it.source) && it.keyPath == KeyOf(p, it.source)
  }

  function NamedBy(p: Service): ItemRec -> bool { it => Named(p, it) }

  predicate Owned(x: State, named: ItemRec -> bool, it: ItemRec)
  {
    it.id in x.made && x.made[it.id] == it.source && named(it)
  }

  predicate Belongs(p: Service, x: State, it: ItemRec) { Owned(x, NamedBy(p), it) }

  /** All live items are made for their files and named after them. */
  ghost predicate AllOwned(x: State, named: ItemRec -> bool)
  {
    && (forall e | e in x.sys.q.entries :: Owned(x, named, e.item))
    && (x.sys.hand.Some? ==> Owned(x, named, x.sys.hand.value))
  }

  ghost predicate AllBelong(p: Service, x: State) { AllOwned(x, NamedBy(p)) }

  predicate SameNames(it: ItemRec, it': ItemRec)
  {
    it.operation == it'.operation && it.source == it'.source && it.dest == it'.dest && it.keyPath == it'.keyPath
  }

  /** The names of an item depend on nothing but its operation and paths. */
  ghost predicate NamesOnly(named: ItemRec -> bool)
  {
    forall it: ItemRec, it': ItemRec {:trigger named(it), named(it')} | SameNames(it, it') :: named(it) == named(it')
  }

  lemma NamedByNames(p: Service)
    ensures NamesOnly(NamedBy(p))
  {
  }

  ghost predicate AtSource(p: Service, x: State, path: string)
  {
    path in x.origin && OnlyIn(p, x.disk.files, Base(path), p.src, x.origin[path])
  }

  /** What each phase may rely on. */
  ghost predicate PhaseOk(p: Service, x: State)
  {
    && (Holding(x) <==> x.sys.hand.Some?)
    && match x.phase
       case Encrypting => p.setup.calculateChecksum ==> AtSource(p, x, x.sys.hand.value.source)
       case SavingKey(ciphertext) =>
         var it := x.sys.hand.value;
         var key := p.setup.vault.unwrap(ciphertext);
         && AtSource(p, x, it.source) && it.dest in x.disk.files && key.Some? && Answers(p)
         && p.setup.cipher.dec(key.value, x.disk.files[it.dest]) == Some(x.origin[it.source])
       case Settling(ok) =>
         var it := x.sys.hand.value;
         ok ==> AtSource(p, x, it.source) && Sealed(p, x, it.source) && Answers(p)
       case Disposing(path) => AtSource(p, x, path) && WasCompleted(x, path) && Sealed(p, x, path) && Answers(p)
       case IntoDlq(path) => path in x.origin
       case IntoFailed(path) => path in x.origin
       case _ => true
  }

  /** The items are in order: made for files that arrived, and held exactly in the phases that need one. */
  ghost predicate Orderly(p: Service, x: State)
  {
    Arrivals(p, x) && AllBelong(p, x) && Single(x) && (Holding(x) <==> x.sys.hand.Some?)
  }

  /** The files are safe, and the current phase can rely on what it needs. */
  ghost predicate Secure(p: Service, x: State)
  {
    PhaseOk(p, x) && AllKept(p, x) && AllSealed(p, x)
  }

  ghost predicate Books(p: Service, x: State) { Orderly(p, x) && Secure(p, x) }

  /**
   When files are safe from a second item for a file that is gone: it does not get to encrypting, or
   no file is ever deleted, or encrypting what is not there changes nothing, or nothing is encrypted.
   */
  ghost predicate Safe(p: Service)
  {
    p.setup.calculateChecksum || !Handlings(p).behavior.Delete? || !p.leaks || !Answers(p)
  }
}
