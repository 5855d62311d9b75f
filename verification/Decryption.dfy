/**
 Decryption as a state machine down to its file operations, for any order of attempts. An encrypted
 file and its key arrive together; attempts at it begin at any time and any number of times, whatever
 the queue does; keys are rewrapped meanwhile; every operation can fail, a file being written can hold
 anything, and the process can be killed anywhere.
 */
module Decryption {
  import opened Common
  import opened Paths
  import opened FileSystem
  import opened Envelope
  import opened Items
  import opened Processor

  /** The processor's setup, the watched and the output directory, and whether the cipher may write without a source. */
  datatype Station = Station(setup: Setup, src: string, dst: string, leaks: bool)

  /** What was delivered: the encrypted file, the data key its key file unwraps to, and what the two stand for. */
  datatype Delivery = Delivery(enc: string, key: string, plain: string)

  datatype Phase =
    | Idle
    | Opening(n: string) | Decrypting(n: string, key: string) | Verifying(n: string)
    | DisposeEnc(n: string) | DisposeKey(n: string) | DisposeSum(n: string)
    | IntoDlq(n: string) | IntoFailed(n: string)

  datatype State = State(disk: World, phase: Phase, origin: map<string, Delivery>)

  datatype Happening =
    | Deliver(n: string, enc: string, key: string) // the two files appear in the source directory
    | Sum(n: string, text: string)                 // a checksum file appears there
    | Rewrap(n: string, dir: string, key: string)  // the key file, wherever it is, gets another ciphertext
    | Begin(n: string)                             // an attempt at the file begins
    | Kill                                         // the process ends and starts again
    | Scribble(bytes: string)                      // the output being written holds some bytes
    | Work(f: Effort, last: bool)                  // the next step; a failed attempt is the last one or not

  function Handlings(p: Station): Handling { p.setup.decrypt }

  function EncPath(p: Station, n: string): string { Join(p.src, n + ".enc") }

  function KeyPath(p: Station, n: string): string { Join(p.src, n + ".key") }

  function SumPath(p: Station, n: string): string { Join(p.src, n + ".sha256") }

  function OutPath(p: Station, n: string): string { Join(p.dst, n) }

  /** The item for a delivered file. */
  function ItemOf(p: Station, n: string): ItemRec
  {
    NewItem("", Decrypt, EncPath(p, n), OutPath(p, n), 0).(keyPath := KeyPath(p, n))
  }

  /** The directories a delivered file can be in. */
  function Homes(p: Station): set<string>
  {
    {p.src} + ({Handlings(p).archiveDir, Handlings(p).failedDir, Handlings(p).dlqDir} - {""})
  }

  /** The encrypted file or the key file of `n`. */
  function NameOf(n: string, key: bool): string { n + if key then ".key" else ".enc" }

  predicate Free(p: Station, files: Files, n: string, key: bool)
  {
    forall d | d in Homes(p) :: Join(d, NameOf(n, key)) !in files
  }

  // --- Steps ---------------------------------------------------------------------------------

  function Delivered(p: Station, enc: string, key: string): Option<Delivery>
  {
    match p.setup.vault.unwrap(key)
    case None => None
    case Some(k) =>
      match p.setup.cipher.dec(k, enc)
      case None => None
      case Some(m) => Some(Delivery(enc, k, m))
  }

  predicate Quiet(c: CryptFault) { c.Works? || c.left.None? }

  predicate Possible(p: Station, x: State, h: Happening)
  {
    match h
    case Deliver(n, enc, key) =>
      && PlainName(n) && n !in x.origin && Delivered(p, enc, key).Some?
      && Free(p, x.disk.files, n, false) && Free(p, x.disk.files, n, true)
    case Sum(n, _) => PlainName(n)
    case Rewrap(n, dir, key) =>
      && n in x.origin && dir in Homes(p) && Join(dir, n + ".key") in x.disk.files
      && p.setup.vault.unwrap(key) == Some(x.origin[n].key)
    case Begin(n) => n in x.origin && x.phase.Idle?
    case Kill => true
    case Scribble(_) => x.phase.Decrypting? && (p.leaks || EncPath(p, x.phase.n) in x.disk.files)
    case Work(f, _) =>
      && !x.phase.Idle?
      && (x.phase.Decrypting? ==> p.leaks || Quiet(f.crypt) || EncPath(p, x.phase.n) in x.disk.files)
  }

  function Failing(n: string, last: bool): Phase { if last then IntoDlq(n) else IntoFailed(n) }

  /** Reading the key file and asking Vault. */
  function WorkOpen(p: Station, x: State, n: string, f: Effort, last: bool): State
  {
    var key := KeyPath(p, n);
    if f.readKey || key !in x.disk.files || f.unwrap || p.setup.vault.unwrap(x.disk.files[key]).None?
    then x.(phase := Failing(n, last))
    else x.(phase := Decrypting(n, p.setup.vault.unwrap(x.disk.files[key]).value))
  }

  /** Decrypting the file to the output. */
  function WorkDecrypt(p: Station, x: State, n: string, key: string, f: Effort, last: bool): State
  {
    var enc, out := EncPath(p, n), OutPath(p, n);
    if f.crypt.Fails? || enc !in x.disk.files || p.setup.cipher.dec(key, x.disk.files[enc]).None? then
      x.(disk := LeaveBehind(x.disk, out, if f.crypt.Fails? then f.crypt.left else None), phase := Failing(n, last))
    else
      x.(disk := Written(x.disk, out, p.setup.cipher.dec(key, x.disk.files[enc]).value, Fine).world,
         phase := Verifying(n))
  }

  function WorkVerify(p: Station, x: State, n: string, f: Effort, last: bool): State
  {
    var good := p.setup.verifyChecksum ==> VerifyAt(p.setup.cipher, x.disk, ItemOf(p, n), SumPath(p, n), f);
    x.(phase := if good then DisposeEnc(n) else Failing(n, last))
  }

  function Worked(p: Station, x: State, f: Effort, last: bool): State
  {
    var h := Handlings(p);
    match x.phase
    case Idle => x
    case Opening(n) => WorkOpen(p, x, n, f, last)
    case Decrypting(n, key) => WorkDecrypt(p, x, n, key, f, last)
    case Verifying(n) => WorkVerify(p, x, n, f, last)
    case DisposeEnc(n) => x.(disk := Dispose(h, x.disk, EncPath(p, n), f.dispose), phase := DisposeKey(n))
    case DisposeKey(n) => x.(disk := Dispose(h, x.disk, KeyPath(p, n), f.disposeKey), phase := DisposeSum(n))
    case DisposeSum(n) =>
      x.(disk := if SumPath(p, n) in x.disk.files then Dispose(h, x.disk, SumPath(p, n), f.disposeSum) else x.disk,
         phase := Idle)
    case IntoDlq(n) => x.(disk := ToDlq(h, x.disk, EncPath(p, n), f.dlq), phase := IntoFailed(n))
    case IntoFailed(n) => x.(disk := ToFailed(h, x.disk, EncPath(p, n), f.failed), phase := Idle)
  }

  function Arrived(p: Station, x: State, n: string, enc: string, key: string): State
  {
    match Delivered(p, enc, key)
    case None => x
    case Some(d) =>
      x.(disk := x.disk.Set(KeyPath(p, n), key).Set(EncPath(p, n), enc), origin := x.origin[n := d])
  }

  function Next(p: Station, x: State, h: Happening): State
  {
    if !Possible(p, x, h) then x else
      match h
      case Deliver(n, enc, key) => Arrived(p, x, n, enc, key)
      case Sum(n, text) => x.(disk := x.disk.Set(SumPath(p, n), text))
      case Rewrap(n, dir, key) => x.(disk := x.disk.Set(Join(dir, n + ".key"), key))
      case Begin(n) => x.(phase := Opening(n))
      case Kill => x.(phase := Idle)
      case Scribble(bytes) => x.(disk := x.disk.Set(OutPath(p, x.phase.n), bytes))
      case Work(f, last) => Worked(p, x, f, last)
  }

  function History(p: Station, x: State, hs: seq<Happening>): State
  {
    if hs == [] then x else Next(p, History(p, x, hs[..|hs| - 1]), hs[|hs| - 1])
  }

  function Boot(files: Files): State { State(World(files, []), Idle, map[]) }

  // --- What is claimed -----------------------------------------------------------------------

  /** Clean directories, none of them the output directory. */
  predicate Sound(p: Station)
  {
    && CleanDir(p.dst) && p.dst !in Homes(p)
    && (forall d | d in Homes(p) :: CleanDir(d))
    && (Handlings(p).behavior.Archive? ==> Handlings(p).archiveDir != "")
  }

  /** What is wanted of the encrypted file is its contents, of the key file what it unwraps to. */
  function ValueOf(p: Station, contents: string, key: bool): Option<string>
  {
    if key then p.setup.vault.unwrap(contents) else Some(contents)
  }

  function Wanted(d: Delivery, key: bool): string { if key then d.key else d.enc }

  /** The file is in home `dir`, good, and in no other home. */
  ghost predicate OnlyIn(p: Station, files: Files, n: string, d: Delivery, key: bool, dir: string)
  {
    && dir in Homes(p) && Join(dir, NameOf(n, key)) in files
    && ValueOf(p, files[Join(dir, NameOf(n, key))], key) == Some(Wanted(d, key))
    && forall dir' | dir' in Homes(p) && dir' != dir :: Join(dir', NameOf(n, key)) !in files
  }

  ghost predicate InOneHome(p: Station, files: Files, n: string, d: Delivery, key: bool)
  {
    exists dir :: OnlyIn(p, files, n, d, key, dir)
  }

  predicate HasPlain(p: Station, files: Files, n: string, d: Delivery)
  {
    Lookup(files, OutPath(p, n)) == Some(d.plain)
  }

  /** The output holds the plaintext, or the encrypted file and its key are each in exactly one place and still good. */
  ghost predicate Preserved(p: Station, x: State, n: string)
    requires n in x.origin
  {
    || HasPlain(p, x.disk.files, n, x.origin[n])
    || (InOneHome(p, x.disk.files, n, x.origin[n], false) && InOneHome(p, x.disk.files, n, x.origin[n], true))
  }

  // --- Invariants ----------------------------------------------------------------------------

  /** Each of the two files is in one home or in none; and if one is in none the plaintext is there instead. */
  ghost predicate Kept(p: Station, files: Files, n: string, d: Delivery)
  {
    && (forall key :: InOneHome(p, files, n, d, key) || Free(p, files, n, key))
    && ((exists key :: Free(p, files, n, key)) ==> Handlings(p).behavior.Delete? && HasPlain(p, files, n, d))
  }

  ghost predicate AllKept(p: Station, x: State)
  {
    forall n | n in x.origin :: PlainName(n) && Kept(p, x.disk.files, n, x.origin[n])
  }

  ghost predicate PhaseOk(p: Station, x: State)
  {
    match x.phase
    case Idle => true
    case Opening(n) => n in x.origin
    case Decrypting(n, key) =>
      n in x.origin && key == x.origin[n].key && OnlyIn(p, x.disk.files, n, x.origin[n], true, p.src)
    case Verifying(n) => n in x.origin && HasPlain(p, x.disk.files, n, x.origin[n])
    case DisposeEnc(n) => n in x.origin && HasPlain(p, x.disk.files, n, x.origin[n])
    case DisposeKey(n) => n in x.origin && HasPlain(p, x.disk.files, n, x.origin[n])
    case DisposeSum(n) => n in x.origin
    case IntoDlq(n) => n in x.origin
    case IntoFailed(n) => n in x.origin
  }

  ghost predicate Books(p: Station, x: State)
  {
    AllKept(p, x) && PhaseOk(p, x) && forall n | n in x.origin :: Stands(p, x.origin[n])
  }

  predicate Stands(p: Station, d: Delivery) { p.setup.cipher.dec(d.key, d.enc) == Some(d.plain) }

  /** There is a pair that stands for anything at all. */
  ghost predicate Opens(p: Station)
  {
    exists enc, key :: Delivered(p, enc, key).Some?
  }

  /** No file is ever deleted, or decrypting what is not there changes nothing, or nothing can be decrypted. */
  ghost predicate Safe(p: Station)
  {
    !Handlings(p).behavior.Delete? || !p.leaks || !Opens(p)
  }
}
