/**
 The two machines leave out no state of the disk: whatever state a kill can leave in the middle of one of
 their steps, or of a rewrap beside them, is one that a step of the machine leads to.
 */
module Coverage {
  import opened Common
  import opened Paths
  import opened FileSystem
  import opened Transit
  import opened Envelope
  import opened Items
  import opened Rewrap
  import opened RewrapSafety
  import opened Processor
  import opened SystemRuns
  import R = Recovery
  import D = Decryption

  /** Every state of the disk from `w` on, up to `z`, is `w` with some bytes at `path`. */
  ghost predicate OnlyWrites(w: World, z: World, path: string)
  {
    && w.trace <= z.trace
    && forall k | |w.trace| <= k < |z.trace| :: path in z.trace[k] && z.trace[k] == w.files[path := z.trace[k][path]]
  }

  lemma {:induction false} FillOnlyWrites(w0: World, w: World, path: string, data: string, n: nat)
    requires n <= |data| && OnlyWrites(w0, w, path) && path in w.files && w.files == w0.files[path := w.files[path]]
    ensures var z := Fill(w, path, data, n);
              OnlyWrites(w0, z, path) && path in z.files && z.files == w0.files[path := z.files[path]]
  {
    if n > 0 { FillOnlyWrites(w0, w, path, data, n - 1); }
  }

  lemma WrittenOnlyWrites(w: World, path: string, data: string, fault: WriteFault)
    ensures OnlyWrites(w, Written(w, path, data, fault).world, path)
  {
    match fault
    case Fine => FillOnlyWrites(w, w.Set(path, ""), path, data, |data|);
    case OpenFails =>
    case StopsAfter(n) => FillOnlyWrites(w, w.Set(path, ""), path, data, Min(n, |data|));
  }

  // --- Encryption ----------------------------------------------------------------------------

  lemma ScribbleWrites(p: R.Service, x: R.State, bytes: string)
    requires x.sys.hand.Some? && R.Writing(p, x)
    ensures R.Next(p, x, R.Scribble(bytes)).disk.files == x.disk.files[R.Target(x) := bytes]
  {
  }

  /** A step of the strategy only writes what the machine lets be written, if anything. */
  lemma StrategyOnlyWrites(p: R.Service, x: R.State, f: Effort)
    requires R.Holding(x) && x.sys.hand.Some? && R.Possible(p, x, R.Work(f))
    ensures var z := R.Worked(p, x, f).disk;
              z == x.disk || (R.Writing(p, x) && OnlyWrites(x.disk, z, R.Target(x)))
  {
    var it := x.sys.hand.value;
    match x.phase
    case Summing =>
      if p.setup.calculateChecksum && it.source in x.disk.files {
        WrittenOnlyWrites(x.disk, R.SumPath(it), p.setup.cipher.hash(x.disk.files[it.source]), f.saveSum);
      }
    case Encrypting => CryptOnlyWrites(p.setup.vault, p.setup.cipher, x.disk, it, f);
    case SavingKey(ciphertext) => WrittenOnlyWrites(x.disk, it.keyPath, ciphertext, f.saveKey);
    case Settling(_) =>
  }

  lemma CryptOnlyWrites(v: Vault, c: Cipher, w: World, it: ItemRec, f: Effort)
    ensures var e := CryptStep(v, c, w, it, f);
              && (e.world == w || OnlyWrites(w, e.world, it.dest))
              && (e.world != w ==> it.source in w.files || !R.Quiet(f.crypt))
  {
    if v.generate(f.request).Some? && f.crypt.Works? && it.source in w.files {
      WrittenOnlyWrites(w, it.dest, c.enc(v.generate(f.request).value.plaintext, f.salt, w.files[it.source]), Fine);
    }
  }

  /** Killed within a step of the strategy, the disk is as some bytes in the file being written make it. */
  lemma KilledWithinEncryption(p: R.Service, x: R.State, f: Effort, k: nat)
    requires R.Holding(x) && x.sys.hand.Some? && R.Possible(p, x, R.Work(f))
    requires |x.disk.trace| <= k < |R.Worked(p, x, f).disk.trace|
    ensures exists bytes :: R.Next(p, x, R.Scribble(bytes)).disk.files == R.Worked(p, x, f).disk.trace[k]
  {
    StrategyOnlyWrites(p, x, f);
    var bytes := R.Worked(p, x, f).disk.trace[k][R.Target(x)];
    ScribbleWrites(p, x, bytes);
  }

  // --- Decryption ----------------------------------------------------------------------------

  lemma DecryptionOnlyWrites(p: D.Station, x: D.State, f: Effort, last: bool)
    requires x.phase.Decrypting? && D.Possible(p, x, D.Work(f, last))
    ensures var z := D.Worked(p, x, f, last).disk;
              z == x.disk || (D.Possible(p, x, D.Scribble("")) && OnlyWrites(x.disk, z, D.OutPath(p, x.phase.n)))
  {
    var enc, out := D.EncPath(p, x.phase.n), D.OutPath(p, x.phase.n);
    if f.crypt.Works? && enc in x.disk.files && p.setup.cipher.dec(x.phase.key, x.disk.files[enc]).Some? {
      WrittenOnlyWrites(x.disk, out, p.setup.cipher.dec(x.phase.key, x.disk.files[enc]).value, Fine);
    }
  }

  /** The same of the decryption of a file. */
  lemma KilledWithinDecryption(p: D.Station, x: D.State, f: Effort, last: bool, k: nat)
    requires x.phase.Decrypting? && D.Possible(p, x, D.Work(f, last))
    requires |x.disk.trace| <= k < |D.Worked(p, x, f, last).disk.trace|
    ensures exists bytes :: D.Next(p, x, D.Scribble(bytes)).disk.files == D.Worked(p, x, f, last).disk.trace[k]
  {
    DecryptionOnlyWrites(p, x, f, last);
    var out := D.OutPath(p, x.phase.n);
    var bytes := D.Worked(p, x, f, last).disk.trace[k][out];
    assert D.Next(p, x, D.Scribble(bytes)).disk.files == x.disk.files[out := bytes];
  }

  /** What the key file at `path` holds in this state, the machine can make it hold, or it holds it already. */
  predicate Covered(p: D.Station, x: D.State, n: string, dir: string, path: string, t: Files)
  {
    && path in t
    && D.Next(p, x, D.Rewrap(n, dir, t[path])).disk.files == x.disk.files[path := t[path]]
  }

  /** In every state of a rewrap of a delivered key file it holds what the machine can make it hold. */
  lemma RewrapIsCovered(p: D.Station, x: D.State, n: string, dir: string, o: Options, plan: Plan)
    requires KeepsKeys(p.setup.vault) && n in x.origin && dir in D.Homes(p)
    requires D.OnlyIn(p, x.disk.files, n, x.origin[n], true, dir)
    ensures var path := Join(dir, n + ".key");
              Always(x.disk, RewrapSpec(o, p.setup.vault, x.disk, path, plan).world,
                     t => Covered(p, x, n, dir, path, t))
  {
    var path := Join(dir, n + ".key");
    var was, answer := x.disk.files[path], Ask(p.setup.vault, plan, x.disk.files[path]);
    CrashAtomic(o, p.setup.vault, x.disk, path, plan);
    forall t: Files | OldOrNew(p.setup.vault, t, path, was, answer) ensures Covered(p, x, n, dir, path, t) {
      assert D.Possible(p, x, D.Rewrap(n, dir, t[path]));
    }
  }
}
