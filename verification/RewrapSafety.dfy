/**
 Safety of the rewrap transaction: what holds at every step, whichever step fails or crashes; that
 the disk protocol refines a three-line account of what happens to one key file; and that the files
 of a batch do not influence one another.
 */
module RewrapSafety {
  import opened Common
  import opened FileSystem
  import opened KeyVersion
  import opened Paths
  import opened Rewrap
  import opened Transit

  // --- Following one path through the history ------------------------------------------------

  /** From `w` to `w'`, path `p` has contents in `allowed` at the end and in every state on the way. */
  ghost predicate Stays(w: World, w': World, p: string, allowed: set<Option<string>>)
  {
    Always(w, w', t => Lookup(t, p) in allowed)
  }

  lemma StaysTransitive(w0: World, w1: World, w2: World, p: string, allowed: set<Option<string>>)
    requires Stays(w0, w1, p, allowed) && Stays(w1, w2, p, allowed)
    ensures Stays(w0, w2, p, allowed)
  {
  }

  /** A path no temporary file can be created at. */
  predicate NotTemp(w: World, p: string) { p in w.files || !HasSuffix(p, TEMP_SUFFIX) }

  lemma ReplacedStays(w: World, prefix: string, dst: string, data: string, f: StageFaults,
                      p: string, allowed: set<Option<string>>)
    requires NotTemp(w, p) && Lookup(w.files, p) in allowed
    requires p == dst ==> Some(data) in allowed
    ensures Stays(w, Replaced(w, prefix, dst, data, f).world, p, allowed)
  {
    ReplaceIsAtomic(w, prefix, dst, data, f);
    FreshTempIsTemp(w.files.Keys, prefix, f.seed);
    var tmp := TempFor(w, prefix, f);
    forall t | MidReplace(w.files, tmp, dst, data, t)
      ensures Lookup(t, p) in allowed
    {
      assert p != tmp;
      assert p == dst || Lookup(t, p) == Lookup(w.files, p);
    }
  }

  lemma RollbackStays(o: Options, w: World, path: string, plan: Plan, p: string, allowed: set<Option<string>>)
    requires NotTemp(w, p) && Lookup(w.files, p) in allowed
    requires p == path && o.createBackup ==> Lookup(w.files, BackupPath(o, path)) in allowed + {None}
    ensures Stays(w, Rollback(o, w, path, plan), p, allowed)
  {
    if o.createBackup && !plan.restore.stat && BackupPath(o, path) in w.files {
      ReplacedStays(w, Join(Dir(path), ".restore-"), path, w.files[BackupPath(o, path)],
                    plan.restore.stage, p, allowed);
    }
  }

  lemma ExchangeStays(o: Options, v: Vault, w: World, path: string, plan: Plan, r: RewrapResult,
                      p: string, allowed: set<Option<string>>)
    requires NotTemp(w, p) && Lookup(w.files, p) in allowed
    requires p == path ==> Ask(v, plan, r.oldCiphertext) in allowed + {None}
    requires o.createBackup ==> BackupPath(o, path) in w.files
    requires p == path && o.createBackup ==> Lookup(w.files, BackupPath(o, path)) in allowed
    ensures Stays(w, Exchange(o, v, w, path, plan, r).world, p, allowed)
  {
    match Ask(v, plan, r.oldCiphertext)
    case None => RollbackStays(o, w, path, plan, p, allowed);
    case Some(c) =>
      if GetKeyVersion(c).Some? {
        var w1 := WriteKey(w, path, c, plan.write).world;
        var prefix := Join(Dir(path), ".rewrap-");
        var f := plan.write.(open := false);
        ReplacedStays(w, prefix, path, c, f, p, allowed);
        var bak := BackupPath(o, path);
        assert bak != path by { assert |bak| > |path|; }
        if !StageSucceeds(f) {
          if o.createBackup { ReplacedStays(w, prefix, path, c, f, bak, {Lookup(w.files, bak)}); }
          ReplaceIsAtomic(w, prefix, path, c, f);
          RollbackStays(o, w1, path, plan, p, allowed);
          StaysTransitive(w, w1, Rollback(o, w1, path, plan), p, allowed);
        }
      }
  }

  /**
   Every path: what RewrapFile on `path` can make of any path `p`, at any step. The key file itself
   can only take Vault's answer, the backup only the old ciphertext, and all else stays as it is.
   */
  lemma RewrapStays(o: Options, v: Vault, w: World, path: string, plan: Plan,
                    p: string, allowed: set<Option<string>>)
    requires NotTemp(w, p) && Lookup(w.files, p) in allowed
    requires p == path && path in w.files ==> Ask(v, plan, w.files[path]) in allowed + {None}
    requires p == BackupPath(o, path) && path in w.files ==> Some(w.files[path]) in allowed
    ensures Stays(w, RewrapSpec(o, v, w, path, plan).world, p, allowed)
  {
    if !plan.read && path in w.files {
      var loaded := Blank(path).(oldCiphertext := w.files[path]);
      var info := GetKeyVersionInfo(loaded.oldCiphertext, o.minVersion);
      if info.Some? && info.value.needsRewrap && !o.dryRun {
        var known := loaded.(oldVersion := info.value.version);
        if !o.createBackup {
          ExchangeStays(o, v, w, path, plan, known, p, allowed);
        } else if !plan.backup.stat {
          var prefix := Join(Dir(path), ".backup-");
          var bak := BackupPath(o, path);
          assert bak != path by { assert |bak| > |path|; }
          ReplacedStays(w, prefix, bak, w.files[path], plan.backup.stage, p, allowed);
          ReplaceIsAtomic(w, prefix, bak, w.files[path], plan.backup.stage);
          var b := Backup(o, w, path, plan.backup);
          if b.ok {
            ExchangeStays(o, v, b.world, path, plan, known.(backupCreated := true), p, allowed);
            StaysTransitive(w, b.world, RewrapSpec(o, v, w, path, plan).world, p, allowed);
          }
        }
      }
    }
  }

  // --- The account of one file, without any disk ---------------------------------------------

  datatype Verdict = Verdict(result: RewrapResult, content: Option<string>, asked: bool)

  /**
   What a call does to one key file, told without temporary files, renames or restores: from the
   contents alone it says the result, the contents afterwards and whether Vault is asked.
   */
  function VerdictFor(o: Options, v: Vault, path: string, content: Option<string>, plan: Plan): Verdict
  {
    if plan.read || content.None? then
      Verdict(Blank(path).(error := Some(ReadFailed)), content, false)
    else
      var was := content.value;
      var loaded := Blank(path).(oldCiphertext := was);
      if GetKeyVersion(was).None? then Verdict(loaded.(error := Some(BadCiphertext)), content, false) else
        var known := loaded.(oldVersion := GetKeyVersion(was).value);
        if known.oldVersion >= o.minVersion || o.dryRun then Verdict(known, content, false)
        else if o.createBackup && (plan.backup.stat || !StageSucceeds(plan.backup.stage)) then
          Verdict(known.(error := Some(BackupFailed)), content, false)
        else
          var safe := known.(backupCreated := o.createBackup);
          var answer := Ask(v, plan, was);
          if answer.None? then Verdict(safe.(error := Some(VaultFailed)), content, true) else
            var answered := safe.(newCiphertext := answer.value);
            if GetKeyVersion(answer.value).None? then
              Verdict(answered.(error := Some(BadNewVersion)), content, true)
            else
              var full := answered.(newVersion := GetKeyVersion(answer.value).value);
              if StageSucceeds(plan.write.(open := false)) then Verdict(full, answer, true)
              else Verdict(full.(error := Some(WriteFailed)), content, true)
  }

  lemma ExchangeVerdict(o: Options, v: Vault, w: World, path: string, plan: Plan, r: RewrapResult)
    requires path in w.files && w.files[path] == r.oldCiphertext
    requires o.createBackup ==> Lookup(w.files, BackupPath(o, path)) == Some(r.oldCiphertext)
    ensures var x := Exchange(o, v, w, path, plan, r);
              Lookup(x.world.files, path)
              == if x.result.error == r.error then Ask(v, plan, r.oldCiphertext) else Some(r.oldCiphertext)
    requires r.error.None?
  {
    var was := {Some(r.oldCiphertext)};
    match Ask(v, plan, r.oldCiphertext)
    case None => RollbackStays(o, w, path, plan, path, was);
    case Some(c) =>
      if GetKeyVersion(c).Some? {
        var prefix := Join(Dir(path), ".rewrap-");
        var f := plan.write.(open := false);
        ReplaceIsAtomic(w, prefix, path, c, f);
        if !StageSucceeds(f) {
          var w1 := WriteKey(w, path, c, plan.write).world;
          var bak := BackupPath(o, path);
          assert bak != path by { assert |bak| > |path|; }
          if o.createBackup { ReplacedStays(w, prefix, path, c, f, bak, was); }
          RollbackStays(o, w1, path, plan, path, was);
        }
      }
  }

  /** The disk protocol, with all its faults and roll-backs, refines the account of one file. */
  lemma RewrapRefinesVerdict(o: Options, v: Vault, w: World, path: string, plan: Plan)
    ensures var r := RewrapSpec(o, v, w, path, plan);
              Verdict(r.result, Lookup(r.world.files, path), r.asked)
              == VerdictFor(o, v, path, Lookup(w.files, path), plan)
  {
    if !plan.read && path in w.files {
      var loaded := Blank(path).(oldCiphertext := w.files[path]);
      var info := GetKeyVersionInfo(loaded.oldCiphertext, o.minVersion);
      if info.Some? && info.value.needsRewrap && !o.dryRun {
        var known := loaded.(oldVersion := info.value.version);
        if !o.createBackup {
          ExchangeVerdict(o, v, w, path, plan, known);
        } else if !plan.backup.stat {
          var bak := BackupPath(o, path);
          assert bak != path by { assert |bak| > |path|; }
          var prefix := Join(Dir(path), ".backup-");
          ReplaceIsAtomic(w, prefix, bak, w.files[path], plan.backup.stage);
          ReplacedStays(w, prefix, bak, w.files[path], plan.backup.stage, path, {Some(w.files[path])});
          var b := Backup(o, w, path, plan.backup);
          if b.ok { ExchangeVerdict(o, v, b.world, path, plan, known.(backupCreated := true)); }
        }
      }
    }
  }

  // --- Crash and fault atomicity -------------------------------------------------------------

  predicate OldOrNew(v: Vault, t: Files, path: string, before: string, answer: Option<string>)
  {
    && path in t
    && (t[path] == before || Some(t[path]) == answer)
    && v.unwrap(t[path]) == v.unwrap(before)
  }

  /**
   Whichever step fails, and wherever the process is killed, the key file holds the whole old or
   the whole new ciphertext, and either unwraps to the same data key.
   */
  lemma CrashAtomic(o: Options, v: Vault, w: World, path: string, plan: Plan)
    requires path in w.files && KeepsKeys(v)
    ensures Always(w, RewrapSpec(o, v, w, path, plan).world,
                   t => OldOrNew(v, t, path, w.files[path], Ask(v, plan, w.files[path])))
  {
    var answer := Ask(v, plan, w.files[path]);
    var allowed := {Some(w.files[path])} + if answer.Some? then {answer} else {};
    assert path != BackupPath(o, path) by { assert |BackupPath(o, path)| > |path|; }
    RewrapStays(o, v, w, path, plan, path, allowed);
    forall t: Files | Lookup(t, path) in allowed
      ensures OldOrNew(v, t, path, w.files[path], answer)
    {
    }
  }

  /** A call that reports an error leaves the old contents in place; one that does not, if it asked Vault, the new. */
  lemma ErrorLeavesOld(o: Options, v: Vault, w: World, path: string, plan: Plan)
    ensures var r := RewrapSpec(o, v, w, path, plan);
              Lookup(r.world.files, path)
              == if r.result.error.None? && r.asked then Some(r.result.newCiphertext) else Lookup(w.files, path)
  {
    RewrapRefinesVerdict(o, v, w, path, plan);
  }

  predicate CleansUp(plan: Plan)
  {
    !plan.backup.stage.cleanup && !plan.write.cleanup && !plan.restore.stage.cleanup
  }

  /** The disk when a call returns and no removal of a temporary file failed. */
  function FilesAfter(o: Options, files: Files, path: string, r: RewrapResult): Files
    requires path in files
  {
    var bak := path + (if o.backupSuffix == "" then ".bak" else o.backupSuffix);
    var saved := if r.backupCreated then files[bak := files[path]] else files;
    if r.error.None? && r.newCiphertext != "" then saved[path := r.newCiphertext] else saved
  }

  lemma RollbackRestores(o: Options, w: World, path: string, plan: Plan)
    requires path in w.files && !plan.restore.stage.cleanup
    requires o.createBackup ==> Lookup(w.files, BackupPath(o, path)) == Some(w.files[path])
    ensures Rollback(o, w, path, plan).files == w.files
  {
    if o.createBackup {
      ReplaceIsAtomic(w, Join(Dir(path), ".restore-"), path, w.files[path], plan.restore.stage);
    }
  }

  lemma ExchangeLeaves(o: Options, v: Vault, w: World, path: string, plan: Plan, r: RewrapResult)
    requires path in w.files && w.files[path] == r.oldCiphertext && CleansUp(plan)
    requires o.createBackup ==> Lookup(w.files, BackupPath(o, path)) == Some(r.oldCiphertext)
    requires r.error.None?
    ensures var x := Exchange(o, v, w, path, plan, r);
              x.world.files == if x.result.error.None? then w.files[path := x.result.newCiphertext] else w.files
  {
    match Ask(v, plan, r.oldCiphertext)
    case None => RollbackRestores(o, w, path, plan);
    case Some(c) =>
      if GetKeyVersion(c).Some? {
        var f := plan.write.(open := false);
        ReplaceIsAtomic(w, Join(Dir(path), ".rewrap-"), path, c, f);
        if !StageSucceeds(f) { RollbackRestores(o, WriteKey(w, path, c, plan.write).world, path, plan); }
      }
  }

  /** No debris: the disk differs from the start by the backup and the new ciphertext and nothing else. */
  lemma LeavesNoDebris(o: Options, v: Vault, w: World, path: string, plan: Plan)
    requires path in w.files && CleansUp(plan)
    ensures var r := RewrapSpec(o, v, w, path, plan);
              r.world.files == FilesAfter(o, w.files, path, r.result)
  {
    if !plan.read {
      var loaded := Blank(path).(oldCiphertext := w.files[path]);
      var info := GetKeyVersionInfo(loaded.oldCiphertext, o.minVersion);
      if info.Some? && info.value.needsRewrap && !o.dryRun {
        var known := loaded.(oldVersion := info.value.version);
        if !o.createBackup {
          ExchangeLeaves(o, v, w, path, plan, known);
        } else if !plan.backup.stat {
          var bak := BackupPath(o, path);
          assert bak != path by { assert |bak| > |path|; }
          ReplaceIsAtomic(w, Join(Dir(path), ".backup-"), bak, w.files[path], plan.backup.stage);
          var b := Backup(o, w, path, plan.backup);
          if b.ok { ExchangeLeaves(o, v, b.world, path, plan, known.(backupCreated := true)); }
        }
      }
    }
  }

  // --- The backup ----------------------------------------------------------------------------

  /** In a disk state, the old contents are in the key file or in the file at `bak`. */
  predicate InKeyOrBackup(t: Files, path: string, bak: string, was: string)
  {
    Lookup(t, path) == Some(was) || Lookup(t, bak) == Some(was)
  }

  lemma BackedUpExchange(o: Options, v: Vault, w: World, path: string, plan: Plan, r: RewrapResult, was: string)
    requires o.createBackup && path in w.files && Lookup(w.files, BackupPath(o, path)) == Some(was)
    ensures var z := Exchange(o, v, w, path, plan, r).world;
              && Lookup(z.files, BackupPath(o, path)) == Some(was)
              && Always(w, z, t => InKeyOrBackup(t, path, BackupPath(o, path), was))
  {
    var bak := BackupPath(o, path);
    assert bak != path by { assert |bak| > |path|; }
    ExchangeStays(o, v, w, path, plan, r, bak, {Some(was)});
  }

  lemma BackingUp(o: Options, w: World, path: string, f: CopyFaults)
    requires path in w.files
    ensures var b := Backup(o, w, path, f);
              && Lookup(b.world.files, path) == Some(w.files[path])
              && Always(w, b.world, t => InKeyOrBackup(t, path, BackupPath(o, path), w.files[path]))
              && (b.ok ==> Lookup(b.world.files, BackupPath(o, path)) == Some(w.files[path]))
  {
    var bak := BackupPath(o, path);
    assert bak != path by { assert |bak| > |path|; }
    if !f.stat {
      var prefix := Join(Dir(path), ".backup-");
      ReplacedStays(w, prefix, bak, w.files[path], f.stage, path, {Some(w.files[path])});
      ReplaceIsAtomic(w, prefix, bak, w.files[path], f.stage);
    }
  }

  /**
   With backups on, the old ciphertext is in every disk state in the key file or in the backup beside it,
   whatever fails; if a backup is reported, the backup holds it in the end.
   */
  lemma OldIsBackedUp(o: Options, v: Vault, w: World, path: string, plan: Plan)
    requires path in w.files && o.createBackup
    ensures var r := RewrapSpec(o, v, w, path, plan);
            var bak := path + (if o.backupSuffix == "" then ".bak" else o.backupSuffix);
              && Always(w, r.world, t => InKeyOrBackup(t, path, bak, w.files[path]))
              && (r.result.backupCreated ==> Lookup(r.world.files, bak) == Some(w.files[path]))
  {
    var bak := path + (if o.backupSuffix == "" then ".bak" else o.backupSuffix);
    assert bak == BackupPath(o, path);
    if !plan.read {
      var loaded := Blank(path).(oldCiphertext := w.files[path]);
      var info := GetKeyVersionInfo(loaded.oldCiphertext, o.minVersion);
      if info.Some? && info.value.needsRewrap && !o.dryRun {
        var known := loaded.(oldVersion := info.value.version, backupCreated := true);
        var b := Backup(o, w, path, plan.backup);
        BackingUp(o, w, path, plan.backup);
        if b.ok {
          BackedUpExchange(o, v, b.world, path, plan, known, w.files[path]);
          AlwaysTransitive(w, b.world, RewrapSpec(o, v, w, path, plan).world,
                           t => InKeyOrBackup(t, path, bak, w.files[path]));
        }
      }
    }
  }

  /** A backup is reported exactly if one was wanted, the file had to be rewrapped and nothing failed on the way. */
  lemma BackupReported(o: Options, v: Vault, w: World, path: string, plan: Plan)
    requires path in w.files
    ensures RewrapSpec(o, v, w, path, plan).result.backupCreated
       <==> && o.createBackup && !o.dryRun && !plan.read
            && GetKeyVersion(w.files[path]).Some? && GetKeyVersion(w.files[path]).value < o.minVersion
            && !plan.backup.stat && var f := plan.backup.stage;
                 !f.create && !f.open && f.write.None? && !f.sync && !f.close && !f.rename
  {
    RewrapRefinesVerdict(o, v, w, path, plan);
  }

  /** Restoring undoes whatever was done to the key file since its backup, however the disk changed otherwise. */
  lemma RestoreUndoes(o: Options, w: World, path: string, f: CopyFaults, w': World, f': CopyFaults)
    requires path in w.files && Backup(o, w, path, f).ok
    requires var bak := path + (if o.backupSuffix == "" then ".bak" else o.backupSuffix);
               Lookup(w'.files, bak) == Lookup(Backup(o, w, path, f).world.files, bak)
    ensures var r := Restore(o, w', path, f');
              if r.ok then Lookup(r.world.files, path) == Some(w.files[path])
              else path in w'.files ==> Lookup(r.world.files, path) == Lookup(w'.files, path)
  {
    BackingUp(o, w, path, f);
    if !f'.stat {
      var prefix := Join(Dir(path), ".restore-");
      ReplaceIsAtomic(w', prefix, path, w.files[path], f'.stage);
    }
  }

  /** Creating the temporary file that a replacement goes through is a state of the disk. */
  lemma StagingShows(w: World, prefix: string, dst: string, data: string, f: StageFaults)
    requires !f.create
    ensures var z := Replaced(w, prefix, dst, data, f).world;
              && |w.trace| < |z.trace| && w.trace <= z.trace
              && exists name :: prefix <= name && name in z.trace[|w.trace|] && name !in w.files
  {
    var tmp := TempFor(w, prefix, f);
    var created := w.Set(tmp, "");
    var m: nat :| tmp == TempName(prefix, m);
    assert prefix <= tmp && tmp in created.trace[|w.trace|];
    if !f.open {
      var n := match f.write case None => |data| case Some(k) => Min(k, |data|);
      FillExtends(created, tmp, data, n);
    }
  }

  lemma {:induction false} FillExtends(w: World, p: string, data: string, n: nat)
    requires n <= |data|
    ensures w.trace <= Fill(w, p, data, n).trace
  {
    if n > 0 { FillExtends(w, p, data, n - 1); }
  }

  /** Some state between the two shows a temporary file of a restore that the first did not have. */
  ghost predicate ShowsRestore(w: World, z: World, path: string)
  {
    exists k, name :: |w.trace| <= k < |z.trace| && Join(Dir(path), ".restore-") <= name
                      && name in z.trace[k] && name !in w.files
  }

  lemma RollbackShows(o: Options, w: World, path: string, plan: Plan)
    requires o.createBackup && BackupPath(o, path) in w.files && !plan.restore.stat && !plan.restore.stage.create
    ensures ShowsRestore(w, Rollback(o, w, path, plan), path)
    ensures w.trace <= Rollback(o, w, path, plan).trace
  {
    StagingShows(w, Join(Dir(path), ".restore-"), path, w.files[BackupPath(o, path)], plan.restore.stage);
  }

  lemma ShowsEarlier(w: World, w': World, z: World, path: string)
    requires w.trace <= w'.trace <= z.trace && w.files.Keys <= w'.files.Keys && ShowsRestore(w', z, path)
    ensures ShowsRestore(w, z, path)
  {
  }

  lemma ExchangeRollsBack(o: Options, v: Vault, w: World, path: string, plan: Plan, r: RewrapResult)
    requires o.createBackup && path in w.files && BackupPath(o, path) in w.files
    requires !plan.restore.stat && !plan.restore.stage.create
    requires Exchange(o, v, w, path, plan, r).result.error in {Some(VaultFailed), Some(WriteFailed)} && r.error.None?
    ensures ShowsRestore(w, Exchange(o, v, w, path, plan, r).world, path)
    ensures w.trace <= Exchange(o, v, w, path, plan, r).world.trace
  {
    match Ask(v, plan, r.oldCiphertext)
    case None => RollbackShows(o, w, path, plan);
    case Some(c) =>
      var w1 := WriteKey(w, path, c, plan.write).world;
      ReplaceIsAtomic(w, Join(Dir(path), ".rewrap-"), path, c, plan.write.(open := false));
      RollbackShows(o, w1, path, plan);
      ShowsEarlier(w, w1, Rollback(o, w1, path, plan), path);
  }

  /** After a backup, a failing request or write is followed by a restore, or at least the attempt at one. */
  lemma RestoreIsTried(o: Options, v: Vault, w: World, path: string, plan: Plan)
    requires path in w.files && !plan.restore.stat && !plan.restore.stage.create
    requires var r := RewrapSpec(o, v, w, path, plan).result;
               r.backupCreated && r.error in {Some(VaultFailed), Some(WriteFailed)}
    ensures ShowsRestore(w, RewrapSpec(o, v, w, path, plan).world, path)
  {
    var loaded := Blank(path).(oldCiphertext := w.files[path]);
    var info := GetKeyVersionInfo(loaded.oldCiphertext, o.minVersion);
    var known := loaded.(oldVersion := info.value.version, backupCreated := true);
    var b := Backup(o, w, path, plan.backup);
    BackupReported(o, v, w, path, plan);
    ReplaceIsAtomic(w, Join(Dir(path), ".backup-"), BackupPath(o, path), w.files[path], plan.backup.stage);
    ExchangeRollsBack(o, v, b.world, path, plan, known);
    ShowsEarlier(w, b.world, RewrapSpec(o, v, w, path, plan).world, path);
  }

  /** A request that fails, or an answer that is none, is reported, and the key file stays as it was. */
  lemma RefusalIsReported(o: Options, v: Vault, w: World, path: string, plan: Plan)
    requires RewrapSpec(o, v, w, path, plan).asked
    ensures path in w.files
    ensures plan.vault || v.rewrap(plan.latest, w.files[path]) in {None, Some("")} ==>
              var r := RewrapSpec(o, v, w, path, plan);
                r.result.error == Some(VaultFailed) && Lookup(r.world.files, path) == Some(w.files[path])
  {
    RewrapRefinesVerdict(o, v, w, path, plan);
  }

  /** So is a failure of any step of writing the new ciphertext, be it the last sync, close or rename. */
  lemma WriteFaultIsReported(o: Options, v: Vault, w: World, path: string, plan: Plan)
    requires RewrapSpec(o, v, w, path, plan).asked
    ensures path in w.files
    ensures var f := plan.write;
              f.create || f.write.Some? || f.sync || f.close || f.rename ==>
                var r := RewrapSpec(o, v, w, path, plan);
                  r.result.error.Some? && Lookup(r.world.files, path) == Some(w.files[path])
  {
    RewrapRefinesVerdict(o, v, w, path, plan);
  }

  lemma ResultNamesFile(o: Options, v: Vault, w: World, path: string, plan: Plan)
    ensures RewrapSpec(o, v, w, path, plan).result.filePath == path
  {
  }
}
