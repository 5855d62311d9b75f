/** Re-wrapping key files: options, Vault, the transaction on one file and the batch loop. */
module Rewrap {
  import opened Common
  import opened FileSystem
  import opened KeyVersion
  import opened Paths
  import opened Transit

  datatype Options = Options(minVersion: int, dryRun: bool, createBackup: bool, backupSuffix: string)

  datatype RewrapError =
    ReadFailed | BadCiphertext | BackupFailed | VaultFailed | BadNewVersion | WriteFailed

  datatype RewrapResult = RewrapResult(
    filePath: string,
    oldVersion: nat, newVersion: nat,
    oldCiphertext: string, newCiphertext: string,
    backupCreated: bool,
    error: Option<RewrapError>)

  datatype CopyFaults = CopyFaults(stat: bool, stage: StageFaults)

  /** Everything outside the program that decides one RewrapFile call. */
  datatype Plan = Plan(
    latest: nat,       // the newest key version in Vault at the time of the call
    read: bool,        // reading the key file fails
    vault: bool,       // the Vault request fails
    backup: CopyFaults, write: StageFaults, restore: CopyFaults)

  function Suffix(o: Options): string
  {
    if o.backupSuffix == "" then ".bak" else o.backupSuffix
  }

  function BackupPath(o: Options, path: string): string { path + Suffix(o) }

  function Blank(path: string): RewrapResult
  {
    RewrapResult(path, 0, 0, "", "", false, None)
  }

  // --- What each step does to the disk -------------------------------------------------------

  function Backup(o: Options, w: World, path: string, f: CopyFaults): Outcome
  {
    if f.stat || path !in w.files then Outcome(w, false)
    else Replaced(w, Join(Dir(path), ".backup-"), BackupPath(o, path), w.files[path], f.stage)
  }

  function Restore(o: Options, w: World, path: string, f: CopyFaults): Outcome
  {
    if f.stat || BackupPath(o, path) !in w.files then Outcome(w, false)
    else Replaced(w, Join(Dir(path), ".restore-"), path, w.files[BackupPath(o, path)], f.stage)
  }

  function WriteKey(w: World, path: string, data: string, f: StageFaults): Outcome
  {
    Replaced(w, Join(Dir(path), ".rewrap-"), path, data, f.(open := false))
  }

  function Rollback(o: Options, w: World, path: string, plan: Plan): World
  {
    if o.createBackup then Restore(o, w, path, plan.restore).world else w
  }

  /** RewrapDataKey: the new ciphertext, or nothing on a failed request or an empty answer. */
  function Ask(v: Vault, plan: Plan, ciphertext: string): Option<string>
  {
    if ciphertext == "" || plan.vault then None else
      match v.rewrap(plan.latest, ciphertext)
      case None => None
      case Some(c) => if c == "" then None else Some(c)
  }

  datatype Run = Run(world: World, result: RewrapResult, asked: bool)

  /** The part of RewrapFile after the backup. */
  function Exchange(o: Options, v: Vault, w: World, path: string, plan: Plan, r: RewrapResult): Run
  {
    match Ask(v, plan, r.oldCiphertext)
    case None => Run(Rollback(o, w, path, plan), r.(error := Some(VaultFailed)), true)
    case Some(c) =>
      var answered := r.(newCiphertext := c);
      match GetKeyVersion(c)
      case None => Run(w, answered.(error := Some(BadNewVersion)), true)
      case Some(version) =>
        var full := answered.(newVersion := version);
        var written := WriteKey(w, path, c, plan.write);
        if written.ok then Run(written.world, full, true)
        else Run(Rollback(o, written.world, path, plan), full.(error := Some(WriteFailed)), true)
  }

  function RewrapSpec(o: Options, v: Vault, w: World, path: string, plan: Plan): Run
  {
    if plan.read || path !in w.files then Run(w, Blank(path).(error := Some(ReadFailed)), false) else
      var loaded := Blank(path).(oldCiphertext := w.files[path]);
      match GetKeyVersionInfo(loaded.oldCiphertext, o.minVersion)
      case None => Run(w, loaded.(error := Some(BadCiphertext)), false)
      case Some(info) =>
        var known := loaded.(oldVersion := info.version);
        if !info.needsRewrap || o.dryRun then Run(w, known, false)
        else if !o.createBackup then Exchange(o, v, w, path, plan, known)
        else
          var b := Backup(o, w, path, plan.backup);
          if b.ok then Exchange(o, v, b.world, path, plan, known.(backupCreated := true))
          else Run(b.world, known.(error := Some(BackupFailed)), false)
  }

  // --- Batches -------------------------------------------------------------------------------

  datatype BatchRun = BatchRun(world: World, results: seq<RewrapResult>, requests: nat)

  /** What happens to file number `i` of a batch when the loop reaches it. */
  type Step = (World, nat) -> Run

  /** `plans(i)` is the environment of the i-th call. */
  function StepOf(o: Options, v: Vault, keyFiles: seq<string>, plans: nat -> Plan): Step
  {
    (w: World, i: nat) =>
      if i < |keyFiles| then RewrapSpec(o, v, w, keyFiles[i], plans(i)) else Run(w, Blank(""), false)
  }

  /** The loop of RewrapBatch after `n` files. */
  function BatchUpTo(step: Step, w: World, n: nat): BatchRun
  {
    if n == 0 then BatchRun(w, [], 0) else
      var before := BatchUpTo(step, w, n - 1);
      var r := step(before.world, n - 1);
      BatchRun(r.world, before.results + [r.result], before.requests + if r.asked then 1 else 0)
  }

  /** RewrapBatch when the context is found cancelled before file number `stopAt`. */
  function BatchSpec(o: Options, v: Vault, w: World, keyFiles: seq<string>, plans: nat -> Plan, stopAt: nat): BatchRun
  {
    BatchUpTo(StepOf(o, v, keyFiles, plans), w, Min(stopAt, |keyFiles|))
  }

  // --- The imperative program ----------------------------------------------------------------

  class BackupManager {
    const options: Options

    constructor (o: Options)
      ensures options == o
    {
      options := o;
    }

    method CreateBackup(disk: Disk, path: string, f: CopyFaults) returns (ok: bool)
      modifies disk
      ensures options.createBackup ==> Outcome(disk.View(), ok) == Backup(options, old(disk.View()), path, f)
      ensures options.createBackup && ok ==>
                && path in old(disk.files)
                && Lookup(disk.files, path + (if options.backupSuffix == "" then ".bak" else options.backupSuffix))
                   == Some(old(disk.files)[path])
      ensures !options.createBackup ==> ok && disk.View() == old(disk.View())
    {
      if !options.createBackup { return true; }
      if f.stat || path !in disk.files { return false; }
      ghost var w := disk.View();
      ok := disk.Replace(Join(Dir(path), ".backup-"), BackupPath(options, path), disk.files[path], f.stage);
      ReplaceIsAtomic(w, Join(Dir(path), ".backup-"), BackupPath(options, path), w.files[path], f.stage);
    }

    method RestoreBackup(disk: Disk, path: string, f: CopyFaults) returns (ok: bool)
      modifies disk
      ensures Outcome(disk.View(), ok) == Restore(options, old(disk.View()), path, f)
    {
      var backupPath := BackupPath(options, path);
      if f.stat || backupPath !in disk.files { return false; }
      ok := disk.Replace(Join(Dir(path), ".restore-"), path, disk.files[backupPath], f.stage);
    }
  }

  class Rewrapper {
    const options: Options
    const vault: Vault
    const backups: BackupManager
    var requests: nat // rewrap requests sent to Vault so far

    ghost predicate Valid() { backups.options == options }

    constructor (o: Options, v: Vault)
      ensures Valid() && options == o && vault == v && requests == 0
    {
      options := o;
      vault := v;
      backups := new BackupManager(o);
      requests := 0;
    }

    method RewrapDataKey(ciphertext: string, plan: Plan) returns (answer: Option<string>)
      modifies this
      ensures answer == Ask(vault, plan, ciphertext)
      ensures requests == old(requests) + 1
    {
      requests := requests + 1;
      answer := None;
      if ciphertext == "" || plan.vault { return; }
      answer := vault.rewrap(plan.latest, ciphertext);
      if answer == Some("") { answer := None; }
    }

    method WriteKeyFileAtomic(disk: Disk, path: string, data: string, f: StageFaults) returns (ok: bool)
      modifies disk
      ensures Outcome(disk.View(), ok) == WriteKey(old(disk.View()), path, data, f)
    {
      ok := disk.Replace(Join(Dir(path), ".rewrap-"), path, data, f.(open := false));
    }

    method RewrapFile(disk: Disk, path: string, plan: Plan) returns (result: RewrapResult)
      requires Valid()
      modifies this, disk
      ensures Run(disk.View(), result, requests != old(requests))
           == RewrapSpec(options, vault, old(disk.View()), path, plan)
      ensures old(requests) <= requests <= old(requests) + 1
    {
      result := Blank(path);
      if plan.read || path !in disk.files {
        result := result.(error := Some(ReadFailed));
        return;
      }
      result := result.(oldCiphertext := disk.files[path]);
      var info := GetKeyVersionInfo(result.oldCiphertext, options.minVersion);
      if info.None? {
        result := result.(error := Some(BadCiphertext));
        return;
      }
      result := result.(oldVersion := info.value.version);
      if !info.value.needsRewrap || options.dryRun { return; }

      if options.createBackup {
        var saved := backups.CreateBackup(disk, path, plan.backup);
        if !saved {
          result := result.(error := Some(BackupFailed));
          return;
        }
        result := result.(backupCreated := true);
      }

      var answer := RewrapDataKey(result.oldCiphertext, plan);
      if answer.None? {
        result := result.(error := Some(VaultFailed));
        if options.createBackup { var _ := backups.RestoreBackup(disk, path, plan.restore); }
        return;
      }
      result := result.(newCiphertext := answer.value);
      var version := GetKeyVersion(answer.value);
      if version.None? {
        result := result.(error := Some(BadNewVersion));
        return;
      }
      result := result.(newVersion := version.value);

      var written := WriteKeyFileAtomic(disk, path, answer.value, plan.write);
      if !written {
        result := result.(error := Some(WriteFailed));
        if options.createBackup { var _ := backups.RestoreBackup(disk, path, plan.restore); }
      }
    }

    method RewrapBatch(disk: Disk, keyFiles: seq<string>, plans: nat -> Plan, stopAt: nat)
      returns (results: seq<RewrapResult>, cancelled: bool)
      requires Valid()
      modifies this, disk
      ensures old(requests) <= requests
      ensures BatchRun(disk.View(), results, requests - old(requests))
           == BatchSpec(options, vault, old(disk.View()), keyFiles, plans, stopAt)
      ensures cancelled == (stopAt < |keyFiles|)
    {
      results, cancelled := [], false;
      ghost var start := disk.View();
      ghost var step := StepOf(options, vault, keyFiles, plans);
      var i := 0;
      while i < |keyFiles|
        invariant 0 <= i <= |keyFiles| && i <= stopAt && old(requests) <= requests
        invariant BatchRun(disk.View(), results, requests - old(requests))
               == BatchUpTo(step, start, i)
      {
        if stopAt <= i { return results, true; }
        var result := RewrapFile(disk, keyFiles[i], plans(i));
        results := results + [result];
        i := i + 1;
      }
    }
  }
}
