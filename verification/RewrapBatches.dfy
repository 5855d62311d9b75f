/**
 Whole batches and whole histories of batches: alignment and isolation of the results, reaching the
 minimum version, doing nothing the second time, and never losing a data key.
 */
module RewrapBatches {
  import opened Common
  import opened FileSystem
  import opened KeyVersion
  import opened Rewrap
  import opened RewrapSafety
  import opened Transit
  import opened Reporter

  // --- The loop, for any step ----------------------------------------------------------------

  /** The disk that file number `i` meets. */
  function Before(step: Step, w: World, i: nat): World { BatchUpTo(step, w, i).world }

  lemma {:induction false} ResultAt(step: Step, w: World, n: nat, i: nat)
    requires i < n
    ensures |BatchUpTo(step, w, n).results| == n
    ensures BatchUpTo(step, w, n).results[i] == step(Before(step, w, i), i).result
  {
    if n > 1 { ResultAt(step, w, n - 1, if i < n - 1 then i else 0); }
  }

  ghost predicate StepPreserves(step: Step, i: nat, P: Files -> bool)
  {
    forall w: World {:trigger step(w, i)} :: P(w.files) ==> Always(w, step(w, i).world, P)
  }

  lemma OneStep(step: Step, w: World, i: nat, P: Files -> bool)
    requires StepPreserves(step, i, P) && P(Before(step, w, i).files)
    ensures Always(Before(step, w, i), Before(step, w, i + 1), P)
  {
  }

  /** What every step preserves holds in all states from file `m` to file `n`. */
  lemma {:induction false} LoopAlways(step: Step, w: World, m: nat, n: nat, P: Files -> bool)
    requires m <= n && P(Before(step, w, m).files)
    requires forall i | m <= i < n :: StepPreserves(step, i, P)
    ensures Always(Before(step, w, m), Before(step, w, n), P)
  {
    if m < n {
      LoopAlways(step, w, m, n - 1, P);
      OneStep(step, w, n - 1, P);
      AlwaysTransitive(Before(step, w, m), Before(step, w, n - 1), Before(step, w, n), P);
    }
  }

  function CountTrue(b: nat -> bool, n: nat): nat
  {
    if n == 0 then 0 else CountTrue(b, n - 1) + if b(n - 1) then 1 else 0
  }

  lemma {:induction false} LoopRequests(step: Step, w: World, n: nat, asks: nat -> bool)
    requires forall i | 0 <= i < n :: step(Before(step, w, i), i).asked == asks(i)
    ensures BatchUpTo(step, w, n).requests == CountTrue(asks, n)
  {
    if n > 0 { LoopRequests(step, w, n - 1, asks); }
  }

  lemma {:induction false} LoopIdle(step: Step, w: World, n: nat)
    requires forall i | 0 <= i < n :: step(w, i).world == w && !step(w, i).asked
    ensures BatchUpTo(step, w, n).world == w && BatchUpTo(step, w, n).requests == 0
  {
    if n > 0 { LoopIdle(step, w, n - 1); }
  }

  /** The step neither creates nor removes the file at `p`. */
  ghost predicate StepKeeps(step: Step, i: nat, p: string)
  {
    forall w: World {:trigger step(w, i)} :: p in step(w, i).world.files <==> p in w.files
  }

  lemma {:induction false} LoopKeeps(step: Step, w: World, n: nat, p: string)
    requires forall i | 0 <= i < n :: StepKeeps(step, i, p)
    ensures p in Before(step, w, n).files <==> p in w.files
  {
    if n > 0 {
      LoopKeeps(step, w, n - 1, p);
      assert StepKeeps(step, n - 1, p);
    }
  }

  // --- File names ----------------------------------------------------------------------------

  /** The file names a scan produces, with the default backup suffix. */
  predicate KeyFileList(o: Options, keyFiles: seq<string>)
  {
    && Suffix(o) == ".bak"
    && (forall i | 0 <= i < |keyFiles| :: HasSuffix(keyFiles[i], ".key"))
  }

  lemma KeyEnding(p: string)
    requires HasSuffix(p, ".key")
    ensures !HasSuffix(p, ".bak") && !HasSuffix(p, TEMP_SUFFIX)
  {
    assert p[|p| - 1] == ".key"[3];
  }

  lemma NotABackup(o: Options, p: string, path: string)
    requires Suffix(o) == ".bak" && !HasSuffix(p, ".bak")
    ensures p != BackupPath(o, path)
  {
    SuffixOfConcat(path, ".bak");
  }

  // --- Alignment and isolation ---------------------------------------------------------------

  /** Results come in input order, one for each file reached before cancellation. */
  lemma BatchAligned(o: Options, v: Vault, w: World, keyFiles: seq<string>, plans: nat -> Plan, stopAt: nat)
    ensures var results := BatchSpec(o, v, w, keyFiles, plans, stopAt).results;
              && |results| == Min(stopAt, |keyFiles|)
              && forall i | 0 <= i < |results| :: results[i].filePath == keyFiles[i]
  {
    var step := StepOf(o, v, keyFiles, plans);
    var n := Min(stopAt, |keyFiles|);
    if n > 0 { ResultAt(step, w, n, 0); }
    forall i | 0 <= i < n
      ensures BatchUpTo(step, w, n).results[i].filePath == keyFiles[i]
    {
      ResultAt(step, w, n, i);
      ResultNamesFile(o, v, Before(step, w, i), keyFiles[i], plans(i));
    }
  }

  /** A path that is neither listed nor the backup of a listed file. */
  predicate Unlisted(o: Options, keyFiles: seq<string>, p: string)
  {
    forall i | 0 <= i < |keyFiles| :: p != keyFiles[i] && p != BackupPath(o, keyFiles[i])
  }

  lemma StepKeepsPath(o: Options, v: Vault, keyFiles: seq<string>, plans: nat -> Plan, i: nat,
                      p: string, content: Option<string>)
    requires content.Some? || !HasSuffix(p, TEMP_SUFFIX)
    requires i < |keyFiles| ==> p != keyFiles[i] && p != BackupPath(o, keyFiles[i])
    ensures StepPreserves(StepOf(o, v, keyFiles, plans), i, t => Lookup(t, p) in {content})
  {
    if i < |keyFiles| {
      forall w: World | Lookup(w.files, p) in {content}
        ensures Always(w, StepOf(o, v, keyFiles, plans)(w, i).world, t => Lookup(t, p) in {content})
      {
        RewrapStays(o, v, w, keyFiles[i], plans(i), p, {content});
      }
    }
  }

  /** Only listed files, their backups and temporary files can change, at any step of a batch. */
  lemma BatchFrame(o: Options, v: Vault, w: World, keyFiles: seq<string>, plans: nat -> Plan, stopAt: nat, p: string)
    requires p in w.files || !HasSuffix(p, TEMP_SUFFIX)
    requires Unlisted(o, keyFiles, p)
    ensures Stays(w, BatchSpec(o, v, w, keyFiles, plans, stopAt).world, p, {Lookup(w.files, p)})
  {
    var step := StepOf(o, v, keyFiles, plans);
    var P := (t: Files) => Lookup(t, p) in {Lookup(w.files, p)};
    forall i: nat ensures StepPreserves(step, i, P) {
      StepKeepsPath(o, v, keyFiles, plans, i, p, Lookup(w.files, p));
    }
    LoopAlways(step, w, 0, Min(stopAt, |keyFiles|), P);
  }

  /** The verdict on file number `i`, judged on the disk the batch started from. */
  function Alone(o: Options, v: Vault, files: Files, keyFiles: seq<string>, plans: nat -> Plan, i: nat): Verdict
    requires i < |keyFiles|
  {
    VerdictFor(o, v, keyFiles[i], Lookup(files, keyFiles[i]), plans(i))
  }

  /** Between files `m` and `n` of a batch, a file with another position keeps its contents. */
  lemma OthersKeep(o: Options, v: Vault, w: World, keyFiles: seq<string>, plans: nat -> Plan, m: nat, n: nat, i: nat)
    requires m <= n <= |keyFiles| && i < |keyFiles| && !(m <= i < n)
    requires KeyFileList(o, keyFiles) && Distinct(keyFiles)
    ensures var step := StepOf(o, v, keyFiles, plans);
              Lookup(Before(step, w, n).files, keyFiles[i]) == Lookup(Before(step, w, m).files, keyFiles[i])
  {
    var step := StepOf(o, v, keyFiles, plans);
    var p := keyFiles[i];
    var content := Lookup(Before(step, w, m).files, p);
    KeyEnding(p);
    var P := (t: Files) => Lookup(t, p) in {content};
    forall j | m <= j < n ensures StepPreserves(step, j, P) {
      NotABackup(o, p, keyFiles[j]);
      StepKeepsPath(o, v, keyFiles, plans, j, p, content);
    }
    LoopAlways(step, w, m, n, P);
  }

  /**
   Every file a batch reaches fares exactly as if it were rewrapped alone on the initial disk: same
   result and same final contents, whatever happens to the files around it.
   */
  lemma BatchIsolated(o: Options, v: Vault, w: World, keyFiles: seq<string>, plans: nat -> Plan, stopAt: nat, i: nat)
    requires i < Min(stopAt, |keyFiles|) && KeyFileList(o, keyFiles) && Distinct(keyFiles)
    ensures var b := BatchSpec(o, v, w, keyFiles, plans, stopAt);
              && i < |b.results|
              && b.results[i] == Alone(o, v, w.files, keyFiles, plans, i).result
              && Lookup(b.world.files, keyFiles[i]) == Alone(o, v, w.files, keyFiles, plans, i).content
  {
    var step := StepOf(o, v, keyFiles, plans);
    var n := Min(stopAt, |keyFiles|);
    ResultAt(step, w, n, i);
    OthersKeep(o, v, w, keyFiles, plans, 0, i, i);
    RewrapRefinesVerdict(o, v, Before(step, w, i), keyFiles[i], plans(i));
    OthersKeep(o, v, w, keyFiles, plans, i + 1, n, i);
  }

  /** And Vault is asked once for each file reached that would ask it alone. */
  lemma BatchRequests(o: Options, v: Vault, w: World, keyFiles: seq<string>, plans: nat -> Plan, stopAt: nat)
    requires KeyFileList(o, keyFiles) && Distinct(keyFiles)
    ensures BatchSpec(o, v, w, keyFiles, plans, stopAt).requests
         == CountTrue((i: nat) => i < |keyFiles| && Alone(o, v, w.files, keyFiles, plans, i).asked,
                      Min(stopAt, |keyFiles|))
  {
    var step := StepOf(o, v, keyFiles, plans);
    var n := Min(stopAt, |keyFiles|);
    forall i | 0 <= i < n
      ensures step(Before(step, w, i), i).asked == Alone(o, v, w.files, keyFiles, plans, i).asked
    {
      OthersKeep(o, v, w, keyFiles, plans, 0, i, i);
      RewrapRefinesVerdict(o, v, Before(step, w, i), keyFiles[i], plans(i));
    }
    LoopRequests(step, w, n, (i: nat) => i < |keyFiles| && Alone(o, v, w.files, keyFiles, plans, i).asked);
  }

  /** Faults and Vault answers met by the other files of a batch do not change what happens to file `i`. */
  lemma OthersDoNotMatter(o: Options, v: Vault, w: World, keyFiles: seq<string>, i: nat,
                          plans: nat -> Plan, plans': nat -> Plan)
    requires i < |keyFiles| && KeyFileList(o, keyFiles) && Distinct(keyFiles)
    requires plans(i) == plans'(i)
    ensures var b := BatchSpec(o, v, w, keyFiles, plans, |keyFiles|);
            var b' := BatchSpec(o, v, w, keyFiles, plans', |keyFiles|);
              && i < |b.results| && i < |b'.results|
              && b.results[i] == b'.results[i]
              && Lookup(b.world.files, keyFiles[i]) == Lookup(b'.world.files, keyFiles[i])
  {
    BatchIsolated(o, v, w, keyFiles, plans, |keyFiles|, i);
    BatchIsolated(o, v, w, keyFiles, plans', |keyFiles|, i);
  }

  // --- Reaching the minimum version, and doing nothing the second time -------------------------

  predicate MeetsMinimum(o: Options, ciphertext: string)
  {
    GetKeyVersion(ciphertext).Some? && GetKeyVersion(ciphertext).value >= o.minVersion
  }

  predicate UpToDate(o: Options, files: Files, p: string)
  {
    p in files && MeetsMinimum(o, files[p])
  }

  /**
   A real batch brings every listed key file without an error to the minimum version, exactly when
   Vault's newest version was that high when it was asked for this file.
   */
  lemma BatchReachesPolicy(o: Options, v: Vault, w: World, keyFiles: seq<string>, plans: nat -> Plan, i: nat)
    requires KeyFileList(o, keyFiles) && Distinct(keyFiles) && !o.dryRun && IssuesLatest(v) && i < |keyFiles|
    requires Alone(o, v, w.files, keyFiles, plans, i).result.error.None?
    ensures UpToDate(o, BatchSpec(o, v, w, keyFiles, plans, |keyFiles|).world.files, keyFiles[i])
       <==> UpToDate(o, w.files, keyFiles[i]) || plans(i).latest >= o.minVersion
  {
    BatchIsolated(o, v, w, keyFiles, plans, |keyFiles|, i);
  }

  lemma NothingToDoFor(o: Options, v: Vault, w: World, path: string, plan: Plan)
    requires UpToDate(o, w.files, path) && !plan.read
    ensures var r := RewrapSpec(o, v, w, path, plan);
              r.world == w && KindOf(r.result) == Skipped && !r.asked
  {
  }

  /** On up-to-date files a batch, real or dry, sends no request, changes nothing and skips every file. */
  lemma NothingToDo(o: Options, v: Vault, w: World, keyFiles: seq<string>, plans: nat -> Plan, stopAt: nat)
    requires forall i | 0 <= i < |keyFiles| :: UpToDate(o, w.files, keyFiles[i]) && !plans(i).read
    ensures var b := BatchSpec(o, v, w, keyFiles, plans, stopAt);
              && b.world == w && b.requests == 0
              && forall r | r in b.results :: KindOf(r) == Skipped
  {
    var step := StepOf(o, v, keyFiles, plans);
    var n := Min(stopAt, |keyFiles|);
    forall i | 0 <= i < n
      ensures step(w, i).world == w && !step(w, i).asked && KindOf(step(w, i).result) == Skipped
    {
      NothingToDoFor(o, v, w, keyFiles[i], plans(i));
    }
    LoopIdle(step, w, n);
    forall r | r in BatchUpTo(step, w, n).results ensures KindOf(r) == Skipped {
      if n > 0 {
        ResultAt(step, w, n, 0);
        var i :| 0 <= i < n && r == BatchUpTo(step, w, n).results[i];
        ResultAt(step, w, n, i);
        LoopIdle(step, w, i);
      }
    }
  }

  lemma RewrapKeepsKeyFile(o: Options, v: Vault, w: World, path: string, plan: Plan, p: string)
    requires Suffix(o) == ".bak" && HasSuffix(p, ".key")
    ensures p in RewrapSpec(o, v, w, path, plan).world.files <==> p in w.files
  {
    KeyEnding(p);
    NotABackup(o, p, path);
    if p == path {
      RewrapRefinesVerdict(o, v, w, p, plan);
    } else {
      RewrapStays(o, v, w, path, plan, p, {Lookup(w.files, p)});
    }
  }

  /** A batch neither creates nor removes a `.key` file, so the next scan finds the same ones. */
  lemma BatchKeepsKeyFiles(o: Options, v: Vault, w: World, keyFiles: seq<string>, plans: nat -> Plan,
                           n: nat, p: string)
    requires n <= |keyFiles| && KeyFileList(o, keyFiles) && HasSuffix(p, ".key")
    ensures p in Before(StepOf(o, v, keyFiles, plans), w, n).files <==> p in w.files
  {
    var step := StepOf(o, v, keyFiles, plans);
    forall i | 0 <= i < n ensures StepKeeps(step, i, p) {
      forall w': World ensures p in step(w', i).world.files <==> p in w'.files {
        RewrapKeepsKeyFile(o, v, w', keyFiles[i], plans(i), p);
      }
    }
    LoopKeeps(step, w, n, p);
  }

  // --- Histories of batches ------------------------------------------------------------------

  /** One batch in a history: real or dry, cancelled at some file, perhaps killed at some disk state. */
  datatype Batch = Batch(o: Options, keyFiles: seq<string>, plans: nat -> Plan, stopAt: nat, crash: Option<nat>)

  function AfterBatch(v: Vault, files: Files, b: Batch): Files
  {
    var end := BatchSpec(b.o, v, World(files, []), b.keyFiles, b.plans, b.stopAt).world;
    if b.crash.Some? && b.crash.value < |end.trace| then end.trace[b.crash.value] else end.files
  }

  function AfterBatches(v: Vault, files: Files, bs: seq<Batch>): Files
  {
    if bs == [] then files else AfterBatch(v, AfterBatches(v, files, bs[..|bs| - 1]), bs[|bs| - 1])
  }

  predicate StillUnwraps(v: Vault, t: Files, p: string, key: Option<string>)
  {
    p in t && v.unwrap(t[p]) == key
  }

  lemma RewrapKeepsDataKey(o: Options, v: Vault, w: World, path: string, plan: Plan, p: string, key: Option<string>)
    requires KeepsKeys(v) && Suffix(o) == ".bak" && HasSuffix(p, ".key") && StillUnwraps(v, w.files, p, key)
    ensures Always(w, RewrapSpec(o, v, w, path, plan).world, t => StillUnwraps(v, t, p, key))
  {
    var answer := Ask(v, plan, w.files[p]);
    var allowed := {Some(w.files[p])} + if p == path && answer.Some? then {answer} else {};
    KeyEnding(p);
    NotABackup(o, p, path);
    RewrapStays(o, v, w, path, plan, p, allowed);
    forall t: Files | Lookup(t, p) in allowed
      ensures StillUnwraps(v, t, p, key)
    {
    }
  }

  /** At every disk state of every batch a key file still stands for the same data key. */
  lemma BatchKeepsDataKey(o: Options, v: Vault, w: World, keyFiles: seq<string>, plans: nat -> Plan, stopAt: nat,
                          p: string, key: Option<string>)
    requires KeyFileList(o, keyFiles) && KeepsKeys(v) && HasSuffix(p, ".key") && StillUnwraps(v, w.files, p, key)
    ensures Always(w, BatchSpec(o, v, w, keyFiles, plans, stopAt).world, t => StillUnwraps(v, t, p, key))
  {
    var step := StepOf(o, v, keyFiles, plans);
    var P := (t: Files) => StillUnwraps(v, t, p, key);
    forall i: nat ensures StepPreserves(step, i, P) {
      forall w: World | StillUnwraps(v, w.files, p, key)
        ensures Always(w, step(w, i).world, P)
      {
        if i < |keyFiles| { RewrapKeepsDataKey(o, v, w, keyFiles[i], plans(i), p, key); }
      }
    }
    LoopAlways(step, w, 0, Min(stopAt, |keyFiles|), P);
  }

  /** No history of batches changes the data key that a key file stands for. */
  lemma {:induction false} HistoryKeepsDataKey(v: Vault, files: Files, bs: seq<Batch>, p: string)
    requires KeepsKeys(v) && forall b | b in bs :: KeyFileList(b.o, b.keyFiles)
    requires HasSuffix(p, ".key") && p in files
    ensures StillUnwraps(v, AfterBatches(v, files, bs), p, v.unwrap(files[p]))
  {
    if bs != [] {
      var b := bs[|bs| - 1];
      HistoryKeepsDataKey(v, files, bs[..|bs| - 1], p);
      BatchKeepsDataKey(b.o, v, World(AfterBatches(v, files, bs[..|bs| - 1]), []), b.keyFiles, b.plans, b.stopAt,
                        p, v.unwrap(files[p]));
    }
  }

  /** No history of batches touches a file that is neither a key file nor a backup. */
  lemma {:induction false} HistoryKeepsOthers(v: Vault, files: Files, bs: seq<Batch>, p: string)
    requires forall b | b in bs :: KeyFileList(b.o, b.keyFiles)
    requires p in files && !HasSuffix(p, ".key") && !HasSuffix(p, ".bak")
    ensures Lookup(AfterBatches(v, files, bs), p) == Some(files[p])
  {
    if bs != [] {
      var b := bs[|bs| - 1];
      HistoryKeepsOthers(v, files, bs[..|bs| - 1], p);
      var w := World(AfterBatches(v, files, bs[..|bs| - 1]), []);
      forall i | 0 <= i < |b.keyFiles| ensures p != BackupPath(b.o, b.keyFiles[i]) {
        NotABackup(b.o, p, b.keyFiles[i]);
      }
      BatchFrame(b.o, v, w, b.keyFiles, b.plans, b.stopAt, p);
    }
  }
}
