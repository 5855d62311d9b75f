/**
 What a dry run reports. The guide promises a preview of what would be rewrapped
 (docs/guides/REWRAP_GUIDE.md:80), and the command logs the number of successful results as
 `would_rewrap`. But a file that would be rewrapped is counted as skipped, "already at minimum
 version". These lemmas say when the preview is right.
 */
module DryRun {
  import opened Common
  import opened FileSystem
  import opened KeyVersion
  import opened Transit
  import opened Rewrap
  import opened RewrapSafety
  import opened RewrapBatches
  import opened Reporter

  /** The key file can be read and says its version. */
  predicate Legible(files: Files, path: string, plan: Plan)
  {
    !plan.read && path in files && GetKeyVersion(files[path]).Some?
  }

  /** ... and that is too low, so a real run would rewrap it. */
  predicate Outdated(o: Options, files: Files, path: string, plan: Plan)
  {
    Legible(files, path, plan) && GetKeyVersion(files[path]).value < o.minVersion
  }

  lemma DryRunOf(o: Options, v: Vault, w: World, path: string, plan: Plan)
    requires o.dryRun
    ensures var r := RewrapSpec(o, v, w, path, plan);
              && KindOf(r.result) == (if Legible(w.files, path, plan) then Skipped else Failed)
              && r.world == w && !r.asked
  {
  }

  /**
   A dry run asks nothing and changes nothing, and reports every legible file as skipped, whatever its
   version, and every other file as failed.
   */
  lemma DryRunReports(o: Options, v: Vault, w: World, keyFiles: seq<string>, plans: nat -> Plan, stopAt: nat)
    requires o.dryRun
    ensures var b := BatchSpec(o, v, w, keyFiles, plans, stopAt);
              && b.world == w && b.requests == 0 && |b.results| == Min(stopAt, |keyFiles|)
              && forall i | 0 <= i < |b.results| ::
                   KindOf(b.results[i]) == if Legible(w.files, keyFiles[i], plans(i)) then Skipped else Failed
  {
    var step := StepOf(o, v, keyFiles, plans);
    var n := Min(stopAt, |keyFiles|);
    forall i | 0 <= i < n
      ensures step(w, i).world == w && !step(w, i).asked
      ensures KindOf(step(w, i).result) == if Legible(w.files, keyFiles[i], plans(i)) then Skipped else Failed
    {
      DryRunOf(o, v, w, keyFiles[i], plans(i));
    }
    LoopIdle(step, w, n);
    if n > 0 { ResultAt(step, w, n, 0); }
    forall i | 0 <= i < n
      ensures KindOf(BatchUpTo(step, w, n).results[i])
           == if Legible(w.files, keyFiles[i], plans(i)) then Skipped else Failed
    {
      ResultAt(step, w, n, i);
      LoopIdle(step, w, i);
    }
  }

  /** So a dry run never reports a file as successful, whatever it would have rewrapped. */
  lemma DryRunReportsNoSuccess(o: Options, v: Vault, w: World, keyFiles: seq<string>, plans: nat -> Plan, stopAt: nat)
    requires o.dryRun
    ensures AddAll(EMPTY, BatchSpec(o, v, w, keyFiles, plans, stopAt).results).successful == 0
  {
    var rs := BatchSpec(o, v, w, keyFiles, plans, stopAt).results;
    DryRunReports(o, v, w, keyFiles, plans, stopAt);
    forall r | r in rs ensures KindOf(r) != Successful {
      var i :| 0 <= i < |rs| && rs[i] == r;
      assert KindOf(rs[i]) != Successful;
    }
    NoneOfKind(rs, Successful);
    CountersMatchLists(rs);
  }

  /** What "skipped (already at minimum version)" says of a file in a dry run is true exactly if it is not outdated. */
  lemma SkippedLabelIsRight(o: Options, v: Vault, w: World, keyFiles: seq<string>, plans: nat -> Plan, i: nat)
    requires o.dryRun && i < |keyFiles|
    ensures var rs := BatchSpec(o, v, w, keyFiles, plans, |keyFiles|).results;
              && i < |rs|
              && (KindOf(rs[i]) == Skipped ==>
                    (UpToDate(o, w.files, keyFiles[i]) <==> !Outdated(o, w.files, keyFiles[i], plans(i))))
  {
    DryRunReports(o, v, w, keyFiles, plans, |keyFiles|);
  }

  // --- Compared with the real run ------------------------------------------------------------

  function Real(o: Options): Options { o.(dryRun := false) }

  /** Under the same circumstances the real run reports the same, except on outdated files. */
  lemma RealRunReports(o: Options, v: Vault, w: World, keyFiles: seq<string>, plans: nat -> Plan, i: nat)
    requires KeyFileList(o, keyFiles) && Distinct(keyFiles) && i < |keyFiles|
    requires IssuesLatest(v) && plans(i).latest >= 1
    ensures var rs := BatchSpec(Real(o), v, w, keyFiles, plans, |keyFiles|).results;
              && i < |rs|
              && (KindOf(rs[i]) == Skipped
                  <==> Legible(w.files, keyFiles[i], plans(i)) && !Outdated(o, w.files, keyFiles[i], plans(i)))
              && (!Legible(w.files, keyFiles[i], plans(i)) ==> KindOf(rs[i]) == Failed)
  {
    BatchIsolated(Real(o), v, w, keyFiles, plans, |keyFiles|, i);
  }

  lemma ReportsCompare(o: Options, v: Vault, w: World, keyFiles: seq<string>, plans: nat -> Plan, i: nat)
    requires o.dryRun && KeyFileList(o, keyFiles) && Distinct(keyFiles) && i < |keyFiles|
    requires IssuesLatest(v) && plans(i).latest >= 1
    ensures var ds := BatchSpec(o, v, w, keyFiles, plans, |keyFiles|).results;
            var rs := BatchSpec(Real(o), v, w, keyFiles, plans, |keyFiles|).results;
              && i < |ds| && i < |rs|
              && (KindOf(rs[i]) == Skipped ==> KindOf(ds[i]) == Skipped)
              && ((KindOf(ds[i]) == Skipped ==> KindOf(rs[i]) == Skipped)
                  <==> !Outdated(o, w.files, keyFiles[i], plans(i)))
  {
    DryRunReports(o, v, w, keyFiles, plans, |keyFiles|);
    RealRunReports(o, v, w, keyFiles, plans, i);
  }

  /** If every skipped file is skipped in the other list too, as many are if and only if it is the same files. */
  lemma {:induction false} FewerSkipped(ds: seq<RewrapResult>, rs: seq<RewrapResult>)
    requires |ds| == |rs|
    requires forall i | 0 <= i < |ds| :: KindOf(rs[i]) == Skipped ==> KindOf(ds[i]) == Skipped
    ensures |FilesOf(rs, Skipped)| <= |FilesOf(ds, Skipped)|
    ensures |FilesOf(rs, Skipped)| == |FilesOf(ds, Skipped)|
       <==> forall i | 0 <= i < |ds| :: KindOf(ds[i]) == Skipped ==> KindOf(rs[i]) == Skipped
  {
    if ds != [] {
      var n := |ds| - 1;
      FewerSkipped(ds[..n], rs[..n]);
      assert forall i | 0 <= i < n :: ds[..n][i] == ds[i] && rs[..n][i] == rs[i];
    }
  }

  ghost predicate NoneOutdated(o: Options, w: World, keyFiles: seq<string>, plans: nat -> Plan)
  {
    forall i | 0 <= i < |keyFiles| :: !Outdated(o, w.files, keyFiles[i], plans(i))
  }

  /**
   The preview and the run it previews, under the same circumstances, skip the same number of files
   if and only if no file is outdated, that is, if there is nothing to preview.
   */
  lemma PreviewIsRight(o: Options, v: Vault, w: World, keyFiles: seq<string>, plans: nat -> Plan)
    requires o.dryRun && KeyFileList(o, keyFiles) && Distinct(keyFiles)
    requires IssuesLatest(v) && forall i: nat :: plans(i).latest >= 1
    ensures var dry := AddAll(EMPTY, BatchSpec(o, v, w, keyFiles, plans, |keyFiles|).results);
            var run := AddAll(EMPTY, BatchSpec(Real(o), v, w, keyFiles, plans, |keyFiles|).results);
              && dry.successful == 0
              && (dry.skipped == run.skipped <==> NoneOutdated(o, w, keyFiles, plans))
  {
    var ds := BatchSpec(o, v, w, keyFiles, plans, |keyFiles|).results;
    var rs := BatchSpec(Real(o), v, w, keyFiles, plans, |keyFiles|).results;
    SkippedCompare(o, v, w, keyFiles, plans);
    DryRunReportsNoSuccess(o, v, w, keyFiles, plans, |keyFiles|);
    CountersMatchLists(ds);
    CountersMatchLists(rs);
  }

  lemma SkippedCompare(o: Options, v: Vault, w: World, keyFiles: seq<string>, plans: nat -> Plan)
    requires o.dryRun && KeyFileList(o, keyFiles) && Distinct(keyFiles)
    requires IssuesLatest(v) && forall i: nat :: plans(i).latest >= 1
    ensures var ds := BatchSpec(o, v, w, keyFiles, plans, |keyFiles|).results;
            var rs := BatchSpec(Real(o), v, w, keyFiles, plans, |keyFiles|).results;
              |FilesOf(rs, Skipped)| == |FilesOf(ds, Skipped)| <==> NoneOutdated(o, w, keyFiles, plans)
  {
    var ds := BatchSpec(o, v, w, keyFiles, plans, |keyFiles|).results;
    var rs := BatchSpec(Real(o), v, w, keyFiles, plans, |keyFiles|).results;
    BatchAligned(o, v, w, keyFiles, plans, |keyFiles|);
    BatchAligned(Real(o), v, w, keyFiles, plans, |keyFiles|);
    forall i | 0 <= i < |keyFiles|
      ensures KindOf(rs[i]) == Skipped ==> KindOf(ds[i]) == Skipped
      ensures (KindOf(ds[i]) == Skipped ==> KindOf(rs[i]) == Skipped) <==> !Outdated(o, w.files, keyFiles[i], plans(i))
    {
      ReportsCompare(o, v, w, keyFiles, plans, i);
    }
    FewerSkipped(ds, rs);
  }

  // --- One key file --------------------------------------------------------------------------

  const NO_FAULTS: StageFaults := StageFaults(0, false, false, None, false, false, false, false)

  const SMOOTH_PLAN: Plan :=
    Plan(2, false, false, CopyFaults(false, NO_FAULTS), NO_FAULTS, CopyFaults(false, NO_FAULTS))

  /** Without faults an outdated file is rewrapped. */
  lemma SmoothVerdict(o: Options, v: Vault, path: string, c: string, c': string)
    requires !o.dryRun && !o.createBackup && GetKeyVersion(c).Some? && GetKeyVersion(c).value < o.minVersion
    requires c != "" && c' != "" && v.rewrap(SMOOTH_PLAN.latest, c) == Some(c')
    requires GetKeyVersion(c').Some? && GetKeyVersion(c').value > 0
    ensures KindOf(VerdictFor(o, v, path, Some(c), SMOOTH_PLAN).result) == Successful
  {
  }

  lemma OneResult(rs: seq<RewrapResult>, k: Kind)
    requires |rs| == 1 && KindOf(rs[0]) == k
    ensures var s := AddAll(EMPTY, rs);
              && s.skipped == (if k == Skipped then 1 else 0)
              && s.successful == if k == Successful then 1 else 0
  {
    assert rs[..0] == [];
    assert AddAll(EMPTY, rs) == Add(AddAll(EMPTY, rs[..0]), rs[0]);
  }

  function ExampleOptions(dryRun: bool): Options { Options(2, dryRun, false, "") }

  lemma OneFileDry(v: Vault, path: string, c: string, w: World, plans: nat -> Plan)
    requires w.files == map[path := c] && GetKeyVersion(c).Some? && plans(0) == SMOOTH_PLAN
    ensures var dry := BatchSpec(ExampleOptions(true), v, w, [path], plans, 1).results;
              |dry| == 1 && KindOf(dry[0]) == Skipped
  {
    DryRunReports(ExampleOptions(true), v, w, [path], plans, 1);
  }

  lemma OneFileRun(v: Vault, path: string, c: string, c': string, w: World, plans: nat -> Plan)
    requires HasSuffix(path, ".key") && w.files == map[path := c] && plans(0) == SMOOTH_PLAN && c != "" && c' != ""
    requires GetKeyVersion(c) == Some(1) && GetKeyVersion(c') == Some(2) && v.rewrap(2, c) == Some(c')
    ensures var run := BatchSpec(ExampleOptions(false), v, w, [path], plans, 1).results;
              |run| == 1 && KindOf(run[0]) == Successful
  {
    var o := ExampleOptions(false);
    BatchAligned(o, v, w, [path], plans, 1);
    BatchIsolated(o, v, w, [path], plans, 1, 0);
    SmoothVerdict(o, v, path, c, c');
  }

  function AllSmooth(): nat -> Plan { _ => SMOOTH_PLAN }

  function ExampleResults(dryRun: bool): seq<RewrapResult>
  {
    var w := World(map["a.key" := Ciphertext("1", "m")], []);
    BatchSpec(ExampleOptions(dryRun), ToyVault(), w, ["a.key"], AllSmooth(), 1).results
  }

  /** A key file of version 1 with minimum 2: the dry run counts it as skipped, the real run rewraps it. */
  lemma MisleadingPreview()
    ensures var dry := AddAll(EMPTY, ExampleResults(true));
            var run := AddAll(EMPTY, ExampleResults(false));
              && dry.skipped == 1 && dry.successful == 0
              && run.skipped == 0 && run.successful == 1
  {
    var c, c' := Ciphertext("1", "m"), Ciphertext(Decimal(2), "m");
    var w := World(map["a.key" := c], []);
    ParsesShape("1", "m");
    PayloadOfCiphertext("1", "m");
    ParseOfPrint(2, "m");
    OneFileDry(ToyVault(), "a.key", c, w, AllSmooth());
    OneFileRun(ToyVault(), "a.key", c, c', w, AllSmooth());
    OneResult(ExampleResults(true), Skipped);
    OneResult(ExampleResults(false), Successful);
  }
}
