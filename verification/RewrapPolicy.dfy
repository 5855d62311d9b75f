/** The rewrap command as a whole: scan, batch, report; and the same again. */
module RewrapPolicy {
  import opened Common
  import opened FileSystem
  import opened Transit
  import opened Paths
  import opened Rewrap
  import opened RewrapBatches
  import opened Scanner
  import opened Reporter

  /** The tree a walk of `root` meets shows exactly the files of the disk below it. */
  ghost predicate Shows(root: string, tree: Node, files: Files)
  {
    && Proper(tree) && tree.Folder?
    && forall p :: IsFileAt(root, tree, p) <==> p in files && Below(root, p)
  }

  lemma ScanListsKeyFiles(o: Options, root: string, recursive: bool, tree: Node)
    requires CleanDir(root) && Proper(tree) && tree.Folder? && Suffix(o) == ".bak"
    ensures KeyFileList(o, Found(root, recursive, root, tree)) && Distinct(Found(root, recursive, root, tree))
  {
    var found := Found(root, recursive, root, tree);
    forall i | 0 <= i < |found| ensures HasSuffix(found[i], ".key") {
      assert found[i] in found;
      ScanFinds(root, recursive, tree, found[i]);
    }
    ScanIsDistinct(root, recursive, root, tree);
  }

  /** A rewrap batch does not change what a scan finds. */
  lemma SecondScanFindsTheSame(o: Options, v: Vault, root: string, recursive: bool, tree: Node, w: World,
                               plans: nat -> Plan, stopAt: nat, tree': Node, p: string)
    requires CleanDir(root) && Suffix(o) == ".bak" && Shows(root, tree, w.files)
    requires Shows(root, tree', BatchSpec(o, v, w, Found(root, recursive, root, tree), plans, stopAt).world.files)
    ensures p in Found(root, recursive, root, tree') <==> p in Found(root, recursive, root, tree)
  {
    ScanListsKeyFiles(o, root, recursive, tree);
    ScanFinds(root, recursive, tree, p);
    ScanFinds(root, recursive, tree', p);
    var found := Found(root, recursive, root, tree);
    if HasSuffix(p, ".key") { BatchKeepsKeyFiles(o, v, w, found, plans, Min(stopAt, |found|), p); }
  }

  /**
   Scan and rewrap without errors, with Vault at the minimum version: every scanned key file reaches
   it. Scan and rewrap again: the same files are found, no request is sent, no file changes, and
   the statistics count every file as skipped.
   */
  lemma RewrapTwice(o: Options, v: Vault, root: string, recursive: bool,
                    w: World, tree: Node, plans: nat -> Plan, tree': Node, plans': nat -> Plan)
    requires CleanDir(root) && Suffix(o) == ".bak" && !o.dryRun && IssuesLatest(v)
    requires forall i: nat :: plans(i).latest >= o.minVersion && !plans'(i).read
    requires Shows(root, tree, w.files)
    requires var found := Found(root, recursive, root, tree);
             var first := BatchSpec(o, v, w, found, plans, |found|);
               AddAll(EMPTY, first.results).failed == 0 && Shows(root, tree', first.world.files)
    ensures var found := Found(root, recursive, root, tree);
            var found' := Found(root, recursive, root, tree');
            var first := BatchSpec(o, v, w, found, plans, |found|);
            var second := BatchSpec(o, v, first.world, found', plans', |found'|);
              && (forall p :: p in found' <==> p in found)
              && (forall p | p in found :: UpToDate(o, first.world.files, p))
              && second.world == first.world && second.requests == 0
              && AddAll(EMPTY, second.results).skipped == |found'|
  {
    var found := Found(root, recursive, root, tree);
    var found' := Found(root, recursive, root, tree');
    var first := BatchSpec(o, v, w, found, plans, |found|);
    var second := BatchSpec(o, v, first.world, found', plans', |found'|);
    ScanListsKeyFiles(o, root, recursive, tree);
    FirstBatchReachesPolicy(o, v, w, found, plans);
    forall p ensures p in found' <==> p in found {
      SecondScanFindsTheSame(o, v, root, recursive, tree, w, plans, |found|, tree', p);
    }
    forall i | 0 <= i < |found'| ensures UpToDate(o, first.world.files, found'[i]) && !plans'(i).read {
      assert found'[i] in found';
    }
    NothingToDo(o, v, first.world, found', plans', |found'|);
    BatchAligned(o, v, first.world, found', plans', |found'|);
    CountersMatchLists(second.results);
    AllOfOneKind(second.results, Skipped);
  }

  lemma NoFailures(rs: seq<RewrapResult>, i: nat)
    requires i < |rs| && AddAll(EMPTY, rs).failed == 0
    ensures rs[i].error.None?
  {
    CountersMatchLists(rs);
    FailureIsListed(rs, i);
  }

  lemma {:induction false} FailureIsListed(rs: seq<RewrapResult>, i: nat)
    requires i < |rs|
    ensures rs[i].error.Some? ==> FilesOf(rs, Failed) != []
  {
    if i < |rs| - 1 { FailureIsListed(rs[..|rs| - 1], i); }
  }

  lemma FirstBatchReachesPolicy(o: Options, v: Vault, w: World, found: seq<string>, plans: nat -> Plan)
    requires KeyFileList(o, found) && Distinct(found) && !o.dryRun && IssuesLatest(v)
    requires forall i: nat :: plans(i).latest >= o.minVersion
    requires AddAll(EMPTY, BatchSpec(o, v, w, found, plans, |found|).results).failed == 0
    ensures forall p | p in found :: UpToDate(o, BatchSpec(o, v, w, found, plans, |found|).world.files, p)
  {
    var first := BatchSpec(o, v, w, found, plans, |found|);
    forall p | p in found ensures UpToDate(o, first.world.files, p) {
      var i :| 0 <= i < |found| && found[i] == p;
      BatchIsolated(o, v, w, found, plans, |found|, i);
      NoFailures(first.results, i);
      BatchReachesPolicy(o, v, w, found, plans, i);
    }
  }
}
