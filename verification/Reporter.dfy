/** Statistics over rewrap results. */
module Reporter {
  import opened Rewrap

  datatype Kind = Failed | Skipped | Successful

  function KindOf(r: RewrapResult): Kind
  {
    if r.error.Some? then Failed else if r.newVersion == 0 then Skipped else Successful
  }

  datatype Stats = Stats(
    total: nat, successful: nat, failed: nat, skipped: nat,
    versionCounts: map<nat, nat>,
    results: seq<RewrapResult>)

  function Bump(counts: map<nat, nat>, v: nat): map<nat, nat>
  {
    counts[v := (if v in counts then counts[v] else 0) + 1]
  }

  function Add(s: Stats, r: RewrapResult): Stats
  {
    var k := KindOf(r);
    Stats(
      s.total + 1,
      s.successful + if k == Successful then 1 else 0,
      s.failed + if k == Failed then 1 else 0,
      s.skipped + if k == Skipped then 1 else 0,
      if r.oldVersion > 0 then Bump(s.versionCounts, r.oldVersion) else s.versionCounts,
      s.results + [r])
  }

  function AddAll(s: Stats, rs: seq<RewrapResult>): Stats
  {
    if rs == [] then s else Add(AddAll(s, rs[..|rs| - 1]), rs[|rs| - 1])
  }

  const EMPTY: Stats := Stats(0, 0, 0, 0, map[], [])

  /** The paths of the results of one kind, in order. */
  function FilesOf(rs: seq<RewrapResult>, k: Kind): seq<string>
  {
    if rs == [] then [] else
      FilesOf(rs[..|rs| - 1], k) + if KindOf(rs[|rs| - 1]) == k then [rs[|rs| - 1].filePath] else []
  }

  class Reporter {
    var total: nat
    var successful: nat
    var failed: nat
    var skipped: nat
    var versionCounts: map<nat, nat>
    var results: seq<RewrapResult>

    function View(): Stats
      reads this
    {
      Stats(total, successful, failed, skipped, versionCounts, results)
    }

    constructor ()
      ensures View() == EMPTY
    {
      total, successful, failed, skipped := 0, 0, 0, 0;
      versionCounts, results := map[], [];
    }

    method AddResult(r: RewrapResult)
      modifies this
      ensures View() == Add(old(View()), r)
    {
      total := total + 1;
      results := results + [r];
      if r.oldVersion > 0 {
        var n := if r.oldVersion in versionCounts then versionCounts[r.oldVersion] else 0;
        versionCounts := versionCounts[r.oldVersion := n + 1];
      }
      if r.error.Some? {
        failed := failed + 1;
      } else if r.newVersion == 0 {
        skipped := skipped + 1;
      } else {
        successful := successful + 1;
      }
    }

    method AddResults(rs: seq<RewrapResult>)
      modifies this
      ensures View() == AddAll(old(View()), rs)
    {
      var i := 0;
      while i < |rs|
        invariant i <= |rs|
        invariant View() == AddAll(old(View()), rs[..i])
      {
        AddResult(rs[i]);
        i := i + 1;
        assert rs[..i][..i - 1] == rs[..i - 1];
      }
      assert rs[..i] == rs;
    }

    /** GetFailedFiles, GetSuccessfulFiles and GetSkippedFiles. */
    method GetFiles(k: Kind) returns (files: seq<string>)
      ensures files == FilesOf(results, k)
    {
      files := [];
      var i := 0;
      while i < |results|
        invariant i <= |results|
        invariant files == FilesOf(results[..i], k)
      {
        if KindOf(results[i]) == k { files := files + [results[i].filePath]; }
        i := i + 1;
        assert results[..i][..i - 1] == results[..i - 1];
      }
      assert results[..i] == results;
    }
  }

  /** The counters are the lengths of the three lists, and every result is in exactly one of them. */
  lemma {:induction false} CountersMatchLists(rs: seq<RewrapResult>)
    ensures var s := AddAll(EMPTY, rs);
              && s.results == rs
              && s.failed == |FilesOf(rs, Failed)|
              && s.skipped == |FilesOf(rs, Skipped)|
              && s.successful == |FilesOf(rs, Successful)|
              && s.total == |rs| == s.failed + s.skipped + s.successful
  {
    if rs != [] {
      CountersMatchLists(rs[..|rs| - 1]);
      assert rs == rs[..|rs| - 1] + [rs[|rs| - 1]];
    }
  }

  /** How many of the results come from a ciphertext of this version. */
  function CountVersion(rs: seq<RewrapResult>, version: nat): nat
  {
    if rs == [] then 0 else
      CountVersion(rs[..|rs| - 1], version) + if rs[|rs| - 1].oldVersion == version then 1 else 0
  }

  /** Each known version that occurs is counted as often as it does, and no other. */
  lemma {:induction false} VersionsAreCounted(rs: seq<RewrapResult>, version: nat)
    ensures var counts := AddAll(EMPTY, rs).versionCounts;
              && (version in counts <==> version > 0 && exists r :: r in rs && r.oldVersion == version)
              && (version in counts ==> counts[version] == CountVersion(rs, version))
              && (version !in counts && version > 0 ==> CountVersion(rs, version) == 0)
  {
    if rs != [] {
      VersionsAreCounted(rs[..|rs| - 1], version);
      assert rs == rs[..|rs| - 1] + [rs[|rs| - 1]];
    }
  }

  lemma {:induction false} FilesConcat(rs: seq<RewrapResult>, rs': seq<RewrapResult>, k: Kind)
    ensures FilesOf(rs + rs', k) == FilesOf(rs, k) + FilesOf(rs', k)
  {
    if rs' == [] {
      assert rs + rs' == rs;
    } else {
      FilesConcat(rs, rs'[..|rs'| - 1], k);
      assert (rs + rs')[..|rs + rs'| - 1] == rs + rs'[..|rs'| - 1];
    }
  }

  /** The list of one kind goes through the results in order and takes the paths of those of that kind. */
  lemma FilesInOrder(rs: seq<RewrapResult>, r: RewrapResult, rs': seq<RewrapResult>, k: Kind)
    ensures FilesOf(rs + [r] + rs', k)
         == FilesOf(rs, k) + (if KindOf(r) == k then [r.filePath] else []) + FilesOf(rs', k)
  {
    FilesConcat(rs + [r], rs', k);
    assert (rs + [r])[..|rs|] == rs;
  }

  lemma {:induction false} AllOfOneKind(rs: seq<RewrapResult>, k: Kind)
    requires forall r | r in rs :: KindOf(r) == k
    ensures |FilesOf(rs, k)| == |rs|
  {
    if rs != [] { AllOfOneKind(rs[..|rs| - 1], k); }
  }

  lemma {:induction false} NoneOfKind(rs: seq<RewrapResult>, k: Kind)
    requires forall r | r in rs :: KindOf(r) != k
    ensures FilesOf(rs, k) == []
  {
    if rs != [] { NoneOfKind(rs[..|rs| - 1], k); }
  }
}
