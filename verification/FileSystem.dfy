/**
 The file system: a map from paths to contents, together with the history of all the states it
 went through. Every primitive that changes a file adds one state to the history, so a process
 crash leaves the disk in one of the recorded states and "at every step" is a statement about them.

 Each primitive takes the fault that the operating system injects into it as an argument.
 */
module FileSystem {
  import opened Common
  import opened KeyVersion

  type Files = map<string, string>

  datatype World = World(files: Files, trace: seq<Files>) {

    function Enter(next: Files): World { World(next, trace + [next]) }

    function Set(p: string, b: string): World { Enter(files[p := b]) }

    function Drop(p: string): World { Enter(files - {p}) }

    function Move(a: string, b: string): World
      requires a in files
    {
      Enter((files - {a})[b := files[a]])
    }
  }

  function Lookup(files: Files, p: string): Option<string>
  {
    if p in files then Some(files[p]) else None
  }

  /** From `w` to `w'`, `P` holds at the end and in every state the disk went through. */
  ghost predicate Always(w: World, w': World, P: Files -> bool)
  {
    && w.trace <= w'.trace
    && P(w'.files)
    && forall k | |w.trace| <= k < |w'.trace| :: P(w'.trace[k])
  }

  lemma AlwaysTransitive(w0: World, w1: World, w2: World, P: Files -> bool)
    requires Always(w0, w1, P) && Always(w1, w2, P)
    ensures Always(w0, w2, P)
  {
  }

  // --- os.CreateTemp: random names are drawn until one is not taken ---------------------------

  const TEMP_SUFFIX: string := ".tmp"

  function TempName(prefix: string, n: nat): string { prefix + Decimal(n) + TEMP_SUFFIX }

  lemma TempNameInjective(prefix: string, m: nat, n: nat)
    requires TempName(prefix, m) == TempName(prefix, n)
    ensures m == n
  {
    SuffixOfConcat(prefix + Decimal(m), TEMP_SUFFIX);
    SuffixOfConcat(prefix + Decimal(n), TEMP_SUFFIX);
    assert (prefix + Decimal(m))[|prefix|..] == Decimal(m);
    assert (prefix + Decimal(n))[|prefix|..] == Decimal(n);
    DecimalInjective(m, n);
  }

  /** The first free name at or after the random number `n`. */
  function FreshTemp(taken: set<string>, prefix: string, n: nat): (name: string)
    ensures name !in taken
    ensures exists m: nat :: n <= m && name == TempName(prefix, m)
    decreases |taken|
  {
    var p := TempName(prefix, n);
    if p in taken then
      var name := FreshTemp(taken - {p}, prefix, n + 1);
      assert name != p by {
        var m: nat :| n + 1 <= m && name == TempName(prefix, m);
        if name == p { TempNameInjective(prefix, m, n); }
      }
      name
    else p
  }

  lemma FreshTempIsTemp(taken: set<string>, prefix: string, n: nat)
    ensures HasSuffix(FreshTemp(taken, prefix, n), TEMP_SUFFIX)
  {
    var m: nat :| n <= m && FreshTemp(taken, prefix, n) == TempName(prefix, m);
    SuffixOfConcat(prefix + Decimal(m), TEMP_SUFFIX);
  }

  // --- Writing a file front to back: every prefix is a state a crash can leave ----------------

  function Fill(w: World, p: string, data: string, n: nat): World
    requires n <= |data|
  {
    if n == 0 then w else Fill(w, p, data, n - 1).Set(p, data[..n])
  }

  datatype WriteFault = Fine | OpenFails | StopsAfter(n: nat)

  datatype Outcome = Outcome(world: World, ok: bool)

  /** `os.WriteFile`: truncate, then write; a failing write leaves a prefix behind. */
  function Written(w: World, p: string, data: string, fault: WriteFault): Outcome
  {
    match fault
    case Fine => Outcome(Fill(w.Set(p, ""), p, data, |data|), true)
    case OpenFails => Outcome(w, false)
    case StopsAfter(n) => Outcome(Fill(w.Set(p, ""), p, data, Min(n, |data|)), false)
  }

  lemma {:induction false} FillFiles(w: World, p: string, data: string, n: nat)
    requires n <= |data| && Lookup(w.files, p) == Some("")
    ensures Fill(w, p, data, n).files == w.files[p := data[..n]]
  {
    if n > 0 { FillFiles(w, p, data, n - 1); }
  }

  lemma WrittenFiles(w: World, p: string, data: string, fault: WriteFault)
    ensures Written(w, p, data, fault).ok == fault.Fine?
    ensures Written(w, p, data, fault).world.files
         == match fault
            case Fine => w.files[p := data]
            case OpenFails => w.files
            case StopsAfter(n) => w.files[p := data[..Min(n, |data|)]]
  {
    match fault
    case Fine => FillFiles(w.Set(p, ""), p, data, |data|); assert data[..|data|] == data;
    case OpenFails =>
    case StopsAfter(n) => FillFiles(w.Set(p, ""), p, data, Min(n, |data|));
  }

  // --- Replacing a file through a temporary file and a rename --------------------------------

  /** What goes wrong while a file is replaced: one flag per system call, in program order. */
  datatype StageFaults = StageFaults(
    seed: nat,          // random number behind the temporary name
    create: bool,       // CreateTemp fails
    open: bool,         // opening the file to copy from fails
    write: Option<nat>, // the write fails after this many bytes
    sync: bool, close: bool, rename: bool,
    cleanup: bool)      // the deferred os.Remove of the temporary file fails

  predicate StageSucceeds(f: StageFaults)
  {
    !f.create && !f.open && f.write.None? && !f.sync && !f.close && !f.rename
  }

  function TempFor(w: World, prefix: string, f: StageFaults): string
  {
    FreshTemp(w.files.Keys, prefix, f.seed)
  }

  function CleanUp(w: World, tmp: string, f: StageFaults): World
  {
    if f.cleanup then w else w.Drop(tmp)
  }

  function Replaced(w: World, prefix: string, dst: string, data: string, f: StageFaults): Outcome
  {
    if f.create then Outcome(w, false) else
      var tmp := TempFor(w, prefix, f);
      var created := w.Set(tmp, "");
      if f.open then Outcome(CleanUp(created, tmp, f), false) else
        var n := match f.write case None => |data| case Some(k) => Min(k, |data|);
        var filled := Fill(created, tmp, data, n);
        FillFiles(created, tmp, data, n);
        if StageSucceeds(f) then Outcome(filled.Move(tmp, dst), true)
        else Outcome(CleanUp(filled, tmp, f), false)
  }

  predicate OnlyTempAdded(files: Files, tmp: string, t: Files)
  {
    t == files || (tmp in t && t == files[tmp := t[tmp]])
  }

  /** A state of the disk in the middle of a replacement. */
  predicate MidReplace(files: Files, tmp: string, dst: string, data: string, t: Files)
  {
    OnlyTempAdded(files, tmp, t) || t == files[dst := data]
  }

  /** Everything recorded after `w` up to `w'` satisfies MidReplace. */
  ghost predicate ReplaceTrace(w: World, tmp: string, dst: string, data: string, w': World)
  {
    && w.trace <= w'.trace
    && forall k | |w.trace| <= k < |w'.trace| :: MidReplace(w.files, tmp, dst, data, w'.trace[k])
  }

  lemma {:induction false} FillTrace(w0: World, tmp: string, dst: string, data: string, w: World, n: nat)
    requires n <= |data| && tmp in w.files && w.files == w0.files[tmp := w.files[tmp]]
    requires ReplaceTrace(w0, tmp, dst, data, w)
    ensures ReplaceTrace(w0, tmp, dst, data, Fill(w, tmp, data, n))
    ensures var f := Fill(w, tmp, data, n).files; tmp in f && f == w0.files[tmp := f[tmp]]
  {
    if n > 0 { FillTrace(w0, tmp, dst, data, w, n - 1); }
  }

  /**
   Replacing a file is all or nothing: at each recorded state, and so after a crash at any step,
   the target holds the whole old or the whole new contents and nothing but the temporary file
   differs besides; success installs the new contents, failure changes nothing, and the temporary
   file is gone unless its removal failed.
   */
  lemma ReplaceIsAtomic(w: World, prefix: string, dst: string, data: string, f: StageFaults)
    ensures ReplaceTrace(w, TempFor(w, prefix, f), dst, data, Replaced(w, prefix, dst, data, f).world)
    ensures Replaced(w, prefix, dst, data, f).ok == StageSucceeds(f)
    ensures StageSucceeds(f) <==> !(f.create || f.open || f.write.Some? || f.sync || f.close || f.rename)
    ensures StageSucceeds(f) ==> Replaced(w, prefix, dst, data, f).world.files == w.files[dst := data]
    ensures !StageSucceeds(f) && !f.cleanup ==> Replaced(w, prefix, dst, data, f).world.files == w.files
    ensures !StageSucceeds(f) ==>
              OnlyTempAdded(w.files, TempFor(w, prefix, f), Replaced(w, prefix, dst, data, f).world.files)
  {
    if !f.create {
      var tmp := TempFor(w, prefix, f);
      var created := w.Set(tmp, "");
      if !f.open {
        var n := match f.write case None => |data| case Some(k) => Min(k, |data|);
        FillFiles(created, tmp, data, n);
        FillTrace(w, tmp, dst, data, created, n);
        var filled := Fill(created, tmp, data, n);
        assert filled.files - {tmp} == w.files;
        assert data[..|data|] == data;
      } else {
        assert created.files - {tmp} == w.files;
      }
    }
  }

  // --- The mutable disk ----------------------------------------------------------------------

  class Disk {
    var files: Files
    ghost var trace: seq<Files>

    ghost function View(): World
      reads this
    {
      World(files, trace)
    }

    constructor (files: Files)
      ensures View() == World(files, [])
    {
      this.files := files;
      this.trace := [];
    }

    method Put(p: string, b: string)
      modifies this
      ensures View() == old(View()).Set(p, b)
    {
      files := files[p := b];
      trace := trace + [files];
    }

    /** `os.Remove`. */
    method Remove(p: string, fails: bool) returns (ok: bool)
      modifies this
      ensures ok == (!fails && p in old(files))
      ensures View() == if ok then old(View()).Drop(p) else old(View())
    {
      ok := !fails && p in files;
      if ok {
        files := files - {p};
        trace := trace + [files];
      }
    }

    /** `os.Rename`: atomic, replaces an existing target, fails when the source is missing. */
    method Rename(a: string, b: string, fails: bool) returns (ok: bool)
      modifies this
      ensures ok == (!fails && a in old(files))
      ensures View() == if ok then old(View()).Move(a, b) else old(View())
    {
      ok := !fails && a in files;
      if ok {
        files := (files - {a})[b := files[a]];
        trace := trace + [files];
      }
    }

    /** Writes the first `n` bytes of `data` to `p`, one at a time. */
    method Append(p: string, data: string, n: nat)
      requires n <= |data|
      modifies this
      ensures View() == Fill(old(View()), p, data, n)
    {
      var i := 0;
      while i < n
        invariant i <= n
        invariant View() == Fill(old(View()), p, data, i)
      {
        i := i + 1;
        Put(p, data[..i]);
      }
    }

    method WriteFile(p: string, data: string, fault: WriteFault) returns (ok: bool)
      modifies this
      ensures Outcome(View(), ok) == Written(old(View()), p, data, fault)
    {
      ok := fault.Fine?;
      if fault.OpenFails? { return; }
      Put(p, "");
      Append(p, data, match fault case StopsAfter(n) => Min(n, |data|) case _ => |data|);
    }

    /**
     The body shared by writing a key file, backing it up, restoring it: create a temporary file
     next to the target, fill it, sync, close, rename; remove it on any error.
     */
    method Replace(prefix: string, dst: string, data: string, f: StageFaults) returns (ok: bool)
      modifies this
      ensures Outcome(View(), ok) == Replaced(old(View()), prefix, dst, data, f)
    {
      ok := false;
      if f.create { return; }
      var tmp := FreshTemp(files.Keys, prefix, f.seed);
      Put(tmp, "");
      ghost var created := View();
      ok := !f.open;
      if ok {
        var n := match f.write case None => |data| case Some(k) => Min(k, |data|);
        Append(tmp, data, n);
        FillFiles(created, tmp, data, n);
        ok := f.write.None? && !f.sync && !f.close;
      }
      if ok {
        ok := Rename(tmp, dst, f.rename);
      }
      if !ok {
        var _ := Remove(tmp, f.cleanup);
      }
    }
  }
}
