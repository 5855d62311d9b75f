/** Saving and loading the queue state: write a temporary file, rename it over the state file. */
module Persistence {
  import opened Common
  import opened FileSystem
  import opened Items

  /** The JSON encoding of a list of items. */
  datatype Codec = Codec(marshal: seq<ItemRec> -> string, unmarshal: string -> Option<seq<ItemRec>>)

  ghost predicate Lossless(c: Codec)
  {
    forall xs: seq<ItemRec> :: c.unmarshal(c.marshal(xs)) == Some(xs)
  }

  function SaveSpec(c: Codec, w: World, path: string, xs: seq<ItemRec>, write: WriteFault, rename: bool): Outcome
  {
    var tmp := Written(w, path + TEMP_SUFFIX, c.marshal(xs), write);
    if !tmp.ok || rename || path + TEMP_SUFFIX !in tmp.world.files then Outcome(tmp.world, false)
    else Outcome(tmp.world.Move(path + TEMP_SUFFIX, path), true)
  }

  /** A missing state file is an empty queue; an unreadable or malformed one is an error. */
  function LoadSpec(c: Codec, files: Files, path: string, read: bool): Option<seq<ItemRec>>
  {
    if path !in files then Some([]) else if read then None else c.unmarshal(files[path])
  }

  class Persistence {
    const statePath: string
    const codec: Codec

    constructor (statePath: string, codec: Codec)
      ensures this.statePath == statePath && this.codec == codec
    {
      this.statePath, this.codec := statePath, codec;
    }

    method Save(disk: Disk, xs: seq<ItemRec>, write: WriteFault, rename: bool) returns (ok: bool)
      modifies disk
      ensures Outcome(disk.View(), ok) == SaveSpec(codec, old(disk.View()), statePath, xs, write, rename)
    {
      var tmp := statePath + TEMP_SUFFIX;
      ok := disk.WriteFile(tmp, codec.marshal(xs), write);
      if ok { ok := disk.Rename(tmp, statePath, rename); }
    }

    method Load(disk: Disk, read: bool) returns (xs: Option<seq<ItemRec>>)
      ensures xs == LoadSpec(codec, disk.files, statePath, read)
    {
      if statePath !in disk.files { return Some([]); }
      if read { return None; }
      xs := codec.unmarshal(disk.files[statePath]);
    }
  }

  lemma {:induction false} FillElsewhere(w: World, tmp: string, data: string, n: nat, p: string)
    requires n <= |data| && p != tmp
    ensures Always(w, Fill(w, tmp, data, n), t => Lookup(t, p) == Lookup(w.files, p))
  {
    if n > 0 { FillElsewhere(w, tmp, data, n - 1, p); }
  }

  /**
   Wherever the process is killed while saving, the state file holds the whole previous or the whole
   new list; success installs the new one and failure leaves the previous one.
   */
  lemma SaveIsAtomic(c: Codec, w: World, path: string, xs: seq<ItemRec>, write: WriteFault, rename: bool)
    ensures var r := SaveSpec(c, w, path, xs, write, rename);
              && Always(w, r.world, t => Lookup(t, path) in {Lookup(w.files, path), Some(c.marshal(xs))})
              && r.ok == (write.Fine? && !rename)
              && Lookup(r.world.files, path) == if r.ok then Some(c.marshal(xs)) else Lookup(w.files, path)
  {
    var tmp := path + TEMP_SUFFIX;
    assert path != tmp by { assert |tmp| > |path|; }
    WrittenFiles(w, tmp, c.marshal(xs), write);
    var n := match write case StopsAfter(k) => Min(k, |c.marshal(xs)|) case _ => |c.marshal(xs)|;
    FillElsewhere(w.Set(tmp, ""), tmp, c.marshal(xs), n, path);
  }

  /** What was saved is what is loaded. */
  lemma LoadAfterSave(c: Codec, w: World, path: string, xs: seq<ItemRec>)
    requires Lossless(c)
    ensures LoadSpec(c, SaveSpec(c, w, path, xs, Fine, false).world.files, path, false) == Some(xs)
  {
    SaveIsAtomic(c, w, path, xs, Fine, false);
    assert c.unmarshal(c.marshal(xs)) == Some(xs);
  }
}
