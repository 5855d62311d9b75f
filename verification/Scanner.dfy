/** Finding key files: the walk over a directory tree and its callback. */
module Scanner {
  import opened Common
  import opened Paths

  /** A directory tree as a walk meets it; `bad` entries are reported to the callback as errors. */
  datatype Node = File(name: string, bad: bool) | Folder(name: string, bad: bool, kids: seq<Node>)

  /** The key files appended while walking `node`, which sits at `path`, below the scanned `root`. */
  function Found(root: string, recursive: bool, path: string, node: Node): seq<string>
    decreases node, 1
  {
    if node.bad then []
    else if node.File? then (if HasSuffix(node.name, ".key") then [path] else [])
    else if path != root && !recursive then []
    else FoundIn(root, recursive, path, node, |node.kids|)
  }

  /** The same for the first `n` entries of a folder. */
  function FoundIn(root: string, recursive: bool, path: string, node: Node, n: nat): seq<string>
    requires node.Folder? && n <= |node.kids|
    decreases node, 0, n
  {
    if n == 0 then [] else
      var kid := node.kids[n - 1];
      FoundIn(root, recursive, path, node, n - 1) + Found(root, recursive, Join(path, kid.name), kid)
  }

  class Scanner {
    const directory: string
    const recursive: bool
    var files: seq<string>

    constructor (directory: string, recursive: bool)
      ensures this.directory == directory && this.recursive == recursive && files == []
    {
      this.directory, this.recursive := directory, recursive;
      files := [];
    }

    /** The callback: collects a key file, and says whether to go into a folder. */
    method Visit(path: string, node: Node) returns (descend: bool)
      modifies this
      ensures descend == (!node.bad && node.Folder? && (path == directory || recursive))
      ensures files == old(files) + if !node.bad && node.File? && HasSuffix(node.name, ".key") then [path] else []
    {
      descend := false;
      if node.bad { return; }
      if node.Folder? {
        descend := path == directory || recursive;
      } else if HasSuffix(node.name, ".key") {
        files := files + [path];
      }
    }

    method Walk(path: string, node: Node)
      modifies this
      ensures files == old(files) + Found(directory, recursive, path, node)
      decreases node
    {
      var descend := Visit(path, node);
      if descend {
        var i := 0;
        while i < |node.kids|
          invariant i <= |node.kids|
          invariant files == old(files) + FoundIn(directory, recursive, path, node, i)
        {
          Walk(Join(path, node.kids[i].name), node.kids[i]);
          i := i + 1;
        }
      }
    }

    method Scan(tree: Node) returns (found: seq<string>)
      modifies this
      ensures found == Found(directory, recursive, directory, tree)
    {
      files := [];
      Walk(directory, tree);
      found := files;
    }
  }

  // --- What a scan finds ---------------------------------------------------------------------

  /** `p` is a readable file of the tree at `path`. */
  predicate IsFileAt(path: string, node: Node, p: string)
    decreases node
  {
    && !node.bad
    && if node.File? then p == path
       else exists i | 0 <= i < |node.kids| :: IsFileAt(Join(path, node.kids[i].name), node.kids[i], p)
  }

  /** Entries have single-component names and siblings have different ones. */
  predicate Proper(node: Node)
  {
    && PlainName(node.name)
    && (node.Folder? ==>
          && (forall i | 0 <= i < |node.kids| :: Proper(node.kids[i]))
          && (forall i, j | 0 <= i < j < |node.kids| :: node.kids[i].name != node.kids[j].name))
  }

  predicate Below(path: string, p: string) { path + "/" <= p }

  lemma {:induction false} FilesAreBelow(path: string, node: Node, p: string)
    requires IsFileAt(path, node, p)
    ensures p == path || Below(path, p)
    ensures node.Folder? ==> Below(path, p)
    decreases node
  {
    if node.Folder? {
      var i :| 0 <= i < |node.kids| && IsFileAt(Join(path, node.kids[i].name), node.kids[i], p);
      FilesAreBelow(Join(path, node.kids[i].name), node.kids[i], p);
    }
  }

  lemma FirstComponent(m: string, n: string, q: string)
    requires PlainName(m) && PlainName(n) && |m| <= |n|
    requires q == m || m + "/" <= q
    requires q == n || n + "/" <= q
    ensures m == n
  {
    assert q != m ==> q[|m|] == (m + "/")[|m|];
    assert forall k | 0 <= k < |n| :: n[k] == q[k];
    assert forall k | 0 <= k < |m| :: m[k] == q[k];
  }

  /** The component of `p` after `path` decides which entry `p` belongs to. */
  lemma OneEntry(path: string, m: string, n: string, p: string)
    requires PlainName(m) && PlainName(n)
    requires p == Join(path, m) || Below(Join(path, m), p)
    requires p == Join(path, n) || Below(Join(path, n), p)
    ensures m == n
  {
    var q := p[|path| + 1..];
    assert Join(path, m)[|path| + 1..] == m && Join(path, n)[|path| + 1..] == n;
    assert (Join(path, m) + "/")[|path| + 1..] == m + "/" && (Join(path, n) + "/")[|path| + 1..] == n + "/";
    if |m| <= |n| { FirstComponent(m, n, q); } else { FirstComponent(n, m, q); }
  }

  lemma KeySuffixOfPath(path: string, name: string)
    requires PlainName(name)
    ensures HasSuffix(Join(path, name), ".key") <==> HasSuffix(name, ".key")
  {
    var p := Join(path, name);
    assert |name| >= 4 ==> p[|p| - 4..] == name[|name| - 4..];
    assert |name| < 4 && |p| >= 4 ==> p[|p| - 4..][3 - |name|] == p[|path|] == '/';
  }

  predicate InRange(root: string, recursive: bool, p: string)
  {
    recursive || Dir(p) == root
  }

  /** A file inside a folder other than the root lies in a directory other than the root. */
  lemma DeeperDir(root: string, path: string, node: Node, p: string)
    requires CleanDir(root) && Below(root, path) && Proper(node) && node.Folder? && IsFileAt(path, node, p)
    ensures Dir(p) != root
  {
    FilesAreBelow(path, node, p);
    assert p[|path|] == '/';
    LastSlashIs(p);
    assert LastSlash(p) >= |path| > |root|;
  }

  lemma KidInRange(root: string, recursive: bool, path: string, kid: Node)
    requires CleanDir(root) && PlainName(kid.name) && (path == root || Below(root, path)) && (path == root || recursive)
    ensures Below(root, Join(path, kid.name)) && Join(path, kid.name) != root
    ensures InRange(root, recursive, Join(path, kid.name))
    ensures HasSuffix(Join(path, kid.name), ".key") <==> HasSuffix(kid.name, ".key")
  {
    if path == root { SplitOfJoin(root, kid.name); }
    KeySuffixOfPath(path, kid.name);
  }

  lemma {:induction false} FoundAt(root: string, recursive: bool, path: string, node: Node, p: string)
    requires CleanDir(root) && Proper(node)
    requires path == root || Below(root, path)
    requires path == root ==> node.Folder?
    requires node.File? ==>
               InRange(root, recursive, path) && (HasSuffix(path, ".key") <==> HasSuffix(node.name, ".key"))
    ensures p in Found(root, recursive, path, node)
       <==> IsFileAt(path, node, p) && HasSuffix(p, ".key") && InRange(root, recursive, p)
    decreases node, 1
  {
    if !node.bad && node.Folder? {
      if path != root && !recursive {
        if IsFileAt(path, node, p) { DeeperDir(root, path, node, p); }
      } else {
        FoundInAt(root, recursive, path, node, |node.kids|, p);
      }
    }
  }

  lemma {:induction false} FoundInAt(root: string, recursive: bool, path: string, node: Node, n: nat, p: string)
    requires CleanDir(root) && Proper(node) && node.Folder? && n <= |node.kids|
    requires (path == root || Below(root, path)) && (path == root || recursive)
    ensures p in FoundIn(root, recursive, path, node, n)
       <==> && HasSuffix(p, ".key") && InRange(root, recursive, p)
            && exists i | 0 <= i < n :: IsFileAt(Join(path, node.kids[i].name), node.kids[i], p)
    decreases node, 0, n
  {
    if n > 0 {
      var kid := node.kids[n - 1];
      FoundInAt(root, recursive, path, node, n - 1, p);
      KidInRange(root, recursive, path, kid);
      FoundAt(root, recursive, Join(path, kid.name), kid, p);
    }
  }

  /** A scan finds exactly the readable `.key` files of the tree: all of them, or those directly in the root. */
  lemma ScanFinds(root: string, recursive: bool, tree: Node, p: string)
    requires CleanDir(root) && Proper(tree) && tree.Folder?
    ensures p in Found(root, recursive, root, tree)
       <==> IsFileAt(root, tree, p) && HasSuffix(p, ".key") && InRange(root, recursive, p)
  {
    FoundAt(root, recursive, root, tree, p);
  }

  lemma DistinctConcat(xs: seq<string>, ys: seq<string>)
    requires Distinct(xs) && Distinct(ys) && forall x | x in xs :: x !in ys
    ensures Distinct(xs + ys)
  {
    forall i, j | 0 <= i < j < |xs + ys| ensures (xs + ys)[i] != (xs + ys)[j] {
      if i < |xs| <= j { assert xs[i] in xs && ys[j - |xs|] in ys; }
    }
  }

  lemma {:induction false} FoundAreFiles(root: string, recursive: bool, path: string, node: Node, p: string)
    requires p in Found(root, recursive, path, node)
    ensures IsFileAt(path, node, p)
    decreases node, 1
  {
    if node.Folder? { var _ := FoundInAreFiles(root, recursive, path, node, |node.kids|, p); }
  }

  lemma {:induction false} FoundInAreFiles(root: string, recursive: bool, path: string, node: Node, n: nat, p: string)
    returns (i: nat)
    requires node.Folder? && n <= |node.kids| && p in FoundIn(root, recursive, path, node, n)
    ensures i < n && IsFileAt(Join(path, node.kids[i].name), node.kids[i], p)
    decreases node, 0, n
  {
    var kid := node.kids[n - 1];
    if p in FoundIn(root, recursive, path, node, n - 1) {
      i := FoundInAreFiles(root, recursive, path, node, n - 1, p);
    } else {
      i := n - 1;
      FoundAreFiles(root, recursive, Join(path, kid.name), kid, p);
    }
  }

  /** A scan lists no file twice. */
  lemma {:induction false} ScanIsDistinct(root: string, recursive: bool, path: string, node: Node)
    requires Proper(node)
    ensures Distinct(Found(root, recursive, path, node))
    decreases node, 1
  {
    if node.Folder? { FoundInDistinct(root, recursive, path, node, |node.kids|); }
  }

  lemma {:induction false} FoundInDistinct(root: string, recursive: bool, path: string, node: Node, n: nat)
    requires Proper(node) && node.Folder? && n <= |node.kids|
    ensures Distinct(FoundIn(root, recursive, path, node, n))
    decreases node, 0, n
  {
    if n > 0 {
      var kid := node.kids[n - 1];
      var before := FoundIn(root, recursive, path, node, n - 1);
      var new_ := Found(root, recursive, Join(path, kid.name), kid);
      FoundInDistinct(root, recursive, path, node, n - 1);
      ScanIsDistinct(root, recursive, Join(path, kid.name), kid);
      forall p | p in before ensures p !in new_ {
        var i := FoundInAreFiles(root, recursive, path, node, n - 1, p);
        FilesAreBelow(Join(path, node.kids[i].name), node.kids[i], p);
        NotInOther(root, recursive, path, kid, node.kids[i].name, p);
      }
      DistinctConcat(before, new_);
    }
  }

  lemma NotInOther(root: string, recursive: bool, path: string, kid: Node, name: string, p: string)
    requires Proper(kid) && PlainName(name) && kid.name != name
    requires p == Join(path, name) || Below(Join(path, name), p)
    ensures p !in Found(root, recursive, Join(path, kid.name), kid)
  {
    if p in Found(root, recursive, Join(path, kid.name), kid) {
      FoundAreFiles(root, recursive, Join(path, kid.name), kid, p);
      FilesAreBelow(Join(path, kid.name), kid, p);
      OneEntry(path, name, kid.name, p);
      assert false;
    }
  }
}
