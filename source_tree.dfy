/** The source checkout the deployment code reads, as an abstract input: what each glob yields
    (in the order it is yielded), each file's `st_mode` and bytes, directory trees as `iterdir`
    walks them, and the `Path.match` test used for `.dockerignore` patterns. */
module SourceTree {
  import opened Paths
  import opened Hashing

  /** A path as `iterdir` walks it: a file, or a directory with its children in listing order. */
  datatype Node = File(path: Path) | Dir(path: Path, children: seq<Node>)

  datatype Tree = Tree(
    glob: string -> seq<Path>,          // `SOURCE_ROOT.glob(pattern)`, root-relative
    mode: Path -> nat,                  // `stat().st_mode`
    content: Path -> string,            // `read_bytes()` / `read_text()`
    isDir: Path -> bool,                // `is_dir()`
    node: Path -> Node,                 // the walk below a path
    descendants: Path -> seq<Path>,     // `path.glob("**/*")`
    matches: (Path, string) -> bool)    // `path.match(pattern)`

  /** The inputs every run gets from outside: source root, the `bash` that `shutil.which` finds,
      the checkout, the hash, and the scripts that exit non-zero. */
  datatype Machine = Machine(root: Path, bash: string, tree: Tree, h: Hasher, failing: set<Path>)

  /** The matches of several globs, concatenated in order (`found.extend(...)` per glob). */
  function Globbed(patterns: seq<string>, t: Tree): (r: seq<Path>)
    ensures forall p :: p in r <==> exists i :: 0 <= i < |patterns| && p in t.glob(patterns[i])
  {
    if patterns == [] then [] else
      var rest := Globbed(patterns[1..], t);
      assert forall i :: 1 <= i < |patterns| ==> patterns[i] == patterns[1..][i - 1];
      t.glob(patterns[0]) + rest
  }

  /** Two checkouts whose globs yield the same paths, possibly in another order. */
  ghost predicate SameGlobs(patterns: seq<string>, t1: Tree, t2: Tree)
  {
    forall i :: 0 <= i < |patterns| ==> multiset(t1.glob(patterns[i])) == multiset(t2.glob(patterns[i]))
  }

  lemma {:induction false} GlobbedSameElements(patterns: seq<string>, t1: Tree, t2: Tree)
    requires SameGlobs(patterns, t1, t2)
    ensures multiset(Globbed(patterns, t1)) == multiset(Globbed(patterns, t2))
  {
    if patterns != [] {
      assert SameGlobs(patterns[1..], t1, t2) by {
        forall i | 0 <= i < |patterns| - 1 ensures multiset(t1.glob(patterns[1..][i])) == multiset(t2.glob(patterns[1..][i])) {
          assert patterns[1..][i] == patterns[i + 1];
        }
      }
      GlobbedSameElements(patterns[1..], t1, t2);
    }
  }

  /** Two checkouts agree on the mode and bytes of the given files. */
  ghost predicate SameFiles(files: seq<Path>, t1: Tree, t2: Tree)
  {
    forall p :: p in files ==> t1.mode(p) == t2.mode(p) && t1.content(p) == t2.content(p)
  }
}
