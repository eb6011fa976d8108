/** Source-root-relative paths and the order `sorted()` puts `pathlib` paths in:
    part by part, each part compared by code point. */
module Paths {
  import opened Strings

  type Path = string

  /** `a / b` for a relative `b`. */
  function JoinPath(dir: Path, name: string): (r: Path)
    ensures StartsWith(r, dir) && EndsWith(r, name)
  {
    assert (dir + "/" + name)[..|dir|] == dir;
    assert (dir + "/" + name)[|dir| + 1..] == name;
    dir + "/" + name
  }

  /** The components `pathlib` compares. */
  function Parts(p: Path): seq<string> { Split(p, '/') }

  /** `Path.name`: the last component. */
  function Name(p: Path): string { var ps := Parts(p); ps[|ps| - 1] }

  /** `Path.suffix`: the text from the last dot of the name, if that dot is neither first nor last. */
  function Suffix(p: Path): (r: string)
    ensures r == "" || (r[0] == '.' && EndsWith(Name(p), r))
  {
    var n := Name(p);
    var i := RFind(n, '.');
    if 0 < i < |n| - 1 then assert n[|n| - |n[i..]|..] == n[i..]; n[i..] else ""
  }

  /** Code-point order on strings (Python `<` on `str`). */
  predicate StrLt(a: string, b: string)
    decreases |a|
  {
    if a == [] then b != []
    else if b == [] then false
    else if a[0] != b[0] then a[0] < b[0]
    else StrLt(a[1..], b[1..])
  }

  lemma {:induction false} StrLtIrreflexive(a: string)
    ensures !StrLt(a, a)
    decreases |a|
  {
    if a != [] { StrLtIrreflexive(a[1..]); }
  }

  lemma {:induction false} StrLtTransitive(a: string, b: string, c: string)
    requires StrLt(a, b) && StrLt(b, c)
    ensures StrLt(a, c)
    decreases |a|
  {
    if a != [] && b != [] && c != [] && a[0] == b[0] && b[0] == c[0] {
      StrLtTransitive(a[1..], b[1..], c[1..]);
    }
  }

  lemma {:induction false} StrLtTotal(a: string, b: string)
    ensures a == b || StrLt(a, b) || StrLt(b, a)
    decreases |a|
  {
    if a != [] && b != [] && a[0] == b[0] {
      StrLtTotal(a[1..], b[1..]);
      if a[1..] == b[1..] { assert a == [a[0]] + a[1..] && b == [b[0]] + b[1..]; }
    }
  }

  /** Lexicographic order on component lists. */
  predicate PartsLt(p: seq<string>, q: seq<string>)
    decreases |p|
  {
    if p == [] then q != []
    else if q == [] then false
    else if p[0] != q[0] then StrLt(p[0], q[0])
    else PartsLt(p[1..], q[1..])
  }

  lemma {:induction false} PartsLtIrreflexive(p: seq<string>)
    ensures !PartsLt(p, p)
    decreases |p|
  {
    if p != [] { PartsLtIrreflexive(p[1..]); }
  }

  lemma {:induction false} PartsLtTransitive(p: seq<string>, q: seq<string>, r: seq<string>)
    requires PartsLt(p, q) && PartsLt(q, r)
    ensures PartsLt(p, r)
    decreases |p|
  {
    if p != [] && q != [] && r != [] {
      if p[0] == q[0] && q[0] == r[0] {
        PartsLtTransitive(p[1..], q[1..], r[1..]);
      } else if p[0] != q[0] && q[0] != r[0] {
        StrLtTransitive(p[0], q[0], r[0]);
        if p[0] == r[0] { StrLtIrreflexive(p[0]); }
        StrLtIrreflexive(p[0]);
      }
    }
  }

  lemma {:induction false} PartsLtTotal(p: seq<string>, q: seq<string>)
    ensures p == q || PartsLt(p, q) || PartsLt(q, p)
    decreases |p|
  {
    if p != [] && q != [] {
      if p[0] == q[0] {
        PartsLtTotal(p[1..], q[1..]);
        if p[1..] == q[1..] { assert p == [p[0]] + p[1..] && q == [q[0]] + q[1..]; }
      } else {
        StrLtTotal(p[0], q[0]);
      }
    }
  }

  /** The (non-strict) order `sorted()` uses on paths. */
  predicate PathLe(a: Path, b: Path) { a == b || PartsLt(Parts(a), Parts(b)) }

  lemma PathLeTotal(a: Path, b: Path)
    ensures PathLe(a, b) || PathLe(b, a)
  {
    PartsLtTotal(Parts(a), Parts(b));
    if Parts(a) == Parts(b) { SplitInjective(a, b, '/'); }
  }

  lemma PathLeAntisymmetric(a: Path, b: Path)
    requires PathLe(a, b) && PathLe(b, a)
    ensures a == b
  {
    if a != b {
      PartsLtTransitive(Parts(a), Parts(b), Parts(a));
      PartsLtIrreflexive(Parts(a));
    }
  }

  lemma PathLeTransitive(a: Path, b: Path, c: Path)
    requires PathLe(a, b) && PathLe(b, c)
    ensures PathLe(a, c)
  {
    if a != b && b != c { PartsLtTransitive(Parts(a), Parts(b), Parts(c)); }
  }

  predicate Sorted(s: seq<Path>)
  {
    forall i, j :: 0 <= i < j < |s| ==> PathLe(s[i], s[j])
  }

  lemma SortedTail(a: seq<Path>)
    requires Sorted(a) && a != []
    ensures Sorted(a[1..])
  {
    forall i, j | 0 <= i < j < |a| - 1 ensures PathLe(a[1..][i], a[1..][j]) { assert PathLe(a[i + 1], a[j + 1]); }
  }

  /** A lower bound of a sorted sequence can go in front of it. */
  lemma SortedCons(y: Path, t: seq<Path>)
    requires Sorted(t) && forall j :: 0 <= j < |t| ==> PathLe(y, t[j])
    ensures Sorted([y] + t)
  {
    var r := [y] + t;
    forall i, j | 0 <= i < j < |r| ensures PathLe(r[i], r[j]) {
      if i > 0 { assert r[i] == t[i - 1] && r[j] == t[j - 1]; } else { assert r[j] == t[j - 1]; }
    }
  }

  /** The head of a sorted sequence bounds from below everything in its tail and anything above it. */
  lemma HeadBoundsInsert(s: seq<Path>, x: Path, t: seq<Path>)
    requires Sorted(s) && s != [] && PathLe(s[0], x)
    requires multiset(t) == multiset(s[1..]) + multiset{x}
    ensures forall j :: 0 <= j < |t| ==> PathLe(s[0], t[j])
  {
    forall j | 0 <= j < |t| ensures PathLe(s[0], t[j]) {
      assert t[j] in multiset(t);
      if t[j] != x {
        assert t[j] in multiset(s[1..]);
        var k :| 0 <= k < |s[1..]| && s[1..][k] == t[j];
        assert s[k + 1] == t[j];
      }
    }
  }

  /** `x` placed into the sorted `s` before the first element it does not exceed. */
  function Insert(x: Path, s: seq<Path>): (r: seq<Path>)
    requires Sorted(s)
    ensures Sorted(r)
    ensures multiset(r) == multiset(s) + multiset{x}
  {
    if s == [] then [x]
    else if PathLe(x, s[0]) then
      assert forall j :: 0 <= j < |s| ==> PathLe(x, s[j]) by {
        forall j | 0 <= j < |s| ensures PathLe(x, s[j]) { PathLeTransitive(x, s[0], s[j]); }
      }
      SortedCons(x, s);
      [x] + s
    else
      PathLeTotal(x, s[0]);
      SortedTail(s);
      var t := Insert(x, s[1..]);
      assert s == [s[0]] + s[1..];
      HeadBoundsInsert(s, x, t);
      SortedCons(s[0], t);
      [s[0]] + t
  }

  /** `sorted(paths)`: an ordered permutation of its input. */
  function SortPaths(s: seq<Path>): (r: seq<Path>)
    ensures Sorted(r)
    ensures multiset(r) == multiset(s)
  {
    if s == [] then [] else
      assert s == [s[0]] + s[1..];
      Insert(s[0], SortPaths(s[1..]))
  }

  lemma SortedHeadIsLeast(a: seq<Path>, x: Path)
    requires Sorted(a) && x in multiset(a)
    ensures PathLe(a[0], x)
  {
    var i :| 0 <= i < |a| && a[i] == x;
    if i > 0 { assert PathLe(a[0], a[i]); }
  }

  lemma TailMultiset(a: seq<Path>)
    requires a != []
    ensures multiset(a[1..]) == multiset(a) - multiset{a[0]}
  {
    assert a == [a[0]] + a[1..];
  }

  /** A sorted sequence is fixed by its elements: two sorted permutations of each other are equal. */
  lemma {:induction false} SortedUnique(a: seq<Path>, b: seq<Path>)
    requires Sorted(a) && Sorted(b)
    requires multiset(a) == multiset(b)
    ensures a == b
  {
    if a != [] {
      assert a[0] in multiset(a);
      assert b != [];
      assert b[0] in multiset(b);
      SortedHeadIsLeast(b, a[0]);
      SortedHeadIsLeast(a, b[0]);
      PathLeAntisymmetric(a[0], b[0]);
      TailMultiset(a);
      TailMultiset(b);
      SortedTail(a);
      SortedTail(b);
      SortedUnique(a[1..], b[1..]);
      assert a == [a[0]] + a[1..] && b == [b[0]] + b[1..];
    }
  }

  /** The order in which a directory listing or glob yields paths does not affect `sorted()`. */
  lemma SortIgnoresInputOrder(s: seq<Path>, t: seq<Path>)
    requires multiset(s) == multiset(t)
    ensures SortPaths(s) == SortPaths(t)
  {
    SortedUnique(SortPaths(s), SortPaths(t));
  }

  /** All elements of a finite set, in some fixed order. */
  ghost function SetToSeq(s: set<Path>): (r: seq<Path>)
    ensures multiset(r) == multiset(s)
    ensures |r| == |s|
  {
    if s == {} then [] else
      var x :| x in s;
      [x] + SetToSeq(s - {x})
  }
}
