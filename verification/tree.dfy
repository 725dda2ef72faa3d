/** The repository tree printer: the root's name, then every directory's children,
    directories first and each group ordered by lower-cased name, leaving out excluded
    names and compiled Python files together with everything below them, drawn with
    box connectors and indented by an inherited prefix, down to a maximum depth. The
    file system is an abstract tree of files and directories. */
module DirTree {
  import opened Common

  datatype Node = File(name: string) | Dir(name: string, children: seq<Node>)

  /** The names left out by default. */
  const DefaultExcludes: set<string> := {
    ".git", ".venv", "__pycache__", ".mypy_cache", ".ruff_cache", ".pytest_cache", "dist",
    "build", ".idea", ".vscode", ".coverage", "htmlcov", ".DS_Store"}

  /** The default names together with those given by `--exclude`. */
  function Excludes(extra: set<string>): (ex: set<string>)
    ensures DefaultExcludes <= ex && extra <= ex
    ensures forall n :: n in ex ==> n in DefaultExcludes || n in extra
  {
    DefaultExcludes + extra
  }

  function Children(n: Node): seq<Node> {
    if n.Dir? then n.children else []
  }

  /** An entry that produces no line and whose subtree is not visited. */
  predicate Skipped(n: Node, ex: set<string>) {
    n.name in ex || EndsWith(n.name, ".pyc")
  }

  // ----- ordering ------------------------------------------------------------------

  /** The sort key `(is_file, name.lower())`: directories before files, then by
      lower-cased name. */
  predicate KeyLess(a: Node, b: Node) {
    (!a.File? && b.File?) || (a.File? == b.File? && StrLess(Lower(a.name), Lower(b.name)))
  }

  predicate SameKey(a: Node, b: Node) {
    a.File? == b.File? && Lower(a.name) == Lower(b.name)
  }

  lemma KeyLessTotal(a: Node, b: Node)
    ensures SameKey(a, b) || KeyLess(a, b) || KeyLess(b, a)
  {
    StrLessTotal(Lower(a.name), Lower(b.name));
  }

  lemma KeyLessTransitive(a: Node, b: Node, c: Node)
    requires KeyLess(a, b) && KeyLess(b, c)
    ensures KeyLess(a, c)
  {
    if a.File? == b.File? && b.File? == c.File? {
      StrLessTransitive(Lower(a.name), Lower(b.name), Lower(c.name));
    }
  }

  lemma KeyLessIrreflexive(a: Node)
    ensures !KeyLess(a, a)
  {
    StrLessIrreflexive(Lower(a.name));
  }

  /** Nothing later in `s` sorts strictly before anything earlier. */
  predicate Sorted(s: seq<Node>) {
    forall i, j :: 0 <= i < j < |s| ==> !KeyLess(s[j], s[i])
  }

  /** Inserting `a`, which came before every element of `t`, in front of the first
      element that does not sort strictly before it; so equal keys keep their order. */
  function Insert(a: Node, t: seq<Node>): (r: seq<Node>)
    decreases |t|
  {
    if t == [] then [a]
    else if !KeyLess(t[0], a) then [a] + t
    else [t[0]] + Insert(a, t[1..])
  }

  lemma {:induction false} InsertPermutes(a: Node, t: seq<Node>)
    ensures multiset(Insert(a, t)) == multiset{a} + multiset(t)
    decreases |t|
  {
    if t != [] && KeyLess(t[0], a) {
      InsertPermutes(a, t[1..]);
      assert t == [t[0]] + t[1..];
    }
  }

  /** Python's stable `sorted` by the key, as an insertion sort from the back. */
  function Sort(s: seq<Node>): (r: seq<Node>)
    decreases |s|
  {
    if s == [] then [] else Insert(s[0], Sort(s[1..]))
  }

  lemma {:induction false} InsertSorted(a: Node, t: seq<Node>)
    requires Sorted(t)
    ensures Sorted(Insert(a, t))
    decreases |t|
  {
    if t != [] {
      if !KeyLess(t[0], a) {
        forall j | 0 <= j < |t|
          ensures !KeyLess(t[j], a)
        {
          if KeyLess(t[j], a) {
            KeyLessTotal(t[0], t[j]);
            if KeyLess(t[0], t[j]) {
              KeyLessTransitive(t[0], t[j], a);
            }
          }
        }
        var r := [a] + t;
        assert forall j :: 0 < j < |r| ==> r[j] == t[j - 1];
      } else {
        var rest := Insert(a, t[1..]);
        InsertSorted(a, t[1..]);
        InsertPermutes(a, t[1..]);
        forall k | 0 <= k < |rest|
          ensures !KeyLess(rest[k], t[0])
        {
          assert rest[k] in multiset(rest);
          if rest[k] == a {
            if KeyLess(a, t[0]) {
              KeyLessTransitive(a, t[0], a);
              KeyLessIrreflexive(a);
            }
          } else {
            assert rest[k] in multiset(t[1..]);
            var j :| 0 <= j < |t[1..]| && t[1..][j] == rest[k];
            assert t[j + 1] == rest[k];
          }
        }
        var r := [t[0]] + rest;
        assert forall j :: 0 < j < |r| ==> r[j] == rest[j - 1];
      }
    }
  }

  /** The children are listed in key order, and exactly the given children are. */
  lemma {:induction false} SortSorted(s: seq<Node>)
    ensures Sorted(Sort(s))
    ensures multiset(Sort(s)) == multiset(s)
    decreases |s|
  {
    if s != [] {
      SortSorted(s[1..]);
      InsertSorted(s[0], Sort(s[1..]));
      InsertPermutes(s[0], Sort(s[1..]));
      assert s == [s[0]] + s[1..];
    }
  }

  /** The entries of `s` whose key equals `k`'s, in order. */
  function WithKeyOf(s: seq<Node>, k: Node): (r: seq<Node>)
    decreases |s|
  {
    if s == [] then [] else (if SameKey(s[0], k) then [s[0]] else []) + WithKeyOf(s[1..], k)
  }

  /** Inserting puts the new entry ahead of every entry with its key. */
  lemma {:induction false} InsertWithKey(a: Node, t: seq<Node>, k: Node)
    ensures WithKeyOf(Insert(a, t), k) == (if SameKey(a, k) then [a] else []) + WithKeyOf(t, k)
    decreases |t|
  {
    if t != [] && KeyLess(t[0], a) {
      InsertWithKey(a, t[1..], k);
      assert [t[0]] + Insert(a, t[1..]) == Insert(a, t);
      assert ([t[0]] + Insert(a, t[1..]))[1..] == Insert(a, t[1..]);
      if SameKey(t[0], k) && SameKey(a, k) {
        assert Lower(t[0].name) == Lower(a.name);
        StrLessIrreflexive(Lower(a.name));
      }
    } else if t != [] {
      assert ([a] + t)[1..] == t;
    }
  }

  /** The sort is stable: entries with equal keys keep their input order. */
  lemma {:induction false} SortStable(s: seq<Node>, k: Node)
    ensures WithKeyOf(Sort(s), k) == WithKeyOf(s, k)
    decreases |s|
  {
    if s != [] {
      SortStable(s[1..], k);
      InsertWithKey(s[0], Sort(s[1..]), k);
    }
  }

  /** Directories come before files. */
  lemma DirsFirst(s: seq<Node>, i: nat, j: nat)
    requires i < |Sort(s)| && j < |Sort(s)|
    requires Sort(s)[i].Dir? && Sort(s)[j].File?
    ensures i < j
  {
    SortSorted(s);
  }

  // ----- filtering -----------------------------------------------------------------

  /** The entries that are not skipped, in order. */
  function Keep(s: seq<Node>, ex: set<string>): (r: seq<Node>)
    decreases |s|
  {
    if s == [] then [] else (if Skipped(s[0], ex) then [] else [s[0]]) + Keep(s[1..], ex)
  }

  /** What is kept is exactly the entries that are not skipped. */
  lemma {:induction false} KeepExactly(s: seq<Node>, ex: set<string>)
    ensures forall i :: 0 <= i < |Keep(s, ex)| ==> !Skipped(Keep(s, ex)[i], ex)
    ensures forall x :: x in Keep(s, ex) <==> x in s && !Skipped(x, ex)
    decreases |s|
  {
    if s != [] {
      KeepExactly(s[1..], ex);
      assert s == [s[0]] + s[1..];
    }
  }

  lemma KeepCons(a: Node, t: seq<Node>, ex: set<string>)
    ensures Keep([a] + t, ex) == (if Skipped(a, ex) then [] else [a]) + Keep(t, ex)
  {
    assert ([a] + t)[1..] == t;
  }

  /** A skipped entry changes nothing wherever the sort puts it. */
  lemma {:induction false} KeepInsertSkipped(x: Node, t: seq<Node>, ex: set<string>)
    requires Skipped(x, ex)
    ensures Keep(Insert(x, t), ex) == Keep(t, ex)
    decreases |t|
  {
    if t == [] {
      KeepCons(x, [], ex);
    } else if !KeyLess(t[0], x) {
      KeepCons(x, t, ex);
    } else {
      KeepInsertSkipped(x, t[1..], ex);
      KeepCons(t[0], Insert(x, t[1..]), ex);
      KeepCons(t[0], t[1..], ex);
      assert [t[0]] + t[1..] == t;
    }
  }

  // ----- walking -------------------------------------------------------------------

  function Connector(last: bool): string {
    if last then "└── " else "├── "
  }

  function Extension(last: bool): string {
    if last then "    " else "│   "
  }

  /** The levels left before `depth` passes the maximum. */
  function Budget(depth: int, maxDepth: int): nat {
    if depth > maxDepth then 0 else maxDepth - depth + 1
  }

  /** The concatenation of the blocks, in order. */
  function Flatten(bs: seq<seq<string>>): (r: seq<string>)
    decreases |bs|
  {
    if bs == [] then [] else bs[0] + Flatten(bs[1..])
  }

  /** `walk(dir, prefix, depth)`: nothing below the maximum depth; otherwise one block
      per child, sorted and filtered. */
  function Walk(dir: Node, prefix: string, depth: int, maxDepth: int, ex: set<string>): seq<string>
    decreases Budget(depth, maxDepth), 2, 0
  {
    if depth > maxDepth then []
    else Flatten(Blocks(Keep(Sort(Children(dir)), ex), prefix, depth, maxDepth, ex))
  }

  /** The blocks of the siblings `es`, the last of which is the last of the listing. */
  function Blocks(es: seq<Node>, prefix: string, depth: int, maxDepth: int, ex: set<string>): (bs: seq<seq<string>>)
    requires depth <= maxDepth
    ensures |bs| == |es|
    decreases Budget(depth, maxDepth), 1, |es|
  {
    if es == [] then []
    else [Block(es[0], |es| == 1, prefix, depth, maxDepth, ex)] + Blocks(es[1..], prefix, depth, maxDepth, ex)
  }

  /** One entry's block: its own line, then, for a directory, its walk one level deeper
      under the prefix extended to match. */
  function Block(n: Node, last: bool, prefix: string, depth: int, maxDepth: int, ex: set<string>): (b: seq<string>)
    requires depth <= maxDepth
    ensures |b| >= 1
    decreases Budget(depth, maxDepth), 0, 0
  {
    [prefix + Connector(last) + n.name]
      + (if n.Dir? then Walk(n, prefix + Extension(last), depth + 1, maxDepth, ex) else [])
  }

  /** `list(iter_tree(root, max_depth, excludes))`: the root's name, then its walk
      from depth 1. Listing a root that is a file raises as soon as the walk starts. */
  function TreeLines(root: Node, maxDepth: int, ex: set<string>): (r: Result<seq<string>>)
    ensures r.Err? <==> root.File? && maxDepth >= 1
    ensures r.Ok? ==> |r.value| >= 1 && r.value[0] == root.name
    ensures maxDepth < 1 ==> r == Ok([root.name])
  {
    if root.File? && maxDepth >= 1 then Err("NotADirectoryError")
    else
      var lines := [root.name] + Walk(root, "", 1, maxDepth, ex);
      assert lines[0] == root.name;
      assert maxDepth < 1 ==> lines == [root.name];
      Ok(lines)
  }

  // ----- blocks ----------------------------------------------------------------------

  lemma {:induction false} FlattenAppend(a: seq<seq<string>>, b: seq<seq<string>>)
    ensures Flatten(a + b) == Flatten(a) + Flatten(b)
    decreases |a|
  {
    if a == [] {
      assert a + b == b;
    } else {
      assert (a + b)[0] == a[0] && (a + b)[1..] == a[1..] + b;
      FlattenAppend(a[1..], b);
    }
  }

  /** Block `i` sits right after the blocks before it. */
  lemma FlattenAt(bs: seq<seq<string>>, i: nat)
    requires i < |bs|
    ensures var p := |Flatten(bs[..i])|;
            p + |bs[i]| <= |Flatten(bs)| && Flatten(bs)[p..p + |bs[i]|] == bs[i]
  {
    assert bs == bs[..i] + ([bs[i]] + bs[i + 1..]);
    FlattenAppend(bs[..i], [bs[i]] + bs[i + 1..]);
    assert ([bs[i]] + bs[i + 1..])[1..] == bs[i + 1..];
    var head := Flatten(bs[..i]);
    var rest := Flatten(bs[i + 1..]);
    assert Flatten(bs) == head + (bs[i] + rest);
    assert (head + (bs[i] + rest))[|head|..|head| + |bs[i]|] == bs[i];
  }

  /** Block `i` of the siblings is entry `i`'s, the closing one for the last entry. */
  lemma {:induction false} BlocksAt(es: seq<Node>, i: nat, prefix: string, depth: int, maxDepth: int, ex: set<string>)
    requires i < |es| && depth <= maxDepth
    ensures Blocks(es, prefix, depth, maxDepth, ex)[i] == Block(es[i], i == |es| - 1, prefix, depth, maxDepth, ex)
    decreases i
  {
    if i > 0 {
      BlocksAt(es[1..], i - 1, prefix, depth, maxDepth, ex);
    }
  }

  // ----- what the walk produces ----------------------------------------------------

  /** The reference count: one per entry that is not skipped, plus, for a directory
      within the depth bound, the count of its own entries. */
  function CountWalk(dir: Node, depth: int, maxDepth: int, ex: set<string>): nat
    decreases Budget(depth, maxDepth), 1, 0
  {
    if depth > maxDepth then 0 else CountSeq(Children(dir), depth, maxDepth, ex)
  }

  function CountSeq(s: seq<Node>, depth: int, maxDepth: int, ex: set<string>): nat
    requires depth <= maxDepth
    decreases Budget(depth, maxDepth), 0, |s|
  {
    if s == [] then 0
    else CountOne(s[0], depth, maxDepth, ex) + CountSeq(s[1..], depth, maxDepth, ex)
  }

  function CountOne(n: Node, depth: int, maxDepth: int, ex: set<string>): nat
    requires depth <= maxDepth
    decreases Budget(depth, maxDepth), 0, 0
  {
    if Skipped(n, ex) then 0
    else 1 + (if n.Dir? then CountWalk(n, depth + 1, maxDepth, ex) else 0)
  }

  lemma CountCons(a: Node, t: seq<Node>, depth: int, maxDepth: int, ex: set<string>)
    requires depth <= maxDepth
    ensures CountSeq([a] + t, depth, maxDepth, ex) == CountOne(a, depth, maxDepth, ex) + CountSeq(t, depth, maxDepth, ex)
  {
    assert ([a] + t)[1..] == t;
  }

  lemma {:induction false} CountInsert(a: Node, t: seq<Node>, depth: int, maxDepth: int, ex: set<string>)
    requires depth <= maxDepth
    ensures CountSeq(Insert(a, t), depth, maxDepth, ex) == CountOne(a, depth, maxDepth, ex) + CountSeq(t, depth, maxDepth, ex)
    decreases |t|
  {
    if t == [] {
      CountCons(a, [], depth, maxDepth, ex);
    } else if !KeyLess(t[0], a) {
      CountCons(a, t, depth, maxDepth, ex);
    } else {
      CountInsert(a, t[1..], depth, maxDepth, ex);
      CountCons(t[0], Insert(a, t[1..]), depth, maxDepth, ex);
    }
  }

  lemma {:induction false} CountSort(s: seq<Node>, depth: int, maxDepth: int, ex: set<string>)
    requires depth <= maxDepth
    ensures CountSeq(Sort(s), depth, maxDepth, ex) == CountSeq(s, depth, maxDepth, ex)
    decreases |s|
  {
    if s != [] {
      CountSort(s[1..], depth, maxDepth, ex);
      CountInsert(s[0], Sort(s[1..]), depth, maxDepth, ex);
    }
  }

  lemma {:induction false} CountKeep(s: seq<Node>, depth: int, maxDepth: int, ex: set<string>)
    requires depth <= maxDepth
    ensures CountSeq(Keep(s, ex), depth, maxDepth, ex) == CountSeq(s, depth, maxDepth, ex)
    decreases |s|
  {
    if s != [] {
      CountKeep(s[1..], depth, maxDepth, ex);
      KeepCons(s[0], s[1..], ex);
      assert [s[0]] + s[1..] == s;
      if !Skipped(s[0], ex) {
        CountCons(s[0], Keep(s[1..], ex), depth, maxDepth, ex);
      } else {
        assert Keep(s, ex) == Keep(s[1..], ex);
      }
    }
  }

  /** One line per entry kept within the depth bound. */
  lemma {:induction false} WalkCount(dir: Node, prefix: string, depth: int, maxDepth: int, ex: set<string>)
    ensures |Walk(dir, prefix, depth, maxDepth, ex)| == CountWalk(dir, depth, maxDepth, ex)
    decreases Budget(depth, maxDepth), 2, 0
  {
    if depth <= maxDepth {
      var c := Children(dir);
      var es := Keep(Sort(c), ex);
      KeepExactly(Sort(c), ex);
      BlocksCount(es, prefix, depth, maxDepth, ex);
      CountKeep(Sort(c), depth, maxDepth, ex);
      CountSort(c, depth, maxDepth, ex);
    }
  }

  lemma {:induction false} BlocksCount(es: seq<Node>, prefix: string, depth: int, maxDepth: int, ex: set<string>)
    requires depth <= maxDepth
    requires forall k :: 0 <= k < |es| ==> !Skipped(es[k], ex)
    ensures |Flatten(Blocks(es, prefix, depth, maxDepth, ex))| == CountSeq(es, depth, maxDepth, ex)
    decreases Budget(depth, maxDepth), 1, |es|
  {
    if es != [] {
      var bs := Blocks(es, prefix, depth, maxDepth, ex);
      var last := |es| == 1;
      if es[0].Dir? {
        WalkCount(es[0], prefix + Extension(last), depth + 1, maxDepth, ex);
      }
      assert bs[1..] == Blocks(es[1..], prefix, depth, maxDepth, ex);
      BlocksCount(es[1..], prefix, depth, maxDepth, ex);
    }
  }

  /** The listing has one line for the root plus one per kept entry within the depth
      bound. */
  lemma TreeLineCount(root: Node, maxDepth: int, ex: set<string>)
    requires root.Dir?
    ensures TreeLines(root, maxDepth, ex).Ok?
    ensures |TreeLines(root, maxDepth, ex).value| == 1 + CountWalk(root, 1, maxDepth, ex)
  {
    WalkCount(root, "", 1, maxDepth, ex);
  }

  predicate AllStartWith(lines: seq<string>, p: string) {
    forall k :: 0 <= k < |lines| ==> StartsWith(lines[k], p)
  }

  lemma StartsWithLonger(s: string, p: string, q: string)
    requires StartsWith(s, p + q)
    ensures StartsWith(s, p)
  {
    assert s[..|p|] == (p + q)[..|p|];
  }

  lemma StartsWithConcat(p: string, q: string)
    ensures StartsWith(p + q, p)
  {
    assert (p + q)[..|p|] == p;
  }

  lemma ExtendedPrefix(lines: seq<string>, p: string, q: string)
    requires AllStartWith(lines, p + q)
    ensures AllStartWith(lines, p)
  {
    forall k | 0 <= k < |lines|
      ensures StartsWith(lines[k], p)
    {
      StartsWithLonger(lines[k], p, q);
    }
  }

  lemma AllStartWithAppend(a: seq<string>, b: seq<string>, p: string)
    requires AllStartWith(a, p) && AllStartWith(b, p)
    ensures AllStartWith(a + b, p)
  {
    assert forall k :: |a| <= k < |a + b| ==> (a + b)[k] == b[k - |a|];
  }

  /** Every line of a walk starts with the prefix it was given, so a directory's whole
      subtree sits under its own line's indentation. */
  lemma {:induction false} WalkPrefix(dir: Node, prefix: string, depth: int, maxDepth: int, ex: set<string>)
    ensures AllStartWith(Walk(dir, prefix, depth, maxDepth, ex), prefix)
    decreases Budget(depth, maxDepth), 2, 0
  {
    if depth <= maxDepth {
      BlocksPrefix(Keep(Sort(Children(dir)), ex), prefix, depth, maxDepth, ex);
    }
  }

  lemma {:induction false} BlocksPrefix(es: seq<Node>, prefix: string, depth: int, maxDepth: int, ex: set<string>)
    requires depth <= maxDepth
    ensures AllStartWith(Flatten(Blocks(es, prefix, depth, maxDepth, ex)), prefix)
    decreases Budget(depth, maxDepth), 1, |es|
  {
    if es != [] {
      var bs := Blocks(es, prefix, depth, maxDepth, ex);
      BlockPrefix(es[0], |es| == 1, prefix, depth, maxDepth, ex);
      assert bs[1..] == Blocks(es[1..], prefix, depth, maxDepth, ex);
      BlocksPrefix(es[1..], prefix, depth, maxDepth, ex);
      AllStartWithAppend(bs[0], Flatten(bs[1..]), prefix);
    }
  }

  lemma {:induction false} BlockPrefix(n: Node, last: bool, prefix: string, depth: int, maxDepth: int, ex: set<string>)
    requires depth <= maxDepth
    ensures AllStartWith(Block(n, last, prefix, depth, maxDepth, ex), prefix)
    decreases Budget(depth, maxDepth), 0, 0
  {
    var head := prefix + Connector(last) + n.name;
    var sub := if n.Dir? then Walk(n, prefix + Extension(last), depth + 1, maxDepth, ex) else [];
    assert head == prefix + (Connector(last) + n.name);
    StartsWithConcat(prefix, Connector(last) + n.name);
    if n.Dir? {
      WalkPrefix(n, prefix + Extension(last), depth + 1, maxDepth, ex);
      ExtendedPrefix(sub, prefix, Extension(last));
    }
    AllStartWithAppend([head], sub, prefix);
  }

  /** Where entry `i`'s own line sits among its siblings' lines. */
  function Position(es: seq<Node>, i: nat, prefix: string, depth: int, maxDepth: int, ex: set<string>): nat
    requires i <= |es| && depth <= maxDepth
  {
    |Flatten(Blocks(es, prefix, depth, maxDepth, ex)[..i])|
  }

  /** An entry's block: its own line, then its subtree. */
  lemma BlockShape(n: Node, last: bool, prefix: string, depth: int, maxDepth: int, ex: set<string>)
    requires depth <= maxDepth
    ensures Block(n, last, prefix, depth, maxDepth, ex)[0] == prefix + Connector(last) + n.name
    ensures Block(n, last, prefix, depth, maxDepth, ex)[1..]
         == if n.Dir? then Walk(n, prefix + Extension(last), depth + 1, maxDepth, ex) else []
  {
  }

  /** Entry `i`'s block sits at its position among the siblings' lines. */
  lemma EntryBlock(es: seq<Node>, i: nat, prefix: string, depth: int, maxDepth: int, ex: set<string>)
    requires i < |es| && depth <= maxDepth
    ensures var all := Flatten(Blocks(es, prefix, depth, maxDepth, ex));
            var b := Block(es[i], i == |es| - 1, prefix, depth, maxDepth, ex);
            var p := Position(es, i, prefix, depth, maxDepth, ex);
            p + |b| <= |all| && all[p..p + |b|] == b
  {
    var bs := Blocks(es, prefix, depth, maxDepth, ex);
    BlocksAt(es, i, prefix, depth, maxDepth, ex);
    FlattenAt(bs, i);
  }

  /** Each kept entry has its own line, at its position in key order: the prefix, the
      closing connector for the last sibling and the branching one for every other,
      then the name. */
  lemma EntryLine(es: seq<Node>, i: nat, prefix: string, depth: int, maxDepth: int, ex: set<string>)
    requires i < |es| && depth <= maxDepth
    ensures var all := Flatten(Blocks(es, prefix, depth, maxDepth, ex));
            var p := Position(es, i, prefix, depth, maxDepth, ex);
            p < |all| && all[p] == prefix + Connector(i == |es| - 1) + es[i].name
  {
    var all := Flatten(Blocks(es, prefix, depth, maxDepth, ex));
    var b := Block(es[i], i == |es| - 1, prefix, depth, maxDepth, ex);
    var p := Position(es, i, prefix, depth, maxDepth, ex);
    EntryBlock(es, i, prefix, depth, maxDepth, ex);
    assert p + |b| <= |all| && all[p..p + |b|] == b;
    SliceHead(all, p, b);
    BlockShape(es[i], i == |es| - 1, prefix, depth, maxDepth, ex);
  }

  /** The lines right after an entry's own line are its subtree, walked one level
      deeper under the prefix extended by blank space after the last sibling and by a
      bar otherwise; a file has none. */
  lemma EntrySubtree(es: seq<Node>, i: nat, prefix: string, depth: int, maxDepth: int, ex: set<string>)
    requires i < |es| && depth <= maxDepth
    ensures var all := Flatten(Blocks(es, prefix, depth, maxDepth, ex));
            var last := i == |es| - 1;
            var sub := if es[i].Dir? then Walk(es[i], prefix + Extension(last), depth + 1, maxDepth, ex) else [];
            var p := Position(es, i, prefix, depth, maxDepth, ex);
            p + 1 + |sub| <= |all| && all[p + 1..p + 1 + |sub|] == sub
  {
    var all := Flatten(Blocks(es, prefix, depth, maxDepth, ex));
    var b := Block(es[i], i == |es| - 1, prefix, depth, maxDepth, ex);
    var p := Position(es, i, prefix, depth, maxDepth, ex);
    EntryBlock(es, i, prefix, depth, maxDepth, ex);
    assert p + |b| <= |all| && all[p..p + |b|] == b;
    SliceTail(all, p, b);
    BlockShape(es[i], i == |es| - 1, prefix, depth, maxDepth, ex);
  }

  lemma SliceHead<T>(all: seq<T>, p: nat, b: seq<T>)
    requires |b| >= 1 && p + |b| <= |all| && all[p..p + |b|] == b
    ensures p < |all| && all[p] == b[0]
  {
    assert all[p..p + |b|][0] == all[p];
  }

  lemma SliceTail<T>(all: seq<T>, p: nat, b: seq<T>)
    requires |b| >= 1 && p + |b| <= |all| && all[p..p + |b|] == b
    ensures all[p + 1..p + |b|] == b[1..]
  {
    assert all[p + 1..p + |b|] == all[p..p + |b|][1..];
  }

  /** A skipped child produces nothing: the walk is as if it were not there. */
  lemma SkippedChildIgnored(name: string, x: Node, cs: seq<Node>, prefix: string, depth: int, maxDepth: int, ex: set<string>)
    requires Skipped(x, ex)
    ensures Walk(Dir(name, [x] + cs), prefix, depth, maxDepth, ex) == Walk(Dir(name, cs), prefix, depth, maxDepth, ex)
  {
    var s := [x] + cs;
    assert s[0] == x && s[1..] == cs;
    KeepInsertSkipped(x, Sort(cs), ex);
  }

  // ----- output --------------------------------------------------------------------

  /** The printed text: the lines joined by newlines, fenced as a `text` code block
      under `--markdown`. */
  function Render(lines: seq<string>, markdown: bool): (out: string)
    ensures !markdown ==> out == Join(lines, "\n")
    ensures markdown ==> StartsWith(out, "```text\n") && EndsWith(out, "\n```")
    ensures markdown ==> |out| == |Join(lines, "\n")| + 12 && out[8..|out| - 4] == Join(lines, "\n")
  {
    var text := Join(lines, "\n");
    if markdown then
      var out := "```text\n" + text + "\n```";
      assert out[..8] == "```text\n";
      assert out[|out| - 4..] == "\n```";
      assert out[8..|out| - 4] == text;
      out
    else text
  }
}
