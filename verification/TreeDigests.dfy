/**
 * The digest of a rendered tree: what is collected, in which order it is hashed, and why equal
 * digests mean equal trees.
 */
module TreeDigests {
  import opened Wrappers
  import opened Bytes
  import opened Trees
  import opened OrdMaps

  /* ---------------------------------------------------------------- Well-formed trees */

  predicate NameOk(name: Name) {
    name != [] && 0 !in name && SLASH !in name
  }

  predicate PathOk(path: Path) {
    path != [] && (forall name | name in path :: NameOk(name)) && |Joined(path)| < TWO_64
  }

  /** A file's size fits in 64 bits. */
  predicate SizeOk(entry: Entry) {
    entry.File? ==> |entry.content| < TWO_64
  }

  /** Every path is in a directory of the tree, or at its root. */
  predicate WellFormed(tree: Tree) {
    forall p | p in tree ::
      PathOk(p) && SizeOk(tree[p]) &&
      (|p| > 1 ==> p[..|p| - 1] in tree && tree[p[..|p| - 1]].Directory?)
  }

  predicate IsBelow(dir: Path, p: Path) {
    |dir| < |p| && p[..|dir|] == dir
  }

  function Below(tree: Tree, dir: Path): set<Path> {
    set p | p in tree && IsBelow(dir, p)
  }

  lemma {:induction false} AncestorsAreDirectories(tree: Tree, dir: Path, p: Path)
    requires WellFormed(tree) && p in tree && IsBelow(dir, p) && dir != []
    ensures dir in tree && tree[dir].Directory?
    decreases |p|
  {
    var parent := p[..|p| - 1];
    if |parent| == |dir| {
      assert parent == dir;
    } else {
      assert parent[..|dir|] == dir;
      AncestorsAreDirectories(tree, dir, parent);
    }
  }

  /* ---------------------------------------------------------------- Collecting */

  /** These are the names in a directory, each once, in whatever order. */
  ghost predicate Enumerates(tree: Tree, dir: Path, names: seq<Name>) {
    (forall i, j | 0 <= i < j < |names| :: names[i] != names[j]) &&
    forall name :: name in names <==> dir + [name] in tree
  }

  /** Listing a directory, in an order that is not determined. */
  method ReadDir(tree: Tree, dir: Path) returns (names: seq<Name>)
    ensures Enumerates(tree, dir, names)
  {
    var left := set p | p in tree && |p| == |dir| + 1 && p[..|dir|] == dir :: p[|dir|];
    ghost var all := left;
    assert forall name :: name in all <==> dir + [name] in tree by {
      forall name
        ensures name in all <==> dir + [name] in tree
      {
        if name in all {
          var p :| p in tree && |p| == |dir| + 1 && p[..|dir|] == dir && p[|dir|] == name;
          assert p == dir + [name];
        }
        if dir + [name] in tree {
          assert (dir + [name])[..|dir|] == dir;
        }
      }
    }
    names := [];
    while left != {}
      invariant left <= all
      invariant forall i, j | 0 <= i < j < |names| :: names[i] != names[j]
      invariant forall name :: name in names <==> name in all && name !in left
      decreases |left|
    {
      var name :| name in left;
      left := left - {name};
      names := names + [name];
    }
  }

  ghost predicate NoDuplicates(entries: seq<Path>) {
    forall i, j | 0 <= i < j < |entries| :: entries[i] != entries[j]
  }

  /** The paths below a directory whose next name is one of these. */
  ghost predicate Covers(tree: Tree, dir: Path, names: seq<Name>, entries: seq<Path>) {
    NoDuplicates(entries) &&
    forall p :: p in entries <==> p in tree && IsBelow(dir, p) && p[|dir|] in names
  }

  lemma CoversNext(tree: Tree, dir: Path, names: seq<Name>, entries: seq<Path>, name: Name,
                   rest: seq<Path>)
    requires Covers(tree, dir, names, entries) && name !in names
    requires dir + [name] in tree && NoDuplicates(rest)
    requires forall p :: p in rest <==> p in Below(tree, dir + [name])
    ensures Covers(tree, dir, names + [name], entries + [dir + [name]] + rest)
  {
    var path := dir + [name];
    var all := entries + [path] + rest;
    forall p
      ensures p in all <==> p in tree && IsBelow(dir, p) && p[|dir|] in names + [name]
    {
      if p in tree && IsBelow(dir, p) && p[|dir|] == name {
        assert p[..|dir| + 1] == path;
        assert p == path || p in rest;
      }
      if p in rest {
        assert p[..|dir| + 1] == path && p[..|dir|] == path[..|dir|] == dir;
      }
    }
    forall i, j | 0 <= i < j < |all|
      ensures all[i] != all[j]
    {
      assert all[i] in entries ==> all[i][|dir|] in names;
      assert all[j] in rest ==> all[j][..|dir| + 1] == path && |all[j]| > |path|;
    }
  }

  lemma NothingCovered(tree: Tree, dir: Path)
    ensures Covers(tree, dir, [], [])
  {
  }

  lemma ListingCoversBelow(tree: Tree, dir: Path, names: seq<Name>, entries: seq<Path>)
    requires WellFormed(tree) && Enumerates(tree, dir, names)
    requires Covers(tree, dir, names, entries)
    ensures NoDuplicates(entries) && forall p :: p in entries <==> p in Below(tree, dir)
  {
    forall p
      ensures p in entries <==> p in Below(tree, dir)
    {
      if p in tree && IsBelow(dir, p) {
        ChildIsListed(tree, names, dir, p);
      }
    }
  }

  lemma ListedChild(tree: Tree, names: seq<Name>, dir: Path, i: nat)
    requires Enumerates(tree, dir, names) && i < |names|
    ensures dir + [names[i]] in tree && names[i] !in names[..i]
  {
    assert names[i] in names;
  }

  /** Collecting everything below a directory, depth first, in listing order. */
  method CollectEntries(tree: Tree, dir: Path) returns (entries: seq<Path>)
    requires WellFormed(tree)
    ensures NoDuplicates(entries) && forall p :: p in entries <==> p in Below(tree, dir)
    decreases |Below(tree, dir)|
  {
    hide Covers, WellFormed, Enumerates;
    entries := [];
    NothingCovered(tree, dir);
    var names := ReadDir(tree, dir);
    for i := 0 to |names|
      invariant Covers(tree, dir, names[..i], entries)
    {
      var path := dir + [names[i]];
      ListedChild(tree, names, dir, i);
      var rest := [];
      if tree[path].Directory? {
        FewerBelow(tree, dir, names[i]);
        rest := CollectEntries(tree, path);
      } else {
        NothingBelowFiles(tree, path);
      }
      CoversNext(tree, dir, names[..i], entries, names[i], rest);
      assert names[..i + 1] == names[..i] + [names[i]];
      entries := entries + [path] + rest;
    }
    assert names[..|names|] == names;
    ListingCoversBelow(tree, dir, names, entries);
  }

  lemma FewerBelow(tree: Tree, dir: Path, name: Name)
    requires dir + [name] in tree
    ensures |Below(tree, dir + [name])| < |Below(tree, dir)|
  {
    var path := dir + [name];
    forall p | p in Below(tree, path)
      ensures p in Below(tree, dir) && p != path
    {
      assert p[..|dir|] == path[..|dir|] == dir;
    }
    assert path in Below(tree, dir);
    SmallerSubset(Below(tree, path), Below(tree, dir) - {path});
  }

  lemma {:induction false} SmallerSubset<T>(a: set<T>, b: set<T>)
    requires a <= b
    ensures |a| <= |b|
  {
    if a != {} {
      var x :| x in a;
      SmallerSubset(a - {x}, b - {x});
    }
  }

  lemma NothingBelowFiles(tree: Tree, path: Path)
    requires WellFormed(tree) && path in tree && !tree[path].Directory?
    ensures Below(tree, path) == {}
  {
    forall p | p in tree && IsBelow(path, p)
      ensures false
    {
      AncestorsAreDirectories(tree, path, p);
    }
  }

  lemma ChildIsListed(tree: Tree, names: seq<Name>, dir: Path, p: Path)
    requires WellFormed(tree) && Enumerates(tree, dir, names) && p in tree && IsBelow(dir, p)
    ensures p[|dir|] in names
  {
    var child := p[..|dir| + 1];
    assert child == dir + [p[|dir|]];
    if |p| > |child| {
      AncestorsAreDirectories(tree, child, p);
    } else {
      assert child == p;
    }
  }

  /* ---------------------------------------------------------------- Ordering */

  /** The order of paths: by the first name that differs, bytewise; ancestors first. */
  predicate PathBefore(a: Path, b: Path) {
    b != [] &&
    (a == [] || Before(a[0], b[0]) || (a[0] == b[0] && PathBefore(a[1..], b[1..])))
  }

  function Terminated(name: Name): ByteString {
    name + [0]
  }

  /** A key whose byte order is the order of paths. */
  function SortKey(path: Path): ByteString {
    Concat(path, Terminated)
  }

  lemma {:induction false} TerminatedOrder(x: Name, y: Name, u: ByteString, v: ByteString)
    requires 0 !in x && 0 !in y
    ensures Before(x + [0] + u, y + [0] + v) <==> Before(x, y) || (x == y && Before(u, v))
  {
    var a, b := x + [0] + u, y + [0] + v;
    if x == [] {
      assert a[1..] == u;
      assert y == [] ==> b[1..] == v;
    } else if y != [] && x[0] == y[0] {
      assert a[1..] == x[1..] + [0] + u && b[1..] == y[1..] + [0] + v;
      TerminatedOrder(x[1..], y[1..], u, v);
      assert x == [x[0]] + x[1..] && y == [y[0]] + y[1..];
    } else {
      assert x[0] in x;
    }
  }

  lemma {:induction false} KeyOrderIsPathOrder(a: Path, b: Path)
    requires (forall name | name in a :: NameOk(name)) && forall name | name in b :: NameOk(name)
    ensures Before(SortKey(a), SortKey(b)) <==> PathBefore(a, b)
  {
    if a != [] && b != [] {
      assert a[0] in a && b[0] in b;
      TerminatedOrder(a[0], b[0], SortKey(a[1..]), SortKey(b[1..]));
      BeforeIsIrreflexive(a[0]);
      KeyOrderIsPathOrder(a[1..], b[1..]);
    } else {
      BeforeIsIrreflexive([]);
    }
  }

  lemma {:induction false} PathOrderIsTotal(a: Path, b: Path)
    ensures a == b || PathBefore(a, b) || PathBefore(b, a)
  {
    if a != [] && b != [] {
      BeforeIsTotal(a[0], b[0]);
      PathOrderIsTotal(a[1..], b[1..]);
      assert a == [a[0]] + a[1..] && b == [b[0]] + b[1..];
    }
  }

  lemma SortKeyIsInjective(a: Path, b: Path)
    requires PathOk(a) && PathOk(b) && SortKey(a) == SortKey(b)
    ensures a == b
  {
    PathOrderIsTotal(a, b);
    KeyOrderIsPathOrder(a, b);
    KeyOrderIsPathOrder(b, a);
    BeforeIsIrreflexive(SortKey(a));
  }

  lemma InsertionFits(sorted: seq<Path>, before: seq<Path>, p: Path)
    requires Sorted(sorted, SortKey) && multiset(sorted) == multiset(before)
    requires p !in before && PathOk(p) && forall q | q in before :: PathOk(q)
    ensures var r := InsertUnique(sorted, p, SortKey);
            r.Some? && Sorted(r.value, SortKey) && multiset(r.value) == multiset(before + [p])
  {
    InsertUniqueKeepsOrder(sorted, p, SortKey);
    forall j | 0 <= j < |sorted|
      ensures SortKey(sorted[j]) != SortKey(p)
    {
      assert sorted[j] in multiset(before);
      if SortKey(sorted[j]) == SortKey(p) {
        SortKeyIsInjective(sorted[j], p);
      }
    }
    hide InsertUnique, SortKey, PathOk;
  }

  method SortPaths(entries: seq<Path>) returns (sorted: seq<Path>)
    requires NoDuplicates(entries) && forall p | p in entries :: PathOk(p)
    ensures Sorted(sorted, SortKey) && multiset(sorted) == multiset(entries)
  {
    hide PathOk, SortKey, InsertUnique, Sorted;
    sorted := [];
    assert Sorted(sorted, SortKey) by {
      EmptyIsSorted(sorted);
    }
    for i := 0 to |entries|
      invariant Sorted(sorted, SortKey) && multiset(sorted) == multiset(entries[..i])
    {
      InsertionFits(sorted, entries[..i], entries[i]);
      sorted := InsertUnique(sorted, entries[i], SortKey).value;
      assert entries[..i + 1] == entries[..i] + [entries[i]];
    }
    assert entries[..|entries|] == entries;
  }

  lemma EmptyIsSorted(s: seq<Path>)
    requires s == []
    ensures Sorted(s, SortKey)
  {
  }

  /* ---------------------------------------------------------------- Encoding */

  predicate EntryOk(entry: Entry) {
    !entry.Special? && SizeOk(entry)
  }

  type Item = i: (Path, Entry) | PathOk(i.0) && EntryOk(i.1) witness ([[1]], File(0, []))

  const DIRECTORY_TAG := TextBytes("directory") + [0]
  const FILE_TAG := TextBytes("file") + [0]
  const TREE_PREFIX := TextBytes("henosis.dev/k8s-render-tree/v1") + [0]

  function EntryTail(entry: Entry): ByteString
    requires EntryOk(entry)
  {
    BigEndian(entry.mode, 4) + EntryKind(entry)
  }

  function ItemCode(item: Item): ByteString {
    Framed(Joined(item.0)) + EntryTail(item.1)
  }

  function ItemKey(item: Item): ByteString {
    SortKey(item.0)
  }

  lemma ShorterNameCutsAtSlash(x: Name, u: ByteString, y: Name, v: ByteString)
    requires x + [SLASH] + u == y + [SLASH] + v
    ensures |y| < |x| ==> SLASH in x
  {
    var whole := x + [SLASH] + u;
    assert (y + [SLASH] + v)[|y|] == SLASH;
    assert |y| < |x| ==> whole[|y|] == x[|y|];
  }

  lemma SlashSplits(x: Name, u: ByteString, y: Name, v: ByteString)
    requires SLASH !in x && SLASH !in y && x + [SLASH] + u == y + [SLASH] + v
    ensures x == y && u == v
  {
    ShorterNameCutsAtSlash(x, u, y, v);
    ShorterNameCutsAtSlash(y, v, x, u);
    assert x + [SLASH] + u == x + ([SLASH] + u);
    assert y + [SLASH] + v == y + ([SLASH] + v);
    SplitAt(x, [SLASH] + u, y, [SLASH] + v);
    SplitAt([SLASH], u, [SLASH], v);
  }

  lemma DeepPathsHaveSlashes(path: Path)
    ensures |path| > 1 ==> SLASH in Joined(path)
  {
    if |path| > 1 {
      assert Joined(path)[|path[0]|] == SLASH;
    }
  }

  lemma {:induction false} JoinedIsInjective(a: Path, b: Path)
    requires a != [] && b != [] && Joined(a) == Joined(b)
    requires (forall name | name in a :: NameOk(name)) && forall name | name in b :: NameOk(name)
    ensures a == b
  {
    assert a[0] in a && b[0] in b;
    DeepPathsHaveSlashes(a);
    DeepPathsHaveSlashes(b);
    if |a| > 1 && |b| > 1 {
      SlashSplits(a[0], Joined(a[1..]), b[0], Joined(b[1..]));
      JoinedIsInjective(a[1..], b[1..]);
      assert a == [a[0]] + a[1..] && b == [b[0]] + b[1..];
    }
  }

  /** The part of an entry's code behind its mode. */
  function EntryKind(entry: Entry): ByteString
    requires EntryOk(entry)
  {
    if entry.Directory? then DIRECTORY_TAG else FILE_TAG + Framed(entry.content)
  }

  lemma TagsDiffer()
    ensures |DIRECTORY_TAG| > 0 && |FILE_TAG| > 0 && DIRECTORY_TAG[0] != FILE_TAG[0]
  {
    assert DIRECTORY_TAG[0] == 100 && FILE_TAG[0] == 102;
  }

  lemma EntryKindIsPrefixFree(x: Entry, u: ByteString, y: Entry, v: ByteString)
    requires EntryOk(x) && EntryOk(y) && EntryKind(x) + u == EntryKind(y) + v
    ensures x.Directory? <==> y.Directory?
    ensures (x.File? && y.File? ==> x.content == y.content) && u == v
  {
    TagsDiffer();
    hide DIRECTORY_TAG, FILE_TAG, Framed;
    assert (EntryKind(x) + u)[0] == (EntryKind(y) + v)[0];
    if x.Directory? {
      SplitAt(DIRECTORY_TAG, u, DIRECTORY_TAG, v);
    } else {
      assert EntryKind(x) + u == FILE_TAG + (Framed(x.content) + u);
      assert EntryKind(y) + v == FILE_TAG + (Framed(y.content) + v);
      SplitAt(FILE_TAG, Framed(x.content) + u, FILE_TAG, Framed(y.content) + v);
      FramedIsPrefixFree(x.content, u, y.content, v);
    }
  }

  lemma EntryTailIsPrefixFree(x: Entry, u: ByteString, y: Entry, v: ByteString)
    requires EntryOk(x) && EntryOk(y) && EntryTail(x) + u == EntryTail(y) + v
    ensures x == y && u == v
  {
    hide EntryKind, Framed, BigEndian;
    assert EntryTail(x) + u == BigEndian(x.mode, 4) + (EntryKind(x) + u);
    assert EntryTail(y) + v == BigEndian(y.mode, 4) + (EntryKind(y) + v);
    SplitAt(BigEndian(x.mode, 4), EntryKind(x) + u, BigEndian(y.mode, 4), EntryKind(y) + v);
    assert Power256(4) == 0x1_0000_0000;
    BigEndianIsInjective(x.mode, y.mode, 4);
    EntryKindIsPrefixFree(x, u, y, v);
  }

  lemma ItemCodesSplit(x: Item, u: ByteString, y: Item, v: ByteString)
    requires ItemCode(x) + u == ItemCode(y) + v
    ensures x == y && u == v
  {
    hide EntryTail, Framed, Joined;
    assert ItemCode(x) + u == Framed(Joined(x.0)) + (EntryTail(x.1) + u);
    assert ItemCode(y) + v == Framed(Joined(y.0)) + (EntryTail(y.1) + v);
    FramedIsPrefixFree(Joined(x.0), EntryTail(x.1) + u, Joined(y.0), EntryTail(y.1) + v);
    JoinedIsInjective(x.0, y.0);
    EntryTailIsPrefixFree(x.1, u, y.1, v);
  }

  lemma ItemCodeIsPrefixFree()
    ensures PrefixFree(ItemCode)
  {
    forall x: Item, y: Item, u, v | ItemCode(x) + u == ItemCode(y) + v
      ensures x == y && u == v
    {
      ItemCodesSplit(x, u, y, v);
    }
    forall x: Item
      ensures ItemCode(x) != []
    {
      assert |Framed(Joined(x.0))| >= 8;
    }
    hide ItemCode;
  }

  /* ---------------------------------------------------------------- The digest */

  /** The items of a tree in path order. */
  ghost predicate Lists(tree: Tree, items: seq<Item>) {
    Sorted(items, ItemKey) &&
    forall item: Item :: item in items <==> item.0 in tree && tree[item.0] == item.1
  }

  function TreePreimage(items: seq<Item>): ByteString {
    TREE_PREFIX + Concat(items, ItemCode)
  }

  ghost predicate HasDigest(tree: Tree, digest: Digest) {
    exists items :: Lists(tree, items) && digest == Blake3(TreePreimage(items))
  }

  predicate NothingSpecial(tree: Tree) {
    forall p | p in tree :: !tree[p].Special?
  }

  /** These items are the first entries of a sorted listing. */
  ghost predicate ItemsOf(tree: Tree, paths: seq<Path>, items: seq<Item>) {
    |items| == |paths| &&
    forall k | 0 <= k < |items| ::
      items[k].0 == paths[k] && paths[k] in tree && items[k].1 == tree[paths[k]]
  }

  /** Feed one entry to the hasher. */
  method FeedEntry(fed: ByteString, path: Path, entry: Entry) returns (next: ByteString)
    requires PathOk(path) && EntryOk(entry)
    ensures next == fed + ItemCode((path, entry))
  {
    hide Framed, Joined, BigEndian;
    next := fed + Framed(Joined(path));
    next := next + BigEndian(entry.mode, 4);
    if entry.Directory? {
      next := next + DIRECTORY_TAG;
    } else {
      next := next + FILE_TAG;
      next := next + Framed(entry.content);
    }
    assert next == fed + (Framed(Joined(path)) + EntryTail(entry));
  }

  lemma ItemsNext(tree: Tree, paths: seq<Path>, i: nat, items: seq<Item>, item: Item)
    requires i < |paths| && ItemsOf(tree, paths[..i], items)
    requires item.0 == paths[i] && paths[i] in tree && item.1 == tree[paths[i]]
    ensures ItemsOf(tree, paths[..i + 1], items + [item])
  {
  }

  lemma NoItems(tree: Tree)
    ensures ItemsOf(tree, [], []) && Concat<Item>([], ItemCode) == []
  {
  }

  /** Hash sorted entries one by one; a special file is an error. */
  method HashEntries(tree: Tree, sorted: seq<Path>)
    returns (r: Option<Digest>, ghost items: seq<Item>)
    requires forall p | p in sorted :: PathOk(p) && p in tree && SizeOk(tree[p])
    ensures r.Some? <==> forall p | p in sorted :: !tree[p].Special?
    ensures r.Some? ==> ItemsOf(tree, sorted, items) && r.value == Blake3(TreePreimage(items))
  {
    var fed := TREE_PREFIX;
    items := [];
    NoItems(tree);
    hide PathOk, Concat, ItemCode, ItemsOf;
    for i := 0 to |sorted|
      invariant fed == TREE_PREFIX + Concat(items, ItemCode)
      invariant ItemsOf(tree, sorted[..i], items)
      invariant forall k | 0 <= k < i :: !tree[sorted[k]].Special?
    {
      var path := sorted[i];
      assert path in sorted;
      var entry := tree[path];
      if entry.Special? { return None, items; }
      ghost var item: Item := (path, entry);
      ConcatSnoc(items, item, ItemCode);
      ItemsNext(tree, sorted, i, items, item);
      fed := FeedEntry(fed, path, entry);
      items := items + [item];
    }
    assert sorted[..|sorted|] == sorted;
    r := Some(Blake3(fed));
  }

  lemma SortedItemsList(tree: Tree, sorted: seq<Path>, items: seq<Item>)
    requires Sorted(sorted, SortKey) && ItemsOf(tree, sorted, items)
    requires forall p :: p in sorted <==> p in tree
    ensures Lists(tree, items)
  {
    forall item: Item
      ensures item in items <==> item.0 in tree && tree[item.0] == item.1
    {
      if item.0 in tree && tree[item.0] == item.1 {
        var k :| 0 <= k < |sorted| && sorted[k] == item.0;
        assert items[k] == item;
      }
    }
    hide SortKey;
  }

  /** Collect, sort, and hash. */
  method TreeDigest(tree: Tree) returns (r: Option<Digest>)
    requires WellFormed(tree)
    ensures r.Some? <==> NothingSpecial(tree)
    ensures r.Some? ==> HasDigest(tree, r.value)
  {
    var entries := CollectEntries(tree, []);
    forall p
      ensures p in entries <==> p in tree
    {
      assert p in tree ==> PathOk(p) && IsBelow([], p);
    }
    hide PathOk, SortKey, IsBelow;
    var sorted := SortPaths(entries);
    forall p
      ensures p in sorted <==> p in tree
    {
      assert p in sorted <==> p in multiset(sorted);
      assert p in entries <==> p in multiset(entries);
    }
    ghost var items;
    r, items := HashEntries(tree, sorted);
    if r.Some? {
      SortedItemsList(tree, sorted, items);
    }
  }

  /**
   * The digest identifies the tree: whatever order directories are listed in, equal trees have
   * equal digests, and equal digests come from equal trees.
   */
  lemma DigestsIdentifyTrees(t: Tree, d: Digest, t': Tree, d': Digest)
    requires WellFormed(t) && NothingSpecial(t) && HasDigest(t, d)
    requires WellFormed(t') && NothingSpecial(t') && HasDigest(t', d')
    ensures d == d' <==> t == t'
  {
    var a :| Lists(t, a) && d == Blake3(TreePreimage(a));
    var b :| Lists(t', b) && d' == Blake3(TreePreimage(b));
    if t == t' {
      forall x: Item | x in a + b
        ensures x in a && x in b
      {
        assert x.0 in t && t[x.0] == x.1;
      }
      SortedByElements(a, b, ItemKey);
    }
    if d == d' {
      SplitAt(TREE_PREFIX, Concat(a, ItemCode), TREE_PREFIX, Concat(b, ItemCode));
      ItemCodeIsPrefixFree();
      ConcatIsInjective(a, b, ItemCode);
      SameItemsSameTree(t, t', a);
    }
  }

  lemma SameItemsSameTree(t: Tree, t': Tree, items: seq<Item>)
    requires WellFormed(t) && NothingSpecial(t) && Lists(t, items)
    requires WellFormed(t') && NothingSpecial(t') && Lists(t', items)
    ensures t == t'
  {
    forall p
      ensures p in t ==> p in t' && t'[p] == t[p]
      ensures p in t' ==> p in t && t'[p] == t[p]
    {
      if p in t {
        var item: Item := (p, t[p]);
        assert item in items;
      }
      if p in t' {
        var item: Item := (p, t'[p]);
        assert item in items;
      }
    }
  }

  /* ---------------------------------------------------------------- As a function */

  predicate Hashable(tree: Tree) {
    WellFormed(tree) && NothingSpecial(tree)
  }

  lemma {:induction false} ListingExists(tree: Tree) returns (items: seq<Item>)
    requires NothingSpecial(tree) && forall p | p in tree :: PathOk(p) && SizeOk(tree[p])
    ensures Lists(tree, items)
    decreases |tree|
  {
    items := [];
    if |tree| != 0 {
      var p :| p in tree.Keys;
      var rest := tree - {p};
      assert |rest| < |tree| by {
        assert rest.Keys == tree.Keys - {p};
      }
      var others := ListingExists(rest);
      var item: Item := (p, tree[p]);
      items := InsertItem(others, item);
      forall x: Item
        ensures x in items <==> x.0 in tree && tree[x.0] == x.1
      {
        assert x in items <==> x == item || x in others;
      }
    }
    hide PathOk, ItemKey;
  }

  lemma InsertItem(others: seq<Item>, item: Item) returns (items: seq<Item>)
    requires Sorted(others, ItemKey) && forall x | x in others :: x.0 != item.0
    ensures Sorted(items, ItemKey) && forall x :: x in items <==> x == item || x in others
  {
    InsertUniqueKeepsOrder(others, item, ItemKey);
    forall j | 0 <= j < |others|
      ensures ItemKey(others[j]) != ItemKey(item)
    {
      assert others[j] in others;
      if ItemKey(others[j]) == ItemKey(item) {
        SortKeyIsInjective(others[j].0, item.0);
      }
    }
    items := InsertUnique(others, item, ItemKey).value;
    forall x
      ensures x in items <==> x == item || x in others
    {
      assert x in items <==> x in multiset(items);
      assert x in others <==> x in multiset(others);
    }
    hide ItemKey;
  }

  /** The digest of a tree. */
  ghost function DigestOf(tree: Tree): (digest: Digest)
    requires Hashable(tree)
    ensures HasDigest(tree, digest)
  {
    DigestExists(tree);
    var digest :| HasDigest(tree, digest);
    digest
  }

  lemma DigestExists(tree: Tree)
    requires Hashable(tree)
    ensures exists digest :: HasDigest(tree, digest)
  {
    var items := ListingExists(tree);
    assert HasDigest(tree, Blake3(TreePreimage(items)));
  }
}
