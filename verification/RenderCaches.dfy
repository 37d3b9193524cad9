/** The bounded on-disk cache of renders: restoring, storing, invalidating, and evicting. */
module RenderCaches {
  import opened Wrappers
  import opened Bytes
  import opened Trees
  import opened OrdMaps
  import opened TreeDigests
  import opened Copies

  /** A directory under the cache root: its render, its digest file, and when it was made. */
  datatype Node = Node(rendered: Option<Tree>, digest: Option<Digest>, modified: nat)

  datatype Lookup = Hit | Miss | Failed

  /** Whether an operation's input and output works, or at which of its steps it fails. */
  datatype Io = Works | FailsAt(step: nat, left: Node)

  /** Whatever lies in the cache is a directory tree. */
  predicate TreesOk(disk: map<Name, Node>) {
    forall name | name in disk && disk[name].rendered.Some? ::
      WellFormed(disk[name].rendered.value)
  }

  predicate IsRecipeKey(name: Name) {
    |name| == 64 && forall b | b in name :: 48 <= b <= 57 || 97 <= b <= 102
  }

  lemma SpelledHashIsKey(hash: Hash32)
    ensures IsRecipeKey(TextBytes(Hex(hash)))
  {
    HexReadsBack(hash);
    hide Hex, Unhex;
    DigitsAreKeyBytes(Hex(hash));
    hide TextBytes, IsHexDigit;
  }

  lemma DigitsAreKeyBytes(text: string)
    requires forall c | c in text :: IsHexDigit(c)
    ensures forall b | b in TextBytes(text) :: 48 <= b <= 57 || 97 <= b <= 102
  {
    forall b | b in TextBytes(text)
      ensures 48 <= b <= 57 || 97 <= b <= 102
    {
      var i :| 0 <= i < |text| && TextBytes(text)[i] == b;
      assert text[i] in text;
    }
  }

  /** The names of entries are exactly the lowercase spellings of 32 bytes. */
  lemma RecipeKeysSpellHashes(name: Name)
    ensures IsRecipeKey(name) <==> exists hash: Hash32 :: name == TextBytes(Hex(hash))
  {
    if IsRecipeKey(name) {
      var text := seq(|name|, i requires 0 <= i < |name| => name[i] as char);
      forall c | c in text
        ensures IsHexDigit(c)
      {
        var i :| 0 <= i < |text| && text[i] == c;
        assert name[i] in name;
      }
      UnhexReads(text);
      var hash := Unhex(text).value;
      assert TextBytes(text) == name;
      assert name == TextBytes(Hex(hash));
    }
    if hash: Hash32 :| name == TextBytes(Hex(hash)) {
      SpelledHashIsKey(hash);
    }
    hide Hex, Unhex, IsRecipeKey;
  }

  const STAGING: Name := TextBytes(".staging-")

  predicate IsStaging(name: Name) {
    STAGING <= name
  }

  lemma StagingIsNoKey(name: Name)
    requires IsStaging(name)
    ensures !IsRecipeKey(name)
  {
    assert name[0] == STAGING[0] == 46;
    assert name[0] in name;
  }

  /** The entries of the cache. */
  function Keys(disk: map<Name, Node>): set<Name> {
    set name | name in disk && IsRecipeKey(name)
  }

  /* ---------------------------------------------------------------- Age */

  type Aged = (nat, Name)

  predicate Older(a: Aged, b: Aged) {
    a.0 < b.0 || (a.0 == b.0 && Before(a.1, b.1))
  }

  predicate ByAge(s: seq<Aged>) {
    forall i, j | 0 <= i < j < |s| :: Older(s[i], s[j])
  }

  lemma OlderIsTransitive(a: Aged, b: Aged, c: Aged)
    requires Older(a, b) && Older(b, c)
    ensures Older(a, c)
  {
    if a.0 == b.0 == c.0 {
      BeforeIsTransitive(a.1, b.1, c.1);
    }
  }

  function InsertByAge(s: seq<Aged>, x: Aged): seq<Aged> {
    if s == [] || Older(x, s[0]) then [x] + s else [s[0]] + InsertByAge(s[1..], x)
  }

  lemma {:induction false} InsertByAgeSorts(s: seq<Aged>, x: Aged)
    requires ByAge(s) && forall a | a in s :: a.1 != x.1
    ensures ByAge(InsertByAge(s, x))
    ensures forall a :: a in InsertByAge(s, x) <==> a == x || a in s
    ensures |InsertByAge(s, x)| == |s| + 1
  {
    if s == [] {
    } else if Older(x, s[0]) {
      forall i | 0 <= i < |s|
        ensures Older(x, s[i])
      {
        if i > 0 {
          OlderIsTransitive(x, s[0], s[i]);
        }
      }
    } else {
      assert s[0] in s;
      BeforeIsTotal(x.1, s[0].1);
      assert Older(s[0], x);
      InsertByAgeSorts(s[1..], x);
      var r := InsertByAge(s[1..], x);
      forall i | 0 <= i < |r|
        ensures Older(s[0], r[i])
      {
        assert r[i] in r;
      }
    }
  }

  /** The entries of a disk, oldest first. */
  ghost predicate AgeOrder(disk: map<Name, Node>, s: seq<Aged>) {
    ByAge(s) && |s| == |Keys(disk)| &&
    forall a :: a in s <==> a.1 in Keys(disk) && a.0 == disk[a.1].modified
  }

  /** Read the entries and sort them by age, then by name. */
  method SortByAge(disk: map<Name, Node>) returns (s: seq<Aged>)
    ensures AgeOrder(disk, s)
  {
    s := [];
    var left := Keys(disk);
    while left != {}
      invariant left <= Keys(disk) && ByAge(s) && |s| + |left| == |Keys(disk)|
      invariant forall a :: a in s <==>
                  a.1 in Keys(disk) && a.1 !in left && a.0 == disk[a.1].modified
      decreases |left|
    {
      var name :| name in left;
      left := left - {name};
      var aged: Aged := (disk[name].modified, name);
      InsertByAgeSorts(s, aged);
      s := InsertByAge(s, aged);
    }
  }

  /* ---------------------------------------------------------------- Eviction */

  function Without(disk: map<Name, Node>, s: seq<Aged>): map<Name, Node> {
    map name | name in disk && forall a | a in s :: a.1 != name :: disk[name]
  }

  function Unstaged(disk: map<Name, Node>): map<Name, Node> {
    map name | name in disk && !IsStaging(name) :: disk[name]
  }

  function Excess(disk: map<Name, Node>, maxEntries: nat): nat {
    if |Keys(disk)| > maxEntries then |Keys(disk)| - maxEntries else 0
  }

  /** What eviction leaves: no staging, and of the entries the youngest that fit. */
  ghost predicate Evicts(before: map<Name, Node>, maxEntries: nat, after: map<Name, Node>) {
    exists s ::
      AgeOrder(before, s) && Excess(before, maxEntries) <= |s| &&
      after == Without(Unstaged(before), s[..Excess(before, maxEntries)])
  }

  /** What may be left of a directory that a failed deletion has been through. */
  predicate PartOf(left: Node, whole: Node) {
    (left.digest.None? || left.digest == whole.digest) &&
    (left.rendered.Some? ==> WellFormed(left.rendered.value))
  }

  function NamesOf(s: seq<Aged>): set<Name> {
    set a | a in s :: a.1
  }

  lemma {:induction false} DistinctNamesCount(s: seq<Aged>)
    requires forall i, j | 0 <= i < j < |s| :: s[i].1 != s[j].1
    ensures |NamesOf(s)| == |s|
  {
    if s != [] {
      var n := |s| - 1;
      DistinctNamesCount(s[..n]);
      assert s == s[..n] + [s[n]];
      assert NamesOf(s) == NamesOf(s[..n]) + {s[n].1};
    }
  }

  lemma AgedNamesAreDistinct(disk: map<Name, Node>, s: seq<Aged>)
    requires AgeOrder(disk, s)
    ensures forall i, j | 0 <= i < j < |s| :: s[i].1 != s[j].1
  {
    forall i, j | 0 <= i < j < |s|
      ensures s[i].1 != s[j].1
    {
      assert s[i] in s && s[j] in s && Older(s[i], s[j]);
      BeforeIsIrreflexive(s[i].1);
    }
  }

  /** Evicting the `n` oldest entries leaves the others. */
  lemma EvictionFits(before: map<Name, Node>, s: seq<Aged>, n: nat)
    requires AgeOrder(before, s) && n <= |s|
    ensures Keys(Without(Unstaged(before), s[..n])) == Keys(before) - NamesOf(s[..n])
    ensures |Keys(Without(Unstaged(before), s[..n]))| == |Keys(before)| - n
  {
    KeysSurviveUnstaging(before);
    AgedNamesAreDistinct(before, s);
    DistinctNamesCount(s[..n]);
    forall name | name in NamesOf(s[..n])
      ensures name in Keys(before)
    {
      var a :| a in s[..n] && a.1 == name;
      assert a in s;
    }
    KeysWithout(Unstaged(before), s[..n]);
  }

  lemma KeysWithout(disk: map<Name, Node>, s: seq<Aged>)
    ensures Keys(Without(disk, s)) == Keys(disk) - NamesOf(s)
  {
    forall name
      ensures name in NamesOf(s) <==> exists a :: a in s && a.1 == name
    {
    }
  }

  /** A render under this key that has the digest it was stored with. */
  ghost predicate Stored(disk: map<Name, Node>, key: Name) {
    key in disk && disk[key].rendered.Some? && disk[key].digest.Some? &&
    Hashable(disk[key].rendered.value) &&
    disk[key].digest.value == DigestOf(disk[key].rendered.value)
  }

  class RenderCache {
    const maxEntries: nat
    var disk: map<Name, Node>
    var clock: nat

    constructor (maxEntries: nat)
      ensures disk == map[] && this.maxEntries == maxEntries
    {
      this.maxEntries := maxEntries;
      disk, clock := map[], 0;
    }

    /** Copy an entry into an empty destination if its render has the digest it was stored with. */
    method Restore(key: Name, io: Io, partial: Tree) returns (r: Lookup, output: Tree)
      requires TreesOk(disk)
      ensures r.Hit? ==> Stored(disk, key) && output == Copied(disk[key].rendered.value)
      ensures r.Miss? ==> output == map[] && (key in disk ==> disk[key].rendered.None?)
      ensures io.Works? ==>
                (r.Miss? <==> key !in disk || disk[key].rendered.None?) &&
                (r.Hit? <==> Stored(disk, key))
    {
      output := map[];
      if io.FailsAt? && io.step == 0 { return Failed, output; }
      if key !in disk || disk[key].rendered.None? { return Miss, output; }
      var source := disk[key].rendered.value;
      if disk[key].digest.None? || (io.FailsAt? && io.step == 1) { return Failed, output; }
      var actual := TreeDigest(source);
      if actual.None? || (io.FailsAt? && io.step == 2) { return Failed, output; }
      DigestsIdentifyTrees(source, actual.value, source, DigestOf(source));
      if disk[key].digest.value != actual.value { return Failed, output; }
      if io.FailsAt? { return Failed, partial; }
      var ok;
      ok, output := CopyTree(source, [], map[]);
      WholeTreeIsCopied(source, output);
      r := Hit;
    }

    /** Delete an entry, if it is there; a failed deletion may leave part of it. */
    method Invalidate(key: Name, io: Io) returns (ok: bool)
      modifies this`disk
      ensures ok ==> disk == old(disk) - {key}
      ensures !ok ==>
                io.FailsAt? && (disk == old(disk) ||
                (key in old(disk) && PartOf(io.left, old(disk)[key]) &&
                 disk == old(disk)[key := io.left]))
    {
      if io.FailsAt? {
        if key in disk && PartOf(io.left, disk[key]) {
          disk := disk[key := io.left];
        }
        return false;
      }
      disk := disk - {key};
      ok := true;
    }

    /** Delete one directory as some step of an operation; a failed deletion may leave part of it. */
    method RemoveDirectory(name: Name, io: Io, step: nat) returns (ok: bool)
      requires name in disk
      modifies this`disk
      ensures ok <==> !(io.FailsAt? && io.step == step)
      ensures ok ==> disk == old(disk) - {name}
      ensures !ok ==>
                disk == old(disk) ||
                (PartOf(io.left, old(disk)[name]) && disk == old(disk)[name := io.left])
    {
      ok := !(io.FailsAt? && io.step == step);
      if ok {
        disk := disk - {name};
      } else if PartOf(io.left, disk[name]) {
        disk := disk[name := io.left];
      }
    }

    /** Delete the staging directories, in whatever order they are listed. */
    method RemoveStaging(io: Io, first: nat) returns (ok: bool, step: nat)
      modifies this`disk
      ensures io.Works? ==> ok
      ensures ok ==> disk == Unstaged(old(disk))
      ensures Shrinks(old(disk), disk)
    {
      hide Shrinks, Unstaged, PartOf;
      ghost var before := disk;
      var staged := Staged(disk);
      var left := staged;
      assert disk == before - (staged - left);
      hide Staged;
      step := first;
      while left != {}
        invariant left <= staged && disk == before - (staged - left)
        decreases |left|
      {
        var name :| name in left;
        ghost var whole := disk;
        StagedRemains(before, left, name);
        RemovingShrinks(before, staged - left);
        ok := RemoveDirectory(name, io, step);
        if !ok {
          if disk != whole {
            DamageShrinks(before, whole, name, io.left);
          }
          return;
        }
        RemovedNext(before, staged, left, name);
        left, step := left - {name}, step + 1;
      }
      UnstagedIsTheRest(before);
      assert staged - left == staged;
      RemovingShrinks(before, staged);
      ok := true;
    }

    /**
     * Delete staging directories, then the oldest entries that are too many. Listing the cache and
     * every single deletion can fail.
     */
    method Evict(io: Io) returns (evicted: Option<nat>)
      modifies this`disk
      ensures io.Works? ==> evicted.Some?
      ensures evicted.Some? ==>
                Evicts(old(disk), maxEntries, disk) &&
                evicted.value == Excess(old(disk), maxEntries) &&
                |Keys(disk)| <= maxEntries && |Keys(disk)| + evicted.value == |Keys(old(disk))|
      ensures Shrinks(old(disk), disk)
    {
      hide Keys, Without, Unstaged, Shrinks, AgeOrder, PartOf;
      ghost var before := disk;
      KeepingShrinks(before);
      if io.FailsAt? && io.step == 4 { return None; }
      var ok, step := RemoveStaging(io, 5);
      if !ok || (io.FailsAt? && io.step == step) { return None; }
      KeysSurviveUnstaging(before);
      var entries := SortByAge(disk);
      SameAgeOrder(before, disk, entries);
      var excess := if |entries| > maxEntries then |entries| - maxEntries else 0;
      NothingWithout(disk);
      for i := 0 to excess
        invariant disk == Without(Unstaged(before), entries[..i])
      {
        EvictionShrinks(before, entries[..i]);
        var oldest := entries[i].1;
        ghost var whole := disk;
        OldestRemains(before, entries, i);
        ok := RemoveDirectory(oldest, io, step + 1 + i);
        if !ok {
          if disk != whole {
            DamageShrinks(before, whole, oldest, io.left);
          }
          return None;
        }
        EvictNext(Unstaged(before), entries, i);
      }
      EvictionFits(before, entries, excess);
      EvictionShrinks(before, entries[..excess]);
      evicted := Some(excess);
    }

    /** Copy a render into a staging directory and digest the copy. */
    static method CopyAndDigest(source: Tree) returns (r: Option<(Tree, Digest)>)
      requires WellFormed(source)
      ensures r.Some? <==> NothingSpecial(source)
      ensures r.Some? ==>
                r.value.0 == Copied(source) && Hashable(Copied(source)) &&
                r.value.1 == DigestOf(Copied(source))
    {
      CopiedIsHashable(source);
      AllBelowRoot(source);
      var ok, rendered := CopyTree(source, [], map[]);
      if !ok { return None; }
      WholeTreeIsCopied(source, rendered);
      var digest := TreeDigest(rendered);
      DigestsIdentifyTrees(rendered, digest.value, rendered, DigestOf(rendered));
      r := Some((rendered, digest.value));
      hide WellFormed, NothingSpecial, Copied;
    }

    /** Put a complete entry under a key, unless there is one; an incomplete one gives way. */
    method Install(key: Name, source: Tree, io: Io) returns (ok: bool)
      requires WellFormed(source)
      modifies this`disk, this`clock
      ensures clock == old(clock) || clock == old(clock) + 1
      ensures !ok ==> Shrinks(old(disk), disk) && (io.FailsAt? || !NothingSpecial(source))
      ensures ok && !NothingSpecial(source) ==> disk == old(disk)
      ensures ok && NothingSpecial(source) ==>
                Hashable(Copied(source)) && clock == old(clock) + 1 &&
                disk == Installed(old(disk), key, source, old(clock))
    {
      hide WellFormed, NothingSpecial, Copied;
      if io.FailsAt? && io.step == 0 { return false; }
      var now := clock;
      clock := clock + 1;
      if key in disk && disk[key].rendered.Some? {
        HashableCopy(source);
        return true;
      }
      if key in disk {
        var removed := RemoveDirectory(key, io, 1);
        if !removed { return false; }
      }
      var staged := CopyAndDigest(source);
      if staged.None? || (io.FailsAt? && io.step in {2, 3}) { return false; }
      disk := disk[key := Node(Some(staged.value.0), Some(staged.value.1), now)];
      ok := true;
    }

    /**
     * Store a render and evict. The copy and its digest appear at once, and only a complete entry
     * keeps its key.
     */
    method Store(key: Name, source: Tree, io: Io) returns (evicted: Option<nat>)
      requires WellFormed(source)
      modifies this`disk, this`clock
      ensures NothingSpecial(source) ==>
                Hashable(Copied(source)) && Leaves(old(disk), key, source, old(clock), disk)
      ensures !NothingSpecial(source) ==> Shrinks(old(disk), disk)
      ensures io.Works? && NothingSpecial(source) ==>
                evicted.Some? && clock == old(clock) + 1 &&
                var full := Installed(old(disk), key, source, old(clock));
                Evicts(full, maxEntries, disk) && evicted.value == Excess(full, maxEntries) &&
                |Keys(disk)| <= maxEntries
    {
      hide WellFormed, NothingSpecial, Copied, Evicts, Keys, Excess;
      HashableCopy(source);
      ghost var before := disk;
      var ok := Install(key, source, io);
      if !ok { return None; }
      evicted := Evict(io);
    }
  }

  lemma HashableCopy(source: Tree)
    requires WellFormed(source)
    ensures NothingSpecial(source) ==> Hashable(Copied(source))
  {
    CopiedIsHashable(source);
  }

  lemma EvictionShrinks(before: map<Name, Node>, s: seq<Aged>)
    ensures Shrinks(before, Without(Unstaged(before), s))
  {
  }

  lemma SameAgeOrder(before: map<Name, Node>, unstaged: map<Name, Node>, s: seq<Aged>)
    requires unstaged == Unstaged(before) && AgeOrder(unstaged, s)
    ensures AgeOrder(before, s) && |s| == |Keys(before)|
  {
    KeysSurviveUnstaging(before);
  }

  lemma KeepingShrinks(disk: map<Name, Node>)
    ensures Shrinks(disk, disk)
  {
  }

  lemma RemovingShrinks(before: map<Name, Node>, names: set<Name>)
    ensures Shrinks(before, before - names)
  {
  }

  function Staged(disk: map<Name, Node>): set<Name> {
    set name | name in disk && IsStaging(name)
  }

  lemma UnstagedIsTheRest(disk: map<Name, Node>)
    ensures disk - Staged(disk) == Unstaged(disk)
  {
  }

  lemma RemovedNext(disk: map<Name, Node>, staged: set<Name>, left: set<Name>, name: Name)
    requires name in left && left <= staged
    ensures disk - (staged - left) - {name} == disk - (staged - (left - {name}))
  {
  }

  lemma StagedRemains(disk: map<Name, Node>, left: set<Name>, name: Name)
    requires name in left && left <= Staged(disk)
    ensures name in disk - (Staged(disk) - left)
  {
  }

  /** The next entry to go is still there. */
  lemma OldestRemains(before: map<Name, Node>, s: seq<Aged>, i: nat)
    requires AgeOrder(before, s) && i < |s|
    ensures s[i].1 in Without(Unstaged(before), s[..i])
  {
    AgedNamesAreDistinct(before, s);
    assert s[i] in s;
    KeysSurviveUnstaging(before);
    assert s[i].1 in Keys(Unstaged(before));
    forall a | a in s[..i]
      ensures a.1 != s[i].1
    {
      var j :| 0 <= j < i && s[..i][j] == a;
    }
  }

  lemma NothingWithout(disk: map<Name, Node>)
    ensures Without(disk, []) == disk
  {
  }

  lemma EvictNext(disk: map<Name, Node>, s: seq<Aged>, i: nat)
    requires i < |s|
    ensures Without(disk, s[..i]) - {s[i].1} == Without(disk, s[..i + 1])
  {
    assert s[..i + 1] == s[..i] + [s[i]];
  }

  lemma DamageShrinks(before: map<Name, Node>, after: map<Name, Node>, name: Name, left: Node)
    requires Shrinks(before, after) && name in after && PartOf(left, after[name])
    ensures Shrinks(before, after[name := left])
  {
  }

  lemma AllBelowRoot(source: Tree)
    requires WellFormed(source)
    ensures NothingSpecial(source) <==> forall p | p in Below(source, []) :: !source[p].Special?
  {
    assert forall p | p in source :: p in Below(source, []);
  }

  /** Entries may have gone, or lost parts; nothing is new. */
  ghost predicate Shrinks(before: map<Name, Node>, after: map<Name, Node>) {
    forall name | name in after ::
      name in before && (after[name] == before[name] || PartOf(after[name], before[name]))
  }

  /** The node that storing a render installs. */
  ghost function NewNode(source: Tree, now: nat): Node
    requires Hashable(Copied(source))
  {
    Node(Some(Copied(source)), Some(DigestOf(Copied(source))), now)
  }

  /** A store keeps, damages or drops entries; the only one it can add is the complete new one. */
  ghost predicate Leaves(before: map<Name, Node>, key: Name, source: Tree, now: nat,
                         after: map<Name, Node>)
    requires Hashable(Copied(source))
  {
    forall name | name in after ::
      (name in before && (after[name] == before[name] || PartOf(after[name], before[name]))) ||
      (name == key && (after[name] == NewNode(source, now) ||
                       PartOf(after[name], NewNode(source, now))))
  }

  /** The disk with the render under its key, before eviction. */
  ghost function Installed(disk: map<Name, Node>, key: Name, source: Tree, now: nat)
    : map<Name, Node>
    requires Hashable(Copied(source))
  {
    if key in disk && disk[key].rendered.Some? then disk
    else disk[key := NewNode(source, now)]
  }

  lemma KeysSurviveUnstaging(disk: map<Name, Node>)
    ensures Keys(Unstaged(disk)) == Keys(disk)
  {
    forall name | name in disk && IsStaging(name)
      ensures !IsRecipeKey(name)
    {
      StagingIsNoKey(name);
    }
  }

  lemma WholeTreeIsCopied(source: Tree, output: Tree)
    requires WellFormed(source) && Receives(source, [], map[], output)
    ensures output == Copied(source)
  {
    assert forall p | p in source :: p in Below(source, []);
    forall p
      ensures Get(output, p) == Get(Copied(source), p)
    {
    }
    forall p
      ensures p in output <==> p in Copied(source)
      ensures p in output ==> output[p] == Copied(source)[p]
    {
      assert Get(output, p) == Get(Copied(source), p);
    }
  }
}
