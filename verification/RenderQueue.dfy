/**
 * The cache as a bounded queue: when its operations work, the entries it holds are those of a
 * first-in, first-out queue of at most `maxEntries` keys.
 */
module RenderQueue {
  import opened Wrappers
  import opened Bytes
  import opened Trees
  import opened OrdMaps
  import opened TreeDigests
  import opened Copies
  import opened RenderCaches

  datatype Op =
    | StoreOp(key: Name, source: Tree)
    | RestoreOp(key: Name)
    | InvalidateOp(key: Name)

  /** The last `n` keys of a queue. */
  function Last(q: seq<Name>, n: nat): seq<Name> {
    if |q| > n then q[|q| - n..] else q
  }

  function IndexOf(q: seq<Name>, key: Name): (i: nat)
    requires key in q
    ensures i < |q| && q[i] == key
  {
    if q[0] == key then 0 else 1 + IndexOf(q[1..], key)
  }

  function Removed(q: seq<Name>, key: Name): seq<Name> {
    if key in q then q[..IndexOf(q, key)] + q[IndexOf(q, key) + 1..] else q
  }

  /** One operation on the queue: only a new key joins, and only at its end. */
  function Play(q: seq<Name>, op: Op, maxEntries: nat): seq<Name> {
    match op
    case StoreOp(key, _) => Last(if key in q then q else q + [key], maxEntries)
    case RestoreOp(_) => q
    case InvalidateOp(key) => Removed(q, key)
  }

  function PlayAll(q: seq<Name>, ops: seq<Op>, maxEntries: nat): seq<Name>
    decreases |ops|
  {
    if ops == [] then q else PlayAll(Play(q, ops[0], maxEntries), ops[1..], maxEntries)
  }

  function AgedKey(disk: map<Name, Node>, name: Name): Aged
    requires name in disk
  {
    (disk[name].modified, name)
  }

  /**
   * The entries are these keys, in the order of their insertion, all complete, and made before
   * the present time.
   */
  ghost predicate IsQueue(disk: map<Name, Node>, q: seq<Name>, now: nat) {
    (forall i | 0 <= i < |q| :: q[i] in Keys(disk) && IsComplete(disk[q[i]], now)) &&
    (forall name | name in Keys(disk) :: name in q) &&
    (forall i, j | 0 <= i < j < |q| :: disk[q[i]].modified < disk[q[j]].modified)
  }

  predicate IsComplete(node: Node, now: nat) {
    node.modified < now && node.rendered.Some?
  }

  lemma {:induction false} SameByAge(a: seq<Aged>, b: seq<Aged>)
    requires ByAge(a) && ByAge(b) && forall x :: x in a <==> x in b
    ensures a == b
    decreases |a|
  {
    OlderIsIrreflexive();
    if a == [] {
      HeadIsElement(b);
    } else {
      assert a[0] in a && a[0] in b;
      var i :| 0 <= i < |b| && b[i] == a[0];
      assert b[0] in b && b[0] in a;
      var j :| 0 <= j < |a| && a[j] == b[0];
      if i > 0 && j > 0 {
        OlderIsTransitive(a[0], a[j], b[i]);
      }
      assert a[0] == b[0];
      forall x
        ensures x in a[1..] <==> x in b[1..]
      {
        TailHasNoHead(a);
        TailHasNoHead(b);
        assert a == [a[0]] + a[1..] && b == [b[0]] + b[1..];
        assert x in a <==> x == a[0] || x in a[1..];
        assert x in b <==> x == b[0] || x in b[1..];
      }
      SameByAge(a[1..], b[1..]);
      assert a == [a[0]] + a[1..] && b == [b[0]] + b[1..];
    }
  }

  lemma TailHasNoHead(a: seq<Aged>)
    requires ByAge(a) && a != []
    ensures a[0] !in a[1..]
  {
    OlderIsIrreflexive();
  }

  lemma OlderIsIrreflexive()
    ensures forall a: Aged :: !Older(a, a)
  {
    forall a: Aged
      ensures !Older(a, a)
    {
      BeforeIsIrreflexive(a.1);
    }
  }

  /** The age order of a queue's entries is the queue. */
  lemma QueueIsAgeOrder(disk: map<Name, Node>, q: seq<Name>, now: nat, s: seq<Aged>)
    requires IsQueue(disk, q, now) && AgeOrder(disk, s)
    ensures |q| == |s| && forall i | 0 <= i < |q| :: s[i].1 == q[i]
  {
    assert forall i | 0 <= i < |q| :: q[i] in q;
    var t := seq(|q|, i requires 0 <= i < |q| => AgedKey(disk, q[i]));
    forall x: Aged
      ensures x in t <==> x in s
    {
      if x in s {
        var i :| 0 <= i < |q| && q[i] == x.1;
        assert t[i] == x;
      }
      if x in t {
        var i :| 0 <= i < |t| && t[i] == x;
        assert q[i] in Keys(disk);
      }
    }
    SameByAge(t, s);
  }

  lemma QueueLength(disk: map<Name, Node>, q: seq<Name>, now: nat, s: seq<Aged>)
    requires IsQueue(disk, q, now) && AgeOrder(disk, s)
    ensures |q| == |s| == |Keys(disk)|
  {
    QueueIsAgeOrder(disk, q, now, s);
  }

  /** Evicting drops the head of the queue. */
  lemma EvictsHead(before: map<Name, Node>, q: seq<Name>, now: nat, maxEntries: nat,
                   after: map<Name, Node>)
    requires IsQueue(before, q, now) && Evicts(before, maxEntries, after)
    ensures IsQueue(after, Last(q, maxEntries), now)
    ensures Excess(before, maxEntries) == |q| - |Last(q, maxEntries)|
  {
    hide Keys, Without, Unstaged, AgeOrder, IsQueue;
    var n := Excess(before, maxEntries);
    var s :| AgeOrder(before, s) && n <= |s| && after == Without(Unstaged(before), s[..n]);
    QueueLength(before, q, now, s);
    QueueIsAgeOrder(before, q, now, s);
    HeadIsEvicted(before, q, now, s, n);
    TailIsQueue(before, q, now, n, after);
    assert Last(q, maxEntries) == q[n..];
  }

  lemma HeadIsEvicted(before: map<Name, Node>, q: seq<Name>, now: nat, s: seq<Aged>, n: nat)
    requires IsQueue(before, q, now) && AgeOrder(before, s) && n <= |q| == |s|
    requires forall i | 0 <= i < |q| :: s[i].1 == q[i]
    ensures var after := Without(Unstaged(before), s[..n]);
            (forall i | 0 <= i < |q| :: q[i] in Keys(after) <==> i >= n) &&
            forall name | name in Keys(after) ::
              name in Keys(before) && after[name] == before[name]
  {
    EvictionFits(before, s, n);
    QueueHasNoDuplicates(before, q, now);
    HeadNames(s, q, n);
    KeptNodes(before, s, n);
    QueuedKeys(before, q, now);
    hide Keys, Without, Unstaged, AgeOrder, IsQueue, NamesOf;
  }

  lemma QueuedKeys(disk: map<Name, Node>, q: seq<Name>, now: nat)
    requires IsQueue(disk, q, now)
    ensures forall i | 0 <= i < |q| :: q[i] in Keys(disk)
  {
  }

  /** Some keys of a queue in their order, with their entries, are a queue. */
  lemma SubQueue(before: map<Name, Node>, q: seq<Name>, now: nat, after: map<Name, Node>,
                 r: seq<Name>, from: seq<nat>)
    requires IsQueue(before, q, now) && |from| == |r|
    requires forall i | 0 <= i < |r| :: from[i] < |q| && r[i] == q[from[i]]
    requires forall i, j | 0 <= i < j < |r| :: from[i] < from[j]
    requires forall i | 0 <= i < |r| :: r[i] in Keys(after) && after[r[i]] == before[r[i]]
    requires forall name | name in Keys(after) :: name in r
    ensures IsQueue(after, r, now)
  {
    hide Keys, IsComplete;
  }

  /** Without its first keys, a queue is what is left. */
  lemma TailIsQueue(before: map<Name, Node>, q: seq<Name>, now: nat, n: nat, after: map<Name, Node>)
    requires IsQueue(before, q, now) && n <= |q|
    requires forall i | 0 <= i < |q| :: q[i] in Keys(after) <==> i >= n
    requires forall name | name in Keys(after) ::
               name in Keys(before) && after[name] == before[name]
    ensures IsQueue(after, q[n..], now)
  {
    var r := q[n..];
    var from := seq(|r|, i requires 0 <= i < |r| => n + i);
    hide Keys, IsComplete;
    forall name | name in Keys(after)
      ensures name in r
    {
      assert name in q;
      var i :| 0 <= i < |q| && q[i] == name;
      assert r[i - n] == name;
    }
    SubQueue(before, q, now, after, r, from);
    hide IsQueue;
  }

  lemma HeadNames(s: seq<Aged>, q: seq<Name>, n: nat)
    requires |s| == |q| && n <= |q| && forall i | 0 <= i < |q| :: s[i].1 == q[i]
    requires forall i, j | 0 <= i < j < |q| :: q[i] != q[j]
    ensures forall i | 0 <= i < |q| :: q[i] in NamesOf(s[..n]) <==> i < n
  {
    forall i | 0 <= i < |q|
      ensures q[i] in NamesOf(s[..n]) <==> i < n
    {
      if i < n {
        assert s[..n][i] == s[i];
      }
      if q[i] in NamesOf(s[..n]) {
        var a: Aged :| a in s[..n] && a.1 == q[i];
        var k :| 0 <= k < n && s[..n][k] == a;
        assert q[k] == q[i];
      }
    }
  }

  lemma KeptNodes(before: map<Name, Node>, s: seq<Aged>, n: nat)
    requires n <= |s|
    ensures var after := Without(Unstaged(before), s[..n]);
            forall name | name in Keys(after) ::
              name in Keys(before) && after[name] == before[name]
  {
  }

  /** A complete new entry joins at the end. */
  lemma JoinsAtEnd(disk: map<Name, Node>, q: seq<Name>, now: nat, key: Name, node: Node)
    requires IsQueue(disk, q, now) && IsRecipeKey(key) && key !in q
    requires node.modified == now && node.rendered.Some?
    ensures IsQueue(disk[key := node], q + [key], now + 1)
  {
    var after, r := disk[key := node], q + [key];
    assert Keys(after) == Keys(disk) + {key};
    hide IsRecipeKey, Keys;
    forall i | 0 <= i < |r|
      ensures r[i] in Keys(after) && IsComplete(after[r[i]], now + 1)
      ensures i < |q| ==> after[r[i]] == disk[q[i]]
    {
      if i < |q| {
        assert q[i] in q;
      }
    }
    assert r[|q|] == key;
  }

  lemma LaterQueue(disk: map<Name, Node>, q: seq<Name>, now: nat)
    requires IsQueue(disk, q, now)
    ensures IsQueue(disk, q, now + 1)
  {
    hide Keys;
  }

  /** Storing under a new key is joining at the end. */
  lemma InstallsAtEnd(disk: map<Name, Node>, q: seq<Name>, now: nat, key: Name, source: Tree)
    requires IsQueue(disk, q, now) && IsRecipeKey(key) && Hashable(Copied(source))
    ensures IsQueue(Installed(disk, key, source, now), if key in q then q else q + [key], now + 1)
  {
    if key in q {
      QueuedKeys(disk, q, now);
      var i :| 0 <= i < |q| && q[i] == key;
      assert IsComplete(disk[q[i]], now);
      LaterQueue(disk, q, now);
    } else {
      assert key !in Keys(disk);
      JoinsAtEnd(disk, q, now, key, NewNode(source, now));
    }
    hide IsQueue, IsRecipeKey, Copied, Hashable;
  }

  /** Removing one key keeps the others, in their order. */
  lemma RemovedFrom(q: seq<Name>, key: Name) returns (from: seq<nat>)
    requires forall i, j | 0 <= i < j < |q| :: q[i] != q[j]
    ensures |from| == |Removed(q, key)|
    ensures forall i | 0 <= i < |from| ::
              from[i] < |q| && Removed(q, key)[i] == q[from[i]] && q[from[i]] != key
    ensures forall i, j | 0 <= i < j < |from| :: from[i] < from[j]
    ensures forall i | 0 <= i < |q| && q[i] != key :: q[i] in Removed(q, key)
  {
    var r := Removed(q, key);
    var at := if key in q then IndexOf(q, key) else |q|;
    from := seq(|r|, i requires 0 <= i < |r| => if i < at then i else i + 1);
    forall i | 0 <= i < |r|
      ensures r[i] == q[from[i]] && q[from[i]] != key
    {
      assert q[from[i]] in q;
    }
    forall i | 0 <= i < |q| && q[i] != key
      ensures q[i] in r
    {
      assert i != at;
      assert r[if i < at then i else i - 1] == q[i];
    }
  }

  lemma QueuedEntries(disk: map<Name, Node>, q: seq<Name>, now: nat, key: Name)
    requires IsQueue(disk, q, now)
    ensures forall i | 0 <= i < |q| && q[i] != key ::
              q[i] in Keys(disk - {key}) && (disk - {key})[q[i]] == disk[q[i]]
    ensures forall name | name in Keys(disk - {key}) ::
              exists i | 0 <= i < |q| :: q[i] == name && q[i] != key
  {
    forall name | name in Keys(disk - {key})
      ensures exists i | 0 <= i < |q| :: q[i] == name && q[i] != key
    {
      assert name in Keys(disk);
      var i :| 0 <= i < |q| && q[i] == name;
    }
    hide IsRecipeKey, IsComplete;
  }

  lemma RemovesFromQueue(disk: map<Name, Node>, q: seq<Name>, now: nat, key: Name)
    requires IsQueue(disk, q, now)
    ensures IsQueue(disk - {key}, Removed(q, key), now)
  {
    QueueHasNoDuplicates(disk, q, now);
    var from := RemovedFrom(q, key);
    QueuedEntries(disk, q, now, key);
    hide IsQueue, Keys, Removed;
    forall name | name in Keys(disk - {key})
      ensures name in Removed(q, key)
    {
      var i :| 0 <= i < |q| && q[i] == name && q[i] != key;
    }
    SubQueue(disk, q, now, disk - {key}, Removed(q, key), from);
  }

  lemma QueueHasNoDuplicates(disk: map<Name, Node>, q: seq<Name>, now: nat)
    requires IsQueue(disk, q, now)
    ensures forall i, j | 0 <= i < j < |q| :: q[i] != q[j]
  {
    forall i, j | 0 <= i < j < |q|
      ensures q[i] != q[j]
    {
      assert disk[q[i]].modified < disk[q[j]].modified;
    }
  }

  predicate Sensible(op: Op) {
    op.StoreOp? ==> IsRecipeKey(op.key) && WellFormed(op.source) && NothingSpecial(op.source)
  }

  /** One working operation of the cache is one operation of the queue. */
  method Perform(cache: RenderCache, op: Op, ghost q: seq<Name>) returns (evicted: nat)
    requires Sensible(op) && IsQueue(cache.disk, q, cache.clock)
    requires TreesOk(cache.disk)
    modifies cache
    ensures IsQueue(cache.disk, Play(q, op, cache.maxEntries), cache.clock)
    ensures TreesOk(cache.disk)
    ensures op.StoreOp? ==>
              |Play(q, op, cache.maxEntries)| <= cache.maxEntries &&
              evicted == (if op.key in q then |q| else |q| + 1) - |Play(q, op, cache.maxEntries)|
  {
    hide IsQueue, TreesOk, WellFormed, NothingSpecial, Copied, Leaves, Evicts, Keys, Last, Removed,
         IsRecipeKey;
    evicted := 0;
    match op
    case RestoreOp(key) =>
      var lookup, output := cache.Restore(key, Works, map[]);
    case InvalidateOp(key) =>
      RemovesFromQueue(cache.disk, q, cache.clock, key);
      RemovingKeepsTrees(cache.disk, key);
      var ok := cache.Invalidate(key, Works);
    case StoreOp(key, source) =>
      ghost var before, now := cache.disk, cache.clock;
      var stored := cache.Store(key, source, Works);
      evicted := stored.value;
      ghost var grown := if key in q then q else q + [key];
      InstallsAtEnd(before, q, now, key, source);
      EvictsHead(Installed(before, key, source, now), grown, now + 1, cache.maxEntries, cache.disk);
      LastFits(grown, cache.maxEntries);
      StoringKeepsTrees(before, key, source, now, cache.disk);
  }

  lemma LastFits(q: seq<Name>, n: nat)
    ensures |Last(q, n)| <= n && |Last(q, n)| <= |q|
  {
  }

  lemma RemovingKeepsTrees(disk: map<Name, Node>, key: Name)
    requires TreesOk(disk)
    ensures TreesOk(disk - {key})
  {
    hide WellFormed;
  }

  lemma StoringKeepsTrees(before: map<Name, Node>, key: Name, source: Tree, now: nat,
                          after: map<Name, Node>)
    requires TreesOk(before) && Hashable(Copied(source)) && Leaves(before, key, source, now, after)
    ensures TreesOk(after)
  {
    hide WellFormed, Copied, NothingSpecial;
  }

  /**
   * Bounded first-in, first-out: after any working operations on a new cache its entries are those
   * of the queue. Reading a key or storing it again does not move it.
   */
  method PerformAll(maxEntries: nat, ops: seq<Op>) returns (cache: RenderCache)
    requires forall op | op in ops :: Sensible(op)
    ensures fresh(cache) && cache.maxEntries == maxEntries
    ensures IsQueue(cache.disk, PlayAll([], ops, maxEntries), cache.clock)
  {
    cache := new RenderCache(maxEntries);
    ghost var q := [];
    for i := 0 to |ops|
      invariant fresh(cache) && cache.maxEntries == maxEntries
      invariant IsQueue(cache.disk, q, cache.clock)
      invariant TreesOk(cache.disk)
      invariant PlayAll(q, ops[i..], maxEntries) == PlayAll([], ops, maxEntries)
    {
      assert ops[i..][1..] == ops[i + 1..];
      var evicted := Perform(cache, ops[i], q);
      q := Play(q, ops[i], maxEntries);
    }
  }

  /** The queue itself: distinct keys, at most so many, and re-storing or reading changes nothing. */
  lemma QueueProperties(q: seq<Name>, op: Op, maxEntries: nat)
    requires |q| <= maxEntries && forall i, j | 0 <= i < j < |q| :: q[i] != q[j]
    ensures var r := Play(q, op, maxEntries);
            |r| <= maxEntries && (forall i, j | 0 <= i < j < |r| :: r[i] != r[j]) &&
            (op.RestoreOp? || (op.StoreOp? && op.key in q) ==> r == q) &&
            (op.StoreOp? && op.key !in q && |q| < maxEntries ==> r == q + [op.key]) &&
            (op.StoreOp? && op.key !in q && |q| == maxEntries > 0 ==> r == q[1..] + [op.key])
  {
  }
}
