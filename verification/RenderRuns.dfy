/** Renders in a row, when nothing goes wrong: which of them run the renderer. */
module RenderRuns {
  import opened Wrappers
  import opened Bytes
  import opened Trees
  import opened Slices
  import opened Lifecycle
  import opened TreeDigests
  import opened Copies
  import opened Recipes
  import opened RenderCaches
  import opened RenderQueue
  import opened Rendering

  datatype Job = Job(runner: PreparedRunner, desired: DesiredSlice)

  const WORKING := Faults(Works, map[], Works, false, Works)

  /** A render of a known recipe, which the renderer completes. */
  ghost predicate Renderable(host: Host, recipes: set<Digest>, job: Job) {
    IsKnown(host, recipes, job.runner, job.desired) &&
    FreshRender(host, job.runner, job.desired).Some?
  }

  ghost function JobKey(host: Host, recipes: set<Digest>, job: Job): Name
    requires Renderable(host, recipes, job)
  {
    KeyOf(host, job.runner, job.desired)
  }

  /* ---------------------------------------------------------------- The cache as a queue of renders */

  /** The entries are a queue that fits, and each holds its render. */
  ghost predicate Holds(disk: map<Name, Node>, q: seq<Name>, now: nat, maxEntries: nat) {
    IsQueue(disk, q, now) && |q| <= maxEntries && AllStored(disk)
  }

  ghost predicate AllStored(disk: map<Name, Node>) {
    forall name | name in Keys(disk) :: Stored(disk, name)
  }

  /** The queue after a render: a new key joins at the end, and the oldest leave. */
  function Queued(q: seq<Name>, key: Name, maxEntries: nat): seq<Name> {
    Play(q, StoreOp(key, map[]), maxEntries)
  }

  lemma StoredAreQueued(disk: map<Name, Node>, q: seq<Name>, now: nat, maxEntries: nat, key: Name)
    requires Holds(disk, q, now, maxEntries) && IsRecipeKey(key)
    ensures Stored(disk, key) <==> key in q
  {
    if Stored(disk, key) {
      assert key in Keys(disk);
    }
    if i :| 0 <= i < |q| && q[i] == key {
      assert q[i] in Keys(disk);
    }
    hide Hashable, IsRecipeKey, RenderQueue.IsComplete;
  }

  /** Eviction leaves the entries that it keeps as they were. */
  lemma EvictionKeeps(full: map<Name, Node>, maxEntries: nat, after: map<Name, Node>)
    requires Evicts(full, maxEntries, after)
    ensures forall name | name in Keys(after) ::
              name in Keys(full) && after[name] == full[name]
  {
    hide Keys, AgeOrder, Without, Unstaged, Excess;
    var s :| AgeOrder(full, s) && Excess(full, maxEntries) <= |s| &&
             after == Without(Unstaged(full), s[..Excess(full, maxEntries)]);
    KeptNodes(full, s, Excess(full, maxEntries));
  }

  lemma RenewedAreStored(before: map<Name, Node>, key: Name, raw: Tree, now: nat, maxEntries: nat,
                         after: map<Name, Node>)
    requires AllStored(before) && Hashable(Copied(raw))
    requires Evicts(before[key := NewNode(raw, now)], maxEntries, after)
    ensures AllStored(after)
  {
    var full := before[key := NewNode(raw, now)];
    EvictionKeeps(full, maxEntries, after);
    hide Copied, Hashable, IsRecipeKey, DigestOf, Evicts;
    assert Stored(full, key);
    hide NewNode;
    forall name | name in Keys(after)
      ensures Stored(after, name)
    {
      assert name != key ==> name in Keys(before) && Stored(before, name);
    }
  }

  lemma RenewingQueues(before: map<Name, Node>, q: seq<Name>, now: nat, key: Name,
                       raw: Option<Tree>, maxEntries: nat, after: map<Name, Node>, clock: nat)
    requires Holds(before, q, now, maxEntries) && IsRecipeKey(key) && key !in q
    requires Renews(before, key, raw, now, maxEntries, after, clock)
    ensures Holds(after, Queued(q, key, maxEntries), clock, maxEntries)
  {
    assert key !in Keys(before);
    assert Installed(before, key, raw.value, now) == before[key := NewNode(raw.value, now)];
    InstallsAtEnd(before, q, now, key, raw.value);
    EvictsHead(Installed(before, key, raw.value, now), q + [key], clock, maxEntries, after);
    RenewedAreStored(before, key, raw.value, now, maxEntries, after);
    LastFits(q + [key], maxEntries);
    hide IsQueue, AllStored, Evicts, IsRecipeKey, Copied, Hashable, Last;
  }

  lemma KeepingQueues(q: seq<Name>, key: Name, maxEntries: nat)
    requires |q| <= maxEntries && key in q
    ensures Queued(q, key, maxEntries) == q
  {
  }

  lemma KeysAreSpelled(host: Host, recipes: set<Digest>, job: Job)
    requires IsHost(host, recipes) && Renderable(host, recipes, job)
    ensures IsRecipeKey(JobKey(host, recipes, job))
  {
    var recipe := Blake3(RecipePreimage(host.write, job.runner, job.desired));
    KeyNamesAreApart(host, recipes, recipe, recipe);
    hide RecipePreimage, IsRecipeKey, FreshRender;
  }

  /** One render: a hit exactly if its key is in the queue. */
  method RenderJob(cache: RenderCache, host: Host, ghost recipes: set<Digest>, job: Job,
                   ghost q: seq<Name>)
    returns (r: Option<Rendered>, hit: bool)
    requires IsHost(host, recipes) && IsRenderer(host) && Sound(host, recipes, cache.disk)
    requires Renderable(host, recipes, job) && cache.maxEntries > 0
    requires Holds(cache.disk, q, cache.clock, cache.maxEntries)
    modifies cache
    ensures Sound(host, recipes, cache.disk)
    ensures hit <==> JobKey(host, recipes, job) in q
    ensures Holds(cache.disk, Queued(q, JobKey(host, recipes, job), cache.maxEntries), cache.clock,
                  cache.maxEntries)
    ensures Alike(r, FreshRender(host, job.runner, job.desired))
  {
    hide Holds, IsRenderer, IsHost, Sound, Alike, FreshRender, IsKnown, KeyOf, Queued, Renews;
    ghost var key := JobKey(host, recipes, job);
    KeysAreSpelled(host, recipes, job);
    StoredAreQueued(cache.disk, q, cache.clock, cache.maxEntries, key);
    ghost var before, now := cache.disk, cache.clock;
    r, hit := Rendering.Render(cache, host, recipes, job.runner, job.desired, WORKING);
    if hit {
      HoldsFits(before, q, now, cache.maxEntries);
      KeepingQueues(q, key, cache.maxEntries);
    } else {
      RenewingQueues(before, q, now, key, RawRender(host, job.runner, job.desired),
                     cache.maxEntries, cache.disk, cache.clock);
    }
  }

  lemma HoldsFits(disk: map<Name, Node>, q: seq<Name>, now: nat, maxEntries: nat)
    requires Holds(disk, q, now, maxEntries)
    ensures |q| <= maxEntries
  {
  }

  /* ---------------------------------------------------------------- Runs */

  /** Which renders of these keys, in a row, are hits. */
  function Hits(q: seq<Name>, keys: seq<Name>, maxEntries: nat): (hits: seq<bool>)
    ensures |hits| == |keys|
    decreases |keys|
  {
    if keys == [] then []
    else [keys[0] in q] + Hits(Queued(q, keys[0], maxEntries), keys[1..], maxEntries)
  }

  ghost function JobKeys(host: Host, recipes: set<Digest>, jobs: seq<Job>): (keys: seq<Name>)
    requires forall job | job in jobs :: Renderable(host, recipes, job)
    ensures |keys| == |jobs|
  {
    seq(|jobs|, i requires 0 <= i < |jobs| =>
      assert jobs[i] in jobs;
      JobKey(host, recipes, jobs[i]))
  }

  lemma {:induction false} HitsNext(q: seq<Name>, keys: seq<Name>, key: Name, maxEntries: nat)
    ensures Hits(q, keys + [key], maxEntries) ==
            Hits(q, keys, maxEntries) + [key in QueuedAll(q, keys, maxEntries)]
    decreases |keys|
  {
    hide Queued;
    var next := if keys == [] then [] else keys[1..];
    if keys == [] {
      assert keys + [key] == [key] && [key][1..] == next;
      var later := Queued(q, key, maxEntries);
      assert Hits(later, next, maxEntries) == [];
      assert Hits(q, [key], maxEntries) == [key in q] + Hits(later, next, maxEntries);
    } else {
      var grown, later := keys + [key], Queued(q, keys[0], maxEntries);
      assert grown[1..] == next + [key] && grown[0] == keys[0];
      HitsNext(later, next, key, maxEntries);
      assert Hits(q, grown, maxEntries) == [keys[0] in q] + Hits(later, grown[1..], maxEntries);
    }
  }

  /** The queue after renders of these keys. */
  function QueuedAll(q: seq<Name>, keys: seq<Name>, maxEntries: nat): seq<Name>
    decreases |keys|
  {
    if keys == [] then q
    else QueuedAll(Queued(q, keys[0], maxEntries), keys[1..], maxEntries)
  }

  lemma {:induction false} QueuedNext(q: seq<Name>, keys: seq<Name>, key: Name, maxEntries: nat)
    ensures QueuedAll(q, keys + [key], maxEntries) ==
            Queued(QueuedAll(q, keys, maxEntries), key, maxEntries)
    decreases |keys|
  {
    if keys != [] {
      assert (keys + [key])[1..] == keys[1..] + [key];
      QueuedNext(Queued(q, keys[0], maxEntries), keys[1..], key, maxEntries);
    } else {
      assert ([] + [key])[1..] == [] && keys + [key] == [key];
      var next := Queued(q, key, maxEntries);
      assert QueuedAll(next, [], maxEntries) == next;
    }
    hide Queued;
  }

  /**
   * Any renders in a row on a new cache: the renderer runs exactly for the keys that are not in the
   * bounded queue of those rendered before, and every result agrees with a fresh render.
   */
  method RenderAll(maxEntries: nat, host: Host, ghost recipes: set<Digest>, jobs: seq<Job>)
    returns (results: seq<Option<Rendered>>, hits: seq<bool>)
    requires IsHost(host, recipes) && IsRenderer(host) && maxEntries > 0
    requires forall job | job in jobs :: Renderable(host, recipes, job)
    ensures hits == Hits([], JobKeys(host, recipes, jobs), maxEntries)
    ensures |results| == |jobs|
    ensures forall i | 0 <= i < |jobs| ::
              Alike(results[i], FreshRender(host, jobs[i].runner, jobs[i].desired))
  {
    hide IsRenderer, IsHost, Alike, FreshRender, Renderable, JobKey, Queued, Holds;
    var cache := new RenderCache(maxEntries);
    ghost var keys := JobKeys(host, recipes, jobs);
    results, hits := [], [];
    NothingIsHeld(cache, host, recipes);
    assert keys[..0] == [];
    for i := 0 to |jobs|
      invariant fresh(cache) && cache.maxEntries == maxEntries && Sound(host, recipes, cache.disk)
      invariant |results| == i && hits == Hits([], keys[..i], maxEntries)
      invariant Holds(cache.disk, QueuedAll([], keys[..i], maxEntries), cache.clock, maxEntries)
      invariant forall k | 0 <= k < i ::
                  Alike(results[k], FreshRender(host, jobs[k].runner, jobs[k].desired))
    {
      assert jobs[i] in jobs;
      ghost var q := QueuedAll([], keys[..i], maxEntries);
      var r, hit := RenderJob(cache, host, recipes, jobs[i], q);
      assert keys[..i + 1] == keys[..i] + [keys[i]];
      HitsNext([], keys[..i], keys[i], maxEntries);
      QueuedNext([], keys[..i], keys[i], maxEntries);
      results, hits := results + [r], hits + [hit];
    }
    assert keys[..|jobs|] == keys;
  }

  lemma NothingIsHeld(cache: RenderCache, host: Host, recipes: set<Digest>)
    requires cache.disk == map[]
    ensures Holds(cache.disk, [], cache.clock, cache.maxEntries) && Sound(host, recipes, cache.disk)
  {
  }

  /** With room for all of them, every recipe is rendered once: later renders of it are hits. */
  lemma {:induction false} EveryRecipeOnce(q: seq<Name>, keys: seq<Name>, maxEntries: nat, i: nat)
    requires i < |keys| && Fits(q, keys, maxEntries)
    ensures Hits(q, keys, maxEntries)[i] <==> keys[i] in q || keys[i] in keys[..i]
    decreases |keys|
  {
    if i > 0 {
      FitsNext(q, keys, maxEntries);
      EveryRecipeOnce(Queued(q, keys[0], maxEntries), keys[1..], maxEntries, i - 1);
      assert keys[..i] == [keys[0]] + keys[1..][..i - 1];
    }
    hide Fits;
  }

  function Elements(s: seq<Name>): set<Name> {
    set name | name in s
  }

  /** A queue without duplicates, and room for all further keys. */
  predicate Fits(q: seq<Name>, keys: seq<Name>, maxEntries: nat) {
    |q| == |Elements(q)| && |Elements(q) + Elements(keys)| <= maxEntries
  }

  lemma FitsNext(q: seq<Name>, keys: seq<Name>, maxEntries: nat)
    requires keys != [] && Fits(q, keys, maxEntries)
    ensures var next := Queued(q, keys[0], maxEntries);
            next == (if keys[0] in q then q else q + [keys[0]]) && Fits(next, keys[1..], maxEntries)
  {
    var next := if keys[0] in q then q else q + [keys[0]];
    assert keys == [keys[0]] + keys[1..];
    assert Elements(next) == Elements(q) + {keys[0]};
    assert Elements(next) + Elements(keys[1..]) == Elements(q) + Elements(keys);
    SubsetsAreSmaller(Elements(next), Elements(q) + Elements(keys));
  }

  lemma SubsetsAreSmaller(a: set<Name>, b: set<Name>)
    requires a <= b
    ensures |a| <= |b|
  {
    assert b == a + (b - a);
  }

  /** However small the cache, rendering the same recipe again is a hit. */
  lemma {:induction false} AgainIsAHit(q: seq<Name>, keys: seq<Name>, maxEntries: nat, i: nat)
    requires i + 1 < |keys| && keys[i] == keys[i + 1] && |q| <= maxEntries && maxEntries > 0
    ensures Hits(q, keys, maxEntries)[i + 1]
    decreases |keys|
  {
    var next, grown := Queued(q, keys[0], maxEntries), q + [keys[0]];
    assert keys[0] !in q ==> next[|next| - 1] == grown[|grown| - 1];
    assert |next| <= maxEntries && keys[0] in next;
    if i > 0 {
      AgainIsAHit(next, keys[1..], maxEntries, i - 1);
    }
  }

  /** Slices that differ in graph, generation and cursor only have one key. */
  lemma GenerationsShareAKey(host: Host, runner: PreparedRunner, a: DesiredSlice, graphId: Uuid,
                             generation: u64, sequence: u64)
    requires IsRecipe(host.write, runner, a)
    ensures var b := a.(graphId := graphId, generation := generation, sequence := sequence);
            IsRecipe(host.write, runner, b) && KeyOf(host, runner, b) == KeyOf(host, runner, a)
  {
    RecipesIgnoreTheGraph(host.write, runner, a, graphId, generation, sequence);
    hide RecipePreimage;
  }
}
