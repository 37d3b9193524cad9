/** Decoding a pushed slice into its validated form. */
module Decoding {
  import opened Wrappers
  import opened Bytes
  import opened OrdMaps
  import opened Contexts
  import opened Slices

  /** One component as pushed. A context that is not strict JSON of the schema is absent. */
  datatype WireComponent = WireComponent(
    specHash: Hash32, name: string, context: Option<ComponentContext>)

  datatype TargetSlice = TargetSlice(
    graphId: Uuid,
    generation: u64,
    sequence: u64,
    connector: string,
    components: seq<WireComponent>,
    upstreamOutputs: seq<UpstreamOutput>,
    supersededComponents: seq<WireComponent>)

  datatype SliceError =
    | BadContext
    | EnvironmentMismatch
    | DuplicateName
    | DuplicateSpecHash
    | NoEnvironment
    | DuplicateUpstream

  predicate ComponentOk(c: WireComponent) {
    IsDnsLabel(c.name) && c.context.Some? && IsValid(c.context.value)
  }

  const NO_CONTEXT := ComponentContext("", "", "", "", "", None)

  function PinOf(c: WireComponent): ComponentPin {
    ComponentPin(c.specHash, c.name, if c.context.Some? then c.context.value else NO_CONTEXT)
  }

  /* ---------------------------------------------------------------- What decoding means */

  ghost predicate Distinct<T(!new), K(!new)>(s: seq<T>, key: T -> K) {
    forall i, j | 0 <= i < j < |s| :: key(s[i]) != key(s[j])
  }

  function NameOf(c: WireComponent): string {
    c.name
  }

  function HashOf(c: WireComponent): ByteString {
    c.specHash
  }

  function Contributors(slice: TargetSlice): seq<WireComponent> {
    slice.components + slice.supersededComponents
  }

  ghost predicate OneEnvironment(all: seq<WireComponent>) {
    (forall c | c in all :: ComponentOk(c)) &&
    forall c, d | c in all && d in all :: c.context.value.environment == d.context.value.environment
  }

  /** The slices that decode: no condition looks at the order of a list. */
  ghost predicate Acceptable(slice: TargetSlice) {
    OneEnvironment(Contributors(slice)) && Contributors(slice) != [] &&
    Distinct(slice.components, NameOf) && Distinct(slice.components, HashOf) &&
    Distinct(slice.upstreamOutputs, UpstreamKey)
  }

  /** The canonical slice: everything pushed, in hash order, under the common environment. */
  ghost predicate Represents(slice: TargetSlice, desired: DesiredSlice) {
    desired.graphId == slice.graphId && desired.generation == slice.generation &&
    desired.sequence == slice.sequence &&
    (forall c | c in Contributors(slice) :: ComponentOk(c)) &&
    (forall c | c in Contributors(slice) :: c.context.value.environment == desired.environment) &&
    Sorted(desired.components, PinKey) && Sorted(desired.upstreamOutputs, UpstreamKey) &&
    multiset(desired.components) == multiset(Pins(slice.components)) &&
    multiset(desired.upstreamOutputs) == multiset(slice.upstreamOutputs)
  }

  function Pins(components: seq<WireComponent>): (pins: seq<ComponentPin>)
    ensures |pins| == |components|
  {
    seq(|components|, i requires 0 <= i < |components| => PinOf(components[i]))
  }

  /** One of the first `i` components has this value of a key. */
  ghost predicate SeenBefore<K(!new)>(all: seq<WireComponent>, i: nat, key: WireComponent -> K,
                               value: K)
    requires i <= |all|
  {
    exists j | 0 <= j < i :: key(all[j]) == value
  }

  function EnvironmentOf(c: WireComponent): string {
    PinOf(c).context.environment
  }

  /**
   * What is wrong with a contributor, given that nothing is wrong with those before it. The first
   * `owned` contributors are the components of the slice, the others are superseded.
   */
  ghost function FaultOf(all: seq<WireComponent>, owned: nat, i: nat): Option<SliceError>
    requires i < |all|
  {
    var c := all[i];
    if !ComponentOk(c) then Some(BadContext)
    else if EnvironmentOf(c) != EnvironmentOf(all[0]) then Some(EnvironmentMismatch)
    else if i < owned && SeenBefore(all, i, NameOf, c.name) then Some(DuplicateName)
    else if i < owned && SeenBefore(all, i, HashOf, c.specHash) then Some(DuplicateSpecHash)
    else None
  }

  ghost predicate NoFaults(all: seq<WireComponent>, owned: nat, n: nat)
    requires n <= |all|
  {
    forall i | 0 <= i < n :: FaultOf(all, owned, i).None?
  }

  /** This fault comes first: of the contributors in their order, and then of the whole slice. */
  ghost predicate FaultsFirst(all: seq<WireComponent>, owned: nat, i: nat, error: SliceError) {
    i < |all| && NoFaults(all, owned, i) && FaultOf(all, owned, i) == Some(error)
  }

  ghost predicate Refused(all: seq<WireComponent>, owned: nat, error: SliceError) {
    exists i :: FaultsFirst(all, owned, i, error)
  }

  /** No fault so far: a fault here comes first, and none here leaves none. */
  lemma NoFaultsSoFar(all: seq<WireComponent>, owned: nat, i: nat)
    requires i < |all| && NoFaults(all, owned, i)
    ensures FaultOf(all, owned, i).Some? ==>
              Refused(all, owned, FaultOf(all, owned, i).value)
    ensures FaultOf(all, owned, i).None? ==> NoFaults(all, owned, i + 1)
  {
    if FaultOf(all, owned, i).Some? {
      assert FaultsFirst(all, owned, i, FaultOf(all, owned, i).value);
    }
    hide FaultOf;
  }

  ghost predicate Reports(slice: TargetSlice, error: SliceError) {
    var all, owned := Contributors(slice), |slice.components|;
    if NoFaults(all, owned, |all|) then
      if all == [] then error == NoEnvironment
      else error == DuplicateUpstream && !Distinct(slice.upstreamOutputs, UpstreamKey)
    else Refused(all, owned, error)
  }

  /** What decoding gives: the slice that is represented, or the first fault. */
  ghost predicate Decodes(slice: TargetSlice, r: Result<DesiredSlice, SliceError>) {
    match r
    case Ok(desired) => Acceptable(slice) && Represents(slice, desired)
    case Err(error) => !Acceptable(slice) && Reports(slice, error)
  }

  /* ---------------------------------------------------------------- Decoding */

  method ParseComponent(c: WireComponent, environment: Option<string>)
    returns (r: Result<ComponentPin, SliceError>, bound: Option<string>)
    ensures r.Ok? <==> ComponentOk(c) &&
                       (environment.Some? ==> environment.value == c.context.value.environment)
    ensures r.Ok? ==> r.value == PinOf(c) && bound == Some(c.context.value.environment)
    ensures r.Err? ==> bound == environment
    ensures r.Err? ==> r.error == if ComponentOk(c) then EnvironmentMismatch else BadContext
  {
    bound := environment;
    if !IsDnsLabel(c.name) || c.context.None? || !IsValid(c.context.value) {
      return Err(BadContext), bound;
    }
    var context := c.context.value;
    match environment {
      case Some(expected) =>
        if expected != context.environment {
          return Err(EnvironmentMismatch), bound;
        }
      case None => bound := Some(context.environment);
    }
    r := Ok(ComponentPin(c.specHash, c.name, context));
  }

  /** The environment seen after the first `n` contributors, all of which agree. */
  ghost predicate Bound(all: seq<WireComponent>, n: nat, environment: Option<string>)
    requires n <= |all|
  {
    (environment.None? <==> n == 0) &&
    forall i | 0 <= i < n ::
      ComponentOk(all[i]) && all[i].context.value.environment == environment.value
  }

  /** What parsing refuses is wrong with the contributor, and nothing else is unless it is owned. */
  lemma ParsingFinds(all: seq<WireComponent>, owned: nat, i: nat, environment: Option<string>)
    requires i < |all| && Bound(all, i, environment)
    ensures var c := all[i];
            FaultOf(all, owned, i) ==
            if !ComponentOk(c) then Some(BadContext)
            else if environment.Some? && environment.value != c.context.value.environment then
              Some(EnvironmentMismatch)
            else if i < owned && SeenBefore(all, i, NameOf, c.name) then Some(DuplicateName)
            else if i < owned && SeenBefore(all, i, HashOf, c.specHash) then Some(DuplicateSpecHash)
            else None
  {
    hide IsDnsLabel, IsValid, SeenBefore;
  }

  /** The owned components, without repetitions, in the order of their hashes. */
  ghost predicate Owned(wire: seq<WireComponent>, components: seq<ComponentPin>) {
    Distinct(wire, NameOf) && Distinct(wire, HashOf) &&
    Sorted(components, PinKey) && multiset(components) == multiset(Pins(wire))
  }

  /** What the loop over the owned components has built from those it has seen. */
  ghost predicate Collected(seen: seq<WireComponent>, names: set<string>,
                            components: seq<ComponentPin>)
  {
    (forall c | c in seen :: ComponentOk(c)) &&
    names == (set c | c in seen :: c.name) &&
    Distinct(seen, NameOf) && Distinct(seen, HashOf) &&
    Sorted(components, PinKey) && multiset(components) == multiset(Pins(seen))
  }

  lemma CollectNext(seen: seq<WireComponent>, names: set<string>, components: seq<ComponentPin>,
                    c: WireComponent)
    requires Collected(seen, names, components) && ComponentOk(c)
    ensures c.name in names <==> SeenBefore(seen, |seen|, NameOf, c.name)
    ensures var inserted := InsertUnique(components, PinOf(c), PinKey);
            (inserted.None? <==> SeenBefore(seen, |seen|, HashOf, c.specHash)) &&
            (inserted.Some? && c.name !in names ==>
               Collected(seen + [c], names + {c.name}, inserted.value))
  {
    if c.name in names {
      var d :| d in seen && d.name == c.name;
      var i :| 0 <= i < |seen| && seen[i] == d;
      assert NameOf(seen[i]) == c.name;
    }
    InsertUniqueKeepsOrder(components, PinOf(c), PinKey);
    PinsHaveTheirHashes(seen, components, c.specHash);
    PinsAppend(seen, [c]);
    assert Pins([c]) == [PinOf(c)];
    if !SeenBefore(seen, |seen|, NameOf, c.name) { DistinctNext(seen, c, NameOf); }
    if !SeenBefore(seen, |seen|, HashOf, c.specHash) { DistinctNext(seen, c, HashOf); }
    hide InsertUnique, IsDnsLabel, IsValid, Distinct, Sorted, Pins;
  }

  lemma DistinctNext<K(!new)>(seen: seq<WireComponent>, c: WireComponent, key: WireComponent -> K)
    requires Distinct(seen, key) && !SeenBefore(seen, |seen|, key, key(c))
    ensures Distinct(seen + [c], key)
  {
  }

  lemma PinsAppend(a: seq<WireComponent>, b: seq<WireComponent>)
    ensures Pins(a + b) == Pins(a) + Pins(b)
  {
  }

  lemma BeforeInPrefix<K(!new)>(all: seq<WireComponent>, wire: seq<WireComponent>, i: nat,
                                key: WireComponent -> K, value: K)
    requires wire <= all && i <= |wire|
    ensures SeenBefore(wire[..i], i, key, value) <==> SeenBefore(all, i, key, value)
  {
    if j :| 0 <= j < i && key(all[j]) == value {
      assert key(wire[..i][j]) == value;
    }
  }

  /** The loop over the owned components, after the first `i`: nothing was wrong with them. */
  ghost predicate SoFar(all: seq<WireComponent>, wire: seq<WireComponent>, i: nat,
                        environment: Option<string>, names: set<string>,
                        components: seq<ComponentPin>)
  {
    i <= |wire| && wire <= all && Bound(all, i, environment) && NoFaults(all, |wire|, i) &&
    Collected(wire[..i], names, components)
  }

  lemma SoFarNothing(all: seq<WireComponent>, wire: seq<WireComponent>)
    requires wire <= all
    ensures SoFar(all, wire, 0, None, {}, [])
  {
    assert wire[..0] == [];
  }

  lemma ParsingRefuses(all: seq<WireComponent>, wire: seq<WireComponent>, i: nat,
                       environment: Option<string>, names: set<string>,
                       components: seq<ComponentPin>)
    requires i < |wire| && SoFar(all, wire, i, environment, names, components)
    requires ComponentOk(wire[i]) ==>
             environment.Some? && environment.value != wire[i].context.value.environment
    ensures Refused(all, |wire|,
                    if ComponentOk(wire[i]) then EnvironmentMismatch else BadContext)
  {
    ParsingFinds(all, |wire|, i, environment);
    NoFaultsSoFar(all, |wire|, i);
    hide ComponentOk, Bound, FaultOf, NoFaults, Refused, Collected;
  }

  lemma CollectOwned(all: seq<WireComponent>, wire: seq<WireComponent>, i: nat, names: set<string>,
                     components: seq<ComponentPin>)
    requires wire <= all && i < |wire| && ComponentOk(wire[i])
    requires Collected(wire[..i], names, components)
    ensures var c := wire[i];
            var inserted := InsertUnique(components, PinOf(c), PinKey);
            (c.name in names <==> SeenBefore(all, i, NameOf, c.name)) &&
            (inserted.None? <==> SeenBefore(all, i, HashOf, c.specHash)) &&
            (inserted.Some? && c.name !in names ==>
               Collected(wire[..i + 1], names + {c.name}, inserted.value))
  {
    var c := wire[i];
    CollectNext(wire[..i], names, components, c);
    BeforeInPrefix(all, wire, i, NameOf, c.name);
    BeforeInPrefix(all, wire, i, HashOf, c.specHash);
    assert wire[..i + 1] == wire[..i] + [c];
    hide *;
  }

  /** One more owned component that parses: it repeats a name or a hash, or it is collected. */
  lemma OwnedNext(all: seq<WireComponent>, wire: seq<WireComponent>, i: nat,
                  environment: Option<string>, names: set<string>, components: seq<ComponentPin>)
    requires i < |wire| && SoFar(all, wire, i, environment, names, components)
    requires ComponentOk(wire[i])
    requires environment.Some? ==> environment.value == wire[i].context.value.environment
    ensures var c := wire[i];
            var inserted := InsertUnique(components, PinOf(c), PinKey);
            (c.name in names ==> Refused(all, |wire|, DuplicateName)) &&
            (c.name !in names && inserted.None? ==> Refused(all, |wire|, DuplicateSpecHash)) &&
            (c.name !in names && inserted.Some? ==>
               SoFar(all, wire, i + 1, Some(c.context.value.environment), names + {c.name},
                     inserted.value))
  {
    var c := wire[i];
    ParsingFinds(all, |wire|, i, environment);
    NoFaultsSoFar(all, |wire|, i);
    BoundNext(all, i, environment, Some(c.context.value.environment));
    CollectOwned(all, wire, i, names, components);
    hide InsertUnique, PinOf, ComponentOk, Collected, Bound, FaultOf, SeenBefore, NoFaults, Refused;
  }

  lemma SoFarAll(all: seq<WireComponent>, wire: seq<WireComponent>, environment: Option<string>,
                 names: set<string>, components: seq<ComponentPin>)
    requires SoFar(all, wire, |wire|, environment, names, components)
    ensures NoFaults(all, |wire|, |wire|) && Bound(all, |wire|, environment)
    ensures Owned(wire, components)
  {
    assert wire[..|wire|] == wire;
    hide Bound, NoFaults;
  }

  /** The owned components, inserted one by one into an ordered map. */
  method DecodeComponents(wire: seq<WireComponent>, ghost all: seq<WireComponent>)
    returns (r: Result<seq<ComponentPin>, SliceError>, environment: Option<string>)
    requires wire <= all
    ensures r.Err? ==> Refused(all, |wire|, r.error)
    ensures r.Ok? ==>
              NoFaults(all, |wire|, |wire|) &&
              Bound(all, |wire|, environment) && Owned(wire, r.value)
  {
    var components: seq<ComponentPin> := [];
    var names: set<string> := {};
    environment := None;
    SoFarNothing(all, wire);
    hide *;
    for i := 0 to |wire|
      invariant SoFar(all, wire, i, environment, names, components)
    {
      var c := wire[i];
      var pin, bound := ParseComponent(c, environment);
      if pin.Err? {
        ParsingRefuses(all, wire, i, environment, names, components);
        return Err(pin.error), environment;
      }
      OwnedNext(all, wire, i, environment, names, components);
      environment := bound;
      if c.name in names {
        return Err(DuplicateName), environment;
      }
      names := names + {c.name};
      var inserted := InsertUnique(components, pin.value, PinKey);
      if inserted.None? {
        return Err(DuplicateSpecHash), environment;
      }
      components := inserted.value;
    }
    SoFarAll(all, wire, environment, names, components);
    r := Ok(components);
  }

  lemma BoundNext(all: seq<WireComponent>, i: nat, environment: Option<string>,
                  bound: Option<string>)
    requires i < |all| && Bound(all, i, environment) && ComponentOk(all[i])
    requires environment.Some? ==> environment.value == all[i].context.value.environment
    requires bound == Some(all[i].context.value.environment)
    ensures Bound(all, i + 1, bound)
  {
  }

  /** The superseded components, which only have to agree on the environment. */
  method CheckSuperseded(wire: seq<WireComponent>, ghost all: seq<WireComponent>, ghost from: nat,
                         owned: Option<string>)
    returns (r: Result<Option<string>, SliceError>)
    requires from + |wire| == |all| && all[from..] == wire && Bound(all, from, owned)
    requires NoFaults(all, from, from)
    ensures r.Err? ==> Refused(all, from, r.error)
    ensures r.Ok? ==> Bound(all, |all|, r.value) && NoFaults(all, from, |all|)
  {
    var environment := owned;
    hide ComponentOk, PinOf, FaultOf, Bound, NoFaults, Refused;
    for i := 0 to |wire|
      invariant Bound(all, from + i, environment) && NoFaults(all, from, from + i)
    {
      assert wire[i] == all[from + i];
      var pin, bound := ParseComponent(wire[i], environment);
      ParsingFinds(all, from, from + i, environment);
      NoFaultsSoFar(all, from, from + i);
      if pin.Err? { return Err(pin.error); }
      BoundNext(all, from + i, environment, bound);
      environment := bound;
    }
    r := Ok(environment);
  }

  /** The upstream outputs, inserted one by one into an ordered map. */
  method DecodeUpstream(wire: seq<UpstreamOutput>) returns (r: Option<seq<UpstreamOutput>>)
    ensures r.Some? <==> Distinct(wire, UpstreamKey)
    ensures r.Some? ==> Sorted(r.value, UpstreamKey) && multiset(r.value) == multiset(wire)
  {
    var upstream: seq<UpstreamOutput> := [];
    for i := 0 to |wire|
      invariant Distinct(wire[..i], UpstreamKey)
      invariant Sorted(upstream, UpstreamKey)
      invariant multiset(upstream) == multiset(wire[..i])
    {
      InsertUniqueKeepsOrder(upstream, wire[i], UpstreamKey);
      SameKeys(wire[..i], upstream, UpstreamKey, UpstreamKey(wire[i]));
      var inserted := InsertUnique(upstream, wire[i], UpstreamKey);
      if inserted.None? {
        return None;
      }
      upstream := inserted.value;
      assert wire[..i + 1] == wire[..i] + [wire[i]];
    }
    assert wire[..|wire|] == wire;
    r := Some(upstream);
  }

  lemma AcceptableHasNoFaults(slice: TargetSlice)
    requires Acceptable(slice)
    ensures NoFaults(Contributors(slice), |slice.components|, |Contributors(slice)|)
  {
    var all, owned := Contributors(slice), |slice.components|;
    forall i | 0 <= i < |all|
      ensures FaultOf(all, owned, i).None?
    {
      assert all[i] in all && all[0] in all;
      if i < owned {
        assert forall j | 0 <= j < i :: NameOf(slice.components[j]) != NameOf(slice.components[i]);
        assert forall j | 0 <= j < i :: HashOf(slice.components[j]) != HashOf(slice.components[i]);
      }
    }
    hide IsDnsLabel, IsValid;
  }

  /** A slice with a fault is not acceptable. */
  lemma FaultsAreRefused(slice: TargetSlice, error: SliceError)
    requires Reports(slice, error)
    ensures !Acceptable(slice)
  {
    if Acceptable(slice) {
      AcceptableHasNoFaults(slice);
    }
    hide FaultOf;
  }

  method Decode(slice: TargetSlice) returns (r: Result<DesiredSlice, SliceError>)
    ensures Decodes(slice, r)
  {
    ghost var all := Contributors(slice);
    hide FaultOf, Acceptable, ComponentOk, Distinct;
    var components, owned := DecodeComponents(slice.components, all);
    if components.Err? {
      FaultsAreRefused(slice, components.error);
      return Err(components.error);
    }
    var environment := CheckSuperseded(slice.supersededComponents, all, |slice.components|, owned);
    if environment.Err? {
      FaultsAreRefused(slice, environment.error);
      return Err(environment.error);
    }
    if environment.value.None? {
      FaultsAreRefused(slice, NoEnvironment);
      return Err(NoEnvironment);
    }
    var upstream := DecodeUpstream(slice.upstreamOutputs);
    if upstream.None? {
      FaultsAreRefused(slice, DuplicateUpstream);
      return Err(DuplicateUpstream);
    }
    r := Ok(DesiredSlice(slice.graphId, slice.generation, slice.sequence, environment.value.value,
                         components.value, upstream.value));
    Accepted(slice, environment.value);
  }

  lemma Accepted(slice: TargetSlice, environment: Option<string>)
    requires Bound(Contributors(slice), |Contributors(slice)|, environment) && environment.Some?
    requires Distinct(slice.components, NameOf) && Distinct(slice.components, HashOf)
    requires Distinct(slice.upstreamOutputs, UpstreamKey)
    ensures Acceptable(slice)
    ensures forall c | c in Contributors(slice) ::
              ComponentOk(c) && c.context.value.environment == environment.value
  {
    hide IsDnsLabel, IsValid;
  }

  lemma SameKeys<T>(a: seq<T>, b: seq<T>, key: T -> ByteString, k: ByteString)
    requires multiset(a) == multiset(b)
    ensures HasKey(a, key, k) <==> HasKey(b, key, k)
  {
    if i :| 0 <= i < |a| && key(a[i]) == k {
      assert a[i] in multiset(b);
      var j :| 0 <= j < |b| && b[j] == a[i];
      assert key(b[j]) == k;
    }
    if j :| 0 <= j < |b| && key(b[j]) == k {
      assert b[j] in multiset(a);
      var i :| 0 <= i < |a| && a[i] == b[j];
      assert key(a[i]) == k;
    }
  }

  lemma PinsHaveTheirHashes(wire: seq<WireComponent>, pins: seq<ComponentPin>, hash: ByteString)
    requires multiset(pins) == multiset(Pins(wire))
    ensures HasKey(pins, PinKey, hash) <==> HasKey(wire, HashOf, hash)
  {
    SameKeys(pins, Pins(wire), PinKey, hash);
    if i :| 0 <= i < |wire| && HashOf(wire[i]) == hash {
      assert PinKey(Pins(wire)[i]) == hash;
    }
    if i :| 0 <= i < |wire| && PinKey(Pins(wire)[i]) == hash {
      assert HashOf(wire[i]) == hash;
    }
  }

  /* ---------------------------------------------------------------- Order independence */

  predicate Reordering(a: TargetSlice, b: TargetSlice) {
    a.graphId == b.graphId && a.generation == b.generation && a.sequence == b.sequence &&
    multiset(a.components) == multiset(b.components) &&
    multiset(a.supersededComponents) == multiset(b.supersededComponents) &&
    multiset(a.upstreamOutputs) == multiset(b.upstreamOutputs)
  }

  lemma {:induction false} DistinctIsOrderFree<T(!new), K(!new)>(a: seq<T>, b: seq<T>, key: T -> K)
    requires multiset(a) == multiset(b) && Distinct(a, key)
    ensures Distinct(b, key)
  {
    forall i, j | 0 <= i < j < |b|
      ensures key(b[i]) != key(b[j])
    {
      if key(b[i]) == key(b[j]) {
        assert b[i] in multiset(a) && b[j] in multiset(a);
        var x :| 0 <= x < |a| && a[x] == b[i];
        var y :| 0 <= y < |a| && a[y] == b[j];
        assert x == y;
        TwoOccurrences(b, i, j);
        OneOccurrence(a, x);
      }
    }
  }

  lemma TwoOccurrences<T>(s: seq<T>, i: nat, j: nat)
    requires i < j < |s| && s[i] == s[j]
    ensures multiset(s)[s[i]] >= 2
  {
    assert s == s[..j] + s[j..];
    assert s[i] in s[..j] && s[j] == s[j..][0];
  }

  lemma OneOccurrence<T>(s: seq<T>, i: nat)
    requires i < |s| && forall k | 0 <= k < |s| && k != i :: s[k] != s[i]
    ensures multiset(s)[s[i]] == 1
  {
    assert s == s[..i] + [s[i]] + s[i + 1..];
    assert s[i] !in s[..i] && s[i] !in s[i + 1..];
  }

  lemma ReorderingKeepsContributors(a: TargetSlice, b: TargetSlice)
    requires Reordering(a, b)
    ensures multiset(Contributors(a)) == multiset(Contributors(b))
    ensures forall c :: c in Contributors(a) <==> c in Contributors(b)
    ensures Contributors(a) == [] <==> Contributors(b) == []
  {
    forall c
      ensures c in Contributors(a) <==> c in Contributors(b)
    {
      assert c in Contributors(a) <==> c in multiset(Contributors(a));
      assert c in Contributors(b) <==> c in multiset(Contributors(b));
    }
    assert |multiset(Contributors(a))| == |multiset(Contributors(b))|;
  }

  lemma ReorderingKeepsAcceptable(a: TargetSlice, b: TargetSlice)
    requires Reordering(a, b) && Acceptable(a)
    ensures Acceptable(b)
  {
    ReorderingKeepsContributors(a, b);
    DistinctIsOrderFree(a.components, b.components, NameOf);
    DistinctIsOrderFree(a.components, b.components, HashOf);
    DistinctIsOrderFree(a.upstreamOutputs, b.upstreamOutputs, UpstreamKey);
  }

  /** Decoding is a function: a slice decodes to one value, or is refused with one fault. */
  lemma DecodingIsDetermined(slice: TargetSlice, r: Result<DesiredSlice, SliceError>,
                             r': Result<DesiredSlice, SliceError>)
    requires Decodes(slice, r) && Decodes(slice, r')
    ensures r.Ok? <==> Acceptable(slice)
    ensures r == r'
  {
    if r.Ok? && r'.Ok? {
      SortedIsCanonical(r.value.components, r'.value.components, PinKey);
      SortedIsCanonical(r.value.upstreamOutputs, r'.value.upstreamOutputs, UpstreamKey);
      assert Contributors(slice)[0] in Contributors(slice);
    } else {
      var all, owned := Contributors(slice), |slice.components|;
      if !NoFaults(all, owned, |all|) {
        var i :| FaultsFirst(all, owned, i, r.error);
        var j :| FaultsFirst(all, owned, j, r'.error);
        assert i == j;
      }
      hide FaultOf, Acceptable;
    }
  }

  lemma PinsWithout(b: seq<WireComponent>, j: nat, rest: seq<WireComponent>)
    requires j < |b| && rest == b[..j] + b[j + 1..]
    ensures multiset(rest) == multiset(b) - multiset{b[j]} && |rest| == |b| - 1
    ensures multiset(Pins(b)) == multiset(Pins(rest)) + multiset{PinOf(b[j])}
  {
    assert b == b[..j] + [b[j]] + b[j + 1..];
    assert Pins(b) == Pins(b[..j]) + [PinOf(b[j])] + Pins(b[j + 1..]);
    assert Pins(rest) == Pins(b[..j]) + Pins(b[j + 1..]);
    hide PinOf;
  }

  lemma {:induction false} PinsAreOrderFree(a: seq<WireComponent>, b: seq<WireComponent>)
    requires multiset(a) == multiset(b)
    ensures multiset(Pins(a)) == multiset(Pins(b))
    decreases |a|
  {
    assert |multiset(a)| == |a| && |multiset(b)| == |b|;
    if a != [] {
      assert a[0] in multiset(b);
      var j :| 0 <= j < |b| && b[j] == a[0];
      hide Pins, PinOf;
      var c, d := a[..0] + a[1..], b[..j] + b[j + 1..];
      PinsWithout(a, 0, c);
      PinsWithout(b, j, d);
      PinsAreOrderFree(c, d);
    } else {
      assert b == [];
    }
  }

  /**
   * Reordering the components, superseded components or upstream outputs of a slice changes
   * neither whether it decodes nor what it decodes to, hence none of its digests.
   */
  lemma DecodingIgnoresOrder(a: TargetSlice, b: TargetSlice, ra: Result<DesiredSlice, SliceError>,
                             rb: Result<DesiredSlice, SliceError>)
    requires Reordering(a, b) && Decodes(a, ra) && Decodes(b, rb)
    ensures ra.Ok? <==> rb.Ok?
    ensures ra.Ok? ==> ra == rb
  {
    DecodingIsDetermined(a, ra, ra);
    DecodingIsDetermined(b, rb, rb);
    if Acceptable(a) {
      ReorderingKeepsAcceptable(a, b);
    }
    if Acceptable(b) {
      ReorderingKeepsAcceptable(b, a);
    }
    if ra.Ok? && rb.Ok? {
      ReorderingKeepsContributors(a, b);
      PinsAreOrderFree(a.components, b.components);
      SortedIsCanonical(ra.value.components, rb.value.components, PinKey);
      SortedIsCanonical(ra.value.upstreamOutputs, rb.value.upstreamOutputs, UpstreamKey);
      assert Contributors(a)[0] in Contributors(b);
    }
  }

  /** The pushed component borrows this environment. */
  predicate PushedBorrows(c: WireComponent, environment: string) {
    c.context.Some? && c.context.value.borrow.Some? &&
    c.context.value.borrow.value.effectiveEnvironment == environment
  }

  /** A decoded slice borrows an environment exactly if all that was pushed for it does. */
  lemma PushedComponentsBorrow(slice: TargetSlice, desired: DesiredSlice, environment: string)
    requires Decodes(slice, Ok(desired))
    ensures desired.BorrowedEnvironment() == Some(environment) <==>
            slice.components != [] &&
            forall c | c in slice.components :: PushedBorrows(c, environment)
  {
    var pins := Pins(slice.components);
    BorrowingIsUnanimous(desired, environment);
    forall pin
      ensures pin in desired.components <==> pin in pins
    {
      assert pin in desired.components <==> pin in multiset(desired.components);
      assert pin in pins <==> pin in multiset(pins);
    }
    assert |desired.components| == |multiset(desired.components)| == |pins|;
    forall c | c in slice.components
      ensures PinOf(c) in pins && (Borrows(PinOf(c), environment) <==> PushedBorrows(c, environment))
    {
      var i :| 0 <= i < |slice.components| && slice.components[i] == c;
      assert pins[i] == PinOf(c);
      assert c in Contributors(slice);
    }
    forall pin | pin in pins
      ensures exists c | c in slice.components :: PinOf(c) == pin
    {
      var i :| 0 <= i < |pins| && pins[i] == pin;
      assert PinOf(slice.components[i]) == pin;
    }
    hide Borrows, PushedBorrows, IsValid, IsDnsLabel, Sorted;
  }

  /** A decoded slice that borrows never borrows its own environment. */
  lemma BorrowedIsNotOwn(slice: TargetSlice, desired: DesiredSlice)
    requires Decodes(slice, Ok(desired)) && desired.BorrowedEnvironment().Some?
    ensures desired.BorrowedEnvironment().value != desired.environment
    ensures IsDnsLabel(desired.BorrowedEnvironment().value)
  {
    var pin := desired.components[0];
    assert pin in multiset(Pins(slice.components));
    var i :| 0 <= i < |slice.components| && Pins(slice.components)[i] == pin;
    assert slice.components[i] in Contributors(slice);
    BorrowedIsAnotherStableEnvironment(pin.context);
  }

  /* ---------------------------------------------------------------- A digest of two slices */

  /** Twenty-four bytes of canonical JSON. */
  const VALUES := TextBytes("{\"a\":\"0123456789abcdef\"}")

  const ZEROS: ByteString := seq(24, i => 0 as byte)

  /** Hashes in this order; the third spells a length of 24 and then the values. */
  const FIRST: Hash32 := ZEROS + [0, 0, 0, 0, 0, 0, 0, 0]
  const SECOND: Hash32 := ZEROS + [0, 0, 0, 0, 0, 0, 0, 1]
  const THIRD: Hash32 := U64(24) + VALUES

  lemma HashesInOrder()
    ensures Before(FIRST, SECOND) && Before(SECOND, THIRD) && Before(FIRST, THIRD)
  {
    BeforeAt(FIRST, SECOND, 31);
    SmallU64(24);
    assert forall k | 0 <= k < 8 :: THIRD[k] == U64(24)[k];
    assert SECOND[..7] == THIRD[..7];
    BeforeAt(SECOND, THIRD, 7);
    BeforeIsTransitive(FIRST, SECOND, THIRD);
  }

  function Pushed(graph: Uuid, generation: u64, sequence: u64, connector: string,
                  components: seq<WireComponent>, upstream: seq<UpstreamOutput>): TargetSlice
  {
    TargetSlice(graph, generation, sequence, connector, components, upstream, [])
  }

  /** Components with distinct names and hashes, and one valid context, decode. */
  lemma DecodesInOrder(slice: TargetSlice, desired: DesiredSlice, context: ComponentContext)
    requires IsValid(context) && slice.supersededComponents == [] && slice.components != []
    requires forall c | c in slice.components :: IsDnsLabel(c.name) && c.context == Some(context)
    requires Distinct(slice.components, NameOf) && Sorted(slice.components, HashOf)
    requires |slice.upstreamOutputs| <= 1
    requires desired == DesiredSlice(slice.graphId, slice.generation, slice.sequence,
                                     context.environment, Pins(slice.components),
                                     slice.upstreamOutputs)
    ensures Decodes(slice, Ok(desired))
  {
    assert Contributors(slice) == slice.components;
    assert Distinct(slice.components, HashOf) by {
      forall i, j | 0 <= i < j < |slice.components|
        ensures HashOf(slice.components[i]) != HashOf(slice.components[j])
      {
        BeforeIsIrreflexive(HashOf(slice.components[i]));
      }
    }
    forall i, j | 0 <= i < j < |desired.components|
      ensures Before(PinKey(desired.components[i]), PinKey(desired.components[j]))
    {
      assert Before(HashOf(slice.components[i]), HashOf(slice.components[j]));
    }
    hide IsValid, IsDnsLabel, Before;
  }

  /**
   * The digest does collide across component counts: a third component hash that spells a length
   * of 24 reads as the frame of a 24-byte value, and the second as the hash of its producer. Both
   * slices decode, in every environment.
   */
  lemma MaterializationDigestCollides(
    graph: Uuid, generation: u64, sequence: u64, connector: string, context: ComponentContext)
    returns (many: TargetSlice, three: DesiredSlice, few: TargetSlice, one: DesiredSlice)
    requires IsValid(context)
    ensures Decodes(many, Ok(three)) && Decodes(few, Ok(one))
    ensures many.connector == few.connector == connector
    ensures three.environment == one.environment == context.environment
    ensures three.MaterializationDigest() == one.MaterializationDigest()
    ensures !SameMaterialization(three, one)
    ensures |three.components| == 3 && three.upstreamOutputs == []
    ensures |one.components| == 1 && one.upstreamOutputs == [UpstreamOutput(SECOND, VALUES)]
  {
    var c1, c2, c3 := WireComponent(FIRST, "a", Some(context)),
                      WireComponent(SECOND, "b", Some(context)),
                      WireComponent(THIRD, "c", Some(context));
    var output := UpstreamOutput(SECOND, VALUES);
    many := Pushed(graph, generation, sequence, connector, [c1, c2, c3], []);
    few := Pushed(graph, generation, sequence, connector, [c1], [output]);
    three := DesiredSlice(graph, generation, sequence, context.environment, Pins([c1, c2, c3]), []);
    one := DesiredSlice(graph, generation, sequence, context.environment, Pins([c1]), [output]);
    HashesInOrder();
    CollidingPreimages(three, one, graph, generation, output);
    hide VALUES, ZEROS, FIRST, SECOND, THIRD, IsValid, Before, PinOf;
    assert IsDnsLabel("a") && IsDnsLabel("b") && IsDnsLabel("c");
    DecodesInOrder(many, three, context);
    DecodesInOrder(few, one, context);
  }

  lemma CollidingPreimages(three: DesiredSlice, one: DesiredSlice, graph: Uuid, generation: u64,
                           output: UpstreamOutput)
    requires three.graphId == one.graphId == graph
    requires three.generation == one.generation == generation
    requires three.SpecHashes() == [FIRST, SECOND, THIRD] && three.upstreamOutputs == []
    requires one.SpecHashes() == [FIRST] && one.upstreamOutputs == [output]
    requires output == UpstreamOutput(SECOND, VALUES)
    ensures three.MaterializationPreimage() == one.MaterializationPreimage()
  {
    assert [FIRST, SECOND, THIRD][1..] == [SECOND, THIRD] && [SECOND, THIRD][1..] == [THIRD];
    ConcatOne<Hash32>(THIRD, Itself);
    ConcatOne<Hash32>(FIRST, Itself);
    ConcatOne(output, UpstreamCode);
    assert Concat([FIRST, SECOND, THIRD], Itself) == FIRST + (SECOND + THIRD);
    assert UpstreamCode(output) == SECOND + THIRD;
  }
}
