/** Desired slices: decoding from the wire form, and the digests taken over them. */
module Slices {
  import opened Wrappers
  import opened Bytes
  import opened OrdMaps
  import opened Contexts

  datatype ComponentPin = ComponentPin(specHash: Hash32, name: string, context: ComponentContext)

  datatype UpstreamOutput = UpstreamOutput(componentSpecHash: Hash32, valuesJson: Framable)

  function PinKey(pin: ComponentPin): ByteString {
    pin.specHash
  }

  function UpstreamKey(output: UpstreamOutput): ByteString {
    output.componentSpecHash
  }

  /** A validated slice. Components and upstream outputs are ordered by their hashes. */
  datatype DesiredSlice = DesiredSlice(
    graphId: Uuid,
    generation: u64,
    sequence: u64,
    environment: string,
    components: seq<ComponentPin>,
    upstreamOutputs: seq<UpstreamOutput>)
  {
    /** The stable environment that every component of the slice borrows, if there is one. */
    function BorrowedEnvironment(): Option<string> {
      if components == [] || components[0].context.borrow.None? then
        None
      else
        var first := components[0].context.borrow.value.effectiveEnvironment;
        if forall pin | pin in components ::
             pin.context.borrow.Some? && pin.context.borrow.value.effectiveEnvironment == first
        then Some(first)
        else None
    }

    function SpecHashes(): (hashes: seq<Hash32>)
      ensures |hashes| == |components|
    {
      HashesOf(components)
    }

    function GraphPreimage(): ByteString {
      GRAPH_PREFIX + graphId + U64(generation) + Concat(SpecHashes(), Itself)
    }

    function MaterializationPreimage(): ByteString {
      MATERIALIZATION_PREFIX + graphId + U64(generation) + Concat(SpecHashes(), Itself)
      + Concat(upstreamOutputs, UpstreamCode)
    }

    function MaterializationDigest(): Digest {
      Blake3(MaterializationPreimage())
    }

    function GraphDigest(): Digest {
      Sha256(GraphPreimage())
    }

    /** Computing the materialization digest by feeding a hasher. */
    method HashMaterialization() returns (digest: Digest)
      ensures digest == MaterializationDigest()
    {
      var fed := MATERIALIZATION_PREFIX + graphId + U64(generation);
      fed := FeedHashes(fed, components);
      fed := FeedUpstream(fed, upstreamOutputs);
      digest := Blake3(fed);
    }

    /** Computing the graph digest by feeding a hasher. */
    method HashGraph() returns (digest: Digest)
      ensures digest == GraphDigest()
    {
      var fed := GRAPH_PREFIX + graphId + U64(generation);
      fed := FeedHashes(fed, components);
      digest := Sha256(fed);
    }
  }

  /** The component borrows this environment. */
  predicate Borrows(pin: ComponentPin, environment: string) {
    pin.context.borrow.Some? && pin.context.borrow.value.effectiveEnvironment == environment
  }

  predicate AllBorrow(pins: seq<ComponentPin>, environment: string) {
    pins != [] && forall pin | pin in pins :: Borrows(pin, environment)
  }

  /** A slice borrows an environment exactly if it has components and every one of them does. */
  lemma BorrowingIsUnanimous(desired: DesiredSlice, environment: string)
    ensures desired.BorrowedEnvironment() == Some(environment) <==>
            AllBorrow(desired.components, environment)
  {
    if desired.components != [] {
      assert desired.components[0] in desired.components;
    }
  }

  /** The order of the components does not matter. */
  lemma BorrowingIgnoresOrder(a: DesiredSlice, b: DesiredSlice)
    requires multiset(a.components) == multiset(b.components)
    ensures a.BorrowedEnvironment() == b.BorrowedEnvironment()
  {
    forall pin
      ensures pin in a.components <==> pin in b.components
    {
      assert pin in a.components <==> pin in multiset(a.components);
      assert pin in b.components <==> pin in multiset(b.components);
    }
    assert |a.components| == |multiset(a.components)| == |b.components|;
    if a.BorrowedEnvironment().Some? {
      BorrowingIsUnanimous(a, a.BorrowedEnvironment().value);
      BorrowingIsUnanimous(b, a.BorrowedEnvironment().value);
    }
    if b.BorrowedEnvironment().Some? {
      BorrowingIsUnanimous(a, b.BorrowedEnvironment().value);
      BorrowingIsUnanimous(b, b.BorrowedEnvironment().value);
    }
    hide Borrows;
  }

  function HashesOf(pins: seq<ComponentPin>): (hashes: seq<Hash32>)
    ensures |hashes| == |pins|
  {
    seq(|pins|, i requires 0 <= i < |pins| => pins[i].specHash)
  }

  /** Feeding a hasher the component hashes, one by one. */
  method FeedHashes(before: ByteString, pins: seq<ComponentPin>) returns (fed: ByteString)
    ensures fed == before + Concat(HashesOf(pins), Itself)
  {
    fed := before;
    var hashes := HashesOf(pins);
    for i := 0 to |pins|
      invariant fed == before + Concat(hashes[..i], Itself)
    {
      ConcatNext(hashes, i, Itself);
      fed := fed + pins[i].specHash;
    }
    assert hashes[..|pins|] == hashes;
  }

  /** Feeding a hasher the upstream outputs, each as its hash, a length, and its value. */
  method FeedUpstream(before: ByteString, upstream: seq<UpstreamOutput>) returns (fed: ByteString)
    ensures fed == before + Concat(upstream, UpstreamCode)
  {
    fed := before;
    assert Concat(upstream[..0], UpstreamCode) == [];
    hide Framed, Concat;
    for i := 0 to |upstream|
      invariant fed == before + Concat(upstream[..i], UpstreamCode)
    {
      ConcatNext(upstream, i, UpstreamCode);
      ghost var head := fed;
      fed := fed + upstream[i].componentSpecHash;
      fed := fed + Framed(upstream[i].valuesJson);
      assert fed == head + UpstreamCode(upstream[i]);
    }
    assert upstream[..|upstream|] == upstream;
  }

  const GRAPH_PREFIX := TextBytes("henosis.dev/k8s-graph-generation/v1") + [0]

  const MATERIALIZATION_PREFIX := TextBytes("henosis.dev/k8s-materialization/v1") + [0]

  function UpstreamCode(output: UpstreamOutput): ByteString {
    output.componentSpecHash + Framed(output.valuesJson)
  }

  /* ---------------------------------------------------------------- What the digests identify */

  lemma UpstreamCodeIsPrefixFree()
    ensures PrefixFree(UpstreamCode)
  {
    forall x: UpstreamOutput, y: UpstreamOutput, u, v | UpstreamCode(x) + u == UpstreamCode(y) + v
      ensures x == y && u == v
    {
      assert UpstreamCode(x) + u == x.componentSpecHash + (Framed(x.valuesJson) + u);
      assert UpstreamCode(y) + v == y.componentSpecHash + (Framed(y.valuesJson) + v);
      SplitAt(x.componentSpecHash, Framed(x.valuesJson) + u,
              y.componentSpecHash, Framed(y.valuesJson) + v);
      FramedIsPrefixFree(x.valuesJson, u, y.valuesJson, v);
    }
  }

  /** The graph digest identifies the graph, its generation and its component hashes. */
  lemma GraphDigestIsInjective(a: DesiredSlice, b: DesiredSlice)
    ensures a.GraphDigest() == b.GraphDigest() <==>
            a.graphId == b.graphId && a.generation == b.generation &&
            a.SpecHashes() == b.SpecHashes()
  {
    if a.GraphPreimage() == b.GraphPreimage() {
      HeaderSplits(GRAPH_PREFIX, a, Concat(a.SpecHashes(), Itself),
                   b, Concat(b.SpecHashes(), Itself));
      HashesArePrefixFree();
      ConcatIsInjective(a.SpecHashes(), b.SpecHashes(), Itself);
    }
  }

  lemma HeaderSplits(prefix: ByteString, a: DesiredSlice, x: ByteString,
                     b: DesiredSlice, y: ByteString)
    requires prefix + a.graphId + U64(a.generation) + x ==
             prefix + b.graphId + U64(b.generation) + y
    ensures a.graphId == b.graphId && a.generation == b.generation && x == y
  {
    SplitAt(prefix + a.graphId + U64(a.generation), x, prefix + b.graphId + U64(b.generation), y);
    SplitAt(prefix + a.graphId, U64(a.generation), prefix + b.graphId, U64(b.generation));
    SplitAt(prefix, a.graphId, prefix, b.graphId);
    U64IsInjective(a.generation, b.generation);
  }

  /** The parts of a slice that its materialization digest is meant to identify. */
  predicate SameMaterialization(a: DesiredSlice, b: DesiredSlice) {
    a.graphId == b.graphId && a.generation == b.generation &&
    a.SpecHashes() == b.SpecHashes() && a.upstreamOutputs == b.upstreamOutputs
  }

  /**
   * Equal materialization digests identify the same materialization exactly when the slices have
   * the same number of components: the count itself is not in the preimage.
   */
  lemma MaterializationDigestIdentifies(a: DesiredSlice, b: DesiredSlice)
    requires a.MaterializationDigest() == b.MaterializationDigest()
    ensures SameMaterialization(a, b) <==> |a.components| == |b.components|
  {
    var x, y := Concat(a.SpecHashes(), Itself), Concat(b.SpecHashes(), Itself);
    var u, v := Concat(a.upstreamOutputs, UpstreamCode), Concat(b.upstreamOutputs, UpstreamCode);
    assert a.MaterializationPreimage() ==
           MATERIALIZATION_PREFIX + a.graphId + U64(a.generation) + (x + u);
    assert b.MaterializationPreimage() ==
           MATERIALIZATION_PREFIX + b.graphId + U64(b.generation) + (y + v);
    HeaderSplits(MATERIALIZATION_PREFIX, a, x + u, b, y + v);
    HashesHaveFixedWidth(a.SpecHashes());
    HashesHaveFixedWidth(b.SpecHashes());
    if |a.components| == |b.components| {
      SplitAt(x, u, y, v);
      HashesArePrefixFree();
      ConcatIsInjective(a.SpecHashes(), b.SpecHashes(), Itself);
      UpstreamCodeIsPrefixFree();
      ConcatIsInjective(a.upstreamOutputs, b.upstreamOutputs, UpstreamCode);
    }
  }

  /** Whatever the component counts, a materialization digest names its graph and generation. */
  lemma MaterializationDigestNamesGeneration(a: DesiredSlice, b: DesiredSlice)
    requires a.MaterializationDigest() == b.MaterializationDigest()
    ensures a.graphId == b.graphId && a.generation == b.generation
  {
    var x := Concat(a.SpecHashes(), Itself) + Concat(a.upstreamOutputs, UpstreamCode);
    var y := Concat(b.SpecHashes(), Itself) + Concat(b.upstreamOutputs, UpstreamCode);
    assert a.MaterializationPreimage() ==
           MATERIALIZATION_PREFIX + a.graphId + U64(a.generation) + x;
    assert b.MaterializationPreimage() ==
           MATERIALIZATION_PREFIX + b.graphId + U64(b.generation) + y;
    HeaderSplits(MATERIALIZATION_PREFIX, a, x, b, y);
  }

  /** The sequence cursor never enters a digest. */
  lemma DigestsIgnoreTheSequence(a: DesiredSlice, sequence: u64)
    ensures a.(sequence := sequence).MaterializationDigest() == a.MaterializationDigest()
    ensures a.(sequence := sequence).GraphDigest() == a.GraphDigest()
  {
    assert a.(sequence := sequence).SpecHashes() == a.SpecHashes();
  }

  lemma {:induction false} ConcatOne<T>(x: T, code: T -> ByteString)
    ensures Concat([x], code) == code(x)
  {
    assert [x][1..] == [];
  }

  lemma {:induction false} BeforeAt(a: ByteString, b: ByteString, k: nat)
    requires k < |a| && k < |b| && a[..k] == b[..k] && a[k] < b[k]
    ensures Before(a, b)
  {
    if k > 0 {
      assert a[0] == a[..k][0] == b[..k][0] == b[0];
      assert a[1..][..k - 1] == a[..k][1..] && b[1..][..k - 1] == b[..k][1..];
      BeforeAt(a[1..], b[1..], k - 1);
    }
  }

  lemma {:induction false} ZeroBytes(width: nat)
    ensures forall k | 0 <= k < width :: BigEndian(0, width)[k] == 0
  {
    if width > 0 {
      ZeroBytes(width - 1);
    }
  }

  lemma SmallU64(n: nat)
    requires n < 256
    ensures U64(n)[7] == n as byte && forall k | 0 <= k < 7 :: U64(n)[k] == 0
  {
    ZeroBytes(7);
    assert U64(n) == BigEndian(0, 7) + [n as byte];
  }
}
