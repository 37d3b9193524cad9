/** The identity of a publication's outputs, as other producers' identities are compared with it. */
module Identities {
  import opened Wrappers
  import opened Bytes
  import opened Trees
  import opened OrdMaps
  import opened Slices
  import opened Decoding

  /** Writing JSON values down: canonical, so that different values are written differently. */
  type JsonWriter = Json -> ByteString

  ghost predicate Canonical(write: JsonWriter) {
    forall x, y :: write(x) == write(y) ==> x == y
  }

  const IDENTITY_PREFIX := TextBytes("henosis.dev/k8s-publication/v1") + [0]

  function OutputKey(output: Output): ByteString {
    output.componentSpecHash
  }

  /** No written value is too long for its frame. */
  ghost predicate AllFit(write: JsonWriter, outputs: seq<Output>) {
    forall output | output in outputs :: |write(output.values)| < TWO_64
  }

  /** Component hashes with written values. */
  function Written(write: JsonWriter, outputs: seq<Output>): (written: seq<UpstreamOutput>)
    requires AllFit(write, outputs)
    ensures |written| == |outputs|
  {
    seq(|outputs|, i requires 0 <= i < |outputs| =>
      assert outputs[i] in outputs;
      UpstreamOutput(outputs[i].componentSpecHash, write(outputs[i].values)))
  }

  /** The name that the identity is the hash of, for outputs in the order of their hashes. */
  function IdentityName(write: JsonWriter, slice: TargetSlice, sorted: seq<Output>): ByteString
    requires AllFit(write, sorted)
  {
    IDENTITY_PREFIX + slice.graphId + U64(slice.generation) + TextBytes(slice.connector)
    + Concat(Written(write, sorted), UpstreamCode)
  }

  /** No element comes before one that precedes it. */
  ghost predicate InOrder(s: seq<Output>) {
    forall i, j | 0 <= i < j < |s| :: !Before(OutputKey(s[j]), OutputKey(s[i]))
  }

  /** Insertion behind everything that is not after the new element. */
  function InsertStable(s: seq<Output>, x: Output): seq<Output> {
    if s == [] then [x]
    else if Before(OutputKey(x), OutputKey(s[|s| - 1])) then
      InsertStable(s[..|s| - 1], x) + [s[|s| - 1]]
    else s + [x]
  }

  lemma NotBeforeIsTransitive(a: ByteString, b: ByteString, c: ByteString)
    requires !Before(b, a) && !Before(c, b)
    ensures !Before(c, a)
  {
    BeforeIsTotal(a, b);
    BeforeIsTotal(b, c);
    if Before(a, b) && Before(b, c) {
      BeforeIsTransitive(a, b, c);
      BeforeIsAsymmetric(a, c);
    }
  }

  lemma {:induction false} InsertStableAdds(s: seq<Output>, x: Output)
    ensures multiset(InsertStable(s, x)) == multiset(s) + multiset{x}
  {
    if s != [] {
      assert s == s[..|s| - 1] + [s[|s| - 1]];
      InsertStableAdds(s[..|s| - 1], x);
    }
    hide Before;
  }

  lemma {:induction false} InsertStableKeepsOrder(s: seq<Output>, x: Output)
    requires InOrder(s)
    ensures InOrder(InsertStable(s, x))
  {
    hide Before;
    if s != [] {
      var last := s[|s| - 1];
      if Before(OutputKey(x), OutputKey(last)) {
        var front := s[..|s| - 1];
        InsertStableKeepsOrder(front, x);
        InsertStableAdds(front, x);
        var r := InsertStable(front, x);
        BeforeIsAsymmetric(OutputKey(x), OutputKey(last));
        forall i | 0 <= i < |r|
          ensures !Before(OutputKey(last), OutputKey(r[i]))
        {
          assert r[i] in multiset(r);
          assert r[i] == x || r[i] in front;
        }
      } else {
        forall i | 0 <= i < |s|
          ensures !Before(OutputKey(x), OutputKey(s[i]))
        {
          if i < |s| - 1 {
            NotBeforeIsTransitive(OutputKey(s[i]), OutputKey(last), OutputKey(x));
          }
        }
      }
    }
  }

  /** The outputs of one component hash, in their order. */
  function WithHash(s: seq<Output>, hash: ByteString): (r: seq<Output>)
    ensures forall output | output in r :: output in s && OutputKey(output) == hash
  {
    if s == [] then []
    else
      var last := s[|s| - 1];
      WithHash(s[..|s| - 1], hash) + if OutputKey(last) == hash then [last] else []
  }

  /** A stable sort: in order, and outputs of one hash stay in the order in which they came. */
  ghost predicate SortsStably(outputs: seq<Output>, sorted: seq<Output>) {
    InOrder(sorted) && multiset(sorted) == multiset(outputs) && SameByHash(sorted, outputs)
  }

  function OnlyWith(x: Output, hash: ByteString): seq<Output> {
    if OutputKey(x) == hash then [x] else []
  }

  lemma WithHashNext(s: seq<Output>, x: Output, hash: ByteString)
    ensures WithHash(s + [x], hash) == WithHash(s, hash) + OnlyWith(x, hash)
  {
    assert (s + [x])[..|s|] == s;
  }

  lemma {:induction false} InsertionIsStable(s: seq<Output>, x: Output, hash: ByteString)
    ensures WithHash(InsertStable(s, x), hash) == WithHash(s, hash) + OnlyWith(x, hash)
  {
    if s != [] && Before(OutputKey(x), OutputKey(s[|s| - 1])) {
      var front, last := s[..|s| - 1], s[|s| - 1];
      InsertionIsStable(front, x, hash);
      OvertakingIsStable(front, InsertStable(front, x), x, last, hash);
      assert InsertStable(s, x) == InsertStable(front, x) + [last];
      assert s == front + [last];
    } else {
      assert InsertStable(s, x) == s + [x];
      WithHashNext(s, x, hash);
    }
    hide *;
  }

  /** An element that comes before the last one has another hash. */
  lemma OvertakingIsStable(front: seq<Output>, r: seq<Output>, x: Output, last: Output,
                           hash: ByteString)
    requires Before(OutputKey(x), OutputKey(last))
    requires WithHash(r, hash) == WithHash(front, hash) + OnlyWith(x, hash)
    ensures WithHash(r + [last], hash) == WithHash(front + [last], hash) + OnlyWith(x, hash)
  {
    WithHashNext(r, last, hash);
    WithHashNext(front, last, hash);
    BeforeIsIrreflexive(OutputKey(x));
    assert OnlyWith(x, hash) == [] || OnlyWith(last, hash) == [];
    Swap(WithHash(front, hash), OnlyWith(x, hash), OnlyWith(last, hash));
    hide *;
  }

  lemma Swap(w: seq<Output>, a: seq<Output>, b: seq<Output>)
    requires a == [] || b == []
    ensures (w + a) + b == (w + b) + a
  {
  }

  lemma {:induction false} HashIsPresent(s: seq<Output>, output: Output)
    requires output in s
    ensures output in WithHash(s, OutputKey(output))
  {
    if output != s[|s| - 1] {
      HashIsPresent(s[..|s| - 1], output);
    }
  }

  /** Every hash has the same outputs in the same order. */
  ghost predicate SameByHash(s: seq<Output>, t: seq<Output>) {
    forall hash: ByteString :: WithHash(s, hash) == WithHash(t, hash)
  }

  lemma SamePresent(s: seq<Output>, t: seq<Output>, output: Output)
    requires SameByHash(s, t) && output in s
    ensures exists other :: other in t && OutputKey(other) == OutputKey(output)
  {
    HashIsPresent(s, output);
    var r := WithHash(t, OutputKey(output));
    assert r == WithHash(s, OutputKey(output));
    assert output in r;
  }

  /** If one list is in order, its last output has no smaller hash than that of the other. */
  lemma LastIsNotBefore(s: seq<Output>, t: seq<Output>)
    requires InOrder(s) && s != [] && t != [] && SameByHash(t, s)
    ensures !Before(OutputKey(s[|s| - 1]), OutputKey(t[|t| - 1]))
  {
    SamePresent(t, s, t[|t| - 1]);
    var other :| other in s && OutputKey(other) == OutputKey(t[|t| - 1]);
    var i :| 0 <= i < |s| && s[i] == other;
    BeforeIsIrreflexive(OutputKey(other));
    hide Before, SameByHash;
  }

  lemma LastsAgree(front: seq<Output>, x: Output, rest: seq<Output>, y: Output)
    requires SameByHash(front + [x], rest + [y]) && OutputKey(x) == OutputKey(y)
    ensures x == y
  {
    var hash := OutputKey(x);
    assert WithHash(front + [x], hash) == WithHash(rest + [y], hash);
    WithHashNext(front, x, hash);
    WithHashNext(rest, y, hash);
    hide WithHash, SameByHash;
    var a, b := WithHash(front, hash), WithHash(rest, hash);
    assert a + [x] == b + [y];
    assert x == (a + [x])[|a + [x]| - 1] && y == (b + [y])[|b + [y]| - 1];
  }

  lemma FrontsAgree(front: seq<Output>, rest: seq<Output>, x: Output)
    requires SameByHash(front + [x], rest + [x])
    ensures SameByHash(front, rest)
  {
    forall hash: ByteString
      ensures WithHash(front, hash) == WithHash(rest, hash)
    {
      assert WithHash(front + [x], hash) == WithHash(rest + [x], hash);
      WithHashNext(front, x, hash);
      WithHashNext(rest, x, hash);
      hide WithHash;
      SplitTail(WithHash(front, hash), WithHash(rest, hash), OnlyWith(x, hash));
    }
  }

  /** Two lists in order with the same outputs of every hash end alike, and so do their fronts. */
  lemma EndsAgree(s: seq<Output>, t: seq<Output>)
    requires InOrder(s) && InOrder(t) && SameByHash(s, t) && s != [] && t != []
    ensures s[|s| - 1] == t[|t| - 1]
    ensures var front, rest := s[..|s| - 1], t[..|t| - 1];
            InOrder(front) && InOrder(rest) && SameByHash(front, rest)
  {
    var x, front, y, rest := s[|s| - 1], s[..|s| - 1], t[|t| - 1], t[..|t| - 1];
    assert SameByHash(t, s);
    LastIsNotBefore(s, t);
    LastIsNotBefore(t, s);
    BeforeIsTotal(OutputKey(x), OutputKey(y));
    assert InOrder(front) && InOrder(rest);
    hide InOrder, SameByHash, Before;
    assert s == front + [x] && t == rest + [y];
    LastsAgree(front, x, rest, y);
    FrontsAgree(front, rest, x);
  }

  /** There is one stable sort. */
  lemma {:induction false} StableSortIsUnique(s: seq<Output>, t: seq<Output>)
    requires InOrder(s) && InOrder(t) && SameByHash(s, t)
    ensures s == t
    decreases |s|
  {
    assert SameByHash(t, s);
    hide SameByHash, InOrder;
    if s == [] {
      if t != [] {
        SamePresent(t, s, t[0]);
      }
    } else {
      SamePresent(s, t, s[0]);
      EndsAgree(s, t);
      StableSortIsUnique(s[..|s| - 1], t[..|t| - 1]);
      assert s == s[..|s| - 1] + [s[|s| - 1]] && t == t[..|t| - 1] + [t[|t| - 1]];
    }
  }

  lemma SplitTail<T>(a: seq<T>, b: seq<T>, tail: seq<T>)
    requires a + tail == b + tail
    ensures a == b
  {
    assert |a + tail| == |b + tail|;
    assert a == (a + tail)[..|a|] == (b + tail)[..|b|] == b;
  }

  /** Sort the outputs and hash everything; without outputs there is no identity. */
  method PublicationIdentity(write: JsonWriter, slice: TargetSlice, outputs: seq<Output>)
    returns (r: Option<Digest>)
    requires AllFit(write, outputs)
    ensures r.None? <==> outputs == []
    ensures r.Some? ==>
              exists sorted ::
                SortsStably(outputs, sorted) && AllFit(write, sorted) &&
                r.value == Uuid5(IdentityName(write, slice, sorted))
  {
    if outputs == [] { return None; }
    var name := IDENTITY_PREFIX;
    name := name + slice.graphId;
    name := name + U64(slice.generation);
    name := name + TextBytes(slice.connector);
    ghost var head := name;
    var sorted: seq<Output> := [];
    for i := 0 to |outputs|
      invariant SortsStably(outputs[..i], sorted)
    {
      SortNext(outputs, i, sorted);
      sorted := InsertStable(sorted, outputs[i]);
    }
    assert outputs[..|outputs|] == outputs;
    SortingFits(write, outputs, sorted);
    name := HashOutputs(write, name, sorted);
    assert name == IdentityName(write, slice, sorted);
    r := Some(Uuid5(name));
  }

  lemma SortNext(outputs: seq<Output>, i: nat, sorted: seq<Output>)
    requires i < |outputs| && SortsStably(outputs[..i], sorted)
    ensures SortsStably(outputs[..i + 1], InsertStable(sorted, outputs[i]))
  {
    var before, x := outputs[..i], outputs[i];
    InsertStableKeepsOrder(sorted, x);
    InsertStableAdds(sorted, x);
    assert outputs[..i + 1] == before + [x];
    forall hash: ByteString
      ensures WithHash(InsertStable(sorted, x), hash) == WithHash(before + [x], hash)
    {
      InsertionIsStable(sorted, x, hash);
      assert WithHash(sorted, hash) == WithHash(before, hash);
      WithHashNext(before, x, hash);
      hide WithHash;
    }
    hide InsertStable, InOrder, WithHash;
  }

  /** The identity is determined by the slice and the outputs as they are listed. */
  lemma IdentityIsDetermined(write: JsonWriter, slice: TargetSlice, outputs: seq<Output>,
                             s: seq<Output>, t: seq<Output>)
    requires SortsStably(outputs, s) && SortsStably(outputs, t)
    requires AllFit(write, s) && AllFit(write, t)
    ensures s == t && IdentityName(write, slice, s) == IdentityName(write, slice, t)
  {
    assert SameByHash(s, t);
    StableSortIsUnique(s, t);
    hide IdentityName, WithHash;
  }

  lemma SortingFits(write: JsonWriter, outputs: seq<Output>, sorted: seq<Output>)
    requires AllFit(write, outputs) && multiset(sorted) == multiset(outputs)
    ensures AllFit(write, sorted)
  {
    forall output | output in sorted
      ensures output in outputs
    {
      assert output in multiset(sorted);
    }
  }

  method HashOutputs(write: JsonWriter, before: ByteString, sorted: seq<Output>)
    returns (name: ByteString)
    requires AllFit(write, sorted)
    ensures name == before + Concat(Written(write, sorted), UpstreamCode)
  {
    name := before;
    var written := Written(write, sorted);
    assert Concat(written[..0], UpstreamCode) == [];
    hide Framed, Concat, U64;
    for i := 0 to |sorted|
      invariant name == before + Concat(written[..i], UpstreamCode)
    {
      ConcatNext(written, i, UpstreamCode);
      ghost var head := name;
      name := name + sorted[i].componentSpecHash;
      name := name + Framed(write(sorted[i].values));
      assert name == head + UpstreamCode(written[i]);
    }
    assert written[..|sorted|] == written;
  }

  /** What was written determines what it was written for. */
  lemma WrittenIsInjective(write: JsonWriter, s: seq<Output>, t: seq<Output>)
    requires Canonical(write) && AllFit(write, s) && AllFit(write, t)
    requires Written(write, s) == Written(write, t)
    ensures s == t
  {
    forall i | 0 <= i < |s|
      ensures s[i] == t[i]
    {
      assert Written(write, s)[i] == Written(write, t)[i];
    }
  }

  lemma DistinctInOrderIsSorted(s: seq<Output>)
    requires InOrder(s) && Distinct(s, OutputKey)
    ensures Sorted(s, OutputKey)
  {
    forall i, j | 0 <= i < j < |s|
      ensures Before(OutputKey(s[i]), OutputKey(s[j]))
    {
      BeforeIsTotal(OutputKey(s[i]), OutputKey(s[j]));
    }
  }

  /**
   * For one connector and distinct component hashes, the identity names the graph, the generation
   * and the outputs, and nothing else: not their order, not the sequence cursor.
   */
  lemma IdentitiesIdentify(write: JsonWriter, a: TargetSlice, x: seq<Output>, s: seq<Output>,
                           b: TargetSlice, y: seq<Output>, t: seq<Output>)
    requires Canonical(write) && a.connector == b.connector
    requires Distinct(x, OutputKey) && Distinct(y, OutputKey)
    requires InOrder(s) && multiset(s) == multiset(x)
    requires InOrder(t) && multiset(t) == multiset(y)
    requires AllFit(write, s) && AllFit(write, t)
    ensures IdentityName(write, a, s) == IdentityName(write, b, t) <==>
            a.graphId == b.graphId && a.generation == b.generation && multiset(x) == multiset(y)
  {
    var u, v := Concat(Written(write, s), UpstreamCode), Concat(Written(write, t), UpstreamCode);
    if IdentityName(write, a, s) == IdentityName(write, b, t) {
      var c := TextBytes(a.connector);
      SplitAt(IDENTITY_PREFIX + a.graphId + U64(a.generation) + c, u,
              IDENTITY_PREFIX + b.graphId + U64(b.generation) + c, v);
      SplitAt(IDENTITY_PREFIX + a.graphId + U64(a.generation), c,
              IDENTITY_PREFIX + b.graphId + U64(b.generation), c);
      SplitAt(IDENTITY_PREFIX + a.graphId, U64(a.generation),
              IDENTITY_PREFIX + b.graphId, U64(b.generation));
      SplitAt(IDENTITY_PREFIX, a.graphId, IDENTITY_PREFIX, b.graphId);
      U64IsInjective(a.generation, b.generation);
      UpstreamCodeIsPrefixFree();
      ConcatIsInjective(Written(write, s), Written(write, t), UpstreamCode);
      WrittenIsInjective(write, s, t);
    }
    if multiset(x) == multiset(y) {
      DistinctIsOrderFree(x, s, OutputKey);
      DistinctIsOrderFree(y, t, OutputKey);
      DistinctInOrderIsSorted(s);
      DistinctInOrderIsSorted(t);
      SortedIsCanonical(s, t, OutputKey);
    }
    hide Written, Concat, U64, IDENTITY_PREFIX, TextBytes;
  }
}
