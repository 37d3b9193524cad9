/** Ordered collections keyed by byte strings, as strictly sorted sequences. */
module OrdMaps {
  import opened Wrappers
  import opened Bytes

  ghost predicate Sorted<T>(s: seq<T>, key: T -> ByteString) {
    forall i, j | 0 <= i < j < |s| :: Before(key(s[i]), key(s[j]))
  }

  predicate HasKey<T>(s: seq<T>, key: T -> ByteString, k: ByteString) {
    exists i | 0 <= i < |s| :: key(s[i]) == k
  }

  /** Insertion in key order; nothing if the key is taken. */
  function InsertUnique<T>(s: seq<T>, x: T, key: T -> ByteString): Option<seq<T>> {
    if s == [] then Some([x])
    else if key(s[0]) == key(x) then None
    else if Before(key(x), key(s[0])) then Some([x] + s)
    else
      match InsertUnique(s[1..], x, key)
      case None => None
      case Some(rest) => Some([s[0]] + rest)
  }

  lemma {:induction false} KeyInTail<T>(s: seq<T>, key: T -> ByteString, k: ByteString)
    requires s != []
    ensures HasKey(s, key, k) <==> key(s[0]) == k || HasKey(s[1..], key, k)
  {
    if HasKey(s[1..], key, k) {
      var i :| 0 <= i < |s[1..]| && key(s[1..][i]) == k;
      assert key(s[i + 1]) == k;
    }
    if HasKey(s, key, k) {
      var i :| 0 <= i < |s| && key(s[i]) == k;
      assert i > 0 ==> key(s[1..][i - 1]) == k;
    }
  }

  lemma {:induction false} InsertUniqueFails<T>(s: seq<T>, x: T, key: T -> ByteString)
    requires Sorted(s, key)
    ensures InsertUnique(s, x, key).None? <==> HasKey(s, key, key(x))
  {
    if s == [] {
    } else if key(s[0]) == key(x) {
    } else if Before(key(x), key(s[0])) {
      forall i | 0 <= i < |s|
        ensures key(s[i]) != key(x)
      {
        if i > 0 {
          BeforeIsTransitive(key(x), key(s[0]), key(s[i]));
        }
        BeforeIsAsymmetric(key(x), key(s[i]));
      }
    } else {
      KeyInTail(s, key, key(x));
      InsertUniqueFails(s[1..], x, key);
      hide Before, HasKey;
    }
  }

  lemma {:induction false} InsertUniqueAdds<T>(s: seq<T>, x: T, key: T -> ByteString)
    ensures InsertUnique(s, x, key).Some? ==>
              multiset(InsertUnique(s, x, key).value) == multiset(s) + multiset{x}
  {
    if s == [] || key(s[0]) == key(x) {
    } else if Before(key(x), key(s[0])) {
      assert multiset([x] + s) == multiset{x} + multiset(s);
    } else {
      InsertUniqueAdds(s[1..], x, key);
      assert s == [s[0]] + s[1..];
    }
    hide Before;
  }

  lemma {:induction false} InsertUniqueSorts<T>(s: seq<T>, x: T, key: T -> ByteString)
    requires Sorted(s, key)
    ensures InsertUnique(s, x, key).Some? ==> Sorted(InsertUnique(s, x, key).value, key)
  {
    if s == [] || key(s[0]) == key(x) {
    } else if Before(key(x), key(s[0])) {
      forall i | 0 <= i < |s|
        ensures Before(key(x), key(s[i]))
      {
        if i > 0 {
          BeforeIsTransitive(key(x), key(s[0]), key(s[i]));
        }
      }
    } else {
      var rest := s[1..];
      InsertUniqueSorts(rest, x, key);
      InsertUniqueAdds(rest, x, key);
      BeforeIsTotal(key(x), key(s[0]));
      if InsertUnique(rest, x, key).Some? {
        var r := InsertUnique(rest, x, key).value;
        forall i | 0 <= i < |r|
          ensures Before(key(s[0]), key(r[i]))
        {
          assert r[i] in multiset(r);
          assert r[i] == x || r[i] in rest;
        }
      }
      hide Before;
    }
  }

  /** Insertion fails exactly if the key is taken; otherwise it adds the element in order. */
  lemma InsertUniqueKeepsOrder<T>(s: seq<T>, x: T, key: T -> ByteString)
    requires Sorted(s, key)
    ensures InsertUnique(s, x, key).None? <==> HasKey(s, key, key(x))
    ensures InsertUnique(s, x, key).Some? ==>
              var r := InsertUnique(s, x, key).value;
              Sorted(r, key) && multiset(r) == multiset(s) + multiset{x}
  {
    InsertUniqueFails(s, x, key);
    InsertUniqueAdds(s, x, key);
    InsertUniqueSorts(s, x, key);
    hide InsertUnique, Sorted, HasKey;
  }

  lemma HeadIsElement<T>(s: seq<T>)
    ensures s == [] || s[0] in s
  {
  }

  /** A sorted sequence is determined by which elements it has. */
  lemma {:induction false} SortedByElements<T>(a: seq<T>, b: seq<T>, key: T -> ByteString)
    requires Sorted(a, key) && Sorted(b, key)
    requires forall x | x in a + b :: x in a && x in b
    ensures a == b
    decreases |a|
  {
    if a == [] {
      HeadIsElement(b);
    } else {
      assert a[0] in a + b;
      var i :| 0 <= i < |b| && b[i] == a[0];
      assert b[0] in a + b;
      var j :| 0 <= j < |a| && a[j] == b[0];
      if i > 0 && j > 0 {
        BeforeIsAsymmetric(key(b[0]), key(b[i]));
      }
      assert a[0] == b[0];
      assert a == [a[0]] + a[1..] && b == [b[0]] + b[1..];
      forall x | x in a[1..] + b[1..]
        ensures x in a[1..] && x in b[1..]
      {
        assert x in a + b;
        BeforeIsIrreflexive(key(a[0]));
        assert x != a[0];
      }
      SortedByElements(a[1..], b[1..], key);
    }
  }

  /** A sorted sequence is determined by its elements. */
  lemma SortedIsCanonical<T>(a: seq<T>, b: seq<T>, key: T -> ByteString)
    requires Sorted(a, key) && Sorted(b, key) && multiset(a) == multiset(b)
    ensures a == b
  {
    forall x | x in a + b
      ensures x in a && x in b
    {
      assert x in a <==> x in multiset(a);
      assert x in b <==> x in multiset(b);
    }
    SortedByElements(a, b, key);
  }
}
