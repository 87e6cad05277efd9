/** Sequence helpers shared by the model: the element set of a sequence,
    distinctness, and the position of a first occurrence. */
module Sequences {

  /** The elements of a sequence, as a set. */
  function Elems<T>(s: seq<T>): set<T>
  {
    set x | x in s
  }

  /** No element occurs twice. */
  predicate NoDuplicates<T(==)>(s: seq<T>)
  {
    forall a, b :: 0 <= a < b < |s| ==> s[a] != s[b]
  }

  /** The position of the first occurrence of `x` in `s`. */
  function FirstIndex<T(==)>(s: seq<T>, x: T): (i: nat)
    requires x in s
    ensures i < |s| && s[i] == x && x !in s[..i]
  {
    if s[0] == x then 0
    else
      var j := FirstIndex(s[1..], x);
      assert s[..1 + j] == [s[0]] + s[1..][..j];
      1 + j
  }

  /** A first occurrence is unique: any position holding `x` with no `x`
      before it is FirstIndex. */
  lemma FirstIndexUnique<T>(s: seq<T>, x: T, i: nat)
    requires i < |s| && s[i] == x && x !in s[..i]
    ensures FirstIndex(s, x) == i
  {
  }

  /** Extending a sequence does not move the first occurrence of an element
      it already holds. */
  lemma FirstIndexPrefix<T>(s: seq<T>, t: seq<T>, x: T)
    requires x in s
    ensures x in s + t && FirstIndex(s + t, x) == FirstIndex(s, x)
  {
    var i := FirstIndex(s, x);
    assert (s + t)[..i] == s[..i];
    FirstIndexUnique(s + t, x, i);
  }

  /** Appending one element adds it to the element set. */
  lemma ElemsAppend<T>(s: seq<T>, x: T)
    ensures Elems(s + [x]) == Elems(s) + {x}
  {
    forall y | y in Elems(s + [x]) ensures y in Elems(s) + {x} {
      var k :| 0 <= k < |s + [x]| && (s + [x])[k] == y;
      if k < |s| {
        assert s[k] == y;
      }
    }
    forall y | y in Elems(s) ensures y in Elems(s + [x]) {
      var k :| 0 <= k < |s| && s[k] == y;
      assert (s + [x])[k] == y;
    }
  }

  /** The elements of a concatenation are those of both parts. */
  lemma ElemsConcat<T>(s: seq<T>, t: seq<T>)
    ensures Elems(s + t) == Elems(s) + Elems(t)
  {
    forall y | y in Elems(s + t) ensures y in Elems(s) + Elems(t) {
      var k :| 0 <= k < |s + t| && (s + t)[k] == y;
      if k < |s| {
        assert s[k] == y;
      } else {
        assert t[k - |s|] == y;
      }
    }
    forall y | y in Elems(s) + Elems(t) ensures y in Elems(s + t) {
      if y in Elems(s) {
        var k :| 0 <= k < |s| && s[k] == y;
        assert (s + t)[k] == y;
      } else {
        var k :| 0 <= k < |t| && t[k] == y;
        assert (s + t)[|s| + k] == y;
      }
    }
  }

  /** A non-empty prefix is the shorter prefix and one more element. */
  lemma PrefixStep<T>(s: seq<T>, n: nat)
    requires 0 < n <= |s|
    ensures s[..n] == s[..n - 1] + [s[n - 1]]
    ensures Elems(s[..n]) == Elems(s[..n - 1]) + {s[n - 1]}
  {
    assert s[..n] == s[..n - 1] + [s[n - 1]];
    ElemsAppend(s[..n - 1], s[n - 1]);
  }

  /** A sequence without duplicates has as many elements as its set. */
  lemma {:induction false} NoDuplicatesCard<T>(s: seq<T>)
    requires NoDuplicates(s)
    ensures |Elems(s)| == |s|
  {
    if s != [] {
      var m := |s| - 1;
      NoDuplicatesCard(s[..m]);
      assert s == s[..m] + [s[m]];
      ElemsAppend(s[..m], s[m]);
      assert s[m] !in Elems(s[..m]);
    }
  }
}
