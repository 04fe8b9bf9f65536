/** Sequence facts used throughout, and the in-place shuffle of Python's
    `random.shuffle`, with the random numbers supplied by the caller. */
module Collections {

  /** No element occurs twice: player lists keyed into dictionaries. */
  predicate Distinct<T(==)>(s: seq<T>) {
    forall i, j :: 0 <= i < j < |s| ==> s[i] != s[j]
  }

  /** `list.index`: the first position holding x. */
  function IndexOf<T(==)>(s: seq<T>, x: T): (i: nat)
    requires x in s
    ensures i < |s| && s[i] == x
    ensures x !in s[..i]
  {
    if s[0] == x then 0
    else
      var k := IndexOf(s[1..], x);
      assert s[1..][..k] == s[1..k + 1];
      k + 1
  }

  /** The first position holding x is the only one with no x before it. */
  lemma IndexOfUnique<T>(s: seq<T>, x: T, i: nat)
    requires i < |s| && s[i] == x && x !in s[..i]
    ensures IndexOf(s, x) == i
  {
    var j := IndexOf(s, x);
    assert forall k :: 0 <= k < i ==> s[..i][k] == s[k];
    assert forall k :: 0 <= k < j ==> s[..j][k] == s[k];
  }

  /** In a list without repeats, each element is first found at its own
      position. */
  lemma DistinctIndex<T>(s: seq<T>, i: nat)
    requires Distinct(s) && i < |s|
    ensures IndexOf(s, s[i]) == i
  {
  }

  /** A source of random numbers: the k-th number drawn. */
  type Rng = nat -> nat

  /** Swapping positions i and j. */
  function Swap<T>(s: seq<T>, i: nat, j: nat): (r: seq<T>)
    requires i < |s| && j < |s|
    ensures |r| == |s| && r[i] == s[j] && r[j] == s[i]
    ensures forall k :: 0 <= k < |s| && k != i && k != j ==> r[k] == s[k]
    ensures multiset(r) == multiset(s)
  {
    s[i := s[j]][j := s[i]]
  }

  /** The shuffle of CPython's `random.shuffle`: for i from |s|-1 down to 1,
      swap position i with a position j in 0..i drawn from `rng`. Whatever
      numbers `rng` yields, the result is a permutation of the input. */
  method Shuffle<T(==)>(s: seq<T>, rng: Rng) returns (r: seq<T>)
    ensures |r| == |s|
    ensures multiset(r) == multiset(s)
    ensures Distinct(s) ==> Distinct(r)
  {
    r := s;
    var i := |s|;
    while i > 1
      invariant 0 <= i <= |s|
      invariant |r| == |s|
      invariant multiset(r) == multiset(s)
      invariant Distinct(s) ==> Distinct(r)
    {
      i := i - 1;
      var j := rng(|s| - 1 - i) % (i + 1);
      r := Swap(r, i, j);
    }
  }
}
