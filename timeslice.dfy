/** TimeSlice: a slice of instants with the three methods that sort.Sort calls,
    and a sort over them. The slice's backing array is shared with the caller,
    so sorting happens in place. */
module TimeSlice {
  import opened GoTime

  /** ts.Len(): the number of elements. */
  function Len(ts: array<Time>): (n: int)
    ensures n == |ts[..]|
  {
    ts.Length
  }

  /** ts.Less(i, j): element i is strictly before element j. */
  predicate Less(ts: array<Time>, i: int, j: int)
    requires 0 <= i < ts.Length && 0 <= j < ts.Length
    reads ts
  {
    Before(ts[i], ts[j])
  }

  /** Less is the strict order Before read through the slice: irreflexive, asymmetric, transitive. */
  lemma LessIsStrictOrder(ts: array<Time>, i: int, j: int, k: int)
    requires 0 <= i < ts.Length && 0 <= j < ts.Length && 0 <= k < ts.Length
    ensures Less(ts, i, j) <==> ts[i].ns < ts[j].ns
    ensures !Less(ts, i, i)
    ensures Less(ts, i, j) ==> !Less(ts, j, i)
    ensures Less(ts, i, j) && Less(ts, j, k) ==> Less(ts, i, k)
  {
    BeforeIsStrictOrder(ts[i], ts[j], ts[k]);
  }

  /** The contents of a slice after exchanging elements i and j. */
  function Swapped(s: seq<Time>, i: int, j: int): (r: seq<Time>)
    requires 0 <= i < |s| && 0 <= j < |s|
    ensures |r| == |s| && r[i] == s[j] && r[j] == s[i]
    ensures forall k :: 0 <= k < |s| && k != i && k != j ==> r[k] == s[k]
  {
    s[i := s[j]][j := s[i]]
  }

  /** An exchange keeps the length and the multiset of elements. */
  lemma SwappedIsPermutation(s: seq<Time>, i: int, j: int)
    requires 0 <= i < |s| && 0 <= j < |s|
    ensures multiset(Swapped(s, i, j)) == multiset(s)
  {
    var t := s[i := s[j]];
    assert multiset(t) == multiset(s) - multiset{s[i]} + multiset{s[j]};
    assert multiset(t[j := s[i]]) == multiset(t) - multiset{t[j]} + multiset{s[i]};
  }

  /** Exchanging the same two elements twice restores the slice. */
  lemma SwappedTwice(s: seq<Time>, i: int, j: int)
    requires 0 <= i < |s| && 0 <= j < |s|
    ensures Swapped(Swapped(s, i, j), i, j) == s
  {
    var r := Swapped(Swapped(s, i, j), i, j);
    assert forall k :: 0 <= k < |s| ==> r[k] == s[k];
  }

  /** ts.Swap(i, j): exchange elements i and j in place. */
  method Swap(ts: array<Time>, i: int, j: int)
    requires 0 <= i < ts.Length && 0 <= j < ts.Length
    modifies ts
    ensures ts[..] == Swapped(old(ts[..]), i, j)
    ensures multiset(ts[..]) == multiset(old(ts[..]))
  {
    SwappedIsPermutation(ts[..], i, j);
    ts[i], ts[j] := ts[j], ts[i];
  }

  /** Ascending by instant (ties in any order). */
  ghost predicate Sorted(s: seq<Time>) {
    forall i, j :: 0 <= i < j < |s| ==> s[i].ns <= s[j].ns
  }

  /** Stand-in for sort.Sort(ts): sorts in place using only Len, Less and Swap.
      Go's algorithm orders equal instants differently; only the result being a
      sorted permutation is relied upon. */
  method Sort(ts: array<Time>)
    modifies ts
    ensures Sorted(ts[..])
    ensures multiset(ts[..]) == multiset(old(ts[..]))
  {
    var i := 1;
    while i < Len(ts)
      invariant 1 <= i || ts.Length == 0
      invariant forall p, q :: 0 <= p < q < i && q < ts.Length ==> ts[p].ns <= ts[q].ns
      invariant multiset(ts[..]) == multiset(old(ts[..]))
    {
      var j := i;
      while 0 < j && Less(ts, j, j - 1)
        invariant 0 <= j <= i < ts.Length
        invariant forall p, q :: 0 <= p < q <= i && p != j && q != j ==> ts[p].ns <= ts[q].ns
        invariant forall q :: j < q <= i ==> ts[j].ns < ts[q].ns
        invariant multiset(ts[..]) == multiset(old(ts[..]))
      {
        Swap(ts, j, j - 1);
        j := j - 1;
      }
      i := i + 1;
    }
  }
}
