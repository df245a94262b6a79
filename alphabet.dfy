/** The 26-letter alphabet "ABCDEFGHIJKLMNOPQRSTUVWXYZ", letter indices and wirings over it. */
module Alphabet {

  /** Membership in the string "ABCDEFGHIJKLMNOPQRSTUVWXYZ". */
  predicate IsLetter(c: char) {
    'A' <= c <= 'Z'
  }

  /** `alphabet.index(c)` for an upper-case letter. */
  function Index(c: char): (i: int)
    requires IsLetter(c)
    ensures 0 <= i < 26
  {
    c as int - 'A' as int
  }

  /** `alphabet[i]`. */
  function Letter(i: int): (c: char)
    requires 0 <= i < 26
    ensures IsLetter(c)
    ensures Index(c) == i
  {
    ('A' as int + i) as char
  }

  lemma LetterOfIndex(c: char)
    requires IsLetter(c)
    ensures Letter(Index(c)) == c
  {
  }

  /** Positions i and j of `w` hold different letters unless they are the same position. */
  predicate DistinctAt(w: string, i: int, j: int)
    requires |w| == 26 && 0 <= i < 26 && 0 <= j < 26
  {
    i != j ==> w[i] != w[j]
  }


  /** A rotor wiring: a one-to-one table from the alphabet onto itself. */
  predicate IsPermutation(w: string) {
    && |w| == 26
    && (forall i :: 0 <= i < 26 ==> IsLetter(w[i]))
    && (forall i, j :: 0 <= i < 26 && 0 <= j < 26 ==> DistinctAt(w, i, j))
    && Covers(w)
  }

  /** A wiring every entry of which is a letter, so that it can be indexed and read back. */
  predicate IsWiring(w: string) {
    |w| == 26 && forall i :: 0 <= i < 26 ==> IsLetter(w[i])
  }

  /** A reflector wiring: an involution of the alphabet without fixed points. */
  predicate IsReflector(w: string) {
    && IsWiring(w)
    && (forall i :: 0 <= i < 26 ==> w[Index(w[i])] == Letter(i))
    && (forall i :: 0 <= i < 26 ==> w[i] != Letter(i))
  }

  /** `mapping.index(c)`: the first position of `c` in `s`. */
  function IndexOf(s: string, c: char): (i: nat)
    requires c in s
    ensures i < |s| && s[i] == c
    ensures forall k :: 0 <= k < i ==> s[k] != c
  {
    IndexFrom(s, c, 0)
  }

  /** The first position of `c` in `s` at or after `i`. */
  function IndexFrom(s: string, c: char, i: nat): (j: nat)
    requires exists k :: i <= k < |s| && s[k] == c
    ensures i <= j < |s| && s[j] == c
    ensures forall k :: i <= k < j ==> s[k] != c
    decreases |s| - i
  {
    if s[i] == c then i else IndexFrom(s, c, i + 1)
  }

  /** `''.join(alphabet[w.index(a)] for a in alphabet)`: entry k names the position of letter k in `w`. */
  function Inverse(w: string): (inv: string)
    requires IsPermutation(w)
    ensures IsWiring(inv)
    ensures forall k :: 0 <= k < 26 ==> w[Index(inv[k])] == Letter(k)
  {
    seq(26, k requires 0 <= k < 26 => assert Letter(k) in w; Letter(IndexOf(w, Letter(k))))
  }

  /** A letter occurs at one position only. */
  lemma SamePosition(w: string, i: int, j: int)
    requires IsPermutation(w) && 0 <= i < 26 && 0 <= j < 26
    requires w[i] == w[j]
    ensures i == j
  {
    assert DistinctAt(w, i, j);
  }

  /** Reading the inverse at the letter found at position j gives back position j. */
  lemma InverseUndoes(w: string, j: int)
    requires IsPermutation(w) && 0 <= j < 26
    ensures Inverse(w)[Index(w[j])] == Letter(j)
  {
    var c := w[j];
    LetterOfIndex(c);
    SamePosition(w, IndexOf(w, c), j);
  }

  /** Every letter of the alphabet occurs somewhere in `w`. */
  predicate Covers(w: string) {
    forall k :: 0 <= k < 26 ==> Letter(k) in w
  }

  /** The positions 0 .. n-1. */
  function Slots(n: nat): (r: set<int>)
    ensures forall x :: x in r <==> 0 <= x < n
    ensures |r| == n
  {
    if n == 0 then {} else Slots(n - 1) + {n - 1}
  }

  /** Where letter k first occurs in a wiring that covers the alphabet. */
  function Position(w: string, k: int): (p: int)
    requires 0 <= k < 26 && Letter(k) in w
    ensures 0 <= p < |w| && w[p] == Letter(k)
  {
    IndexOf(w, Letter(k))
  }

  /** The positions of the first n letters; distinct letters sit at distinct positions. */
  function Positions(w: string, n: nat): (r: set<int>)
    requires n <= 26 && Covers(w)
    ensures forall x :: x in r ==> 0 <= x < |w|
    ensures forall x :: x in r ==> exists k :: 0 <= k < n && Position(w, k) == x
    ensures |r| == n
  {
    if n == 0 then {} else Positions(w, n - 1) + {Position(w, n - 1)}
  }

  lemma SubsetOfSameSize(a: set<int>, b: set<int>)
    requires a <= b && |a| == |b|
    ensures a == b
  {
    assert |b - a| == |b| - |a|;
  }

  /** Pigeonhole: the 26 letters occupy all 26 positions. */
  lemma AllPositionsHit(w: string)
    requires |w| == 26 && Covers(w)
    ensures forall i :: 0 <= i < 26 ==> i in Positions(w, 26)
  {
    SubsetOfSameSize(Positions(w, 26), Slots(26));
  }

  lemma PositionHolds(w: string, i: int)
    requires |w| == 26 && Covers(w) && 0 <= i < 26
    ensures exists k :: 0 <= k < 26 && Position(w, k) == i
  {
    AllPositionsHit(w);
    assert i in Positions(w, 26);
  }

  lemma DistinctEntries(w: string, i: int, j: int)
    requires |w| == 26 && Covers(w) && 0 <= i < j < 26
    ensures w[i] != w[j]
  {
    PositionHolds(w, i);
    PositionHolds(w, j);
    var ki :| 0 <= ki < 26 && Position(w, ki) == i;
    var kj :| 0 <= kj < 26 && Position(w, kj) == j;
  }

  /** A 26-character string in which every letter occurs is a permutation of the alphabet. */
  lemma PermutationByCoverage(w: string)
    requires |w| == 26 && Covers(w)
    ensures IsPermutation(w)
  {
    forall i | 0 <= i < 26
      ensures IsLetter(w[i])
    {
      PositionHolds(w, i);
    }
    forall i, j | 0 <= i < 26 && 0 <= j < 26
      ensures DistinctAt(w, i, j)
    {
      if i < j {
        DistinctEntries(w, i, j);
      } else if j < i {
        DistinctEntries(w, j, i);
      }
    }
  }

  /** Whenever position i holds letter j, position j holds letter i. */
  predicate SwapsPairs(w: string)
    requires |w| == 26
  {
    forall i, j :: 0 <= i < 26 && 0 <= j < 26 && w[i] == Letter(j) ==> w[j] == Letter(i)
  }

  /** No position holds its own letter. */
  predicate NoFixedLetter(w: string)
    requires |w| == 26
  {
    forall i :: 0 <= i < 26 ==> w[i] != Letter(i)
  }

  lemma ReflectorByPairs(w: string)
    requires |w| == 26 && Covers(w) && SwapsPairs(w) && NoFixedLetter(w)
    ensures IsReflector(w)
  {
    PermutationByCoverage(w);
    forall i | 0 <= i < 26
      ensures w[Index(w[i])] == Letter(i)
    {
      LetterOfIndex(w[i]);
    }
  }
}
