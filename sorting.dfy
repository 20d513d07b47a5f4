/**
 * The in-place sort the viewers hand to sort.Slice. Every viewer compares a
 * key of one or two strings: the "less" function the source passes is Go's
 * string `<` on the first string and, on a tie, on the second. sort.Slice is
 * not stable, so the contract is "some sorted permutation".
 */
module Sorting {
  import opened Text

  datatype SortKey = SortKey(primary: string, secondary: string)

  /** The comparator: primary `<` decides, and on equal primaries the secondary does. */
  predicate KeyLess(a: SortKey, b: SortKey)
  {
    if LexLess(a.primary, b.primary) then true
    else if LexLess(b.primary, a.primary) then false
    else LexLess(a.secondary, b.secondary)
  }

  /** No element is strictly less than one before it. */
  ghost predicate SortedBy<T>(s: seq<T>, key: T -> SortKey)
  {
    forall i, j :: 0 <= i < j < |s| ==> !KeyLess(key(s[j]), key(s[i]))
  }

  ghost predicate SortedPermutation<T>(sorted: seq<T>, original: seq<T>, key: T -> SortKey)
  {
    SortedBy(sorted, key) && multiset(sorted) == multiset(original)
  }

  lemma LexLessAsymmetric(x: string, y: string)
    requires LexLess(x, y)
    ensures !LexLess(y, x)
  {
    if LexLess(y, x) {
      LexLessTransitive(x, y, x);
      LexLessIrreflexive(x);
    }
  }

  /** The comparator is the lexicographic order on (primary, secondary). */
  lemma KeyLessLexicographic(a: SortKey, b: SortKey)
    ensures KeyLess(a, b) <==>
      LexLess(a.primary, b.primary) || (a.primary == b.primary && LexLess(a.secondary, b.secondary))
  {
    if a.primary != b.primary {
      LexLessTotal(a.primary, b.primary);
    } else {
      LexLessIrreflexive(a.primary);
    }
  }

  lemma KeyLessIrreflexive(a: SortKey)
    ensures !KeyLess(a, a)
  {
    LexLessIrreflexive(a.primary);
    LexLessIrreflexive(a.secondary);
  }

  lemma KeyLessTransitive(a: SortKey, b: SortKey, c: SortKey)
    requires KeyLess(a, b) && KeyLess(b, c)
    ensures KeyLess(a, c)
  {
    KeyLessLexicographic(a, b);
    KeyLessLexicographic(b, c);
    KeyLessLexicographic(a, c);
    if LexLess(a.primary, b.primary) && LexLess(b.primary, c.primary) {
      LexLessTransitive(a.primary, b.primary, c.primary);
    } else if a.primary == b.primary && b.primary == c.primary {
      LexLessTransitive(a.secondary, b.secondary, c.secondary);
    }
  }

  /** Two different keys are always ordered one way or the other. */
  lemma KeyLessTotal(a: SortKey, b: SortKey)
    requires a != b
    ensures KeyLess(a, b) || KeyLess(b, a)
  {
    KeyLessLexicographic(a, b);
    KeyLessLexicographic(b, a);
    if a.primary != b.primary {
      LexLessTotal(a.primary, b.primary);
    } else {
      LexLessTotal(a.secondary, b.secondary);
    }
  }

  lemma KeyLessAsymmetric(a: SortKey, b: SortKey)
    requires KeyLess(a, b)
    ensures !KeyLess(b, a)
  {
    if KeyLess(b, a) {
      KeyLessTransitive(a, b, a);
      KeyLessIrreflexive(a);
    }
  }

  /** "Not less than" is transitive, which is what makes an insertion sort's output sorted. */
  lemma NotLessTransitive(a: SortKey, b: SortKey, c: SortKey)
    requires !KeyLess(b, a) && !KeyLess(c, b)
    ensures !KeyLess(c, a)
  {
    if KeyLess(c, a) {
      if a == b {
      } else {
        KeyLessTotal(a, b);
        KeyLessTransitive(c, a, b);
      }
    }
  }

  method Swap<T>(a: array<T>, i: int, j: int)
    requires 0 <= i < a.Length && 0 <= j < a.Length
    modifies a
    ensures a[..] == old(a[..])[i := old(a[j])][j := old(a[i])]
    ensures multiset(a[..]) == multiset(old(a[..]))
  {
    a[i], a[j] := a[j], a[i];
  }

  /** Insertion sort: a is rearranged into an order sorted by key. */
  method SortByKey<T>(a: array<T>, key: T -> SortKey)
    modifies a
    ensures SortedPermutation(a[..], old(a[..]), key)
  {
    var i := 0;
    while i < a.Length
      invariant 0 <= i <= a.Length
      invariant SortedBy(a[..i], key)
      invariant multiset(a[..]) == multiset(old(a[..]))
    {
      var j := i;
      while j > 0 && KeyLess(key(a[j]), key(a[j - 1]))
        invariant 0 <= j <= i
        invariant multiset(a[..]) == multiset(old(a[..]))
        invariant forall p, q :: 0 <= p < q <= i && p != j && q != j ==> !KeyLess(key(a[q]), key(a[p]))
        invariant forall q :: j < q <= i ==> !KeyLess(key(a[q]), key(a[j]))
      {
        KeyLessAsymmetric(key(a[j]), key(a[j - 1]));
        Swap(a, j - 1, j);
        j := j - 1;
      }
      forall p, q | 0 <= p < q <= i
        ensures !KeyLess(key(a[q]), key(a[p]))
      {
        if q == j && p < j - 1 {
          NotLessTransitive(key(a[p]), key(a[j - 1]), key(a[j]));
        }
      }
      i := i + 1;
    }
    assert a[..a.Length] == a[..];
  }
}
