/** Facts about sequences without repeated elements, used to relate the
    rows the card renders (a sequence, in layout order) to the sets of
    actions and notices it offers. */
module Seqs {

  /** No element occurs twice in `s`. */
  predicate Distinct<T(==)>(s: seq<T>)
  {
    forall i, j :: 0 <= i < j < |s| ==> s[i] != s[j]
  }

  /** The set of elements of `s`. */
  function Elements<T(==)>(s: seq<T>): set<T>
  {
    set x | x in s
  }

  /** `s`, followed by `x` when `c` holds: one conditionally rendered row. */
  function AppendIf<T(==,!new)>(s: seq<T>, c: bool, x: T): (t: seq<T>)
    ensures |t| <= |s| + 1
    ensures forall y :: y in t <==> y in s || (c && y == x)
    ensures Distinct(s) && x !in s ==> Distinct(t)
  {
    if c then s + [x] else s
  }

  /** A sequence without repetitions has exactly as many elements as its
      element set: rendering each member of a set once gives one row per
      member. */
  lemma {:induction false} DistinctElementsCard<T>(s: seq<T>)
    requires Distinct(s)
    ensures |Elements(s)| == |s|
  {
    if s != [] {
      var tail := s[1..];
      assert Distinct(tail) by {
        forall i, j | 0 <= i < j < |tail| ensures tail[i] != tail[j] {
          assert tail[i] == s[i + 1] && tail[j] == s[j + 1];
        }
      }
      DistinctElementsCard(tail);
      assert s[0] !in tail by {
        forall k | 0 <= k < |tail| ensures tail[k] != s[0] {
          assert tail[k] == s[k + 1];
        }
      }
      assert Elements(s) == Elements(tail) + {s[0]} by {
        assert s == [s[0]] + tail;
      }
    }
  }
}
