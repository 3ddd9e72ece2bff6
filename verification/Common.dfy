/** What the other modules share: 32-bit counts, options and facts about finite sets. */
module Common {

  /** The number of values of the source's `uint32_t`. */
  const UINT32_MODULUS: nat := 0x1_0000_0000

  type uint32 = n: nat | n < UINT32_MODULUS

  datatype Option<+T> = None | Some(value: T)

  function Min(a: nat, b: nat): nat {
    if a <= b then a else b
  }

  lemma SubsetCardinality<T>(small: set<T>, large: set<T>)
    requires small <= large
    ensures |small| <= |large|
    ensures |small| == |large| ==> small == large
  {
    assert large == small + (large - small);
  }

  /** There is a number beyond any finite set of them. */
  lemma {:induction false} Bound(s: set<nat>) returns (n: nat)
    ensures forall t :: t in s ==> t < n
    decreases |s|
  {
    if s == {} {
      n := 0;
    } else {
      var t :| t in s;
      var m := Bound(s - {t});
      n := if t < m then m else t + 1;
      assert forall u :: u in s ==> u == t || u in s - {t};
    }
  }

  /** A set has subsets of every size up to its own. */
  lemma {:induction false} SubsetOfSize<T>(s: set<T>, n: nat) returns (r: set<T>)
    requires n <= |s|
    ensures r <= s && |r| == n
  {
    if n == 0 {
      r := {};
    } else {
      var t :| t in s;
      var rest := SubsetOfSize(s - {t}, n - 1);
      r := rest + {t};
    }
  }
}
