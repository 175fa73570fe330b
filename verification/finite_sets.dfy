/** Counting in finite sets. */
module FiniteSets {
  lemma SubsetSize<T>(a: set<T>, b: set<T>)
    requires a <= b
    ensures |a| <= |b| && (|a| == |b| ==> a == b)
  {
    assert b == a + (b - a);
  }

  ghost function Elements<T>(s: seq<T>): set<T> { set x | x in s }

  lemma {:induction false} CountDistinct<T>(s: seq<T>)
    requires forall i, j :: 0 <= i < j < |s| ==> s[i] != s[j]
    ensures |Elements(s)| == |s|
  {
    if s != [] {
      CountDistinct(s[1..]);
      assert s[0] !in Elements(s[1..]);
      assert Elements(s) == Elements(s[1..]) + {s[0]};
    }
  }

  /** There is always a number beyond the ones in use. */
  lemma {:induction false} NewNumber(used: set<nat>) returns (n: nat)
    ensures forall m :: m in used ==> m < n
  {
    if used == {} {
      n := 0;
    } else {
      var w :| w in used;
      var least := NewNumber(used - {w});
      n := if least <= w then w + 1 else least;
      forall m | m in used ensures m < n { assert m == w || m in used - {w}; }
    }
  }
}
