/** Which objects the frame tests against each other: every unordered pair
    of list positions, lower position first, and the overlap test on two
    circles. */
module Pairing {
  import opened Bodies

  /** Strict lexicographic order on index pairs. */
  predicate LexLess(p: (nat, nat), q: (nat, nat))
  {
    p.0 < q.0 || (p.0 == q.0 && p.1 < q.1)
  }

  /** The pairs that object i forms with the objects after it in a list of n. */
  function Row(i: nat, n: nat): seq<(nat, nat)>
  {
    var len := if i < n then n - i - 1 else 0;
    seq(len, k requires 0 <= k < len => (i, i + 1 + k))
  }

  /** The rows of objects i, i + 1, ..., n - 1, in that order. */
  function PairsFrom(i: nat, n: nat): seq<(nat, nat)>
    decreases n - i
  {
    if i >= n then [] else Row(i, n) + PairsFrom(i + 1, n)
  }

  /** The list of pairs a frame builds from a list of n objects: each object
      with each later one, in list order. */
  function Pairs(n: nat): seq<(nat, nat)>
  {
    PairsFrom(0, n)
  }

  lemma {:induction false} PairsFromLength(i: nat, n: nat)
    requires i <= n
    ensures 2 * |PairsFrom(i, n)| == (n - i) * (n - i - 1)
    decreases n - i
  {
    if i < n {
      PairsFromLength(i + 1, n);
      var m := n - i;
      assert |Row(i, n)| == m - 1;
      assert (m - 1) * (m - 2) + 2 * (m - 1) == m * (m - 1);
    }
  }

  lemma {:induction false} PairsFromBounds(i: nat, n: nat)
    ensures forall k :: 0 <= k < |PairsFrom(i, n)| ==> i <= PairsFrom(i, n)[k].0 < PairsFrom(i, n)[k].1 < n
    decreases n - i
  {
    if i < n {
      PairsFromBounds(i + 1, n);
      var all, r, rest := PairsFrom(i, n), Row(i, n), PairsFrom(i + 1, n);
      assert all == r + rest;
      forall k | 0 <= k < |all|
        ensures i <= all[k].0 < all[k].1 < n
      {
        if k >= |r| {
          assert all[k] == rest[k - |r|];
        }
      }
    }
  }

  lemma {:induction false} PairsFromOrdered(i: nat, n: nat)
    ensures forall a, b :: 0 <= a < b < |PairsFrom(i, n)| ==> LexLess(PairsFrom(i, n)[a], PairsFrom(i, n)[b])
    decreases n - i
  {
    if i < n {
      PairsFromOrdered(i + 1, n);
      PairsFromBounds(i + 1, n);
      var all, r, rest := PairsFrom(i, n), Row(i, n), PairsFrom(i + 1, n);
      assert all == r + rest;
      forall a, b | 0 <= a < b < |all|
        ensures LexLess(all[a], all[b])
      {
        if b < |r| {
        } else if a < |r| {
          assert all[b] == rest[b - |r|];
        } else {
          assert all[a] == rest[a - |r|];
          assert all[b] == rest[b - |r|];
        }
      }
    }
  }

  lemma {:induction false} PairsFromComplete(i: nat, n: nat, p: (nat, nat))
    requires i <= p.0 < p.1 < n
    ensures p in PairsFrom(i, n)
    decreases n - i
  {
    var r, rest := Row(i, n), PairsFrom(i + 1, n);
    assert PairsFrom(i, n) == r + rest;
    if p.0 == i {
      assert r[p.1 - i - 1] == p;
    } else {
      PairsFromComplete(i + 1, n, p);
    }
  }

  /** The pair list of n objects holds n(n-1)/2 pairs; each is a pair of
      positions i < j < n; every such pair is in it; and the list is in
      strictly increasing lexicographic order, so each pair occurs once. */
  lemma PairsEnumeration(n: nat)
    ensures 2 * |Pairs(n)| == n * (n - 1)
    ensures forall k :: 0 <= k < |Pairs(n)| ==> Pairs(n)[k].0 < Pairs(n)[k].1 < n
    ensures forall i: nat, j: nat :: i < j < n ==> (i, j) in Pairs(n)
    ensures forall a, b :: 0 <= a < b < |Pairs(n)| ==> LexLess(Pairs(n)[a], Pairs(n)[b])
    ensures forall a, b :: 0 <= a < |Pairs(n)| && 0 <= b < |Pairs(n)| && Pairs(n)[a] == Pairs(n)[b] ==> a == b
  {
    PairsFromLength(0, n);
    PairsFromBounds(0, n);
    PairsFromOrdered(0, n);
    forall i: nat, j: nat | i < j < n
      ensures (i, j) in Pairs(n)
    {
      PairsFromComplete(0, n, (i, j));
    }
  }

  /** The overlap test, without the square root: the centres are no farther
      apart than the sum of the radii. */
  predicate Overlapping(a: BodyState, b: BodyState)
  {
    var dx, dy, reach := a.x - b.x, a.y - b.y, a.size + b.size;
    0.0 <= reach && dx * dx + dy * dy <= reach * reach
  }

  /** For d the distance between the centres (the non-negative root of the
      squared distance), the squared test agrees with the test
      d <= a.size + b.size. */
  lemma OverlapIsDistanceTest(a: BodyState, b: BodyState, d: real)
    requires 0.0 <= d && d * d == (a.x - b.x) * (a.x - b.x) + (a.y - b.y) * (a.y - b.y)
    ensures Overlapping(a, b) <==> d <= a.size + b.size
  {
    var reach := a.size + b.size;
    assert Overlapping(a, b) <==> 0.0 <= reach && d * d <= reach * reach;
    if 0.0 <= reach {
      if d <= reach {
        SquareMonotone(d, reach);
      } else {
        SquareStrictlyMonotone(reach, d);
      }
    }
  }

  lemma SquareMonotone(u: real, v: real)
    requires 0.0 <= u <= v
    ensures u * u <= v * v
  {
    assert u * u <= u * v;
  }

  lemma SquareStrictlyMonotone(u: real, v: real)
    requires 0.0 <= u < v
    ensures u * u < v * v
  {
    var uu, uv, vv := u * u, u * v, v * v;
    assert uu <= uv;
    assert uv < vv;
  }
}
