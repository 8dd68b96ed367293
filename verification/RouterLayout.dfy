/**
 The layout of an instance: a box of (dp, pp, tp) coordinates, and the lexicographic numbering
 the router gives its members.
 */
module RouterLayout {
  import opened Arithmetic

  datatype Sizes = Sizes(dp: int, pp: int, tp: int)
  datatype Coord = Coord(dp: int, pp: int, tp: int)

  predicate InBox(z: Sizes, x: Coord) {
    0 <= x.dp < z.dp && 0 <= x.pp < z.pp && 0 <= x.tp < z.tp
  }

  predicate Positive(z: Sizes) { z.dp > 0 && z.pp > 0 && z.tp > 0 }

  function WorldSize(z: Sizes): int { z.dp * z.pp * z.tp }

  /** The number of members before row (dp, pp). */
  function RowStart(z: Sizes, dp: int, pp: int): int { (dp * z.pp + pp) * z.tp }

  function RankOf(z: Sizes, x: Coord): int { RowStart(z, x.dp, x.pp) + x.tp }

  /** The member with number `k`. */
  function Member(z: Sizes, k: int): Coord
    requires Positive(z)
  {
    Coord(k / z.tp / z.pp, k / z.tp % z.pp, k % z.tp)
  }

  /** Every member has a number below the world size, and it is its own. */
  lemma MemberOfRank(z: Sizes, x: Coord)
    requires InBox(z, x)
    ensures 0 <= RankOf(z, x) < WorldSize(z) && Member(z, RankOf(z, x)) == x
  {
    var row := x.dp * z.pp + x.pp;
    Below(x.dp, z.dp, x.pp, z.pp);
    Below(row, z.dp * z.pp, x.tp, z.tp);
    DivModUnique(RankOf(z, x), row, x.tp, z.tp);
    DivModUnique(row, x.dp, x.pp, z.pp);
  }

  /** Every number below the world size belongs to a member. */
  lemma RankOfMember(z: Sizes, k: int)
    requires Positive(z) && 0 <= k < WorldSize(z)
    ensures InBox(z, Member(z, k)) && RankOf(z, Member(z, k)) == k
  {
    Quotient(k, z.dp * z.pp, z.tp);
    Quotient(k / z.tp, z.dp, z.pp);
  }

  /** The numbering follows the order of dp, then pp, then tp. */
  lemma RanksOrdered(z: Sizes, x: Coord, y: Coord)
    requires InBox(z, x) && InBox(z, y)
    ensures RankOf(z, x) < RankOf(z, y) <==>
            x.dp < y.dp || (x.dp == y.dp && (x.pp < y.pp || (x.pp == y.pp && x.tp < y.tp)))
  {
    LexBefore(z, x, y);
    LexBefore(z, y, x);
  }

  lemma LexBefore(z: Sizes, x: Coord, y: Coord)
    requires InBox(z, x) && InBox(z, y)
    ensures x.dp < y.dp || (x.dp == y.dp && (x.pp < y.pp || (x.pp == y.pp && x.tp < y.tp))) ==>
            RankOf(z, x) < RankOf(z, y)
  {
    if x.dp < y.dp {
      Below(x.dp, y.dp, x.pp, z.pp);
      assert y.dp * z.pp <= y.dp * z.pp + y.pp;
      Below(x.dp * z.pp + x.pp, y.dp * z.pp + y.pp, x.tp, z.tp);
    } else if x.dp == y.dp && x.pp < y.pp {
      assert 0 <= x.dp * z.pp + x.pp by { Below(x.dp, z.dp, x.pp, z.pp); }
      Below(x.dp * z.pp + x.pp, y.dp * z.pp + y.pp, x.tp, z.tp);
    }
  }

  // ---------------------------------------------------------------- the box as a set

  /** The first `n` members. */
  function Members(z: Sizes, n: nat): set<Coord>
    requires Positive(z)
  {
    if n == 0 then {} else Members(z, n - 1) + {Member(z, n - 1)}
  }

  lemma {:induction false} MembersCounted(z: Sizes, n: nat)
    requires Positive(z) && n <= WorldSize(z)
    ensures |Members(z, n)| == n
    ensures forall x :: x in Members(z, n) <==> InBox(z, x) && RankOf(z, x) < n
  {
    if n > 0 {
      MembersCounted(z, n - 1);
      RankOfMember(z, n - 1);
      forall x | InBox(z, x) && RankOf(z, x) == n - 1 ensures x == Member(z, n - 1) {
        MemberOfRank(z, x);
      }
    } else {
      forall x | InBox(z, x) ensures RankOf(z, x) >= 0 {
        MemberOfRank(z, x);
      }
    }
  }

  /** All members of the box. */
  function Box(z: Sizes): set<Coord> {
    set dp, pp, tp | 0 <= dp < z.dp && 0 <= pp < z.pp && 0 <= tp < z.tp :: Coord(dp, pp, tp)
  }

  lemma BoxIsBox(z: Sizes)
    ensures forall x :: x in Box(z) <==> InBox(z, x)
    ensures Positive(z) ==> |Box(z)| == WorldSize(z) > 0
    ensures !Positive(z) ==> Box(z) == {}
  {
    forall x | InBox(z, x) ensures x in Box(z) {
      assert x == Coord(x.dp, x.pp, x.tp);
    }
    if Positive(z) {
      MemberOfRank(z, Coord(0, 0, 0));
      MembersCounted(z, WorldSize(z));
      forall x | InBox(z, x) ensures RankOf(z, x) < WorldSize(z) {
        MemberOfRank(z, x);
      }
      assert Box(z) == Members(z, WorldSize(z));
    }
  }

  /** A set of coordinates inside the box with as many elements as the box is the box. */
  lemma {:induction false} SubsetOfSameSize<T>(a: set<T>, b: set<T>)
    requires a <= b && |a| == |b|
    ensures a == b
  {
    if x :| x in b && x !in a {
      assert a <= b - {x};
      SubsetCard(a, b - {x});
    }
  }

  lemma {:induction false} SubsetCard<T>(a: set<T>, b: set<T>)
    requires a <= b
    ensures |a| <= |b|
    decreases a
  {
    if x :| x in a { SubsetCard(a - {x}, b - {x}); }
  }
}
