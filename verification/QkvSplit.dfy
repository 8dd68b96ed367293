/**
 Loading fused weights for Hunyuan V3 MTP: the interleaved QKV weight, whose rows come in
 groups of query heads followed by one key and one value head, is rearranged into q, k and v
 sections, and the loader's running offset cuts a fused weight into its shards.
 */
module QkvSplit {
  import opened Arithmetic
  import opened Common

  // ---------------------------------------------------------------- arithmetic

  lemma OneLess(a: int, n: int)
    ensures a * n == (a - 1) * n + n
  {}

  // ---------------------------------------------------------------- sections

  /** Out of each of the first `groups` groups of `stride` rows, the `width` rows from `lo` on: what
      split along the head axis and reshape to rows flatten to. */
  function Section<T>(rows: seq<T>, groups: nat, stride: nat, lo: nat, width: nat): seq<T>
    requires lo + width <= stride && groups * stride <= |rows|
  {
    if groups == 0 then []
    else
      OneLess(groups, stride);
      var start := (groups - 1) * stride + lo;
      Section(rows, groups - 1, stride, lo, width) + rows[start..start + width]
  }

  /** Each group adds its `width` rows. */
  lemma SectionGrows<T>(rows: seq<T>, groups: nat, stride: nat, lo: nat, width: nat)
    requires lo + width <= stride && 0 < groups && groups * stride <= |rows|
    ensures (groups - 1) * stride <= |rows|
    ensures |Section(rows, groups, stride, lo, width)| == |Section(rows, groups - 1, stride, lo, width)| + width
  {
    OneLess(groups, stride);
  }

  lemma {:induction false} SectionLength<T>(rows: seq<T>, groups: nat, stride: nat, lo: nat, width: nat)
    requires lo + width <= stride && groups * stride <= |rows|
    ensures |Section(rows, groups, stride, lo, width)| == groups * width
  {
    if groups > 0 {
      SectionGrows(rows, groups, stride, lo, width);
      SectionLength(rows, groups - 1, stride, lo, width);
      OneLess(groups, width);
    }
  }

  lemma {:induction false} SectionAt<T>(rows: seq<T>, groups: nat, stride: nat, lo: nat, width: nat, k: nat, x: nat)
    requires lo + width <= stride && groups * stride <= |rows| && k < groups && x < width
    ensures k * width + x < |Section(rows, groups, stride, lo, width)| && k * stride + lo + x < |rows|
    ensures Section(rows, groups, stride, lo, width)[k * width + x] == rows[k * stride + lo + x]
  {
    SectionLength(rows, groups, stride, lo, width);
    MulGap(k, groups, width);
    MulGap(k, groups, stride);
    OneLess(groups, stride);
    SectionLength(rows, groups - 1, stride, lo, width);
    if k < groups - 1 {
      SectionAt(rows, groups - 1, stride, lo, width, k, x);
    } else {
      assert Section(rows, groups, stride, lo, width)[(groups - 1) * width + x]
          == rows[(groups - 1) * stride + lo..(groups - 1) * stride + lo + width][x];
    }
  }

  // ---------------------------------------------------------------- the QKV weight

  /** The three sections of a weight whose groups hold `q` query rows, `dim` key rows and `dim` value
      rows, one after the other. */
  function Split<T>(rows: seq<T>, kvHeads: nat, stride: nat, q: nat, dim: nat): seq<T>
    requires stride == q + dim + dim && |rows| == kvHeads * stride
  {
    Section(rows, kvHeads, stride, 0, q) + Section(rows, kvHeads, stride, q, dim)
    + Section(rows, kvHeads, stride, q + dim, dim)
  }

  /** Query rows of one group. */
  function QueryWidth(attentionHeads: nat, kvHeads: nat, dim: nat): nat
    requires kvHeads > 0
  {
    attentionHeads / kvHeads * dim
  }

  /** reshape, split into (group, 1, 1), concat. None where reshape would raise. */
  function SplitQkv<T>(rows: seq<T>, attentionHeads: nat, kvHeads: nat, dim: nat): Option<seq<T>>
    requires kvHeads > 0
  {
    var q := QueryWidth(attentionHeads, kvHeads, dim);
    if |rows| != kvHeads * (q + dim + dim) then None else Some(Split(rows, kvHeads, q + dim + dim, q, dim))
  }

  /** Where the row at place `y` of group `k` ends up: queries first, then keys, then values. */
  function Destination(k: nat, y: nat, kvHeads: nat, q: nat, dim: nat): nat {
    if y < q then k * q + y
    else if y < q + dim then kvHeads * q + (k * dim + (y - q))
    else kvHeads * q + kvHeads * dim + (k * dim + (y - q - dim))
  }

  lemma Distributes(a: int, b: int, c: int, n: int)
    ensures n * (a + b + c) == n * a + n * b + n * c
  {}

  lemma SplitLength<T>(rows: seq<T>, kvHeads: nat, stride: nat, q: nat, dim: nat)
    requires stride == q + dim + dim && |rows| == kvHeads * stride
    ensures |Split(rows, kvHeads, stride, q, dim)| == |rows|
    ensures |Section(rows, kvHeads, stride, 0, q)| == kvHeads * q
    ensures |Section(rows, kvHeads, stride, q, dim)| == kvHeads * dim
    ensures |rows| == kvHeads * q + kvHeads * dim + kvHeads * dim
  {
    SectionLength(rows, kvHeads, stride, 0, q);
    SectionLength(rows, kvHeads, stride, q, dim);
    SectionLength(rows, kvHeads, stride, q + dim, dim);
    Distributes(q, dim, dim, kvHeads);
  }

  /** Every row of the fused weight is moved to its destination. */
  lemma SplitMovesRows<T>(rows: seq<T>, kvHeads: nat, stride: nat, q: nat, dim: nat, k: nat, y: nat, from: nat, to: nat)
    requires stride == q + dim + dim && |rows| == kvHeads * stride
    requires k < kvHeads && y < stride
    requires from == k * stride + y && to == Destination(k, y, kvHeads, q, dim)
    ensures to < |Split(rows, kvHeads, stride, q, dim)| == |rows| && from < |rows|
    ensures Split(rows, kvHeads, stride, q, dim)[to] == rows[from]
  {
    SplitLength(rows, kvHeads, stride, q, dim);
    MulGap(k, kvHeads, stride);
    DestinationRegion(k, y, kvHeads, q, dim);
    if y < q { SectionAt(rows, kvHeads, stride, 0, q, k, y); }
    else if y < q + dim { SectionAt(rows, kvHeads, stride, q, dim, k, y - q); }
    else { SectionAt(rows, kvHeads, stride, q + dim, dim, k, y - q - dim); }
  }

  lemma DestinationRegion(k: nat, y: nat, kvHeads: nat, q: nat, dim: nat)
    requires k < kvHeads && y < q + dim + dim
    ensures var to, a, b := Destination(k, y, kvHeads, q, dim), kvHeads * q, kvHeads * dim;
            if y < q then to < a else if y < q + dim then a <= to < a + b else a + b <= to < a + b + b
  {
    MulGap(k, kvHeads, q);
    MulGap(k, kvHeads, dim);
  }

  /** No two rows meet. */
  lemma DestinationInjective(k: nat, y: nat, k': nat, y': nat, kvHeads: nat, q: nat, dim: nat)
    requires k < kvHeads && k' < kvHeads && y < q + dim + dim && y' < q + dim + dim
    requires Destination(k, y, kvHeads, q, dim) == Destination(k', y', kvHeads, q, dim)
    ensures k == k' && y == y'
  {
    DestinationRegion(k, y, kvHeads, q, dim);
    DestinationRegion(k', y', kvHeads, q, dim);
    if y < q { MixedRadix(k, y, k', y', q); }
    else if y < q + dim { MixedRadix(k, y - q, k', y' - q, dim); }
    else { MixedRadix(k, y - q - dim, k', y' - q - dim, dim); }
  }

  /** Every output row has a source, so the rearrangement is a bijection on rows. */
  lemma DestinationOnto(o: nat, kvHeads: nat, q: nat, dim: nat) returns (k: nat, y: nat)
    requires o < kvHeads * (q + dim + dim)
    ensures k < kvHeads && y < q + dim + dim && Destination(k, y, kvHeads, q, dim) == o
  {
    assert kvHeads * (q + dim + dim) == kvHeads * q + kvHeads * dim + kvHeads * dim;
    if o < kvHeads * q {
      k, y := GroupAndPlace(o, kvHeads, q);
    } else if o < kvHeads * q + kvHeads * dim {
      k, y := GroupAndPlace(o - kvHeads * q, kvHeads, dim);
      y := q + y;
    } else {
      k, y := GroupAndPlace(o - kvHeads * q - kvHeads * dim, kvHeads, dim);
      y := q + dim + y;
    }
  }

  lemma GroupAndPlace(i: nat, groups: nat, n: nat) returns (k: nat, y: nat)
    requires i < groups * n
    ensures k < groups && y < n && k * n + y == i
  {
    assert n > 0;
    k, y := i / n, i % n;
    assert k * n + y == i;
    if k >= groups { MulOrdered(groups, k, n); }
  }

  /** In the query section the heads keep their order: head j of group k is head k * group + j. */
  lemma QueryHeadOrder(k: nat, j: nat, d: nat, attentionHeads: nat, kvHeads: nat, dim: nat)
    requires kvHeads > 0 && attentionHeads % kvHeads == 0
    requires k < kvHeads && j < attentionHeads / kvHeads && d < dim
    ensures var group, q := attentionHeads / kvHeads, QueryWidth(attentionHeads, kvHeads, dim);
            && j * dim + d < q
            && Destination(k, j * dim + d, kvHeads, q, dim) == (k * group + j) * dim + d
            && k * group + j < attentionHeads
            && kvHeads * q == attentionHeads * dim
  {
    var group := attentionHeads / kvHeads;
    MulGap(j, group, dim);
    MulGap(k, kvHeads, group);
    assert kvHeads * group == attentionHeads;
    Associates(k, group, dim);
    Associates(kvHeads, group, dim);
    assert (k * group + j) * dim == k * group * dim + j * dim;
  }

  lemma Associates(a: int, b: int, c: int)
    ensures a * b * c == a * (b * c)
  {}

  // ---------------------------------------------------------------- the loader's offsets

  function Units(parts: seq<nat>): nat {
    if parts == [] then 0 else Units(parts[..|parts| - 1]) + parts[|parts| - 1]
  }

  function Joined<T>(shards: seq<seq<T>>): seq<T> {
    if shards == [] then [] else Joined(shards[..|shards| - 1]) + shards[|shards| - 1]
  }

  lemma SumTimes(a: int, b: int, n: int)
    ensures (a + b) * n == a * n + b * n
  {}

  /** Rows taken by the first `i` parts. */
  function Offset(parts: seq<nat>, i: nat, units: nat): nat
    requires i <= |parts|
  {
    if i == 0 then 0 else Offset(parts, i - 1, units) + parts[i - 1] * units
  }

  lemma {:induction false} OffsetIsUnits(parts: seq<nat>, i: nat, units: nat)
    requires i <= |parts|
    ensures Offset(parts, i, units) == Units(parts[..i]) * units
  {
    if i > 0 {
      OffsetIsUnits(parts, i - 1, units);
      assert parts[..i][..i - 1] == parts[..i - 1];
      SumTimes(Units(parts[..i - 1]), parts[i - 1], units);
    }
  }

  lemma {:induction false} OffsetOrdered(parts: seq<nat>, i: nat, j: nat, units: nat)
    requires i <= j <= |parts|
    ensures Offset(parts, i, units) <= Offset(parts, j, units)
  {
    if i < j { OffsetOrdered(parts, i, j - 1, units); }
  }

  /** The split_params_mapping loop. The shards are consecutive, each `num` units long, and
      together they are the whole weight: nothing is lost, repeated or left at the end. */
  method CutShards<T>(rows: seq<T>, den: nat, parts: seq<nat>) returns (shards: Option<seq<seq<T>>>)
    requires den > 0 && Units(parts) == den
    ensures shards.None? <==> |rows| % den != 0
    ensures shards.Some? ==>
      && |shards.value| == |parts| && Joined(shards.value) == rows
      && (forall i :: 0 <= i < |parts| ==> |shards.value[i]| == parts[i] * (|rows| / den))
  {
    if |rows| % den != 0 {
      return None;
    }
    var units := |rows| / den;
    OffsetIsUnits(parts, |parts|, units);
    assert parts[..|parts|] == parts && den * units == |rows|;
    var out := CutAt(rows, units, parts);
    return Some(out);
  }

  method CutAt<T>(rows: seq<T>, units: nat, parts: seq<nat>) returns (out: seq<seq<T>>)
    requires Offset(parts, |parts|, units) == |rows|
    ensures |out| == |parts| && Joined(out) == rows
    ensures forall i :: 0 <= i < |parts| ==> |out[i]| == parts[i] * units
  {
    out := [];
    var offset := 0;
    for i := 0 to |parts|
      invariant |out| == i && offset == Offset(parts, i, units) && offset <= |rows|
      invariant Joined(out) == rows[..offset]
      invariant forall k :: 0 <= k < i ==> |out[k]| == parts[k] * units
    {
      OffsetOrdered(parts, i + 1, |parts|, units);
      var newOffset := offset + parts[i] * units;
      var shard := rows[offset..newOffset];
      assert (out + [shard])[..i] == out;
      assert rows[..newOffset] == rows[..offset] + shard;
      out := out + [shard];
      offset := newOffset;
    }
    assert rows[..|rows|] == rows;
  }

  lemma ThreeParts(a: nat, b: nat, c: nat)
    ensures Units([a, b, c]) == a + b + c
  {
    assert [a, b, c][..2] == [a, b] && [a, b][..1] == [a];
    assert Units([a]) == Units([]) + a;
  }

  lemma JoinThree<T>(s: seq<seq<T>>)
    requires |s| == 3
    ensures Joined(s) == s[0] + s[1] + s[2]
  {
    assert s[..2][..1] == [s[0]] && s[..2][1] == s[1];
    assert Joined([s[0]]) == Joined([]) + s[0];
  }

  lemma QkvRows(attentionHeads: nat, kvHeads: nat, dim: nat)
    requires kvHeads > 0 && attentionHeads % kvHeads == 0
    ensures kvHeads * QueryWidth(attentionHeads, kvHeads, dim) == attentionHeads * dim
    ensures kvHeads * (QueryWidth(attentionHeads, kvHeads, dim) + dim + dim) == (attentionHeads + kvHeads * 2) * dim
  {
    var group := attentionHeads / kvHeads;
    assert kvHeads * group == attentionHeads;
    Associates(kvHeads, group, dim);
    Distributes(group * dim, dim, dim, kvHeads);
    SumTimes(attentionHeads, kvHeads * 2, dim);
  }

  lemma QuotientOf(n: nat, d: nat)
    requires d > 0
    ensures d * n % d == 0 && d * n / d == n
  {
    assert d * n / d * d + d * n % d == n * d + 0;
    MixedRadix(d * n / d, d * n % d, n, 0, d);
  }

  lemma MulCancels(a: nat, b: nat, n: nat)
    requires n > 0 && a * n == b * n
    ensures a == b
  {
    if a < b { MulGap(a, b, n); } else if b < a { MulGap(b, a, n); }
  }

  /** For accepted rows, a unit is one head exactly when kv heads divide attention heads, or heads are empty. */
  lemma UnitIsHeadIff(attentionHeads: nat, kvHeads: nat, dim: nat, units: nat)
    requires kvHeads > 0
    requires (attentionHeads + kvHeads * 2) * units
             == kvHeads * (QueryWidth(attentionHeads, kvHeads, dim) + dim + dim)
    ensures units == dim <==> attentionHeads % kvHeads == 0 || dim == 0
  {
    var group, den := attentionHeads / kvHeads, attentionHeads + kvHeads * 2;
    assert attentionHeads == group * kvHeads + attentionHeads % kvHeads;
    assert kvHeads * (group * dim + dim + dim) == (kvHeads * group + kvHeads * 2) * dim by {
      Associates(kvHeads, group, dim);
      Distributes(group * dim, dim, dim, kvHeads);
      SumTimes(kvHeads * group, kvHeads * 2, dim);
    }
    if attentionHeads % kvHeads == 0 || dim == 0 {
      MulCancels(units, dim, den);
    } else if units == dim {
      MulCancels(den, kvHeads * group + kvHeads * 2, dim);
    }
  }

  /** The rows fall apart at the section boundaries. */
  predicate OnSections<T(==)>(rows: seq<T>, kvHeads: nat, q: nat, dim: nat, shards: (seq<T>, seq<T>, seq<T>))
    requires |rows| == kvHeads * (q + dim + dim)
  {
    && shards.0 == Section(rows, kvHeads, q + dim + dim, 0, q)
    && shards.1 == Section(rows, kvHeads, q + dim + dim, q, dim)
    && shards.2 == Section(rows, kvHeads, q + dim + dim, q + dim, dim)
  }

  /** The QKV entry of the mapping. It is accepted when the rows fit the reshape and are divisible. The three
      cuts are together the rearranged weight, and fall on the section boundaries exactly when kv heads
      divide attention heads, or heads are empty. */
  method LoadQkv<T(==)>(rows: seq<T>, attentionHeads: nat, kvHeads: nat, dim: nat)
      returns (shards: Option<(seq<T>, seq<T>, seq<T>)>)
    requires kvHeads > 0
    ensures var q := QueryWidth(attentionHeads, kvHeads, dim);
            && (shards.Some? <==> |rows| % (attentionHeads + kvHeads * 2) == 0 && |rows| == kvHeads * (q + dim + dim))
            && (shards.Some? ==>
                  && shards.value.0 + shards.value.1 + shards.value.2 == Split(rows, kvHeads, q + dim + dim, q, dim)
                  && (OnSections(rows, kvHeads, q, dim, shards.value) <==> attentionHeads % kvHeads == 0 || dim == 0))
    ensures attentionHeads % kvHeads == 0 ==> (shards.Some? <==> |rows| == (attentionHeads + kvHeads * 2) * dim)
  {
    AcceptedRows(|rows|, attentionHeads, kvHeads, dim);
    if |rows| % (attentionHeads + kvHeads * 2) != 0 {
      return None;
    }
    var split := SplitQkv(rows, attentionHeads, kvHeads, dim);
    if split.None? {
      return None;
    }
    var s := CutQkv(rows, attentionHeads, kvHeads, dim);
    return Some(s);
  }

  /** With kv heads that divide, one head per unit is the only row count accepted. */
  lemma AcceptedRows(n: nat, attentionHeads: nat, kvHeads: nat, dim: nat)
    requires kvHeads > 0
    ensures var q, den := QueryWidth(attentionHeads, kvHeads, dim), attentionHeads + kvHeads * 2;
            attentionHeads % kvHeads == 0 ==> (n % den == 0 && n == kvHeads * (q + dim + dim) <==> n == den * dim)
  {
    if attentionHeads % kvHeads == 0 { QkvRows(attentionHeads, kvHeads, dim); }
    QuotientOf(dim, attentionHeads + kvHeads * 2);
  }

  lemma WholeUnits(n: nat, den: nat)
    requires den > 0 && n % den == 0
    ensures den * (n / den) == n
  {}

  /** The cuts of an accepted weight. */
  method CutQkv<T(==)>(rows: seq<T>, attentionHeads: nat, kvHeads: nat, dim: nat) returns (s: (seq<T>, seq<T>, seq<T>))
    requires kvHeads > 0 && |rows| % (attentionHeads + kvHeads * 2) == 0
    requires |rows| == kvHeads * (QueryWidth(attentionHeads, kvHeads, dim) + dim + dim)
    ensures var q := QueryWidth(attentionHeads, kvHeads, dim);
            && s.0 + s.1 + s.2 == Split(rows, kvHeads, q + dim + dim, q, dim)
            && (OnSections(rows, kvHeads, q, dim, s) <==> attentionHeads % kvHeads == 0 || dim == 0)
  {
    var q, den := QueryWidth(attentionHeads, kvHeads, dim), attentionHeads + kvHeads * 2;
    var split := Split(rows, kvHeads, q + dim + dim, q, dim);
    SplitLength(rows, kvHeads, q + dim + dim, q, dim);
    s := CutThree(split, attentionHeads, kvHeads);
    WholeUnits(|rows|, den);
    BoundariesIff(attentionHeads, kvHeads, dim, |rows| / den);
    CutsOnSections(rows, kvHeads, q, dim, s);
  }

  method CutThree<T>(rows: seq<T>, attentionHeads: nat, kvHeads: nat) returns (s: (seq<T>, seq<T>, seq<T>))
    requires kvHeads > 0 && |rows| % (attentionHeads + kvHeads * 2) == 0
    ensures var units := |rows| / (attentionHeads + kvHeads * 2);
            s.0 + s.1 + s.2 == rows && |s.0| == attentionHeads * units && |s.1| == kvHeads * units
  {
    ThreeParts(attentionHeads, kvHeads, kvHeads);
    var cut := CutShards(rows, attentionHeads + kvHeads * 2, [attentionHeads, kvHeads, kvHeads]);
    JoinThree(cut.value);
    s := (cut.value[0], cut.value[1], cut.value[2]);
  }

  /** The boundaries agree exactly when kv heads divide attention heads, or heads are empty. */
  lemma BoundariesIff(attentionHeads: nat, kvHeads: nat, dim: nat, units: nat)
    requires kvHeads > 0
    requires (attentionHeads + kvHeads * 2) * units
             == kvHeads * (QueryWidth(attentionHeads, kvHeads, dim) + dim + dim)
    ensures attentionHeads * units == kvHeads * QueryWidth(attentionHeads, kvHeads, dim)
              && kvHeads * units == kvHeads * dim
            <==> attentionHeads % kvHeads == 0 || dim == 0
  {
    UnitIsHeadIff(attentionHeads, kvHeads, dim, units);
    if kvHeads * units == kvHeads * dim { MulCancels(units, dim, kvHeads); }
    if attentionHeads % kvHeads == 0 { QkvRows(attentionHeads, kvHeads, dim); }
  }

  lemma CutsMatchIff<T>(a: seq<T>, b: seq<T>, c: seq<T>, x: seq<T>, y: seq<T>, z: seq<T>)
    requires a + b + c == x + y + z
    ensures a == x && b == y && c == z <==> |a| == |x| && |b| == |y|
  {
    if |a| == |x| && |b| == |y| { SameCuts(a, b, c, x, y, z); }
  }

  lemma CutsOnSections<T>(rows: seq<T>, kvHeads: nat, q: nat, dim: nat, s: (seq<T>, seq<T>, seq<T>))
    requires |rows| == kvHeads * (q + dim + dim) && s.0 + s.1 + s.2 == Split(rows, kvHeads, q + dim + dim, q, dim)
    ensures OnSections(rows, kvHeads, q, dim, s) <==> |s.0| == kvHeads * q && |s.1| == kvHeads * dim
  {
    SplitLength(rows, kvHeads, q + dim + dim, q, dim);
    CutsMatchIff(s.0, s.1, s.2, Section(rows, kvHeads, q + dim + dim, 0, q),
                 Section(rows, kvHeads, q + dim + dim, q, dim), Section(rows, kvHeads, q + dim + dim, q + dim, dim));
  }

  /** Three heads over two kv heads of width 7: the rows are accepted, and the first cut is 18 rows long, not 14. */
  lemma MisalignedCuts()
    ensures QueryWidth(3, 2, 7) == 7 && 42 == 2 * (QueryWidth(3, 2, 7) + 7 + 7) && 42 % (3 + 2 * 2) == 0
    ensures 3 * (42 / (3 + 2 * 2)) == 18 && 2 * QueryWidth(3, 2, 7) == 14
  {}

  lemma SameCuts<T>(a: seq<T>, b: seq<T>, c: seq<T>, x: seq<T>, y: seq<T>, z: seq<T>)
    requires a + b + c == x + y + z && |a| == |x| && |b| == |y|
    ensures a == x && b == y && c == z
  {
    var whole := a + b + c;
    assert a == whole[..|a|] && x == whole[..|a|];
    assert b == whole[|a|..|a| + |b|] && y == whole[|a|..|a| + |b|];
    assert c == whole[|a| + |b|..] && z == whole[|a| + |b|..];
  }
}
