/**
 The fused kernel of Step5 sliding-window layers: Gemma RMSNorm, neox RoPE and fp8
 quantization of the query heads, and the same for the keys before they and the values are
 stored into the paged cache. One grid program serves a group of query heads or one kv head of
 one token; programs run in any order. Arithmetic is exact, and rsqrt and the two roundings are
 parameters.
 */
module SwaFused {
  import opened Arithmetic
  import opened Common

  /** The operations that are not exact arithmetic. */
  datatype Numerics = Numerics(rsqrt: real -> real, bf16: real -> real, fp8: real -> int)

  /** `qkv[t][h]` is head `h` of token `t`: query heads first, then keys, then values. */
  datatype Inputs = Inputs(
    qkv: seq<seq<seq<real>>>, positions: seq<nat>, cosSin: seq<seq<real>>,
    qWeight: seq<real>, kWeight: seq<real>, eps: real,
    qScale: real, kScale: real, vScale: real, slots: seq<int>,
    heads: nat, kvHeads: nat, headsPerProgram: nat, half: nat, lanes: nat, page: nat)

  function Dim(i: Inputs): nat { 2 * i.half }

  /** Query programs of one token. */
  function Groups(i: Inputs): nat
    requires i.headsPerProgram > 0
  {
    i.heads / i.headsPerProgram
  }

  predicate InputsOk(i: Inputs) {
    && i.half > 0 && i.lanes >= i.half && i.headsPerProgram > 0 && i.page > 0
    && |i.positions| == |i.qkv| && |i.qWeight| == |i.kWeight| == Dim(i)
    && i.qScale != 0.0 && i.kScale != 0.0 && i.vScale != 0.0
    && (forall t :: 0 <= t < |i.qkv| ==> |i.qkv[t]| == i.heads + i.kvHeads + i.kvHeads)
    && (forall t, h :: 0 <= t < |i.qkv| && 0 <= h < |i.qkv[t]| ==> |i.qkv[t][h]| == Dim(i))
    && (forall t :: 0 <= t < |i.qkv| ==> i.positions[t] < |i.cosSin| && |i.cosSin[i.positions[t]]| == Dim(i))
  }

  /** The token has a slot to store its key and value in. */
  predicate Live(i: Inputs, t: nat) {
    t < |i.slots| && i.slots[t] >= 0
  }

  // ---------------------------------------------------------------- arithmetic

  function SquareSum(xs: seq<real>): real {
    if xs == [] then 0.0 else SquareSum(xs[..|xs| - 1]) + xs[|xs| - 1] * xs[|xs| - 1]
  }

  lemma {:induction false} SquareSumConcat(a: seq<real>, b: seq<real>)
    ensures SquareSum(a + b) == SquareSum(a) + SquareSum(b)
  {
    if b == [] {
      assert a + b == a;
    } else {
      assert (a + b)[..|a| + |b| - 1] == a + b[..|b| - 1];
      SquareSumConcat(a, b[..|b| - 1]);
    }
  }

  // ---------------------------------------------------------------- reference

  /** rsqrt(mean of squares + eps) */
  function RootScale(n: Numerics, squares: real, count: nat, eps: real): real
    requires count > 0
  {
    n.rsqrt(squares / count as real + eps)
  }

  function Norm(x: real, r: real, w: real): real { x * r * (w + 1.0) }

  function RotateLow(a: real, b: real, cos: real, sin: real): real { a * cos - b * sin }

  function RotateHigh(a: real, b: real, cos: real, sin: real): real { b * cos + a * sin }

  /** x * rsqrt(mean(x^2) + eps) * (1 + w), for element `k` of a head vector. */
  function Normed(n: Numerics, x: seq<real>, w: seq<real>, eps: real, k: nat): real
    requires |x| == |w| && k < |x|
  {
    Norm(x[k], RootScale(n, SquareSum(x), |x|, eps), w[k])
  }

  /** neox RoPE of a normed head: elements `d` and `half + d` are rotated together. */
  function Rotated(n: Numerics, x: seq<real>, w: seq<real>, angles: seq<real>, eps: real, half: nat, d: nat): real
    requires |x| == |w| == |angles| == 2 * half && d < 2 * half
  {
    if d < half then
      RotateLow(Normed(n, x, w, eps, d), Normed(n, x, w, eps, half + d), angles[d], angles[half + d])
    else
      RotateHigh(Normed(n, x, w, eps, d - half), Normed(n, x, w, eps, d), angles[d - half], angles[d])
  }

  function Clamp(x: real): real {
    if x < -448.0 then -448.0 else if x > 448.0 then 448.0 else x
  }

  function Head(i: Inputs, t: nat, h: nat): (x: seq<real>)
    requires InputsOk(i) && t < |i.qkv| && h < i.heads + i.kvHeads + i.kvHeads
    ensures |x| == Dim(i)
  {
    i.qkv[t][h]
  }

  /** fp8 of x / scale, saturated at 448. */
  function Quantized(n: Numerics, x: real, scale: real): int
    requires scale != 0.0
  {
    n.fp8(Clamp(Quotient(x, scale)))
  }

  function Quotient(x: real, scale: real): real
    requires scale != 0.0
  {
    x * (1.0 / scale)
  }

  function Angles(i: Inputs, t: nat): seq<real>
    requires InputsOk(i) && t < |i.qkv|
  {
    i.cosSin[i.positions[t]]
  }

  /** What the query buffer must hold for element `d` of query head `h` of token `t`. */
  function QueryCell(n: Numerics, i: Inputs, t: nat, h: nat, d: nat): int
    requires InputsOk(i) && t < |i.qkv| && h < i.heads && d < Dim(i)
  {
    Quantized(n, Rotated(n, Head(i, t, h), i.qWeight, Angles(i, t), i.eps, i.half, d), i.qScale)
  }

  /** The key is rounded to bf16 before it is scaled and quantized. */
  function KeyCell(n: Numerics, i: Inputs, t: nat, kh: nat, d: nat): int
    requires InputsOk(i) && t < |i.qkv| && kh < i.kvHeads && d < Dim(i)
  {
    Quantized(n, n.bf16(Rotated(n, Head(i, t, i.heads + kh), i.kWeight, Angles(i, t), i.eps, i.half, d)), i.kScale)
  }

  function ValueCell(n: Numerics, i: Inputs, t: nat, kh: nat, d: nat): int
    requires InputsOk(i) && t < |i.qkv| && kh < i.kvHeads && d < Dim(i)
  {
    Quantized(n, Head(i, t, i.heads + i.kvHeads + kh)[d], i.vScale)
  }

  // ---------------------------------------------------------------- what the reference computes

  predicate OnCircle(cos: real, sin: real) { cos * cos + sin * sin == 1.0 }

  function Square(x: real): real { x * x }

  lemma SquareOfDifference(x: real, y: real)
    ensures Square(x - y) == Square(x) - 2.0 * (x * y) + Square(y)
    ensures Square(x + y) == Square(x) + 2.0 * (x * y) + Square(y)
  {}

  lemma SquareOfProduct(x: real, y: real)
    ensures Square(x * y) == Square(x) * Square(y)
  {
    assert (x * y) * (x * y) == (x * x) * (y * y);
  }

  lemma CrossTerms(a: real, b: real, cos: real, sin: real)
    ensures (a * cos) * (b * sin) == (b * cos) * (a * sin)
  {
    assert (a * cos) * (b * sin) == (a * b) * (cos * sin);
    assert (b * cos) * (a * sin) == (a * b) * (cos * sin);
  }

  /** A rotation keeps the length of a pair. */
  lemma RotationKeepsSquares(a: real, b: real, cos: real, sin: real)
    requires OnCircle(cos, sin)
    ensures Square(RotateLow(a, b, cos, sin)) + Square(RotateHigh(a, b, cos, sin)) == Square(a) + Square(b)
  {
    SquareOfDifference(a * cos, b * sin);
    SquareOfDifference(b * cos, a * sin);
    CrossTerms(a, b, cos, sin);
    SquareOfProduct(a, cos);
    SquareOfProduct(a, sin);
    SquareOfProduct(b, cos);
    SquareOfProduct(b, sin);
    var c, s := Square(cos), Square(sin);
    assert Square(a) * c + Square(a) * s == Square(a) * (c + s);
    assert Square(b) * c + Square(b) * s == Square(b) * (c + s);
  }

  /** Rotating by the opposite angle gives the pair back. */
  lemma RotationInverts(a: real, b: real, cos: real, sin: real)
    requires OnCircle(cos, sin)
    ensures var low, high := RotateLow(a, b, cos, sin), RotateHigh(a, b, cos, sin);
            RotateLow(low, high, cos, -sin) == a && RotateHigh(low, high, cos, -sin) == b
  {
    var low, high := RotateLow(a, b, cos, sin), RotateHigh(a, b, cos, sin);
    var cc, ss, cs := cos * cos, sin * sin, cos * sin;
    assert low * cos == a * cc - b * cs && low * sin == a * cs - b * ss;
    assert high * cos == b * cc + a * cs && high * sin == b * cs + a * ss;
    assert a * cc + a * ss == a * (cc + ss) && b * cc + b * ss == b * (cc + ss);
  }

  function NormedHead(n: Numerics, x: seq<real>, w: seq<real>, eps: real): seq<real>
    requires |x| == |w|
  {
    seq(|x|, k requires 0 <= k < |x| => Normed(n, x, w, eps, k))
  }

  function RotatedHead(n: Numerics, x: seq<real>, w: seq<real>, angles: seq<real>, eps: real, half: nat): seq<real>
    requires |x| == |w| == |angles| == 2 * half
  {
    seq(2 * half, d requires 0 <= d < 2 * half => Rotated(n, x, w, angles, eps, half, d))
  }

  function Total(xs: seq<real>): real {
    if xs == [] then 0.0 else Total(xs[..|xs| - 1]) + xs[|xs| - 1]
  }

  function Squares(xs: seq<real>): seq<real> {
    seq(|xs|, k requires 0 <= k < |xs| => Square(xs[k]))
  }

  lemma {:induction false} SquareSumIsTotal(xs: seq<real>)
    ensures SquareSum(xs) == Total(Squares(xs))
  {
    if xs != [] {
      SquareSumIsTotal(xs[..|xs| - 1]);
      assert Squares(xs)[..|xs| - 1] == Squares(xs[..|xs| - 1]);
    }
  }

  lemma {:induction false} PairedTotals(a: seq<real>, b: seq<real>, c: seq<real>, d: seq<real>)
    requires |a| == |b| == |c| == |d| && forall k :: 0 <= k < |a| ==> a[k] + b[k] == c[k] + d[k]
    ensures Total(a) + Total(b) == Total(c) + Total(d)
  {
    if a != [] {
      var k := |a| - 1;
      PairedTotals(a[..k], b[..k], c[..k], d[..k]);
    }
  }

  /** With angles on the circle, the rotated head has the length of the normed head. */
  lemma RotatedHeadKeepsLength(n: Numerics, x: seq<real>, w: seq<real>, angles: seq<real>, eps: real, half: nat)
    requires |x| == |w| == |angles| == 2 * half
    requires forall d :: 0 <= d < half ==> OnCircle(angles[d], angles[half + d])
    ensures SquareSum(RotatedHead(n, x, w, angles, eps, half)) == SquareSum(NormedHead(n, x, w, eps))
  {
    var u, v := RotatedHead(n, x, w, angles, eps, half), NormedHead(n, x, w, eps);
    var low, high, low', high' := Squares(u[..half]), Squares(u[half..]), Squares(v[..half]), Squares(v[half..]);
    forall d | 0 <= d < half ensures low[d] + high[d] == low'[d] + high'[d] {
      PairRotates(n, x, w, angles, eps, half, d);
    }
    PairedTotals(low, high, low', high');
    HalfTotals(u, half);
    HalfTotals(v, half);
  }

  lemma HalfTotals(u: seq<real>, half: nat)
    requires half <= |u|
    ensures SquareSum(u) == Total(Squares(u[..half])) + Total(Squares(u[half..]))
  {
    var low, high := u[..half], u[half..];
    assert u == low + high;
    SquareSumConcat(low, high);
    SquareSumIsTotal(low);
    SquareSumIsTotal(high);
  }

  lemma PairRotates(n: Numerics, x: seq<real>, w: seq<real>, angles: seq<real>, eps: real, half: nat, d: nat)
    requires |x| == |w| == |angles| == 2 * half && d < half && OnCircle(angles[d], angles[half + d])
    ensures Square(Rotated(n, x, w, angles, eps, half, d)) + Square(Rotated(n, x, w, angles, eps, half, half + d))
            == Square(Normed(n, x, w, eps, d)) + Square(Normed(n, x, w, eps, half + d))
  {
    RotationKeepsSquares(Normed(n, x, w, eps, d), Normed(n, x, w, eps, half + d), angles[d], angles[half + d]);
  }

  /** The angle zero leaves a normed head alone; a quarter turn takes (a, b) to (-b, a), `half` elements apart. */
  lemma RotatedAtCorners(n: Numerics, x: seq<real>, w: seq<real>, angles: seq<real>, eps: real, half: nat, d: nat)
    requires |x| == |w| == |angles| == 2 * half && d < half
    ensures angles[d] == 1.0 && angles[half + d] == 0.0 ==>
              && Rotated(n, x, w, angles, eps, half, d) == Normed(n, x, w, eps, d)
              && Rotated(n, x, w, angles, eps, half, half + d) == Normed(n, x, w, eps, half + d)
    ensures angles[d] == 0.0 && angles[half + d] == 1.0 ==>
              && Rotated(n, x, w, angles, eps, half, d) == -Normed(n, x, w, eps, half + d)
              && Rotated(n, x, w, angles, eps, half, half + d) == Normed(n, x, w, eps, d)
  {}

  function Product(x: real, r: real): real { x * r }

  predicate IsScaled(x: seq<real>, y: seq<real>, r: real) {
    |x| == |y| && forall k :: 0 <= k < |x| ==> y[k] == Product(x[k], r)
  }

  lemma {:induction false} ScaledSquares(x: seq<real>, y: seq<real>, r: real)
    requires IsScaled(x, y, r)
    ensures SquareSum(y) == SquareSum(x) * Square(r)
  {
    if x != [] {
      var k := |x| - 1;
      ScaledSquares(x[..k], y[..k], r);
      SquareOfProduct(x[k], r);
      SumTimes(SquareSum(x[..k]), Square(x[k]), Square(r));
    }
  }

  lemma SumTimes(a: real, b: real, c: real)
    ensures (a + b) * c == a * c + b * c
  {}

  /** The root of `y` is exact. */
  predicate ExactRoot(n: Numerics, y: real) { Square(n.rsqrt(y)) * y == 1.0 }

  function MeanSquare(x: seq<real>): real
    requires x != []
  {
    SquareSum(x) / |x| as real
  }

  /** With an exact rsqrt and zero weights, the mean square of a normed head times (mean square + eps) is the mean
      square of the head: without eps it would be 1. */
  lemma NormedHeadIsUnit(n: Numerics, x: seq<real>, w: seq<real>, eps: real)
    requires |x| == |w| > 0 && (forall k :: 0 <= k < |w| ==> w[k] == 0.0) && ExactRoot(n, MeanSquare(x) + eps)
    ensures MeanSquare(NormedHead(n, x, w, eps)) * (MeanSquare(x) + eps) == MeanSquare(x)
  {
    NormedIsScaled(n, x, w, eps);
    UnitFromScaled(x, NormedHead(n, x, w, eps), RootScale(n, SquareSum(x), |x|, eps), MeanSquare(x) + eps);
  }

  lemma UnitFromScaled(x: seq<real>, v: seq<real>, r: real, y: real)
    requires x != [] && IsScaled(x, v, r) && Square(r) * y == 1.0
    ensures v != [] && MeanSquare(v) * y == MeanSquare(x)
  {
    ScaledSquares(x, v, r);
    UnitMean(SquareSum(x), |x| as real, Square(r), y);
  }

  lemma NormedIsScaled(n: Numerics, x: seq<real>, w: seq<real>, eps: real)
    requires |x| == |w| > 0 && forall k :: 0 <= k < |w| ==> w[k] == 0.0
    ensures IsScaled(x, NormedHead(n, x, w, eps), RootScale(n, SquareSum(x), |x|, eps))
  {
    var r, v := RootScale(n, SquareSum(x), |x|, eps), NormedHead(n, x, w, eps);
    forall k | 0 <= k < |x| ensures v[k] == Product(x[k], r) {
      NormUnweighted(x[k], r);
      assert v[k] == Norm(x[k], r, w[k]);
    }
  }

  lemma NormUnweighted(x: real, r: real)
    ensures Norm(x, r, 0.0) == Product(x, r)
  {}

  lemma UnitMean(q: real, c: real, rr: real, y: real)
    requires c > 0.0 && rr * y == 1.0
    ensures (q * rr) / c * y == q / c
  {
    assert (q * rr) / c == (q / c) * rr;
    assert (q / c) * rr * y == (q / c) * (rr * y);
  }

  /** A weight multiplies the element of its own place by one plus itself. */
  lemma WeightsMultiply(n: Numerics, x: seq<real>, w: seq<real>, zero: seq<real>, eps: real, k: nat)
    requires |x| == |w| == |zero| && k < |x| && zero[k] == 0.0
    ensures Normed(n, x, w, eps, k) == Normed(n, x, zero, eps, k) * (1.0 + w[k])
  {}

  /** Quantization converts the quotient by the scale, saturated at 448 on both sides. */
  lemma QuantizedSaturates(n: Numerics, x: real, scale: real)
    requires scale > 0.0
    ensures -448.0 * scale <= x <= 448.0 * scale ==> Quantized(n, x, scale) == n.fp8(x / scale)
    ensures x > 448.0 * scale ==> Quantized(n, x, scale) == n.fp8(448.0)
    ensures x < -448.0 * scale ==> Quantized(n, x, scale) == n.fp8(-448.0)
  {
    var v := Quotient(x, scale);
    QuotientTimes(x, scale);
    Bounded(v, scale, x, 448.0);
    Bounded(v, scale, x, -448.0);
  }

  lemma QuotientTimes(x: real, scale: real)
    requires scale > 0.0
    ensures Quotient(x, scale) * scale == x && Quotient(x, scale) == x / scale
  {
    var inv := 1.0 / scale;
    assert inv * scale == 1.0;
    assert x * inv * scale == x * (inv * scale);
  }

  lemma Bounded(v: real, scale: real, x: real, k: real)
    requires scale > 0.0 && v * scale == x
    ensures v <= k <==> x <= k * scale
    ensures v >= k <==> x >= k * scale
  {
    assert v * scale - k * scale == (v - k) * scale;
  }

  /** A query cell depends on the token's own head, on the weights, scale and eps, and on the angles at the token's
      position: whatever else differs between two launches. */
  lemma QueryCellIsLocal(n: Numerics, i: Inputs, t: nat, h: nat, j: Inputs, u: nat, g: nat, d: nat)
    requires InputsOk(i) && t < |i.qkv| && h < i.heads && InputsOk(j) && u < |j.qkv| && g < j.heads
    requires i.half == j.half && d < 2 * i.half && i.qkv[t][h] == j.qkv[u][g]
    requires i.cosSin[i.positions[t]] == j.cosSin[j.positions[u]]
    requires i.qWeight == j.qWeight && i.eps == j.eps && i.qScale == j.qScale
    ensures QueryCell(n, i, t, h, d) == QueryCell(n, j, u, g, d)
  {}

  /** The same for a key and a value cell; a value needs neither angles nor weights. */
  lemma CacheCellsAreLocal(n: Numerics, i: Inputs, t: nat, h: nat, j: Inputs, u: nat, g: nat, d: nat)
    requires InputsOk(i) && t < |i.qkv| && h < i.kvHeads && InputsOk(j) && u < |j.qkv| && g < j.kvHeads
    requires i.half == j.half && d < 2 * i.half
    ensures i.qkv[t][i.heads + h] == j.qkv[u][j.heads + g] && i.cosSin[i.positions[t]] == j.cosSin[j.positions[u]]
            && i.kWeight == j.kWeight && i.eps == j.eps && i.kScale == j.kScale ==>
              KeyCell(n, i, t, h, d) == KeyCell(n, j, u, g, d)
    ensures i.qkv[t][i.heads + i.kvHeads + h][d] == j.qkv[u][j.heads + j.kvHeads + g][d] && i.vScale == j.vScale ==>
              ValueCell(n, i, t, h, d) == ValueCell(n, j, u, g, d)
  {}

  /** The cache sees a key only after its rounding to bf16: keys that round alike are stored alike. */
  lemma KeysRoundAlike(n: Numerics, i: Inputs, t: nat, u: nat, h: nat, g: nat, d: nat)
    requires InputsOk(i) && t < |i.qkv| && u < |i.qkv| && h < i.kvHeads && g < i.kvHeads && d < Dim(i)
    requires n.bf16(Rotated(n, Head(i, t, i.heads + h), i.kWeight, Angles(i, t), i.eps, i.half, d))
             == n.bf16(Rotated(n, Head(i, u, i.heads + g), i.kWeight, Angles(i, u), i.eps, i.half, d))
    ensures KeyCell(n, i, t, h, d) == KeyCell(n, i, u, g, d)
  {}

  // ---------------------------------------------------------------- kernel lanes

  /** A masked load of `half` values of `x`, from `base` on, into `lanes` lanes. */
  function Lanes(x: seq<real>, base: nat, half: nat, lanes: nat): seq<real>
    requires base + half <= |x|
  {
    seq(lanes, o requires 0 <= o < lanes => if o < half then x[base + o] else 0.0)
  }

  /** The two results of _norm_rope in lane `o`, from padded halves. */
  function NormRopeLane(n: Numerics, x1: seq<real>, x2: seq<real>, w1: real, w2: real, cos: real, sin: real,
                        eps: real, half: nat, o: nat): (real, real)
    requires o < |x1| == |x2| && half > 0
  {
    var r := RootScale(n, SquareSum(x1) + SquareSum(x2), 2 * half, eps);
    var n1, n2 := Norm(x1[o], r, w1), Norm(x2[o], r, w2);
    (RotateLow(n1, n2, cos, sin), RotateHigh(n1, n2, cos, sin))
  }

  /** One head through _norm_rope, lane `o` of the low and the high half. */
  function HeadLane(n: Numerics, x: seq<real>, w: seq<real>, angles: seq<real>, eps: real, half: nat, lanes: nat,
                    o: nat): (real, real)
    requires half > 0 && half <= lanes && |x| == |w| == |angles| == 2 * half && o < half
  {
    NormRopeLane(n, Lanes(x, 0, half, lanes), Lanes(x, half, half, lanes),
                 w[o], w[half + o], angles[o], angles[half + o], eps, half, o)
  }

  lemma {:induction false} PaddingAddsNothing(x: seq<real>, base: nat, half: nat, lanes: nat)
    requires base + half <= |x| && half <= lanes
    ensures SquareSum(Lanes(x, base, half, lanes)) == SquareSum(x[base..base + half])
    decreases lanes
  {
    var xs := Lanes(x, base, half, lanes);
    if lanes > half {
      PaddingAddsNothing(x, base, half, lanes - 1);
      assert xs[..lanes - 1] == Lanes(x, base, half, lanes - 1);
    } else {
      assert xs == x[base..base + half];
    }
  }

  lemma LaneSquares(x: seq<real>, half: nat, lanes: nat)
    requires half <= lanes && |x| == 2 * half
    ensures SquareSum(Lanes(x, 0, half, lanes)) + SquareSum(Lanes(x, half, half, lanes)) == SquareSum(x)
  {
    PaddingAddsNothing(x, 0, half, lanes);
    PaddingAddsNothing(x, half, half, lanes);
    SquareSumConcat(x[0..half], x[half..half + half]);
    assert x == x[0..half] + x[half..half + half];
  }

  /** Working on two padded halves computes the rotated head vector. */
  lemma HeadLaneIsRotated(n: Numerics, x: seq<real>, w: seq<real>, angles: seq<real>, eps: real, half: nat,
                          lanes: nat, o: nat)
    requires half > 0 && half <= lanes && |x| == |w| == |angles| == 2 * half && o < half
    ensures HeadLane(n, x, w, angles, eps, half, lanes, o).0 == Rotated(n, x, w, angles, eps, half, o)
    ensures HeadLane(n, x, w, angles, eps, half, lanes, o).1 == Rotated(n, x, w, angles, eps, half, half + o)
  {
    LaneSquares(x, half, lanes);
    var x1, x2 := Lanes(x, 0, half, lanes), Lanes(x, half, half, lanes);
    var r := RootScale(n, SquareSum(x), 2 * half, eps);
    assert Normed(n, x, w, eps, o) == Norm(x1[o], r, w[o]);
    assert Normed(n, x, w, eps, half + o) == Norm(x2[o], r, w[half + o]);
  }

  /** The rotated element the kernel holds for element `d` of a head. */
  function LaneOf(n: Numerics, x: seq<real>, w: seq<real>, angles: seq<real>, eps: real, half: nat, lanes: nat,
                  d: nat): real
    requires half > 0 && half <= lanes && |x| == |w| == |angles| == 2 * half && d < 2 * half
  {
    if d < half then HeadLane(n, x, w, angles, eps, half, lanes, d).0
    else HeadLane(n, x, w, angles, eps, half, lanes, d - half).1
  }

  lemma LaneOfIsRotated(n: Numerics, x: seq<real>, w: seq<real>, angles: seq<real>, eps: real, half: nat, lanes: nat,
                        d: nat)
    requires half > 0 && half <= lanes && |x| == |w| == |angles| == 2 * half && d < 2 * half
    ensures LaneOf(n, x, w, angles, eps, half, lanes, d) == Rotated(n, x, w, angles, eps, half, d)
  {
    HeadLaneIsRotated(n, x, w, angles, eps, half, lanes, if d < half then d else d - half);
  }

  /** What the programs store, computed from lanes. */
  function StoredQuery(n: Numerics, i: Inputs, t: nat, h: nat, d: nat): int
    requires InputsOk(i) && t < |i.qkv| && h < i.heads && d < Dim(i)
  {
    Quantized(n, LaneOf(n, Head(i, t, h), i.qWeight, Angles(i, t), i.eps, i.half, i.lanes, d), i.qScale)
  }

  function StoredKey(n: Numerics, i: Inputs, t: nat, kh: nat, d: nat): int
    requires InputsOk(i) && t < |i.qkv| && kh < i.kvHeads && d < Dim(i)
  {
    Quantized(n, n.bf16(LaneOf(n, Head(i, t, i.heads + kh), i.kWeight, Angles(i, t), i.eps, i.half, i.lanes, d)),
        i.kScale)
  }

  function StoredValue(n: Numerics, i: Inputs, t: nat, kh: nat, d: nat): int
    requires InputsOk(i) && t < |i.qkv| && kh < i.kvHeads && d < Dim(i)
  {
    var x := Head(i, t, i.heads + i.kvHeads + kh);
    Quantized(n, if d < i.half then Lanes(x, 0, i.half, i.lanes)[d]
        else Lanes(x, i.half, i.half, i.lanes)[d - i.half], i.vScale)
  }

  lemma StoredIsReference(n: Numerics, i: Inputs, t: nat, h: nat, kh: nat, d: nat)
    requires InputsOk(i) && t < |i.qkv| && d < Dim(i)
    ensures h < i.heads ==> StoredQuery(n, i, t, h, d) == QueryCell(n, i, t, h, d)
    ensures kh < i.kvHeads ==> StoredKey(n, i, t, kh, d) == KeyCell(n, i, t, kh, d)
    ensures kh < i.kvHeads ==> StoredValue(n, i, t, kh, d) == ValueCell(n, i, t, kh, d)
  {
    if h < i.heads { StoredQueryIsReference(n, i, t, h, d); }
    if kh < i.kvHeads { StoredKeyIsReference(n, i, t, kh, d); }
  }

  lemma StoredQueryIsReference(n: Numerics, i: Inputs, t: nat, h: nat, d: nat)
    requires InputsOk(i) && t < |i.qkv| && d < Dim(i) && h < i.heads
    ensures StoredQuery(n, i, t, h, d) == QueryCell(n, i, t, h, d)
  {
    LaneOfIsRotated(n, Head(i, t, h), i.qWeight, Angles(i, t), i.eps, i.half, i.lanes, d);
  }

  lemma StoredKeyIsReference(n: Numerics, i: Inputs, t: nat, kh: nat, d: nat)
    requires InputsOk(i) && t < |i.qkv| && d < Dim(i) && kh < i.kvHeads
    ensures StoredKey(n, i, t, kh, d) == KeyCell(n, i, t, kh, d)
  {
    LaneOfIsRotated(n, Head(i, t, i.heads + kh), i.kWeight, Angles(i, t), i.eps, i.half, i.lanes, d);
  }

  // ---------------------------------------------------------------- programs

  predicate QueryOwner(i: Inputs, g: nat, h: nat)
    requires i.headsPerProgram > 0
  {
    g < Groups(i) && g * i.headsPerProgram <= h < (g + 1) * i.headsPerProgram
  }

  lemma GroupHeads(i: Inputs, g: nat)
    requires i.headsPerProgram > 0 && g < Groups(i)
    ensures (g + 1) * i.headsPerProgram <= i.heads
  {
    MulOrdered(g + 1, Groups(i), i.headsPerProgram);
    assert Groups(i) * i.headsPerProgram <= i.heads;
  }

  method QueryProgram(n: Numerics, i: Inputs, t: nat, g: nat, q: array3<int>)
    requires InputsOk(i) && t < |i.qkv| && g < Groups(i)
    requires q.Length0 == |i.qkv| && q.Length1 == i.heads && q.Length2 == Dim(i)
    modifies q
    ensures forall u, h, d :: 0 <= u < |i.qkv| && 0 <= h < i.heads && 0 <= d < Dim(i) ==>
              q[u, h, d] == if u == t && QueryOwner(i, g, h) then QueryCell(n, i, u, h, d) else old(q[u, h, d])
  {
    GroupHeads(i, g);
    var lo, hi := g * i.headsPerProgram, (g + 1) * i.headsPerProgram;
    forall h, d | lo <= h < hi && 0 <= d < i.half {
      q[t, h, d] := StoredQuery(n, i, t, h, d);
    }
    forall h, d | lo <= h < hi && i.half <= d < Dim(i) {
      q[t, h, d] := StoredQuery(n, i, t, h, d);
    }
    forall h, d | lo <= h < hi && 0 <= d < Dim(i) ensures q[t, h, d] == QueryCell(n, i, t, h, d) {
      StoredIsReference(n, i, t, h, i.kvHeads, d);
    }
  }

  predicate CacheShape(i: Inputs, cache: array4<int>) {
    cache.Length1 == i.page && cache.Length2 == i.kvHeads && cache.Length3 == Dim(i)
  }

  /** The live slots lie inside the cache. */
  predicate SlotsFit(i: Inputs, cache: array4<int>) {
    forall t :: 0 <= t < |i.qkv| && Live(i, t) ==> i.slots[t] < cache.Length0 * i.page
  }

  lemma SlotFits(slot: nat, page: nat, blocks: nat)
    requires page > 0 && slot < blocks * page
    ensures slot / page < blocks && slot % page < page
  {
    assert slot / page * page <= slot;
    if slot / page >= blocks { MulOrdered(blocks, slot / page, page); }
  }

  /** The key half of a kv-head program that has a slot. */
  method StoreKey(n: Numerics, i: Inputs, t: nat, kh: nat, kc: array4<int>)
    requires InputsOk(i) && t < |i.qkv| && kh < i.kvHeads && Live(i, t)
    requires CacheShape(i, kc) && SlotsFit(i, kc)
    modifies kc
    ensures forall b, o, k, d :: 0 <= b < kc.Length0 && 0 <= o < i.page && 0 <= k < i.kvHeads && 0 <= d < Dim(i) ==>
              kc[b, o, k, d] == if k == kh && b == i.slots[t] / i.page && o == i.slots[t] % i.page
                                then KeyCell(n, i, t, kh, d) else old(kc[b, o, k, d])
  {
    var slot := i.slots[t];
    SlotFits(slot, i.page, kc.Length0);
    var block, offset := slot / i.page, slot % i.page;
    forall d | 0 <= d < i.half {
      kc[block, offset, kh, d] := StoredKey(n, i, t, kh, d);
    }
    forall d | i.half <= d < Dim(i) {
      kc[block, offset, kh, d] := StoredKey(n, i, t, kh, d);
    }
    forall d | 0 <= d < Dim(i) ensures kc[block, offset, kh, d] == KeyCell(n, i, t, kh, d) {
      StoredIsReference(n, i, t, i.heads, kh, d);
    }
  }

  /** The value half. */
  method StoreValue(n: Numerics, i: Inputs, t: nat, kh: nat, vc: array4<int>)
    requires InputsOk(i) && t < |i.qkv| && kh < i.kvHeads && Live(i, t)
    requires CacheShape(i, vc) && SlotsFit(i, vc)
    modifies vc
    ensures forall b, o, k, d :: 0 <= b < vc.Length0 && 0 <= o < i.page && 0 <= k < i.kvHeads && 0 <= d < Dim(i) ==>
              vc[b, o, k, d] == if k == kh && b == i.slots[t] / i.page && o == i.slots[t] % i.page
                                then ValueCell(n, i, t, kh, d) else old(vc[b, o, k, d])
  {
    var slot := i.slots[t];
    SlotFits(slot, i.page, vc.Length0);
    var block, offset := slot / i.page, slot % i.page;
    forall d | 0 <= d < i.half {
      vc[block, offset, kh, d] := StoredValue(n, i, t, kh, d);
    }
    forall d | i.half <= d < Dim(i) {
      vc[block, offset, kh, d] := StoredValue(n, i, t, kh, d);
    }
    forall d | 0 <= d < Dim(i) ensures vc[block, offset, kh, d] == ValueCell(n, i, t, kh, d) {
      StoredIsReference(n, i, t, i.heads, kh, d);
    }
  }

  predicate Distinct(i: Inputs) {
    forall t, u :: 0 <= t < u < |i.qkv| && Live(i, t) && Live(i, u) ==> i.slots[t] != i.slots[u]
  }

  predicate InGrid(i: Inputs, pid: (nat, nat))
    requires i.headsPerProgram > 0
  {
    pid.0 < |i.qkv| && pid.1 < Groups(i) + i.kvHeads
  }

  /** The program of a token that stores query head `h`; None when no program of the grid does. */
  function QueryProgramOf(i: Inputs, h: nat): Option<nat>
    requires i.headsPerProgram > 0
  {
    if h < Groups(i) * i.headsPerProgram then Some(h / i.headsPerProgram) else None
  }

  predicate SlotIs(i: Inputs, t: nat, b: int, o: int)
    requires i.page > 0
  {
    Live(i, t) && b == i.slots[t] / i.page && o == i.slots[t] % i.page
  }

  /** The live token whose slot is (block, offset). */
  ghost function TokenAt(i: Inputs, b: int, o: int): (token: Option<nat>)
    requires i.page > 0
    ensures token.Some? ==> token.value < |i.qkv| && SlotIs(i, token.value, b, o)
    ensures token.None? ==> forall t: nat :: t < |i.qkv| ==> !SlotIs(i, t, b, o)
  {
    if exists t: nat :: t < |i.qkv| && SlotIs(i, t, b, o) then
      var t: nat :| t < |i.qkv| && SlotIs(i, t, b, o);
      Some(t)
    else None
  }

  /** With distinct slots a cell has at most one token, hence one storing program. */
  lemma OneTokenPerCell(i: Inputs, t: nat, b: int, o: int)
    requires InputsOk(i) && Distinct(i) && t < |i.qkv|
    ensures SlotIs(i, t, b, o) <==> TokenAt(i, b, o) == Some(t)
  {
    if SlotIs(i, t, b, o) {
      var u := TokenAt(i, b, o).value;
      assert i.slots[t] == b * i.page + o;
      assert i.slots[u] == b * i.page + o;
    }
  }

  lemma OneQueryProgram(i: Inputs, g: nat, h: nat)
    requires i.headsPerProgram > 0
    ensures QueryOwner(i, g, h) <==> QueryProgramOf(i, h) == Some(g)
  {
    var n := i.headsPerProgram;
    assert h == h / n * n + h % n;
    assert (h / n + 1) * n == h / n * n + n;
    if QueryOwner(i, g, h) {
      MulOrdered(g + 1, Groups(i), n);
      if g < h / n { MulOrdered(g + 1, h / n, n); }
      if g > h / n { MulOrdered(h / n + 1, g, n); }
    } else if h < Groups(i) * n && h / n >= Groups(i) {
      MulOrdered(Groups(i), h / n, n);
    }
  }

  /** Every head has a program exactly when the group size divides the number of heads. */
  lemma AllHeadsCovered(i: Inputs)
    requires i.headsPerProgram > 0
    ensures (forall h: nat :: h < i.heads ==> QueryProgramOf(i, h).Some?) <==> i.heads % i.headsPerProgram == 0
  {
    var n := i.headsPerProgram;
    assert i.heads == Groups(i) * n + i.heads % n;
    if i.heads % n != 0 {
      assert QueryProgramOf(i, Groups(i) * n).None?;
    }
  }

  /** Program (t, g) of the grid. */
  method Program(n: Numerics, i: Inputs, t: nat, g: nat, q: array3<int>, kc: array4<int>, vc: array4<int>)
    requires InputsOk(i) && Distinct(i) && InGrid(i, (t, g)) && kc != vc
    requires q.Length0 == |i.qkv| && q.Length1 == i.heads && q.Length2 == Dim(i)
    requires CacheShape(i, kc) && CacheShape(i, vc) && SlotsFit(i, kc) && SlotsFit(i, vc)
    modifies q, kc, vc
    ensures forall u, h, d :: 0 <= u < |i.qkv| && 0 <= h < i.heads && 0 <= d < Dim(i) ==>
              q[u, h, d] == if u == t && QueryProgramOf(i, h) == Some(g) then QueryCell(n, i, u, h, d)
                  else old(q[u, h, d])
    ensures forall b, o, k, d :: 0 <= b < kc.Length0 && 0 <= o < i.page && 0 <= k < i.kvHeads && 0 <= d < Dim(i) ==>
              kc[b, o, k, d] == if g == Groups(i) + k && TokenAt(i, b, o) == Some(t)
                                then KeyCell(n, i, t, k, d) else old(kc[b, o, k, d])
    ensures forall b, o, k, d :: 0 <= b < vc.Length0 && 0 <= o < i.page && 0 <= k < i.kvHeads && 0 <= d < Dim(i) ==>
              vc[b, o, k, d] == if g == Groups(i) + k && TokenAt(i, b, o) == Some(t)
                                then ValueCell(n, i, t, k, d) else old(vc[b, o, k, d])
  {
    forall b, o ensures SlotIs(i, t, b, o) <==> TokenAt(i, b, o) == Some(t) { OneTokenPerCell(i, t, b, o); }
    forall h: nat ensures QueryOwner(i, g, h) <==> QueryProgramOf(i, h) == Some(g) { OneQueryProgram(i, g, h); }
    if g < Groups(i) {
      QueryProgram(n, i, t, g, q);
    } else if t < |i.slots| && i.slots[t] >= 0 {
      StoreKey(n, i, t, g - Groups(i), kc);
      StoreValue(n, i, t, g - Groups(i), vc);
    }
  }

  /** A launch: every program of the grid, in any order. With distinct slots the query buffer and
      the paged cache end up as the per-token reference says, and every other cell keeps its value:
      tokens with a negative or missing slot store nothing. */
  method Launch(n: Numerics, i: Inputs, order: seq<(nat, nat)>, q: array3<int>, kc: array4<int>, vc: array4<int>)
    requires InputsOk(i) && Distinct(i) && kc != vc
    requires q.Length0 == |i.qkv| && q.Length1 == i.heads && q.Length2 == Dim(i)
    requires CacheShape(i, kc) && CacheShape(i, vc) && SlotsFit(i, kc) && SlotsFit(i, vc)
    requires forall k :: 0 <= k < |order| ==> InGrid(i, order[k])
    requires forall t: nat, g: nat :: InGrid(i, (t, g)) ==> (t, g) in order
    modifies q, kc, vc
    ensures forall t, h, d :: 0 <= t < |i.qkv| && 0 <= h < i.heads && 0 <= d < Dim(i) ==>
              q[t, h, d] == if QueryProgramOf(i, h).Some? then QueryCell(n, i, t, h, d) else old(q[t, h, d])
    ensures forall b, o, k, d :: 0 <= b < kc.Length0 && 0 <= o < i.page && 0 <= k < i.kvHeads && 0 <= d < Dim(i) ==>
              kc[b, o, k, d] == if TokenAt(i, b, o).Some? then KeyCell(n, i, TokenAt(i, b, o).value, k, d)
                  else old(kc[b, o, k, d])
    ensures forall b, o, k, d :: 0 <= b < vc.Length0 && 0 <= o < i.page && 0 <= k < i.kvHeads && 0 <= d < Dim(i) ==>
              vc[b, o, k, d] == if TokenAt(i, b, o).Some? then ValueCell(n, i, TokenAt(i, b, o).value, k, d)
                  else old(vc[b, o, k, d])
  {
    ghost var done: set<(nat, nat)> := {};
    for m := 0 to |order|
      invariant forall k :: 0 <= k < m ==> order[k] in done
      invariant forall t, h, d :: 0 <= t < |i.qkv| && 0 <= h < i.heads && 0 <= d < Dim(i) ==>
                  q[t, h, d] == if QueryProgramOf(i, h).Some? && (t, QueryProgramOf(i, h).value) in done
                                then QueryCell(n, i, t, h, d) else old(q[t, h, d])
      invariant forall b, o, k, d :: 0 <= b < kc.Length0 && 0 <= o < i.page && 0 <= k < i.kvHeads && 0 <= d < Dim(i) ==>
                  kc[b, o, k, d] == if TokenAt(i, b, o).Some? && (TokenAt(i, b, o).value, Groups(i) + k) in done
                                    then KeyCell(n, i, TokenAt(i, b, o).value, k, d) else old(kc[b, o, k, d])
      invariant forall b, o, k, d :: 0 <= b < vc.Length0 && 0 <= o < i.page && 0 <= k < i.kvHeads && 0 <= d < Dim(i) ==>
                  vc[b, o, k, d] == if TokenAt(i, b, o).Some? && (TokenAt(i, b, o).value, Groups(i) + k) in done
                                    then ValueCell(n, i, TokenAt(i, b, o).value, k, d) else old(vc[b, o, k, d])
    {
      Program(n, i, order[m].0, order[m].1, q, kc, vc);
      done := done + {order[m]};
    }
    forall t: nat, g: nat | InGrid(i, (t, g)) ensures (t, g) in done {
      assert (t, g) in order;
    }
    forall h: nat | h < i.heads && QueryProgramOf(i, h).Some? ensures QueryProgramOf(i, h).value < Groups(i) {
      OneQueryProgram(i, QueryProgramOf(i, h).value, h);
    }
  }

  /** A launch under the guard of the caller, which admits a layer only when the group size divides its
      number of heads: every query head of every token is written. */
  method GuardedLaunch(n: Numerics, i: Inputs, order: seq<(nat, nat)>, q: array3<int>, kc: array4<int>, vc: array4<int>)
    requires InputsOk(i) && Distinct(i) && kc != vc && i.heads % i.headsPerProgram == 0
    requires q.Length0 == |i.qkv| && q.Length1 == i.heads && q.Length2 == Dim(i)
    requires CacheShape(i, kc) && CacheShape(i, vc) && SlotsFit(i, kc) && SlotsFit(i, vc)
    requires forall k :: 0 <= k < |order| ==> InGrid(i, order[k])
    requires forall t: nat, g: nat :: InGrid(i, (t, g)) ==> (t, g) in order
    modifies q, kc, vc
    ensures forall t, h, d :: 0 <= t < |i.qkv| && 0 <= h < i.heads && 0 <= d < Dim(i) ==>
              q[t, h, d] == QueryCell(n, i, t, h, d)
    ensures forall b, o, k, d :: 0 <= b < kc.Length0 && 0 <= o < i.page && 0 <= k < i.kvHeads && 0 <= d < Dim(i) ==>
              kc[b, o, k, d] == if TokenAt(i, b, o).Some? then KeyCell(n, i, TokenAt(i, b, o).value, k, d)
                  else old(kc[b, o, k, d])
    ensures forall b, o, k, d :: 0 <= b < vc.Length0 && 0 <= o < i.page && 0 <= k < i.kvHeads && 0 <= d < Dim(i) ==>
              vc[b, o, k, d] == if TokenAt(i, b, o).Some? then ValueCell(n, i, TokenAt(i, b, o).value, k, d)
                  else old(vc[b, o, k, d])
  {
    AllHeadsCovered(i);
    Launch(n, i, order, q, kc, vc);
  }
}
