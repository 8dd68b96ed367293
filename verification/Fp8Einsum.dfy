/**
 The Triton fallback for the DeepSeek V4 FP8 einsum "bhr,hdr->bhd": a grid of programs, each
 computing 128 outputs of one (b, h) pair from blocks of 64 reduction steps, with masked loads
 and clamped scale indices. Arithmetic is exact; the programs of the grid run in any order.
 */
module Fp8Einsum {
  import opened Arithmetic

  const BLOCK_D := 128
  const BLOCK_R := 64

  /** Quantized operands and their block scales. */
  datatype Operands = Operands(
    a: (nat, nat, nat) -> real, aScale: (nat, nat, nat) -> real,
    b: (nat, nat, nat) -> real, bScale: (nat, nat, nat) -> real)

  datatype Shape = Shape(B: nat, H: nat, R: nat, D: nat, aScaleLast: nat, bRowBlocks: nat, bColBlocks: nat)

  predicate ShapeOk(s: Shape) {
    s.H > 0 && s.aScaleLast > 0 && s.bRowBlocks > 0 && s.bColBlocks > 0
  }

  function CeilDiv(n: nat, d: nat): nat
    requires d > 0
  {
    (n + d - 1) / d
  }

  /** The least number of blocks of size `d` that cover `n`. */
  lemma CeilDivIsLeast(n: nat, d: nat, k: nat)
    requires d > 0
    ensures k * d >= n <==> k >= CeilDiv(n, d)
  {
    var m := n + d - 1;
    var c := m / d;
    assert m == c * d + m % d;
    if k >= c { MulOrdered(c, k, d); } else { MulGap(k, c, d); }
  }

  function Min(a: int, b: int): int { if a < b then a else b }

  /** offs // block, clamped to the last block, as the kernel computes it. */
  function ClampedBlock(offs: nat, block: nat, blocks: nat): nat
    requires block > 0 && blocks > 0
  {
    Min(offs / block, blocks - 1)
  }

  /** Blocks of ceiling size cover the axis, so the clamp never moves a live lane. */
  lemma ClampIsIdle(offs: nat, extent: nat, blocks: nat)
    requires blocks > 0 && offs < extent
    ensures CeilDiv(extent, blocks) > 0
    ensures ClampedBlock(offs, CeilDiv(extent, blocks), blocks) == offs / CeilDiv(extent, blocks) < blocks
  {
    var n := extent + blocks - 1;
    var block := n / blocks;
    assert n == block * blocks + n % blocks;
    if block <= 0 { MulOrdered(block, 0, blocks); }
    assert extent <= block * blocks;
    QuotientBelow(offs, block, blocks);
  }

  lemma QuotientBelow(x: nat, d: nat, q: nat)
    requires d > 0 && x < d * q
    ensures x / d < q
  {
    var r := x / d;
    assert r * d <= x;
    if r >= q { MulOrdered(q, r, d); }
  }

  // ---------------------------------------------------------------- reference

  /** One product of the sum, scaled by the blocks that r and d fall in. */
  function Term(p: Operands, s: Shape, b: nat, h: nat, d: nat, r: nat): real
    requires ShapeOk(s) && r < s.R && d < s.D
  {
    ClampIsIdle(r, s.R, s.aScaleLast);
    ClampIsIdle(d, s.D, s.bRowBlocks);
    ClampIsIdle(r, s.R, s.bColBlocks);
    (p.b(h, d, r) * p.bScale(h, d / CeilDiv(s.D, s.bRowBlocks), r / CeilDiv(s.R, s.bColBlocks)))
    * (p.a(b, h, r) * p.aScale(b, h, r / CeilDiv(s.R, s.aScaleLast)))
  }

  /** The scaled dot product over the first `n` reduction indices. */
  function Dot(p: Operands, s: Shape, b: nat, h: nat, d: nat, n: nat): real
    requires ShapeOk(s) && n <= s.R && d < s.D
  {
    if n == 0 then 0.0 else Dot(p, s, b, h, d, n - 1) + Term(p, s, b, h, d, n - 1)
  }

  // ---------------------------------------------------------------- kernel

  /** One lane of the product tile: masked loads give 0, live lanes use the clamped scale indices. */
  function Lane(p: Operands, s: Shape, b: nat, h: nat, d: nat, r: nat): real
    requires ShapeOk(s)
  {
    if d < s.D && r < s.R then
      ClampIsIdle(r, s.R, s.aScaleLast);
      ClampIsIdle(d, s.D, s.bRowBlocks);
      ClampIsIdle(r, s.R, s.bColBlocks);
      (p.b(h, d, r) * p.bScale(h, ClampedBlock(d, CeilDiv(s.D, s.bRowBlocks), s.bRowBlocks),
                                  ClampedBlock(r, CeilDiv(s.R, s.bColBlocks), s.bColBlocks)))
      * (p.a(b, h, r) * p.aScale(b, h, ClampedBlock(r, CeilDiv(s.R, s.aScaleLast), s.aScaleLast)))
    else 0.0
  }

  /** tl.sum over the first `lanes` reduction lanes of a tile that starts at `r0`. */
  function LaneSum(p: Operands, s: Shape, b: nat, h: nat, d: nat, r0: nat, lanes: nat): real
    requires ShapeOk(s)
  {
    if lanes == 0 then 0.0 else LaneSum(p, s, b, h, d, r0, lanes - 1) + Lane(p, s, b, h, d, r0 + lanes - 1)
  }

  lemma LaneIsTerm(p: Operands, s: Shape, b: nat, h: nat, d: nat, r: nat)
    requires ShapeOk(s) && d < s.D && r < s.R
    ensures Lane(p, s, b, h, d, r) == Term(p, s, b, h, d, r)
  {
    ClampIsIdle(r, s.R, s.aScaleLast);
    ClampIsIdle(d, s.D, s.bRowBlocks);
    ClampIsIdle(r, s.R, s.bColBlocks);
  }

  /** A tile adds exactly the terms it covers; the lanes past the end add nothing. */
  lemma {:induction false} TileAdds(p: Operands, s: Shape, b: nat, h: nat, d: nat, r0: nat, lanes: nat)
    requires ShapeOk(s) && d < s.D && r0 <= s.R
    ensures Dot(p, s, b, h, d, Min(r0 + lanes, s.R))
            == Dot(p, s, b, h, d, r0) + LaneSum(p, s, b, h, d, r0, lanes)
  {
    if lanes > 0 {
      TileAdds(p, s, b, h, d, r0, lanes - 1);
      if r0 + lanes - 1 < s.R { LaneIsTerm(p, s, b, h, d, r0 + lanes - 1); }
    }
  }

  /** The cells a program owns. */
  predicate Owns(s: Shape, pidBh: nat, pidD: nat, b: nat, h: nat, d: nat) {
    s.H > 0 && b == pidBh / s.H && h == pidBh % s.H && pidD * BLOCK_D <= d < (pidD + 1) * BLOCK_D
  }

  /** The reduction loop: one accumulator per output lane. */
  method Accumulate(p: Operands, s: Shape, b: nat, h: nat, first: nat) returns (acc: seq<real>)
    requires ShapeOk(s)
    ensures |acc| == BLOCK_D
    ensures forall i :: 0 <= i < BLOCK_D && first + i < s.D ==> acc[i] == Dot(p, s, b, h, first + i, s.R)
  {
    acc := seq(BLOCK_D, _ => 0.0);
    var r0 := 0;
    while r0 < s.R
      invariant |acc| == BLOCK_D
      invariant forall i :: 0 <= i < BLOCK_D && first + i < s.D ==> acc[i] == Dot(p, s, b, h, first + i, Min(r0, s.R))
      decreases s.R - r0
    {
      acc := AddTile(p, s, b, h, first, r0, acc);
      r0 := r0 + BLOCK_R;
    }
  }

  /** One round of the reduction loop. */
  method AddTile(p: Operands, s: Shape, b: nat, h: nat, first: nat, r0: nat, acc: seq<real>) returns (acc': seq<real>)
    requires ShapeOk(s) && r0 < s.R && |acc| == BLOCK_D
    requires forall i :: 0 <= i < BLOCK_D && first + i < s.D ==> acc[i] == Dot(p, s, b, h, first + i, r0)
    ensures |acc'| == BLOCK_D
    ensures forall i :: 0 <= i < BLOCK_D && first + i < s.D ==>
              acc'[i] == Dot(p, s, b, h, first + i, Min(r0 + BLOCK_R, s.R))
  {
    acc' := seq(BLOCK_D, i requires 0 <= i < BLOCK_D => acc[i] + LaneSum(p, s, b, h, first + i, r0, BLOCK_R));
    forall i | 0 <= i < BLOCK_D && first + i < s.D
      ensures acc'[i] == Dot(p, s, b, h, first + i, Min(r0 + BLOCK_R, s.R))
    {
      TileAdds(p, s, b, h, first + i, r0, BLOCK_R);
    }
  }

  /** One grid program: reduce, then store the live lanes. */
  method Program(p: Operands, s: Shape, pidBh: nat, pidD: nat, out: array3<real>)
    requires ShapeOk(s) && pidBh < s.B * s.H && pidD < CeilDiv(s.D, BLOCK_D)
    requires out.Length0 == s.B && out.Length1 == s.H && out.Length2 == s.D
    modifies out
    ensures forall b, h, d :: 0 <= b < s.B && 0 <= h < s.H && 0 <= d < s.D ==>
              out[b, h, d] == if Owns(s, pidBh, pidD, b, h, d) then Dot(p, s, b, h, d, s.R) else old(out[b, h, d])
  {
    var b, h := pidBh / s.H, pidBh % s.H;
    MulCommutes(s.B, s.H);
    QuotientBelow(pidBh, s.H, s.B);
    var first := pidD * BLOCK_D;
    var acc := Accumulate(p, s, b, h, first);
    forall d | first <= d < s.D && d < first + BLOCK_D {
      out[b, h, d] := acc[d - first];
    }
    forall d | first <= d < s.D && d < first + BLOCK_D ensures acc[d - first] == Dot(p, s, b, h, d, s.R) {
      assert d == first + (d - first);
    }
  }

  lemma MulCommutes(a: int, b: int)
    ensures a * b == b * a
  {}

  /** Every output cell has exactly one owner in the grid. */
  lemma OneOwner(s: Shape, b: nat, h: nat, d: nat)
    requires b < s.B && h < s.H && d < s.D
    ensures b * s.H + h < s.B * s.H && d / BLOCK_D < CeilDiv(s.D, BLOCK_D)
    ensures forall pidBh: nat, pidD: nat :: Owns(s, pidBh, pidD, b, h, d) <==>
              pidBh == b * s.H + h && pidD == d / BLOCK_D
  {
    MulOrdered(b + 1, s.B, s.H);
    assert (b + 1) * s.H == b * s.H + s.H;
    forall pidBh: nat, pidD: nat
      ensures Owns(s, pidBh, pidD, b, h, d) <==> pidBh == b * s.H + h && pidD == d / BLOCK_D
    {
      DivMod(pidBh, s.H, b, h);
    }
  }

  lemma DivMod(x: nat, n: nat, q: nat, r: nat)
    requires r < n
    ensures x / n == q && x % n == r <==> x == q * n + r
  {
    assert x / n * n + x % n == x;
    if x == q * n + r { DivModUnique(x, q, r, n); }
  }

  predicate InGrid(s: Shape, pid: (nat, nat)) {
    pid.0 < s.B * s.H && pid.1 < CeilDiv(s.D, BLOCK_D)
  }

  /** A launch: the programs of the grid in some order. Whatever the order, every output ends up
      with the full scaled dot product. */
  method Launch(p: Operands, s: Shape, order: seq<(nat, nat)>, out: array3<real>)
    requires ShapeOk(s)
    requires forall i :: 0 <= i < |order| ==> InGrid(s, order[i])
    requires forall x: nat, y: nat :: InGrid(s, (x, y)) ==> (x, y) in order
    requires out.Length0 == s.B && out.Length1 == s.H && out.Length2 == s.D
    modifies out
    ensures forall b, h, d :: 0 <= b < s.B && 0 <= h < s.H && 0 <= d < s.D ==> out[b, h, d] == Dot(p, s, b, h, d, s.R)
  {
    for n := 0 to |order|
      invariant forall i, b, h, d ::
                  0 <= i < n && 0 <= b < s.B && 0 <= h < s.H && 0 <= d < s.D && Owns(s, order[i].0, order[i].1, b, h, d)
                  ==> out[b, h, d] == Dot(p, s, b, h, d, s.R)
    {
      Program(p, s, order[n].0, order[n].1, out);
    }
    forall b, h, d | 0 <= b < s.B && 0 <= h < s.H && 0 <= d < s.D ensures out[b, h, d] == Dot(p, s, b, h, d, s.R) {
      OneOwner(s, b, h, d);
      var pid := (b * s.H + h, d / BLOCK_D);
      assert InGrid(s, pid);
      var i :| 0 <= i < |order| && order[i] == pid;
      assert Owns(s, order[i].0, order[i].1, b, h, d);
    }
  }
}
