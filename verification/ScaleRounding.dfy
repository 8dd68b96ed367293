/**
 The input staging of DeepSeek V4 MegaMoE: every group of 32 hidden values gets a scale that
 is rounded up to a power of two on the bits of its float32, the values are divided by it,
 and the four exponent bytes of a block are packed into one int32.
 */
module ScaleRounding {
  const MANTISSA := 0x80_0000
  const BIAS := 127
  const FP8_MAX := 448.0
  /** The float32 constant 1.0e-4. */
  const FLOOR := 13743895.0 / 137438953472.0
  const FLOOR_BITS := 0x38D1_B717
  const GROUPS := 4
  const GROUP_K := 32

  function Pow2(n: int): real
    decreases if n < 0 then -n else n
  {
    if n == 0 then 1.0 else if n > 0 then 2.0 * Pow2(n - 1) else Pow2(n + 1) / 2.0
  }

  lemma {:induction false} Pow2Step(n: int)
    ensures Pow2(n + 1) == 2.0 * Pow2(n) && Pow2(n) > 0.0
    decreases if n < 0 then -n else n
  {
    if n > 0 { Pow2Step(n - 1); } else if n < 0 { Pow2Step(n + 1); }
  }

  lemma {:induction false} Pow2Ordered(m: int, n: int)
    requires m <= n
    ensures Pow2(m) <= Pow2(n)
    decreases n - m
  {
    if m < n {
      Pow2Ordered(m, n - 1);
      Pow2Step(n - 1);
    }
  }

  // ---------------------------------------------------------------- float32

  function Exponent(bits: nat): nat { bits / MANTISSA % 0x100 }

  function Mantissa(bits: nat): nat { bits % MANTISSA }

  /** The bits of a finite float32 that is not negative. */
  predicate Finite(bits: nat) { bits < 255 * MANTISSA }

  predicate Normal(bits: nat) { Finite(bits) && Exponent(bits) >= 1 }

  function Fraction(bits: nat): (f: real)
    ensures 0.0 <= f < 1.0
    ensures f == 0.0 <==> Mantissa(bits) == 0
  {
    Mantissa(bits) as real / MANTISSA as real
  }

  function Times(s: real, p: real): real { s * p }

  /** The power of two of the binade; subnormal numbers share the lowest one. */
  function Binade(bits: nat): real {
    Pow2((if Exponent(bits) == 0 then 1 else Exponent(bits)) - BIAS)
  }

  function FloatValue(bits: nat): real {
    Times((if Exponent(bits) == 0 then 0.0 else 1.0) + Fraction(bits), Binade(bits))
  }

  /** The exponent after rounding the mantissa up, before the clamp. */
  function RoundedExponent(bits: nat): nat {
    Exponent(bits) + if Mantissa(bits) != 0 then 1 else 0
  }

  function ScaleExponent(bits: nat): (e: nat)
    ensures 1 <= e <= 254
  {
    var e := RoundedExponent(bits);
    var low := if e < 1 then 1 else e;
    if low > 254 then 254 else low
  }

  /** (byte << 23) viewed as float32, the decoding of an exponent byte: a power of two. */
  function DecodeByte(byte: nat): (scale: real)
    requires 1 <= byte <= 254
    ensures scale == Pow2(byte - BIAS) && scale > 0.0
  {
    assert Mantissa(byte * MANTISSA) == 0 && Exponent(byte * MANTISSA) == byte;
    Pow2Step(byte - BIAS);
    FloatValue(byte * MANTISSA)
  }

  /** A float lies in its binade. */
  lemma InBinade(bits: nat)
    ensures Binade(bits) > 0.0
    ensures Exponent(bits) == 0 ==> 0.0 <= FloatValue(bits) < Binade(bits)
    ensures Exponent(bits) > 0 ==> Binade(bits) <= FloatValue(bits) < Binade(bits) + Binade(bits)
    ensures Exponent(bits) > 0 && Mantissa(bits) != 0 ==> Binade(bits) < FloatValue(bits)
    ensures Exponent(bits) > 0 && Mantissa(bits) == 0 ==> FloatValue(bits) == Binade(bits)
  {
    var p := Binade(bits);
    Pow2Step((if Exponent(bits) == 0 then 1 else Exponent(bits)) - BIAS);
    var f := Fraction(bits);
    StrictlyOrdered(f, 1.0, p);
    if f > 0.0 { StrictlyOrdered(0.0, f, p); }
    assert Times(1.0 + f, p) == p + Times(f, p);
  }

  lemma StrictlyOrdered(a: real, b: real, c: real)
    requires a < b && c > 0.0
    ensures Times(a, c) < Times(b, c)
  {}

  /** The next float is one unit in the last place above. */
  lemma NextFloat(bits: nat)
    requires Finite(bits + 1)
    ensures FloatValue(bits + 1) == FloatValue(bits) + Binade(bits) / MANTISSA as real
  {
    var p := Binade(bits);
    FieldsNext(bits);
    if Mantissa(bits) + 1 < MANTISSA {
      assert Fraction(bits + 1) == Fraction(bits) + 1.0 / MANTISSA as real;
      Unit(if Exponent(bits) == 0 then Fraction(bits) else 1.0 + Fraction(bits), p);
    } else {
      assert Fraction(bits) == 1.0 - 1.0 / MANTISSA as real;
      Pow2Step(Exponent(bits) - BIAS);
      Unit(if Exponent(bits) == 0 then Fraction(bits) else 1.0 + Fraction(bits), p);
    }
  }

  /** The fields of the next float. */
  lemma FieldsNext(bits: nat)
    requires Finite(bits + 1)
    ensures Mantissa(bits) + 1 < MANTISSA ==>
              Exponent(bits + 1) == Exponent(bits) && Mantissa(bits + 1) == Mantissa(bits) + 1
    ensures Mantissa(bits) + 1 == MANTISSA ==> Exponent(bits + 1) == Exponent(bits) + 1 && Mantissa(bits + 1) == 0
  {
    var e, m := bits / MANTISSA, bits % MANTISSA;
    assert bits == e * MANTISSA + m && e < 255;
  }

  lemma Unit(s: real, p: real)
    ensures Times(s + 1.0 / MANTISSA as real, p) == Times(s, p) + p / MANTISSA as real
  {}

  /** Floats are ordered as their bits. */
  lemma {:induction false} FloatsOrdered(a: nat, b: nat)
    requires a < b && Finite(b)
    ensures FloatValue(a) < FloatValue(b)
    decreases b
  {
    NextFloat(b - 1);
    InBinade(b - 1);
    if a < b - 1 { FloatsOrdered(a, b - 1); }
  }

  /** The chosen scale is the least power of two that is not below the float32 scale, exactly when
      the clamp at 254 does not bite. */
  lemma LeastPowerOfTwo(bits: nat)
    requires Normal(bits)
    ensures var chosen, scale := DecodeByte(ScaleExponent(bits)), FloatValue(bits);
            && (RoundedExponent(bits) <= 254 <==> chosen >= scale)
            && (RoundedExponent(bits) <= 254 ==> forall n: int :: Pow2(n) >= scale ==> Pow2(n) >= chosen)
  {
    var e := Exponent(bits) - BIAS;
    InBinade(bits);
    Pow2Step(e);
    if RoundedExponent(bits) <= 254 {
      forall n: int | Pow2(n) >= FloatValue(bits) ensures Pow2(n) >= DecodeByte(ScaleExponent(bits)) {
        if Mantissa(bits) != 0 {
          if n <= e { Pow2Ordered(n, e); } else { Pow2Ordered(e + 1, n); }
        }
      }
    }
  }

  // ---------------------------------------------------------------- rounding of the quotient

  function Abs(x: real): real { if x < 0.0 then -x else x }

  /** A faithful rounding of `x`: no float lies between `x` and the result. */
  predicate Faithful(bits: nat, x: real) {
    && Finite(bits)
    && (Finite(bits + 1) ==> x < FloatValue(bits + 1))
    && (bits > 0 ==> FloatValue(bits - 1) < x)
  }

  /** Rounding to nearest, ties either way. */
  ghost predicate Nearest(bits: nat, x: real) {
    Finite(bits) && forall b: nat :: Finite(b) ==> Abs(FloatValue(bits) - x) <= Abs(FloatValue(b) - x)
  }

  lemma NearestIsFaithful(bits: nat, x: real)
    requires Nearest(bits, x)
    ensures Faithful(bits, x)
  {
    if Finite(bits + 1) { FloatsOrdered(bits, bits + 1); }
    if bits > 0 { FloatsOrdered(bits - 1, bits); }
  }

  /** The quotients by 448 of finite float32 magnitudes, floored. */
  predicate InRange(x: real) { FLOOR / FP8_MAX <= x < Pow2(128) / FP8_MAX }

  lemma SmallPowers(low: int, high: int)
    requires low <= -24 && high == 120
    ensures 0.0 < Pow2(low) <= FLOOR / FP8_MAX && Pow2(high + 8) / FP8_MAX < Pow2(high)
  {
    Pow2Eight(-8);
    Pow2Eight(-16);
    Pow2Eight(-24);
    Pow2Ordered(low, -24);
    Pow2Step(low);
    Pow2Eight(high);
    Pow2Step(high);
  }

  lemma Pow2Eight(e: int)
    ensures Pow2(e + 8) == 256.0 * Pow2(e)
  {
    Pow2Step(e);
    Pow2Step(e + 1);
    Pow2Step(e + 2);
    Pow2Step(e + 3);
    Pow2Step(e + 4);
    Pow2Step(e + 5);
    Pow2Step(e + 6);
    Pow2Step(e + 7);
  }

  lemma AboveBinade(bits: nat, e: int)
    requires Exponent(bits) > 0 && e <= Exponent(bits) - BIAS
    ensures FloatValue(bits) >= Pow2(e)
  {
    InBinade(bits);
    Pow2Ordered(e, Exponent(bits) - BIAS);
  }

  lemma BelowBinade(bits: nat, e: int)
    requires Exponent(bits) - BIAS < e && 1 - BIAS < e
    ensures FloatValue(bits) < Pow2(e)
  {
    InBinade(bits);
    var low := (if Exponent(bits) == 0 then 1 else Exponent(bits)) - BIAS;
    Pow2Step(low);
    Pow2Ordered(low + 1, e);
  }

  /** The fields of the floats around one. */
  lemma Neighbours(bits: nat)
    requires Finite(bits) && Exponent(bits) >= 1
    ensures Mantissa(bits) != 0 ==> Exponent(bits - 1) == Exponent(bits)
    ensures Mantissa(bits) == 0 ==> Exponent(bits - 1) == Exponent(bits) - 1
    ensures Mantissa(bits) + 1 < MANTISSA ==> Exponent(bits + 1) == Exponent(bits)
    ensures Mantissa(bits) + 1 == MANTISSA ==> Exponent(bits + 1) == Exponent(bits) + 1 && Mantissa(bits + 1) == 0
  {
    var e, m := bits / MANTISSA, bits % MANTISSA;
    assert bits == e * MANTISSA + m && e < 255;
  }

  lemma ExponentNext(bits: nat)
    requires Finite(bits)
    ensures Exponent(bits + 1) <= Exponent(bits) + 1
    ensures Exponent(bits) >= 1 ==> Exponent(bits - 1) >= Exponent(bits) - 1
  {
    var e, m := bits / MANTISSA, bits % MANTISSA;
    assert bits == e * MANTISSA + m && e < 255;
  }

  /** Neither clamp bites for any finite block, however the quotient is rounded. */
  lemma ClampsIdle(bits: nat, x: real)
    requires Faithful(bits, x) && InRange(x)
    ensures 2 <= Exponent(bits) <= 247 && Normal(bits)
    ensures ScaleExponent(bits) == RoundedExponent(bits)
  {
    SmallPowers(-124, 120);
    ExponentNext(bits);
    if Exponent(bits) >= 248 { AboveBinade(bits - 1, 120); }
    if Exponent(bits) < 2 { BelowBinade(bits + 1, -124); }
  }

  /** The floats around the result bound the quotient by the binade. */
  lemma QuotientInBinade(bits: nat, x: real)
    requires Faithful(bits, x) && 2 <= Exponent(bits) <= 247
    ensures var b := Binade(bits);
            && (Mantissa(bits) != 0 ==> b < x < b + b)
            && (Mantissa(bits) == 0 ==> b < x + x)
  {
    var e := Exponent(bits) - BIAS;
    Neighbours(bits);
    Pow2Step(e);
    Pow2Step(e - 1);
    InBinade(bits + 1);
    AboveBinade(bits - 1, if Mantissa(bits) == 0 then e - 1 else e);
  }

  /** For any faithful rounding the chosen scale covers the true quotient unless that was rounded down
      to a power of two; when it covers it, it is the least power of two that does. */
  lemma CoversQuotientIff(bits: nat, x: real)
    requires Faithful(bits, x) && InRange(x)
    ensures var chosen := DecodeByte(ScaleExponent(bits));
            && (chosen >= x <==> !(Mantissa(bits) == 0 && x > FloatValue(bits)))
            && (chosen >= x ==> forall n: int :: Pow2(n) >= x ==> Pow2(n) >= chosen)
  {
    ClampsIdle(bits, x);
    QuotientInBinade(bits, x);
    InBinade(bits);
    var e := Exponent(bits) - BIAS;
    Pow2Step(e);
    Pow2Step(e - 1);
    var chosen := DecodeByte(ScaleExponent(bits));
    if chosen >= x {
      forall n: int | Pow2(n) >= x ensures Pow2(n) >= chosen {
        if Mantissa(bits) != 0 {
          if n <= e { Pow2Ordered(n, e); } else { Pow2Ordered(e + 1, n); }
        } else {
          if n < e { Pow2Ordered(n, e - 1); } else { Pow2Ordered(e, n); }
        }
      }
    }
  }

  /** The float 448 * 2^e, for a power of two with bits `bits`. */
  lemma SevenQuarters(bits: nat) returns (b: nat)
    requires Mantissa(bits) == 0 && 2 <= Exponent(bits) <= 246 && Finite(bits)
    ensures Finite(b + 1) && Exponent(b) == Exponent(bits) + 8 && Fraction(b) == 0.75
  {
    b := bits + 8 * MANTISSA + 0x60_0000;
    assert bits == Exponent(bits) * MANTISSA;
    assert b / MANTISSA == Exponent(bits) + 8 && Mantissa(b) == 0x60_0000;
  }

  lemma SevenQuartersValue(bits: nat, b: nat)
    requires 2 <= Exponent(bits) && Exponent(b) == Exponent(bits) + 8 && Fraction(b) == 0.75
    ensures FloatValue(b) == FP8_MAX * Binade(bits) && Binade(b) == 256.0 * Binade(bits)
  {
    Pow2Eight(Exponent(bits) - BIAS);
  }

  /** The first float above 448 times a power of two is more than half a unit of the quotient above. */
  lemma NextAbove(bits: nat, b: nat)
    requires Mantissa(bits) == 0 && 2 <= Exponent(bits) <= 246 && Finite(bits) && Finite(b)
    requires FloatValue(b) > FP8_MAX * Binade(bits)
    ensures FloatValue(b) >= FP8_MAX * Binade(bits) + Binade(bits) / 32768.0
  {
    var b0 := SevenQuarters(bits);
    SevenQuartersValue(bits, b0);
    NextFloat(b0);
    if b < b0 { FloatsOrdered(b, b0); } else if b > b0 + 1 { FloatsOrdered(b0 + 1, b); }
  }

  lemma {:induction false} FiniteBelow(b: nat)
    requires Finite(b)
    ensures FloatValue(b) < Pow2(128)
  {
    InBinade(b);
    var e := (if Exponent(b) == 0 then 1 else Exponent(b)) - BIAS;
    Pow2Ordered(e, 127);
    Pow2Step(127);
  }

  /** To nearest, a quotient is rounded down by at most half a unit. */
  lemma HalfUnit(bits: nat, x: real)
    requires Nearest(bits, x) && Finite(bits + 1) && x >= FloatValue(bits)
    ensures x - FloatValue(bits) <= Binade(bits) / 16777216.0
  {
    NextFloat(bits);
    NearestIsFaithful(bits, x);
    assert Abs(FloatValue(bits) - x) <= Abs(FloatValue(bits + 1) - x);
  }

  /** Rounded to nearest, the quotient of a float32 magnitude is never rounded down to a power of two. */
  lemma NeverRoundedDown(bits: nat, b: nat)
    requires Finite(b) && Nearest(bits, FloatValue(b) / FP8_MAX)
    requires 2 <= Exponent(bits) <= 246 && Mantissa(bits) == 0
    ensures FloatValue(b) / FP8_MAX <= FloatValue(bits)
  {
    InBinade(bits);
    if FloatValue(b) > FP8_MAX * Binade(bits) {
      NextAbove(bits, b);
      HalfUnit(bits, FloatValue(b) / FP8_MAX);
    }
  }

  /** So for every finite block the chosen scale covers the quotient and is the least power of two
      that does. */
  lemma NearestCovers(bits: nat, b: nat)
    requires Finite(b) && FloatValue(b) >= FLOOR && Nearest(bits, FloatValue(b) / FP8_MAX)
    ensures var chosen, x := DecodeByte(ScaleExponent(bits)), FloatValue(b) / FP8_MAX;
            chosen >= x && forall n: int :: Pow2(n) >= x ==> Pow2(n) >= chosen
  {
    var x := FloatValue(b) / FP8_MAX;
    FiniteBelow(b);
    NearestIsFaithful(bits, x);
    ClampsIdle(bits, x);
    CoversQuotientIff(bits, x);
    if Mantissa(bits) == 0 {
      if Exponent(bits) == 247 {
        SmallPowers(-24, 120);
        AboveBinade(bits, 120);
      } else {
        NeverRoundedDown(bits, b);
      }
    }
  }

  // ---------------------------------------------------------------- packing

  /** The four bytes as one word, lowest group first. */
  function Word(bytes: seq<nat>): nat
    requires |bytes| == GROUPS
  {
    bytes[0] + 0x100 * (bytes[1] + 0x100 * (bytes[2] + 0x100 * bytes[3]))
  }

  /** The word stored as an int32. */
  function Pack(bytes: seq<nat>): int
    requires |bytes| == GROUPS
  {
    if Word(bytes) >= 0x8000_0000 then Word(bytes) as int - 0x1_0000_0000 else Word(bytes)
  }

  function ShiftRight(word: nat, g: nat): nat {
    if g == 0 then word else ShiftRight(word / 0x100, g - 1)
  }

  /** Byte `g` of the two's-complement word. */
  function Unpack(packed: int, g: nat): nat
    requires g < GROUPS
  {
    ShiftRight(packed % 0x1_0000_0000, g) % 0x100
  }

  /** Packing loses nothing, sign bit included. */
  lemma PackRoundTrips(bytes: seq<nat>, g: nat)
    requires |bytes| == GROUPS && g < GROUPS
    requires forall i :: 0 <= i < GROUPS ==> bytes[i] < 0x100
    ensures -0x8000_0000 <= Pack(bytes) < 0x8000_0000
    ensures Unpack(Pack(bytes), g) == bytes[g]
  {
    var w3 := bytes[3];
    var w2 := bytes[2] + 0x100 * w3;
    var w1 := bytes[1] + 0x100 * w2;
    var word := bytes[0] + 0x100 * w1;
    assert word == Word(bytes) && word < 0x1_0000_0000;
    assert Pack(bytes) % 0x1_0000_0000 == word;
    assert word / 0x100 == w1 && w1 / 0x100 == w2 && w2 / 0x100 == w3;
    assert ShiftRight(word, 1) == ShiftRight(w1, 0);
    assert ShiftRight(word, 2) == ShiftRight(w1, 1) == ShiftRight(w2, 0);
    assert ShiftRight(word, 3) == ShiftRight(w1, 2) == ShiftRight(w2, 1) == ShiftRight(w3, 0);
  }

  // ---------------------------------------------------------------- one program

  /** The maximum magnitude of the first `n` values of a group, floored at 1e-4. */
  function GroupMax(group: seq<real>, n: nat): real
    requires n <= |group|
  {
    if n == 0 then FLOOR
    else
      var m := GroupMax(group, n - 1);
      if Abs(group[n - 1]) > m then Abs(group[n - 1]) else m
  }

  lemma {:induction false} GroupMaxBounds(group: seq<real>, n: nat)
    requires n <= |group|
    ensures forall i :: 0 <= i < n ==> Abs(group[i]) <= GroupMax(group, n)
    ensures GroupMax(group, n) == FLOOR || exists i :: 0 <= i < n && Abs(group[i]) == GroupMax(group, n)
    ensures GroupMax(group, n) >= FLOOR
  {
    if n > 0 { GroupMaxBounds(group, n - 1); }
  }

  predicate IsFloat(x: real, b: nat) { Finite(b) && FloatValue(b) == x }

  /** The magnitudes of the group are finite float32 numbers. */
  ghost predicate FloatGroup(group: seq<real>) {
    forall i :: 0 <= i < |group| ==> exists b :: IsFloat(Abs(group[i]), b)
  }

  lemma GroupMaxIsFloat(group: seq<real>)
    requires FloatGroup(group)
    ensures exists b :: IsFloat(GroupMax(group, |group|), b)
  {
    GroupMaxBounds(group, |group|);
    if GroupMax(group, |group|) == FLOOR {
      assert Exponent(FLOOR_BITS) == 113 && Mantissa(FLOOR_BITS) == 0x51_B717;
      assert Pow2(-14) == 1.0 / 16384.0;
      assert IsFloat(FLOOR, FLOOR_BITS);
    }
  }

  /** Dividing by a scale keeps a magnitude within 448 exactly when the scale is large enough. */
  lemma QuotientBoundIff(x: real, chosen: real)
    requires chosen > 0.0
    ensures Abs(x * (1.0 / chosen)) <= FP8_MAX <==> Abs(x) / FP8_MAX <= chosen
  {
    var inv := 1.0 / chosen;
    assert chosen * inv == 1.0;
    AbsMul(x, inv, chosen);
    Cancel(Abs(x) * inv, FP8_MAX, chosen);
    Associates(Abs(x), inv, chosen);
  }

  lemma AbsMul(x: real, inv: real, chosen: real)
    requires chosen > 0.0 && chosen * inv == 1.0
    ensures inv > 0.0 && Abs(x * inv) == Abs(x) * inv
  {}

  lemma Associates(a: real, b: real, c: real)
    ensures a * b * c == a * (b * c)
  {}

  lemma Cancel(a: real, b: real, c: real)
    requires c > 0.0
    ensures a <= b <==> a * c <= b * c
  {}

  /** The value a lane hands to the fp8 conversion. */
  function Scaled(x: real, byte: nat): real
    requires 1 <= byte <= 254
  {
    x * (1.0 / DecodeByte(byte))
  }

  /** The value handed to the conversion, times the scale, is the input. */
  predicate Restores(x: real, byte: nat)
    requires 1 <= byte <= 254
  {
    Scaled(x, byte) * DecodeByte(byte) == x
  }

  /** Scaling is undone by the decoded scale, sign included. */
  lemma ScaledInverts(x: real, byte: nat)
    requires 1 <= byte <= 254
    ensures Restores(x, byte)
  {
    InverseCancels(x, DecodeByte(byte));
  }

  lemma InverseCancels(x: real, scale: real)
    requires scale > 0.0
    ensures x * (1.0 / scale) * scale == x
  {
    var inv := 1.0 / scale;
    assert inv * scale == 1.0;
    Associates(x, inv, scale);
  }

  lemma ScaledBoundIff(x: real, byte: nat)
    requires 1 <= byte <= 254
    ensures Abs(Scaled(x, byte)) <= FP8_MAX <==> Abs(x) / FP8_MAX <= DecodeByte(byte)
    ensures x >= 0.0 ==> Scaled(x, byte) >= 0.0
  {
    QuotientBoundIff(x, DecodeByte(byte));
    AbsMul(x, 1.0 / DecodeByte(byte), DecodeByte(byte));
  }

  lemma ScaledWithin(x: real, m: real, byte: nat)
    requires 1 <= byte <= 254 && Abs(x) <= m && m / FP8_MAX <= DecodeByte(byte)
    ensures Abs(Scaled(x, byte)) <= FP8_MAX
  {
    ScaledBoundIff(x, byte);
  }

  /** The group's quotient was rounded down to a power of two. */
  predicate RoundedDown(group: seq<real>, bits: nat) {
    Mantissa(bits) == 0 && GroupMax(group, |group|) / FP8_MAX > FloatValue(bits)
  }

  /** For any faithful rounding of the quotient, the largest magnitude stays within 448 exactly when the
      quotient was not rounded down to a power of two. */
  lemma MaxBoundedIff(group: seq<real>, bits: nat)
    requires var x := GroupMax(group, |group|) / FP8_MAX; Faithful(bits, x) && InRange(x)
    ensures Scaled(GroupMax(group, |group|), ScaleExponent(bits)) <= FP8_MAX <==> !RoundedDown(group, bits)
  {
    var m := GroupMax(group, |group|);
    GroupMaxBounds(group, |group|);
    CoversQuotientIff(bits, m / FP8_MAX);
    ScaledBoundIff(m, ScaleExponent(bits));
  }

  /** Then every lane stays within 448. */
  lemma FaithfulLaneBounded(group: seq<real>, bits: nat, i: nat)
    requires var x := GroupMax(group, |group|) / FP8_MAX; Faithful(bits, x) && InRange(x)
    requires i < |group| && !RoundedDown(group, bits)
    ensures Abs(Scaled(group[i], ScaleExponent(bits))) <= FP8_MAX
  {
    var m := GroupMax(group, |group|);
    GroupMaxBounds(group, |group|);
    CoversQuotientIff(bits, m / FP8_MAX);
    ScaledWithin(group[i], m, ScaleExponent(bits));
  }

  /** With the quotient rounded to nearest, no lane of a finite group ever exceeds 448. */
  lemma LaneBounded(group: seq<real>, bits: nat, i: nat)
    requires i < |group| && FloatGroup(group) && Nearest(bits, GroupMax(group, |group|) / FP8_MAX)
    ensures Abs(Scaled(group[i], ScaleExponent(bits))) <= FP8_MAX
  {
    var m := GroupMax(group, |group|);
    GroupMaxIsFloat(group);
    GroupMaxBounds(group, |group|);
    var b :| IsFloat(m, b);
    NearestCovers(bits, b);
    ScaledWithin(group[i], m, ScaleExponent(bits));
  }

  predicate BlockShape(hidden: seq<seq<real>>) {
    |hidden| == GROUPS && forall g :: 0 <= g < GROUPS ==> |hidden[g]| == GROUP_K
  }

  /** One grid program on its block, reshaped to four groups: `scaleBits[g]` are the bits of the
      float32 quotient amax / 448 of group `g`, `quantize` the conversion to fp8. The stored word
      holds the rounded exponents and decodes to the very scale every lane was divided by; with
      the quotient rounded to nearest no scaled magnitude of a finite group exceeds 448. */
  method StageBlock(hidden: seq<seq<real>>, scaleBits: seq<nat>, quantize: real -> int)
      returns (fp8: seq<seq<int>>, packed: int)
    requires BlockShape(hidden) && |scaleBits| == GROUPS
    ensures |fp8| == 4 && -0x8000_0000 <= packed < 0x8000_0000
    ensures forall g :: 0 <= g < GROUPS ==> Unpack(packed, g) == ScaleExponent(scaleBits[g]) && |fp8[g]| == 32
    ensures forall g, i :: 0 <= g < GROUPS && 0 <= i < GROUP_K ==>
              var byte := Unpack(packed, g);
              1 <= byte <= 254 && fp8[g][i] == quantize(Scaled(hidden[g][i], byte)) && Restores(hidden[g][i], byte)
    ensures forall g, i :: 0 <= g < GROUPS && 0 <= i < GROUP_K && FloatGroup(hidden[g])
                           && Nearest(scaleBits[g], GroupMax(hidden[g], GROUP_K) / FP8_MAX) ==>
              Abs(Scaled(hidden[g][i], ScaleExponent(scaleBits[g]))) <= FP8_MAX
  {
    var bytes: seq<nat> := [];
    fp8 := [];
    for g := 0 to GROUPS
      invariant |fp8| == |bytes| == g
      invariant forall k :: 0 <= k < g ==> bytes[k] == ScaleExponent(scaleBits[k]) && |fp8[k]| == GROUP_K
      invariant forall k, i :: 0 <= k < g && 0 <= i < GROUP_K ==>
                  fp8[k][i] == quantize(Scaled(hidden[k][i], ScaleExponent(scaleBits[k])))
    {
      var byte := ScaleExponent(scaleBits[g]);
      var lanes := seq(GROUP_K, i requires 0 <= i < GROUP_K => quantize(Scaled(hidden[g][i], byte)));
      bytes := bytes + [byte];
      fp8 := fp8 + [lanes];
    }
    packed := Pack(bytes);
    PackRoundTrips(bytes, 0);
    forall g | 0 <= g < GROUPS ensures Unpack(packed, g) == bytes[g] { PackRoundTrips(bytes, g); }
    forall g, i | 0 <= g < GROUPS && 0 <= i < GROUP_K
      ensures Restores(hidden[g][i], bytes[g])
    {
      ScaledInverts(hidden[g][i], bytes[g]);
    }
    forall g, i | 0 <= g < GROUPS && 0 <= i < GROUP_K && FloatGroup(hidden[g])
                  && Nearest(scaleBits[g], GroupMax(hidden[g], GROUP_K) / FP8_MAX)
      ensures Abs(Scaled(hidden[g][i], ScaleExponent(scaleBits[g]))) <= FP8_MAX
    {
      LaneBounded(hidden[g], scaleBits[g], i);
    }
  }
}
