/** Little-endian signed 16-bit PCM, and Python's half-to-even rounding of an exact rational. */
module Pcm {
  const SAMPLE_MIN := -32768
  const SAMPLE_MAX := 32767

  type Byte = b: int | 0 <= b < 256
  type Sample = s: int | SAMPLE_MIN <= s <= SAMPLE_MAX

  function Max(a: int, b: int): int { if a >= b then a else b }

  function Min(a: int, b: int): int { if a <= b then a else b }

  function Clamp(v: int): Sample { Max(SAMPLE_MIN, Min(SAMPLE_MAX, v)) }

  function DecodeSample(lo: Byte, hi: Byte): Sample {
    var u := lo + 256 * hi;
    if u > SAMPLE_MAX then u - 65536 else u
  }

  function LowByte(s: Sample): Byte { s % 256 }

  function HighByte(s: Sample): Byte { (if s < 0 then s + 65536 else s) / 256 }

  /** `array("h").frombytes` on a little-endian host. */
  function Samples(data: seq<Byte>): seq<Sample>
    requires |data| % 2 == 0
  {
    seq(|data| / 2, i requires 0 <= i < |data| / 2 => DecodeSample(data[2 * i], data[2 * i + 1]))
  }

  /** `array("h").tobytes` on a little-endian host. */
  function Bytes(samples: seq<Sample>): seq<Byte> {
    seq(2 * |samples|, i requires 0 <= i < 2 * |samples| =>
      if i % 2 == 0 then LowByte(samples[i / 2]) else HighByte(samples[i / 2]))
  }

  lemma SamplesOfBytes(samples: seq<Sample>)
    ensures |Bytes(samples)| == 2 * |samples| && Samples(Bytes(samples)) == samples
  {
    var data := Bytes(samples);
    forall i | 0 <= i < |samples| ensures Samples(data)[i] == samples[i] {
      assert data[2 * i] == LowByte(samples[i]) && data[2 * i + 1] == HighByte(samples[i]);
    }
  }

  /** Python's `round` of the exact rational `num / den`. */
  function Round(num: int, den: int): int
    requires den > 0
  {
    var q := num / den;
    var r := num % den;
    if 2 * r < den then q
    else if 2 * r > den then q + 1
    else if q % 2 == 0 then q
    else q + 1
  }

  function Abs(x: int): nat { if x < 0 then -x else x }

  /** Rounding is pinned down: the nearest integer, and the even one of two equally near. */
  ghost predicate IsRounding(num: int, den: int, v: int)
    requires den > 0
  {
    && 2 * Abs(v * den - num) <= den
    && (2 * Abs(v * den - num) == den ==> v % 2 == 0)
  }

  lemma RoundIsTheOnlyRounding(num: int, den: int, v: int)
    requires den > 0
    ensures IsRounding(num, den, v) <==> v == Round(num, den)
  {
    var q := num / den;
    var r := num % den;
    assert num == q * den + r;
    assert (q + 1) * den == q * den + den;
    if v <= q - 1 {
      MulMonotone(v, q - 1, den);
      assert (q - 1) * den == q * den - den;
    } else if v >= q + 2 {
      MulMonotone(q + 2, v, den);
      assert (q + 2) * den == q * den + 2 * den;
    }
  }

  /** Rounding never leaves an interval with integer ends that holds the exact value. */
  lemma RoundStaysWithin(lo: int, hi: int, num: int, den: int)
    requires den > 0 && lo * den <= num <= hi * den
    ensures lo <= Round(num, den) <= hi
  {
    FloorAtLeast(lo, num, den);
    FloorBounds(num, den);
    if num / den >= hi {
      MulMonotone(hi, num / den, den);
      assert num % den == num - (num / den) * den;
      FloorAtLeast(hi + 1, num, den);
      assert (hi + 1) * den == hi * den + den;
    }
  }

  // ----- the few facts about products and quotients the models need -----

  lemma MulMonotone(a: int, b: int, c: int)
    requires a <= b && c >= 0
    ensures a * c <= b * c
  {}

  /** Floor division, as comparisons of products. */
  lemma FloorBounds(a: int, b: int)
    requires b > 0
    ensures (a / b) * b <= a < (a / b) * b + b
  {}

  lemma FloorAtLeast(k: int, a: int, b: int)
    requires b > 0
    ensures k <= a / b <==> k * b <= a
  {
    FloorBounds(a, b);
    if k <= a / b {
      MulMonotone(k, a / b, b);
    } else {
      MulMonotone(a / b + 1, k, b);
      assert (a / b + 1) * b == (a / b) * b + b;
    }
  }
}
