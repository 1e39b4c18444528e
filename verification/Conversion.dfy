/** From raw samples to the transmitted DAC word: mean, millivolts, DAC steps. */
module Conversion {
  import opened Common
  import opened Mcp47x6

  const ADC_RESOLUTION: int := 1024
  const ADC_VREF_MV: int := 1200
  const SIGIN_PRESCALING_INVERSE: int := 3

  /** C's division, which truncates toward zero. */
  function Quot(a: int, b: int): int
    requires b > 0
  {
    if a >= 0 then a / b else -((-a) / b)
  }

  function Sum(s: seq<int>): int {
    if s == [] then 0 else Sum(s[..|s| - 1]) + s[|s| - 1]
  }

  /** The sum of one number is that number, and sums of parts add up: this fixes Sum. */
  lemma {:induction false} SumOfParts(s: seq<int>, t: seq<int>)
    ensures forall x :: Sum([x]) == x
    ensures Sum(s + t) == Sum(s) + Sum(t)
    decreases |t|
  {
    forall x
      ensures Sum([x]) == x
    {
      assert [x][..0] == [];
    }
    if t == [] {
      assert s + t == s;
    } else {
      var last := |t| - 1;
      assert (s + t)[..|s| + last] == s + t[..last] && (s + t)[|s| + last] == t[last];
      SumOfParts(s, t[..last]);
    }
  }

  predicate AllEqual(s: seq<int>) {
    forall i :: 0 <= i < |s| ==> s[i] == s[0]
  }

  lemma {:induction false} SumOfEqual(s: seq<int>)
    requires s != [] && AllEqual(s)
    ensures Sum(s) == |s| * s[0]
    decreases |s|
  {
    var last, v := |s| - 1, s[0];
    assert Sum(s) == Sum(s[..last]) + v;
    if last > 0 {
      SumOfEqual(s[..last]);
    }
    OneMoreTimes(last, v);
  }

  lemma OneMoreTimes(n: nat, v: int)
    ensures (n + 1) * v == n * v + v
  {
  }

  /** The mean of equal numbers is that number. */
  lemma MeanOfEqual(s: seq<int>)
    requires s != [] && AllEqual(s)
    ensures Mean(s) == s[0]
  {
    SumOfEqual(s);
    QuotExact(|s|, s[0]);
  }

  lemma QuotExact(n: nat, v: int)
    requires n > 0
    ensures Quot(n * v, n) == v
  {
    if v >= 0 {
      DivExact(n, v);
    } else {
      DivExact(n, -v);
      assert -(n * v) == n * -v;
      assert n * v < 0 by {
        ScaleInt(v, -1, n);
      }
    }
  }

  lemma DivExact(n: nat, v: nat)
    requires n > 0
    ensures n * v >= 0 && n * v / n == v
  {
    DivBounds(n * v, n, v);
    var q := n * v / n;
    assert q * n <= n * v < (q + 1) * n;
    if q < v {
      ScaleInt(q + 1, v, n);
    }
  }

  function Mean(s: seq<int>): int
    requires s != []
  {
    Quot(Sum(s), |s|)
  }

  /** ADC_sigin_raw_to_millivolt */
  function SiginToMillivolt(raw: int): int {
    Quot(raw * ADC_VREF_MV * SIGIN_PRESCALING_INVERSE, ADC_RESOLUTION)
  }

  /** DAC_CONV_MV_TO_RAW: the 32-bit product cannot wrap, and the cast to uint16_t drops
      nothing, for any uint16_t voltage. */
  function MvToRaw(mv: nat): (raw: nat)
    requires mv < 0x1_0000
    ensures mv * 4095 < 0x1_0000_0000 && raw < 0x1_0000
  {
    mv * 4095 / 5000
  }

  /** The word DAC_update_dac queues for a voltage. */
  function Word(mv: nat): bv16
    requires mv < 0x1_0000
  {
    MvToRaw(mv) as bv16
  }

  /** Between one and ten samples of a 10-bit converter. */
  predicate SamplesOk(s: seq<int>) {
    1 <= |s| <= 10 && forall i :: 0 <= i < |s| ==> 0 <= s[i] < ADC_RESOLUTION
  }

  lemma {:induction false} SumBounds(s: seq<int>)
    requires forall i :: 0 <= i < |s| ==> 0 <= s[i] < ADC_RESOLUTION
    ensures 0 <= Sum(s) <= |s| * (ADC_RESOLUTION - 1)
  {
    if s != [] {
      SumBounds(s[..|s| - 1]);
    }
  }

  lemma MeanBounds(s: seq<int>)
    requires SamplesOk(s)
    ensures 0 <= Mean(s) < ADC_RESOLUTION
    ensures Mean(s) * |s| <= Sum(s) < (Mean(s) + 1) * |s|
  {
    SumBounds(s);
    DivBounds(Sum(s), |s|, ADC_RESOLUTION - 1);
  }

  lemma DivBounds(a: int, n: int, top: int)
    requires n > 0 && 0 <= a <= n * top
    ensures 0 <= a / n <= top && a / n * n <= a < (a / n + 1) * n
  {
    assert a == a / n * n + a % n;
  }

  /** The voltage the mean stands for, as DAC_update_dac receives it. */
  function AverageMv(s: seq<int>): (mv: nat)
    requires SamplesOk(s)
    ensures mv <= 3596
  {
    MeanBounds(s);
    SiginToMillivolt(Mean(s))
  }

  /** The transmitted code as a number. */
  function Code(s: seq<int>): nat
    requires SamplesOk(s)
  {
    MvToRaw(AverageMv(s))
  }

  /** The sum in exact arithmetic, from the front. */
  function TrueSum(s: seq<int>): real {
    if s == [] then 0.0 else s[0] as real + TrueSum(s[1..])
  }

  lemma {:induction false} SumIsTrue(s: seq<int>)
    ensures Sum(s) as real == TrueSum(s)
  {
    if s != [] {
      SumIsTrue(s[1..]);
      SumOfParts([s[0]], s[1..]);
      assert s == [s[0]] + s[1..];
    }
  }

  /** The exact linear image of the true mean. */
  function Ideal(s: seq<int>): real
    requires s != []
  {
    (TrueSum(s) / |s| as real) * (3600.0 / 1024.0) * (4095.0 / 5000.0)
  }

  /** A constant signal of v gives v * 3600 / 1024 millivolts, and its DAC code. */
  lemma CodeOfEqual(s: seq<int>)
    requires SamplesOk(s) && AllEqual(s)
    ensures Code(s) == s[0] * 3600 / 1024 * 4095 / 5000
  {
    MeanOfEqual(s);
  }

  /** Three floors in a row never exceed the exact image and lose less than 4.7 steps. */
  lemma CodeError(s: seq<int>)
    requires SamplesOk(s)
    ensures Code(s) as real <= Ideal(s) < Code(s) as real + 4.7
  {
    MeanBounds(s);
    SumIsTrue(s);
    var x := Sum(s) as real / |s| as real;
    QuotientBounds(Sum(s), |s|, Mean(s));
    var mv, code := AverageMv(s), Code(s);
    assert mv * 1024 <= Mean(s) * 3600 < mv * 1024 + 1024;
    assert code * 5000 <= mv * 4095 < code * 5000 + 5000;
    assert Ideal(s) == x * (3600.0 / 1024.0) * (4095.0 / 5000.0);
  }

  lemma QuotientBounds(a: int, n: int, q: int)
    requires n > 0 && q * n <= a < (q + 1) * n
    ensures q as real <= a as real / n as real < q as real + 1.0
  {
    var x, m := a as real / n as real, n as real;
    assert x * m == a as real;
    assert (q as real) * m == (q * n) as real;
    assert (q as real + 1.0) * m == ((q + 1) * n) as real;
    if x < q as real {
      Scale(x, q as real, m);
    }
    if q as real + 1.0 <= x {
      Scale(q as real + 1.0, x, m);
    }
  }

  lemma Scale(x: real, y: real, m: real)
    requires x <= y && m > 0.0
    ensures x * m <= y * m && (x < y ==> x * m < y * m)
  {
  }

  lemma {:induction false} SumMonotone(s: seq<int>, t: seq<int>)
    requires |s| == |t| && forall i :: 0 <= i < |s| ==> s[i] <= t[i]
    ensures Sum(s) <= Sum(t)
  {
    if s != [] {
      SumMonotone(s[..|s| - 1], t[..|t| - 1]);
    }
  }

  lemma DivMonotone(a: int, b: int, n: int)
    requires 0 <= a <= b && n > 0
    ensures a / n <= b / n
  {
    assert a / n * n <= a && b < (b / n + 1) * n;
    if b / n + 1 <= a / n {
      ScaleInt(b / n + 1, a / n, n);
    }
  }

  lemma ScaleInt(x: int, y: int, n: int)
    requires x <= y && n > 0
    ensures x * n <= y * n
  {
  }

  /** A larger sample never lowers the output. */
  lemma CodeMonotone(s: seq<int>, t: seq<int>)
    requires SamplesOk(s) && SamplesOk(t) && |s| == |t| && forall i :: 0 <= i < |s| ==> s[i] <= t[i]
    ensures Code(s) <= Code(t)
  {
    SumMonotone(s, t);
    MeanBounds(s);
    MeanBounds(t);
    SumBounds(s);
    SumBounds(t);
    DivMonotone(Sum(s), Sum(t), |s|);
  }

  /** The code stays inside the 12 bits of the device, so the mask changes nothing, and the
      frame carries the code itself. */
  lemma CodeFits(s: seq<int>)
    requires SamplesOk(s)
    ensures Code(s) <= 2945
    ensures var word := Word(AverageMv(s));
            word & 0x0FFF == word && DacValue(Dac12, VolatileDacFrame(DAC_SETTINGS, word)) == word
  {
    MaskKeeps(Code(s));
    FrameCarries(Word(AverageMv(s)));
  }

  lemma FrameCarries(word: bv16)
    requires word & 0x0FFF == word
    ensures DacValue(Dac12, VolatileDacFrame(DAC_SETTINGS, word)) == word
  {
    VolatileDacRoundTrip(DAC_SETTINGS, word);
  }

  lemma MaskKeeps(n: nat)
    requires n < 4096
    ensures (n as bv16) & 0x0FFF == n as bv16
  {
    BelowTop(n);
    LowBitsKeep(n as bv16);
  }

  lemma BelowTop(n: nat)
    requires n < 4096
    ensures (n as bv16) < 4096
  {
  }

  lemma LowBitsKeep(x: bv16)
    requires x < 4096
    ensures x & 0x0FFF == x
  {
  }

  /** The millivolts as DAC_update_dac gets them, an int16_t passed as uint16_t. */
  function SiginMv(avg: int): nat {
    SiginToMillivolt(avg) % 0x1_0000
  }
}
