// The work size of a launch (calibrate.go; config.go, loadConfig's checks;
// device_opencl.go, NewDevice's choice).
module Calibrate {
  import opened Integers
  import opened Options
  import Throttle

  const LOCAL_SIZE: nat := 64
  const MIN_INTENSITY: int := 8
  const MAX_INTENSITY: int := 31
  const MAX_WORK_SIZE: nat := 0xFFFF_FFFF - 255
  const SMALLEST: nat := 0x400
  const LARGEST: nat := 0x4000_0000
  const MILLISECOND: int := 1_000_000

  function Ceiling(n: int, d: int): (c: int)
    requires d > 0
    ensures (c - 1) * d < n <= c * d
  {
    -(-n / d)
  }

  // Go's conversion of a float64 with no fraction to uint32: what it gives for a
  // number out of range is up to the machine.
  function Converted(c: int, outOfRange: nat): nat {
    if 0 <= c < TWO_TO_THE_32 then c else outOfRange
  }

  // The size that would take the target, from one that took exec: rounded up to
  // a multiple of 256, in 32 bits.  A launch that took no time at all leaves an
  // infinity to convert, or no number.
  function IdealWorkSize(size: nat, target: int, exec: nat, outOfRange: nat): (ideal: nat) {
    (if exec == 0 then outOfRange else Converted(Ceiling(size * target, 256 * exec), outOfRange)) * 256 % TWO_TO_THE_32
  }

  lemma WrappingKeepsMultiples(c: int)
    ensures (c * 256 % TWO_TO_THE_32) % 256 == 0
  {
    var k := c - 0x100_0000 * (c * 256 / TWO_TO_THE_32);
    assert c * 256 % TWO_TO_THE_32 == 256 * k;
  }

  // A multiple of 256 that takes the time needed, and no smaller one does.
  predicate JustEnough(need: int, sized: int, exec: int) {
    (sized - 256) * exec < need <= sized * exec
  }

  lemma CeilingOf256ths(need: int, exec: int)
    requires exec > 0
    ensures JustEnough(need, Ceiling(need, 256 * exec) * 256, exec)
  {
    var c := Ceiling(need, 256 * exec);
    assert c * (256 * exec) == c * 256 * exec;
    assert (c - 1) * (256 * exec) == (c * 256 - 256) * exec;
  }

  // A work size that is just enough exactly when 32 bits hold one that is.
  predicate SmallestSufficient(need: int, ideal: nat, exec: int) {
    && (need <= ideal * exec <==> need <= (TWO_TO_THE_32 - 256) * exec)
    && (need <= ideal * exec ==> ideal > 0 && JustEnough(need, ideal, exec))
  }

  // The ideal size is the smallest sufficient multiple of 256 exactly when one
  // fits in 32 bits; otherwise it wraps around to one that falls short.
  lemma IdealIsSmallestSufficient(size: nat, target: int, exec: int, outOfRange: nat)
    requires exec > 0 && target > 0 && size > 0
    ensures SmallestSufficient(size * target, IdealWorkSize(size, target, exec, outOfRange), exec)
  {
    hide Ceiling, Converted, JustEnough, SmallestSufficient;
    ProductIsPositive(size, target);
    CeilingOf256ths(size * target, exec);
    IdealOf(size * target, Ceiling(size * target, 256 * exec), exec, outOfRange);
  }

  lemma IdealOf(need: int, c: int, exec: int, outOfRange: nat)
    requires exec > 0 && need > 0 && JustEnough(need, c * 256, exec)
    ensures SmallestSufficient(need, Converted(c, outOfRange) * 256 % TWO_TO_THE_32, exec)
  {
    hide Converted, JustEnough, SmallestSufficient;
    SizeInBits(c, outOfRange);
    Residue(c, 0);
    Sufficient(need, c * 256, Converted(c, outOfRange) * 256 % TWO_TO_THE_32, exec);
  }

  lemma ProductIsPositive(a: int, b: int)
    requires a > 0 && b > 0
    ensures a * b > 0
  {
  }

  // A multiple of 256 in 32 bits.
  lemma SizeInBits(c: int, outOfRange: nat)
    ensures var ideal := Converted(c, outOfRange) * 256 % TWO_TO_THE_32;
            && ideal <= TWO_TO_THE_32 - 256
            && (0 <= c * 256 <= TWO_TO_THE_32 - 256 ==> ideal == c * 256)
  {
    WrappingKeepsMultiples(Converted(c, outOfRange));
  }

  lemma Sufficient(need: int, sized: int, ideal: nat, exec: int)
    requires exec > 0 && need > 0 && JustEnough(need, sized, exec)
    requires ideal <= TWO_TO_THE_32 - 256 && (0 <= sized <= TWO_TO_THE_32 - 256 ==> ideal == sized)
    requires sized % 256 == 0
    ensures SmallestSufficient(need, ideal, exec)
  {
    if sized <= 0 {
      AtMost(sized, 0, exec);
    }
    AtMost(ideal, TWO_TO_THE_32 - 256, exec);
    if need <= (TWO_TO_THE_32 - 256) * exec {
      FewerThan(sized - 256, TWO_TO_THE_32 - 256, exec);
      Multiples(sized);
      assert ideal == sized;
    }
  }

  lemma Multiples(sized: int)
    requires sized % 256 == 0 && sized - 256 < TWO_TO_THE_32 - 256
    ensures sized <= TWO_TO_THE_32 - 256
  {
    assert sized == 256 * (sized / 256);
  }

  // A size that took as long as the target, or longer, does not grow.
  lemma IdealIsNoLarger(size: nat, target: int, exec: int, outOfRange: nat)
    requires exec >= target > 0 && 0 < size <= TWO_TO_THE_32 - 256 && size % 256 == 0
    ensures var ideal := IdealWorkSize(size, target, exec, outOfRange);
            0 < ideal <= size && ideal % 256 == 0 && size * target <= (TWO_TO_THE_32 - 256) * exec
  {
    var ideal := IdealWorkSize(size, target, exec, outOfRange);
    WrappingKeepsMultiples(Converted(Ceiling(size * target, 256 * exec), outOfRange));
    IdealIsSmallestSufficient(size, target, exec, outOfRange);
    hide IdealWorkSize, Ceiling;
    ScaledAtMost(size, target, exec);
    AtMost(size, TWO_TO_THE_32 - 256, exec);
    NoLarger(size * target, ideal, size, exec);
  }

  lemma ScaledAtMost(size: nat, target: int, exec: int)
    requires target <= exec
    ensures size * target <= size * exec
  {
  }

  lemma NoLarger(need: int, ideal: nat, size: nat, exec: int)
    requires exec > 0 && (ideal - 256) * exec < need <= size * exec
    requires ideal % 256 == 0 && size % 256 == 0
    ensures ideal <= size
  {
    FewerThan(ideal - 256, size, exec);
    NextMultiple(ideal, size);
  }

  lemma NextMultiple(a: nat, b: nat)
    requires a % 256 == 0 && b % 256 == 0 && a - 256 < b
    ensures a <= b
  {
  }

  lemma FewerThan(a: int, b: int, d: int)
    requires d > 0 && a * d < b * d
    ensures a < b
  {
    if a >= b {
      AtMost(b, a, d);
    }
  }

  lemma AtMost(a: int, b: int, d: int)
    requires d > 0 && a <= b
    ensures a * d <= b * d
  {
    assert (b - a) * d >= 0;
  }

  // One measurement: the nanoseconds a launch took, or a failed launch.
  type Measurement = Option<nat>

  // The outcome of a search of so many measurements: all but the last were
  // shorter than the target, and the last one, or the largest size, decides.
  predicate Calibrated(ms: int, measured: seq<Measurement>, outOfRange: nat, result: Option<nat>, used: nat) {
    var target := Throttle.Int64(ms * MILLISECOND);
    && 0 < used <= 21 && used <= |measured|
    && (forall n :: 0 <= n < used - 1 ==> measured[n].Some? && measured[n].value < target)
    && (result.None? <==> measured[used - 1].None?)
    && (result.Some? ==>
          && (measured[used - 1].value >= target || used == 21)
          && result.value == IdealWorkSize(Pow2(9 + used), target, measured[used - 1].value, outOfRange))
  }

  // The doubling search.  The n-th launch it measures takes measured[n].
  method CalcWorkSize(ms: int, measured: seq<Measurement>, outOfRange: nat) returns (result: Option<nat>, used: nat)
    requires |measured| >= 21
    ensures Calibrated(ms, measured, outOfRange, result, used)
    ensures 0 < used <= 21
    ensures forall n :: 0 <= n < used - 1 ==> measured[n].Some? && measured[n].value < Throttle.Int64(ms * 1_000_000)
    ensures result.None? <==> measured[used - 1].None?
    ensures result.Some? ==> measured[used - 1].value >= Throttle.Int64(ms * 1_000_000) || used == 21
    ensures result.Some? ==>
              result.value == IdealWorkSize(Pow2(9 + used), Throttle.Int64(ms * 1_000_000), measured[used - 1].value,
                                            outOfRange)
  {
    hide IdealWorkSize, Throttle.Int64, Pow2;
    SizesOfTheSearch();
    var workSize := SMALLEST;
    var target := Throttle.Int64(ms * MILLISECOND);
    used := 0;
    while true
      invariant 0 <= used < 21 && workSize == Pow2(10 + used)
      invariant forall n :: 0 <= n < used ==> measured[n].Some? && measured[n].value < target
      decreases 21 - used
    {
      var exec := measured[used];
      used := used + 1;
      if exec.None? {
        return None, used;
      }
      if used < 21 {
        Pow2Grows(9 + used, 30);
      }
      if exec.value < target && workSize < LARGEST {
        Pow2Next(9 + used);
        workSize := workSize * 2;
        continue;
      }
      return Some(IdealWorkSize(workSize, target, exec.value, outOfRange)), used;
    }
  }

  lemma SizesOfTheSearch()
    ensures Pow2(10) == SMALLEST && Pow2(30) == LARGEST
  {
    assert Pow2(5) == 32;
    Pow2Adds(5, 5);
    Pow2Adds(10, 10);
    Pow2Adds(20, 10);
  }

  // For a positive time the search ends with the smallest multiple of 256 that
  // takes it, no larger than the size last measured, unless it stopped short at
  // the largest size: then it does so exactly if the target is at most four times
  // what that took, less a 2^22th part of it.
  lemma CalibrationBound(used: nat, target: int, exec: int, outOfRange: nat)
    requires 0 < used <= 21 && target > 0 && exec > 0
    requires exec >= target || used == 21
    ensures var size := Pow2(9 + used);
            var ideal := IdealWorkSize(size, target, exec, outOfRange);
            && ideal % 256 == 0
            && (ideal > 0 && size * target <= ideal * exec && (ideal - 256) * exec < size * target <==>
                  exec >= target || 0x40_0000 * target <= 0xFF_FFFF * exec)
            && (exec >= target ==> ideal <= size)
  {
    SizesOfTheSearch();
    Pow2OfTen(used);
    if used < 21 {
      Pow2Grows(9 + used, 30);
    }
    var size := Pow2(9 + used);
    WrappingKeepsMultiples(Converted(Ceiling(size * target, 256 * exec), outOfRange));
    hide IdealWorkSize, Pow2, Ceiling;
    IdealIsSmallestSufficient(size, target, exec, outOfRange);
    if exec >= target {
      IdealIsNoLarger(size, target, exec, outOfRange);
    } else {
      CapIsLinear(target, exec);
    }
  }

  lemma CapIsLinear(target: int, exec: int)
    ensures LARGEST * target <= (TWO_TO_THE_32 - 256) * exec <==> 0x40_0000 * target <= 0xFF_FFFF * exec
  {
  }

  // Every size the search tries is a multiple of 256.
  lemma Pow2OfTen(used: nat)
    requires used > 0
    ensures Pow2(9 + used) % 256 == 0
  {
    EighthPower();
    Pow2Adds(8, used + 1);
    Residue(Pow2(used + 1), 0);
  }

  // At the largest size, a launch that takes a quarter of the target leaves a
  // work size of zero.
  lemma CalibrationCanWrap(exec: int, outOfRange: nat)
    requires exec > 0
    ensures IdealWorkSize(LARGEST, 4 * exec, exec, outOfRange) == 0
  {
    var c := Ceiling(LARGEST * (4 * exec), 256 * exec);
    assert LARGEST * (4 * exec) == 0x100_0000 * (256 * exec);
    FewerThan(c - 1, 0x100_0000, 256 * exec);
    assert c >= 0x100_0000 by {
      if c < 0x100_0000 {
        FewerThan(0x100_0000 - 1, c, 256 * exec);
      }
    }
  }

  // Such a calibration: when every launch takes a quarter of the time to achieve,
  // whatever its size, the search can end in one way only, with zero.
  lemma CalibrationEndsWithZero(ms: nat, measured: seq<Measurement>, outOfRange: nat, result: Option<nat>, used: nat)
    requires 0 < ms && ms * MILLISECOND < TWO_TO_THE_63
    requires |measured| >= 21 && forall n :: 0 <= n < |measured| ==> measured[n] == Some(ms * (MILLISECOND / 4))
    ensures Calibrated(ms, measured, outOfRange, result, used) <==> result == Some(0) && used == 21
  {
    hide IdealWorkSize;
    assert Throttle.Int64(ms * MILLISECOND) == 4 * (ms * (MILLISECOND / 4));
    CalibrationCanWrap(ms * (MILLISECOND / 4), outOfRange);
    SizesOfTheSearch();
  }

  // A per-device setting: the first value is for every device, and one at the
  // device's own position overrides it.
  function PerDevice<T>(values: seq<T>, order: nat): T
    requires values != []
  {
    if order < |values| then values[order] else values[0]
  }

  // loadConfig's checks.  Work sizes are cut to 32 bits before they are checked.
  method CheckWorkSizes(parsed: seq<int>) returns (sizes: Option<seq<nat>>)
    ensures sizes.Some? <==> forall i :: 0 <= i < |parsed| ==> parsed[i] % 256 == 0 && parsed[i] % TWO_TO_THE_32 != 0
    ensures sizes.Some? ==> |sizes.value| == |parsed| && ValidWorkSizes(sizes.value)
    ensures sizes.Some? ==> forall i :: 0 <= i < |parsed| ==> sizes.value[i] == parsed[i] % TWO_TO_THE_32
  {
    var cut := seq(|parsed|, i requires 0 <= i < |parsed| => parsed[i] % TWO_TO_THE_32);
    for i := 0 to |cut|
      invariant ValidWorkSizes(cut[..i])
      invariant forall n :: 0 <= n < i ==> parsed[n] % 256 == 0 && parsed[n] % TWO_TO_THE_32 != 0
    {
      CutKeepsMultiples(parsed[i]);
      assert cut[i] == parsed[i] % TWO_TO_THE_32;
      if cut[i] < 256 {
        return None;
      }
      if cut[i] > MAX_WORK_SIZE {
        return None;
      }
      if cut[i] % 256 != 0 {
        return None;
      }
      assert cut[..i + 1] == cut[..i] + [cut[i]];
    }
    assert cut[..|cut|] == cut;
    return Some(cut);
  }

  predicate ValidWorkSizes(sizes: seq<nat>) {
    forall i :: 0 <= i < |sizes| ==> 256 <= sizes[i] <= MAX_WORK_SIZE && sizes[i] % 256 == 0
  }

  lemma CutKeepsMultiples(v: int)
    ensures v % TWO_TO_THE_32 % 256 == v % 256
    ensures v % TWO_TO_THE_32 % 256 == 0 && v % TWO_TO_THE_32 != 0 <==>
            256 <= v % TWO_TO_THE_32 <= MAX_WORK_SIZE && v % 256 == 0
  {
    var q, r := v / TWO_TO_THE_32, v % TWO_TO_THE_32;
    var a, b := r / 256, r % 256;
    assert v == 256 * (0x100_0000 * q + a) + b;
    Residue(0x100_0000 * q + a, b);
  }

  lemma Residue(k: int, b: nat)
    requires b < 256
    ensures (256 * k + b) % 256 == b
  {
  }

  lemma WholeGroups(size: nat)
    requires size % 256 == 0
    ensures size % LOCAL_SIZE == 0
  {
    assert size == LOCAL_SIZE * (4 * (size / 256));
  }

  method CheckIntensities(parsed: seq<int>) returns (ok: bool)
    ensures ok <==> forall i :: 0 <= i < |parsed| ==> 8 <= parsed[i] <= 31
  {
    for i := 0 to |parsed|
      invariant ValidIntensities(parsed[..i])
    {
      if parsed[i] < MIN_INTENSITY || parsed[i] > MAX_INTENSITY {
        return false;
      }
    }
    return true;
  }

  predicate ValidIntensities(intensities: seq<int>) {
    forall i :: 0 <= i < |intensities| ==> MIN_INTENSITY <= intensities[i] <= MAX_INTENSITY
  }

  // NewDevice's choice: an explicit work size wins over an intensity, and only
  // without either is the device calibrated.  Every launch size it settles on is
  // made of whole groups of the kernel's local size.
  method ChooseWorkSize(intensities: seq<int>, workSizes: seq<nat>, calibrateTimes: seq<int>, order: nat,
                        measured: seq<Measurement>, outOfRange: nat)
    returns (chosen: Option<nat>)
    requires ValidIntensities(intensities) && ValidWorkSizes(workSizes) && calibrateTimes != []
    requires |measured| >= 21
    ensures workSizes != [] ==>
              chosen == Some(if order < |workSizes| then workSizes[order] else workSizes[0])
    ensures workSizes == [] && intensities != [] ==>
              chosen == Some(Pow2(if order < |intensities| then intensities[order] else intensities[0]))
    ensures workSizes == [] && intensities == [] && order < |calibrateTimes| ==>
              exists used :: Calibrated(calibrateTimes[order], measured, outOfRange, chosen, used)
    ensures workSizes == [] && intensities == [] && order >= |calibrateTimes| ==>
              exists used :: Calibrated(calibrateTimes[0], measured, outOfRange, chosen, used)
    ensures chosen.Some? ==> chosen.value % 64 == 0 && chosen.value < TWO_TO_THE_32
    ensures chosen.Some? && (workSizes != [] || intensities != []) ==> chosen.value >= 256
  {
    hide IdealWorkSize, Pow2, Throttle.Int64;
    if intensities == [] && workSizes == [] {
      var ms := PerDevice(calibrateTimes, order);
      var used;
      chosen, used := CalcWorkSize(ms, measured, outOfRange);
      if chosen.Some? {
        IdealIsWhole(Pow2(9 + used), Throttle.Int64(ms * MILLISECOND), measured[used - 1].value, outOfRange);
      }
    } else {
      var size := 0;
      if intensities != [] {
        var intensity := PerDevice(intensities, order);
        IntensityIsWhole(intensity);
        size := Pow2(intensity);
        WholeGroups(size);
      }
      if workSizes != [] {
        size := PerDevice(workSizes, order);
        WholeGroups(size);
      }
      chosen := Some(size);
    }
  }

  lemma IdealIsWhole(size: nat, target: int, exec: nat, outOfRange: nat)
    ensures var ideal := IdealWorkSize(size, target, exec, outOfRange);
            ideal % LOCAL_SIZE == 0 && ideal < TWO_TO_THE_32
  {
    WrappingKeepsMultiples(if exec == 0 then outOfRange else Converted(Ceiling(size * target, 256 * exec), outOfRange));
    WholeGroups(IdealWorkSize(size, target, exec, outOfRange));
  }

  lemma IntensityIsWhole(intensity: int)
    requires MIN_INTENSITY <= intensity <= MAX_INTENSITY
    ensures 256 <= Pow2(intensity) < TWO_TO_THE_32 && Pow2(intensity) % 256 == 0
  {
    SizesOfTheSearch();
    EighthPower();
    Pow2Adds(8, intensity - 8);
    Residue(Pow2(intensity - 8), 0);
    if intensity < 31 {
      Pow2Grows(intensity, 31);
    }
  }
}
