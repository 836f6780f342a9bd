// The duty cycle (device.go, idleFor): how long a device idles after a launch.
module Throttle {
  import opened Integers

  // A product as int64 arithmetic leaves it.
  function Int64(n: int): int {
    (n + TWO_TO_THE_63) % TWO_TO_THE_64 - TWO_TO_THE_63
  }

  // Go's division, which truncates towards zero, for a positive divisor.
  function Quotient(n: int, d: int): int
    requires d > 0
  {
    if n >= 0 then n / d else -(-n / d)
  }

  // The idling after a launch of the given length, in nanoseconds, at a duty
  // cycle in percent.
  function IdleFor(elapsed: nat, dutyCycle: int): int {
    if dutyCycle >= 100 || dutyCycle <= 0 then 0
    else Quotient(Int64(elapsed * (100 - dutyCycle)), dutyCycle)
  }

  lemma DivisionBounds(n: nat, d: nat)
    requires d > 0
    ensures 0 <= n / d && d * (n / d) <= n < d * (n / d + 1)
  {
  }

  lemma Int64Cases(n: nat)
    ensures n < TWO_TO_THE_63 ==> Int64(n) == n
    ensures TWO_TO_THE_63 <= n < TWO_TO_THE_64 ==> Int64(n) == n - TWO_TO_THE_64 < 0
  {
  }

  lemma QuotientOfNat(n: nat, d: nat)
    requires d > 0
    ensures Quotient(n, d) == n / d
  {
  }

  lemma QuotientOfNegative(n: int, d: nat)
    requires d > 0 && n < 0
    ensures Quotient(n, d) <= 0
  {
    DivisionBounds(-n, d);
  }

  // Without overflow the idling is the exact share rounded down; a product that
  // overflows once leaves no idling at all, and neither does a duty cycle of 100 or
  // more, or of none.
  lemma IdleIsTheShare(elapsed: nat, d: int)
    ensures var i := IdleFor(elapsed, d);
            var share := (100 - d) * elapsed;
            && (d <= 0 || d >= 100 ==> i == 0)
            && (0 < d < 100 && share < TWO_TO_THE_63 ==> 0 <= i && d * i <= share < d * (i + 1))
            && (0 < d < 100 && TWO_TO_THE_63 <= share < TWO_TO_THE_64 ==> i <= 0)
  {
    hide Int64, Quotient;
    if d <= 0 || d >= 100 {
      return;
    }
    var share := (100 - d) * elapsed;
    assert share == elapsed * (100 - d);
    Int64Cases(share);
    if share < TWO_TO_THE_63 {
      QuotientOfNat(share, d);
      DivisionBounds(share, d);
    } else if share < TWO_TO_THE_64 {
      QuotientOfNegative(share - TWO_TO_THE_64, d);
    }
  }

  function Sum(s: seq<int>): int {
    if s == [] then 0 else s[0] + Sum(s[1..])
  }

  function Idles(elapsed: seq<nat>, dutyCycle: int): (idle: seq<int>)
    ensures |idle| == |elapsed|
  {
    if elapsed == [] then [] else [IdleFor(elapsed[0], dutyCycle)] + Idles(elapsed[1..], dutyCycle)
  }

  // Over any sequence of launches the busy share is at least the duty cycle,
  // and the idling falls short of its share by less than a nanosecond a launch.
  lemma {:induction false} DutyCycleHeld(elapsed: seq<nat>, d: int)
    requires 0 < d < 100
    requires forall k :: 0 <= k < |elapsed| ==> (100 - d) * elapsed[k] < TWO_TO_THE_63
    ensures var busy, idle := Sum(elapsed), Sum(Idles(elapsed, d));
            && d * (busy + idle) <= 100 * busy
            && (elapsed != [] ==> (100 - d) * busy < d * (idle + |elapsed|))
  {
    if elapsed != [] {
      var rest := elapsed[1..];
      DutyCycleHeld(rest, d);
      IdleIsTheShare(elapsed[0], d);
      hide IdleFor;
      var e, i := elapsed[0], IdleFor(elapsed[0], d);
      assert Idles(elapsed, d)[1..] == Idles(rest, d);
      AddBounds(d, e, i, Sum(rest), Sum(Idles(rest, d)), |rest|);
    }
  }

  lemma AddBounds(d: int, e: nat, i: int, busy: int, idle: int, n: nat)
    requires 0 < d < 100
    requires d * i <= (100 - d) * e < d * (i + 1)
    requires d * (busy + idle) <= 100 * busy
    requires n > 0 ==> (100 - d) * busy < d * (idle + n)
    requires n == 0 ==> busy == 0 && idle == 0
    ensures d * ((e + busy) + (i + idle)) <= 100 * (e + busy)
    ensures (100 - d) * (e + busy) < d * ((i + idle) + (n + 1))
  {
  }
}
