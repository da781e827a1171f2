// Time windows of the analysis.
module Windows {
  // Width of a window, in nanoseconds: ten seconds.
  const ROUND_TO: nat := 10_000_000_000
  // The largest 64-bit time.
  const LAST_TIME: nat := 0xFFFF_FFFF_FFFF_FFFF

  function DivCeil(a: nat, b: nat): nat
    requires b > 0
  {
    if a % b == 0 then a / b else a / b + 1
  }

  // `last` stands for the largest value of the integer type.
  function SaturatingMul(a: nat, b: nat, last: nat): nat {
    if a * b > last then last else a * b
  }

  function Rounded(time: nat, width: nat, last: nat): nat
    requires width > 0
  {
    SaturatingMul(DivCeil(time, width), width, last)
  }

  // The end of the window that contains a time.
  function RoundUp(time: nat): nat {
    Rounded(time, ROUND_TO, LAST_TIME)
  }

  // The least multiple of b that is not below a.
  lemma DivCeilSpec(a: nat, b: nat)
    requires b > 0
    ensures a <= DivCeil(a, b) * b < a + b
  {
    var q, r := a / b, a % b;
    assert a == q * b + r;
    assert (q + 1) * b == q * b + b;
  }

  lemma DivCeilLeast(a: nat, b: nat, k: nat)
    requires b > 0 && a <= k * b
    ensures DivCeil(a, b) <= k
  {
    DivCeilSpec(a, b);
    MulCancel(DivCeil(a, b), k + 1, b);
    assert (k + 1) * b == k * b + b;
  }

  // A smaller product with the same factor has a smaller other factor.
  lemma MulCancel(a: nat, b: nat, c: nat)
    ensures a * c < b * c ==> a < b
    ensures a <= b ==> a * c <= b * c
  {
    assert (b - a) * c == b * c - a * c;
    if a <= b {
      MulNat(b - a, c);
    } else {
      MulNat(a - b, c);
      assert (a - b) * c == a * c - b * c;
    }
  }

  lemma MulNat(a: nat, b: nat)
    ensures a * b >= 0
  {
  }

  // A multiple of b is its own rounding.
  lemma DivCeilExact(k: nat, b: nat)
    requires b > 0
    ensures DivCeil(k * b, b) == k
  {
    DivCeilLeast(k * b, b, k);
    DivCeilSpec(k * b, b);
    MulCancel(DivCeil(k * b, b), k, b);
    MulCancel(k, DivCeil(k * b, b) + 1, b);
    assert (DivCeil(k * b, b) + 1) * b == DivCeil(k * b, b) * b + b;
  }

  lemma RoundUpFor(time: nat, later: nat, width: nat, last: nat)
    requires time <= later <= last && width > 0
    ensures time <= Rounded(time, width, last) <= last
    ensures Rounded(Rounded(time, width, last), width, last) == Rounded(time, width, last)
    ensures Rounded(time, width, last) <= Rounded(later, width, last)
    ensures var k := DivCeil(time, width); k > 0 ==> (k - 1) * width < time
  {
    var k, l := DivCeil(time, width), DivCeil(later, width);
    DivCeilSpec(time, width);
    DivCeilSpec(later, width);
    DivCeilSpec(last, width);
    DivCeilLeast(time, width, l);
    MulCancel(k, l, width);
    DivCeilExact(k, width);
    assert k > 0 ==> (k - 1) * width == k * width - width;
    if k * width > last {
      DivCeilLeast(time, width, DivCeil(last, width));
      MulCancel(k, DivCeil(last, width), width);
    }
  }

  // k is the number of whole windows it takes to reach a time, and no fewer do.
  predicate Covers(k: nat, time: nat) {
    time <= k * ROUND_TO && (k > 0 ==> (k - 1) * ROUND_TO < time)
  }

  // A time is rounded to the end of the last of the windows it takes to reach it; only an end that does not fit
  // 64 bits saturates.
  lemma RoundUpExact(time: nat, k: nat)
    requires Covers(k, time)
    ensures RoundUp(time) == if k * ROUND_TO > LAST_TIME then LAST_TIME else k * ROUND_TO
  {
    DivCeilLeast(time, ROUND_TO, k);
    DivCeilSpec(time, ROUND_TO);
    if k > 0 {
      MulCancel(k - 1, DivCeil(time, ROUND_TO), ROUND_TO);
    }
  }

  // Windows are ten seconds wide, and a window contains its end.
  lemma TenSecondWindows()
    ensures RoundUp(0) == 0 && RoundUp(1) == 10_000_000_000 == RoundUp(10_000_000_000)
    ensures RoundUp(10_000_000_001) == 20_000_000_000
    ensures RoundUp(0xFFFF_FFFF_FFFF_FFFF) == 0xFFFF_FFFF_FFFF_FFFF
  {
    RoundUpExact(0, 0);
    RoundUpExact(1, 1);
    RoundUpExact(10_000_000_000, 1);
    RoundUpExact(10_000_000_001, 2);
    RoundUpExact(LAST_TIME, 1_844_674_408);
  }

  // Rounding never goes down, not even when it saturates, is idempotent, keeps order, and yields the first
  // window end that is not before the time, unless no such end fits 64 bits.
  lemma RoundUpSpec(time: nat, later: nat)
    requires time <= later <= LAST_TIME
    ensures time <= RoundUp(time) <= LAST_TIME
    ensures RoundUp(RoundUp(time)) == RoundUp(time)
    ensures RoundUp(time) <= RoundUp(later)
    ensures exists k: nat ::
              Covers(k, time) && RoundUp(time) == if k * ROUND_TO > LAST_TIME then LAST_TIME else k * ROUND_TO
  {
    RoundUpFor(time, later, ROUND_TO, LAST_TIME);
    DivCeilSpec(time, ROUND_TO);
    assert Covers(DivCeil(time, ROUND_TO), time);
    RoundUpExact(time, DivCeil(time, ROUND_TO));
  }
}
