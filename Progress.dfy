/** The upload progress percentage, `current * 100 / total`, as each platform
    evaluates it: Kotlin on 32-bit `Int`s that wrap silently, Swift on 64-bit
    `Int`s that trap on overflow; both divide truncating toward zero and fail
    on a zero divisor. */
module Progress {
  import opened Bridge

  /** Multiplying by a non-negative factor keeps the order. */
  lemma {:induction false} MulMonotone(x: nat, y: nat, t: nat)
    requires x <= y
    ensures x * t <= y * t
  {
    if t > 0 {
      MulMonotone(x, y, t - 1);
      assert x * t == x * (t - 1) + x;
      assert y * t == y * (t - 1) + y;
    }
  }

  /** The quotient of Euclidean division by a positive divisor is the floor. */
  lemma FloorDiv(a: nat, t: nat)
    requires t > 0
    ensures (a / t) * t <= a < (a / t + 1) * t
  {
    var r := a / t;
    assert a == r * t + a % t;
    assert (r + 1) * t == r * t + t;
  }

  /** The percentage of `total` that `current` is, rounded down: the value
      both platforms mean to report. */
  function Percent(current: nat, total: nat): (r: nat)
    requires total > 0
    ensures r * total <= current * 100 < (r + 1) * total
    ensures current <= total ==> r <= 100
  {
    PercentBound(current, total);
    current * 100 / total
  }

  lemma PercentBound(current: nat, total: nat)
    requires total > 0
    ensures var r := current * 100 / total;
      0 <= r && r * total <= current * 100 < (r + 1) * total && (current <= total ==> r <= 100)
  {
    var r := current * 100 / total;
    FloorDiv(current * 100, total);
    if current <= total && r > 100 {
      MulMonotone(101, r, total);
      assert false;
    }
  }

  /** JVM `Int` arithmetic: two's-complement wrap to 32 bits. */
  function Wrap32(x: int): (r: int32)
    ensures (r - x) % 0x1_0000_0000 == 0
    ensures -0x8000_0000 <= x < 0x8000_0000 ==> r == x
  {
    var m := x % 0x1_0000_0000;
    if m < 0x8000_0000 then m else m - 0x1_0000_0000
  }

  function Abs(x: int): nat
  {
    if x < 0 then -x else x
  }

  /** Dividing by a positive divisor never increases a natural number. */
  lemma DivAtMost(x: nat, y: nat)
    requires y >= 1
    ensures x / y <= x
  {
    var d := x / y;
    FloorDiv(x, y);
    assert d * y <= x;
    MulMonotone(1, y, d);
    assert d <= y * d;
    assert y * d == d * y;
  }

  /** Integer division that truncates toward zero (Kotlin, Swift). */
  function TruncDiv(a: int, b: int): (q: int)
    requires b != 0
    ensures a >= 0 && b > 0 ==> q == a / b
    ensures a < 0 && b > 0 ==> q == -((-a) / b)
    ensures a >= 0 && b < 0 ==> q == -(a / (-b))
    ensures a < 0 && b < 0 ==> q == (-a) / (-b)
    ensures Abs(q) <= Abs(a)
  {
    if a >= 0 && b > 0 then DivAtMost(a, b); a / b
    else if a < 0 && b > 0 then DivAtMost(-a, b); -((-a) / b)
    else if a >= 0 then DivAtMost(a, -b); -(a / (-b))
    else DivAtMost(-a, -b); (-a) / (-b)
  }

  /** The largest `current` whose `current * 100` still fits in an `Int`. */
  const MaxExactCurrent: int := 21_474_836

  /** `current * 100 / total` on Kotlin `Int`s, as written at
      FileManager.kt:169 and FileUpload.kt:54: the product wraps to 32 bits
      and a zero total throws `ArithmeticException` (None). */
  function KotlinPercent(current: int32, total: int32): (r: Option<int32>)
    ensures r.None? <==> total == 0
  {
    if total == 0 then None
    else Some(Wrap32(TruncDiv(Wrap32(current * 100), total)))
  }

  /** Up to MaxExactCurrent bytes the Kotlin expression is the intended
      percentage. */
  lemma KotlinPercentExact(current: int32, total: int32)
    requires 0 <= current <= MaxExactCurrent && 0 < total
    ensures KotlinPercent(current, total) == Some(Percent(current, total))
  {
    assert Wrap32(current * 100) == current * 100;
    var r := Percent(current, total);
    MulMonotone(1, total, r);
  }

  /** One byte further the product overflows: a finished upload of
      21,474,837 bytes reports -99 percent instead of 100. */
  lemma KotlinPercentOverflows()
    ensures KotlinPercent(21_474_837, 21_474_837) == Some(-99)
    ensures Percent(21_474_837, 21_474_837) == 100
  {
    assert 2_147_483_700 / 21_474_837 == 100;
    assert Wrap32(21_474_837 * 100) == -2_147_483_596;
    assert TruncDiv(-2_147_483_596, 21_474_837) == -99;
  }

  /** The evidently intended Kotlin computation, widened to `Long` before
      multiplying (`(current.toLong() * 100 / total).toInt()`): no product of
      an `Int` and 100 overflows a `Long`. */
  function WidePercent(current: int32, total: int32): (r: Option<int32>)
    ensures r.None? <==> total == 0
    ensures 0 <= current <= total && total > 0 ==> r == Some(Percent(current, total))
    ensures 0 <= current <= total && total > 0 ==> 0 <= r.value <= 100
  {
    if total == 0 then None
    else
      var q := TruncDiv(current * 100, total);
      assert 0 <= current <= total && total > 0 ==> q == Percent(current, total);
      Some(Wrap32(q))
  }

  /** Wherever the Kotlin expression does not overflow it agrees with the
      widened one. */
  lemma KotlinAgreesWithWide(current: int32, total: int32)
    requires -MaxExactCurrent <= current <= MaxExactCurrent
    ensures KotlinPercent(current, total) == WidePercent(current, total)
  {
  }

  /** `bytesSent * 100 / fileSize` on Swift `Int`s (DeviceFileManager.swift:135):
      an overflowing product, a zero divisor or `Int.min / -1` traps (None).
      The last cannot happen here, since no multiple of 100 is `Int.min`. */
  function SwiftPercent(bytesSent: int64, fileSize: int64): (r: Option<int64>)
    ensures r.None? <==> fileSize == 0 || !(-0x8000_0000_0000_0000 <= bytesSent * 100 < 0x8000_0000_0000_0000)
    ensures r.Some? ==> r.value == TruncDiv(bytesSent * 100, fileSize)
    ensures 0 <= bytesSent <= fileSize && fileSize > 0 && bytesSent * 100 < 0x8000_0000_0000_0000
            ==> r == Some(Percent(bytesSent, fileSize))
  {
    var product := bytesSent * 100;
    if fileSize == 0 || !(-0x8000_0000_0000_0000 <= product < 0x8000_0000_0000_0000) then None
    else
      assert product != -0x8000_0000_0000_0000;
      Some(TruncDiv(product, fileSize))
  }

  /** Up to the 32-bit bound both platforms report the same percentage. */
  lemma PlatformsAgree(current: int32, total: int32)
    requires 0 <= current <= MaxExactCurrent && 0 < total
    ensures KotlinPercent(current, total) == SwiftPercent(current, total)
  {
    KotlinPercentExact(current, total);
  }
}
