/** The integer temperature compensation of the BMP280 driver, and how far it is from the formula that
    the driver also gives in floating point, taken over the rationals. */
module Bmp280 {

  type U16 = x: int | 0 <= x < 0x1_0000
  type S16 = x: int | -0x8000 <= x < 0x8000
  type S32 = x: int | -0x8000_0000 <= x < 0x8000_0000

  /** A 20-bit reading. */
  type Reading = x: int | 0 <= x < 0x10_0000

  datatype Calibration = Calibration(t1: U16, t2: S16, t3: S16)

  predicate Fits(x: int) { -0x8000_0000 <= x < 0x8000_0000 }

  /** The arithmetic right shift of a signed value: division that rounds down. */
  function ShiftRight(x: int, d: int): (q: int)
    requires d > 0
    ensures q * d <= x < q * d + d
  {
    x / d
  }

  /** The three differences and quotients of the computation. */
  function A(u: Reading, c: Calibration): int { ShiftRight(u, 8) - c.t1 * 2 }

  function B(u: Reading, c: Calibration): int { ShiftRight(u, 16) - c.t1 }

  function X1(u: Reading, c: Calibration): int { ShiftRight(A(u, c) * c.t2, 2048) }

  function Squared(u: Reading, c: Calibration): int { ShiftRight(B(u, c) * B(u, c), 4096) }

  function X2(u: Reading, c: Calibration): int { ShiftRight(Squared(u, c) * c.t3, 16384) }

  function Fine(u: Reading, c: Calibration): int { X1(u, c) + X2(u, c) }

  /** bmp280_compensate_temperature_int32, in hundredths of a degree: a unit of t_fine is 5 / 256 of one, and the
      result is the nearest hundredth, the higher of two that are as near. */
  function Temperature(u: Reading, c: Calibration): (t: int)
    ensures -128 < 256 * t - 5 * Fine(u, c) <= 128
  {
    ShiftRight(Fine(u, c) * 5 + 128, 256)
  }

  /** No 32-bit intermediate overflows. */
  predicate InRange(u: Reading, c: Calibration) {
    Fits(A(u, c) * c.t2) && Fits(B(u, c) * B(u, c)) && Fits(Squared(u, c) * c.t3)
  }

  /** bmp280_compensate_temperature_double, exactly, in degrees. */
  function Exact(u: Reading, c: Calibration): real {
    var x1 := (u as real / 16384.0 - c.t1 as real / 1024.0) * c.t2 as real;
    var d := u as real / 131072.0 - c.t1 as real / 8192.0;
    (x1 + d * d * c.t3 as real) / 5120.0
  }

  const P20: int := 0x10_0000
  const P34: int := 0x4_0000_0000

  /** The reading less the calibration offset, in sixteenths of B. */
  function W(u: Reading, c: Calibration): int { u - 16 * c.t1 }

  /** 2^42 / 5 times the exact value in hundredths. */
  function Scaled(u: Reading, c: Calibration): int {
    P20 * (W(u, c) * c.t2) + W(u, c) * W(u, c) * c.t3
  }

  // ---- The two terms ----

  lemma Product(a: int, lo: int, hi: int, k: nat)
    requires lo <= a <= hi
    ensures lo * k <= a * k <= hi * k
  {
  }

  /** A bounded factor times a 16-bit one. */
  lemma TimesS16(a: int, t: int, m: int)
    requires -m <= a <= m && -0x8000 <= t < 0x8000
    ensures -0x8000 * m <= a * t <= 0x8000 * m
  {
    if t >= 0 {
      Product(a, -m, m, t);
      Product(t, 0, 0x8000, m);
      assert (-m) * t == -(m * t);
    } else {
      Product(a, -m, m, -t);
      Product(-t, 0, 0x8000, m);
      Negate(a, t);
      Negate(m, t);
      assert (-m) * (-t) == m * t;
    }
  }

  lemma Negate(a: int, t: int)
    ensures a * (-t) == -(a * t)
  {
  }

  /** The first term loses less than 15 units of t_fine. */
  lemma FirstTerm(u: Reading, c: Calibration)
    ensures -229376 <= W(u, c) * c.t2 - 16384 * X1(u, c) < 245760
  {
    var a, r := A(u, c), u % 8;
    assert W(u, c) == 8 * a + r;
    assert W(u, c) * c.t2 == 8 * (a * c.t2) + r * c.t2;
    TimesS16(r, c.t2, 7);
  }

  lemma SquareBelow(b: nat)
    requires b * b < 0x8000_0000
    ensures b <= 46341
  {
    if b > 46341 {
      Product(b, 46341, b, b);
    }
  }

  lemma SquareBound(b: int)
    requires b * b < 0x8000_0000
    ensures -46341 <= b <= 46341
  {
    Negate(b, b);
    Negate(-b, b);
    SquareBelow(if b < 0 then -b else b);
  }

  /** The second term gains less than 45 units and loses less than 46. */
  lemma SecondTerm(u: Reading, c: Calibration)
    requires InRange(u, c)
    ensures -45 * P34 < W(u, c) * W(u, c) * c.t3 - P34 * X2(u, c) < 46 * P34
  {
    var b, r, q := B(u, c), u % 16, Squared(u, c);
    var lost := 256 * (b * b - 4096 * q) + 32 * (b * r) + r * r;
    SquareBound(b);
    LostBound(b, r, q);
    Square(b, r);
    assert W(u, c) == 16 * b + r;
    Combine(W(u, c) * W(u, c), q, lost, c.t3, X2(u, c));
  }

  lemma Combine(ww: int, q: int, lost: int, t3: S16, x2: int)
    requires ww == P20 * q + lost && -23_300_000 <= lost <= 23_300_000 && 16384 * x2 <= q * t3 < 16384 * x2 + 16384
    ensures -45 * P34 < ww * t3 - P34 * x2 < 46 * P34
  {
    TimesS16(lost, t3, 23_300_000);
    Distribute(P20, q, lost, t3);
  }

  lemma LostBound(b: int, r: int, q: int)
    requires -46341 <= b <= 46341 && 0 <= r < 16 && 0 <= b * b - 4096 * q < 4096
    ensures -23_300_000 <= 256 * (b * b - 4096 * q) + 32 * (b * r) + r * r <= 23_300_000
  {
    Product(b, -46341, 46341, r);
    Product(r, 0, 15, r);
  }

  lemma Square(b: int, r: int)
    ensures (16 * b + r) * (16 * b + r) == 256 * (b * b) + 32 * (b * r) + r * r
  {
  }

  lemma Distribute(p: int, q: int, e: int, t: int)
    ensures (p * q + e) * t == p * (q * t) + e * t
  {
  }

  // ---- The bound ----

  lemma ScaledBound(u: Reading, c: Calibration)
    requires InRange(u, c)
    ensures -433 * P34 < 256 * P34 * Temperature(u, c) - 5 * Scaled(u, c) < 423 * P34
  {
    FirstTerm(u, c);
    SecondTerm(u, c);
    hide X1, X2, W;
    var first, second := W(u, c) * c.t2 - 16384 * X1(u, c), W(u, c) * W(u, c) * c.t3 - P34 * X2(u, c);
    assert Scaled(u, c) == P34 * Fine(u, c) + P20 * first + second;
  }

  /** Exact is Scaled, in degrees. */
  lemma ScaledExact(u: Reading, c: Calibration)
    ensures 100.0 * Exact(u, c) * 256.0 * P34 as real == 5.0 * Scaled(u, c) as real
  {
    var w, t2, t3 := W(u, c) as real, c.t2 as real, c.t3 as real;
    assert w == u as real - 16.0 * c.t1 as real;
    assert u as real / 16384.0 - c.t1 as real / 1024.0 == w / 16384.0;
    var d := u as real / 131072.0 - c.t1 as real / 8192.0;
    assert d == w / 131072.0;
    Quotients(w, t2, t3);
    assert (W(u, c) * c.t2) as real == w * t2;
    assert (W(u, c) * W(u, c) * c.t3) as real == w * w * t3;
  }

  lemma Quotients(w: real, t2: real, t3: real)
    ensures (w / 16384.0 * t2 + w / 131072.0 * (w / 131072.0) * t3) * (256.0 * 17179869184.0 * 100.0 / 5120.0)
      == 5.0 * (1048576.0 * (w * t2) + w * w * t3)
  {
  }

  /** For every 20-bit reading and calibration whose 32-bit intermediates do not overflow, the integer
      result is less than 1.7 hundredths of a degree from the exact value. */
  lemma TemperatureError(u: Reading, c: Calibration)
    requires InRange(u, c)
    ensures -1.7 < Temperature(u, c) as real - 100.0 * Exact(u, c) < 1.7
  {
    ScaledBound(u, c);
    ScaledExact(u, c);
    hide Temperature, Exact, Scaled;
    var e, t := 100.0 * Exact(u, c), Temperature(u, c);
    assert 256.0 * P34 as real * (t as real - e) == (256 * P34 * t - 5 * Scaled(u, c)) as real;
  }

  /** t_fine and the result are 32-bit values too. */
  lemma ResultFits(u: Reading, c: Calibration)
    requires InRange(u, c)
    ensures Fits(Fine(u, c)) && Fits(Fine(u, c) * 5 + 128) && Fits(Temperature(u, c))
  {
  }

  class Device {
    const calibration: Calibration
    var tFine: int

    constructor (calibration: Calibration)
      ensures this.calibration == calibration
    {
      this.calibration := calibration;
      tFine := 0;
    }

    /** bmp280_compensate_temperature_int32: leaves t_fine for the pressure compensation. */
    method CompensateTemperature(u: Reading) returns (temperature: S32)
      requires InRange(u, calibration)
      modifies this`tFine
      ensures tFine == Fine(u, calibration)
      ensures -128 < 256 * temperature - 5 * tFine <= 128
      ensures -1.7 < temperature as real - 100.0 * Exact(u, calibration) < 1.7
    {
      ResultFits(u, calibration);
      TemperatureError(u, calibration);
      var x1: S32 := ShiftRight((ShiftRight(u, 8) - calibration.t1 * 2) * calibration.t2, 2048);
      var b := ShiftRight(u, 16) - calibration.t1;
      var x2: S32 := ShiftRight(ShiftRight(b * b, 4096) * calibration.t3, 16384);
      tFine := x1 + x2;
      temperature := ShiftRight(tFine * 5 + 128, 256);
    }
  }
}
