/** The volume of the unit ball, used by the connection-radius formula. */
module AlgoUtils {
  import opened Geometry

  /**
   * unit_ball_volume: V(0) = 1, V(1) = 2, V(d) = (2 pi / d) V(d - 2).
   * Float rounding is not modelled; the result is exact over the reals.
   */
  function UnitBallVolume(dim: nat): (v: real)
    ensures v > 0.0
  {
    if dim == 0 then 1.0
    else if dim == 1 then 2.0
    else (2.0 * Pi / dim as real) * UnitBallVolume(dim - 2)
  }

  function Power(x: real, k: nat): real
  {
    if k == 0 then 1.0 else x * Power(x, k - 1)
  }

  function Factorial(k: nat): (f: nat)
    ensures f > 0
  {
    if k == 0 then 1 else k * Factorial(k - 1)
  }

  /** 1 * 3 * 5 * ... * (2k + 1) */
  function OddFactorial(k: nat): (f: nat)
    ensures f > 0
  {
    if k == 0 then 1 else (2 * k + 1) * OddFactorial(k - 1)
  }

  lemma QuotientProduct(a: real, b: real, c: real, d: real)
    requires b != 0.0 && d != 0.0
    ensures (a / b) * (c / d) == (a * c) / (b * d)
  {
  }

  lemma UnitBallVolumeLowDimensions()
    ensures UnitBallVolume(0) == 1.0
    ensures UnitBallVolume(1) == 2.0
    ensures UnitBallVolume(2) == Pi
    ensures UnitBallVolume(3) == 4.0 * Pi / 3.0
  {
  }

  /** Even dimensions: V(2k) = pi^k / k!. */
  lemma {:induction false} UnitBallVolumeEven(k: nat)
    ensures UnitBallVolume(2 * k) == Power(Pi, k) / Factorial(k) as real
  {
    if k > 0 {
      UnitBallVolumeEven(k - 1);
      var kr, f, p := k as real, Factorial(k - 1) as real, Power(Pi, k - 1);
      var prev := UnitBallVolume(2 * (k - 1));
      assert prev == p / f;
      assert 2.0 * Pi / (2 * k) as real == Pi / kr;
      assert Factorial(k) as real == kr * f by {
        CastProduct(k, Factorial(k - 1));
      }
      calc {
        UnitBallVolume(2 * k);
        (2.0 * Pi / (2 * k) as real) * prev;
        (Pi / kr) * (p / f);
        { QuotientProduct(Pi, kr, p, f); }
        (Pi * p) / (kr * f);
        Power(Pi, k) / Factorial(k) as real;
      }
    }
  }

  lemma CastProduct(a: nat, b: nat)
    ensures (a * b) as real == a as real * b as real
  {
  }

  /** Odd dimensions: V(2k + 1) = 2 (2 pi)^k / (1 * 3 * ... * (2k + 1)). */
  lemma {:induction false} UnitBallVolumeOdd(k: nat)
    ensures UnitBallVolume(2 * k + 1) == 2.0 * Power(2.0 * Pi, k) / OddFactorial(k) as real
  {
    if k > 0 {
      UnitBallVolumeOdd(k - 1);
      var dr, f, p := (2 * k + 1) as real, OddFactorial(k - 1) as real, Power(2.0 * Pi, k - 1);
      assert UnitBallVolume(2 * (k - 1) + 1) == 2.0 * p / f;
      assert UnitBallVolume(2 * k + 1) == (2.0 * Pi / dr) * UnitBallVolume(2 * (k - 1) + 1);
      QuotientProduct(2.0 * Pi, dr, 2.0 * p, f);
      assert OddFactorial(k) as real == dr * f by {
        CastProduct(2 * k + 1, OddFactorial(k - 1));
      }
      assert (2.0 * Pi) * (2.0 * p) == 2.0 * ((2.0 * Pi) * p);
    }
  }
}
