/** Fixed-point arithmetic in hundredths.

    Stakes, balances, payouts and crash points are kept as integers counting
    hundredths of a unit; the live multiplier, which grows by a factor that is
    not a whole number of hundredths, is an exact ratio. `Round` is what
    `x.toFixed(2)` followed by `+`/`parseFloat` computes on an exact value. */
module Money {

  type Positive = n: int | n > 0 witness 1

  /** An exact non-negative rational number num/den. */
  datatype Ratio = Ratio(num: nat, den: Positive)

  /** The nearest whole number of hundredths to num/den hundredths; a tie goes
      away from zero (JavaScript's toFixed rounds the magnitude, taking the
      larger candidate on a tie). */
  function Round(num: int, den: Positive): (r: int)
    ensures num >= 0 ==> 0 - den < 2 * (r * den - num) <= den
    ensures num < 0 ==> 0 - den <= 2 * (r * den - num) < den
    ensures num >= 0 ==> r >= 0
  {
    if num >= 0 then RoundMagnitude(num, den) else -(RoundMagnitude(-num, den) as int)
  }

  function RoundMagnitude(num: nat, den: Positive): (r: nat)
    ensures 0 - den < 2 * (r * den - num) <= den
  {
    var q := (2 * num + den) / (2 * den);
    var rem := (2 * num + den) % (2 * den);
    assert 2 * num + den == q * (2 * den) + rem;
    assert 2 * (q * den - num) == den - rem;
    q
  }

  /** A value that already is a whole number of hundredths is left unchanged. */
  lemma {:induction false} RoundWhole(k: int, den: Positive)
    ensures Round(k * den, den) == k
  {
    NearestWhole(k, den, Round(k * den, den));
  }

  // Within half a unit of the whole number k, r * den can only be k * den.
  lemma NearestWhole(k: int, den: Positive, r: int)
    requires 0 - den <= 2 * (r * den - k * den) <= den
    ensures r == k
  {
    var d := r - k;
    assert r * den - k * den == d * den;
    assert 2 * (d * den) == (2 * d) * den;
    MulCancel(2 * d, 1, den);
    MulCancel(-1, 2 * d, den);
  }

  /** Rounding is monotone: a/b <= c/d implies Round(a, b) <= Round(c, d). */
  lemma {:induction false} RoundMonotone(a: nat, b: Positive, c: nat, d: Positive)
    requires a * d <= c * b
    ensures Round(a, b) <= Round(c, d)
  {
    var r1, r2 := Round(a, b), Round(c, d);
    assert 2 * r1 * b <= 2 * a + b;
    assert 2 * c < 2 * r2 * d + d;
    NearestOrder(a, b, c, d, r1, r2);
  }

  // r1 <= a/b + 1/2 <= c/d + 1/2 < r2 + 1, scaled by b * d
  lemma NearestOrder(a: int, b: Positive, c: int, d: Positive, r1: int, r2: int)
    requires a * d <= c * b
    requires 2 * r1 * b <= 2 * a + b
    requires 2 * c < 2 * r2 * d + d
    ensures r1 <= r2
  {
    var x, y := 2 * r1 * b, 2 * a + b;
    var u, v := 2 * c + d, (2 * r2 + 2) * d;
    MulMonotone(x, y, d);
    MulStrict(u, v, b);
    Distribute(a, b, d);
    Distribute(c, d, b);
    Reassociate(r1, b, d);
    var p, q := a * d, c * b;
    assert y * d == 2 * p + b * d;
    assert u * b == 2 * q + b * d;
    assert x * d < v * b;
    assert (2 * r1 * d) * b < v * b;
    MulCancelStrict(2 * r1 * d, v, b);
    MulCancelStrict(2 * r1, 2 * r2 + 2, d);
  }

  lemma Distribute(a: int, b: int, d: int)
    ensures (2 * a + b) * d == 2 * (a * d) + b * d
  {
  }

  lemma Reassociate(r: int, b: int, d: int)
    ensures 2 * r * b * d == 2 * r * d * b
  {
  }

  lemma MulMonotone(x: int, y: int, z: nat)
    requires x <= y
    ensures x * z <= y * z
  {
  }

  lemma MulStrict(x: int, y: int, z: Positive)
    requires x < y
    ensures x * z < y * z
  {
  }

  lemma MulCancel(x: int, y: int, z: Positive)
    requires x * z <= y * z
    ensures x <= y
  {
    if x > y {
      MulStrict(y, x, z);
    }
  }

  lemma MulCancelStrict(x: int, y: int, z: Positive)
    requires x * z < y * z
    ensures x < y
  {
    if x >= y {
      MulMonotone(y, x, z);
    }
  }

  /** Whether the ratio is at least the given number of hundredths. */
  predicate AtLeast(m: Ratio, hundredths: int)
  {
    m.num * 100 >= hundredths * m.den
  }

  /** `m.toFixed(2)` as hundredths. */
  function RoundRatio(m: Ratio): (r: nat)
    ensures 0 - m.den < 2 * (r * m.den - m.num * 100) <= m.den
  {
    Round(m.num * 100, m.den)
  }
}
