/** Money is counted in whole cents.  The service adds and subtracts with Python's
    Decimal (28 significant digits, round half to even) and the result is stored in a
    Numeric(18, 2) column, which refuses any value of 10^16 units or more. */
module Money {
  import opened Wrappers

  type Cents = int

  /** 10^16 units, the first value a Numeric(18, 2) column refuses. */
  const NUMERIC_LIMIT: Cents := 1_000_000_000_000_000_000

  /** The first number of cents that does not fit in 28 significant digits. */
  const DECIMAL_LIMIT: Cents := 10_000_000_000_000_000_000_000_000_000

  function Pow10(n: nat): (r: nat)
    ensures r >= 1
    ensures n > 0 ==> r >= 10 && r % 2 == 0
  {
    if n == 0 then 1 else 10 * Pow10(n - 1)
  }

  /** How many low digits of `n` do not fit in 28 digits. */
  function Excess(n: nat): (d: nat)
    ensures d == 0 <==> n < DECIMAL_LIMIT
  {
    if n < DECIMAL_LIMIT then 0 else 1 + Excess(n / 10)
  }

  /** `n / unit` rounded to the nearest integer, a tie going to the even neighbour. */
  function HalfEven(n: nat, unit: nat): nat
    requires unit > 0
  {
    var q, r := n / unit, n % unit;
    if 2 * r < unit || (2 * r == unit && q % 2 == 0) then q else q + 1
  }

  /** A sum after rounding by the 28-digit Decimal context. */
  function InContext(n: nat): nat {
    var unit := Pow10(Excess(n));
    HalfEven(n, unit) * unit
  }

  /** What the column stores, or None when it raises a numeric overflow. */
  function Stored(n: Cents): Option<Cents> {
    if -NUMERIC_LIMIT < n < NUMERIC_LIMIT then Some(n) else None
  }

  /** The balance computed by `wallet.balance + amount`. */
  function Plus(balance: Cents, amount: Cents): Cents {
    var n := balance + amount;
    var m: int := InContext(if n >= 0 then n else -n);
    if n >= 0 then m else -m
  }

  lemma {:induction false} ExcessLeaves28Digits(n: nat)
    requires n >= DECIMAL_LIMIT
    ensures n / Pow10(Excess(n)) >= DECIMAL_LIMIT / 10
    decreases n
  {
    var d := Excess(n / 10);
    if n / 10 >= DECIMAL_LIMIT {
      ExcessLeaves28Digits(n / 10);
    }
    var p := Pow10(d);
    assert n / (10 * p) == n / 10 / p by { DivDiv(n, p); }
  }

  lemma DivDiv(n: nat, p: nat)
    requires p > 0
    ensures n / (10 * p) == n / 10 / p
  {
    var a := n / 10;
    var q := a / p;
    assert a == q * p + a % p;
    assert n == 10 * a + n % 10;
    assert n == q * (10 * p) + (10 * (a % p) + n % 10);
    QuotientIs(n, 10 * p, q, 10 * (a % p) + n % 10);
  }

  lemma QuotientIs(n: int, u: int, q: int, r: int)
    requires 0 <= r < u && n == q * u + r
    ensures n / u == q && n % u == r
  {
    var k := n / u - q;
    assert n == n / u * u + n % u;
    assert k * u == n / u * u - q * u;
    if k >= 1 {
      Scaled(1, k, u);
    } else if k <= -1 {
      Scaled(k, -1, u);
    }
  }

  lemma Scaled(a: int, b: int, u: int)
    requires a <= b && u >= 0
    ensures a * u <= b * u
  {
  }

  lemma HalfEvenIsNear(n: nat, unit: nat)
    requires unit > 0
    ensures 2 * (HalfEven(n, unit) * unit - n) <= unit
    ensures 2 * (n - HalfEven(n, unit) * unit) <= unit
    ensures n % unit == 0 ==> HalfEven(n, unit) * unit == n
    ensures 2 * (n % unit) == unit ==> HalfEven(n, unit) % 2 == 0
  {
    var q, r := n / unit, n % unit;
    assert n == q * unit + r;
    assert (q + 1) * unit == q * unit + unit;
  }

  /** Rounding picks a nearest multiple of the last kept digit's unit, of two the even one, so it
      is exact just for the multiples: below 10^28 all are. */
  lemma RoundsToNearest(n: nat)
    ensures InContext(n) % Pow10(Excess(n)) == 0
    ensures 2 * (InContext(n) - n) <= Pow10(Excess(n))
    ensures 2 * (n - InContext(n)) <= Pow10(Excess(n))
    ensures InContext(n) == n <==> n % Pow10(Excess(n)) == 0
    ensures 2 * (n % Pow10(Excess(n))) == Pow10(Excess(n)) ==> InContext(n) / Pow10(Excess(n)) % 2 == 0
    ensures n < 10_000_000_000_000_000_000_000_000_000 ==> InContext(n) == n
  {
    hide HalfEven;
    var unit := Pow10(Excess(n));
    HalfEvenIsNear(n, unit);
    QuotientIs(HalfEven(n, unit) * unit, unit, HalfEven(n, unit), 0);
  }

  /** Rounding cannot bring a value of 29 or more digits back under 10^28 cents. */
  lemma RoundingStaysLarge(n: nat)
    requires n >= DECIMAL_LIMIT
    ensures InContext(n) >= DECIMAL_LIMIT
  {
    ExcessLeaves28Digits(n);
    var unit := Pow10(Excess(n));
    var k := HalfEven(n, unit);
    assert k >= DECIMAL_LIMIT / 10 && unit >= 10;
    Scaled(DECIMAL_LIMIT / 10, k, unit);
  }

  /** For every stored balance and every amount, of any size, the column either holds the
      exact sum or refuses it: rounding never reaches a stored balance. */
  lemma ExactOrRefused(balance: Cents, amount: Cents)
    requires 0 <= balance < NUMERIC_LIMIT && amount > 0
    ensures Stored(Plus(balance, amount))
         == if balance + amount < 1_000_000_000_000_000_000 then Some(balance + amount) else None
  {
    if balance + amount < DECIMAL_LIMIT {
      RoundsToNearest(balance + amount);
    } else {
      RoundingStaysLarge(balance + amount);
    }
  }
}
