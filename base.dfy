/** Go's fixed-width integers, its integer division and its error values, as the
    other modules use them. */
module Base {

  /** 2^64: the modulus of Go's `uint64` arithmetic. */
  const U64: int := 0x1_0000_0000_0000_0000

  type uint64 = x: int | 0 <= x < U64
  type uint8 = x: int | 0 <= x < 256

  datatype Option<+T> = None | Some(value: T)

  /** A Go `(value, error)` pair: either the value or the error's message. */
  datatype Result<+T> = Ok(value: T) | Err(error: string)

  function Abs(x: int): nat { if x < 0 then -x else x }

  function Min(a: int, b: int): int { if a <= b then a else b }

  function Max(a: int, b: int): int { if a >= b then a else b }

  /** `big.Int.Quo` (and Go's `/` on integers): division truncated toward zero.
      Its magnitude is the quotient of the magnitudes; it is negative only when the
      operands' signs differ. */
  function Quo(a: int, b: int): (q: int)
    requires b != 0
    ensures Abs(q) == Abs(a) / Abs(b)
    ensures q > 0 ==> (a < 0) == (b < 0)
    ensures q < 0 ==> (a < 0) != (b < 0)
    ensures a >= 0 && b > 0 ==> q == a / b
  {
    var m := Abs(a) / Abs(b);
    assert 0 <= m by { DivNonNeg(Abs(a), Abs(b)); }
    if (a < 0) == (b < 0) then m else -m
  }

  /** The quotient of a non-negative number by a positive one is not negative. */
  lemma DivNonNeg(x: nat, y: int)
    requires y > 0
    ensures x / y >= 0
  {
  }

  /** `big.Int.Uint64`: the low 64 bits of the magnitude. */
  function Uint64Of(x: int): (r: uint64)
    ensures 0 <= x < U64 ==> r == x
    ensures (r - Abs(x)) % U64 == 0
  {
    Abs(x) % U64
  }

  /** A counter modulo `m` stepped by one: reducing before or after the step
      gives the same value (a `uint64` counter is the case `m == U64`). */
  lemma ModSucc(n: int, m: int)
    requires m > 0
    ensures (n % m + 1) % m == (n + 1) % m
  {
    var q, r := n / m, n % m;
    if r + 1 == m {
      ModUnique(n + 1, m, q + 1, 0);
      ModUnique(r + 1, m, 1, 0);
    } else {
      ModUnique(n + 1, m, q, r + 1);
      ModUnique(r + 1, m, 0, r + 1);
    }
  }

  /** The remainder is the only `s` in `[0, m)` with `x == q * m + s`. */
  lemma ModUnique(x: int, m: int, q: int, s: int)
    requires m > 0 && 0 <= s < m && x == q * m + s
    ensures x % m == s
  {
    var q', s' := x / m, x % m;
    assert x == q' * m + s';
    var d := q - q';
    assert d * m == q * m - q' * m;
    assert d * m == s' - s;
    if d >= 1 {
      MulAtLeast(d, m);
    } else if d <= -1 {
      MulAtLeast(-d, m);
    }
  }

  /** A positive multiple of `m` is at least `m`. */
  lemma MulAtLeast(d: int, m: int)
    requires d >= 1 && m > 0
    ensures d * m >= m
  {
    assert d * m == (d - 1) * m + m;
  }
}
