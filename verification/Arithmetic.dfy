/** Products and quotients, one fact at a time. */
module Arithmetic {
  lemma DivMod(n: int, d: int)
    requires d > 0
    ensures n == n / d * d + n % d && 0 <= n % d < d
  {
  }

  lemma Distributes(a: int, b: int, d: int)
    ensures (a - b) * d == a * d - b * d
  {
  }

  lemma MultipleIsFar(a: int, d: int)
    requires d > 0
    ensures a >= 1 ==> a * d >= d
    ensures a <= -1 ==> a * d <= -d
  {
  }

  lemma MultiplesAscend(a: int, b: int, d: nat)
    requires a <= b
    ensures a * d <= b * d
  {
    Distributes(b, a, d);
  }
}
