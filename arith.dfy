/** Non-linear facts about natural numbers that the solver does not find unaided. */
module Arith {

  lemma MulMono(a: nat, b: nat, c: nat)
    requires a <= b
    ensures a * c <= b * c
  {
    var d := b - a;
    assert b * c == a * c + d * c;
  }

  /** MulMono as an implication, for callers that must not branch on it. */
  lemma MulMonoWhen(a: nat, b: nat, c: nat)
    ensures a <= b ==> a * c <= b * c
  {
    if a <= b {
      MulMono(a, b, c);
    }
  }

  lemma MulCancelLess(a: nat, b: nat, c: nat)
    requires a * c < b * c
    ensures a < b
  {
    MulMonoWhen(b, a, c);
  }

  /** Euclidean division is unique: a quotient and remainder in range are the ones `/` and `%` give. */
  lemma DivModUnique(x: nat, m: nat, q: nat, r: nat)
    requires m > 0 && r < m && x == q * m + r
    ensures x / m == q && x % m == r
  {
    var q' := x / m;
    assert (q' + 1) * m == q' * m + m;
    assert (q + 1) * m == q * m + m;
    MulMonoWhen(q' + 1, q, m);
    MulMonoWhen(q + 1, q', m);
  }
}
