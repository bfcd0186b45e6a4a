/** Facts about products and quotients that the solver does not find alone. */
module Arithmetic {

  lemma MulMonotone(x: nat, y: nat, b: nat)
    ensures x <= y ==> x * b <= y * b
  {
    if x <= y { assert y * b == x * b + (y - x) * b; }
  }

  lemma Quotient(a: nat, b: nat, q: nat, r: nat)
    requires a == q * b + r && r < b
    ensures a / b == q
  {
    var d := a / b;
    assert a == d * b + a % b;
    assert (d + 1) * b == d * b + b && (q + 1) * b == q * b + b;
    MulMonotone(d + 1, q, b);
    MulMonotone(q + 1, d, b);
  }
}
