/** Facts about real division and order that several modules need. */
module Arithmetic {

  function MaxReal(a: real, b: real): real { if a < b then b else a }

  function MinReal(a: real, b: real): real { if b < a then b else a }

  lemma DivideBack(x: real, q: real)
    requires q > 0.0
    ensures x / q * q == x
  {
  }

  lemma ScaleOrder(a: real, b: real, q: real)
    requires q > 0.0
    ensures a <= b <==> a * q <= b * q
  {
    if a <= b { assert 0.0 <= (b - a) * q; } else { assert 0.0 < (a - b) * q; }
  }

  lemma Cancel(x: real, y: real, q: real)
    requires q > 0.0 && x * q == y * q
    ensures x == y
  {
    assert (x - y) * q == 0.0;
  }
}
