/** Small facts about division of reals, kept apart so that each is proved
    in a context of its own. */
module RealFacts {

  lemma DivInUnitInterval(c: real, d: real)
    requires 0.0 <= c <= d && d > 0.0
    ensures 0.0 <= c / d <= 1.0
  {
    assert c / d * d == c;
  }

  lemma NegatedDiv(c: real, d: real)
    requires d != 0.0
    ensures -c / d == -(c / d)
  {
    assert (-c / d) * d == -c;
  }

  lemma ProductQuotient(x: real, y: real, z: real)
    requires x != 0.0 && z != 0.0
    ensures (x * y / z) / x == y / z
  {
    assert x * y / z == x * (y / z);
  }

  lemma DivSum(x: real, y: real, z: real)
    requires z != 0.0
    ensures x / z + y / z == (x + y) / z
  {
  }

  lemma DivMonotone(x: real, y: real, z: real)
    requires z > 0.0 && x <= y
    ensures x / z <= y / z
  {
    assert y / z - x / z == (y - x) / z;
    assert (y - x) / z * z == y - x;
  }

  lemma DivSelf(z: real)
    requires z != 0.0
    ensures z / z == 1.0
  {
    assert 1.0 * z == z;
  }

  lemma DivNonZero(c: real, d: real)
    requires c != 0.0 && d != 0.0
    ensures c / d != 0.0
  {
    assert c / d * d == c;
  }
}
