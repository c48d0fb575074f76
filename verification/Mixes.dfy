/** Weighted averages of two numbers. */
module Mixes {

  /** `y` with weight `lambda` and `x` with the rest. */
  function Mix(lambda: real, x: real, y: real): real {
    (1.0 - lambda) * x + lambda * y
  }

  lemma {:induction false} Product(a: real, b: real)
    requires 0.0 <= a && 0.0 <= b
    ensures 0.0 <= a * b
  {
  }

  /** A mix lies within any bounds of the two. */
  lemma {:induction false} MixIsConvex(l: real, x: real, y: real, low: real, high: real)
    requires 0.0 <= l <= 1.0 && low <= x <= high && low <= y <= high
    ensures low <= Mix(l, x, y) <= high
  {
    Product(1.0 - l, x - low);
    Product(l, y - low);
    Product(1.0 - l, high - x);
    Product(l, high - y);
    assert Mix(l, x, y) - low == (1.0 - l) * (x - low) + l * (y - low);
    assert high - Mix(l, x, y) == (1.0 - l) * (high - x) + l * (high - y);
  }

  /** More weight on the larger of the two makes the mix larger. */
  lemma {:induction false} MixGrows(l: real, m: real, x: real, y: real)
    requires l <= m && x <= y
    ensures Mix(l, x, y) <= Mix(m, x, y)
  {
    Product(m - l, y - x);
    assert Mix(m, x, y) - Mix(l, x, y) == (m - l) * (y - x);
  }
}
