/** The platform's number helpers, on reals. */
module Numbers {
  function Min(a: real, b: real): real { if a <= b then a else b }

  function Max(a: real, b: real): real { if a <= b then b else a }

  function Ceil(x: real): int { -((-x).Floor) }

  /** `Math.round`: half up. */
  function Round(x: real): int { (x + 0.5).Floor }

  lemma RoundMonotone(x: real, y: real)
    requires x <= y
    ensures Round(x) <= Round(y)
  {
  }

  lemma DivideMonotone(a: real, b: real, h: real)
    requires a <= b && h > 0.0
    ensures a / h <= b / h
  {
    assert (b - a) / h >= 0.0;
    assert b / h == a / h + (b - a) / h;
  }

  lemma Cancel(k: real, m: real)
    requires m > 0.0
    ensures k * m / m == k
  {
  }
}
