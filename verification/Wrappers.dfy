/** Shared small definitions. */
module Wrappers {
  datatype Option<+T> = None | Some(value: T)
}

/** The few facts of nonlinear arithmetic the proofs rest on. */
module Arithmetic {
  lemma MulLeq(x: int, y: int, z: nat)
    requires x <= y
    ensures x * z <= y * z
  {
    assert (y - x) * z >= 0;
  }

  /** Quotient and remainder are unique. */
  lemma DivMod(q: nat, r: nat, base: nat)
    requires r < base
    ensures (q * base + r) / base == q && (q * base + r) % base == r
  {
    var x := q * base + r;
    var d := x / base - q;
    assert x == (x / base) * base + x % base;
    assert d * base == r - x % base by { assert (x / base - q) * base == (x / base) * base - q * base; }
    if d > 0 { MulLeq(1, d, base); }
    if d < 0 { MulLeq(d, -1, base); }
  }
}
