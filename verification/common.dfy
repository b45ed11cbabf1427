/** Small datatypes, functions and facts shared by the models. */
module Common {
  datatype Option<+T> = None | Some(value: T)

  function Max(a: int, b: int): int { if a < b then b else a }

  function Min(a: int, b: int): int { if b < a then b else a }

  /** The larger dividend has the larger quotient. */
  lemma {:induction false} QuotientLe(d: int, q: int, r: int, q': int, r': int)
    requires d > 0 && 0 <= r && r' < d && d * q + r <= d * q' + r'
    ensures q <= q'
  {
    assert q > q' ==> d * (q - q' - 1) >= 0;
    assert d * (q - q' - 1) == d * q - d * q' - d;
  }
}
