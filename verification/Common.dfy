/** Small shared vocabulary: an optional value and arithmetic helpers. */
module Common {

  /** A nullable column or variable of the source. */
  datatype Option<+T> = None | Some(value: T)

  function Min(a: int, b: int): int {
    if a < b then a else b
  }

  function Max(a: int, b: int): int {
    if a < b then b else a
  }

  function Pow2(n: nat): nat {
    if n == 0 then 1 else 2 * Pow2(n - 1)
  }

  function Digit(n: nat): char
    requires n < 10
  {
    ('0' as int + n) as char
  }

  /** The decimal text of a number. */
  function Decimal(n: nat): (s: string)
    ensures |s| >= 1
    ensures n >= 10 ==> |s| >= 2
  {
    if n < 10 then [Digit(n)] else Decimal(n / 10) + [Digit(n % 10)]
  }

  /** Identifiers are drawn at random, so that there is always one not yet drawn. */
  lemma Unused(ids: set<nat>) returns (x: nat)
    ensures x !in ids
  {
    var rest := ids;
    x := 0;
    while rest != {}
      invariant forall i | i in ids && i !in rest :: i < x
      decreases rest
    {
      var i :| i in rest;
      rest := rest - {i};
      if i >= x { x := i + 1; }
    }
  }
}
