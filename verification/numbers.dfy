/** Python's number conversions. The model does not define `float()`,
    `int()` or number printing character by character: they are functions the
    model is given, and the predicates below name the few facts about them
    that individual lemmas assume. */
module Numbers {
  import opened Wrappers

  datatype Conversions = Conversions(
    parseFloat: string -> Option<real>,  // `float(s)`; None where it raises
    parseInt: string -> Option<int>,     // `int(s)`; None where it raises
    show: real -> string,                // `str(x)` and `f"{x}"` for a float
    showSignedG: real -> string          // `f"{x:+g}"`
  )

  /** `float("")` and `int("")` raise. */
  predicate RejectsEmpty(c: Conversions)
  {
    c.parseFloat("") == None && c.parseInt("") == None
  }

  /** `float()` yields a negative number only from text that holds a '-'. */
  ghost predicate NegativeNeedsMinus(c: Conversions)
  {
    forall s :: c.parseFloat(s).Some? && c.parseFloat(s).value < 0.0 ==> '-' in s
  }

  /** `int()` rejects text that holds a '.', such as "44100.0". */
  ghost predicate IntRejectsDot(c: Conversions)
  {
    forall s :: '.' in s ==> c.parseInt(s) == None
  }

  /** `str(x)` of a float is never empty and never starts with '+'. */
  ghost predicate ShowsNoPlus(c: Conversions)
  {
    forall x :: c.show(x) != [] && c.show(x)[0] != '+'
  }

  /** `x` prints as text free of ':' and '-' that `float()` reads back as `x`. */
  predicate Printable(c: Conversions, x: real)
  {
    ':' !in c.show(x) && '-' !in c.show(x) && c.parseFloat(c.show(x)) == Some(x)
  }

  /** `int(x)` for a float: truncation toward zero. */
  function Trunc(x: real): (r: int)
    ensures x >= 0.0 ==> 0 <= r && r as real <= x < r as real + 1.0
    ensures x < 0.0 ==> r <= 0 && r as real - 1.0 < x <= r as real
  {
    if x >= 0.0 then x.Floor else -((-x).Floor)
  }

  /** Dividing by a positive number keeps the sign. */
  lemma DivSign(x: real, d: real)
    requires d > 0.0
    ensures x >= 0.0 ==> x / d >= 0.0
    ensures x <= 0.0 ==> x / d <= 0.0
  {
    assert (x / d) * d == x;
  }

  /** A positive number divided by itself is one. */
  lemma DivSelf(x: real)
    requires x > 0.0
    ensures x / x == 1.0
  {
  }

  /** Dividing by a positive number keeps the order. */
  lemma DivMonotone(x: real, y: real, d: real)
    requires x <= y && d > 0.0
    ensures x / d <= y / d
  {
    DivSign(y - x, d);
    assert y / d - x / d == (y - x) / d;
  }

  /** Scaling by a non-negative number keeps the order of the factors,
      scaling by a non-positive one reverses it. */
  lemma MulMonotone(delta: real, i: int, j: int)
    requires i <= j
    ensures delta >= 0.0 ==> delta * (i as real) <= delta * (j as real)
    ensures delta <= 0.0 ==> delta * (i as real) >= delta * (j as real)
  {
    assert delta * (j as real) - delta * (i as real) == delta * ((j - i) as real);
  }

  /** Truncation is monotone. */
  lemma TruncMonotone(x: real, y: real)
    requires x <= y
    ensures Trunc(x) <= Trunc(y)
  {
  }
}
