/** Non-negative decimal arithmetic, exact: any input is first made a number that is not negative. */
module DecimalAlgebra {
  import opened Common

  /** What a caller may pass: None, something that is no decimal or not finite, or a number. */
  datatype Input = Missing | Unusable | Number(value: real)

  function Safe(x: Input, default: real): real {
    if x.Number? && x.value >= 0.0 then x.value else default
  }

  function Clean(x: Input): (r: real)
    ensures r >= 0.0
  {
    Safe(x, 0.0)
  }

  function SafeAdd(a: Input, b: Input, default: real): real { Safe(Number(Clean(a) + Clean(b)), default) }

  function SafeSubtract(a: Input, b: Input, default: real): real { Safe(Number(Clean(a) - Clean(b)), default) }

  function SafeDivide(n: Input, d: Input, default: real): real {
    if Clean(d) == 0.0 then default else Clean(n) / Clean(d)
  }

  function PercentOf(part: Input, whole: Input, default: real): real {
    if Clean(whole) == 0.0 then default else Clean(part) / Clean(whole) * 100.0
  }

  function Bound(x: Input): Option<real> { if x.Missing? then None else Some(Clean(x)) }

  function Clamp(x: Input, minimum: Input, maximum: Input, default: real): real {
    var v, lo, hi := Safe(x, default), Bound(minimum), Bound(maximum);
    if lo.Some? && v < lo.value then lo.value else if hi.Some? && v > hi.value then hi.value else v
  }

  /** Subtraction is the truncated inverse of addition: a - b is the least c with a <= b + c. */
  lemma SubtractionAdjoint(a: Input, b: Input, c: Input)
    ensures SafeSubtract(a, b, 0.0) <= Clean(c) <==> Clean(a) <= SafeAdd(b, c, 0.0)
  {
    assert SafeAdd(b, c, 0.0) == Clean(b) + Clean(c);
  }

  /** Where the difference is not negative, adding gives the minuend back; elsewhere it is the default. */
  lemma SubtractionInverse(a: Input, b: Input, default: real)
    ensures Clean(a) >= Clean(b) ==> SafeSubtract(a, b, default) + Clean(b) == Clean(a)
    ensures Clean(a) < Clean(b) ==> SafeSubtract(a, b, default) == default
    ensures SafeAdd(a, b, default) - Clean(b) == Clean(a)
  {
  }

  function Sum(parts: seq<Input>): (r: real)
    ensures r >= 0.0
  {
    if parts == [] then 0.0 else Clean(parts[0]) + Sum(parts[1..])
  }

  function Percentages(parts: seq<Input>, whole: Input): real {
    if parts == [] then 0.0 else PercentOf(parts[0], whole, 0.0) + Percentages(parts[1..], whole)
  }

  lemma Distributes(a: real, b: real, w: real)
    requires w > 0.0
    ensures (a + b) / w * 100.0 == a / w * 100.0 + b / w * 100.0
  {
    assert (a + b) / w == a / w + b / w;
  }

  lemma {:induction false} PercentagesOf(parts: seq<Input>, whole: Input)
    requires Clean(whole) > 0.0
    ensures Percentages(parts, whole) == Sum(parts) / Clean(whole) * 100.0
  {
    if parts != [] {
      PercentagesOf(parts[1..], whole);
      Distributes(Clean(parts[0]), Sum(parts[1..]), Clean(whole));
    }
  }

  lemma ShareIsOneIff(part: real, whole: real)
    requires whole > 0.0
    ensures part / whole == 1.0 <==> part == whole
  {
    assert part / whole * whole == part;
  }

  /** The shares of a whole come to 100 percent exactly if the parts come to the whole, whatever
      unusable or negative parts there are among them. */
  lemma SharesOfAHundred(parts: seq<Input>, whole: Input)
    requires Clean(whole) > 0.0
    ensures Percentages(parts, whole) == 100.0 <==> Sum(parts) == Clean(whole)
  {
    PercentagesOf(parts, whole);
    ShareIsOneIff(Sum(parts), Clean(whole));
  }

  predicate InOrder(minimum: Input, maximum: Input) {
    Bound(minimum).Some? && Bound(maximum).Some? ==> Clean(minimum) <= Clean(maximum)
  }

  predicate InRange(v: real, minimum: Input, maximum: Input) {
    && (Bound(minimum).Some? ==> Clean(minimum) <= v)
    && (Bound(maximum).Some? ==> v <= Clean(maximum))
  }

  /** Clamping lands in the range exactly if the bounds are in order. */
  lemma ClampInRangeIff(x: Input, minimum: Input, maximum: Input, default: real)
    ensures InRange(Clamp(x, minimum, maximum, default), minimum, maximum) <==> InOrder(minimum, maximum)
  {
  }

  function Distance(x: real, y: real): real { if x <= y then y - x else x - y }

  /** With bounds in order the result is the value in range that is nearest to the input, or to the default
      where the input is unusable. */
  lemma ClampNearest(x: Input, minimum: Input, maximum: Input, default: real, y: real)
    requires InOrder(minimum, maximum) && InRange(y, minimum, maximum)
    ensures var v := if x.Number? && x.value >= 0.0 then x.value else default;
      Distance(v, Clamp(x, minimum, maximum, default)) <= Distance(v, y)
  {
  }

  /** With bounds out of order the lower one comes first; and a bound that is given but unusable is 0. */
  lemma ClampCorners(x: Input, minimum: Input, maximum: Input, default: real)
    requires x.Number? && x.value >= 0.0
    ensures minimum.Number? && x.value < minimum.value ==> Clamp(x, minimum, maximum, default) == minimum.value
    ensures maximum == Unusable && minimum == Missing ==> Clamp(x, minimum, maximum, default) == 0.0
  {
  }

  ghost predicate ClampIdempotent(minimum: Input, maximum: Input) {
    forall x :: Clamp(Number(Clamp(x, minimum, maximum, 0.0)), minimum, maximum, 0.0) == Clamp(x, minimum, maximum, 0.0)
  }

  ghost predicate ClampMonotone(minimum: Input, maximum: Input) {
    forall x, y :: Clean(x) <= Clean(y) ==> Clamp(x, minimum, maximum, 0.0) <= Clamp(y, minimum, maximum, 0.0)
  }

  /** Clamping twice is clamping once, and clamping keeps order, exactly if the bounds are in order. */
  lemma ClampLawsIff(minimum: Input, maximum: Input)
    ensures ClampIdempotent(minimum, maximum) <==> InOrder(minimum, maximum)
    ensures ClampMonotone(minimum, maximum) <==> InOrder(minimum, maximum)
  {
    if !InOrder(minimum, maximum) {
      var zero, top := Number(0.0), Number(Clean(minimum));
      assert Clamp(zero, minimum, maximum, 0.0) == Clean(minimum);
      assert Clamp(top, minimum, maximum, 0.0) == Clean(maximum);
      assert Clean(zero) <= Clean(top);
    }
  }

  lemma DivisionInverse(n: Input, d: Input, default: real)
    ensures Clean(d) > 0.0 ==> SafeDivide(n, d, default) * Clean(d) == Clean(n)
    ensures Clean(d) > 0.0 ==> PercentOf(n, d, default) == SafeDivide(n, d, default) * 100.0
    ensures Clean(d) == 0.0 ==> SafeDivide(n, d, default) == default == PercentOf(n, d, default)
  {
  }
}
