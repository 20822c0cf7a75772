/** The transcendental functions the cover-flow code calls (glm::exp,
    std::erf, glm::sqrt(glm::pi)) are not modelled numerically. They are
    carried as values, and only the structural facts the proofs need are
    stated about them, as hypotheses a caller supplies. */
module MathLib {

  /** The library of real functions the controller and the fields call. */
  datatype Lib = Lib(exp: real -> real, erf: real -> real, sqrtPi: real)

  /** exp(0) = 1, exp is positive, and exp is at most 1 on non-positive arguments. */
  ghost predicate ExpLaws(exp: real -> real)
  {
    && exp(0.0) == 1.0
    && (forall y :: exp(y) > 0.0)
    && (forall y :: y <= 0.0 ==> exp(y) <= 1.0)
  }

  /** erf is odd (and hence erf(0) = 0). */
  ghost predicate ErfLaws(erf: real -> real)
  {
    forall y :: erf(-y) == -erf(y)
  }

  ghost predicate Lawful(m: Lib)
  {
    ExpLaws(m.exp) && ErfLaws(m.erf)
  }

  lemma ErfAtZero(erf: real -> real)
    requires ErfLaws(erf)
    ensures erf(0.0) == 0.0
  {
  }

  function Abs(r: real): real
  {
    if r < 0.0 then -r else r
  }

  function Min(a: real, b: real): real
  {
    if a <= b then a else b
  }

  function Max(a: real, b: real): real
  {
    if a >= b then a else b
  }
}
