/** Statistical helpers: a second copy of the one-concept IRT curve, the
    multi-concept curve gated by the weakest skill, and the forgetting
    strategies, none of which is implemented. */
module Statistics {
  import opened Exceptions
  import Sim = StudentSimulator

  // ---------------------------------------------------------------------------
  // One-concept IRT, with the exponent as this file writes it
  // ---------------------------------------------------------------------------

  /** c + (1 - c) / (1 + exp(a * (theta - b))): the exponent has the opposite
      sign to the curve the students answer with. */
  function OneConceptIrt(exp: real -> real, theta: real, a: real, b: real, c: real): (p: real)
    requires Sim.ExpLike(exp)
    ensures c < 1.0 ==> c < p < 1.0
  {
    var e := exp(a * (theta - b));
    assert c < 1.0 ==> 0.0 < (1.0 - c) / (1.0 + e) < 1.0 - c by {
      if c < 1.0 {
        Sim.DivBelow(1.0 - c, 1.0 + e);
      }
    }
    c + (1.0 - c) / (1.0 + e)
  }

  /** With this sign the probability FALLS as the skill grows. */
  lemma IrtDecreasingInSkill(exp: real -> real, theta1: real, theta2: real, a: real, b: real, c: real)
    requires Sim.ExpLike(exp) && a > 0.0 && c <= 1.0 && theta1 <= theta2
    ensures OneConceptIrt(exp, theta2, a, b, c) <= OneConceptIrt(exp, theta1, a, b, c)
    ensures theta1 < theta2 && c < 1.0 ==>
              OneConceptIrt(exp, theta2, a, b, c) < OneConceptIrt(exp, theta1, a, b, c)
  {
    var x1, x2 := a * (theta1 - b), a * (theta2 - b);
    assert x2 - x1 == a * (theta2 - theta1);
    assert x1 <= x2;
    assert theta1 < theta2 ==> x1 < x2;
    assert exp(x1) <= exp(x2);
    Sim.IrtOfTerm(exp(x1), exp(x2), c);
  }

  /** A concrete case: with slope 1, difficulty 0 and guessing 0.25, a
      student of skill 1 gets a lower probability here than one of skill 0,
      while the students' own curve gives them a higher one. */
  lemma SkillLowersProbability(exp: real -> real)
    requires Sim.ExpLike(exp)
    ensures OneConceptIrt(exp, 1.0, 1.0, 0.0, 0.25) < OneConceptIrt(exp, 0.0, 1.0, 0.0, 0.25)
    ensures Sim.OneConceptIrt(exp, 0.0, 1.0, 0.0, 0.25) < Sim.OneConceptIrt(exp, 1.0, 1.0, 0.0, 0.25)
  {
    IrtDecreasingInSkill(exp, 0.0, 1.0, 1.0, 0.0, 0.25);
    Sim.IrtIncreasingInSkill(exp, 0.0, 1.0, 1.0, 0.0, 0.25);
  }

  // ---------------------------------------------------------------------------
  // Multi-concept IRT: the weakest skill gates the answer
  // ---------------------------------------------------------------------------

  /** The smallest of a non-empty list of skills. */
  function Min(s: seq<real>): (m: real)
    requires |s| > 0
    ensures m in s
    ensures forall k :: 0 <= k < |s| ==> m <= s[k]
  {
    if |s| == 1 then s[0]
    else
      var rest := Min(s[1..]);
      if s[0] <= rest then s[0] else rest
  }

  /** An element of s that is at most every element is the minimum. */
  lemma MinUnique(s: seq<real>, m: real)
    requires m in s && forall k :: 0 <= k < |s| ==> m <= s[k]
    ensures Min(s) == m
  {
    var i :| 0 <= i < |s| && s[i] == m;
    assert Min(s) <= s[i];
    var j :| 0 <= j < |s| && s[j] == Min(s);
    assert m <= s[j];
  }

  /** Reordering the skills does not change the minimum. */
  lemma MinOfPermutation(s: seq<real>, t: seq<real>)
    requires |s| > 0 && multiset(s) == multiset(t)
    ensures |t| > 0 && Min(s) == Min(t)
  {
    assert |t| == |multiset(t)| == |multiset(s)| == |s|;
    var m := Min(s);
    assert m in multiset(t);
    forall k | 0 <= k < |t|
      ensures m <= t[k]
    {
      assert t[k] in multiset(s);
      var i :| 0 <= i < |s| && s[i] == t[k];
    }
    MinUnique(t, m);
  }

  /** Which one-concept curve the multi-concept curve applies: this file's
      own, whose exponent is a * (theta - b), or the students', whose
      exponent is a * (b - theta). */
  datatype Curve = FileCurve | StudentCurve

  /** The one-concept probability on the chosen curve. */
  function CurveIrt(curve: Curve, exp: real -> real, theta: real, a: real, b: real, c: real): (p: real)
    requires Sim.ExpLike(exp)
    ensures c < 1.0 ==> c < p < 1.0
  {
    match curve
    case FileCurve => OneConceptIrt(exp, theta, a, b, c)
    case StudentCurve => Sim.OneConceptIrt(exp, theta, a, b, c)
  }

  /** The probability of a correct answer to a question over several
      concepts: the one-concept probability at the weakest skill. */
  function GatedIrt(curve: Curve, exp: real -> real, thetas: seq<real>, a: real, b: real, c: real): real
    requires Sim.ExpLike(exp) && |thetas| > 0
  {
    CurveIrt(curve, exp, Min(thetas), a, b, c)
  }

  /** On the students' curve the gated probability is no higher than that of
      any single concept of the question, and equals that of a weakest one. */
  lemma WeakestSkillGates(exp: real -> real, thetas: seq<real>, a: real, b: real, c: real)
    requires Sim.ExpLike(exp) && |thetas| > 0 && a > 0.0 && c <= 1.0
    ensures forall k :: 0 <= k < |thetas| ==>
              GatedIrt(StudentCurve, exp, thetas, a, b, c) <= Sim.OneConceptIrt(exp, thetas[k], a, b, c)
    ensures exists k :: 0 <= k < |thetas| &&
              GatedIrt(StudentCurve, exp, thetas, a, b, c) == Sim.OneConceptIrt(exp, thetas[k], a, b, c)
  {
    forall k | 0 <= k < |thetas|
      ensures GatedIrt(StudentCurve, exp, thetas, a, b, c) <= Sim.OneConceptIrt(exp, thetas[k], a, b, c)
    {
      Sim.IrtIncreasingInSkill(exp, Min(thetas), thetas[k], a, b, c);
    }
    var i :| 0 <= i < |thetas| && thetas[i] == Min(thetas);
    assert GatedIrt(StudentCurve, exp, thetas, a, b, c) == Sim.OneConceptIrt(exp, thetas[i], a, b, c);
  }

  /** On this file's curve the weakest skill does not hold the student back:
      the gated probability is at least that of every single concept of the
      question, the highest of them. */
  lemma FileCurveGatesStrongest(exp: real -> real, thetas: seq<real>, a: real, b: real, c: real)
    requires Sim.ExpLike(exp) && |thetas| > 0 && a > 0.0 && c <= 1.0
    ensures forall k :: 0 <= k < |thetas| ==>
              OneConceptIrt(exp, thetas[k], a, b, c) <= GatedIrt(FileCurve, exp, thetas, a, b, c)
  {
    forall k | 0 <= k < |thetas|
      ensures OneConceptIrt(exp, thetas[k], a, b, c) <= GatedIrt(FileCurve, exp, thetas, a, b, c)
    {
      IrtDecreasingInSkill(exp, Min(thetas), thetas[k], a, b, c);
    }
  }

  /** The gated probability does not depend on the order of the skills. */
  lemma GatedIrtOrderFree(curve: Curve, exp: real -> real, s: seq<real>, t: seq<real>, a: real, b: real, c: real)
    requires Sim.ExpLike(exp) && |s| > 0 && multiset(s) == multiset(t)
    ensures |t| > 0 && GatedIrt(curve, exp, s, a, b, c) == GatedIrt(curve, exp, t, a, b, c)
  {
    MinOfPermutation(s, t);
  }

  /** The multi-concept curve as the file has it: its first statement reads
      `theta`, a name the function only binds later in its loop, so every
      call raises UnboundLocalError. */
  function NConceptIrtAsWritten(exp: real -> real, thetas: seq<real>, a: real, b: real, c: real): (r: Result<real>)
    ensures r.Err? && r.error == UnboundLocalError
  {
    Err(UnboundLocalError)
  }

  /** Even a single skill, where the intended result is the one-concept
      probability, makes the function as written fail. */
  lemma AsWrittenFailsOnOneSkill(exp: real -> real, theta: real)
    requires Sim.ExpLike(exp)
    ensures NConceptIrtAsWritten(exp, [theta], 1.0, 0.0, 0.25).Err?
    ensures GatedIrt(FileCurve, exp, [theta], 1.0, 0.0, 0.25) == OneConceptIrt(exp, theta, 1.0, 0.0, 0.25)
  {
    assert Min([theta]) == theta;
  }

  /** The multi-concept curve with the unbound name corrected to `thetas`,
      on the chosen one-concept curve: one skill goes straight to that
      curve; otherwise a scan keeps the weakest skill seen so far. No skills
      at all fails with IndexError at `thetas[0]`. With FileCurve this is the
      file's computation with only the name fixed; with StudentCurve the
      sign of the exponent is corrected as well. */
  method NConceptIrt(curve: Curve, exp: real -> real, thetas: seq<real>, a: real, b: real, c: real)
    returns (r: Result<real>)
    requires Sim.ExpLike(exp)
    ensures r.Err? <==> |thetas| == 0
    ensures r.Err? ==> r.error == IndexError
    ensures |thetas| == 1 ==> r == Ok(CurveIrt(curve, exp, thetas[0], a, b, c))
    ensures r.Ok? ==> r.value == GatedIrt(curve, exp, thetas, a, b, c)
  {
    if |thetas| == 1 {
      return Ok(CurveIrt(curve, exp, thetas[0], a, b, c));
    }
    if |thetas| == 0 {
      return Err(IndexError);
    }
    var weakest := thetas[0];
    var k := 1;
    while k < |thetas|
      invariant 1 <= k <= |thetas|
      invariant weakest in thetas[..k]
      invariant forall j :: 0 <= j < k ==> weakest <= thetas[j]
    {
      if thetas[k] < weakest {
        weakest := thetas[k];
      }
      k := k + 1;
    }
    assert thetas[..k] == thetas;
    MinUnique(thetas, weakest);
    return Ok(CurveIrt(curve, exp, weakest, a, b, c));
  }

  // ---------------------------------------------------------------------------
  // Forgetting
  // ---------------------------------------------------------------------------

  /** The forgetting models the file names. */
  datatype ForgettingStrategy =
    | ExponentialForgettingCurve
    | HalfLifeRegression
    | GeneralizedPowerLaw
    | WeinerProcess

  /** Every forgetting strategy is a placeholder that fails when called. */
  function Forget(strategy: ForgettingStrategy, x: real): (r: Result<real>)
    ensures r == Err(NotImplementedError)
  {
    Err(NotImplementedError)
  }
}
