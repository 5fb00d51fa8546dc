/** The simulated student: the three-parameter logistic IRT curve that gives
    the probability of a correct answer, and a Student whose skill vector is
    raised in place by teaching examples and who answers single-concept
    questions. The exponential function is a parameter `exp` of which only
    positivity and strict monotonicity are assumed (ExpLike). */
module StudentSimulator {
  import opened Exceptions
  import opened Generate
  import opened Numpy

  /** What the model assumes of the exponential function. */
  ghost predicate ExpLike(exp: real -> real)
  {
    (forall x :: exp(x) > 0.0) &&
    (forall x, y :: x < y ==> exp(x) < exp(y))
  }

  /** `avg_skill + randn()`: the skill on one concept of a student whose
      average skill is avgSkill, given the standard-normal draw. */
  function SpecificSkill(avgSkill: real, draw: real): (skill: real)
    ensures skill > avgSkill <==> draw > 0.0
    ensures skill < avgSkill <==> draw < 0.0
  {
    draw + avgSkill
  }

  /** The skills of a student sum to nConcepts times the average skill plus
      the sum of the draws: avgSkill is their mean exactly when the draws
      cancel out. */
  lemma {:induction false} SkillsAroundAverage(avgSkill: real, draws: seq<real>)
    ensures Sum(seq(|draws|, i requires 0 <= i < |draws| => SpecificSkill(avgSkill, draws[i])))
            == |draws| as real * avgSkill + Sum(draws)
  {
    var skills := seq(|draws|, i requires 0 <= i < |draws| => SpecificSkill(avgSkill, draws[i]));
    if draws != [] {
      var rest := seq(|draws| - 1, i requires 0 <= i < |draws| - 1 => SpecificSkill(avgSkill, draws[1..][i]));
      assert skills[1..] == rest;
      SkillsAroundAverage(avgSkill, draws[1..]);
    }
  }

  /** Item Response Theory for one concept: the probability that a student of
      skill theta answers a question of difficulty b correctly, with slope a
      and guessing probability c: c + (1 - c) / (1 + exp(a * (b - theta))). */
  function OneConceptIrt(exp: real -> real, theta: real, a: real, b: real, c: real): (p: real)
    requires ExpLike(exp)
    ensures c < 1.0 ==> c < p < 1.0
  {
    var e := exp(a * (b - theta));
    assert 1.0 + e > 1.0;
    assert c < 1.0 ==> 0.0 < (1.0 - c) / (1.0 + e) < 1.0 - c by {
      if c < 1.0 {
        DivBelow(1.0 - c, 1.0 + e);
      }
    }
    c + (1.0 - c) / (1.0 + e)
  }

  /** Dividing a positive number by something above 1 makes it smaller but
      keeps it positive. */
  lemma DivBelow(x: real, y: real)
    requires x > 0.0 && y > 1.0
    ensures 0.0 < x / y < x
  {
    assert x / y * y == x;
  }

  /** A larger exponent term gives a smaller probability. */
  lemma IrtOfTerm(e1: real, e2: real, c: real)
    requires 0.0 < e1 <= e2 && c <= 1.0
    ensures c + (1.0 - c) / (1.0 + e2) <= c + (1.0 - c) / (1.0 + e1)
    ensures e1 < e2 && c < 1.0 ==> c + (1.0 - c) / (1.0 + e2) < c + (1.0 - c) / (1.0 + e1)
  {
    var d1, d2 := 1.0 + e1, 1.0 + e2;
    assert (1.0 - c) / d1 - (1.0 - c) / d2 == (1.0 - c) * (d2 - d1) / (d1 * d2);
    assert d1 * d2 > 0.0;
  }

  /** The probability grows with the skill: weakly always, strictly when the
      slope is positive and guessing is not certain. */
  lemma IrtIncreasingInSkill(exp: real -> real, theta1: real, theta2: real, a: real, b: real, c: real)
    requires ExpLike(exp) && a > 0.0 && c <= 1.0 && theta1 <= theta2
    ensures OneConceptIrt(exp, theta1, a, b, c) <= OneConceptIrt(exp, theta2, a, b, c)
    ensures theta1 < theta2 && c < 1.0 ==>
              OneConceptIrt(exp, theta1, a, b, c) < OneConceptIrt(exp, theta2, a, b, c)
  {
    var x1, x2 := a * (b - theta1), a * (b - theta2);
    assert x1 - x2 == a * (theta2 - theta1);
    assert x2 <= x1;
    assert theta1 < theta2 ==> x2 < x1;
    assert exp(x2) <= exp(x1);
    IrtOfTerm(exp(x2), exp(x1), c);
  }

  /** The probability falls as the difficulty rises. */
  lemma IrtDecreasingInDifficulty(exp: real -> real, theta: real, a: real, b1: real, b2: real, c: real)
    requires ExpLike(exp) && a > 0.0 && c <= 1.0 && b1 <= b2
    ensures OneConceptIrt(exp, theta, a, b2, c) <= OneConceptIrt(exp, theta, a, b1, c)
    ensures b1 < b2 && c < 1.0 ==>
              OneConceptIrt(exp, theta, a, b2, c) < OneConceptIrt(exp, theta, a, b1, c)
  {
    var x1, x2 := a * (b1 - theta), a * (b2 - theta);
    assert x2 - x1 == a * (b2 - b1);
    assert x1 <= x2;
    assert b1 < b2 ==> x1 < x2;
    assert exp(x1) <= exp(x2);
    IrtOfTerm(exp(x1), exp(x2), c);
  }

  /** The outcome of answering a question: correct or not, and the
      probability of a correct answer the outcome was drawn from. */
  datatype Answer = Answer(correct: bool, p: real)

  /** The slope and guessing probability every question is answered with. */
  const DefaultSlope: real := 1.0
  const DefaultGuess: real := 0.25

  /** How much one example raises a skill, before weighting by style. */
  const DefaultDeltaScale: real := 0.2

  class Student {
    /** One-hot VARK preference; never written after creation. */
    const learnerStyle: seq<real>
    const avgSkill: real
    const nConcepts: nat
    /** Skill per concept; raised in place by Example. */
    const skills: array<real>
    /** The style learnerStyle puts its weight on. */
    ghost const dominant: nat

    ghost predicate Valid()
    {
      dominant < NLearningStyles &&
      learnerStyle == StyleVector(dominant) &&
      skills.Length == nConcepts
    }

    /** A new student: learning style `styleChoice`, average skill avgSkill
        (what `avg_skill_fn` returned) and, on concept i, skill
        avgSkill + skillNoise[i]. */
    constructor (nConcepts: nat, styleChoice: nat, avgSkill: real, skillNoise: seq<real>)
      requires styleChoice < NLearningStyles && |skillNoise| == nConcepts
      ensures Valid() && fresh(skills)
      ensures learnerStyle == StyleVector(styleChoice) && dominant == styleChoice
      ensures this.avgSkill == avgSkill && this.nConcepts == nConcepts
      ensures forall i :: 0 <= i < nConcepts ==> skills[i] == skillNoise[i] + avgSkill
    {
      var ls := LearnerStyle(styleChoice);
      var fill := (avg: real, i: nat) => SpecificSkill(avg, if i < |skillNoise| then skillNoise[i] else 0.0);
      var sk := LearnerSkills(nConcepts, avgSkill, fill);
      forall i | 0 <= i < nConcepts
        ensures sk[i] == skillNoise[i] + avgSkill
      {
        assert sk[i] == fill(avgSkill, i);
        assert fill(avgSkill, i) == SpecificSkill(avgSkill, skillNoise[i]);
      }
      learnerStyle := ls[..];
      dominant := styleChoice;
      this.avgSkill := avgSkill;
      this.nConcepts := nConcepts;
      skills := sk;
    }

    /** A deep copy of `other`: same profile, skills in a new array. */
    constructor Copy(other: Student)
      requires other.Valid()
      ensures Valid() && fresh(skills)
      ensures learnerStyle == other.learnerStyle && dominant == other.dominant
      ensures avgSkill == other.avgSkill && nConcepts == other.nConcepts
      ensures skills[..] == other.skills[..]
    {
      var sk := new real[other.skills.Length](_ => 0.0);
      forall k | 0 <= k < sk.Length {
        sk[k] := other.skills[k];
      }
      learnerStyle := other.learnerStyle;
      dominant := other.dominant;
      avgSkill := other.avgSkill;
      nConcepts := other.nConcepts;
      skills := sk;
    }

    /** Answers `question` given the uniform draw u: only single-concept
        questions are accepted (ValueError otherwise); the probability comes
        from OneConceptIrt on the skill of that concept, with slope 1 and
        guessing 0.25 whatever `a` and `c` are passed; the answer is correct
        when u falls below it. The skills are left as they are. */
    method Question(question: Question, u: real, exp: real -> real, a: real, c: real)
      returns (r: Result<Answer>)
      requires Valid() && ExpLike(exp)
      requires |question.concepts| == 1 ==> question.concepts[0] < nConcepts
      ensures r.Err? <==> |question.concepts| != 1
      ensures r.Err? ==> r.error == ValueError
      ensures r.Ok? ==>
                r.value.p == OneConceptIrt(exp, skills[question.concepts[0]], DefaultSlope,
                                           question.difficulty, DefaultGuess) &&
                DefaultGuess < r.value.p < 1.0 &&
                (r.value.correct <==> u < r.value.p)
    {
      if |question.concepts| != 1 {
        return Err(ValueError);
      }
      var skill := skills[question.concepts[0]];
      var p := OneConceptIrt(exp, skill, DefaultSlope, question.difficulty, DefaultGuess);
      return Ok(Answer(u < p, p));
    }

    /** Shows an example of `concept` in style `style`: that concept's skill
        grows by deltaScale times the student's weight on the style, which is
        deltaScale for the dominant style and 0 for any other; nothing else
        changes. */
    method Example(concept: nat, style: nat, deltaScale: real)
      requires Valid() && concept < nConcepts && style < NLearningStyles
      modifies skills
      ensures skills[..] == old(skills[..])[concept := old(skills[concept]) + deltaScale * learnerStyle[style]]
      ensures skills[concept] == old(skills[concept]) + (if style == dominant then deltaScale else 0.0)
    {
      skills[concept] := skills[concept] + deltaScale * learnerStyle[style];
    }
  }
}
