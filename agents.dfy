/** The teaching agents. An action encodes a concept and a learning style as
    concept * 4 + style. Two baselines choose without learning (uniformly at
    random, or the student's weakest concept in their dominant style); the
    multi-armed bandits keep one value estimate per action, updated in place
    from the reward of the previous action. */
module Agents {
  import opened Exceptions
  import opened Numpy
  import opened Generate

  // ---------------------------------------------------------------------------
  // Action encoding
  // ---------------------------------------------------------------------------

  /** The action that teaches `concept` in learning style `style`. */
  function Encode(concept: nat, style: nat): (a: nat)
    ensures style < NLearningStyles ==> a / NLearningStyles == concept && a % NLearningStyles == style
  {
    concept * NLearningStyles + style
  }

  /** An encoded pair lies in the action space, and integer division and
      remainder by 4 recover it. */
  lemma EncodeDecode(nConcepts: nat, concept: nat, style: nat)
    requires concept < nConcepts && style < NLearningStyles
    ensures Encode(concept, style) < NLearningStyles * nConcepts
    ensures Encode(concept, style) / NLearningStyles == concept
    ensures Encode(concept, style) % NLearningStyles == style
  {
    var a := Encode(concept, style);
    assert a == 4 * concept + style;
    assert concept + 1 <= nConcepts;
    assert 4 * (concept + 1) <= 4 * nConcepts;
  }

  /** Every action of the action space is the encoding of a concept below
      nConcepts and a style below 4. */
  lemma DecodeEncode(nConcepts: nat, action: nat)
    requires action < NLearningStyles * nConcepts
    ensures action / NLearningStyles < nConcepts
    ensures action % NLearningStyles < NLearningStyles
    ensures Encode(action / NLearningStyles, action % NLearningStyles) == action
  {
    var c := action / 4;
    assert action == 4 * c + action % 4;
  }

  // ---------------------------------------------------------------------------
  // Baselines
  // ---------------------------------------------------------------------------

  /** Picks the drawn concept and the drawn style, wrapped in a one-element
      list as the environment expects. With no concepts to draw from,
      `np.random.choice(0)` raises ValueError. */
  function RandomAgent(nConcepts: nat, conceptDraw: nat, styleDraw: nat): (r: Result<seq<nat>>)
    requires nConcepts > 0 ==> conceptDraw < nConcepts
    requires styleDraw < NLearningStyles
    ensures r.Err? <==> nConcepts == 0
    ensures r.Err? ==> r.error == ValueError
    ensures r.Ok? ==> |r.value| == 1 && r.value[0] < NLearningStyles * nConcepts
    ensures r.Ok? ==> r.value[0] / NLearningStyles == conceptDraw && r.value[0] % NLearningStyles == styleDraw
  {
    if nConcepts == 0 then Err(ValueError)
    else
      EncodeDecode(nConcepts, conceptDraw, styleDraw);
      Ok([Encode(conceptDraw, styleDraw)])
  }

  /** Teaches the first concept of lowest skill in the first style of
      highest weight. An empty skill vector makes `np.argmin` fail. */
  function WeakestSkillAgent(skills: seq<real>, learnerStyle: seq<real>): (r: Result<seq<nat>>)
    requires |learnerStyle| == NLearningStyles
    ensures r.Err? <==> |skills| == 0
    ensures r.Err? ==> r.error == ValueError
    ensures r.Ok? ==> |r.value| == 1 && r.value[0] < NLearningStyles * |skills|
    ensures r.Ok? ==>
              var concept := r.value[0] / NLearningStyles;
              concept < |skills| &&
              (forall j :: 0 <= j < |skills| ==> skills[concept] <= skills[j]) &&
              (forall j :: 0 <= j < concept ==> skills[concept] < skills[j])
    ensures r.Ok? ==>
              var style := r.value[0] % NLearningStyles;
              (forall j :: 0 <= j < NLearningStyles ==> learnerStyle[j] <= learnerStyle[style]) &&
              (forall j :: 0 <= j < style ==> learnerStyle[j] < learnerStyle[style])
  {
    if |skills| == 0 then Err(ValueError)
    else
      var concept := ArgMin(skills);
      var style := ArgMax(learnerStyle);
      EncodeDecode(|skills|, concept, style);
      Ok([Encode(concept, style)])
  }

  // ---------------------------------------------------------------------------
  // Multi-armed bandits
  // ---------------------------------------------------------------------------

  /** The slot a call updates: the previous action, or action 0 when the
      environment reports question index 0 (a new student begins). */
  function SlotToUpdate(questionIdx: int, prevAction: nat): (slot: nat)
    ensures slot == 0 <==> questionIdx == 0 || prevAction == 0
    ensures slot != 0 ==> slot == prevAction
  {
    if questionIdx == 0 then 0 else prevAction
  }

  /** The estimates after moving slot pa a 1/n step towards reward. */
  function Updated(q: seq<real>, pa: nat, reward: real, n: int): (r: seq<real>)
    requires pa < |q| && n >= 1
    ensures |r| == |q|
    ensures r[pa] == q[pa] + (reward - q[pa]) / n as real
    ensures forall j :: 0 <= j < |q| && j != pa ==> r[j] == q[j]
  {
    q[pa := q[pa] + (reward - q[pa]) / n as real]
  }

  /** The average of a list of rewards (0 for none). */
  function Mean(rs: seq<real>): real
  {
    if rs == [] then 0.0 else Sum(rs) / |rs| as real
  }

  /** One more reward moves the mean 1/(k+1) of the way towards it. */
  lemma MeanAppend(rs: seq<real>, reward: real)
    ensures Mean(rs + [reward]) == Mean(rs) + (reward - Mean(rs)) / (|rs| + 1) as real
  {
    SumAppend(rs, reward);
    var k := |rs| as real;
    var s := Sum(rs);
    if rs != [] {
      var m := s / k;
      assert s == m * k;
      calc {
        Mean(rs) + (reward - Mean(rs)) / (k + 1.0);
        m + (reward - m) / (k + 1.0);
        (m * (k + 1.0) + reward - m) / (k + 1.0);
        (m * k + reward) / (k + 1.0);
        (s + reward) / (k + 1.0);
        Mean(rs + [reward]);
      }
    }
  }

  /** When the step count equals the number of rewards seen for slot pa,
      the update keeps q[pa] the sample mean of those rewards. */
  lemma UpdateKeepsSampleMean(q: seq<real>, pa: nat, rs: seq<real>, reward: real, n: int)
    requires pa < |q| && q[pa] == Mean(rs) && n == |rs| + 1
    ensures Updated(q, pa, reward, n)[pa] == Mean(rs + [reward])
  {
    MeanAppend(rs, reward);
  }

  /** The two bandit agents of the simulator: epsilon-greedy, and the variant
      that explores by sampling actions in proportion to their estimates. */
  datatype Variant = Greedy | SampleProb

  class MultiArmBandit {
    /** Which of the two agents this is; each step method serves one. */
    ghost const variant: Variant
    const nConcepts: nat
    /** Exploration probability as a function of the step count. */
    const eps: int -> real
    /** Estimated expected reward of each action, updated in place. */
    const q: array<real>
    /** Step count shared by all actions. */
    var n: int
    var prevAction: nat

    ghost predicate Valid()
      reads this
    {
      q.Length == NLearningStyles * nConcepts &&
      n >= 1 &&
      (prevAction == 0 || prevAction < q.Length)
    }

    /** A fresh agent of the given variant: count 1, all estimates 0,
        previous action 0. */
    constructor (nConcepts: nat, eps: int -> real, ghost variant: Variant)
      ensures Valid() && fresh(q) && this.variant == variant
      ensures this.nConcepts == nConcepts && this.eps == eps
      ensures n == 1 && prevAction == 0
      ensures q[..] == seq(NLearningStyles * nConcepts, _ => 0.0)
    {
      this.variant := variant;
      this.nConcepts := nConcepts;
      this.eps := eps;
      n := 1;
      q := new real[NLearningStyles * nConcepts](_ => 0.0);
      prevAction := 0;
    }

    /** Epsilon-greedy step: learns `reward` for the previous action (action
        0 at the start of a student), then during warm-up
        (n < 5 * |q|) takes the random draw, otherwise the first best
        estimate when u > eps(n) and the random draw when not. The count n
        is never increased, so a fresh agent stays at n == 1: every update
        overwrites the estimate with the reward, and warm-up never ends. */
    method EpsilonGreedy(questionIdx: int, reward: real, draw: nat, u: real)
      returns (action: seq<nat>)
      requires Valid() && variant == Greedy && q.Length > 0 && draw < q.Length
      modifies this`prevAction, q
      ensures Valid() && n == old(n)
      ensures q[..] == Updated(old(q[..]), SlotToUpdate(questionIdx, old(prevAction)), reward, n)
      ensures n == 1 ==> q[SlotToUpdate(questionIdx, old(prevAction))] == reward
      ensures action == [prevAction] && prevAction < q.Length
      ensures n < 5 * q.Length ==> prevAction == draw
      ensures n >= 5 * q.Length && u > eps(n) ==> prevAction == ArgMax(q[..])
      ensures n >= 5 * q.Length && u <= eps(n) ==> prevAction == draw
    {
      if questionIdx == 0 {
        prevAction := 0;
      }
      var pa := prevAction;
      ghost var before := q[..];
      q[pa] := q[pa] + (reward - q[pa]) / n as real;
      assert q[..] == Updated(before, pa, reward, n);
      var a: nat;
      if n < 5 * q.Length {
        a := draw;
      } else if u > eps(n) {
        a := ArgMax(q[..]);
      } else {
        a := draw;
      }
      prevAction := a;
      action := [a];
    }

    /** The sampling variant: as EpsilonGreedy, except that exploration
        after warm-up takes action 0 while the estimates sum to 0 and the
        draw `sample` (made with probabilities proportional to q) otherwise,
        and that every call increases n by exactly 1. */
    method EpsilonSampleProb(questionIdx: int, reward: real, draw: nat, u: real, sample: nat)
      returns (action: seq<nat>)
      requires Valid() && variant == SampleProb && q.Length > 0 && draw < q.Length && sample < q.Length
      modifies this`prevAction, this`n, q
      ensures Valid() && n == old(n) + 1
      ensures q[..] == Updated(old(q[..]), SlotToUpdate(questionIdx, old(prevAction)), reward, old(n))
      ensures action == [prevAction] && prevAction < q.Length
      ensures old(n) < 5 * q.Length ==> prevAction == draw
      ensures old(n) >= 5 * q.Length && u > eps(old(n)) ==> prevAction == ArgMax(q[..])
      ensures old(n) >= 5 * q.Length && u <= eps(old(n)) ==>
                prevAction == if Sum(q[..]) == 0.0 then 0 else sample
    {
      if questionIdx == 0 {
        prevAction := 0;
      }
      var pa := prevAction;
      ghost var before := q[..];
      q[pa] := q[pa] + (reward - q[pa]) / n as real;
      assert q[..] == Updated(before, pa, reward, n);
      var a: nat;
      if n < 5 * q.Length {
        a := draw;
      } else if u > eps(n) {
        a := ArgMax(q[..]);
      } else if Sum(q[..]) == 0.0 {
        a := 0;
      } else {
        a := sample;
      }
      prevAction := a;
      n := n + 1;
      action := [a];
    }
  }
}
