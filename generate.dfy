/** Generation of the simulated world: concept names, the question pool and
    the profile (learning style and skills) of a new student.
    Every random draw of the simulator is a parameter here, with the range the
    random generator guarantees stated as a precondition. */
module Generate {
  import opened Exceptions
  import opened Numpy

  /** The number of VARK learning styles: visual, aural, reading/writing,
      kinesthetic. */
  const NLearningStyles: nat := 4

  // ---------------------------------------------------------------------------
  // Concept names: bijective base-26 ("spreadsheet column") numbering
  // ---------------------------------------------------------------------------

  predicate IsUpper(ch: char)
  {
    'A' <= ch <= 'Z'
  }

  /** A concept name: a non-empty word over 'A'..'Z'. */
  predicate IsName(s: string)
  {
    |s| > 0 && forall k :: 0 <= k < |s| ==> IsUpper(s[k])
  }

  /** `chr(ord("A") + d)` for a digit d below 26. */
  function Letter(d: nat): (ch: char)
    requires d < 26
    ensures IsUpper(ch) && ch as int - 'A' as int == d
  {
    (65 + d) as char
  }

  /** The name of concept n: A..Z, then AA..ZZ, then AAA.., ... */
  function Letters(n: nat): (s: string)
    ensures IsName(s)
    ensures s[|s| - 1] == Letter(n % 26)
  {
    if n < 26 then [Letter(n)]
    else Letters(n / 26 - 1) + [Letter(n % 26)]
  }

  /** The index a name stands for: the inverse of Letters. */
  function Index(s: string): (n: nat)
    requires IsName(s)
    decreases |s|
  {
    var d := s[|s| - 1] as int - 'A' as int;
    if |s| == 1 then d
    else (Index(s[..|s| - 1]) + 1) * 26 + d
  }

  /** Reading back the name of n gives n. */
  lemma {:induction false} IndexOfLetters(n: nat)
    ensures Index(Letters(n)) == n
  {
    if n >= 26 {
      var m := n / 26 - 1;
      var s := Letters(n);
      assert s == Letters(m) + [Letter(n % 26)];
      assert s[..|s| - 1] == Letters(m);
      IndexOfLetters(m);
      assert Index(s) == (m + 1) * 26 + n % 26;
    }
  }

  /** Every name is the name of its index: Letters is onto the names. */
  lemma {:induction false} LettersOfIndex(s: string)
    requires IsName(s)
    ensures Letters(Index(s)) == s
    decreases |s|
  {
    if |s| > 1 {
      var p := s[..|s| - 1];
      var d := s[|s| - 1] as int - 'A' as int;
      assert IsName(p);
      LettersOfIndex(p);
      var n := Index(s);
      assert n == (Index(p) + 1) * 26 + d;
      assert n / 26 - 1 == Index(p) && n % 26 == d;
      assert Letters(n) == Letters(Index(p)) + [Letter(d)];
      assert Letter(d) == s[|s| - 1];
      assert s == p + [s[|s| - 1]];
    }
  }

  /** Different concepts get different names. */
  lemma LettersInjective(m: nat, n: nat)
    ensures Letters(m) == Letters(n) <==> m == n
  {
    IndexOfLetters(m);
    IndexOfLetters(n);
  }

  /** One letter for the first 26 concepts, two for the next 26*26, three for
      the next 26*26*26. */
  lemma {:induction false} LettersLength(n: nat)
    ensures |Letters(n)| == 1 <==> n < 26
    ensures |Letters(n)| == 2 <==> 26 <= n < 702
    ensures |Letters(n)| == 3 <==> 702 <= n < 18278
  {
    if n >= 26 {
      var m := n / 26 - 1;
      LettersLength(m);
      if n >= 18278 {
        assert m >= 702;
      }
    }
  }

  /** The names the tests pin down. */
  lemma LettersExamples()
    ensures Letters(0) == "A" && Letters(25) == "Z" && Letters(26) == "AA"
    ensures Letters(701) == "ZZ" && Letters(702) == "AAA"
    ensures Letters(18277) == "ZZZ"
    ensures Letters(18278) == "AAAA" && Letters(18279) == "AAAB"
  {
    assert Letters(0) == "A";
    assert Letters(25) == "Z";
    assert Letters(26) == "AA";
    assert Letters(701) == "ZZ";
    assert Letters(702) == "AAA";
    assert Letters(18277) == "ZZZ";
    assert Letters(18278) == "AAAA";
    assert Letters(18279) == "AAAB";
  }

  /** Builds the forward map (index -> name) and the inverse map
      (name -> index) of the first n concepts. */
  method Concepts(n: nat) returns (names: map<nat, string>, inv: map<string, nat>)
    ensures forall k: nat :: k in names <==> k < n
    ensures forall k :: 0 <= k < n ==> names[k] == Letters(k)
    ensures forall k :: 0 <= k < n ==> names[k] in inv && inv[names[k]] == k
    ensures forall s :: s in inv ==> inv[s] < n && names[inv[s]] == s
    ensures forall s :: s in inv ==> IsName(s) && inv[s] == Index(s)
  {
    names, inv := map[], map[];
    var i := 0;
    while i < n
      invariant i <= n
      invariant forall k: nat :: k in names <==> k < i
      invariant forall k :: 0 <= k < i ==> names[k] == Letters(k)
      invariant forall k :: 0 <= k < i ==> Letters(k) in inv && inv[Letters(k)] == k
      invariant forall s :: s in inv ==> inv[s] < i && Letters(inv[s]) == s
    {
      var name := Letters(i);
      forall k | 0 <= k < i
        ensures Letters(k) != name
      {
        LettersInjective(k, i);
      }
      names := names[i := name];
      inv := inv[name := i];
      i := i + 1;
    }
    forall s | s in inv
      ensures IsName(s) && inv[s] == Index(s)
    {
      IndexOfLetters(inv[s]);
    }
  }

  // ---------------------------------------------------------------------------
  // Questions
  // ---------------------------------------------------------------------------

  /** A question: the concepts it tests, in drawing order, and its difficulty. */
  datatype Question = Question(concepts: seq<nat>, difficulty: real)

  /** The hand-made base difficulty of concepts 0..4; other concepts have none. */
  function BaseDifficulty(concept: nat): (d: real)
  {
    match concept
    case 0 => 10.0
    case 1 => 3.0
    case 2 => 0.0
    case 3 => -4.0
    case 4 => 20.0
    case _ => 0.0
  }

  /** The difficulty of a question: the base difficulty of its first concept
      plus the standard-normal draw `noise` (the noise alone for concepts
      from 5 on). */
  function QDifficulty(concepts: seq<nat>, noise: real): (d: real)
    requires |concepts| > 0
    ensures concepts[0] >= 5 ==> d == noise
    ensures -4.0 <= d - noise <= 20.0
    ensures concepts[0] == 4 <==> d - noise == 20.0
    ensures concepts[0] == 3 <==> d - noise == -4.0
  {
    if concepts[0] < 5 then BaseDifficulty(concepts[0]) + noise else noise
  }

  /** The concepts of one question as drawn: distinct indices below c. */
  predicate IsConceptSample(concepts: seq<nat>, c: nat)
  {
    (forall k :: 0 <= k < |concepts| ==> concepts[k] < c) &&
    (forall j, k :: 0 <= j < k < |concepts| ==> concepts[j] != concepts[k])
  }

  /** A well-formed question over c concepts with at most maxConcepts of them. */
  predicate IsQuestionOver(question: Question, c: nat, maxConcepts: nat)
  {
    1 <= |question.concepts| <= maxConcepts && IsConceptSample(question.concepts, c)
  }

  /** Generates q questions over c concepts.
      sizes[i] is the draw of the number of concepts minus one (below
      maxConcepts), picks[i] the draw without replacement of that many
      concepts, noise[i] the noise of the difficulty. The generator fails as
      NumPy does: with ValueError when maxConcepts is 0 or when more concepts
      are asked for than there are. `difficultyFn` is accepted and ignored:
      the difficulty always comes from QDifficulty. */
  method Questions(q: nat, c: nat, maxConcepts: nat, difficultyFn: seq<nat> -> real,
                   sizes: seq<nat>, picks: seq<seq<nat>>, noise: seq<real>)
    returns (r: Result<seq<Question>>)
    requires |sizes| == q && |picks| == q && |noise| == q
    requires forall i :: 0 <= i < q && maxConcepts > 0 ==> sizes[i] < maxConcepts
    requires forall i :: 0 <= i < q && sizes[i] < c ==>
               |picks[i]| == sizes[i] + 1 && IsConceptSample(picks[i], c)
    ensures r.Ok? <==> (q > 0 ==> maxConcepts > 0) && forall i :: 0 <= i < q ==> sizes[i] < c
    ensures r.Err? ==> r.error == ValueError
    ensures r.Ok? ==> |r.value| == q
    ensures r.Ok? ==> forall i :: 0 <= i < q ==>
              r.value[i].concepts == picks[i] &&
              r.value[i].difficulty == QDifficulty(picks[i], noise[i]) &&
              IsQuestionOver(r.value[i], c, maxConcepts)
  {
    var qs: seq<Question> := [];
    var i := 0;
    while i < q
      invariant i <= q
      invariant |qs| == i
      invariant i > 0 ==> maxConcepts > 0
      invariant forall k :: 0 <= k < i ==> sizes[k] < c
      invariant forall k :: 0 <= k < i ==>
                  qs[k].concepts == picks[k] &&
                  qs[k].difficulty == QDifficulty(picks[k], noise[k]) &&
                  IsQuestionOver(qs[k], c, maxConcepts)
    {
      if maxConcepts == 0 || sizes[i] >= c {
        return Err(ValueError);
      }
      var concepts := picks[i];
      var difficulty := QDifficulty(concepts, noise[i]);
      qs := qs + [Question(concepts, difficulty)];
      i := i + 1;
    }
    return Ok(qs);
  }

  /** Questions drawn with at most one concept each test exactly one concept. */
  lemma SingleConceptQuestions(qs: seq<Question>, c: nat)
    requires forall i :: 0 <= i < |qs| ==> IsQuestionOver(qs[i], c, 1)
    ensures forall i :: 0 <= i < |qs| ==> |qs[i].concepts| == 1 && qs[i].concepts[0] < c
  {
  }

  // ---------------------------------------------------------------------------
  // Learner profile
  // ---------------------------------------------------------------------------

  /** The one-hot learning style with weight 1.0 on style k. */
  function StyleVector(k: nat): (ls: seq<real>)
    requires k < NLearningStyles
  {
    seq(NLearningStyles, j => if j == k then 1.0 else 0.0)
  }

  /** A one-hot style: length 4, non-negative, weight 1.0 exactly at k and
      0.0 elsewhere, summing to 1. */
  lemma StyleVectorIsOneHot(k: nat)
    requires k < NLearningStyles
    ensures |StyleVector(k)| == NLearningStyles
    ensures forall j :: 0 <= j < NLearningStyles ==>
              (StyleVector(k)[j] == 1.0 <==> j == k) &&
              (StyleVector(k)[j] == 0.0 <==> j != k)
    ensures Sum(StyleVector(k)) == 1.0
  {
    var ls := StyleVector(k);
    assert ls == [ls[0], ls[1], ls[2], ls[3]];
    assert ls[1..] == [ls[1], ls[2], ls[3]];
    assert ls[2..] == [ls[2], ls[3]];
    assert ls[3..] == [ls[3]];
    assert Sum(ls[3..]) == ls[3];
    assert Sum(ls[2..]) == ls[2] + ls[3];
    assert Sum(ls[1..]) == ls[1] + ls[2] + ls[3];
  }

  /** Draws the learning style of a student: style `choice` gets weight 1.0
      in an otherwise zero vector of length 4. */
  method LearnerStyle(choice: nat) returns (ls: array<real>)
    requires choice < NLearningStyles
    ensures fresh(ls)
    ensures ls[..] == StyleVector(choice)
  {
    ls := new real[NLearningStyles](_ => 0.0);
    ls[choice] := 1.0;
  }

  /** Fills a vector of c skills, the i-th being `specificSkill(avgSkill, i)`. */
  method LearnerSkills(c: nat, avgSkill: real, specificSkill: (real, nat) -> real)
    returns (skills: array<real>)
    ensures fresh(skills)
    ensures skills.Length == c
    ensures forall i :: 0 <= i < c ==> skills[i] == specificSkill(avgSkill, i)
  {
    skills := new real[c](_ => 0.0);
    for i := 0 to c
      invariant forall k :: 0 <= k < i ==> skills[k] == specificSkill(avgSkill, k)
    {
      skills[i] := specificSkill(avgSkill, i);
    }
  }
}
