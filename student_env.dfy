/** The teaching environment: it walks through the students one after the
    other, posing each of them every question in turn. A step shows the
    current student the example the action encodes, asks the current
    question and rewards a correct answer with 1. Counters i (steps), q
    (question) and s (student) advance together so that q == i % nQuestions
    and s == (i / nQuestions) % nStudents. The students are deep copies of
    an initial population, which a reset copies again. */
module StudentEnvironment {
  import opened Exceptions
  import opened Generate
  import opened StudentSimulator

  // ---------------------------------------------------------------------------
  // Counter arithmetic
  // ---------------------------------------------------------------------------

  /** Quotient and remainder are determined by x == n * d + m, 0 <= m < n. */
  lemma DivModUnique(x: nat, n: nat, d: nat, m: nat)
    requires 0 <= m < n && x == n * d + m
    ensures x / n == d && x % n == m
  {
    var d', m' := x / n, x % n;
    assert x == n * d' + m';
    assert d' > d ==> n * d' >= n * (d + 1);
    assert d' < d ==> n * d >= n * (d' + 1);
  }

  /** One more step: the question index moves on by one modulo nQuestions,
      and the student index moves on by one modulo nStudents exactly when
      the new step count is a multiple of nQuestions. */
  lemma AdvanceCounters(i: nat, nQuestions: nat, nStudents: nat)
    requires nQuestions > 0 && nStudents > 0
    ensures (QuestionAt(i, nQuestions) + 1) % nQuestions == QuestionAt(i + 1, nQuestions)
    ensures (if (i + 1) % nQuestions == 0
             then (StudentAt(i, nStudents, nQuestions) + 1) % nStudents
             else StudentAt(i, nStudents, nQuestions))
            == StudentAt(i + 1, nStudents, nQuestions)
  {
    var d, m := i / nQuestions, i % nQuestions;
    assert i == nQuestions * d + m;
    var e, f := d / nStudents, d % nStudents;
    assert d == nStudents * e + f;
    if m + 1 < nQuestions {
      DivModUnique(i + 1, nQuestions, d, m + 1);
      DivModUnique(m + 1, nQuestions, 0, m + 1);
    } else {
      DivModUnique(i + 1, nQuestions, d + 1, 0);
      DivModUnique(m + 1, nQuestions, 1, 0);
      if f + 1 < nStudents {
        DivModUnique(d + 1, nStudents, e, f + 1);
        DivModUnique(f + 1, nStudents, 0, f + 1);
      } else {
        DivModUnique(d + 1, nStudents, e + 1, 0);
        DivModUnique(f + 1, nStudents, 1, 0);
      }
    }
  }

  // ---------------------------------------------------------------------------
  // End of an episode
  // ---------------------------------------------------------------------------

  /** The student asked at step k (counting from 0). */
  function StudentAt(k: nat, nStudents: nat, nQuestions: nat): nat
    requires nStudents > 0 && nQuestions > 0
  {
    (k / nQuestions) % nStudents
  }

  /** The question asked at step k (counting from 0). */
  function QuestionAt(k: nat, nQuestions: nat): nat
    requires nQuestions > 0
  {
    k % nQuestions
  }

  /** Step 0 asks the first student the first question. */
  lemma CountersStart(nStudents: nat, nQuestions: nat)
    requires nStudents > 0 && nQuestions > 0
    ensures StudentAt(0, nStudents, nQuestions) == 0 && QuestionAt(0, nQuestions) == 0
  {
    DivModUnique(0, nQuestions, 0, 0);
    DivModUnique(0, nStudents, 0, 0);
  }

  /** Among the first i steps, student st has been asked question qu. */
  predicate PairShown(i: nat, nStudents: nat, nQuestions: nat, st: nat, qu: nat)
    requires nStudents > 0 && nQuestions > 0
  {
    exists k :: 0 <= k < i && StudentAt(k, nStudents, nQuestions) == st && QuestionAt(k, nQuestions) == qu
  }

  /** The episode end as the step computes it, after i steps: one step
      before the budget is spent. */
  function DoneAsWritten(i: nat, maxSteps: int): bool
  {
    i >= maxSteps - 1
  }

  /** Within the first round of nStudents * nQuestions steps, step k asks
      student k / nQuestions question k % nQuestions, and no two steps ask
      the same pair. */
  lemma StepsAskDistinctPairs(j: nat, k: nat, nStudents: nat, nQuestions: nat)
    requires nStudents > 0 && nQuestions > 0 && j < k < nStudents * nQuestions
    ensures StudentAt(k, nStudents, nQuestions) == k / nQuestions
    ensures StudentAt(j, nStudents, nQuestions) != StudentAt(k, nStudents, nQuestions) ||
            QuestionAt(j, nQuestions) != QuestionAt(k, nQuestions)
  {
    var dj, dk := j / nQuestions, k / nQuestions;
    assert j == nQuestions * dj + j % nQuestions;
    assert k == nQuestions * dk + k % nQuestions;
    assert dk < nStudents by {
      assert dk >= nStudents ==> nQuestions * dk >= nQuestions * nStudents;
    }
    assert dj <= dk by {
      assert dj > dk ==> nQuestions * dj >= nQuestions * (dk + 1);
    }
    DivModUnique(dk, nStudents, 0, dk);
    DivModUnique(dj, nStudents, 0, dj);
  }

  /** The step that first reports done leaves a pair unasked: after
      maxSteps - 1 steps the as-written test already holds (and held after
      no earlier step), yet the last student has not been asked the last
      question. */
  lemma DoneOneStepEarly(nStudents: nat, nQuestions: nat)
    requires nStudents > 0 && nQuestions > 0
    ensures DoneAsWritten(nStudents * nQuestions - 1, nStudents * nQuestions)
    ensures forall i: nat :: i < nStudents * nQuestions - 1 ==>
              !DoneAsWritten(i, nStudents * nQuestions)
    ensures !PairShown(nStudents * nQuestions - 1, nStudents, nQuestions, nStudents - 1, nQuestions - 1)
  {
    var last := nStudents * nQuestions - 1;
    assert last == nQuestions * (nStudents - 1) + (nQuestions - 1);
    DivModUnique(last, nQuestions, nStudents - 1, nQuestions - 1);
    DivModUnique(nStudents - 1, nStudents, 0, nStudents - 1);
    if PairShown(last, nStudents, nQuestions, nStudents - 1, nQuestions - 1) {
      var k :| 0 <= k < last && StudentAt(k, nStudents, nQuestions) == nStudents - 1 &&
               QuestionAt(k, nQuestions) == nQuestions - 1;
      StepsAskDistinctPairs(k, last, nStudents, nQuestions);
      assert false;
    }
  }

  /** Once the budget is spent, student st has been asked question qu. */
  lemma PairShownAfterBudget(i: nat, nStudents: nat, nQuestions: nat, st: nat, qu: nat)
    requires nStudents > 0 && nQuestions > 0 && i >= nStudents * nQuestions
    requires st < nStudents && qu < nQuestions
    ensures PairShown(i, nStudents, nQuestions, st, qu)
  {
    var k := nQuestions * st + qu;
    assert k < nStudents * nQuestions by {
      assert nQuestions * st <= nQuestions * (nStudents - 1);
    }
    DivModUnique(k, nQuestions, st, qu);
    DivModUnique(st, nStudents, 0, st);
    assert StudentAt(k, nStudents, nQuestions) == st && QuestionAt(k, nQuestions) == qu;
  }

  /** Before the budget is spent, the pair step i is about to ask has not
      been asked yet. */
  lemma PairUnshownBeforeBudget(i: nat, nStudents: nat, nQuestions: nat)
    requires nStudents > 0 && nQuestions > 0 && i < nStudents * nQuestions
    ensures StudentAt(i, nStudents, nQuestions) < nStudents && QuestionAt(i, nQuestions) < nQuestions
    ensures !PairShown(i, nStudents, nQuestions, StudentAt(i, nStudents, nQuestions), QuestionAt(i, nQuestions))
  {
    var st, qu := StudentAt(i, nStudents, nQuestions), QuestionAt(i, nQuestions);
    if PairShown(i, nStudents, nQuestions, st, qu) {
      var k :| 0 <= k < i && StudentAt(k, nStudents, nQuestions) == st &&
               QuestionAt(k, nQuestions) == qu;
      StepsAskDistinctPairs(k, i, nStudents, nQuestions);
      assert false;
    }
  }

  /** The episode end as intended: after i steps, it holds exactly when
      every student has been asked every question. */
  function Done(i: nat, nStudents: nat, nQuestions: nat): (done: bool)
    requires nStudents > 0 && nQuestions > 0
    ensures done <==>
              forall st, qu :: 0 <= st < nStudents && 0 <= qu < nQuestions ==>
                PairShown(i, nStudents, nQuestions, st, qu)
  {
    assert i >= nStudents * nQuestions ==>
             forall st, qu :: 0 <= st < nStudents && 0 <= qu < nQuestions ==>
               PairShown(i, nStudents, nQuestions, st, qu) by {
      if i >= nStudents * nQuestions {
        forall st, qu | 0 <= st < nStudents && 0 <= qu < nQuestions
          ensures PairShown(i, nStudents, nQuestions, st, qu)
        {
          PairShownAfterBudget(i, nStudents, nQuestions, st, qu);
        }
      }
    }
    assert i < nStudents * nQuestions ==>
             !PairShown(i, nStudents, nQuestions, StudentAt(i, nStudents, nQuestions), QuestionAt(i, nQuestions)) by {
      if i < nStudents * nQuestions {
        PairUnshownBeforeBudget(i, nStudents, nQuestions);
      }
    }
    i >= nStudents * nQuestions
  }

  // ---------------------------------------------------------------------------
  // Helpers of the environment
  // ---------------------------------------------------------------------------

  /** `one_hot(n, shape)`: a new integer vector of length shape holding a
      single 1, at index n (IndexError when n is past the end). */
  method OneHot(n: nat, shape: nat) returns (r: Result<array<int>>)
    ensures r.Err? <==> n >= shape
    ensures r.Err? ==> r.error == IndexError
    ensures r.Ok? ==> fresh(r.value) && r.value.Length == shape
    ensures r.Ok? ==> forall k :: 0 <= k < shape ==> (r.value[k] == 1 <==> k == n)
    ensures r.Ok? ==> forall k :: 0 <= k < shape ==> (r.value[k] == 0 <==> k != n)
  {
    var x := new int[shape](_ => 0);
    if n >= shape {
      return Err(IndexError);
    }
    x[n] := 1;
    return Ok(x);
  }

  /** What an agent hands to `step`: a bare action, or a list whose first
      element is the action. */
  datatype ActionArg = Scalar(action: nat) | Wrapped(actions: seq<nat>)

  /** The action inside an ActionArg; an empty list fails with IndexError. */
  function Unwrap(arg: ActionArg): (r: Result<nat>)
    ensures r.Err? <==> arg.Wrapped? && arg.actions == []
    ensures r.Err? ==> r.error == IndexError
    ensures r.Ok? && arg.Scalar? ==> r.value == arg.action
    ensures r.Ok? && arg.Wrapped? ==> r.value == arg.actions[0]
  {
    match arg
    case Scalar(a) => Ok(a)
    case Wrapped(xs) => if xs == [] then Err(IndexError) else Ok(xs[0])
  }

  /** Every student is well formed and knows nConcepts concepts. */
  ghost predicate StudentsFit(students: seq<Student>, nConcepts: nat)
  {
    forall k :: 0 <= k < |students| ==> students[k].Valid() && students[k].nConcepts == nConcepts
  }

  /** No two of `students` share a skill array, and none shares one with a
      student of `others`. */
  ghost predicate SeparateSkills(students: seq<Student>, others: seq<Student>)
  {
    (forall j, k :: 0 <= j < k < |students| ==> students[j].skills != students[k].skills) &&
    (forall j, k :: 0 <= j < |students| && 0 <= k < |others| ==> students[j].skills != others[k].skills)
  }

  /** b is a deep copy of a: same profile and equal skills. */
  ghost predicate IsCopyOf(b: Student, a: Student)
    reads a.skills, b.skills
  {
    b.Valid() && a.Valid() &&
    b.learnerStyle == a.learnerStyle && b.dominant == a.dominant &&
    b.avgSkill == a.avgSkill && b.nConcepts == a.nConcepts &&
    b.skills[..] == a.skills[..]
  }

  /** `deepcopy` of a list of students: new students with new skill arrays. */
  method CopyStudents(src: seq<Student>) returns (dst: seq<Student>)
    requires forall k :: 0 <= k < |src| ==> src[k].Valid()
    ensures |dst| == |src|
    ensures forall k :: 0 <= k < |dst| ==> fresh(dst[k].skills) && IsCopyOf(dst[k], src[k])
    ensures forall j, k :: 0 <= j < k < |dst| ==> dst[j].skills != dst[k].skills
    ensures forall k :: 0 <= k < |dst| ==> dst[k].Valid() && dst[k].nConcepts == src[k].nConcepts
    ensures SeparateSkills(dst, src)
  {
    dst := [];
    for k := 0 to |src|
      invariant |dst| == k
      invariant forall j :: 0 <= j < k ==> fresh(dst[j].skills) && IsCopyOf(dst[j], src[j])
      invariant forall j, l :: 0 <= j < l < k ==> dst[j].skills != dst[l].skills
    {
      var copy := new Student.Copy(src[k]);
      dst := dst + [copy];
    }
  }

  /** What a step reports besides the state: the new student and question
      indices, and the skill array (the live array, not a snapshot) and
      learning style of the student who was just taught. */
  datatype Info = Info(studentIdx: nat, questionIdx: nat,
                       studentSkills: array<real>, studentLearnerStyle: seq<real>)

  /** The result of a step: state [s, q], reward, done flag and info. */
  datatype StepOutput = StepOutput(state: seq<nat>, reward: int, done: bool, info: Info)

  // ---------------------------------------------------------------------------
  // The environment
  // ---------------------------------------------------------------------------

  class StudentEnv {
    const nStudents: nat
    const nConcepts: nat
    const nQuestions: nat
    const maxSteps: int
    /** The initial population, copied on construction and on reset. */
    const studentsInit: seq<Student>
    const questions: seq<Question>
    var students: seq<Student>
    /** Current step. */
    var i: nat
    /** Current student. */
    var s: nat
    /** Current question. */
    var q: nat

    ghost predicate Valid()
      reads this
    {
      |studentsInit| == nStudents && |students| == nStudents &&
      |questions| == nQuestions &&
      maxSteps == nStudents * nQuestions &&
      StudentsFit(studentsInit, nConcepts) && StudentsFit(students, nConcepts) &&
      (forall k :: 0 <= k < nQuestions ==>
         |questions[k].concepts| == 1 && questions[k].concepts[0] < nConcepts) &&
      SeparateSkills(students, studentsInit) &&
      (nQuestions > 0 ==> q == QuestionAt(i, nQuestions)) &&
      (nQuestions > 0 && nStudents > 0 ==> s == StudentAt(i, nStudents, nQuestions)) &&
      (nQuestions == 0 || nStudents == 0 ==> i == 0 && s == 0 && q == 0)
    }

    /** The skill arrays of the current students: what a step may change. */
    ghost function SkillArrays(): set<array<real>>
      reads this
    {
      set k | 0 <= k < |students| :: students[k].skills
    }

    /** A new environment over an initial population and a question pool
        drawn with at most one concept per question. The counters start at
        0, the step budget is nStudents * nQuestions, and the current
        students are deep copies of the initial ones. */
    constructor (nStudents: nat, nConcepts: nat, nQuestions: nat,
                 studentsInit: seq<Student>, questions: seq<Question>)
      requires |studentsInit| == nStudents && StudentsFit(studentsInit, nConcepts)
      requires |questions| == nQuestions
      requires forall k :: 0 <= k < nQuestions ==> IsQuestionOver(questions[k], nConcepts, 1)
      ensures Valid()
      ensures this.nStudents == nStudents && this.nConcepts == nConcepts
      ensures this.nQuestions == nQuestions && maxSteps == nStudents * nQuestions
      ensures this.studentsInit == studentsInit && this.questions == questions
      ensures i == 0 && s == 0 && q == 0
      ensures forall k :: 0 <= k < nStudents ==>
                fresh(students[k].skills) && IsCopyOf(students[k], studentsInit[k])
    {
      SingleConceptQuestions(questions, nConcepts);
      var copies := CopyStudents(studentsInit);
      this.nStudents := nStudents;
      this.nConcepts := nConcepts;
      this.nQuestions := nQuestions;
      maxSteps := nStudents * nQuestions;
      this.studentsInit := studentsInit;
      this.questions := questions;
      students := copies;
      i, s, q := 0, 0, 0;
    }

    /** Starts over: counters back to 0 and fresh deep copies of the initial
        population; the initial population itself is left untouched.
        Returns the default state 0. */
    method Reset() returns (state: nat)
      requires Valid()
      modifies this
      ensures Valid()
      ensures state == 0 && i == 0 && s == 0 && q == 0
      ensures forall k :: 0 <= k < nStudents ==>
                fresh(students[k].skills) && IsCopyOf(students[k], studentsInit[k])
    {
      i, s, q := 0, 0, 0;
      if nStudents > 0 && nQuestions > 0 {
        CountersStart(nStudents, nQuestions);
      }
      var copies := CopyStudents(studentsInit);
      students := copies;
      return 0;
    }

    /** Moves the counters on by one step: the next question, and the next
        student once the new step count completes a round of questions. */
    method Advance()
      requires Valid() && nStudents > 0 && nQuestions > 0
      modifies this`i, this`s, this`q
      ensures Valid()
      ensures i == old(i) + 1
      ensures q == (old(q) + 1) % nQuestions
      ensures s == if i % nQuestions == 0 then (old(s) + 1) % nStudents else old(s)
    {
      AdvanceCounters(i, nQuestions, nStudents);
      i := i + 1;
      q := (q + 1) % nQuestions;
      if i % nQuestions == 0 {
        s := (s + 1) % nStudents;
      }
    }

    /** One step. Unwraps the action, decodes it into concept a / 4 and style
        a % 4, shows the current student that example, asks the current
        question with the uniform draw u, and rewards a correct answer with 1
        and a wrong one with 0. Then i grows by one, q moves to the next
        question, and s to the next student when the new i completes a round
        of questions. `done` holds once i reaches maxSteps - 1. Every failure
        is an IndexError raised before anything changes. */
    method Step(arg: ActionArg, u: real, exp: real -> real) returns (r: Result<StepOutput>)
      requires Valid() && ExpLike(exp)
      modifies this, SkillArrays()
      ensures Valid()
      ensures students == old(students)
      ensures r.Err? <==>
                nStudents == 0 || nQuestions == 0 || Unwrap(arg).Err? ||
                Unwrap(arg).value / NLearningStyles >= nConcepts
      ensures r.Err? ==> r.error == IndexError
      ensures r.Err? ==> i == old(i) && s == old(s) && q == old(q)
      ensures r.Err? ==> forall k :: 0 <= k < |students| ==>
                students[k].skills[..] == old(students[k].skills[..])
      ensures r.Ok? ==> i == old(i) + 1
      ensures r.Ok? ==> q == (old(q) + 1) % nQuestions
      ensures r.Ok? ==> s == if i % nQuestions == 0 then (old(s) + 1) % nStudents else old(s)
      ensures r.Ok? ==>
                var a := Unwrap(arg).value;
                var student := students[old(s)];
                student.skills[..] ==
                  old(student.skills[..])[a / NLearningStyles :=
                    old(student.skills[a / NLearningStyles]) +
                    DefaultDeltaScale * student.learnerStyle[a % NLearningStyles]]
      ensures r.Ok? ==> forall k :: 0 <= k < |students| && k != old(s) ==>
                students[k].skills[..] == old(students[k].skills[..])
      ensures r.Ok? ==>
                var student := students[old(s)];
                var question := questions[old(q)];
                var p := OneConceptIrt(exp, student.skills[question.concepts[0]],
                                       DefaultSlope, question.difficulty, DefaultGuess);
                r.value.reward == (if u < p then 1 else 0)
      ensures r.Ok? ==> r.value.done == DoneAsWritten(i, maxSteps)
      ensures r.Ok? ==> r.value.state == [s, q]
      ensures r.Ok? ==>
                r.value.info == Info(s, q, students[old(s)].skills, students[old(s)].learnerStyle)
      ensures r.Ok? ==> (r.value.info.questionIdx == 0 <==> i % nQuestions == 0)
      ensures forall k :: 0 <= k < |studentsInit| ==>
                studentsInit[k].skills[..] == old(studentsInit[k].skills[..])
    {
      var unwrapped := Unwrap(arg);
      if unwrapped.Err? || |students| == 0 || |questions| == 0 {
        return Err(IndexError);
      }
      var a := unwrapped.value;
      var student := students[s];
      var question := questions[q];
      var conceptIdx := a / NLearningStyles;
      var styleIdx := a % NLearningStyles;
      if conceptIdx >= nConcepts {
        return Err(IndexError);
      }

      student.Example(conceptIdx, styleIdx, DefaultDeltaScale);
      var answer := student.Question(question, u, exp, DefaultSlope, DefaultGuess);
      var reward := if answer.value.correct then 1 else 0;

      Advance();
      var done := DoneAsWritten(i, maxSteps);
      var info := Info(s, q, student.skills, student.learnerStyle);
      return Ok(StepOutput([s, q], reward, done, info));
    }
  }
}
