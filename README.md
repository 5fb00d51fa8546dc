# Simulated students and teaching bandits, in Dafny

This project models the core of a small simulator of students who learn
concepts. Each student has a skill per concept and a preferred VARK learning
style (visual, aural, reading/writing, kinesthetic). An agent picks which
concept to teach next and in which style, encoded as one action. The student
sees that example, answers a question, and the agent is rewarded with 1 for a
correct answer.

- `exceptions.dfy`: module `Exceptions`. The Python exceptions the code raises
  (ValueError, IndexError, UnboundLocalError, NotImplementedError) and a
  `Result` type that carries them.
- `numpy.dfy`: module `Numpy`. `np.sum`, `np.argmin` and `np.argmax` over
  vectors of reals. The argmin and argmax return the first index holding the
  extreme value.
- `generate.py` → `generate.dfy`: module `Generate`.
  - Concept names, the bijective base-26 numbering A..Z, AA.., AAA..
  - The concept maps and their inverse, built by a loop.
  - The difficulty table.
  - The question generator, a loop.
  - The one-hot learning style, written into a zero array.
  - The skill vector, filled by a loop.
- `student_simulator.py` → `student_simulator.dfy`: module `StudentSimulator`.
  - The IRT curve `c + (1 - c) / (1 + exp(a * (b - theta)))`.
  - The class `Student`. Its `skills` array is raised in place by `Example`.
    `Question` answers a single-concept question.
- `agents.py` → `agents.dfy`: module `Agents`.
  - The action encoding `concept * 4 + style`.
  - The random and weakest-skill baselines.
  - The class `MultiArmBandit`. It holds the value array `q` (updated one slot
    at a time), the step count `n` and the previous action. The two Python
    subclasses become its two step methods, `EpsilonGreedy` and
    `EpsilonSampleProb`. A ghost field `variant` records which subclass an
    object is, and each step method accepts only its own variant.
- `student_env.py` → `student_env.dfy`: module `StudentEnvironment`.
  - `one_hot`.
  - The class `StudentEnv`. It holds the counters `i`, `q` and `s` and the
    current students, which are deep copies of the initial ones. It has the
    methods `Step` and `Reset`.
- `statistics.py` → `statistics.dfy`: module `Statistics`.
  - A second IRT curve, with the opposite sign.
  - The multi-concept curve gated by the weakest skill, on either curve.
  - The forgetting strategies, which are all unimplemented.

Random draws are parameters: a uniform draw `u`, an index below a bound, or
real-valued normal noise. An index draw has its range as a precondition. The
uniform draw may be any real, and every contract about it holds for all `u`.
Numbers are exact reals. The exponential function is a parameter `exp` of type `real -> real`. The model assumes only
that `exp` is positive and strictly increasing (`StudentSimulator.ExpLike`).

Behaviour of the code worth knowing:

- `Student.question` rejects every question that does not have exactly one
  concept, not only empty ones. It always uses slope 1 and guessing 0.25,
  whatever `a` and `c` it is given (student_simulator.py:97).
- `questions` ignores its `difficulty_fn` argument and always calls
  `q_difficulty_function` (generate.py:76).
- `MultiArmBanditEpsilonGreedy` never increases `n`. Its agent therefore
  stays in warm-up forever, and each update overwrites the estimate with the
  reward.
- `letters` is only called by `concepts` with 0 <= i < n (generate.py:24-26),
  so the model takes natural numbers. On a negative index the code returns a
  non-letter for -65..-1 (`'@'` for -1) and raises ValueError from `chr` below
  -65. Neither case is modelled.
- `n_concept_irt` fails on every input. It is recorded under Findings.
- The step reports `done` one step before every student has been asked every question. It is recorded under Findings. `Step` keeps the code's test.

## Model

| member | source | states |
|---|---|---|
| `Generate.Letters` | generate.py:16-20 | every name is a non-empty word over 'A'..'Z'; its last letter is letter n % 26 |
| `Generate.IndexOfLetters` | generate.py:16-20 | reading a name back as a bijective base-26 number gives the index it was made from |
| `Generate.LettersOfIndex` | generate.py:16-20 | every non-empty word over 'A'..'Z' is the name of its index, so the naming is onto |
| `Generate.LettersInjective` | generate.py:22-31 | two indices have the same name if and only if they are equal, so the inverse map never overwrites a key |
| `Generate.LettersLength` | generate.py:17-20 | names have 1 letter exactly below 26, 2 letters exactly for 26..701, 3 letters exactly for 702..18277 |
| `Generate.LettersExamples` | test_generate.py:7-12 | 0→"A", 25→"Z", 26→"AA", 701→"ZZ", 702→"AAA", 18277→"ZZZ", 18278→"AAAA", 18279→"AAAB" |
| `Generate.Concepts` | generate.py:8-31 | the forward map has exactly the keys 0..n-1 and maps k to Letters(k); the inverse map has exactly those names as keys and maps each back to its index |
| `Generate.QDifficulty` | generate.py:34-46 | the difficulty is the noise plus an offset between -4 and 20; the offset is 20 exactly for concept 4 and -4 exactly for concept 3; from concept 5 on it is the noise alone |
| `Generate.Questions` | generate.py:49-80 | succeeds iff every size draw fits below c and maxConcepts > 0 (when any question is asked), else ValueError; then exactly q questions in drawing order, each with 1..maxConcepts distinct concepts below c and difficulty QDifficulty, whatever difficultyFn is |
| `Generate.SingleConceptQuestions` | generate.py:71-74 | questions drawn with maxConcepts 1 each test exactly one concept, below c |
| `Generate.StyleVectorIsOneHot` | generate.py:105-109 | the learning style has length 4, holds 1.0 exactly at the chosen style and 0.0 elsewhere, and sums to 1 |
| `Generate.LearnerStyle` | generate.py:105-109 | returns a new array equal to the one-hot style of the chosen index |
| `Generate.LearnerSkills` | generate.py:154-159 | returns a new array of length c whose i-th skill is specificSkill(avgSkill, i) |
| `StudentSimulator.SpecificSkill` | student_simulator.py:13-21 | a concept's skill is above the average skill exactly when its draw is positive, and below it exactly when the draw is negative |
| `StudentSimulator.SkillsAroundAverage` | student_simulator.py:13-21 | the skills of a student sum to nConcepts times the average skill plus the sum of the draws |
| `Numpy.ArgMin` | agents.py:45-47 | returns an index holding the smallest element, with every earlier element strictly larger |
| `Numpy.ArgMax` | agents.py:49-51 | returns an index holding the largest element, with every earlier element strictly smaller |
| `StudentSimulator.OneConceptIrt` | student_simulator.py:24-35 | for c < 1 the probability lies strictly between c and 1 |
| `StudentSimulator.IrtIncreasingInSkill` | student_simulator.py:35 | for a > 0 the probability never decreases as the skill grows, and strictly increases when c < 1 |
| `StudentSimulator.IrtDecreasingInDifficulty` | student_simulator.py:35 | for a > 0 the probability never increases as the difficulty grows, and strictly decreases when c < 1 |
| `StudentSimulator.Student.constructor` | student_simulator.py:44-64 | a new student has the one-hot style of the drawn index, the given average skill, and skills[i] == noise[i] + avgSkill for each of the n concepts |
| `StudentSimulator.Student.Copy` | student_env.py:58 | a deep copy has the same profile and equal skills held in a new array |
| `StudentSimulator.Student.Question` | student_simulator.py:66-102 | ValueError iff the question does not have exactly one concept; otherwise p is the IRT probability at that concept's skill with slope 1, the question's difficulty and guessing 0.25, 0.25 < p < 1, and the answer is correct iff u < p; skills are not changed |
| `StudentSimulator.Student.Example` | student_simulator.py:104-112 | adds deltaScale times the style weight to the taught concept's skill; that is deltaScale in the dominant style and 0 in any other; all other skills are unchanged |
| `Agents.Encode` | agents.py:35 | for a style below 4, `/ 4` and `% 4` of the action give back the concept and the style |
| `Agents.EncodeDecode` | agents.py:33-35 | an action built from a concept below nConcepts and a style below 4 is below 4 * nConcepts, and `/ 4` and `% 4` recover the pair |
| `Agents.DecodeEncode` | student_env.py:111-112 | every action below 4 * nConcepts decodes to a concept below nConcepts and a style below 4 that re-encode to the same action |
| `Agents.RandomAgent` | agents.py:32-35 | ValueError iff there are no concepts to draw from; otherwise a one-element list whose action is in the action space and decodes to the drawn concept and style |
| `Agents.WeakestSkillAgent` | agents.py:44-53 | ValueError iff the skill vector is empty; otherwise one action in the action space that decodes to the first weakest concept and the first strongest style |
| `Agents.SlotToUpdate` | agents.py:87-88 | the slot updated is 0 exactly when a new student begins (question index 0) or the previous action was 0, and otherwise the previous action |
| `Agents.Updated` | agents.py:92-93 | only slot pa changes; it moves (reward - q[pa]) / n towards the reward |
| `Agents.MeanAppend` | agents.py:61-66 | one more reward moves the sample mean 1/(k+1) of the way towards it |
| `Agents.UpdateKeepsSampleMean` | agents.py:61-66 | when n is one more than the number of rewards averaged into q[pa], the update leaves q[pa] the mean including the new reward |
| `Agents.MultiArmBandit.constructor` | agents.py:68-82 | an agent of the given variant with n == 1, q of length 4 * nConcepts and all zeros, and previous action 0 |
| `Agents.MultiArmBandit.EpsilonGreedy` | agents.py:86-106 | on the greedy variant only: updates slot 0 when the question index is 0 and the previous action otherwise, and changes no other slot; n never changes, so with n == 1 the slot becomes the reward; the action is the draw during warm-up (n < 5 * len(q)), after it the first best estimate when u > eps(n) and the draw otherwise; the action is in range, is returned in a list, and becomes the previous action |
| `Agents.MultiArmBandit.EpsilonSampleProb` | agents.py:116-142 | on the sampling variant only: the same update and warm-up; exploration gives action 0 when the estimates sum to 0 and the sample otherwise; n grows by exactly 1 |
| `StudentEnvironment.AdvanceCounters` | student_env.py:123-126 | one more step keeps q == i % nQuestions and s == (i / nQuestions) % nStudents |
| `StudentEnvironment.StepsAskDistinctPairs` | student_env.py:123-126 | within the first nStudents * nQuestions steps, step k asks student k / nQuestions, and no two steps ask the same (student, question) pair |
| `StudentEnvironment.DoneOneStepEarly` | student_env.py:128-129 | done first holds after maxSteps - 1 steps, and at that point the last student has not yet been asked the last question |
| `StudentEnvironment.Done` | student_env.py:128 | the intended end, i >= nStudents * nQuestions, holds exactly when every student has been asked every question |
| `StudentEnvironment.OneHot` | student_env.py:13-16 | a new vector of length shape holding 1 exactly at n and 0 elsewhere; IndexError iff n is past the end |
| `StudentEnvironment.Unwrap` | student_env.py:107-108 | a list gives its first element (IndexError when empty) and a bare action gives itself |
| `StudentEnvironment.CopyStudents` | student_env.py:58 | every student is copied into a new student with a new skill array; no two copies share an array |
| `StudentEnvironment.StudentEnv.constructor` | student_env.py:45-58 | counters are 0, the step budget is nStudents * nQuestions, and the students are independent deep copies of the initial population |
| `StudentEnvironment.StudentEnv.Reset` | student_env.py:97-104 | counters go back to 0 and the students are fresh deep copies of the initial population; returns 0 |
| `StudentEnvironment.StudentEnv.Advance` | student_env.py:123-126 | i grows by 1, q moves to the next question modulo nQuestions, and s to the next student exactly when the new i is a multiple of nQuestions, keeping the counter invariant |
| `StudentEnvironment.StudentEnv.Step` | student_env.py:106-147 | IndexError, with nothing changed, exactly when there are no students or no questions, the action list is empty, or the decoded concept is out of range; otherwise the current student gets the example (concept a / 4, style a % 4) and no other student changes; reward is 1 iff u is below the IRT probability of the current question; i grows by 1, q == (q + 1) % nQuestions, s advances exactly when the new i is a multiple of nQuestions; done iff DoneAsWritten, that is i >= maxSteps - 1; info holds the new indices and the taught student's array; the reported question index is 0 exactly when the step completes a student; the initial population is untouched |
| `Statistics.OneConceptIrt` | statistics.py:20-31 | for c < 1 this copy of the curve also lies strictly between c and 1 |
| `Statistics.IrtDecreasingInSkill` | statistics.py:31 | with this sign, for a > 0 the probability never increases as the skill grows |
| `Statistics.SkillLowersProbability` | statistics.py:31 | at a = 1, b = 0, c = 0.25, skill 1 gives a lower probability than skill 0 here, and a higher one on the students' curve |
| `Statistics.CurveIrt` | statistics.py:54 | on either one-concept curve, for c < 1 the probability lies strictly between c and 1 |
| `Statistics.Min` | statistics.py:56-59 | the weakest skill is one of the skills and at most each of them |
| `Statistics.MinOfPermutation` | statistics.py:56-59 | reordering the skills leaves the weakest skill the same |
| `Statistics.WeakestSkillGates` | statistics.py:42-44 | on the students' curve the gated probability is at most that of each single concept, and equal to that of a weakest one |
| `Statistics.FileCurveGatesStrongest` | statistics.py:42-44 | on this file's own curve the gated probability is at least that of every single concept, so the weakest skill does not hold the student back |
| `Statistics.GatedIrtOrderFree` | statistics.py:42-44 | on either curve the gated probability does not depend on the order of the skills |
| `Statistics.NConceptIrtAsWritten` | statistics.py:34-61 | every call fails with UnboundLocalError |
| `Statistics.AsWrittenFailsOnOneSkill` | statistics.py:52-54 | on a single skill the function as written fails, though with the name fixed the result is this file's one-concept probability |
| `Statistics.NConceptIrt` | statistics.py:34-61 | on the chosen curve (FileCurve: the file's own, with only the name fixed; StudentCurve: the students' curve, which also fixes the sign): IndexError iff there are no skills; one skill gives that curve's probability of it; otherwise the scan's result is the curve at the minimum skill |
| `Statistics.Forget` | statistics.py:64-77 | every forgetting strategy fails with NotImplementedError |

## Findings

| source | as written | input that shows it | evidently intended | confidence | as-written member | corrected member |
|---|---|---|---|---|---|---|
| statistics.py:52-53 | `theta` is read before the loop at line 57 binds it. Python treats it as a local, so every call raises UnboundLocalError | thetas = [0.0] | `len(thetas)`: one skill gives the one-concept probability, several give the curve at the weakest | high; not executed | `Statistics.NConceptIrtAsWritten`, `Statistics.AsWrittenFailsOnOneSkill` | `Statistics.NConceptIrt` with `FileCurve` |
| statistics.py:31 | the exponent is `a * (theta - b)`, so the probability falls as the skill grows. Gating by the weakest skill then gives the highest probability, not the lowest. The docstring at student_simulator.py:80 writes the same inverted `exp(a(θ - b))`, although the code at line 35 uses `(b - theta)`. Evidence the other way: the only caller, student_env/student_simulator.py:46-59, pairs this curve with `np.random.rand() > p_correct`. That makes a correct answer likelier as the skill grows, and lets the weakest skill hold the student back. That caller never assigns `p_correct` and is itself broken. The intent rests on the "prob_correct" return at statistics.py:28-29 | theta = 1 against theta = 0, with a = 1, b = 0, c = 0.25 | `a * (b - theta)`, as at student_simulator.py:35, so that the probability grows with the skill | medium; not executed | `Statistics.OneConceptIrt`, `Statistics.SkillLowersProbability`, `Statistics.FileCurveGatesStrongest` | `StudentSimulator.OneConceptIrt`, `StudentSimulator.IrtIncreasingInSkill`, used by `Statistics.NConceptIrt` with `StudentCurve` and `Statistics.WeakestSkillGates` |
| student_env.py:129 | `done = self.i >= self.max_steps - 1` holds after nStudents * nQuestions - 1 steps, while the comment at line 128 ends the episode once all students have been shown all questions | 1 student and 2 questions: done after the first step, with the second question not yet asked | `self.i >= self.max_steps` | medium; not executed | `StudentEnvironment.DoneAsWritten`, `StudentEnvironment.DoneOneStepEarly` (used by `StudentEnvironment.StudentEnv.Step`, which models the code) | `StudentEnvironment.Done` |

## Left out

- Random number generation: NumPy's generator, seeding and the inverse-power-law weights of the concept count (generate.py:63-65). Each draw is a parameter. Index draws have their range as a precondition, and `u` may be any real. No distribution is modelled.
- Floating point: reals are exact and `exp` is abstract. `int(n / 26)` is modelled as integer division. This matches Python for indices below 2^53.
- The mixed learning-style branch (generate.py:110-151): it sits behind `if True` and is never reached.
- `avg_skill_fn` (student_simulator.py:8-10 and the default `randn() - 3.0` at line 44) is a draw. The Student constructor takes its result as `avgSkill`.
- The copies of `avg_skill_fn` and `specific_skill_fn` in statistics.py:4-17 are not modelled, and neither is the `print` at statistics.py:52.
- Persistence: `save`/`load` in agents.py:15-26 and student_env.py:65-95.
- Gym glue: the observation and action spaces, `render` and `close`.
- Seeding at student_env.py:40.
- Student and question generation inside `StudentEnv.__init__` (student_env.py:55-63). The caller creates the students (`Student` constructor) and the question pool (`Generate.Questions` with maxConcepts 1), and the constructor takes them.
- `reset(shuffle_students=True)` (student_env.py:102-103): it evaluates `list(None)` and always fails.
- student_env/student_env.py and student_env/student_simulator.py are broken duplicates of the modelled files and are not part of this model.
- The default `eps=lambda n: 0.1` (agents.py:68) is not a separate member. `MultiArmBandit` takes any `eps`, the default included.
- The default `max_concepts=3` of `questions` (generate.py:49) is not a separate member. `Generate.Questions` takes any `maxConcepts`, the default included.
- `int(action / self.n_lstyles)` (student_env.py:111) divides floats and truncates. The model uses integer division by 4, which gives the same result for actions below 2^53.
- Python's negative indices are not modelled: all indices are natural numbers.
- The `state`, `done` and `info` arguments of the agents' `__call__` are not modelled. Only the question index, the skills and the style that the agents read are passed in.
- StudentSimulator.Student.Example: a concept index past the skill vector (IndexError in NumPy) is excluded by requires. `Step` checks the index before calling.
- StudentSimulator.Student.Question: a single concept past the skill vector (IndexError) is excluded by requires. The environment's questions are always in range.
- Agents.MultiArmBandit.EpsilonGreedy: a call on an agent with no actions (IndexError at `q[0]` for zero concepts) is excluded by requires.
- Agents.MultiArmBandit.EpsilonGreedy: that a greedy agent's n stays 1 is not stated in `Valid()`. It follows from the constructor (n == 1) and this method's `n == old(n)`. Stating it there would leave the source's greedy branch unreachable in the model.
- Agents.MultiArmBandit.EpsilonSampleProb: the sample is any index below len(q). That it is drawn with probability q[a] / sum(q), and NumPy's ValueError for invalid probabilities, are not modelled. A call on an agent with no actions is excluded as for EpsilonGreedy.
