/** The kinematics challenge quiz: a fixed table of five problems, a 5 %
    tolerance test on the submitted number, an attempt counter that escalates
    from a hint to revealing the answer, the set of solved problems, a cyclic
    problem index and the progress clock of the solution animation. */
module KinematicsChallenges {
  import opened RealMath
  import opened Playback

  datatype Difficulty = Easy | Medium | Hard

  /** The given values of each problem, one shape per kind of problem. */
  datatype Given =
    | Braking(u: real, v: real, a: real)
    | Launch(u: real, a: real, t: real)
    | Drop(u: real, s: real, a: real)
    | Speedup(u: real, v: real, s: real)
    | Chase(studentV: real, busA: real, gap: real)

  datatype Problem = Problem(
    id: nat, title: string, difficulty: Difficulty, scenario: string,
    given: Given, find: string, answer: real, unit: string, hint: string, equation: string)

  const Problems: seq<Problem> := [
    Problem(1, "MIT 8.01 - Braking Car", Medium,
      "A car traveling at 25 m/s applies brakes and decelerates uniformly at 5 m/s². How far does it travel before stopping?",
      Braking(25.0, 0.0, -5.0), "displacement", 62.5, "m",
      "Use v² = u² + 2as, solve for s", "v² = u² + 2as → s = (v² - u²) / 2a"),
    Problem(2, "MIT 8.01 - Rocket Launch", Medium,
      "A rocket accelerates from rest at 15 m/s² for 8 seconds. What is its final velocity?",
      Launch(0.0, 15.0, 8.0), "velocity", 120.0, "m/s",
      "Use v = u + at", "v = u + at = 0 + (15)(8)"),
    Problem(3, "MIT 8.01 - Free Fall", Hard,
      "A ball is dropped from a 80m tower. How long does it take to hit the ground? (g = 10 m/s²)",
      Drop(0.0, 80.0, 10.0), "time", 4.0, "s",
      "Use s = ut + ½at², with u = 0", "s = ½at² → t = √(2s/a)"),
    Problem(4, "MIT 8.01 - Train Acceleration", Easy,
      "A train accelerates from 10 m/s to 30 m/s over a distance of 200m. What is its acceleration?",
      Speedup(10.0, 30.0, 200.0), "acceleration", 2.0, "m/s²",
      "Use v² = u² + 2as, solve for a", "a = (v² - u²) / 2s"),
    Problem(5, "MIT 8.01 - Catching the Bus", Hard,
      "A bus starts from rest with acceleration 2 m/s². A student 50m behind runs at constant 8 m/s. How long until the student catches the bus?",
      Chase(8.0, 2.0, 50.0), "time", 10.0, "s",
      "Set student position = bus position: 8t = 50 + ½(2)t²",
      "8t = 50 + t² → t² - 8t + 50 = 0... but student must catch up!")
  ]

  /** The ids of the table. */
  function ProblemIds(): (ids: set<nat>)
    ensures |ids| == |Problems|
    ensures forall i :: 0 <= i < |Problems| ==> Problems[i].id in ids
    ensures forall id :: id in ids <==> 1 <= id <= 5
  {
    assert forall i :: 0 <= i < |Problems| ==> Problems[i].id == i + 1;
    {1, 2, 3, 4, 5}
  }

  /** The stored answer, substituted for the unknown, satisfies the relation the
      problem's equation uses: s = (v² − u²) / 2a, v = u + a t, s = u t + ½ a t²,
      a = (v² − u²) / 2s, or the chase condition v_student t = gap + ½ a_bus t². */
  function AnswerSatisfies(p: Problem): bool
  {
    match p.given
    case Braking(u, v, a) => p.answer * (2.0 * a) == v * v - u * u
    case Launch(u, a, t) => p.answer == u + a * t
    case Drop(u, s, a) => s == u * p.answer + 0.5 * a * p.answer * p.answer
    case Speedup(u, v, s) => p.answer * (2.0 * s) == v * v - u * u
    case Chase(sv, ba, gap) => sv * p.answer == gap + 0.5 * ba * p.answer * p.answer
  }

  /** Problems 1 to 4 store the answer their relation gives; problem 5 does not. */
  lemma StoredAnswers()
    ensures forall i :: 0 <= i < 4 ==> AnswerSatisfies(Problems[i])
    ensures !AnswerSatisfies(Problems[4])
  {
    assert AnswerSatisfies(Problems[0]);
    assert AnswerSatisfies(Problems[1]);
    assert AnswerSatisfies(Problems[2]);
    assert AnswerSatisfies(Problems[3]);
  }

  /** The student of problem 5 never catches the bus: 8 t = 50 + t² has no real
      solution, because t² − 8 t + 50 = (t − 4)² + 34. */
  lemma ChaseHasNoSolution(t: real)
    ensures 8.0 * t != 50.0 + 0.5 * 2.0 * t * t
  {
    assert t * t - 8.0 * t + 50.0 == Sq(t - 4.0) + 34.0;
    assert Sq(t - 4.0) >= 0.0;
  }

  function Abs(x: real): real { if x < 0.0 then -x else x }

  /** The grading test: |x − answer| ≤ 5 % of the answer. A submission that does
      not parse (NaN) or parses to an infinity never passes. */
  function IsCorrect(submitted: JsNumber, answer: real): (ok: bool)
    ensures ok <==> submitted.Finite? && Abs(submitted.value - answer) <= answer * 0.05
  {
    match submitted
    case Finite(x) => Abs(x - answer) <= answer * 0.05
    case _ => false
  }

  /** For a positive answer the accepted band is exactly [0.95 a, 1.05 a],
      both ends included. */
  lemma ToleranceBand(x: real, answer: real)
    requires answer > 0.0
    ensures IsCorrect(Finite(x), answer) <==> answer * 0.95 <= x <= answer * 1.05
    ensures IsCorrect(Finite(answer), answer)
    ensures !IsCorrect(Finite(answer * 1.06), answer) && !IsCorrect(NaN, answer)
  {
  }

  /** The message box under the answer field. */
  datatype Feedback =
    | NoFeedback
    | Correct
    | TryAgain(hint: string)
    | Revealed(answer: real, unit: string, equation: string)

  /** The progress clock advances 0.8 % of the animation per frame. */
  const ProgressStep: real := 0.008

  /** From the start the solution animation reaches its end after 126 frames and stops there. */
  lemma AnimationEnds()
    ensures ClampedRun(ClockState(0.0, true), ProgressStep, 1.0, 126) == ClockState(1.0, false)
  {
    ClampedRunStops(ClockState(0.0, true), ProgressStep, 1.0, 126);
  }

  /** The Submit button is enabled only for a non-empty entry and while no
      animation runs; the Enter key submits without this check. */
  function SubmitEnabled(entry: string, animating: bool): (enabled: bool)
    ensures enabled <==> entry != [] && !animating
  {
    entry != [] && !animating
  }

  /** A subset of a set has at most its size. */
  lemma {:induction false} SubsetSize(a: set<nat>, b: set<nat>)
    requires a <= b
    ensures |a| <= |b|
    decreases |b|
  {
    if a != {} {
      var x :| x in a;
      SubsetSize(a - {x}, b - {x});
    }
  }

  class ChallengeSession {
    var current: nat
    var entry: string
    var feedback: Feedback
    var showHint: bool
    var animating: bool
    var progress: real
    var attempts: nat
    var solved: set<nat>

    function Progress(): ClockState
      reads this
    {
      ClockState(progress, animating)
    }

    ghost predicate Valid()
      reads this
    {
      && current < |Problems|
      && solved <= ProblemIds()
      && InBand(Progress(), ProgressStep, 1.0)
    }

    constructor ()
      ensures Valid()
      ensures current == 0 && entry == [] && feedback == NoFeedback && !showHint
      ensures Progress() == ClockState(0.0, false) && attempts == 0 && solved == {}
    {
      current, entry, feedback, showHint := 0, [], NoFeedback, false;
      animating, progress, attempts, solved := false, 0.0, 0, {};
    }

    /** The counter shows solved.size out of five, and never more than five. */
    lemma SolvedCountBounded()
      requires Valid()
      ensures |solved| <= |Problems|
    {
      SubsetSize(solved, ProblemIds());
    }

    /** checkAnswer() on the number parsed from the entry. A correct answer marks
        the problem solved and restarts the animation; a wrong one counts an
        attempt, and from the third miss on reveals the answer. The reveal test
        reads the attempt count from before the increment. */
    method CheckAnswer(submitted: JsNumber)
      requires Valid()
      modifies this
      ensures Valid()
      ensures current == old(current) && entry == old(entry) && showHint == old(showHint)
      ensures IsCorrect(submitted, Problems[current].answer) ==>
        && feedback == Correct
        && solved == old(solved) + {Problems[current].id}
        && Progress() == ClockState(0.0, true)
        && attempts == old(attempts)
      ensures !IsCorrect(submitted, Problems[current].answer) ==>
        && solved == old(solved)
        && Progress() == old(Progress())
        && attempts == old(attempts) + 1
        && (feedback.Revealed? <==> old(attempts) >= 2)
        && (feedback.Revealed? ==> feedback == Revealed(Problems[current].answer, Problems[current].unit, Problems[current].equation))
        && (!feedback.Revealed? ==> feedback == TryAgain(Problems[current].hint))
    {
      var problem := Problems[current];
      if IsCorrect(submitted, problem.answer) {
        feedback := Correct;
        solved := solved + {problem.id};
        animating := true;
        progress := 0.0;
      } else {
        var before := attempts;
        attempts := attempts + 1;
        if before >= 2 {
          feedback := Revealed(problem.answer, problem.unit, problem.equation);
        } else {
          feedback := TryAgain(problem.hint);
        }
      }
    }

    /** nextProblem(): the following problem, cyclically, with a clean slate;
        the solved set is kept. */
    method NextProblem()
      requires Valid()
      modifies this
      ensures Valid()
      ensures current == (old(current) + 1) % |Problems|
      ensures entry == [] && feedback == NoFeedback && !showHint
      ensures Progress() == ClockState(0.0, false) && attempts == 0
      ensures solved == old(solved)
    {
      current := (current + 1) % |Problems|;
      entry, feedback, showHint := [], NoFeedback, false;
      progress, animating, attempts := 0.0, false, 0;
    }

    /** A navigation dot: jump to problem i with a clean slate, except that a
        running animation keeps running. */
    method SelectProblem(i: nat)
      requires Valid() && i < |Problems|
      modifies this
      ensures Valid()
      ensures current == i
      ensures entry == [] && feedback == NoFeedback && !showHint
      ensures progress == 0.0 && animating == old(animating) && attempts == 0
      ensures solved == old(solved)
    {
      current := i;
      entry, feedback, showHint := [], NoFeedback, false;
      progress, attempts := 0.0, 0;
    }

    /** One animation frame of the progress clock: clamped at 1, where the
        animation stops. */
    method ProgressTick()
      requires Valid()
      modifies this
      ensures Valid()
      ensures Progress() == ClampedTick(old(Progress()), ProgressStep, 1.0)
      ensures current == old(current) && solved == old(solved) && attempts == old(attempts)
      ensures feedback == old(feedback) && entry == old(entry) && showHint == old(showHint)
    {
      ClampedTickKeepsBand(Progress(), ProgressStep, 1.0);
      if animating {
        if progress >= 1.0 {
          animating, progress := false, 1.0;
        } else {
          progress := progress + ProgressStep;
        }
      }
    }

    method ToggleHint()
      requires Valid()
      modifies this
      ensures Valid()
      ensures showHint == !old(showHint)
      ensures current == old(current) && solved == old(solved) && attempts == old(attempts)
      ensures feedback == old(feedback) && entry == old(entry) && Progress() == old(Progress())
    {
      showHint := !showHint;
    }

    /** Typing in the answer field. */
    method SetEntry(text: string)
      requires Valid()
      modifies this
      ensures Valid()
      ensures entry == text
      ensures current == old(current) && solved == old(solved) && attempts == old(attempts)
      ensures feedback == old(feedback) && showHint == old(showHint) && Progress() == old(Progress())
    {
      entry := text;
    }
  }
}
