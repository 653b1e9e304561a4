/**
 * The scoring arithmetic of `selectAnswer` (store/game-store.ts), in exact
 * integers. The source computes the time bonus and the streak multiplier in
 * floating point; here the bonus is floor(timeRemaining * 50 / timeLimit)
 * clamped at 0, and the multiplier is counted in tenths, min(20, 10 + newStreak).
 * Dafny's `/` is Euclidean, which for a positive divisor is the floor.
 */
module Scoring {
  import opened GameTypes

  const MaxTimeBonus: nat := 50
  /** Multiplier cap in tenths: 2.0. */
  const MaxMultiplierTenths: nat := 20

  /** Bonus for answering early: 50 for an instant answer, less as time runs out, never negative. */
  function TimeBonus(timeRemaining: int, timeLimit: nat): (b: nat)
    requires timeLimit > 0
    ensures timeRemaining <= 0 ==> b == 0
    ensures timeRemaining >= 0 ==> b * timeLimit <= timeRemaining * MaxTimeBonus < (b + 1) * timeLimit
  {
    var q := timeRemaining * MaxTimeBonus / timeLimit;
    if q < 0 then 0 else q
  }

  /** The streak multiplier in tenths, using the streak after this answer. */
  function MultiplierTenths(newStreak: nat): (m: nat)
    ensures 10 <= m <= MaxMultiplierTenths
    ensures m - 10 <= newStreak
    ensures newStreak <= 10 ==> m == 10 + newStreak
    ensures newStreak >= 10 ==> m == MaxMultiplierTenths
  {
    if 10 + newStreak < MaxMultiplierTenths then 10 + newStreak else MaxMultiplierTenths
  }

  /** floor(earned * multiplier): never below the points earned and never above twice them. */
  function FinalPoints(earned: nat, newStreak: nat): (p: nat)
    ensures earned <= p <= 2 * earned
    ensures p * 10 <= earned * MultiplierTenths(newStreak) < (p + 1) * 10
  {
    var m := MultiplierTenths(newStreak);
    MulDivBounds(earned, m);
    earned * m / 10
  }

  /** Arithmetic helper: scaling by m/10 with 1 <= m/10 <= 2 stays between the value and its double. */
  lemma MulDivBounds(earned: nat, m: nat)
    requires 10 <= m <= 20
    ensures earned <= earned * m / 10 <= 2 * earned
  {
    assert earned * 10 <= earned * m <= earned * 20;
  }

  /** What answering with `answerIndex` yields. */
  datatype Outcome = Outcome(
    isCorrect: bool,
    timeSpent: int,
    timeBonus: nat,
    pointsEarned: nat,
    newStreak: nat,
    finalPoints: nat,
    eliminated: bool)

  /** Lines 102-117 of store/game-store.ts. */
  function Evaluate(q: Question, timeRemaining: int, streak: nat, answerIndex: int): (o: Outcome)
    requires q.timeLimit > 0
    ensures o.isCorrect <==> answerIndex == q.correctAnswer
    ensures o.eliminated <==> !o.isCorrect
    ensures o.timeSpent + timeRemaining == q.timeLimit
    ensures o.timeBonus == TimeBonus(timeRemaining, q.timeLimit)
    ensures o.pointsEarned == if o.isCorrect then q.points + o.timeBonus else 0
    ensures o.finalPoints == FinalPoints(o.pointsEarned, o.newStreak)
    ensures o.isCorrect ==> o.newStreak == streak + 1 && q.points + o.timeBonus <= o.finalPoints
    ensures !o.isCorrect ==> o.newStreak == 0 && o.finalPoints == 0
    ensures 0 <= timeRemaining <= q.timeLimit ==> o.timeBonus <= MaxTimeBonus
    ensures 0 <= timeRemaining <= q.timeLimit ==> o.finalPoints <= 2 * (q.points + MaxTimeBonus)
  {
    var isCorrect := answerIndex == q.correctAnswer;
    var bonus := TimeBonus(timeRemaining, q.timeLimit);
    var earned := if isCorrect then q.points + bonus else 0;
    var newStreak := if isCorrect then streak + 1 else 0;
    Outcome(isCorrect, q.timeLimit - timeRemaining, bonus, earned, newStreak,
            FinalPoints(earned, newStreak), !isCorrect)
  }
}

module ScoringFacts {
  import opened GameTypes
  import opened Scoring

  /**
   * A fast correct answer on a 200-point, 10-second question with a streak of
   * two: the multiplier uses the incremented streak (3), so 250 * 1.3 = 325.
   */
  lemma FullTimeAnswerOnThirdStreak(q: Question)
    requires q.points == 200 && q.timeLimit == 10
    ensures Evaluate(q, 10, 2, q.correctAnswer).finalPoints == 325
  {
    assert TimeBonus(10, 10) == 50;
    assert MultiplierTenths(3) == 13;
  }

  /** Even the first correct answer is multiplied (by 1.1), because the streak is incremented first. */
  lemma FirstCorrectAnswerIsMultiplied(q: Question, timeRemaining: int)
    requires q.timeLimit > 0
    ensures Evaluate(q, timeRemaining, 0, q.correctAnswer).finalPoints
         == (q.points + TimeBonus(timeRemaining, q.timeLimit)) * 11 / 10
  {
    assert MultiplierTenths(1) == 11;
  }

  /** From a streak of ten on, the multiplier is saturated at 2. */
  lemma StreakMultiplierSaturates(earned: nat, newStreak: nat)
    requires newStreak >= 10
    ensures FinalPoints(earned, newStreak) == 2 * earned
  {
    assert MultiplierTenths(newStreak) == 20;
    assert earned * 20 == (2 * earned) * 10;
  }

  /** A longer streak never earns less. */
  lemma FinalPointsMonotoneInStreak(earned: nat, s1: nat, s2: nat)
    requires s1 <= s2
    ensures FinalPoints(earned, s1) <= FinalPoints(earned, s2)
  {
    var m1, m2 := MultiplierTenths(s1), MultiplierTenths(s2);
    assert m1 <= m2;
    assert earned * m1 <= earned * m2;
    DivMonotone(earned * m1, earned * m2, 10);
  }

  /** Answering earlier never earns a smaller time bonus. */
  lemma TimeBonusMonotone(tr1: int, tr2: int, timeLimit: nat)
    requires timeLimit > 0 && tr1 <= tr2
    ensures TimeBonus(tr1, timeLimit) <= TimeBonus(tr2, timeLimit)
  {
    assert tr1 * MaxTimeBonus <= tr2 * MaxTimeBonus;
    DivMonotone(tr1 * MaxTimeBonus, tr2 * MaxTimeBonus, timeLimit);
  }

  /** Arithmetic helper: division by a positive divisor is monotone. */
  lemma DivMonotone(a: int, b: int, d: int)
    requires a <= b && d > 0
    ensures a / d <= b / d
  {
    var qa, qb := a / d, b / d;
    assert qa * d <= a <= b < (qb + 1) * d;
    assert (qa - qb - 1) * d < 0;
  }

  /**
   * The time-out sentinel -1 is never a valid option index, so it is always
   * scored as a wrong answer: nothing earned, streak reset, eliminated.
   */
  lemma TimeOutSentinelIsWrong(q: Question, timeRemaining: int, streak: nat)
    requires q.timeLimit > 0 && 0 <= q.correctAnswer
    ensures var o := Evaluate(q, timeRemaining, streak, -1);
      !o.isCorrect && o.finalPoints == 0 && o.newStreak == 0 && o.eliminated
  {
  }
}
