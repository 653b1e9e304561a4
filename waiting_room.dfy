/**
 * The waiting-room screen (app/quiz/waiting-room.tsx): looks up the
 * scheduled quiz by id, shows a once-a-second countdown to its start as
 * `M:SS`, and marks the player ready.
 */
module WaitingRoom {
  import opened Wrappers
  import opened QuizTypes
  import QuizSession

  const StartingNow := "Starting now"
  const MsPerMinute := 60000
  const MsPerSecond := 1000

  predicate IsDigit(c: char)
  {
    '0' <= c <= '9'
  }

  predicate AllDigits(s: string)
  {
    forall k :: 0 <= k < |s| ==> IsDigit(s[k])
  }

  /** How `Number.toString()` writes an integer: digits, no leading zero unless the number is 0. */
  predicate Canonical(s: string)
  {
    |s| > 0 && AllDigits(s) && (s[0] != '0' || |s| == 1)
  }

  function DigitChar(d: nat): (c: char)
    requires d < 10
    ensures IsDigit(c) && DigitValue(c) == d && (c == '0' <==> d == 0)
  {
    ('0' as int + d) as char
  }

  function DigitValue(c: char): (d: nat)
    requires IsDigit(c)
    ensures d < 10
  {
    c as int - '0' as int
  }

  /** The decimal text of a non-negative integer. */
  function DecimalString(n: nat): (s: string)
    ensures |s| > 0 && AllDigits(s)
    ensures n > 0 ==> s[0] != '0'
    decreases n
  {
    if n < 10 then [DigitChar(n)] else DecimalString(n / 10) + [DigitChar(n % 10)]
  }

  /** The value of a string of decimal digits (leading zeros allowed). */
  function ParseDecimal(s: string): nat
    requires AllDigits(s)
    decreases |s|
  {
    if s == [] then 0 else ParseDecimal(s[..|s| - 1]) * 10 + DigitValue(s[|s| - 1])
  }

  /** `padStart(2, '0')`. */
  function Pad2(s: string): (p: string)
    ensures |p| == if |s| < 2 then 2 else |s|
    ensures p[|p| - |s|..] == s
    ensures forall k :: 0 <= k < |p| - |s| ==> p[k] == '0'
  {
    if |s| < 2 then seq(2 - |s|, _ => '0') + s else s
  }

  /** Whole minutes left, `Math.floor(diffMs / 60000)`. */
  function Minutes(diffMs: nat): (m: nat)
    ensures m * MsPerMinute <= diffMs < (m + 1) * MsPerMinute
  {
    diffMs / MsPerMinute
  }

  /** Whole seconds past the minutes, `Math.floor((diffMs % 60000) / 1000)`. */
  function Seconds(diffMs: nat): (s: nat)
    ensures s < 60
  {
    diffMs % MsPerMinute / MsPerSecond
  }

  /** The text the countdown shows for a given time to start. */
  function FormatCountdown(diffMs: int): (t: string)
    ensures diffMs <= 0 <==> t == StartingNow
  {
    if diffMs <= 0 then StartingNow
    else
      var t := DecimalString(Minutes(diffMs)) + ":" + Pad2(DecimalString(Seconds(diffMs)));
      assert t[0] != 'S';
      t
  }

  /** The index of the first c in t. */
  function IndexOf(t: string, c: char): (r: Option<nat>)
    ensures r.None? <==> c !in t
    ensures r.Some? ==> r.value < |t| && t[r.value] == c && c !in t[..r.value]
    decreases |t|
  {
    if t == [] then None
    else if t[0] == c then Some(0)
    else match IndexOf(t[1..], c)
      case None => None
      case Some(k) =>
        assert t[..k + 1] == [t[0]] + t[1..][..k];
        Some(k + 1)
  }

  /**
   * Reads a countdown back: canonical minutes, a colon, and exactly two
   * digits of seconds.
   */
  function ReadCountdown(t: string): Option<(nat, nat)>
  {
    match IndexOf(t, ':')
    case None => None
    case Some(k) =>
      var mins, secs := t[..k], t[k + 1..];
      if Canonical(mins) && |secs| == 2 && AllDigits(secs)
      then Some((ParseDecimal(mins), ParseDecimal(secs)))
      else None
  }

  lemma {:induction false} ParseDecimalString(n: nat)
    ensures ParseDecimal(DecimalString(n)) == n
    decreases n
  {
    if n >= 10 {
      var s := DecimalString(n);
      assert s[..|s| - 1] == DecimalString(n / 10);
      ParseDecimalString(n / 10);
    }
  }

  lemma CanonicalDecimal(n: nat)
    ensures Canonical(DecimalString(n))
  {
    if n < 10 {
      assert |DecimalString(n)| == 1;
    }
  }

  lemma ParsePaddedSeconds(s: nat)
    requires s < 60
    ensures |Pad2(DecimalString(s))| == 2 && AllDigits(Pad2(DecimalString(s)))
    ensures ParseDecimal(Pad2(DecimalString(s))) == s
  {
    var p := Pad2(DecimalString(s));
    if s < 10 {
      assert DecimalString(s) == [DigitChar(s)];
      assert p == ['0', DigitChar(s)];
      assert p[..1] == ['0'];
      assert [] == p[..1][..0];
    } else {
      assert DecimalString(s) == DecimalString(s / 10) + [DigitChar(s % 10)];
      assert DecimalString(s / 10) == [DigitChar(s / 10)];
      assert p == [DigitChar(s / 10), DigitChar(s % 10)];
      assert p[..1] == [DigitChar(s / 10)];
      assert [] == p[..1][..0];
      assert ParseDecimal(p[..1]) == s / 10;
      assert ParseDecimal(p) == (s / 10) * 10 + s % 10;
    }
  }

  lemma {:induction false} IndexOfPastDigits(a: string, b: string)
    requires AllDigits(a)
    ensures IndexOf(a + ":" + b, ':') == Some(|a|)
    decreases |a|
  {
    if a != [] {
      assert (a + ":" + b)[1..] == a[1..] + ":" + b;
      IndexOfPastDigits(a[1..], b);
    }
  }

  /** minutes · 60000 + seconds · 1000 ≤ diffMs < minutes · 60000 + seconds · 1000 + 1000. */
  lemma MinutesSecondsBound(diffMs: nat)
    ensures Minutes(diffMs) * MsPerMinute + Seconds(diffMs) * MsPerSecond <= diffMs
    ensures diffMs < Minutes(diffMs) * MsPerMinute + Seconds(diffMs) * MsPerSecond + MsPerSecond
  {
    var r := diffMs % MsPerMinute;
    assert diffMs == Minutes(diffMs) * MsPerMinute + r;
    assert Seconds(diffMs) * MsPerSecond <= r < Seconds(diffMs) * MsPerSecond + MsPerSecond;
  }

  /**
   * A positive countdown reads back as `M:SS` whose minutes and seconds
   * pin down the remaining time to within one second.
   */
  lemma CountdownReadsBack(diffMs: int)
    requires diffMs > 0
    ensures ReadCountdown(FormatCountdown(diffMs)).Some?
    ensures var (m, s) := ReadCountdown(FormatCountdown(diffMs)).value;
      s < 60 && m * MsPerMinute + s * MsPerSecond <= diffMs < m * MsPerMinute + s * MsPerSecond + MsPerSecond
  {
    var m, s := Minutes(diffMs), Seconds(diffMs);
    var mins, secs := DecimalString(m), Pad2(DecimalString(s));
    var t := FormatCountdown(diffMs);
    assert t == mins + ":" + secs;
    IndexOfPastDigits(mins, secs);
    assert t[..|mins|] == mins && t[|mins| + 1..] == secs;
    CanonicalDecimal(m);
    ParseDecimalString(m);
    ParsePaddedSeconds(s);
    MinutesSecondsBound(diffMs);
  }

  lemma CountdownSamples()
    ensures FormatCountdown(0) == StartingNow && FormatCountdown(-5) == StartingNow
    ensures FormatCountdown(65000) == "1:05"
    ensures FormatCountdown(999) == "0:00"
  {
    assert DecimalString(1) == "1" && DecimalString(5) == "5" && DecimalString(0) == "0";
  }

  /** `scheduledQuizzes.find(q => q.id === id)`. */
  function FindQuiz(quizzes: seq<Quiz>, id: string): (r: Option<Quiz>)
    ensures r.None? <==> forall k :: 0 <= k < |quizzes| ==> quizzes[k].id != id
    ensures r.Some? ==> r.value.id == id && exists i :: (0 <= i < |quizzes| && quizzes[i] == r.value
      && forall k :: 0 <= k < i ==> quizzes[k].id != id)
    decreases |quizzes|
  {
    if quizzes == [] then None
    else if quizzes[0].id == id then
      assert quizzes[0] == quizzes[0];
      Some(quizzes[0])
    else
      var r := FindQuiz(quizzes[1..], id);
      if r.Some? then
        var i :| 0 <= i < |quizzes[1..]| && quizzes[1..][i] == r.value && r.value.id == id
          && forall k :: 0 <= k < i ==> quizzes[1..][k].id != id;
        assert quizzes[i + 1] == r.value;
        assert forall k :: 0 <= k < i + 1 ==> quizzes[k].id != id by {
          forall k | 0 <= k < i + 1 ensures quizzes[k].id != id {
            if k > 0 { assert quizzes[k] == quizzes[1..][k - 1]; }
          }
        }
        r
      else
        assert forall k :: 1 <= k < |quizzes| ==> quizzes[k] == quizzes[1..][k - 1];
        r
  }

  class WaitingRoomScreen {
    const quizId: string
    const store: QuizSession.QuizStore
    var timeRemaining: string
    var isReady: bool
    /** Whether the once-a-second interval is registered. */
    var intervalActive: bool
    /** The route the screen replaced itself with, if any. */
    var navigatedTo: Option<string>

    constructor (quizId: string, store: QuizSession.QuizStore)
      ensures this.quizId == quizId && this.store == store
      ensures timeRemaining == "" && !isReady && !intervalActive && navigatedTo == None
    {
      this.quizId := quizId;
      this.store := store;
      timeRemaining := "";
      isReady := false;
      intervalActive := false;
      navigatedTo := None;
    }

    /** The quiz the screen shows; None shows "Quiz not found". */
    function CurrentQuiz(): Option<Quiz>
      reads store
    {
      FindQuiz(store.scheduledQuizzes, quizId)
    }

    /** The countdown effect: the interval runs only when the quiz exists. */
    method StartCountdown()
      modifies this`intervalActive
      ensures intervalActive <==> CurrentQuiz().Some?
    {
      intervalActive := CurrentQuiz().Some?;
    }

    /**
     * One interval callback, diffMs being the scheduled start minus now.
     * At or past the start it stops the interval and moves to the quiz.
     */
    method Tick(diffMs: int)
      modifies this`timeRemaining, this`intervalActive, this`navigatedTo
      ensures !old(intervalActive) ==>
        timeRemaining == old(timeRemaining) && !intervalActive && navigatedTo == old(navigatedTo)
      ensures old(intervalActive) ==> timeRemaining == FormatCountdown(diffMs)
      ensures old(intervalActive) ==> (intervalActive <==> diffMs > 0)
      ensures old(intervalActive) ==>
        navigatedTo == if diffMs <= 0 then Some("/quiz/" + quizId) else old(navigatedTo)
    {
      if !intervalActive {
        return;
      }
      if diffMs <= 0 {
        intervalActive := false;
        timeRemaining := StartingNow;
        navigatedTo := Some("/quiz/" + quizId);
        return;
      }
      timeRemaining := FormatCountdown(diffMs);
    }

    /** Marks the player ready in the quiz store and, on success, locally. */
    method HandleReady()
      modifies this`isReady, store`isReady
      ensures CurrentQuiz().None? ==> isReady == old(isReady) && store.isReady == old(store.isReady)
      ensures CurrentQuiz().Some? ==> isReady && store.isReady
    {
      var quiz := CurrentQuiz();
      if quiz.None? {
        return;
      }
      var success := store.MarkAsReady(quiz.value.id);
      if success {
        isReady := true;
      }
    }
  }
}
