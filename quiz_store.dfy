/**
 * The server-driven quiz session store (store/quiz-store.ts). Its setters are
 * what the message dispatcher calls; the selection and submission actions are
 * called by the quiz screen. Each action names in its `modifies` clause exactly
 * the fields it writes, so every other field is unchanged. Wall-clock values
 * (`new Date()`) are passed in as `now`.
 */
module QuizSession {
  import opened Wrappers
  import opened QuizTypes

  /** The quiz record built from a quiz-start message. */
  function QuizFromStart(m: QuizStartMessage, now: string): (q: Quiz)
    ensures q.id == m.quizId && q.title == m.title && q.status == InProgress
    ensures q.questionCount == m.totalQuestions && q.scheduledTime == m.startTime
    ensures q.description == "" && q.createdAt == now && q.updatedAt == now
  {
    Quiz(m.quizId, m.title, "", m.startTime, InProgress, m.totalQuestions, now, now)
  }

  /** The record a result update starts from when the user has none yet. */
  function DefaultResult(m: ResultUpdateMessage, now: string): QuizResult
  {
    QuizResult(
      id := "0", userId := m.userId, quizId := m.quizId, username := "", profilePicture := "",
      score := 0, correctAnswers := 0, totalQuestions := 0, rank := m.rank,
      isWinner := false, prizeFund := 0, completedAt := now, createdAt := now)
  }

  /**
   * The user's result after an update: the four counters come from the server,
   * every other field is kept from the existing record, or defaulted.
   */
  function MergeResult(existing: Option<QuizResult>, m: ResultUpdateMessage, now: string): (r: QuizResult)
    ensures r.score == m.score && r.correctAnswers == m.correctAnswers
    ensures r.totalQuestions == m.totalQuestions && r.rank == m.rank
    ensures existing.Some? ==>
      r == existing.value.(score := m.score, correctAnswers := m.correctAnswers,
                           totalQuestions := m.totalQuestions, rank := m.rank)
    ensures existing.None? ==> r.id == "0" && r.userId == m.userId && r.quizId == m.quizId && !r.isWinner
    ensures existing.None? ==> r.username == "" && r.profilePicture == "" && r.prizeFund == 0
    ensures existing.None? ==> r.completedAt == now && r.createdAt == now
  {
    var base := if existing.Some? then existing.value else DefaultResult(m, now);
    base.(score := m.score, correctAnswers := m.correctAnswers, totalQuestions := m.totalQuestions, rank := m.rank)
  }

  /** A repeated update (a duplicate delivery) leaves the result as the first one made it. */
  lemma MergeResultIdempotent(existing: Option<QuizResult>, m: ResultUpdateMessage, now: string, later: string)
    ensures MergeResult(Some(MergeResult(existing, m, now)), m, later) == MergeResult(existing, m, now)
  {
  }

  /** Of two updates in a row, the second decides the counters. */
  lemma MergeResultLastWins(existing: Option<QuizResult>, m1: ResultUpdateMessage, m2: ResultUpdateMessage, now: string)
    ensures var r := MergeResult(Some(MergeResult(existing, m1, now)), m2, now);
      r.score == m2.score && r.correctAnswers == m2.correctAnswers
      && r.totalQuestions == m2.totalQuestions && r.rank == m2.rank
  {
  }

  /** All fields of the store at one moment. */
  datatype QuizView = QuizView(
    scheduledQuizzes: seq<Quiz>,
    activeQuiz: Option<Quiz>,
    currentQuestion: Option<QuestionStartMessage>,
    questionResults: Option<QuestionEndMessage>,
    quizResults: seq<QuizResult>,
    userResult: Option<QuizResult>,
    selectedAnswer: Option<int>,
    isAnswerSubmitted: bool,
    isEliminated: bool,
    isReady: bool,
    isLoading: bool,
    error: Option<string>)

  class QuizStore {
    var scheduledQuizzes: seq<Quiz>
    var activeQuiz: Option<Quiz>
    var currentQuestion: Option<QuestionStartMessage>
    var questionResults: Option<QuestionEndMessage>
    var quizResults: seq<QuizResult>
    var userResult: Option<QuizResult>
    var selectedAnswer: Option<int>
    var isAnswerSubmitted: bool
    var isEliminated: bool
    var isReady: bool
    var isLoading: bool
    var error: Option<string>

    function View(): QuizView
      reads this
    {
      QuizView(scheduledQuizzes, activeQuiz, currentQuestion, questionResults, quizResults, userResult,
               selectedAnswer, isAnswerSubmitted, isEliminated, isReady, isLoading, error)
    }

    constructor ()
      ensures scheduledQuizzes == [] && activeQuiz == None && currentQuestion == None
      ensures questionResults == None && quizResults == [] && userResult == None
      ensures selectedAnswer == None && !isAnswerSubmitted && !isEliminated && !isReady
      ensures !isLoading && error == None
    {
      scheduledQuizzes := [];
      activeQuiz := None;
      currentQuestion := None;
      questionResults := None;
      quizResults := [];
      userResult := None;
      selectedAnswer := None;
      isAnswerSubmitted := false;
      isEliminated := false;
      isReady := false;
      isLoading := false;
      error := None;
    }

    /** A new question replaces the old one and clears the per-question state. */
    method SetCurrentQuestion(question: Option<QuestionStartMessage>)
      modifies this`currentQuestion, this`questionResults, this`selectedAnswer, this`isAnswerSubmitted
      ensures currentQuestion == question
      ensures questionResults == None && selectedAnswer == None && !isAnswerSubmitted
    {
      currentQuestion := question;
      questionResults := None;
      selectedAnswer := None;
      isAnswerSubmitted := false;
    }

    method SetQuestionResults(results: Option<QuestionEndMessage>)
      modifies this`questionResults
      ensures questionResults == results
    {
      questionResults := results;
    }

    /** A quiz start makes the quiz active, readmits the player and marks them ready. */
    method SetQuizStart(m: QuizStartMessage, now: string)
      modifies this`activeQuiz, this`isEliminated, this`isReady
      ensures activeQuiz == Some(QuizFromStart(m, now))
      ensures !isEliminated && isReady
    {
      activeQuiz := Some(QuizFromStart(m, now));
      isEliminated := false;
      isReady := true;
    }

    /** A quiz end applies only to the active quiz with the same id. */
    method SetQuizEnd(m: QuizEndMessage)
      modifies this`activeQuiz, this`currentQuestion, this`questionResults
      ensures !(old(activeQuiz).Some? && old(activeQuiz).value.id == m.quizId) ==>
        activeQuiz == old(activeQuiz) && currentQuestion == old(currentQuestion)
        && questionResults == old(questionResults)
      ensures old(activeQuiz).Some? && old(activeQuiz).value.id == m.quizId ==>
        activeQuiz == Some(old(activeQuiz).value.(status := Completed))
        && currentQuestion == None && questionResults == None
    {
      if activeQuiz.Some? && activeQuiz.value.id == m.quizId {
        activeQuiz := Some(activeQuiz.value.(status := Completed));
        currentQuestion := None;
        questionResults := None;
      }
    }

    /** The server's values win, including an elimination flag of false. */
    method UpdateUserResult(m: ResultUpdateMessage, now: string)
      modifies this`userResult, this`isEliminated
      ensures userResult == Some(MergeResult(old(userResult), m, now))
      ensures isEliminated == m.isEliminated
    {
      userResult := Some(MergeResult(userResult, m, now));
      isEliminated := m.isEliminated;
    }

    method SelectAnswer(optionId: int)
      modifies this`selectedAnswer
      ensures selectedAnswer == Some(optionId)
    {
      selectedAnswer := Some(optionId);
    }

    /**
     * Fails only when nothing is selected. There is no per-question guard: a
     * second call after a successful one succeeds again.
     */
    method SubmitAnswer(quizId: string, questionId: string) returns (ok: bool)
      modifies this`isAnswerSubmitted
      ensures ok <==> selectedAnswer.Some?
      ensures isAnswerSubmitted == (old(isAnswerSubmitted) || ok)
    {
      if selectedAnswer == None {
        return false;
      }
      isAnswerSubmitted := true;
      return true;
    }

    method MarkAsReady(quizId: string) returns (ok: bool)
      modifies this`isReady
      ensures ok && isReady
    {
      isReady := true;
      return true;
    }

    /** Clears the per-question state and the player flags; quizzes and results stay. */
    method ResetQuizState()
      modifies this`currentQuestion, this`questionResults, this`selectedAnswer, this`isAnswerSubmitted,
               this`isEliminated, this`isReady
      ensures currentQuestion == None && questionResults == None && selectedAnswer == None
      ensures !isAnswerSubmitted && !isEliminated && !isReady
    {
      currentQuestion := None;
      questionResults := None;
      selectedAnswer := None;
      isAnswerSubmitted := false;
      isEliminated := false;
      isReady := false;
    }

    method ClearError()
      modifies this`error
      ensures error == None
    {
      error := None;
    }
  }
}
