/** The records of the server-driven quiz (types/quiz.ts) and its socket messages. */
module QuizTypes {
  datatype QuizStatus = Scheduled | InProgress | Completed

  datatype Quiz = Quiz(
    id: string,
    title: string,
    description: string,
    scheduledTime: string,
    status: QuizStatus,
    questionCount: int,
    createdAt: string,
    updatedAt: string)

  datatype QuizResult = QuizResult(
    id: string,
    userId: string,
    quizId: string,
    username: string,
    profilePicture: string,
    score: int,
    correctAnswers: int,
    totalQuestions: int,
    rank: int,
    isWinner: bool,
    prizeFund: int,
    completedAt: string,
    createdAt: string)

  datatype QuestionOption = QuestionOption(id: int, text: string)

  datatype QuizStartMessage = QuizStartMessage(
    quizId: string,
    title: string,
    totalQuestions: int,
    prizeFund: int,
    startTime: string)

  datatype QuizEndMessage = QuizEndMessage(
    quizId: string,
    totalPlayers: int,
    winnersCount: int,
    prizePerWinner: int)

  datatype QuestionStartMessage = QuestionStartMessage(
    quizId: string,
    questionId: string,
    questionNumber: int,
    text: string,
    options: seq<QuestionOption>,
    timeLimitSec: int,
    pointValue: int,
    startTime: string)

  datatype QuestionStats = QuestionStats(
    totalAnswers: int,
    optionDistribution: seq<int>,
    correctPercentage: int,
    averageResponseTimeMs: int)

  datatype QuestionEndMessage = QuestionEndMessage(
    quizId: string,
    questionId: string,
    questionNumber: int,
    correctOption: int,
    stats: QuestionStats)

  datatype ResultUpdateMessage = ResultUpdateMessage(
    quizId: string,
    userId: string,
    score: int,
    correctAnswers: int,
    totalQuestions: int,
    rank: int,
    totalPlayers: int,
    isEliminated: bool)

  /** Client-to-server payloads. */
  datatype OutboundData =
    | UserAnswer(quizId: string, questionId: string, selectedOption: int, timestamp: int)
    | UserReady(quizId: string)
}
