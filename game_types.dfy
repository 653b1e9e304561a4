/**
 * The records of the local game (types/game.ts): questions, players, the
 * game-state record, the status enumeration and the messages exchanged with
 * the room socket.
 */
module GameTypes {
  import opened Wrappers

  datatype Difficulty = Easy | Medium | Hard

  datatype Question = Question(
    id: string,
    text: string,
    options: seq<string>,
    correctAnswer: int,
    category: string,
    difficulty: Difficulty,
    points: nat,
    timeLimit: nat)

  datatype Player = Player(
    id: string,
    name: string,
    avatar: string,
    score: int,
    correctAnswers: int,
    totalAnswered: int,
    isActive: bool,
    isOnline: bool)

  datatype Status = Idle | Waiting | Countdown | Playing | Reviewing | Results

  /** One entry of `answeredQuestions`. */
  datatype AnswerRecord = AnswerRecord(
    questionId: string,
    selectedAnswer: int,
    isCorrect: bool,
    timeSpent: int)

  datatype GameState = GameState(
    status: Status,
    currentQuestionIndex: nat,
    selectedAnswer: Option<int>,
    timeRemaining: int,
    score: int,
    streak: nat,
    isEliminated: bool,
    totalPlayers: int,
    activePlayers: int,
    prizePool: int,
    answeredQuestions: seq<AnswerRecord>)

  /** The state the game store starts in and returns to on reset. */
  const InitialGameState := GameState(
    status := Idle,
    currentQuestionIndex := 0,
    selectedAnswer := None,
    timeRemaining := 0,
    score := 0,
    streak := 0,
    isEliminated := false,
    totalPlayers := 0,
    activePlayers := 0,
    prizePool := 1000,
    answeredQuestions := [])

  /**
   * The room socket's messages, one constructor per payload shape. Both
   * `JoinAsPlayer` and `JoinRoom` travel with the wire type "join".
   */
  datatype GameMessage =
    | JoinAsPlayer(player: Player)
    | JoinRoom(roomId: string)
    | Leave(roomId: string)
    | Answer(questionIndex: nat, answerIndex: int, isCorrect: bool, isEliminated: bool)
    | NextQuestion(questionIndex: nat)
    | GameStart(questions: nat, prizePool: int)
    | GameEnd(activePlayers: int, prizePerPlayer: int)
    | PlayerUpdate(players: seq<Player>)
}
