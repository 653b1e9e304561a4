/**
 * The local game engine (store/game-store.ts): a store holding the game state
 * record and the question list, changed in place by its actions. Scoring is
 * delegated to `Scoring.Evaluate`. The store notifies the room socket store
 * (`Sockets.SocketStore`), which it receives at construction. Timers are the
 * caller's: the one-second tick calls `UpdateTimer`, and the two-second delay
 * after an accepted answer ends in a call of `NextQuestion`.
 */
module Game {
  import opened Wrappers
  import opened GameTypes
  import opened Scoring
  import opened Sockets

  /** The prize share announced at the end: floor(prizePool / activePlayers), or 0 with nobody left. */
  function PrizePerPlayer(prizePool: int, activePlayers: int): (r: int)
    ensures activePlayers <= 0 ==> r == 0
    ensures activePlayers > 0 ==> r * activePlayers <= prizePool < (r + 1) * activePlayers
  {
    if activePlayers > 0 then prizePool / activePlayers else 0
  }

  /** The state after an accepted answer to `q` (lines 101-138 of store/game-store.ts). */
  function AfterAnswer(g: GameState, q: Question, answerIndex: int): (g': GameState)
    requires q.timeLimit > 0
    ensures g'.status == Reviewing && g'.selectedAnswer == Some(answerIndex)
    ensures g'.score == g.score +
      (if answerIndex == q.correctAnswer then FinalPoints(q.points + TimeBonus(g.timeRemaining, q.timeLimit), g.streak + 1) else 0)
    ensures g.score <= g'.score
    ensures 0 <= g.timeRemaining <= q.timeLimit ==> g'.score <= g.score + 2 * (q.points + MaxTimeBonus)
    ensures answerIndex != q.correctAnswer ==> g'.score == g.score
    ensures g'.streak == if answerIndex == q.correctAnswer then g.streak + 1 else 0
    ensures g'.isEliminated <==> g.isEliminated || answerIndex != q.correctAnswer
    ensures g'.activePlayers == if answerIndex == q.correctAnswer then g.activePlayers else g.activePlayers - 1
    ensures g'.answeredQuestions == g.answeredQuestions
      + [AnswerRecord(q.id, answerIndex, answerIndex == q.correctAnswer, q.timeLimit - g.timeRemaining)]
    ensures g'.currentQuestionIndex == g.currentQuestionIndex && g'.timeRemaining == g.timeRemaining
    ensures g'.totalPlayers == g.totalPlayers && g'.prizePool == g.prizePool
  {
    var o := Evaluate(q, g.timeRemaining, g.streak, answerIndex);
    g.(status := Reviewing,
       selectedAnswer := Some(answerIndex),
       score := g.score + o.finalPoints,
       streak := o.newStreak,
       isEliminated := g.isEliminated || o.eliminated,
       activePlayers := if o.eliminated then g.activePlayers - 1 else g.activePlayers,
       answeredQuestions := g.answeredQuestions + [AnswerRecord(q.id, answerIndex, o.isCorrect, o.timeSpent)])
  }

  /** The fixtures' questions all have a positive time limit. */
  ghost predicate WellFormedQuestions(qs: seq<Question>)
  {
    forall i :: 0 <= i < |qs| ==> qs[i].timeLimit > 0
  }

  /**
   * `at[k]` is the index of the question that `records[k]` answers. The
   * answered questions are distinct questions of the list, in the order they
   * were played, none after the current one `index`, and the current one only
   * once its answer is selected.
   */
  ghost predicate AnswerLog(at: seq<nat>, records: seq<AnswerRecord>, qs: seq<Question>, index: nat, selected: bool)
  {
    && |at| == |records|
    && (forall k :: 0 <= k < |at| ==> at[k] < |qs| && records[k].questionId == qs[at[k]].id)
    && (forall j, k :: 0 <= j < k < |at| ==> at[j] < at[k])
    && (forall k :: 0 <= k < |at| ==> at[k] <= index)
    && (!selected ==> forall k :: 0 <= k < |at| ==> at[k] < index)
  }

  /** Recording an answer to the current, not yet answered, question keeps the log consistent. */
  lemma AnswerLogAppend(at: seq<nat>, records: seq<AnswerRecord>, qs: seq<Question>, index: nat, r: AnswerRecord)
    requires AnswerLog(at, records, qs, index, false)
    requires index < |qs| && r.questionId == qs[index].id
    ensures AnswerLog(at + [index], records + [r], qs, index, true)
  {
  }

  class GameStore {
    var gameState: GameState
    var questions: seq<Question>
    /** For each entry of `answeredQuestions`, the index of the question it answers. */
    ghost var answeredAt: seq<nat>
    /** The room socket store that game events are reported to. */
    const sockets: SocketStore

    ghost predicate Valid()
      reads this
    {
      && WellFormedQuestions(questions)
      && (questions != [] ==> gameState.currentQuestionIndex < |questions|)
      && (gameState.status == Playing || gameState.status == Reviewing ==> questions != [])
      && (gameState.status == Playing ==> gameState.timeRemaining >= 0)
      && gameState.score >= 0
      && AnswerLog(answeredAt, gameState.answeredQuestions, questions,
                   gameState.currentQuestionIndex, gameState.selectedAnswer.Some?)
    }

    /**
     * The guard of `selectAnswer`: playing, nothing selected yet, not
     * eliminated. In a valid store an accepted answer always has a current
     * question with time on the clock not below zero.
     */
    predicate AcceptsAnswer()
      reads this
      ensures AcceptsAnswer() && Valid() ==>
        gameState.currentQuestionIndex < |questions| && gameState.timeRemaining >= 0
    {
      gameState.status == Playing && gameState.selectedAnswer == None && !gameState.isEliminated
    }

    function CurrentQuestion(): Question
      reads this
      requires gameState.currentQuestionIndex < |questions|
    {
      questions[gameState.currentQuestionIndex]
    }

    constructor (sockets: SocketStore)
      ensures Valid() && this.sockets == sockets
      ensures gameState == InitialGameState && questions == []
    {
      this.sockets := sockets;
      gameState := InitialGameState;
      questions := [];
      answeredAt := [];
    }

    /** Loads a question list (chosen by the caller) and enters the countdown. */
    method InitGame(qs: seq<Question>, prizePool: int := 1000)
      requires WellFormedQuestions(qs)
      modifies this, sockets.socket
      ensures sockets.CloseStateKept()
      ensures Valid() && questions == qs
      ensures gameState == InitialGameState.(status := Countdown, prizePool := prizePool, totalPlayers := 1, activePlayers := 1)
      ensures sockets.Outbox() == old(sockets.Outbox())
        + (if old(sockets.CanSend()) then [GameStart(|qs|, prizePool)] else [])
    {
      questions := qs;
      gameState := InitialGameState.(status := Countdown, prizePool := prizePool, totalPlayers := 1, activePlayers := 1);
      answeredAt := [];
      if sockets.isConnected {
        sockets.SendMessage(GameStart(|qs|, prizePool));
      }
    }

    /** Starts playing with the first question's time; does nothing without questions. */
    method StartGame()
      requires Valid()
      modifies this, sockets.socket
      ensures sockets.CloseStateKept()
      ensures Valid() && questions == old(questions)
      ensures old(questions) == [] ==> gameState == old(gameState) && sockets.Outbox() == old(sockets.Outbox())
      ensures old(questions) != [] ==>
        && gameState == old(gameState).(status := Playing, timeRemaining := questions[0].timeLimit)
        && sockets.Outbox() == old(sockets.Outbox()) + (if old(sockets.CanSend()) then [GameMessage.NextQuestion(0)] else [])
    {
      if |questions| == 0 {
        return;
      }
      gameState := gameState.(status := Playing, timeRemaining := questions[0].timeLimit);
      if sockets.isConnected {
        sockets.SendMessage(GameMessage.NextQuestion(0));
      }
    }

    /**
     * Scores an answer to the current question. Ignored unless playing, no
     * answer has been selected yet and the player is not eliminated.
     */
    method SelectAnswer(answerIndex: int)
      requires Valid()
      modifies this, sockets.socket
      ensures sockets.CloseStateKept()
      ensures Valid() && questions == old(questions)
      ensures !old(AcceptsAnswer()) ==> gameState == old(gameState) && sockets.Outbox() == old(sockets.Outbox())
      ensures old(AcceptsAnswer()) ==>
        && old(gameState.currentQuestionIndex) < |questions|
        && gameState == AfterAnswer(old(gameState), old(CurrentQuestion()), answerIndex)
        && sockets.Outbox() == old(sockets.Outbox())
           + (if old(sockets.CanSend())
              then [Answer(old(gameState.currentQuestionIndex), answerIndex,
                           answerIndex == old(CurrentQuestion()).correctAnswer,
                           answerIndex != old(CurrentQuestion()).correctAnswer)]
              else [])
      ensures old(gameState.isEliminated) ==> gameState.isEliminated
      ensures old(gameState.score) <= gameState.score
    {
      if gameState.status != Playing || gameState.selectedAnswer != None || gameState.isEliminated {
        return;
      }
      var index := gameState.currentQuestionIndex;
      var q := questions[index];
      var isCorrect := answerIndex == q.correctAnswer;
      AnswerLogAppend(answeredAt, gameState.answeredQuestions, questions, index,
                      AnswerRecord(q.id, answerIndex, isCorrect, q.timeLimit - gameState.timeRemaining));
      gameState := AfterAnswer(gameState, q, answerIndex);
      answeredAt := answeredAt + [index];
      if sockets.isConnected {
        sockets.SendMessage(Answer(index, answerIndex, isCorrect, !isCorrect));
      }
    }

    /**
     * Moves to the next question, or to the results when the list is exhausted
     * or no player is left.
     */
    method NextQuestion()
      requires Valid()
      modifies this, sockets.socket
      ensures sockets.CloseStateKept()
      ensures Valid() && questions == old(questions)
      ensures var next := old(gameState.currentQuestionIndex) + 1;
        if next >= |questions| || old(gameState.activePlayers) == 0 then
          && gameState == old(gameState).(status := Results)
          && sockets.Outbox() == old(sockets.Outbox())
             + (if old(sockets.CanSend())
                then [GameEnd(old(gameState.activePlayers), PrizePerPlayer(old(gameState.prizePool), old(gameState.activePlayers)))]
                else [])
        else
          && gameState == old(gameState).(status := Playing, currentQuestionIndex := next,
                                           selectedAnswer := None, timeRemaining := questions[next].timeLimit)
          && sockets.Outbox() == old(sockets.Outbox()) + (if old(sockets.CanSend()) then [GameMessage.NextQuestion(next)] else [])
    {
      var nextIndex := gameState.currentQuestionIndex + 1;
      if nextIndex >= |questions| || gameState.activePlayers == 0 {
        gameState := gameState.(status := Results);
        if sockets.isConnected {
          sockets.SendMessage(GameEnd(gameState.activePlayers, PrizePerPlayer(gameState.prizePool, gameState.activePlayers)));
        }
        return;
      }
      gameState := gameState.(status := Playing, currentQuestionIndex := nextIndex,
                              selectedAnswer := None, timeRemaining := questions[nextIndex].timeLimit);
      if sockets.isConnected {
        sockets.SendMessage(GameMessage.NextQuestion(nextIndex));
      }
    }

    /**
     * The one-second tick: counts down while playing, and when the time is up
     * answers with the invalid index -1. An eliminated player's time-out is
     * refused by `SelectAnswer`, so the state then stays as it is.
     */
    method UpdateTimer()
      requires Valid()
      modifies this, sockets.socket
      ensures sockets.CloseStateKept()
      ensures Valid() && questions == old(questions)
      ensures old(gameState.status) != Playing ==> gameState == old(gameState) && sockets.Outbox() == old(sockets.Outbox())
      ensures old(gameState.status) == Playing && old(gameState.timeRemaining) > 0 ==>
        gameState == old(gameState).(timeRemaining := old(gameState.timeRemaining) - 1)
        && sockets.Outbox() == old(sockets.Outbox())
      ensures old(gameState.status) == Playing && old(gameState.timeRemaining) <= 0 ==>
        if old(AcceptsAnswer()) then
          && old(gameState.currentQuestionIndex) < |questions|
          && gameState == AfterAnswer(old(gameState), old(CurrentQuestion()), -1)
          && sockets.Outbox() == old(sockets.Outbox())
             + (if old(sockets.CanSend())
                then [Answer(old(gameState.currentQuestionIndex), -1,
                             -1 == old(CurrentQuestion()).correctAnswer,
                             -1 != old(CurrentQuestion()).correctAnswer)]
                else [])
        else
          gameState == old(gameState) && sockets.Outbox() == old(sockets.Outbox())
    {
      if gameState.status != Playing {
        return;
      }
      if gameState.timeRemaining <= 0 {
        SelectAnswer(-1);
        return;
      }
      gameState := gameState.(timeRemaining := gameState.timeRemaining - 1);
    }

    method EndGame()
      requires Valid()
      modifies this
      ensures Valid() && questions == old(questions)
      ensures gameState == old(gameState).(status := Results)
    {
      gameState := gameState.(status := Results);
    }

    method ResetGame()
      modifies this
      ensures Valid()
      ensures gameState == InitialGameState && questions == []
    {
      gameState := InitialGameState;
      questions := [];
      answeredAt := [];
    }

    /** Spectator mode: the flag is overwritten as given. */
    method SetEliminated(value: bool)
      requires Valid()
      modifies this
      ensures Valid() && questions == old(questions)
      ensures gameState == old(gameState).(isEliminated := value)
    {
      gameState := gameState.(isEliminated := value);
    }

    method UpdateActivePlayers(count: int)
      requires Valid()
      modifies this
      ensures Valid() && questions == old(questions)
      ensures gameState == old(gameState).(activePlayers := count)
    {
      gameState := gameState.(activePlayers := count);
    }
  }
}
