# HQ Trivia client: a Dafny model of the game engine

This project models the client side of a live trivia app. Players join a
scheduled quiz, answer timed multiple-choice questions, and are eliminated on
their first wrong answer. The survivors share a prize pool. The model covers
these parts of the client:

- **Local game store** (`store/game-store.ts`). It runs a session through
  idle → countdown → playing ⇄ reviewing → results. It scores each answer with
  a time bonus and a streak multiplier, and it reports every step to the room
  socket.
  - `scoring.dfy`: the scoring arithmetic.
  - `game_store.dfy`: the store itself.
- **Room socket store** (`store/socket-store.ts`). It keeps the room
  connection, the player list and the current room. Modelled in
  `socket_store.dfy`.
- **Quiz session store** (`store/quiz-store.ts`). It holds the
  server-authoritative quiz state: the active quiz, the current question, the
  results, the user's result and the answer/ready flags. Modelled in
  `quiz_store.dfy`.
- **Connection store** (`store/websocket-store.ts`). It connects to the quiz
  server with a ticket and reconnects after an abnormal close with capped
  exponential backoff. It routes the seven server message types to the quiz
  session store or to the authentication store. Modelled in
  `websocket_store.dfy`.
- **Lifetime statistics store** (`store/user-store.ts`). Modelled in
  `user_store.dfy`.
- **Auth form validators** (`app/auth.tsx`). Modelled in `auth_form.dfy`.
- **Waiting-room countdown, quiz lookup and ready button**
  (`app/quiz/waiting-room.tsx`). Modelled in `waiting_room.dfy`.

`game_types.dfy` and `quiz_types.dfy` hold the records the stores exchange.
`transport.dfy` models a socket. It has a URL, a log of the messages sent on
it, and whether and with which code it was closed. `wrappers.dfy` holds
`Option`.

Each store is a class whose fields are the store's state. Each action is a
method that updates the fields in place. Its `modifies` clause names what it
may write, and its `ensures` clauses give the whole new state.

Outside effects become parameters, results or event methods:

- The socket callbacks (`onopen`, `onmessage`, `onerror`, `onclose`) are event
  methods that the environment calls.
- Wall-clock values (`new Date()`) are passed in as `now`.
- The authentication store's ticket is a parameter of `Connect`, and so is
  the message of an error thrown while creating the socket.
- The random player id is a parameter of `OnOpen`.
- A timer that the source starts with `setTimeout` is returned as its delay,
  for example from `HandleReconnect`. The caller makes the follow-up call.
- The waiting room's time to start (`scheduled_time - now`) is the parameter
  of `Tick`.

`Sockets.SocketStore.Outbox()` and `Transport.Socket.sent` record what was
sent. The actions that report to the room state exactly which message they
append, and state that they append it only when the socket is connected.

Scores use exact integers:

- time bonus = ⌊timeRemaining · 50 / timeLimit⌋, and never below 0;
- multiplier = min(2, 1 + 0.1 · newStreak), held as tenths (10 … 20);
- final points = ⌊earned · multiplier⌋.

Behaviour of the code worth noting:

- The streak multiplier uses the streak *after* the correct answer is counted.
  So the first correct answer is already multiplied by 1.1
  (`ScoringFacts.FirstCorrectAnswerIsMultiplied`), and a full-time answer to
  a 200-point question on a third streak earns 325 points
  (`ScoringFacts.FullTimeAnswerOnThirdStreak`).
- When no ticket is obtained, `connect` goes through the same reconnect
  path as any other failure (`store/websocket-store.ts:48-50, 98-107`). So a
  missing ticket is retried too.
- A result update sets the quiz store's `isEliminated` to the server's value.
  That value may be `false` again (`store/quiz-store.ts:287`).
- `submitAnswer` has no guard against double submission. A second call with
  an answer selected succeeds again.

The model also shows this behaviour of the code. While playing, a player who
is already eliminated gets a time-out answer of -1 from `updateTimer`.
`selectAnswer` refuses it, so while other players are still active the
state stays at `timeRemaining` 0. The postcondition of
`Game.GameStore.UpdateTimer` says so.

## Model

| member | source | states |
|---|---|---|
| Scoring.TimeBonus | store/game-store.ts:106 | the bonus is 0 once time is up, and otherwise is the floor of timeRemaining·50/timeLimit, characterised by b·timeLimit ≤ timeRemaining·50 < (b+1)·timeLimit |
| Scoring.MultiplierTenths | store/game-store.ts:113 | the streak multiplier is exactly 1 + 0.1·newStreak up to 2.0, and 2.0 from a new streak of 10 on |
| Scoring.FinalPoints | store/game-store.ts:113-114 | final points are between the earned points and twice them, and are the floor of earned·multiplier |
| Scoring.Evaluate | store/game-store.ts:101-117 | an answer is correct iff it is the correct option; a wrong answer eliminates, earns 0 and resets the streak; a correct one increments the streak; the bonus is `TimeBonus` of the time left, the points earned are points + bonus when correct and 0 otherwise, and the final points are `FinalPoints` of the points earned at the new streak, so at least points + bonus; timeSpent + timeRemaining = timeLimit; with time in range the bonus is ≤ 50 and the result ≤ 2·(points + 50) |
| ScoringFacts.FullTimeAnswerOnThirdStreak | store/game-store.ts:106-114 | a 200-point, 10-second question answered with all 10 seconds left on the third consecutive correct answer earns 325 |
| ScoringFacts.FirstCorrectAnswerIsMultiplied | store/game-store.ts:110-114 | with no streak yet, a correct answer earns ⌊(points + bonus)·1.1⌋ because the multiplier uses the incremented streak |
| ScoringFacts.StreakMultiplierSaturates | store/game-store.ts:113 | from a new streak of 10 on, final points are exactly twice the earned points |
| ScoringFacts.FinalPointsMonotoneInStreak | store/game-store.ts:113-114 | a longer streak never yields fewer final points |
| ScoringFacts.TimeBonusMonotone | store/game-store.ts:106 | more time remaining never yields a smaller bonus |
| ScoringFacts.TimeOutSentinelIsWrong | store/game-store.ts:213-218 | the time-out index -1 is always scored wrong: nothing earned, streak reset, eliminated |
| Game.PrizePerPlayer | store/game-store.ts:180-182 | the share is 0 when no player is active, and otherwise the floor of prizePool/activePlayers |
| Game.AfterAnswer | store/game-store.ts:101-138 | after an answer the state is reviewing with that answer selected; the score grows by exactly `FinalPoints(points + TimeBonus(timeRemaining, timeLimit), streak + 1)` for a correct answer and by nothing for a wrong one; the streak, the sticky elimination flag and the active-player count follow correctness; one record (question id, answer, correctness, time spent) is appended; all other fields are unchanged |
| Game.AnswerLogAppend | store/game-store.ts:128-136 | appending the record of the current question to a log that has no entry for the current question yet gives a log in which that question is answered |
| Game.GameStore.constructor | store/game-store.ts:27-45 | the store starts in the initial game state with no questions |
| Game.GameStore.InitGame | store/game-store.ts:47-71 | the store holds the new questions and the initial state in countdown, with the given prize pool (default 1000) and one total and one active player; a game-start message with the question count and prize pool is sent when connected; the room socket and its closed flag and close code are unchanged |
| Game.GameStore.StartGame | store/game-store.ts:73-95 | with no questions nothing changes; otherwise the status is playing, the clock holds the first question's limit, and "next question 0" is sent when connected; the room socket and its closed flag and close code are unchanged |
| Game.GameStore.SelectAnswer | store/game-store.ts:97-153 | outside playing, with an answer already selected, or when eliminated, nothing changes; otherwise the state is `AfterAnswer` of the current question and the answer message is sent when connected; elimination stays set and the score never drops; the room socket and its closed flag and close code are unchanged |
| Game.GameStore.NextQuestion | store/game-store.ts:160-211 | past the last question, or with no active player, the status becomes results and "game end" with the per-player prize is sent; otherwise the next question starts with a cleared selection and a full clock, and "next question" is sent; the room socket and its closed flag and close code are unchanged |
| Game.GameStore.AcceptsAnswer | store/game-store.ts:99 | an answer is accepted only while playing, with none selected and the player not eliminated; in a valid store an accepted answer always has a current question and a clock not below zero |
| Game.GameStore.UpdateTimer | store/game-store.ts:213-229 | outside playing nothing changes; with time left the clock drops by one; at zero the state is that of a -1 answer and the -1 answer message is sent when connected, if an answer is accepted; otherwise state and outbox are unchanged; the room socket and its closed flag and close code are unchanged |
| Game.GameStore.EndGame | store/game-store.ts:231-238 | only the status changes, to results |
| Game.GameStore.ResetGame | store/game-store.ts:240-245 | the initial state and an empty question list are restored |
| Game.GameStore.SetEliminated | store/game-store.ts:247-254 | only the elimination flag changes |
| Game.GameStore.UpdateActivePlayers | store/game-store.ts:256-263 | only the active-player count changes |
| Sockets.PlayersAfter | store/socket-store.ts:63-86 | a player-update message replaces the player list; every other frame leaves it as it was |
| Sockets.SocketStore.constructor | store/socket-store.ts:24-28 | no socket, not connected, no players, no room |
| Sockets.SocketStore.Connect | store/socket-store.ts:30-101 | the previous socket, if any, is closed; a fresh socket to the room server becomes current; the join name and avatar are kept for the open event |
| Sockets.SocketStore.OnOpen | store/socket-store.ts:41-61 | the store is connected and a join message with a fresh player record (score 0, active, online) is sent on the socket; the socket and its closed flag and close code are unchanged |
| Sockets.SocketStore.OnMessage | store/socket-store.ts:63-86 | the player list becomes `PlayersAfter` of the frame; nothing else changes |
| Sockets.SocketStore.OnClose | store/socket-store.ts:88-91 | only the connected flag is cleared |
| Sockets.SocketStore.Disconnect | store/socket-store.ts:103-109 | with a socket, it is closed and dropped and the store is disconnected; without one nothing changes |
| Sockets.SocketStore.SendMessage | store/socket-store.ts:111-118 | the message is appended to the socket's log exactly when a socket exists and the store is connected; the socket and its closed flag and close code are unchanged |
| Sockets.SocketStore.JoinRoom | store/socket-store.ts:120-129 | when connected, a join-room message is sent and the room is recorded; otherwise nothing changes; the socket and its closed flag and close code are unchanged |
| Sockets.SocketStore.LeaveRoom | store/socket-store.ts:131-140 | with a non-empty room id while connected, a leave message is sent and the room is cleared; otherwise nothing changes; the socket and its closed flag and close code are unchanged |
| QuizSession.QuizFromStart | store/quiz-store.ts:233-243 | the active quiz takes the start message's id, title, start time and question count, is in progress, has an empty description, and is stamped with the current time |
| QuizSession.MergeResult | store/quiz-store.ts:266-286 | the score, correct answers, question count and rank come from the update; an existing result keeps every other field; with none, a default record for the update's user and quiz is used: id "0", empty username and picture, prize fund 0, not a winner, completed and created now |
| QuizSession.MergeResultIdempotent | store/quiz-store.ts:266-286 | applying the same result update twice gives the same result as applying it once |
| QuizSession.MergeResultLastWins | store/quiz-store.ts:282-285 | of two result updates in a row, the second decides the four counters |
| QuizSession.QuizStore.constructor | store/quiz-store.ts:50-63 | every field starts empty, null or false |
| QuizSession.QuizStore.SetCurrentQuestion | store/quiz-store.ts:220-227 | the question is set and the previous results, selection and submitted flag are cleared; nothing else changes |
| QuizSession.QuizStore.SetQuestionResults | store/quiz-store.ts:229-231 | only the question results change |
| QuizSession.QuizStore.SetQuizStart | store/quiz-store.ts:233-250 | the active quiz is built from the message; the player is not eliminated and is ready |
| QuizSession.QuizStore.SetQuizEnd | store/quiz-store.ts:252-264 | only when the active quiz has the message's id is it marked completed and are the question and results cleared; otherwise nothing changes |
| QuizSession.QuizStore.UpdateUserResult | store/quiz-store.ts:266-289 | the user's result becomes `MergeResult` of the update and the elimination flag takes the server's value |
| QuizSession.QuizStore.SelectAnswer | store/quiz-store.ts:291-293 | only the selected answer changes |
| QuizSession.QuizStore.SubmitAnswer | store/quiz-store.ts:295-318 | it succeeds iff an answer is selected, and then marks the answer submitted; otherwise nothing changes |
| QuizSession.QuizStore.MarkAsReady | store/quiz-store.ts:320-331 | it succeeds and the player is ready |
| QuizSession.QuizStore.ResetQuizState | store/quiz-store.ts:333-342 | the question, results, selection and the submitted, eliminated and ready flags are cleared; quizzes and results stay |
| QuizSession.QuizStore.ClearError | store/quiz-store.ts:344-346 | only the error is cleared |
| Connection.ReconnectDelay | store/websocket-store.ts:184-187 | every reconnect delay lies between 1000 and 30000 ms |
| Connection.RouteOf | store/websocket-store.ts:142-175 | a recognised tag routes to the one branch whose tag it is, and every branch's tag is recognised |
| Connection.Decode | store/websocket-store.ts:138-175 | a decoded action comes from a present frame whose tag routes to that action's branch; a missing (unparsable) frame or an unknown tag yields no action |
| Connection.WebSocketStore.constructor | store/websocket-store.ts:30-35 | no socket, not connected or connecting, no attempts, no error |
| Connection.WebSocketStore.HandleReconnect | store/websocket-store.ts:179-204 | below 10 attempts a retry is scheduled after `ReconnectDelay(attempts)` and the counter is incremented; at 10 no retry is scheduled and the terminal error is set |
| Connection.WebSocketStore.Connect | store/websocket-store.ts:37-108 | while connected or connecting nothing changes; when the attempt fails (`ConnectFailure`) its error is recorded and the reconnect path runs, and once ten attempts are spent the terminal error is recorded instead; otherwise a socket to `/ws?ticket=…` is created and the store is connecting with no error |
| Connection.ConnectFailure | store/websocket-store.ts:46-54 | an attempt fails exactly when no non-empty ticket is obtained or creating the socket throws; a missing ticket is reported with the ticket error, before any creation error |
| Connection.WebSocketStore.OnOpen | store/websocket-store.ts:57-66 | the created socket becomes current; connected, not connecting, the attempt counter reset, no error |
| Connection.WebSocketStore.OnError | store/websocket-store.ts:77-83 | the socket error is recorded and the store is no longer connecting |
| Connection.WebSocketStore.OnClose | store/websocket-store.ts:85-97 | the socket is dropped and the store is neither connected nor connecting; a retry is scheduled only when the close code is not 1000 and fewer than 10 attempts have been made; at 10 the terminal error is recorded and no retry follows |
| Connection.WebSocketStore.Disconnect | store/websocket-store.ts:110-121 | with a socket, it is closed with code 1000, dropped, and the flags and attempt counter are reset; without one nothing changes |
| Connection.WebSocketStore.SendMessage | store/websocket-store.ts:123-134 | the envelope is appended to the socket's log exactly when a socket exists and the store is connected |
| Connection.WebSocketStore.OnMessage | store/websocket-store.ts:138-176 | each decoded message type calls exactly its quiz-store setter, and only that setter changes the quiz store; the two token messages request a refresh or a logout from the auth store; anything else changes nothing |
| ConnectionFacts.Pow2Monotone | store/websocket-store.ts:185 | 2^m ≤ 2^n when m ≤ n |
| ConnectionFacts.FirstDelays | store/websocket-store.ts:184-187 | the delays for zero to five attempts are 1000, 2000, 4000, 8000, 16000 and 30000 ms |
| ConnectionFacts.DelayCappedFromFive | store/websocket-store.ts:184-187 | from the fifth attempt on the delay is the 30000 ms cap |
| ConnectionFacts.DelayMonotone | store/websocket-store.ts:184-187 | the delay never decreases as attempts grow |
| ConnectionFacts.FullSchedule | store/websocket-store.ts:179-197 | the ten retries after a reset wait 1000, 2000, 4000, 8000, 16000 ms and then 30000 ms five times |
| ConnectionFacts.RoutesAreExact | store/websocket-store.ts:142-175 | a tag routes to a branch iff it is that branch's tag |
| ConnectionFacts.DecodeByKind | store/websocket-store.ts:142-171 | each of the five data messages with a matching payload decodes to its setter call, and the two token messages decode whatever their payload |
| UserStats.ApplyUpdates | store/user-store.ts:43-49 | every supplied field overrides the player's and every other field is kept |
| UserStats.UpdateWithNothing | store/user-store.ts:43-49 | an empty update leaves the player as it was |
| UserStats.UpdateIdempotent | store/user-store.ts:43-49 | applying an update twice is applying it once |
| UserStats.UpdatesCompose | store/user-store.ts:43-49 | two updates in a row equal one combined update in which the later fields win |
| UserStats.UserStore.constructor | store/user-store.ts:21-41 | the default player and all counters zero |
| UserStats.UserStore.UpdatePlayer | store/user-store.ts:43-50 | the player becomes `ApplyUpdates` of the supplied fields |
| UserStats.UserStore.UpdateStats | store/user-store.ts:52-67 | games played rises by one; the high score becomes the maximum of the old one and the score, keeping it non-negative; the four totals and the player's three aggregates rise by their arguments (winnings default 0); no other player field changes |
| UserStats.UserStore.ResetStats | store/user-store.ts:69-79 | every counter is zero and the default player is restored |
| AuthForm.EmailRegexMeaning | app/auth.tsx:40 | the email pattern matches iff the text has no whitespace, exactly one `@` not at the start, and after it a `.` with text on both sides |
| AuthForm.EmailError | app/auth.tsx:39-50 | an empty email gets "Email is required"; a non-empty one that fails the pattern gets "Please enter a valid email"; the message is empty iff the email is non-empty and matches |
| AuthForm.PasswordError | app/auth.tsx:53-62 | an empty password gets "Password is required", one of 1 to 5 characters "Password must be at least 6 characters"; the message is empty iff the length is at least 6 |
| AuthForm.UsernameError | app/auth.tsx:66-72 | the username is demanded only in register mode: the message is empty iff in login mode or the name is non-empty |
| AuthForm.AuthScreen.constructor | app/auth.tsx:23-36 | login mode, empty fields and messages, no store error |
| AuthForm.AuthScreen.ValidateEmail | app/auth.tsx:39-50 | the email message becomes `EmailError` of the email and the result is true iff it is empty |
| AuthForm.AuthScreen.ValidatePassword | app/auth.tsx:53-63 | the password message becomes `PasswordError` of the password and the result is true iff it is empty |
| AuthForm.AuthScreen.ValidateUsername | app/auth.tsx:66-73 | the username message becomes `UsernameError` and the result is true iff it is empty |
| AuthForm.AuthScreen.HandleSubmit | app/auth.tsx:76-102 | the store error is cleared and all three messages are written; a login (or, in register mode, a register) request with the form's fields is issued iff the email is valid, the password has at least 6 characters, and the mode is login or the username is non-empty, that is iff all three messages are empty |
| AuthForm.AuthScreen.ToggleAuthMode | app/auth.tsx:105-108 | the mode flips and the store error is cleared |
| AuthForm.DemoCredentialsPass | app/auth.tsx:207-213 | the demo email and password shown on the login screen pass their validators |
| AuthForm.SamplesRejected | app/auth.tsx:40-46 | "a@b", "a b@c.d", "@b.c" and "a@b." are rejected as invalid emails |
| WaitingRoom.DecimalString | app/quiz/waiting-room.tsx:59 | a number's text is a non-empty digit string with no leading zero for a positive number |
| WaitingRoom.ParseDecimalString | app/quiz/waiting-room.tsx:59 | reading a number's text back gives the number |
| WaitingRoom.CanonicalDecimal | app/quiz/waiting-room.tsx:59 | a number's text is canonical: no leading zero unless it is "0" |
| WaitingRoom.Pad2 | app/quiz/waiting-room.tsx:59 | padding gives at least two characters, with the original text at the end and zeros before it |
| WaitingRoom.ParsePaddedSeconds | app/quiz/waiting-room.tsx:57-59 | padded seconds below 60 are exactly two digits and read back as the seconds |
| WaitingRoom.Minutes | app/quiz/waiting-room.tsx:56 | the minutes are the whole minutes in diffMs: mins·60000 ≤ diffMs < (mins + 1)·60000 |
| WaitingRoom.Seconds | app/quiz/waiting-room.tsx:57 | the seconds part is in 0 … 59 |
| WaitingRoom.MinutesSecondsBound | app/quiz/waiting-room.tsx:56-57 | mins·60000 + secs·1000 ≤ diffMs < mins·60000 + secs·1000 + 1000 |
| WaitingRoom.FormatCountdown | app/quiz/waiting-room.tsx:47-59 | the text is "Starting now" iff the time to start is zero or negative |
| WaitingRoom.CountdownReadsBack | app/quiz/waiting-room.tsx:56-59 | a positive countdown reads back as canonical minutes, a colon and exactly two digits of seconds, whose values pin the time to start within one second with seconds below 60 |
| WaitingRoom.CountdownSamples | app/quiz/waiting-room.tsx:47-59 | 0 and -5 ms show "Starting now", 65000 ms shows "1:05" and 999 ms shows "0:00" |
| WaitingRoom.FindQuiz | app/quiz/waiting-room.tsx:29 | the quiz found is the first scheduled quiz with the id; none is found iff no quiz has the id |
| WaitingRoom.WaitingRoomScreen.constructor | app/quiz/waiting-room.tsx:19-23 | an empty countdown text, not ready, no interval, no navigation |
| WaitingRoom.WaitingRoomScreen.StartCountdown | app/quiz/waiting-room.tsx:39-42 | the interval runs iff the quiz is found |
| WaitingRoom.WaitingRoomScreen.Tick | app/quiz/waiting-room.tsx:42-60 | without an interval nothing changes; otherwise the text becomes `FormatCountdown`, and at or past the start the interval stops and the screen navigates to the quiz |
| WaitingRoom.WaitingRoomScreen.HandleReady | app/quiz/waiting-room.tsx:85-96 | without the quiz nothing changes; otherwise the quiz store and the screen are both marked ready |

## Left out

- Scoring.Evaluate: uses exact arithmetic. The source computes the bonus and the multiplier in IEEE doubles, which can come out one point lower. 45 earned points at a new streak of 4 give ⌊45 · 1.4⌋ = 62 there, because 1 + 4 · 0.1 is just below 1.4; the model gives 63. A bonus of 29 s out of 50 gives 28 there and 29 here. Dafny has no IEEE double type, so the model characterises the exact result instead.
- Game.GameStore.InitGame: takes the question list as an argument. `getRandomQuestions` and the mock question bank are not part of this model. The argument must have positive time limits, which every question of the mock bank has. A time limit of 0 would make the source's bonus NaN or Infinity.
- Game.GameStore.SelectAnswer: does not start the 2-second timer that calls `nextQuestion`. The caller invokes `NextQuestion`.
- The game screen's one-second interval that calls `updateTimer` becomes calls of `UpdateTimer` by the caller.
- The stores' persistence (`persist`, AsyncStorage, `partialize`) is not modelled. Persisting is storage I/O, and the in-memory state is what the model states.
- The data-fetching actions of the quiz store (`fetchScheduledQuizzes`, `fetchActiveQuiz`, `fetchQuizResults`, `fetchUserResult`) are HTTP I/O and are not modelled. `isLoading` is only a field here.
- QuizSession.QuizStore.SubmitAnswer: the answer record that the source builds and only writes to the console is not modelled.
- The console logging everywhere is not modelled.
- The `MockWebSocket` class of `store/socket-store.ts` is a simulated server and is not modelled. Its scripted replies and its synchronous `onclose` on `close()` are left out. The model's socket records what was sent and closed, and the environment delivers the events.
- Sockets.SocketStore.OnOpen: the random player id (`Math.random`) is the `playerId` argument.
- Sockets.SocketStore.OnOpen: is the open event of the current socket only, and uses the name and avatar of the last `connect`. In the source every mock socket keeps its own `onopen` closure over that call's name and avatar (`store/socket-store.ts:41-61`), and its constructor timer (`store/socket-store.ts:151-158`) fires it even after `close()`, which only calls `onclose` (`store/socket-store.ts:285-289`). So two `connect` calls within 500 ms send two join messages on the current socket, the first with the superseded name; the model does not capture that.
- The socket store's `onerror` handler only logs. It has no member.
- Connection.WebSocketStore.OnMessage: JSON parsing is represented by an already decoded `Frame`. `None` stands for an unparsable message. A payload that does not have the shape its tag announces is not dispatched. The source would pass it through to the setter.
- Connection.WebSocketStore.SendMessage: the `data` argument is restricted to the two client messages (`USER_ANSWER`, `USER_READY`), not arbitrary JSON.
- The refresh and logout calls into the authentication store (`store/auth-store.ts`) are returned as `AuthCall` values. The authentication store is not part of this model, and neither is its `getWsTicket`, whose result is the `ticket` argument of `Connect`.
- Connection.WebSocketStore.Connect: an exception from `new WebSocket` is the `creationError` argument, given as the text the catch records: the error's message, or "Failed to connect to WebSocket" for a thrown value that is not an `Error` (`store/websocket-store.ts:98-107`).
- Connection.WebSocketStore.Connect: is one atomic step. The source awaits `getWsTicket` after setting `isConnecting` (`store/websocket-store.ts:41-46`); events that arrive during that wait, while the store is already connecting, are not modelled.
- Connection.WebSocketStore.OnOpen: always installs the most recently created socket. In the source every socket created keeps its own `onopen`/`onclose` handlers (`store/websocket-store.ts:57-97`), so events from an earlier, superseded socket still update the store; the model has one open and one close event for the latest socket only.
- The reconnect `setTimeout` is returned as a delay. The caller invokes `Connect` again after it.
- UserStats.ApplyUpdates: a `Partial<Player>` is modelled with one `Option` per field. A field supplied explicitly as `undefined`, which the JavaScript spread would also copy, is not distinguished from an absent one.
- AuthForm.PasswordError: counts Unicode scalar values. JavaScript's `length` counts UTF-16 code units, so a password with characters outside the Basic Multilingual Plane is measured differently.
- AuthForm.AuthScreen.HandleSubmit: returns the login or register request instead of awaiting it. The navigation after success, the loading flag and the error handling belong to the authentication store, which is not part of this model.
- The show-password toggle and the rest of the screens' rendering are presentation only and are not modelled.
- The waiting room's connect-on-mount effect only calls the connection store's `connect`, which `Connection.WebSocketStore.Connect` models.
- The waiting room's date and time formatting (`toLocaleDateString`, `toLocaleTimeString`) depends on the locale and is not modelled.
- The waiting room's mock player list is not modelled.
- WaitingRoom.WaitingRoomScreen.Tick: assumes `scheduled_time` is a valid date and takes the time to start in whole milliseconds. An unparsable date makes the difference `NaN` in the source, which then shows "NaN:NaN" every second and never stops the interval; the model does not capture that.
