/**
 * The connection manager and message dispatcher (store/websocket-store.ts).
 * The store owns the socket of the quiz server and its flags; `connect` asks
 * the authentication store for a ticket, which is passed in here as an
 * argument (`None` when none is returned). The socket's callbacks are the
 * event methods `OnOpen`, `OnMessage`, `OnError` and `OnClose`. A reconnect
 * timer is not started here: the methods that would start one return its delay,
 * and the caller invokes `Connect` again when the delay has passed.
 */
module Connection {
  import opened Wrappers
  import opened Transport
  import opened QuizTypes
  import opened QuizSession

  const MaxReconnectAttempts: nat := 10
  const BaseReconnectDelay: nat := 1000
  const MaxReconnectDelay: nat := 30000
  const NormalClosure: int := 1000
  const WsBaseUrl := "wss://ws.hqtrivia-example.com"

  const TicketError := "Failed to get WebSocket ticket"
  const SocketError := "WebSocket connection error"
  const ExhaustedError := "Failed to connect after multiple attempts"

  function Pow2(n: nat): (r: nat)
    ensures r >= 1
  {
    if n == 0 then 1 else 2 * Pow2(n - 1)
  }

  /** min(1000 * 2^attempts, 30000). */
  function ReconnectDelay(attempts: nat): (d: nat)
    ensures BaseReconnectDelay <= d <= MaxReconnectDelay
  {
    var raw := BaseReconnectDelay * Pow2(attempts);
    if raw < MaxReconnectDelay then raw else MaxReconnectDelay
  }

  /** The delays of the first `n` retries after a reset, in order. */
  function DelaySchedule(n: nat): (s: seq<nat>)
    ensures |s| == n
  {
    if n == 0 then [] else DelaySchedule(n - 1) + [ReconnectDelay(n - 1)]
  }

  /** The wire tags of the server's messages. */
  const QuizStartTag := "QUIZ_START"
  const QuizEndTag := "QUIZ_END"
  const QuestionStartTag := "QUESTION_START"
  const QuestionEndTag := "QUESTION_END"
  const ResultUpdateTag := "RESULT_UPDATE"
  const TokenExpireSoonTag := "TOKEN_EXPIRE_SOON"
  const TokenExpiredTag := "TOKEN_EXPIRED"

  /** The seven branches of the dispatcher's switch. */
  datatype Route =
    | ToQuizStart | ToQuizEnd | ToQuestionStart | ToQuestionEnd | ToResultUpdate
    | ToRefreshToken | ToLogout

  function TagOf(r: Route): string
  {
    match r
    case ToQuizStart => QuizStartTag
    case ToQuizEnd => QuizEndTag
    case ToQuestionStart => QuestionStartTag
    case ToQuestionEnd => QuestionEndTag
    case ToResultUpdate => ResultUpdateTag
    case ToRefreshToken => TokenExpireSoonTag
    case ToLogout => TokenExpiredTag
  }

  /** The switch on the message type: each known tag selects its branch, any other none. */
  function RouteOf(tag: string): (r: Option<Route>)
    ensures r.Some? ==> TagOf(r.value) == tag
    ensures forall route :: TagOf(route) == tag ==> r == Some(route)
  {
    if tag == QuizStartTag then Some(ToQuizStart)
    else if tag == QuizEndTag then Some(ToQuizEnd)
    else if tag == QuestionStartTag then Some(ToQuestionStart)
    else if tag == QuestionEndTag then Some(ToQuestionEnd)
    else if tag == ResultUpdateTag then Some(ToResultUpdate)
    else if tag == TokenExpireSoonTag then Some(ToRefreshToken)
    else if tag == TokenExpiredTag then Some(ToLogout)
    else None
  }

  /** The `data` of an inbound envelope, per message kind. */
  datatype Payload =
    | QuizStartData(quizStart: QuizStartMessage)
    | QuizEndData(quizEnd: QuizEndMessage)
    | QuestionStartData(questionStart: QuestionStartMessage)
    | QuestionEndData(questionEnd: QuestionEndMessage)
    | ResultUpdateData(resultUpdate: ResultUpdateMessage)
    | NoData

  /** A parsed inbound envelope `{type, data}`. */
  datatype Frame = Frame(tag: string, data: Payload)

  /** An outbound envelope. */
  datatype Envelope = Envelope(tag: string, data: OutboundData)

  /** What a dispatched message does. */
  datatype Action =
    | StartQuiz(quizStart: QuizStartMessage)
    | EndQuiz(quizEnd: QuizEndMessage)
    | StartQuestion(questionStart: QuestionStartMessage)
    | EndQuestion(questionEnd: QuestionEndMessage)
    | UpdateResult(resultUpdate: ResultUpdateMessage)
    | RefreshToken
    | Logout

  function RouteOfAction(a: Action): Route
  {
    match a
    case StartQuiz(_) => ToQuizStart
    case EndQuiz(_) => ToQuizEnd
    case StartQuestion(_) => ToQuestionStart
    case EndQuestion(_) => ToQuestionEnd
    case UpdateResult(_) => ToResultUpdate
    case RefreshToken => ToRefreshToken
    case Logout => ToLogout
  }

  /**
   * The action a frame asks for: none for a frame that did not parse, for an
   * unknown type, or for a payload that does not fit its type.
   */
  function Decode(frame: Option<Frame>): (a: Option<Action>)
    ensures a.Some? ==> frame.Some? && RouteOf(frame.value.tag) == Some(RouteOfAction(a.value))
    ensures frame.None? || RouteOf(frame.value.tag).None? ==> a.None?
  {
    match frame
    case None => None
    case Some(Frame(tag, data)) =>
      match (RouteOf(tag), data)
      case (Some(ToQuizStart), QuizStartData(m)) => Some(StartQuiz(m))
      case (Some(ToQuizEnd), QuizEndData(m)) => Some(EndQuiz(m))
      case (Some(ToQuestionStart), QuestionStartData(m)) => Some(StartQuestion(m))
      case (Some(ToQuestionEnd), QuestionEndData(m)) => Some(EndQuestion(m))
      case (Some(ToResultUpdate), ResultUpdateData(m)) => Some(UpdateResult(m))
      case (Some(ToRefreshToken), _) => Some(RefreshToken)
      case (Some(ToLogout), _) => Some(Logout)
      case _ => None
  }

  /**
   * Why a connect attempt fails, if it does: a missing or empty ticket comes
   * first, then an error thrown while creating the socket.
   */
  function ConnectFailure(ticket: Option<string>, creationError: Option<string>): (f: Option<string>)
    ensures f.None? <==> ticket.Some? && ticket.value != "" && creationError.None?
    ensures ticket.None? || ticket.value == "" ==> f == Some(TicketError)
    ensures ticket.Some? && ticket.value != "" ==> f == creationError
  {
    if ticket.None? || ticket.value == "" then Some(TicketError) else creationError
  }

  /** The requests the dispatcher makes of the authentication store. */
  datatype AuthCall = RefreshCredentials | ForceLogout

  class WebSocketStore {
    /** The socket, set once it has opened. */
    var socket: Socket?<Envelope>
    var isConnected: bool
    var isConnecting: bool
    var reconnectAttempts: nat
    var error: Option<string>
    /** The socket created by the last connect that obtained a ticket; its callbacks are the events. */
    var created: Socket?<Envelope>
    /** The delays of the reconnect timers scheduled since the counter was last reset. */
    ghost var retryDelays: seq<nat>
    /** The session store the dispatcher feeds. */
    const quiz: QuizStore

    ghost predicate Valid()
      reads this
    {
      reconnectAttempts <= MaxReconnectAttempts && retryDelays == DelaySchedule(reconnectAttempts)
    }

    constructor (quiz: QuizStore)
      ensures Valid() && this.quiz == quiz
      ensures socket == null && created == null && !isConnected && !isConnecting
      ensures reconnectAttempts == 0 && error == None
    {
      this.quiz := quiz;
      socket := null;
      created := null;
      isConnected := false;
      isConnecting := false;
      reconnectAttempts := 0;
      error := None;
      retryDelays := [];
    }

    /**
     * Schedules another attempt while fewer than ten have been made, returning
     * its delay; otherwise only records the terminal error.
     */
    method HandleReconnect() returns (retry: Option<nat>)
      requires Valid()
      modifies this`reconnectAttempts, this`error, this`retryDelays
      ensures Valid()
      ensures old(reconnectAttempts) < MaxReconnectAttempts ==>
        && retry == Some(ReconnectDelay(old(reconnectAttempts)))
        && reconnectAttempts == old(reconnectAttempts) + 1 && error == old(error)
      ensures old(reconnectAttempts) >= MaxReconnectAttempts ==>
        retry == None && reconnectAttempts == old(reconnectAttempts) && error == Some(ExhaustedError)
    {
      if reconnectAttempts < MaxReconnectAttempts {
        var delay := ReconnectDelay(reconnectAttempts);
        retryDelays := retryDelays + [delay];
        reconnectAttempts := reconnectAttempts + 1;
        return Some(delay);
      }
      error := Some(ExhaustedError);
      return None;
    }

    /**
     * Does nothing while connected or connecting. Otherwise the attempt fails
     * when no (or an empty) ticket is obtained, or when creating the socket
     * throws (`creationError` is the message the thrown error carries); a
     * failure is recorded and goes through `HandleReconnect`. A successful
     * attempt creates the socket for the ticket, and the store stays
     * connecting until it opens.
     */
    method Connect(ticket: Option<string>, creationError: Option<string>) returns (retry: Option<nat>)
      requires Valid()
      modifies this
      ensures Valid()
      ensures socket == old(socket) && isConnected == old(isConnected)
      ensures old(isConnected) || old(isConnecting) ==>
        retry == None && isConnecting == old(isConnecting) && created == old(created)
        && reconnectAttempts == old(reconnectAttempts) && error == old(error)
      ensures !old(isConnected) && !old(isConnecting) && ConnectFailure(ticket, creationError).Some? ==>
        && !isConnecting && created == old(created)
        && retry == (if old(reconnectAttempts) < MaxReconnectAttempts then Some(ReconnectDelay(old(reconnectAttempts))) else None)
        && reconnectAttempts == (if old(reconnectAttempts) < MaxReconnectAttempts then old(reconnectAttempts) + 1 else old(reconnectAttempts))
        && error == Some(if old(reconnectAttempts) < MaxReconnectAttempts
                         then ConnectFailure(ticket, creationError).value else ExhaustedError)
      ensures !old(isConnected) && !old(isConnecting) && ConnectFailure(ticket, creationError).None? ==>
        && retry == None && isConnecting && error == None && reconnectAttempts == old(reconnectAttempts)
        && fresh(created) && created.url == WsBaseUrl + "/ws?ticket=" + ticket.value
        && created.sent == [] && !created.closed
    {
      retry := None;
      if isConnected || isConnecting {
        return;
      }
      isConnecting, error := true, None;
      if ticket.None? || ticket.value == "" {
        error := Some(TicketError);
        isConnecting := false;
        retry := HandleReconnect();
        return;
      }
      if creationError.Some? {
        error := Some(creationError.value);
        isConnecting := false;
        retry := HandleReconnect();
        return;
      }
      created := new Socket(WsBaseUrl + "/ws?ticket=" + ticket.value);
    }

    /** The open callback: the created socket becomes the store's and the counter resets. */
    method OnOpen()
      requires Valid() && created != null
      modifies this
      ensures Valid()
      ensures socket == created == old(created)
      ensures isConnected && !isConnecting && reconnectAttempts == 0 && error == None
    {
      socket := created;
      isConnected, isConnecting := true, false;
      reconnectAttempts := 0;
      error := None;
      retryDelays := [];
    }

    method OnError()
      requires Valid()
      modifies this`error, this`isConnecting
      ensures Valid()
      ensures error == Some(SocketError) && !isConnecting
    {
      error := Some(SocketError);
      isConnecting := false;
    }

    /** The close callback: any code but 1000 (normal closure) triggers a reconnect. */
    method OnClose(code: int) returns (retry: Option<nat>)
      requires Valid()
      modifies this
      ensures Valid()
      ensures socket == null && !isConnected && !isConnecting && created == old(created)
      ensures code == NormalClosure ==>
        retry == None && reconnectAttempts == old(reconnectAttempts) && error == old(error)
      ensures code != NormalClosure ==>
        && retry == (if old(reconnectAttempts) < MaxReconnectAttempts then Some(ReconnectDelay(old(reconnectAttempts))) else None)
        && reconnectAttempts == (if old(reconnectAttempts) < MaxReconnectAttempts then old(reconnectAttempts) + 1 else old(reconnectAttempts))
        && error == (if old(reconnectAttempts) < MaxReconnectAttempts then old(error) else Some(ExhaustedError))
    {
      socket := null;
      isConnected, isConnecting := false, false;
      retry := None;
      if code != NormalClosure {
        retry := HandleReconnect();
      }
    }

    /** Closes the open socket normally and resets the counter; nothing happens before an open. */
    method Disconnect()
      requires Valid()
      modifies this, socket
      ensures Valid() && created == old(created) && error == old(error)
      ensures old(socket) == null ==>
        socket == null && isConnected == old(isConnected) && isConnecting == old(isConnecting)
        && reconnectAttempts == old(reconnectAttempts)
      ensures old(socket) != null ==>
        && old(socket).closed && old(socket).closeCode == Some(NormalClosure) && old(socket).sent == old(socket.sent)
        && socket == null && !isConnected && !isConnecting && reconnectAttempts == 0
    {
      if socket != null {
        socket.Close(Some(NormalClosure));
        socket := null;
        isConnected, isConnecting := false, false;
        reconnectAttempts := 0;
        retryDelays := [];
      }
    }

    /** Transmits `{type, data}` when a socket is open and connected; otherwise drops it. */
    method SendMessage(tag: string, data: OutboundData)
      modifies socket
      ensures socket != null ==> socket.closed == old(socket.closed) && socket.closeCode == old(socket.closeCode)
      ensures socket != null && isConnected ==> socket.sent == old(socket.sent) + [Envelope(tag, data)]
      ensures socket != null && !isConnected ==> socket.sent == old(socket.sent)
    {
      if socket != null && isConnected {
        socket.Send(Envelope(tag, data));
      }
    }

    /**
     * The message callback: a frame that parsed is routed to exactly one
     * handler; a frame that did not parse, or of an unknown type, changes nothing.
     */
    method OnMessage(frame: Option<Frame>, now: string) returns (auth: Option<AuthCall>)
      modifies quiz
      ensures auth == match Decode(frame)
        case Some(RefreshToken) => Some(RefreshCredentials)
        case Some(Logout) => Some(ForceLogout)
        case _ => None
      ensures match Decode(frame)
        case Some(StartQuiz(m)) =>
          quiz.View() == old(quiz.View()).(activeQuiz := Some(QuizFromStart(m, now)), isEliminated := false, isReady := true)
        case Some(EndQuiz(m)) =>
          if old(quiz.activeQuiz).Some? && old(quiz.activeQuiz).value.id == m.quizId
          then quiz.View() == old(quiz.View()).(activeQuiz := Some(old(quiz.activeQuiz).value.(status := Completed)),
                                                 currentQuestion := None, questionResults := None)
          else quiz.View() == old(quiz.View())
        case Some(StartQuestion(m)) =>
          quiz.View() == old(quiz.View()).(currentQuestion := Some(m), questionResults := None,
                                           selectedAnswer := None, isAnswerSubmitted := false)
        case Some(EndQuestion(m)) =>
          quiz.View() == old(quiz.View()).(questionResults := Some(m))
        case Some(UpdateResult(m)) =>
          quiz.View() == old(quiz.View()).(userResult := Some(MergeResult(old(quiz.userResult), m, now)),
                                           isEliminated := m.isEliminated)
        case _ => quiz.View() == old(quiz.View())
    {
      auth := None;
      match Decode(frame) {
        case None =>
        case Some(StartQuiz(m)) => quiz.SetQuizStart(m, now);
        case Some(EndQuiz(m)) => quiz.SetQuizEnd(m);
        case Some(StartQuestion(m)) => quiz.SetCurrentQuestion(Some(m));
        case Some(EndQuestion(m)) => quiz.SetQuestionResults(Some(m));
        case Some(UpdateResult(m)) => quiz.UpdateUserResult(m, now);
        case Some(RefreshToken) => auth := Some(RefreshCredentials);
        case Some(Logout) => auth := Some(ForceLogout);
      }
    }
  }
}

module ConnectionFacts {
  import opened Wrappers
  import opened QuizTypes
  import opened Connection

  lemma {:induction false} Pow2Monotone(m: nat, n: nat)
    requires m <= n
    ensures Pow2(m) <= Pow2(n)
  {
    if m < n {
      Pow2Monotone(m, n - 1);
    }
  }

  /** The first six delays: 1000, 2000, 4000, 8000, 16000, then the 30000 cap. */
  lemma FirstDelays()
    ensures ReconnectDelay(0) == 1000 && ReconnectDelay(1) == 2000 && ReconnectDelay(2) == 4000
    ensures ReconnectDelay(3) == 8000 && ReconnectDelay(4) == 16000 && ReconnectDelay(5) == 30000
  {
    assert Pow2(5) == 32;
  }

  /** From the sixth attempt (attempt 5) on, every delay is the cap. */
  lemma DelayCappedFromFive(attempts: nat)
    requires attempts >= 5
    ensures ReconnectDelay(attempts) == MaxReconnectDelay
  {
    Pow2Monotone(5, attempts);
    assert Pow2(5) == 32;
  }

  /** Waiting longer after each failure: the delay never shrinks as attempts grow. */
  lemma DelayMonotone(m: nat, n: nat)
    requires m <= n
    ensures ReconnectDelay(m) <= ReconnectDelay(n)
  {
    Pow2Monotone(m, n);
  }

  /** The whole run of retries between two resets, at most ten of them. */
  lemma FullSchedule()
    ensures DelaySchedule(MaxReconnectAttempts)
         == [1000, 2000, 4000, 8000, 16000, 30000, 30000, 30000, 30000, 30000]
  {
    FirstDelays();
    DelayCappedFromFive(6);
    DelayCappedFromFive(7);
    DelayCappedFromFive(8);
    DelayCappedFromFive(9);
  }

  /** Each of the seven tags is routed to its own branch, and only that tag is. */
  lemma RoutesAreExact(tag: string, route: Route)
    ensures RouteOf(tag) == Some(route) <==> tag == TagOf(route)
  {
  }

  /** A well-formed frame of each kind yields the action of that kind. */
  lemma DecodeByKind(data: Payload)
    ensures data.QuizStartData? ==> Decode(Some(Frame(QuizStartTag, data))) == Some(StartQuiz(data.quizStart))
    ensures data.QuizEndData? ==> Decode(Some(Frame(QuizEndTag, data))) == Some(EndQuiz(data.quizEnd))
    ensures data.QuestionStartData? ==>
      Decode(Some(Frame(QuestionStartTag, data))) == Some(StartQuestion(data.questionStart))
    ensures data.QuestionEndData? ==> Decode(Some(Frame(QuestionEndTag, data))) == Some(EndQuestion(data.questionEnd))
    ensures data.ResultUpdateData? ==>
      Decode(Some(Frame(ResultUpdateTag, data))) == Some(UpdateResult(data.resultUpdate))
    ensures Decode(Some(Frame(TokenExpireSoonTag, data))) == Some(RefreshToken)
    ensures Decode(Some(Frame(TokenExpiredTag, data))) == Some(Logout)
  {
  }
}
