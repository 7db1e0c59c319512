/**
 * The student quiz page: the participant's side of a live session.
 *
 * The page's React state (`currentQuestion`, `score`, `status`, `hasAnswered`,
 * `timeLeft`, `leaderboard`), whether the one-second interval is running, and
 * the messages the page hands to its socket's `send` form a `Page`. Each event
 * handler is a transition function on `Page` (the specification), and the
 * `QuizPage` class keeps the same state in fields and implements each handler
 * as a method proved to follow its transition.
 *
 * React's effects are folded into the handlers that trigger them: a
 * `question` message sets `currentQuestion`, and the effects keyed on it then
 * reset `hasAnswered`, `timeLeft` and the leaderboard and restart the
 * interval; answering or clearing the question stops the interval.
 */
module QuizPage {
  import opened Wrappers
  import opened Text
  import opened Ranking
  import Countdown

  datatype ChoiceView = ChoiceView(id: int, text: string)

  /** A question as pushed by the server (no correctness flags). */
  datatype QuestionView = QuestionView(id: int, text: string, choices: seq<ChoiceView>, timeLimit: nat)

  /**
   * A parsed inbound message as the page reads it: `msg.type`,
   * `msg.question`, `msg.scoreboard` and `msg.error` (None when absent).
   */
  datatype Incoming = Incoming(
    kind: Option<string>,
    question: Option<QuestionView>,
    scoreboard: Option<seq<ScoreRow>>,
    error: Option<string>)

  /** What the page sends: `{action: "join", ...}` and `{action: "answer", ...}`. */
  datatype Outgoing = Join(participantId: string) | Answer(participantId: string, choiceId: int)

  datatype Page = Page(
    storedId: Option<string>,      // localStorage "participant_id"
    storedPin: Option<string>,     // localStorage "session_pin"
    socketCreated: bool,
    joinId: string,                // the participant id captured when the socket was created
    currentQuestion: Option<QuestionView>,
    score: int,
    status: string,
    hasAnswered: bool,
    timeLeft: int,
    timerRunning: bool,
    leaderboard: seq<Entry>,
    outbox: seq<Outgoing>)         // every message passed to socket.send, in order

  /** JavaScript truthiness of a value read from `localStorage`. */
  predicate Truthy(s: Option<string>) {
    s.Some? && s.value != ""
  }

  /** `question.time_limit || 30`. */
  function TimeLimit(q: QuestionView): nat {
    Countdown.Start(q.timeLimit)
  }

  function Initial(storedId: Option<string>, storedPin: Option<string>): Page {
    Page(storedId, storedPin, false, "", None, 0, "Connecting...", false, 0, false, [], [])
  }

  /** The states the page can be in: the interval only runs on an unanswered question with time left. */
  predicate Inv(p: Page) {
    && p.timeLeft >= 0
    && (p.timerRunning ==> p.currentQuestion.Some? && !p.hasAnswered && p.timeLeft >= 1)
  }

  /**
   * The mount effect: without a stored id or PIN no socket is made; a socket
   * that already exists is not made again; making one may throw.
   */
  function Mounted(p: Page, constructionFails: bool): (q: Page)
    ensures !Truthy(p.storedId) || !Truthy(p.storedPin) ==> q == p.(status := "You must join first.")
    ensures q.socketCreated <==> p.socketCreated || (Truthy(p.storedId) && Truthy(p.storedPin) && !constructionFails)
    ensures q.outbox == p.outbox
    ensures Truthy(p.storedId) && Truthy(p.storedPin) && p.socketCreated ==> q == p
    ensures Truthy(p.storedId) && Truthy(p.storedPin) && !p.socketCreated && constructionFails ==>
      q == p.(status := "Connection failed")
    ensures Truthy(p.storedId) && Truthy(p.storedPin) && !p.socketCreated && !constructionFails ==>
      q == p.(socketCreated := true, joinId := p.storedId.value)
  {
    if !Truthy(p.storedId) || !Truthy(p.storedPin) then p.(status := "You must join first.")
    else if p.socketCreated then p
    else if constructionFails then p.(status := "Connection failed")
    else p.(socketCreated := true, joinId := p.storedId.value)
  }

  /** The open handler: exactly one `join` carrying the id captured at mount. */
  function Opened(p: Page): (q: Page)
    ensures q.outbox == p.outbox + [Join(p.joinId)]
    ensures q == p.(status := q.status, outbox := q.outbox)
  {
    p.(status := "Connected. Waiting for next question...", outbox := p.outbox + [Join(p.joinId)])
  }

  /**
   * A `question` message: the question replaces the current one (a redelivered
   * question included) and the countdown restarts from its time limit.
   */
  function NewQuestion(p: Page, qv: QuestionView): (q: Page)
    ensures q.currentQuestion == Some(qv)
    ensures !q.hasAnswered && q.timerRunning && q.leaderboard == []
    ensures q.timeLeft == (if qv.timeLimit == 0 then 30 else qv.timeLimit)
    ensures q.score == p.score && q.outbox == p.outbox
    ensures q.status == "Question received! Choose your answer."
    ensures q == p.(currentQuestion := q.currentQuestion, status := q.status, hasAnswered := q.hasAnswered,
                    timeLeft := q.timeLeft, timerRunning := q.timerRunning, leaderboard := q.leaderboard)
  {
    p.(currentQuestion := Some(qv), status := "Question received! Choose your answer.",
       hasAnswered := false, timeLeft := TimeLimit(qv), timerRunning := true, leaderboard := [])
  }

  /**
   * `scoreboard.find(p => p.participant_id == participantId)`, as the index of
   * the first row whose id equals the stored id under JavaScript's loose `==`.
   */
  function FindParticipant(rows: seq<ScoreRow>, id: string): (found: Option<nat>)
    ensures found.None? <==> forall i :: 0 <= i < |rows| ==> !JsLooseEquals(rows[i].participantId, id)
    ensures found.Some? ==>
      && found.value < |rows|
      && JsLooseEquals(rows[found.value].participantId, id)
      && forall i :: 0 <= i < found.value ==> !JsLooseEquals(rows[i].participantId, id)
  {
    if rows == [] then None
    else if JsLooseEquals(rows[0].participantId, id) then Some(0)
    else
      var r := FindParticipant(rows[1..], id);
      assert forall i :: 1 <= i < |rows| ==> rows[i] == rows[1..][i - 1];
      if r.Some? then Some(r.value + 1) else None
  }

  /**
   * A `score_update` message: with a stored id and a scoreboard, the own score
   * is taken from the first matching row (kept when there is none) and the
   * leaderboard becomes the ranked scoreboard.
   */
  function ScoreUpdated(p: Page, board: Option<seq<ScoreRow>>): (q: Page)
    ensures !Truthy(p.storedId) || board.None? ==> q == p
    ensures Truthy(p.storedId) && board.Some? ==>
      && q.leaderboard == Rank(board.value)
      && (q.score != p.score ==> exists i :: 0 <= i < |board.value| && JsLooseEquals(board.value[i].participantId, p.storedId.value) && board.value[i].score == q.score)
      && q.score == (match FindParticipant(board.value, p.storedId.value)
                     case Some(i) => board.value[i].score
                     case None => p.score)
      && q == p.(score := q.score, leaderboard := q.leaderboard)
  {
    if Truthy(p.storedId) && board.Some? then
      var found := FindParticipant(board.value, p.storedId.value);
      p.(score := if found.Some? then board.value[found.value].score else p.score, leaderboard := Rank(board.value))
    else p
  }

  /** `msg && msg.type`, then the switch on it. */
  predicate HasType(m: Incoming) {
    m.kind.Some? && m.kind.value != ""
  }

  predicate KnownType(t: string) {
    t in ["question", "score_update", "end", "join_success", "error"]
  }

  /** The message handler. */
  function Received(p: Page, m: Incoming): (q: Page)
    ensures !HasType(m) || !KnownType(m.kind.value) ==> q == p
    ensures q.outbox == p.outbox
    ensures HasType(m) && m.kind.value == "question" ==>
      q == (if m.question.Some? then NewQuestion(p, m.question.value)
            else p.(currentQuestion := None, timerRunning := false, status := "Question received! Choose your answer."))
    ensures HasType(m) && m.kind.value == "score_update" ==> q == ScoreUpdated(p, m.scoreboard)
    ensures HasType(m) && m.kind.value == "end" ==>
      q == p.(status := "Quiz ended. Thanks for playing!", currentQuestion := None, timerRunning := false)
    ensures HasType(m) && m.kind.value == "join_success" ==> q == p.(status := "Connected. Waiting for question...")
    ensures HasType(m) && m.kind.value == "error" ==> q == p.(status := "Error: " + m.error.GetOr("undefined"))
  {
    if !HasType(m) then p
    else
      var t := m.kind.value;
      if t == "question" then
        if m.question.Some? then NewQuestion(p, m.question.value)
        // setCurrentQuestion(undefined): the interval is cleared and not restarted
        else p.(currentQuestion := None, timerRunning := false, status := "Question received! Choose your answer.")
      else if t == "score_update" then ScoreUpdated(p, m.scoreboard)
      else if t == "end" then p.(status := "Quiz ended. Thanks for playing!", currentQuestion := None, timerRunning := false)
      else if t == "join_success" then p.(status := "Connected. Waiting for question...")
      else if t == "error" then p.(status := "Error: " + m.error.GetOr("undefined"))
      else p
  }

  /**
   * One interval tick. The updater `prev <= 1 ? 0 : prev - 1`; at the last
   * tick the interval is cleared and time-up marks the question answered
   * (the interval only runs while it is unanswered, so time-up always fires).
   * Ticks send nothing.
   */
  function Ticked(p: Page): (q: Page)
    ensures !p.timerRunning ==> q == p
    ensures q.outbox == p.outbox
    ensures p.timerRunning && p.timeLeft <= 1 ==>
      q == p.(timeLeft := 0, timerRunning := false, hasAnswered := true, status := "Time's up! Waiting for next question...")
    ensures p.timerRunning && p.timeLeft > 1 ==> q == p.(timeLeft := p.timeLeft - 1)
  {
    if !p.timerRunning then p
    else if Countdown.Expires(p.timeLeft) then
      p.(timeLeft := Countdown.Next(p.timeLeft), timerRunning := false,
         hasAnswered := true, status := "Time's up! Waiting for next question...")
    else p.(timeLeft := Countdown.Next(p.timeLeft))
  }

  /** The guard of `submitAnswer`. */
  predicate CanSubmit(p: Page) {
    p.socketCreated && Truthy(p.storedId) && !p.hasAnswered && p.timeLeft > 0
  }

  /**
   * `submitAnswer(choiceId)`: a no-op when the guard fails; otherwise the
   * countdown stops, the question counts as answered and exactly one
   * `answer` is sent.
   */
  function Submitted(p: Page, choiceId: int): (q: Page)
    ensures !CanSubmit(p) ==> q == p
    ensures CanSubmit(p) ==>
      && q.hasAnswered && !q.timerRunning
      && q.outbox == p.outbox + [Answer(p.storedId.value, choiceId)]
      && q == p.(hasAnswered := true, timerRunning := false, status := q.status, outbox := q.outbox)
  {
    if !CanSubmit(p) then p
    else p.(timerRunning := false, hasAnswered := true, status := "Answer submitted! Waiting for results...",
            outbox := p.outbox + [Answer(p.storedId.value, choiceId)])
  }

  function Closed(p: Page): Page {
    p.(status := "Disconnected")
  }

  function Errored(p: Page): Page {
    p.(status := "Connection error")
  }

  /** Everything that can happen to the page. */
  datatype Event =
    | MountEvent(constructionFails: bool)
    | OpenEvent
    | MessageEvent(msg: Incoming)
    | TickEvent
    | SubmitEvent(choiceId: int)
    | CloseEvent
    | ErrorEvent

  function Step(p: Page, e: Event): Page {
    match e
    case MountEvent(fails) => Mounted(p, fails)
    case OpenEvent => Opened(p)
    case MessageEvent(m) => Received(p, m)
    case TickEvent => Ticked(p)
    case SubmitEvent(c) => Submitted(p, c)
    case CloseEvent => Closed(p)
    case ErrorEvent => Errored(p)
  }

  function Run(p: Page, es: seq<Event>): Page
    decreases |es|
  {
    if es == [] then p else Run(Step(p, es[0]), es[1..])
  }

  /** Every handler keeps the page in a reachable state. */
  lemma ReceivedKeepsInv(p: Page, m: Incoming)
    requires Inv(p)
    ensures Inv(Received(p, m))
  {
    if HasType(m) {
      var t := m.kind.value;
      if t == "question" && m.question.Some? {
        assert TimeLimit(m.question.value) >= 1;
      } else if t == "score_update" {
        assert Received(p, m) == ScoreUpdated(p, m.scoreboard);
      }
    }
  }

  lemma StepKeepsInv(p: Page, e: Event)
    requires Inv(p)
    ensures Inv(Step(p, e))
  {
    match e
    case MessageEvent(m) => ReceivedKeepsInv(p, m);
    case TickEvent => assert Countdown.Next(p.timeLeft) >= 0;
    case _ =>
  }

  lemma {:induction false} RunKeepsInv(p: Page, es: seq<Event>)
    requires Inv(p)
    ensures Inv(Run(p, es))
    decreases |es|
  {
    if es != [] {
      StepKeepsInv(p, es[0]);
      RunKeepsInv(Step(p, es[0]), es[1..]);
    }
  }

  lemma InitialInv(storedId: Option<string>, storedPin: Option<string>)
    ensures Inv(Initial(storedId, storedPin))
  {
  }

  function AnswerCount(out: seq<Outgoing>): nat {
    if out == [] then 0 else (if out[0].Answer? then 1 else 0) + AnswerCount(out[1..])
  }

  lemma {:induction false} AnswerCountAppend(a: seq<Outgoing>, b: seq<Outgoing>)
    ensures AnswerCount(a + b) == AnswerCount(a) + AnswerCount(b)
  {
    if a == [] {
      assert a + b == b;
    } else {
      assert (a + b)[0] == a[0] && (a + b)[1..] == a[1..] + b;
      AnswerCountAppend(a[1..], b);
    }
  }

  /** Whether an event is the arrival of a new question. */
  predicate IsQuestion(e: Event) {
    e.MessageEvent? && HasType(e.msg) && e.msg.kind.value == "question"
  }

  /** One event adds at most one answer, and none once the question is answered. */
  lemma StepAnswers(p: Page, e: Event)
    requires !IsQuestion(e)
    ensures AnswerCount(Step(p, e).outbox) <= AnswerCount(p.outbox) + (if p.hasAnswered then 0 else 1)
    ensures p.hasAnswered ==> Step(p, e).hasAnswered
    ensures AnswerCount(Step(p, e).outbox) > AnswerCount(p.outbox) ==> Step(p, e).hasAnswered
  {
    match e
    case OpenEvent =>
      AnswerCountAppend(p.outbox, [Join(p.joinId)]);
    case SubmitEvent(c) =>
      if CanSubmit(p) {
        AnswerCountAppend(p.outbox, [Answer(p.storedId.value, c)]);
      }
    case _ =>
  }

  /**
   * At most one answer per question: between two question messages any mix of
   * submits, ticks, opens and other messages sends at most one `answer`, and
   * none once the question is answered (by a submit or by time-up).
   */
  lemma {:induction false} AtMostOneAnswerPerQuestion(p: Page, es: seq<Event>)
    requires forall i :: 0 <= i < |es| ==> !IsQuestion(es[i])
    ensures AnswerCount(Run(p, es).outbox) <= AnswerCount(p.outbox) + (if p.hasAnswered then 0 else 1)
    decreases |es|
  {
    if es != [] {
      StepAnswers(p, es[0]);
      assert forall i :: 0 <= i < |es[1..]| ==> es[1..][i] == es[i + 1];
      AtMostOneAnswerPerQuestion(Step(p, es[0]), es[1..]);
    }
  }

  /** Two submits in a row for one question send exactly one answer when the first is allowed. */
  lemma SecondSubmitSendsNothing(p: Page, c1: int, c2: int)
    requires CanSubmit(p)
    ensures Submitted(Submitted(p, c1), c2).outbox == p.outbox + [Answer(p.storedId.value, c1)]
  {
  }

  /**
   * Left alone after a question with limit N arrives, the page shows N - k
   * after k < N ticks, and after N ticks time is up: 0, stopped, answered,
   * with nothing sent by the ticks.
   */
  lemma {:induction false} TicksAfterQuestion(p: Page, qv: QuestionView, k: nat)
    ensures var q := Run(NewQuestion(p, qv), seq(k, _ => TickEvent));
      && q.outbox == p.outbox
      && (k < TimeLimit(qv) ==> q.timeLeft == TimeLimit(qv) - k && q.timerRunning && !q.hasAnswered)
      && (k >= TimeLimit(qv) ==> q.timeLeft == 0 && !q.timerRunning && q.hasAnswered)
  {
    TicksFrom(NewQuestion(p, qv), k);
  }

  lemma {:induction false} TicksFrom(p: Page, k: nat)
    requires p.timerRunning && !p.hasAnswered && p.timeLeft >= 1
    ensures var q := Run(p, seq(k, _ => TickEvent));
      && q.outbox == p.outbox && q.currentQuestion == p.currentQuestion
      && (k < p.timeLeft ==> q.timeLeft == p.timeLeft - k && q.timerRunning && !q.hasAnswered)
      && (k >= p.timeLeft ==> q.timeLeft == 0 && !q.timerRunning && q.hasAnswered)
    decreases k
  {
    if k > 0 {
      var ticks := seq(k, _ => TickEvent);
      assert ticks[0] == TickEvent && ticks[1..] == seq(k - 1, _ => TickEvent);
      var p1 := Step(p, TickEvent);
      if p.timeLeft == 1 {
        StoppedTicks(p1, k - 1);
      } else {
        TicksFrom(p1, k - 1);
      }
    }
  }

  lemma {:induction false} StoppedTicks(p: Page, k: nat)
    requires !p.timerRunning
    ensures Run(p, seq(k, _ => TickEvent)) == p
    decreases k
  {
    if k > 0 {
      var ticks := seq(k, _ => TickEvent);
      assert ticks[0] == TickEvent && ticks[1..] == seq(k - 1, _ => TickEvent);
      StoppedTicks(p, k - 1);
    }
  }

  /**
   * The own score after a scoreboard is the score of the first row whose id
   * loosely equals the stored id, whatever rows follow it.
   */
  lemma OwnScoreIsFirstMatch(p: Page, rows: seq<ScoreRow>, i: nat)
    requires Truthy(p.storedId) && i < |rows|
    requires JsLooseEquals(rows[i].participantId, p.storedId.value)
    requires forall j :: 0 <= j < i ==> !JsLooseEquals(rows[j].participantId, p.storedId.value)
    ensures ScoreUpdated(p, Some(rows)).score == rows[i].score
  {
    var found := FindParticipant(rows, p.storedId.value);
    // the row at i matches, so a first match exists; neither can precede the other
    assert found.Some?;
    assert !(i < found.value);
    assert !(found.value < i);
  }

  /** A scoreboard without the student's row keeps the score shown. */
  lemma ScoreKeptWithoutOwnRow(p: Page, rows: seq<ScoreRow>)
    requires Truthy(p.storedId)
    requires forall j :: 0 <= j < |rows| ==> !JsLooseEquals(rows[j].participantId, p.storedId.value)
    ensures ScoreUpdated(p, Some(rows)).score == p.score
  {
  }

  /**
   * With the decimal id the join page stored, the own score is the score of
   * the first row carrying that id.
   */
  lemma OwnScoreOfStoredId(p: Page, rows: seq<ScoreRow>, n: nat, i: nat)
    requires p.storedId == Some(NatToString(n)) && i < |rows| && rows[i].participantId == n
    requires forall j :: 0 <= j < i ==> rows[j].participantId != n
    ensures ScoreUpdated(p, Some(rows)).score == rows[i].score
  {
    ParsersReadDecimal(n);
    forall j | 0 <= j < i
      ensures !JsLooseEquals(rows[j].participantId, p.storedId.value)
    {
    }
    OwnScoreIsFirstMatch(p, rows, i);
  }

  /**
   * After `end` no question is shown and the interval is stopped, so any
   * number of ticks leaves the page as it is.
   */
  lemma EndStopsThePage(p: Page, m: Incoming, k: nat)
    requires HasType(m) && m.kind.value == "end"
    ensures Received(p, m).currentQuestion.None? && !Received(p, m).timerRunning
    ensures Run(Received(p, m), seq(k, _ => TickEvent)) == Received(p, m)
  {
    StoppedTicks(Received(p, m), k);
  }

  /** A message without a `type`, such as every error reply of the server, changes nothing. */
  lemma UntypedMessageIgnored(p: Page, m: Incoming)
    requires m.kind.None?
    ensures Received(p, m) == p
  {
  }

  /**
   * The page as a component: the same state in fields, each handler a method
   * whose effect is the transition above.
   */
  class QuizPageComponent {
    var storedId: Option<string>
    var storedPin: Option<string>
    var socketCreated: bool
    var joinId: string
    var currentQuestion: Option<QuestionView>
    var score: int
    var status: string
    var hasAnswered: bool
    var timeLeft: int
    var timerRunning: bool
    var leaderboard: seq<Entry>
    var outbox: seq<Outgoing>

    function View(): Page
      reads this
    {
      Page(storedId, storedPin, socketCreated, joinId, currentQuestion, score, status,
           hasAnswered, timeLeft, timerRunning, leaderboard, outbox)
    }

    predicate Valid()
      reads this
    {
      Inv(View())
    }

    constructor (storedId: Option<string>, storedPin: Option<string>)
      ensures View() == Initial(storedId, storedPin) && Valid()
    {
      this.storedId, this.storedPin := storedId, storedPin;
      socketCreated, joinId := false, "";
      currentQuestion, score, status := None, 0, "Connecting...";
      hasAnswered, timeLeft, timerRunning := false, 0, false;
      leaderboard, outbox := [], [];
    }

    method Mount(constructionFails: bool)
      requires Valid()
      modifies this
      ensures View() == Mounted(old(View()), constructionFails) && Valid()
    {
      if storedId.None? || storedId.value == "" || storedPin.None? || storedPin.value == "" {
        status := "You must join first.";
        return;
      }
      if socketCreated {
        return;
      }
      if constructionFails {
        status := "Connection failed";
        return;
      }
      socketCreated := true;
      joinId := storedId.value;
    }

    method HandleOpen()
      requires Valid()
      modifies this
      ensures View() == Opened(old(View())) && Valid()
    {
      status := "Connected. Waiting for next question...";
      outbox := outbox + [Join(joinId)];
    }

    method HandleMessage(m: Incoming)
      requires Valid()
      modifies this
      ensures View() == Received(old(View()), m) && Valid()
    {
      ReceivedKeepsInv(View(), m);
      if m.kind.None? || m.kind.value == "" {
        return;
      }
      var t := m.kind.value;
      if t == "question" {
        ReceiveQuestion(m.question);
      } else if t == "score_update" {
        ReceiveScoreUpdate(m.scoreboard);
      } else if t == "end" {
        status := "Quiz ended. Thanks for playing!";
        currentQuestion := None;
        timerRunning := false;
      } else if t == "join_success" {
        status := "Connected. Waiting for question...";
      } else if t == "error" {
        status := "Error: " + m.error.GetOr("undefined");
      }
    }

    /** `setCurrentQuestion(msg.question)` and the effects it triggers. */
    method ReceiveQuestion(question: Option<QuestionView>)
      modifies this
      ensures question.Some? ==> View() == NewQuestion(old(View()), question.value)
      ensures question.None? ==> View() == old(View()).(currentQuestion := None, timerRunning := false, status := "Question received! Choose your answer.")
    {
      status := "Question received! Choose your answer.";
      match question {
        case Some(qv) =>
          currentQuestion := Some(qv);
          hasAnswered := false;
          timeLeft := TimeLimit(qv);
          timerRunning := true;
          leaderboard := [];
        case None =>
          currentQuestion := None;
          timerRunning := false;
      }
    }

    method ReceiveScoreUpdate(board: Option<seq<ScoreRow>>)
      modifies this
      ensures View() == ScoreUpdated(old(View()), board)
    {
      if storedId.Some? && storedId.value != "" && board.Some? {
        var found := FindParticipant(board.value, storedId.value);
        if found.Some? {
          score := board.value[found.value].score;
        }
        leaderboard := Rank(board.value);
      }
    }

    method Tick()
      requires Valid()
      modifies this
      ensures View() == Ticked(old(View())) && Valid()
    {
      if !timerRunning {
        return;
      }
      if timeLeft <= 1 {
        timeLeft := 0;
        timerRunning := false;
        // handleTimeUp, whose closure saw hasAnswered == false
        hasAnswered := true;
        status := "Time's up! Waiting for next question...";
      } else {
        timeLeft := timeLeft - 1;
      }
    }

    method SubmitAnswer(choiceId: int)
      requires Valid()
      modifies this
      ensures View() == Submitted(old(View()), choiceId) && Valid()
    {
      if !socketCreated || storedId.None? || storedId.value == "" || hasAnswered || timeLeft <= 0 {
        return;
      }
      timerRunning := false;
      hasAnswered := true;
      status := "Answer submitted! Waiting for results...";
      outbox := outbox + [Answer(storedId.value, choiceId)];
    }

    method HandleClose()
      requires Valid()
      modifies this
      ensures View() == Closed(old(View())) && Valid()
    {
      status := "Disconnected";
    }

    method HandleError()
      requires Valid()
      modifies this
      ensures View() == Errored(old(View())) && Valid()
    {
      status := "Connection error";
    }
  }
}
