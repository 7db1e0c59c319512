/**
 * The host add-in's session panel: creating a session, the host's socket,
 * pushing questions with a countdown, ending the session, the ranked
 * leaderboard with its statistics, and the new-question form.
 *
 * As for the student page, the panel's React state and the messages it hands
 * to its socket form a `Host` value, each handler is a transition on it, and
 * the `SessionPanelComponent` class implements the handlers on fields. HTTP
 * requests are not modelled; their results arrive as event inputs.
 */
module SessionPanel {
  import opened Wrappers
  import opened Ranking
  import Countdown

  datatype HostChoice = HostChoice(id: int, text: string, isCorrect: bool)
  datatype HostQuestion = HostQuestion(id: int, text: string, choices: seq<HostChoice>, timeLimit: nat)

  /** What the host sends over its socket. */
  datatype HostOutgoing =
    | HostJoin(token: Option<string>, sessionPin: string)
    | HostPushQuestion(questionId: int)
    | HostEndSession

  /** A parsed inbound message as the panel reads it: `msg.error`, `msg.type`, `msg.scoreboard`. */
  datatype HostIncoming = HostIncoming(error: Option<string>, kind: Option<string>, scoreboard: Option<seq<ScoreRow>>)

  /**
   * The client `createSession` makes: its callbacks close over the created
   * PIN (`data.pin`) and the number of questions loaded at that moment.
   */
  datatype HostClient = HostClient(sessionPin: string, questionCount: nat)

  datatype SessionStats = SessionStats(totalParticipants: nat, totalQuestions: nat, averageScore: int)

  /** The outcome of `POST /api/sessions/`. */
  datatype SessionResponse = Created(pin: string) | Rejected(error: string) | NetworkFailure

  datatype Host = Host(
    token: Option<string>,              // the module-level access token
    selectedQuiz: Option<string>,
    questions: seq<HostQuestion>,
    selectedQuestion: Option<int>,
    pin: string,
    status: string,
    client: Option<HostClient>,         // the client made by `createSession`, if any
    isConnected: bool,
    questionTimer: int,
    timerActive: bool,
    leaderboard: seq<Entry>,
    showLeaderboard: bool,
    stats: SessionStats,
    outbox: seq<HostOutgoing>,          // every message passed to the client's send
    alerts: seq<string>)                // every `alert(...)`, in order

  predicate Truthy(s: Option<string>) {
    s.Some? && s.value != ""
  }

  /** `selectedQuestion` is a number or null; 0 is falsy. */
  predicate Selected(q: Option<int>) {
    q.Some? && q.value != 0
  }

  /** `question.time_limit || 30`. */
  function TimeLimit(q: HostQuestion): nat {
    Countdown.Start(q.timeLimit)
  }

  function Initial(token: Option<string>): Host {
    Host(token, None, [], None, "", "Disconnected", None, false, 0, false, [],
         true, SessionStats(0, 0, 0), [], [])
  }

  /** The interval exists exactly while the timer is active, and then shows at least 1. */
  predicate Inv(h: Host) {
    h.questionTimer >= 0 && (h.timerActive ==> h.questionTimer >= 1)
  }

  /** The timer effect's updater, on each tick of the interval that `timerActive` armed. */
  function HostTicked(h: Host): (g: Host)
    ensures !h.timerActive ==> g == h
    ensures h.timerActive && h.questionTimer <= 1 ==> g == h.(questionTimer := 0, timerActive := false)
    ensures h.timerActive && h.questionTimer > 1 ==> g == h.(questionTimer := h.questionTimer - 1)
  {
    if !h.timerActive then h
    else h.(questionTimer := Countdown.Next(h.questionTimer), timerActive := !Countdown.Expires(h.questionTimer))
  }

  /** `questions.find(q => q.id === selectedQuestion)`, as an index. */
  function FindQuestion(qs: seq<HostQuestion>, id: int): (found: Option<nat>)
    ensures found.None? <==> forall i :: 0 <= i < |qs| ==> qs[i].id != id
    ensures found.Some? ==>
      found.value < |qs| && qs[found.value].id == id && forall i :: 0 <= i < found.value ==> qs[i].id != id
  {
    if qs == [] then None
    else if qs[0].id == id then Some(0)
    else
      var r := FindQuestion(qs[1..], id);
      assert forall i :: 1 <= i < |qs| ==> qs[i] == qs[1..][i - 1];
      if r.Some? then Some(r.value + 1) else None
  }

  predicate CanPush(h: Host) {
    h.client.Some? && h.isConnected && Selected(h.selectedQuestion)
  }

  /**
   * `pushQuestion`: without a client, a connection or a selected question only
   * an alert; otherwise the timer restarts from the selected question's
   * limit (when the question is in the list) and the push is sent.
   */
  function Pushed(h: Host): (g: Host)
    ensures !CanPush(h) ==> g == h.(alerts := h.alerts + ["WebSocket not connected or no question selected"])
    ensures CanPush(h) ==> g.outbox == h.outbox + [HostPushQuestion(h.selectedQuestion.value)]
    ensures CanPush(h) ==> var k := FindQuestion(h.questions, h.selectedQuestion.value);
      && (k.Some? ==> g.timerActive && g.questionTimer == Countdown.Start(h.questions[k.value].timeLimit))
      && (k.None? ==> g.timerActive == h.timerActive && g.questionTimer == h.questionTimer)
      && g.alerts == h.alerts
    ensures CanPush(h) ==> g == h.(outbox := g.outbox, questionTimer := g.questionTimer, timerActive := g.timerActive)
  {
    if !CanPush(h) then h.(alerts := h.alerts + ["WebSocket not connected or no question selected"])
    else
      var k := FindQuestion(h.questions, h.selectedQuestion.value);
      var armed := if k.Some? then h.(questionTimer := TimeLimit(h.questions[k.value]), timerActive := true) else h;
      armed.(outbox := h.outbox + [HostPushQuestion(h.selectedQuestion.value)])
  }

  /**
   * `endSession`: with a connected client, the single `host_end_session`
   * message and the "Session ended!" alert; nothing else changes.
   */
  function Ended(h: Host): (g: Host)
    ensures h.client.Some? && h.isConnected ==> g.outbox == h.outbox + [HostEndSession]
    ensures h.client.Some? && h.isConnected ==>
      g == h.(outbox := h.outbox + [HostEndSession], alerts := h.alerts + ["Session ended!"])
    ensures !(h.client.Some? && h.isConnected) ==> g == h
  {
    if h.client.Some? && h.isConnected then
      h.(outbox := h.outbox + [HostEndSession], alerts := h.alerts + ["Session ended!"])
    else h
  }

  /**
   * `createSession`: it needs a token and a selected quiz; a created session
   * sets the PIN and makes a new client whose callbacks capture the PIN and the
   * current number of questions.
   */
  function SessionCreated(h: Host, response: SessionResponse): (g: Host)
    ensures !Truthy(h.token) ==> g == h.(alerts := h.alerts + ["Login first"])
    ensures Truthy(h.token) && !Truthy(h.selectedQuiz) ==> g == h.(alerts := h.alerts + ["Please select a quiz first"])
    ensures g.client != h.client ==> Truthy(h.token) && Truthy(h.selectedQuiz) && response.Created?
    ensures Truthy(h.token) && Truthy(h.selectedQuiz) && response.Created? ==>
      g.pin == response.pin && g.client == Some(HostClient(response.pin, |h.questions|))
    ensures Truthy(h.token) && Truthy(h.selectedQuiz) && response.Created? ==> g.status == "Connecting..."
    ensures Truthy(h.token) && Truthy(h.selectedQuiz) && response.Rejected? ==>
      g == h.(alerts := h.alerts + ["Error: " + response.error])
    ensures Truthy(h.token) && Truthy(h.selectedQuiz) && response.NetworkFailure? ==> g == h
    ensures g.outbox == h.outbox
    ensures g == h.(alerts := g.alerts, pin := g.pin, status := g.status, client := g.client)
  {
    if !Truthy(h.token) then h.(alerts := h.alerts + ["Login first"])
    else if !Truthy(h.selectedQuiz) then h.(alerts := h.alerts + ["Please select a quiz first"])
    else match response
      case Rejected(err) => h.(alerts := h.alerts + ["Error: " + err])
      // a rejected fetch promise is not caught: nothing happens
      case NetworkFailure => h
      case Created(pin) =>
        h.(pin := pin, status := "Connecting...", client := Some(HostClient(pin, |h.questions|)))
  }

  /** The open callback: connected, and `host_join` with the token and the created PIN. */
  function HostOpened(h: Host): (g: Host)
    requires h.client.Some?
    ensures g.isConnected
    ensures g.outbox == h.outbox + [HostJoin(h.token, h.client.value.sessionPin)]
    ensures g == h.(isConnected := true, status := "Connected", outbox := g.outbox)
  {
    h.(isConnected := true, status := "Connected", outbox := h.outbox + [HostJoin(h.token, h.client.value.sessionPin)])
  }

  /** The close callback. */
  function HostClosed(h: Host): (g: Host)
    ensures !g.isConnected && g.outbox == h.outbox
    ensures g == h.(isConnected := false, status := "Disconnected")
  {
    h.(isConnected := false, status := "Disconnected")
  }

  /**
   * The message callback: an error is alerted; a `score_update` ranks the
   * scoreboard and recomputes the statistics, where the number of questions
   * is the one captured when the session was created. A `score_update`
   * without a scoreboard throws inside the client's `try`, so only the alert
   * (if any) happens.
   */
  function HostReceived(h: Host, m: HostIncoming): (g: Host)
    requires h.client.Some?
    ensures g.outbox == h.outbox
    ensures g.alerts == h.alerts + (if Truthy(m.error) then ["Error: " + m.error.value] else [])
    ensures m.kind == Some("score_update") && m.scoreboard.Some? ==>
      && g.leaderboard == Rank(m.scoreboard.value)
      && g.stats.totalParticipants == |m.scoreboard.value|
      && g.stats.totalQuestions == h.client.value.questionCount
      && g.stats.averageScore == Average(g.leaderboard)
    ensures !(m.kind == Some("score_update") && m.scoreboard.Some?) ==>
      g.leaderboard == h.leaderboard && g.stats == h.stats
    ensures g == h.(alerts := g.alerts, leaderboard := g.leaderboard, stats := g.stats)
  {
    var alerted := if Truthy(m.error) then h.(alerts := h.alerts + ["Error: " + m.error.value]) else h;
    if m.kind == Some("score_update") && m.scoreboard.Some? then
      var ranked := Rank(m.scoreboard.value);
      alerted.(leaderboard := ranked,
               stats := SessionStats(|ranked|, h.client.value.questionCount, Average(ranked)))
    else alerted
  }

  /**
   * `fetchQuizzes` succeeding with the listed quiz ids: the first one is
   * selected (its questions are then fetched, and arrive as their own event).
   * Without a token no request is made.
   */
  function QuizzesLoaded(h: Host, ids: seq<string>): (g: Host)
    ensures !Truthy(h.token) || ids == [] ==> g == h
    ensures Truthy(h.token) && ids != [] ==> g.selectedQuiz == Some(ids[0])
    ensures g == h.(selectedQuiz := g.selectedQuiz)
  {
    if Truthy(h.token) && |ids| > 0 then h.(selectedQuiz := Some(ids[0])) else h
  }

  /**
   * The quiz `<select>` changing to `value` ("" for its placeholder option):
   * it becomes the selection (its questions are fetched as for a loaded list).
   */
  function QuizSelected(h: Host, value: string): (g: Host)
    ensures g.selectedQuiz == Some(value) && (Truthy(g.selectedQuiz) <==> value != "")
    ensures g == h.(selectedQuiz := g.selectedQuiz)
  {
    h.(selectedQuiz := Some(value))
  }

  /** `fetchQuestions` succeeding: the list is replaced and its first question selected. */
  function QuestionsLoaded(h: Host, data: seq<HostQuestion>): (g: Host)
    ensures g.questions == data
    ensures g.selectedQuestion == (if data == [] then None else Some(data[0].id))
    ensures g == h.(questions := data, selectedQuestion := g.selectedQuestion)
  {
    h.(questions := data, selectedQuestion := if |data| > 0 then Some(data[0].id) else None)
  }

  /** `createNewQuestion` succeeding: the new question is appended and selected. */
  function QuestionAdded(h: Host, q: HostQuestion): (g: Host)
    ensures g.questions == h.questions + [q] && g.selectedQuestion == Some(q.id)
    ensures g.alerts == h.alerts + ["Question created successfully!"]
    ensures g == h.(questions := g.questions, selectedQuestion := g.selectedQuestion, alerts := g.alerts)
  {
    h.(questions := h.questions + [q], selectedQuestion := Some(q.id),
       alerts := h.alerts + ["Question created successfully!"])
  }

  function Toggled(h: Host): (g: Host)
    ensures g.showLeaderboard == !h.showLeaderboard
    ensures g == h.(showLeaderboard := g.showLeaderboard)
  {
    h.(showLeaderboard := !h.showLeaderboard)
  }

  datatype Event =
    | TickEvent
    | PushEvent
    | EndEvent
    | CreateEvent(response: SessionResponse)
    | OpenEvent
    | CloseEvent
    | MessageEvent(msg: HostIncoming)
    | QuizzesEvent(ids: seq<string>)
    | SelectQuizEvent(value: string)
    | QuestionsEvent(data: seq<HostQuestion>)
    | AddedEvent(q: HostQuestion)
    | ToggleEvent

  function Step(h: Host, e: Event): Host {
    match e
    case TickEvent => HostTicked(h)
    case PushEvent => Pushed(h)
    case EndEvent => Ended(h)
    case CreateEvent(r) => SessionCreated(h, r)
    // the socket's callbacks only fire once a client exists
    case OpenEvent => if h.client.Some? then HostOpened(h) else h
    case CloseEvent => if h.client.Some? then HostClosed(h) else h
    case MessageEvent(m) => if h.client.Some? then HostReceived(h, m) else h
    case QuizzesEvent(ids) => QuizzesLoaded(h, ids)
    case SelectQuizEvent(v) => QuizSelected(h, v)
    case QuestionsEvent(d) => QuestionsLoaded(h, d)
    case AddedEvent(q) => QuestionAdded(h, q)
    case ToggleEvent => Toggled(h)
  }

  lemma StepKeepsInv(h: Host, e: Event)
    requires Inv(h)
    ensures Inv(Step(h, e))
  {
    match e
    case TickEvent => assert Countdown.Next(h.questionTimer) >= 0;
    case PushEvent =>
      if CanPush(h) {
        var k := FindQuestion(h.questions, h.selectedQuestion.value);
        if k.Some? {
          assert Countdown.Start(h.questions[k.value].timeLimit) >= 1;
        }
      }
    case _ =>
  }

  function Run(h: Host, es: seq<Event>): Host
    decreases |es|
  {
    if es == [] then h else Run(Step(h, es[0]), es[1..])
  }

  /** The events that hand a message to the socket: a push, an end and an open. */
  predicate MaySend(e: Event) {
    e.PushEvent? || e.EndEvent? || e.OpenEvent?
  }

  function SendCount(es: seq<Event>): nat {
    if es == [] then 0 else (if MaySend(es[0]) then 1 else 0) + SendCount(es[1..])
  }

  /**
   * Messages are only ever appended, at most one per push, end or open: no
   * other handler sends anything.
   */
  lemma {:induction false} SendsOnlyOnPushEndOpen(h: Host, es: seq<Event>)
    ensures h.outbox <= Run(h, es).outbox
    ensures |Run(h, es).outbox| <= |h.outbox| + SendCount(es)
    decreases |es|
  {
    if es != [] {
      var h1 := Step(h, es[0]);
      SendsOnlyOnPushEndOpen(h1, es[1..]);
      StepSends(h, es[0]);
    }
  }

  /** One event appends at most one message, and only a push, an end or an open does. */
  lemma StepSends(h: Host, e: Event)
    ensures h.outbox <= Step(h, e).outbox
    ensures |Step(h, e).outbox| <= |h.outbox| + (if MaySend(e) then 1 else 0)
  {
    match e
    case PushEvent =>
      if CanPush(h) {
        assert Pushed(h).outbox == h.outbox + [HostPushQuestion(h.selectedQuestion.value)];
      } else {
        assert Pushed(h).outbox == h.outbox;
      }
    case EndEvent =>
    case OpenEvent =>
    case CreateEvent(r) => assert SessionCreated(h, r).outbox == h.outbox;
    case MessageEvent(m) =>
      if h.client.Some? {
        assert HostReceived(h, m).outbox == h.outbox;
      }
    case _ =>
  }

  /** A pushed question with limit N runs the host timer down in N ticks. */
  lemma {:induction false} HostTicksFrom(h: Host, k: nat)
    requires h.timerActive && h.questionTimer >= 1
    ensures var g := Run(h, seq(k, _ => TickEvent));
      && g.outbox == h.outbox
      && (k < h.questionTimer ==> g.questionTimer == h.questionTimer - k && g.timerActive)
      && (k >= h.questionTimer ==> g.questionTimer == 0 && !g.timerActive)
    decreases k
  {
    if k > 0 {
      var ticks := seq(k, _ => TickEvent);
      assert ticks[0] == TickEvent && ticks[1..] == seq(k - 1, _ => TickEvent);
      var h1 := Step(h, TickEvent);
      if h.questionTimer == 1 {
        InactiveTicks(h1, k - 1);
      } else {
        HostTicksFrom(h1, k - 1);
      }
    }
  }

  lemma {:induction false} InactiveTicks(h: Host, k: nat)
    requires !h.timerActive
    ensures Run(h, seq(k, _ => TickEvent)) == h
    decreases k
  {
    if k > 0 {
      var ticks := seq(k, _ => TickEvent);
      assert ticks[0] == TickEvent && ticks[1..] == seq(k - 1, _ => TickEvent);
      InactiveTicks(h, k - 1);
    }
  }

  /**
   * The statistics count the questions loaded when the session was created:
   * questions added afterwards do not show up in `totalQuestions`.
   */
  lemma StaleQuestionCount(h: Host, q: HostQuestion, rows: seq<ScoreRow>)
    requires h.client.Some?
    ensures var g := Run(h, [AddedEvent(q), MessageEvent(HostIncoming(None, Some("score_update"), Some(rows)))]);
      g.stats.totalQuestions == h.client.value.questionCount && |g.questions| == |h.questions| + 1
  {
    var m := HostIncoming(None, Some("score_update"), Some(rows));
    var es := [AddedEvent(q), MessageEvent(m)];
    var h1 := QuestionAdded(h, q);
    assert h1 == h.(questions := h1.questions, selectedQuestion := h1.selectedQuestion, alerts := h1.alerts);
    var h2 := HostReceived(h1, m);
    assert h2.stats.totalQuestions == h.client.value.questionCount;
    assert es[1..] == [MessageEvent(m)] && es[1..][1..] == [];
    assert Run(h, es) == Run(h1, es[1..]);
    assert Run(h1, es[1..]) == Run(h2, []);
  }

  /** With a token, loading the quizzes selects the first one, and a created session then makes the client. */
  lemma CreateAfterQuizzesLoaded(token: Option<string>, quiz: string, more: seq<string>, pin: string)
    requires Truthy(token) && quiz != ""
    ensures Run(Initial(token), [QuizzesEvent([quiz] + more), CreateEvent(Created(pin))]).client == Some(HostClient(pin, 0))
  {
    var h1 := QuizzesLoaded(Initial(token), [quiz] + more);
    assert h1.selectedQuiz == Some(quiz) && h1.questions == [] && h1.token == token;
    RunPair(Initial(token), QuizzesEvent([quiz] + more), CreateEvent(Created(pin)));
  }

  /** Choosing the select's placeholder option stops `createSession` at its quiz check. */
  lemma PlaceholderBlocksCreate(h: Host, pin: string)
    requires Truthy(h.token)
    ensures var g := Run(h, [SelectQuizEvent(""), CreateEvent(Created(pin))]);
      g.client == h.client && g.alerts == h.alerts + ["Please select a quiz first"]
  {
    var h1 := QuizSelected(h, "");
    assert !Truthy(h1.selectedQuiz);
    RunPair(h, SelectQuizEvent(""), CreateEvent(Created(pin)));
  }

  lemma RunPair(h: Host, e1: Event, e2: Event)
    ensures Run(h, [e1, e2]) == Step(Step(h, e1), e2)
  {
    var es := [e1, e2];
    assert es[1..] == [e2] && es[1..][1..] == [];
    assert Run(h, es) == Run(Step(h, e1), [e2]);
    assert Run(Step(h, e1), [e2]) == Run(Step(Step(h, e1), e2), []);
  }

  // --- The new-question form ---

  datatype ChoiceDraft = ChoiceDraft(text: string, isCorrect: bool)
  datatype QuestionDraft = QuestionDraft(quiz: string, text: string, order: nat, timeLimit: nat, choices: seq<ChoiceDraft>)

  /** The answers to the six prompts (None when cancelled). */
  datatype Prompts = Prompts(text: Option<string>, choices: seq<Option<string>>, correct: Option<string>)

  /** Either the request body, or the form stops (with the alert it shows, if any). */
  datatype FormOutcome = Draft(body: QuestionDraft) | Abort(alert: Option<string>)

  const Digits: seq<string> := ["1", "2", "3", "4"]

  /** The first cancelled or empty choice, as a 0-based index, if any. */
  function FirstMissingChoice(cs: seq<Option<string>>): (k: Option<nat>)
    ensures k.None? <==> forall i :: 0 <= i < |cs| ==> Truthy(cs[i])
    ensures k.Some? ==> k.value < |cs| && !Truthy(cs[k.value]) && forall i :: 0 <= i < k.value ==> Truthy(cs[i])
  {
    if cs == [] then None
    else if !Truthy(cs[0]) then Some(0)
    else
      var r := FirstMissingChoice(cs[1..]);
      assert forall i :: 1 <= i < |cs| ==> cs[i] == cs[1..][i - 1];
      if r.Some? then Some(r.value + 1) else None
  }

  /**
   * `createNewQuestion` up to the request: it needs a token and a quiz, a
   * question text, four non-empty choices and "1".."4" for the correct one.
   */
  function BuildQuestionDraft(token: Option<string>, selectedQuiz: Option<string>, questionCount: nat, p: Prompts): (r: FormOutcome)
    requires |p.choices| == 4
    ensures r.Draft? <==>
      Truthy(token) && Truthy(selectedQuiz) && Truthy(p.text)
      && (forall i :: 0 <= i < 4 ==> Truthy(p.choices[i]))
      && Truthy(p.correct) && p.correct.value in Digits
    ensures r.Draft? ==>
      && |r.body.choices| == 4
      && r.body.order == questionCount && r.body.timeLimit == 30
      && r.body.text == p.text.value && r.body.quiz == selectedQuiz.value
      && (forall i :: 0 <= i < 4 ==> r.body.choices[i].text == p.choices[i].value)
      && (forall i :: 0 <= i < 4 ==> (r.body.choices[i].isCorrect <==> p.correct.value == Digits[i]))
    ensures r.Abort? && !Truthy(token) ==> r.alert == Some("Login first and select a quiz")
  {
    if !Truthy(token) || !Truthy(selectedQuiz) then Abort(Some("Login first and select a quiz"))
    else if !Truthy(p.text) then Abort(None)
    else match FirstMissingChoice(p.choices)
      case Some(k) => Abort(Some("Choice " + Digits[k] + " is required"))
      case None =>
        if !Truthy(p.correct) || p.correct.value !in Digits then
          Abort(Some("Please enter 1, 2, 3, or 4 for the correct answer"))
        else
          var c := p.correct.value;
          Draft(QuestionDraft(selectedQuiz.value, p.text.value, questionCount, 30,
            seq(4, i requires 0 <= i < 4 => ChoiceDraft(p.choices[i].value, c == Digits[i]))))
  }

  function CorrectCount(cs: seq<ChoiceDraft>): nat {
    if cs == [] then 0 else (if cs[0].isCorrect then 1 else 0) + CorrectCount(cs[1..])
  }

  /** A built question has exactly one correct choice: the one the host named. */
  lemma ExactlyOneCorrect(token: Option<string>, selectedQuiz: Option<string>, questionCount: nat, p: Prompts)
    requires |p.choices| == 4
    requires BuildQuestionDraft(token, selectedQuiz, questionCount, p).Draft?
    ensures CorrectCount(BuildQuestionDraft(token, selectedQuiz, questionCount, p).body.choices) == 1
  {
    var cs := BuildQuestionDraft(token, selectedQuiz, questionCount, p).body.choices;
    var n0, n1, n2, n3 := if cs[0].isCorrect then 1 else 0, if cs[1].isCorrect then 1 else 0,
                          if cs[2].isCorrect then 1 else 0, if cs[3].isCorrect then 1 else 0;
    assert CorrectCount(cs[3..]) == n3 by { assert cs[3..][1..] == []; }
    assert CorrectCount(cs[2..]) == n2 + n3 by { assert cs[2..][1..] == cs[3..]; }
    assert CorrectCount(cs[1..]) == n1 + n2 + n3 by { assert cs[1..][1..] == cs[2..]; }
    assert CorrectCount(cs) == n0 + n1 + n2 + n3 by { assert cs[1..] == cs[1..]; }
  }

  /** The panel as a component: the same state in fields, each handler a method. */
  class SessionPanelComponent {
    var token: Option<string>
    var selectedQuiz: Option<string>
    var questions: seq<HostQuestion>
    var selectedQuestion: Option<int>
    var pin: string
    var status: string
    var client: Option<HostClient>
    var isConnected: bool
    var questionTimer: int
    var timerActive: bool
    var leaderboard: seq<Entry>
    var showLeaderboard: bool
    var stats: SessionStats
    var outbox: seq<HostOutgoing>
    var alerts: seq<string>

    function View(): Host
      reads this
    {
      Host(token, selectedQuiz, questions, selectedQuestion, pin, status, client, isConnected,
           questionTimer, timerActive, leaderboard, showLeaderboard,
           stats, outbox, alerts)
    }

    /** `Inv` of the view, read off the two fields it constrains. */
    predicate Valid()
      reads this
    {
      questionTimer >= 0 && (timerActive ==> questionTimer >= 1)
    }

    constructor (token: Option<string>)
      ensures View() == Initial(token) && Valid()
    {
      this.token := token;
      selectedQuiz, questions, selectedQuestion := None, [], None;
      pin, status, client, isConnected := "", "Disconnected", None, false;
      questionTimer, timerActive := 0, false;
      leaderboard, showLeaderboard, stats := [], true, SessionStats(0, 0, 0);
      outbox, alerts := [], [];
    }

    method Tick()
      requires Valid()
      modifies this
      ensures View() == HostTicked(old(View())) && Valid()
    {
      if timerActive {
        if questionTimer <= 1 {
          timerActive := false;
          questionTimer := 0;
        } else {
          questionTimer := questionTimer - 1;
        }
      }
    }

    method PushQuestion()
      requires Valid()
      modifies this
      ensures View() == Pushed(old(View())) && Valid()
    {
      ghost var h := View();
      if client.None? || !isConnected || selectedQuestion.None? || selectedQuestion.value == 0 {
        alerts := alerts + ["WebSocket not connected or no question selected"];
        assert View() == h.(alerts := h.alerts + ["WebSocket not connected or no question selected"]);
        return;
      }
      var k := FindQuestion(questions, selectedQuestion.value);
      ghost var armed := if k.Some? then h.(questionTimer := TimeLimit(h.questions[k.value]), timerActive := true) else h;
      if k.Some? {
        questionTimer := TimeLimit(questions[k.value]);
        timerActive := true;
      }
      assert View() == armed;
      outbox := outbox + [HostPushQuestion(selectedQuestion.value)];
      assert View() == armed.(outbox := h.outbox + [HostPushQuestion(h.selectedQuestion.value)]);
    }

    method EndSession()
      requires Valid()
      modifies this
      ensures View() == Ended(old(View())) && Valid()
    {
      if client.Some? && isConnected {
        outbox := outbox + [HostEndSession];
        alerts := alerts + ["Session ended!"];
      }
    }

    /** `alert(message)`: recorded, nothing else changes. */
    method Alert(message: string)
      modifies this
      ensures View() == old(View()).(alerts := old(alerts) + [message])
    {
      alerts := alerts + [message];
    }

    method CreateSession(response: SessionResponse)
      requires Valid()
      modifies this
      ensures Valid()
      ensures View() == SessionCreated(old(View()), response)
    {
      ghost var timer, active := questionTimer, timerActive;
      if !Truthy(token) {
        Alert("Login first");
      } else if !Truthy(selectedQuiz) {
        Alert("Please select a quiz first");
      } else if response.Rejected? {
        Alert("Error: " + response.error);
      } else if response.Created? {
        pin, status, client := response.pin, "Connecting...", Some(HostClient(response.pin, |questions|));
      }
      assert questionTimer == timer && timerActive == active;
    }

    method HandleOpen()
      requires Valid() && client.Some?
      modifies this
      ensures View() == HostOpened(old(View())) && Valid()
    {
      isConnected := true;
      status := "Connected";
      outbox := outbox + [HostJoin(token, client.value.sessionPin)];
    }

    method HandleClose()
      requires Valid()
      modifies this
      ensures View() == HostClosed(old(View())) && Valid()
    {
      isConnected := false;
      status := "Disconnected";
    }

    method HandleMessage(m: HostIncoming)
      requires Valid() && client.Some?
      modifies this
      ensures View() == HostReceived(old(View()), m) && Valid()
    {
      ghost var timer, active := questionTimer, timerActive;
      if m.error.Some? && m.error.value != "" {
        Alert("Error: " + m.error.value);
      }
      if m.kind == Some("score_update") && m.scoreboard.Some? {
        var ranked := Rank(m.scoreboard.value);
        leaderboard := ranked;
        stats := SessionStats(|ranked|, client.value.questionCount, Average(ranked));
      }
      assert questionTimer == timer && timerActive == active;
    }

    method LoadQuizzes(ids: seq<string>)
      requires Valid()
      modifies this
      ensures View() == QuizzesLoaded(old(View()), ids) && Valid()
    {
      if token.Some? && token.value != "" && |ids| > 0 {
        selectedQuiz := Some(ids[0]);
      }
    }

    method SelectQuiz(value: string)
      requires Valid()
      modifies this
      ensures View() == QuizSelected(old(View()), value) && Valid()
    {
      selectedQuiz := Some(value);
    }

    method LoadQuestions(data: seq<HostQuestion>)
      requires Valid()
      modifies this
      ensures View() == QuestionsLoaded(old(View()), data) && Valid()
    {
      questions := data;
      selectedQuestion := if |data| > 0 then Some(data[0].id) else None;
    }

    method AddQuestion(q: HostQuestion)
      requires Valid()
      modifies this
      ensures View() == QuestionAdded(old(View()), q) && Valid()
    {
      questions := questions + [q];
      selectedQuestion := Some(q.id);
      alerts := alerts + ["Question created successfully!"];
    }

    method ToggleLeaderboard()
      requires Valid()
      modifies this
      ensures View() == Toggled(old(View())) && Valid()
    {
      showLeaderboard := !showLeaderboard;
    }
  }
}
