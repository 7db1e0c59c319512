/**
 * The wire between the clients and the session consumer: the JSON each
 * client sends for its outgoing messages, how each client reads the JSON the
 * consumer sends back (`msg.type`, `msg.error`, `msg.question`,
 * `msg.scoreboard`), and what the two ends make of each other.
 */
module Protocol {
  import opened Wrappers
  import opened Ranking
  import opened Models
  import opened Consumer
  import opened Routing
  import QuizPage
  import SessionPanel

  // --- What the clients send ---

  /** `socket.send({action: "join", ...})` and `socket.send({action: "answer", ...})`. */
  function StudentJson(m: QuizPage.Outgoing): JVal {
    match m
    case Join(pid) => JObject(map["action" := JStr("join"), "participant_id" := JStr(pid)])
    case Answer(pid, cid) =>
      JObject(map["action" := JStr("answer"), "participant_id" := JStr(pid), "choice_id" := JInt(cid)])
  }

  /** The host's three messages; a null token is written as JSON `null`. */
  function HostJson(m: SessionPanel.HostOutgoing): JVal {
    match m
    case HostJoin(token, pin) =>
      JObject(map["action" := JStr("host_join"),
                  "token" := (if token.Some? then JStr(token.value) else JNull),
                  "session_pin" := JStr(pin)])
    case HostPushQuestion(id) => JObject(map["action" := JStr("host_push_question"), "question_id" := JInt(id)])
    case HostEndSession => JObject(map["action" := JStr("host_end_session")])
  }

  // --- How the clients read what arrives ---

  /** A string property of a parsed message; None when it is absent or not a string. */
  function StrField(j: JVal, key: string): Option<string> {
    if j.JObject? && key in j.fields && j.fields[key].JStr? then Some(j.fields[key].s) else None
  }

  function RowOfJson(j: JVal): Option<ScoreRow> {
    if j.JObject? && "participant_id" in j.fields && j.fields["participant_id"].JInt?
       && "name" in j.fields && j.fields["name"].JStr? && "score" in j.fields && j.fields["score"].JInt?
    then Some(ScoreRow(j.fields["participant_id"].i, j.fields["name"].s, j.fields["score"].i))
    else None
  }

  /** `msg.scoreboard`, when it is an array of score rows. */
  function ScoreboardField(j: JVal): Option<seq<ScoreRow>> {
    if j.JObject? && "scoreboard" in j.fields && j.fields["scoreboard"].JArray? then
      var items := j.fields["scoreboard"].items;
      if forall i :: 0 <= i < |items| ==> RowOfJson(items[i]).Some? then
        Some(seq(|items|, i requires 0 <= i < |items| => RowOfJson(items[i]).value))
      else None
    else None
  }

  function ChoiceOfJson(j: JVal): Option<QuizPage.ChoiceView> {
    if j.JObject? && "id" in j.fields && j.fields["id"].JInt? && "text" in j.fields && j.fields["text"].JStr?
    then Some(QuizPage.ChoiceView(j.fields["id"].i, j.fields["text"].s))
    else None
  }

  function QuestionOfJson(j: JVal): Option<QuizPage.QuestionView> {
    if j.JObject? && "id" in j.fields && j.fields["id"].JInt? && "text" in j.fields && j.fields["text"].JStr?
       && "choices" in j.fields && j.fields["choices"].JArray?
       && "time_limit" in j.fields && j.fields["time_limit"].JInt? && j.fields["time_limit"].i >= 0
    then
      var items := j.fields["choices"].items;
      if forall i :: 0 <= i < |items| ==> ChoiceOfJson(items[i]).Some? then
        Some(QuizPage.QuestionView(j.fields["id"].i, j.fields["text"].s,
                                   seq(|items|, i requires 0 <= i < |items| => ChoiceOfJson(items[i]).value),
                                   j.fields["time_limit"].i))
      else None
    else None
  }

  /** `msg.question`. */
  function QuestionField(j: JVal): Option<QuizPage.QuestionView> {
    if j.JObject? && "question" in j.fields then QuestionOfJson(j.fields["question"]) else None
  }

  /** A consumer message as the quiz page reads it. */
  function StudentReads(m: Msg): QuizPage.Incoming {
    var j := ToJson(m);
    QuizPage.Incoming(StrField(j, "type"), QuestionField(j), ScoreboardField(j), StrField(j, "error"))
  }

  /** A consumer message as the session panel reads it. */
  function HostReads(m: Msg): SessionPanel.HostIncoming {
    var j := ToJson(m);
    SessionPanel.HostIncoming(StrField(j, "error"), StrField(j, "type"), ScoreboardField(j))
  }

  /** The question a pushed payload describes, in the page's terms. */
  function ViewOf(q: QuestionPayload): (v: QuizPage.QuestionView)
    ensures v.id == q.id && v.text == q.text && v.timeLimit == q.timeLimit
    ensures |v.choices| == |q.choices|
    ensures forall i :: 0 <= i < |q.choices| ==>
      v.choices[i].id == q.choices[i].id && v.choices[i].text == q.choices[i].text
  {
    QuizPage.QuestionView(q.id, q.text,
                          seq(|q.choices|, i requires 0 <= i < |q.choices| => QuizPage.ChoiceView(q.choices[i].id, q.choices[i].text)),
                          q.timeLimit)
  }

  /** A scoreboard is read back exactly as the consumer built it. */
  lemma ScoreboardRoundTrip(b: seq<ScoreRow>)
    ensures ScoreboardField(ToJson(ScoreUpdateMsg(b))) == Some(b)
  {
    var items := ToJson(ScoreUpdateMsg(b)).fields["scoreboard"].items;
    assert forall i :: 0 <= i < |items| ==> items[i] == RowJson(b[i]);
    assert forall i :: 0 <= i < |items| ==> RowOfJson(items[i]) == Some(b[i]);
    assert seq(|items|, i requires 0 <= i < |items| => RowOfJson(items[i]).value) == b;
  }

  /** A pushed question is read back with its id, text, choices and time limit. */
  lemma QuestionRoundTrip(q: QuestionPayload)
    ensures QuestionField(ToJson(QuestionMsg(q))) == Some(ViewOf(q))
  {
    var j := PayloadJson(q);
    var items := j.fields["choices"].items;
    assert forall i :: 0 <= i < |items| ==> ChoiceOfJson(items[i]) == Some(QuizPage.ChoiceView(q.choices[i].id, q.choices[i].text));
    assert seq(|items|, i requires 0 <= i < |items| => ChoiceOfJson(items[i]).value) == ViewOf(q).choices;
  }

  /**
   * What each consumer message means to the quiz page: a failure carries only
   * its error, a typed reply only its type, a scoreboard and a question arrive
   * whole, and a pong carries nothing the page reads.
   */
  lemma StudentReadsEachMessage(m: Msg)
    ensures var r := StudentReads(m);
      && (m.ErrorMsg? ==> r == QuizPage.Incoming(None, None, None, Some(m.error)))
      && (m.UnknownActionMsg? ==> r == QuizPage.Incoming(None, None, None, Some("unknown_action")))
      && (m.TypeMsg? ==> r == QuizPage.Incoming(Some(m.kind), None, None, None))
      && (m.PongMsg? ==> r == QuizPage.Incoming(None, None, None, None))
      && (m.ScoreUpdateMsg? ==> r == QuizPage.Incoming(Some("score_update"), None, Some(m.scoreboard), None))
      && (m.QuestionMsg? ==> r == QuizPage.Incoming(Some("question"), Some(ViewOf(m.question)), None, None))
  {
    match m
    case ScoreUpdateMsg(b) => ScoreboardRoundTrip(b);
    case QuestionMsg(q) => QuestionRoundTrip(q);
    case _ =>
  }

  /** The same for the session panel. */
  lemma HostReadsEachMessage(m: Msg)
    ensures var r := HostReads(m);
      && (m.ErrorMsg? ==> r == SessionPanel.HostIncoming(Some(m.error), None, None))
      && (m.UnknownActionMsg? ==> r == SessionPanel.HostIncoming(Some("unknown_action"), None, None))
      && (m.TypeMsg? ==> r == SessionPanel.HostIncoming(None, Some(m.kind), None))
      && (m.PongMsg? ==> r == SessionPanel.HostIncoming(None, None, None))
      && (m.ScoreUpdateMsg? ==> r == SessionPanel.HostIncoming(None, Some("score_update"), Some(m.scoreboard)))
      && (m.QuestionMsg? ==> r == SessionPanel.HostIncoming(None, Some("question"), None))
  {
    match m
    case ScoreUpdateMsg(b) => ScoreboardRoundTrip(b);
    case QuestionMsg(q) =>
      assert ToJson(m).fields.Keys == {"type", "question"};
    case _ =>
  }

  // --- What the consumer makes of the clients' messages ---

  /** The student's two messages reach the consumer's "join" and "answer" actions. */
  lemma StudentMessagesDispatch(db: Db, pin: string, m: QuizPage.Outgoing, tokenUser: Option<int>)
    ensures var r := Respond(db, pin, Text(StudentJson(m)), tokenUser);
      && (m.Join? ==> r == Response(Join(db, pin, JStr(m.participantId)), db))
      && (m.Answer? ==> r == AnswerAction(db, pin, JStr(m.participantId), JInt(m.choiceId)))
  {
    var data := StudentJson(m).fields;
    match m
    case Join(pid) =>
      assert Get(data, "action") == JStr("join");
      assert Get(data, "participant_id") == JStr(pid);
    case Answer(pid, cid) =>
      assert Get(data, "action") == JStr("answer");
      assert Get(data, "participant_id") == JStr(pid) && Get(data, "choice_id") == JInt(cid);
      assert "answer" != "join" && "answer" != "host_join" && "answer" != "ping";
  }

  /** An answer from the page is saved exactly when SaveAnswer accepts it, and is then broadcast. */
  lemma StudentAnswerBroadcasts(db: Db, pin: string, pid: string, cid: int, tokenUser: Option<int>)
    ensures var s := SaveAnswer(db, JStr(pid), JInt(cid));
      var r := Respond(db, pin, Text(StudentJson(QuizPage.Answer(pid, cid))), tokenUser);
      && (s.ok ==> r == Response(Broadcast(ScoreUpdateEvent(BuildScoreboard(s.db, pin))), s.db))
      && (!s.ok ==> r == Response(Fail("save_failed"), db))
  {
    StudentMessagesDispatch(db, pin, QuizPage.Answer(pid, cid), tokenUser);
  }

  /**
   * The host's "host_join" and "host_push_question" reach their handlers; a
   * host without a token is refused with "missing_token_or_pin".
   */
  lemma HostMessagesDispatch(db: Db, pin: string, m: SessionPanel.HostOutgoing, tokenUser: Option<int>)
    ensures var r := Respond(db, pin, Text(HostJson(m)), tokenUser);
      && (m.HostJoin? ==>
            r == Response(HostJoin(db, if m.token.Some? then JStr(m.token.value) else JNull, JStr(m.sessionPin), tokenUser), db))
      && (m.HostJoin? && m.token.None? ==> r == Response(Fail("missing_token_or_pin"), db))
      && (m.HostPushQuestion? ==> r == Response(PushQuestion(db, JInt(m.questionId)), db))
  {
    var data := HostJson(m).fields;
    match m
    case HostJoin(token, sessionPin) =>
      assert Get(data, "action") == JStr("host_join");
      assert Get(data, "session_pin") == JStr(sessionPin);
      assert "host_join" != "join";
    case HostPushQuestion(id) =>
      assert Get(data, "action") == JStr("host_push_question");
      assert Get(data, "question_id") == JInt(id);
      assert "host_push_question" != "join" && "host_push_question" != "host_join";
      assert "host_push_question" != "ping" && "host_push_question" != "answer";
    case HostEndSession =>
  }

  lemma UnknownActionAlertText()
    ensures "Error: " + "unknown_action" == "Error: unknown_action"
  {
  }

  /**
   * The consumer has no "host_end_session" action: ending a session is
   * answered with an "unknown_action" error, which the panel alerts and the
   * page ignores. Nothing reaches the students.
   */
  lemma EndSessionIsUnknown(db: Db, pin: string, tokenUser: Option<int>, h: SessionPanel.Host, p: QuizPage.Page)
    requires h.client.Some?
    ensures Respond(db, pin, Text(HostJson(SessionPanel.HostEndSession)), tokenUser)
         == Response(Replied(UnknownActionMsg(JStr("host_end_session"))), db)
    ensures SessionPanel.HostReceived(h, HostReads(UnknownActionMsg(JStr("host_end_session")))).alerts
         == h.alerts + ["Error: unknown_action"]
    ensures QuizPage.Received(p, StudentReads(UnknownActionMsg(JStr("host_end_session")))) == p
  {
    var data := HostJson(SessionPanel.HostEndSession).fields;
    UnknownActionEchoed(db, pin, data, tokenUser);
    HostReadsEachMessage(UnknownActionMsg(JStr("host_end_session")));
    UnknownActionAlertText();
    StudentReadsEachMessage(UnknownActionMsg(JStr("host_end_session")));
  }

  // --- What the clients make of the consumer's messages ---

  /** No failure reply and no pong changes the quiz page. */
  lemma UntypedRepliesLeavePage(p: QuizPage.Page, m: Msg)
    requires IsFailure(m) || m.PongMsg?
    ensures QuizPage.Received(p, StudentReads(m)) == p
  {
    StudentReadsEachMessage(m);
    QuizPage.UntypedMessageIgnored(p, StudentReads(m));
  }

  /** A broadcast question becomes the page's current question, unanswered, with the countdown running. */
  lemma PushedQuestionShown(p: QuizPage.Page, q: QuestionPayload)
    ensures QuizPage.Received(p, StudentReads(Deliver(QuestionPushEvent(q)))) == QuizPage.NewQuestion(p, ViewOf(q))
  {
    StudentReadsEachMessage(QuestionMsg(q));
  }

  /**
   * A question pushed by id reaches each student with the stored question's
   * id, text and time limit and its choices' ids and texts, in table order.
   */
  lemma PushedQuestionIsStored(db: Db, p: QuizPage.Page, id: int, k: nat)
    requires FindQuestion(db, id) == Some(k)
    ensures PushQuestion(db, JInt(id)) == Broadcast(QuestionPushEvent(PayloadOf(db, db.questions[k])))
    ensures var shown := QuizPage.Received(p, StudentReads(Deliver(QuestionPushEvent(PayloadOf(db, db.questions[k]))))).currentQuestion;
      var cs := ChoicesOf(db.choices, db.questions[k].id);
      && shown.Some?
      && var v := shown.value;
      && v.id == db.questions[k].id && v.text == db.questions[k].text && v.timeLimit == db.questions[k].timeLimit
      && |v.choices| == |cs|
      && forall i :: 0 <= i < |cs| ==> v.choices[i] == QuizPage.ChoiceView(cs[i].id, cs[i].text)
  {
    var pl := PayloadOf(db, db.questions[k]);
    assert PushQuestion(db, JInt(id)) == Broadcast(QuestionPushEvent(pl));
    PushedQuestionShown(p, pl);
    assert QuizPage.NewQuestion(p, ViewOf(pl)).currentQuestion == Some(ViewOf(pl));
  }

  /**
   * The page's leaderboard after a broadcast keeps the server's order: the
   * scoreboard is already best-first, so ranking it moves no row.
   */
  lemma StudentLeaderboardKeepsServerOrder(p: QuizPage.Page, db: Db, pin: string)
    requires QuizPage.Truthy(p.storedId)
    ensures Unrank(QuizPage.Received(p, StudentReads(ScoreUpdateMsg(BuildScoreboard(db, pin)))).leaderboard)
         == BuildScoreboard(db, pin)
  {
    var b := BuildScoreboard(db, pin);
    StudentReadsEachMessage(ScoreUpdateMsg(b));
    RankOfOrdered(b);
  }

  /** The same for the host's leaderboard, whose participant count is the session's. */
  lemma HostLeaderboardKeepsServerOrder(h: SessionPanel.Host, db: Db, pin: string)
    requires h.client.Some?
    ensures var g := SessionPanel.HostReceived(h, HostReads(ScoreUpdateMsg(BuildScoreboard(db, pin))));
      && Unrank(g.leaderboard) == BuildScoreboard(db, pin)
      && g.stats.totalParticipants == |BuildScoreboard(db, pin)|
      && g.alerts == h.alerts
  {
    var b := BuildScoreboard(db, pin);
    HostReadsEachMessage(ScoreUpdateMsg(b));
    RankOfOrdered(b);
  }

  // --- Opening a socket ---

  /**
   * A socket opened on a path: the route either refuses the path or yields a
   * non-empty PIN, which the consumer then accepts and answers with the
   * session's scoreboard.
   */
  method OpenSocket(db: Database, path: string) returns (c: SessionConsumer?)
    ensures Route(path).None? ==> c == null
    ensures Route(path).Some? ==>
      && c != null && c.accepted && c.closeCode.None?
      && c.group == Some("session_" + Route(path).value.pin)
      && c.sent == [ScoreUpdateMsg(BuildScoreboard(db.View(), Route(path).value.pin))]
  {
    var r := Route(path);
    if r.None? {
      return null;
    }
    c := new SessionConsumer(Some(r.value.pin));
    c.Connect(db);
  }
}
