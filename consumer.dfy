/**
 * The session's WebSocket consumer on the backend: the connection checks, the
 * `receive` dispatcher with one reply or broadcast per action, answer saving
 * with its score rule, the scoreboard and the question payload, and the two
 * group handlers that turn a broadcast into the message each client receives.
 *
 * `Respond` states what one received frame does; `SessionConsumer` performs
 * it on a `Database`. The channel layer's fan-out to the group's sockets and
 * the decoding of the host's access token are not modelled: a broadcast is
 * recorded as the event handed to the layer, and the token is given as the
 * user id it decodes to.
 */
module Consumer {
  import opened Wrappers
  import opened Text
  import opened Sorting
  import opened Ranking
  import opened Models

  /** A JSON value as `json.loads` returns it (floats are not modelled). */
  datatype JVal =
    | JNull
    | JBool(b: bool)
    | JInt(i: int)
    | JStr(s: string)
    | JArray(items: seq<JVal>)
    | JObject(fields: map<string, JVal>)

  /** `data.get(key)`. */
  function Get(fields: map<string, JVal>, key: string): JVal {
    if key in fields then fields[key] else JNull
  }

  /** Python truthiness. */
  predicate Truthy(v: JVal) {
    match v
    case JNull => false
    case JBool(b) => b
    case JInt(i) => i != 0
    case JStr(s) => s != ""
    case JArray(items) => items != []
    case JObject(fields) => fields != map[]
  }

  /** `int(v)`, and the integer an integer-key lookup converts `v` to; None when it raises. */
  function PyInt(v: JVal): Option<int> {
    match v
    case JInt(i) => Some(i)
    case JBool(b) => Some(if b then 1 else 0)
    case JStr(s) => PyIntOfString(s)
    case _ => None
  }

  /** The text a string-field lookup converts `v` to; None for values no PIN can equal. */
  function PyStr(v: JVal): Option<string> {
    match v
    case JStr(s) => Some(s)
    case JInt(i) => Some(IntToString(i))
    case JBool(b) => Some(if b then "True" else "False")
    case _ => None
  }

  /** What arrives as `text_data`. */
  datatype Frame = NoText | NotJson | Text(value: JVal)

  datatype ChoicePayload = ChoicePayload(id: int, text: string)
  datatype QuestionPayload = QuestionPayload(id: int, text: string, choices: seq<ChoicePayload>, timeLimit: nat)

  /** The messages the consumer sends to its own socket. */
  datatype Msg =
    | ErrorMsg(error: string, detail: Option<string>)
    | UnknownActionMsg(action: JVal)
    | TypeMsg(kind: string)
    | PongMsg
    | ScoreUpdateMsg(scoreboard: seq<ScoreRow>)
    | QuestionMsg(question: QuestionPayload)

  /** What `group_send` hands to the channel layer. */
  datatype GroupEvent = ScoreUpdateEvent(scoreboard: seq<ScoreRow>) | QuestionPushEvent(question: QuestionPayload)

  function RowJson(r: ScoreRow): JVal {
    JObject(map["participant_id" := JInt(r.participantId), "name" := JStr(r.name), "score" := JInt(r.score)])
  }

  function PayloadJson(q: QuestionPayload): JVal {
    JObject(map["id" := JInt(q.id), "text" := JStr(q.text),
                "choices" := JArray(seq(|q.choices|, i requires 0 <= i < |q.choices| =>
                               JObject(map["id" := JInt(q.choices[i].id), "text" := JStr(q.choices[i].text)]))),
                "time_limit" := JInt(q.timeLimit)])
  }

  /** The JSON object `send_json` writes for each message. */
  function ToJson(m: Msg): JVal {
    match m
    case ErrorMsg(e, None) => JObject(map["error" := JStr(e)])
    case ErrorMsg(e, Some(d)) => JObject(map["error" := JStr(e), "detail" := JStr(d)])
    case UnknownActionMsg(a) => JObject(map["error" := JStr("unknown_action"), "action" := a])
    case TypeMsg(k) => JObject(map["type" := JStr(k)])
    case PongMsg => JObject(map["action" := JStr("pong")])
    case ScoreUpdateMsg(b) =>
      JObject(map["type" := JStr("score_update"),
                  "scoreboard" := JArray(seq(|b|, i requires 0 <= i < |b| => RowJson(b[i])))])
    case QuestionMsg(q) => JObject(map["type" := JStr("question"), "question" := PayloadJson(q)])
  }

  predicate IsFailure(m: Msg) {
    m.ErrorMsg? || m.UnknownActionMsg?
  }

  /**
   * Every failure reply carries an "error" and no "type", so a client that
   * dispatches on `type` passes over it.
   */
  lemma FailuresAreUntyped(m: Msg)
    requires IsFailure(m)
    ensures ToJson(m).JObject? && "type" !in ToJson(m).fields && "error" in ToJson(m).fields
  {
  }

  /** A pushed question's choices carry exactly an id and a text: never whether they are correct. */
  lemma PayloadHidesCorrectness(q: QuestionPayload)
    ensures var j := PayloadJson(q).fields["choices"];
      j.JArray? && |j.items| == |q.choices|
      && forall i :: 0 <= i < |j.items| ==> j.items[i].JObject? && j.items[i].fields.Keys == {"id", "text"}
  {
  }

  /** The group handlers `score_update` and `question_push`. */
  function Deliver(e: GroupEvent): (m: Msg)
    ensures e.ScoreUpdateEvent? ==> m == ScoreUpdateMsg(e.scoreboard) && ToJson(m).fields["type"] == JStr("score_update")
    ensures e.QuestionPushEvent? ==> m == QuestionMsg(e.question) && ToJson(m).fields["type"] == JStr("question")
  {
    match e
    case ScoreUpdateEvent(b) => ScoreUpdateMsg(b)
    case QuestionPushEvent(q) => QuestionMsg(q)
  }

  // --- The scoreboard ---

  /** `order_by("-score", "joined_at")`: a may come before b. */
  predicate RankedBefore(a: Participant, b: Participant) {
    a.score > b.score || (a.score == b.score && a.joinedAt <= b.joinedAt)
  }

  lemma RankedBeforeIsOrder()
    ensures Total(RankedBefore) && Transitive(RankedBefore)
  {
  }

  /** `Participant.objects.filter(session=...)`, in table order. */
  function Members(ps: seq<Participant>, session: int): (r: seq<Participant>)
    ensures |r| <= |ps|
    ensures forall i :: 0 <= i < |r| ==> r[i].session == session
  {
    if ps == [] then []
    else (if ps[0].session == session then [ps[0]] else []) + Members(ps[1..], session)
  }

  /** A participant is among the members exactly when it belongs to the session. */
  lemma {:induction false} MembersAreTheSession(ps: seq<Participant>, session: int, p: Participant)
    ensures p in Members(ps, session) <==> p in ps && p.session == session
  {
    if ps != [] {
      MembersAreTheSession(ps[1..], session, p);
      assert ps == [ps[0]] + ps[1..];
    }
  }

  function Row(p: Participant): ScoreRow {
    ScoreRow(p.id, p.name, p.score)
  }

  function Rows(ps: seq<Participant>): (rows: seq<ScoreRow>)
    ensures |rows| == |ps| && forall i :: 0 <= i < |ps| ==> rows[i] == Row(ps[i])
  {
    seq(|ps|, i requires 0 <= i < |ps| => Row(ps[i]))
  }

  /** The session's participants, best score first and, among equal scores, earliest joined first. */
  function Standings(db: Db, session: int): (ps: seq<Participant>)
    ensures Sorted(ps, RankedBefore)
    ensures multiset(ps) == multiset(Members(db.participants, session))
  {
    RankedBeforeIsOrder();
    SortSorted(Members(db.participants, session), RankedBefore);
    Sort(Members(db.participants, session), RankedBefore)
  }

  /**
   * `build_scoreboard(pin)`: empty for a PIN no session has; otherwise one row
   * per participant of that session, in standing order.
   */
  function BuildScoreboard(db: Db, pin: string): (board: seq<ScoreRow>)
    ensures FindSessionByPin(db, pin).None? ==> board == []
    ensures FindSessionByPin(db, pin).Some? ==>
      var s := db.sessions[FindSessionByPin(db, pin).value];
      && board == Rows(Standings(db, s.id))
      && |board| == |Members(db.participants, s.id)|
      && (forall i, j :: 0 <= i < j < |board| ==> board[i].score >= board[j].score)
  {
    match FindSessionByPin(db, pin)
    case None => []
    case Some(k) =>
      var ps := Standings(db, db.sessions[k].id);
      assert forall i, j :: 0 <= i < j < |ps| ==> RankedBefore(ps[i], ps[j]);
      Rows(ps)
  }

  /** Equal scores are listed by joining time. */
  lemma ScoreboardTiesByJoinTime(db: Db, session: int, i: nat, j: nat)
    requires i < j < |Standings(db, session)|
    requires Standings(db, session)[i].score == Standings(db, session)[j].score
    ensures Standings(db, session)[i].joinedAt <= Standings(db, session)[j].joinedAt
  {
  }

  // --- The question payload ---

  /** `get_question_payload` for a found question: its fields and its choices' ids and texts. */
  function PayloadOf(db: Db, q: Question): (p: QuestionPayload)
    ensures p.id == q.id && p.text == q.text && p.timeLimit == q.timeLimit
    ensures var cs := ChoicesOf(db.choices, q.id);
      |p.choices| == |cs| && forall i :: 0 <= i < |cs| ==> p.choices[i] == ChoicePayload(cs[i].id, cs[i].text)
  {
    var cs := ChoicesOf(db.choices, q.id);
    QuestionPayload(q.id, q.text, seq(|cs|, i requires 0 <= i < |cs| => ChoicePayload(cs[i].id, cs[i].text)), q.timeLimit)
  }

  // --- Saving an answer ---

  /**
   * The score after an answer: a new correct answer or a change from wrong to
   * correct adds one, a change from correct to wrong takes one off but never
   * below 0, and anything else leaves the score.
   */
  function ScoreAfter(score: int, created: bool, wasCorrect: bool, isCorrect: bool): (s: int)
    ensures created && isCorrect ==> s == score + 1
    ensures created && !isCorrect ==> s == score
    ensures !created && !wasCorrect && isCorrect ==> s == score + 1
    ensures !created && wasCorrect && !isCorrect ==> s == if score >= 1 then score - 1 else 0
    ensures !created && wasCorrect == isCorrect ==> s == score
    ensures score >= 0 ==> s >= 0
  {
    if created then (if isCorrect then score + 1 else score)
    else if isCorrect && !wasCorrect then score + 1
    else if !isCorrect && wasCorrect then (if score - 1 > 0 then score - 1 else 0)
    else score
  }

  datatype Saved = Saved(ok: bool, db: Db)

  /**
   * `save_answer_and_update_score`: both ids are converted with `int`, the
   * participant and the choice must exist, and the answer for (participant,
   * the choice's question) is created or overwritten; any failure saves nothing.
   */
  function SaveAnswer(db: Db, participantId: JVal, choiceId: JVal): (r: Saved)
    ensures !r.ok ==> r.db == db
    ensures r.ok <==>
      && PyInt(participantId).Some? && PyInt(choiceId).Some?
      && FindParticipant(db, PyInt(participantId).value).Some?
      && FindChoice(db, PyInt(choiceId).value).Some?
    ensures r.ok ==>
      var i := FindParticipant(db, PyInt(participantId).value).value;
      var c := db.choices[FindChoice(db, PyInt(choiceId).value).value];
      var p := db.participants[i];
      var key := (p.id, c.question);
      && r.db.answers == db.answers[key := Answer(p.id, c.question, Some(c.id), c.isCorrect)]
      && r.db.participants == db.participants[i := p.(score := ScoreAfter(p.score, key !in db.answers,
                                                     key in db.answers && db.answers[key].isCorrect, c.isCorrect))]
      && r.db == db.(answers := r.db.answers, participants := r.db.participants)
  {
    if PyInt(participantId).None? || PyInt(choiceId).None? then Saved(false, db)
    else match (FindParticipant(db, PyInt(participantId).value), FindChoice(db, PyInt(choiceId).value))
      case (Some(i), Some(k)) =>
        var p, c := db.participants[i], db.choices[k];
        var key := (p.id, c.question);
        var created := key !in db.answers;
        var wasCorrect := !created && db.answers[key].isCorrect;
        Saved(true, db.(answers := db.answers[key := Answer(p.id, c.question, Some(c.id), c.isCorrect)],
                        participants := db.participants[i := p.(score := ScoreAfter(p.score, created, wasCorrect, c.isCorrect))]))
      case _ => Saved(false, db)
  }

  /**
   * Once every score counts its participant's correct answers, saving keeps it
   * so: in particular no score drops below the number of correct answers, and
   * the floor at 0 is never needed.
   */
  lemma SaveKeepsScoresCounting(db: Db, participantId: JVal, choiceId: JVal)
    requires Unique(db) && ScoresCount(db)
    ensures ScoresCount(SaveAnswer(db, participantId, choiceId).db)
  {
    var r := SaveAnswer(db, participantId, choiceId);
    if r.ok {
      var i := FindParticipant(db, PyInt(participantId).value).value;
      var c := db.choices[FindChoice(db, PyInt(choiceId).value).value];
      var p := db.participants[i];
      var key := (p.id, c.question);
      var a := Answer(p.id, c.question, Some(c.id), c.isCorrect);
      forall j | 0 <= j < |r.db.participants|
        ensures r.db.participants[j].score == |CorrectKeys(r.db.answers, r.db.participants[j].id)|
      {
        var q := db.participants[j];
        CorrectKeysAfterPut(db.answers, key, a, q.id);
        if j != i {
          assert q.id != p.id;
        } else if key in db.answers && db.answers[key].isCorrect {
          assert key in CorrectKeys(db.answers, p.id);
        }
      }
    }
  }

  // --- Receiving ---

  /**
   * `validate_participant_join`: the participant exists and its session has
   * this PIN. None when the id lookup raises, which nothing catches.
   */
  function ParticipantInSession(db: Db, participantId: JVal, pin: string): (r: Option<bool>)
    ensures r.None? <==> PyInt(participantId).None?
    ensures r == Some(true) ==>
      exists i, k :: (0 <= i < |db.participants| && 0 <= k < |db.sessions|
        && db.participants[i].id == PyInt(participantId).value
        && db.sessions[k].id == db.participants[i].session && db.sessions[k].pin == pin)
  {
    match PyInt(participantId)
    case None => None
    case Some(id) =>
      match FindParticipant(db, id)
      case None => Some(false)
      case Some(i) =>
        match FindSession(db, db.participants[i].session)
        case None => Some(false)
        case Some(k) => Some(db.sessions[k].pin == pin)
  }

  /**
   * With unique keys the check is exact: it passes precisely when the
   * participant's row exists and its session is the one with this PIN.
   */
  lemma ParticipantInSessionExactly(db: Db, participantId: JVal, pin: string)
    requires Unique(db) && PyInt(participantId).Some?
    ensures ParticipantInSession(db, participantId, pin) == Some(true) <==>
      exists i, k :: (0 <= i < |db.participants| && 0 <= k < |db.sessions|
        && db.participants[i].id == PyInt(participantId).value
        && db.sessions[k].id == db.participants[i].session && db.sessions[k].pin == pin)
  {
    var id := PyInt(participantId).value;
    if i, k :| (0 <= i < |db.participants| && 0 <= k < |db.sessions|
        && db.participants[i].id == id
        && db.sessions[k].id == db.participants[i].session && db.sessions[k].pin == pin) {
      FirstOfUniqueParticipant(db, id, i);
      FirstOfUniqueSession(db, db.participants[i].session, k);
    }
  }

  lemma FirstOfUniqueParticipant(db: Db, id: int, i: nat)
    requires Unique(db) && i < |db.participants| && db.participants[i].id == id
    ensures FindParticipant(db, id) == Some(i)
  {
    var f := FindParticipant(db, id);
    assert f.Some? && f.value <= i;
    // two rows with the same id are the same row
    assert db.participants[f.value].id == db.participants[i].id;
  }

  lemma FirstOfUniqueSession(db: Db, id: int, k: nat)
    requires Unique(db) && k < |db.sessions| && db.sessions[k].id == id
    ensures FindSession(db, id) == Some(k)
  {
    var f := FindSession(db, id);
    assert f.Some? && f.value <= k;
    // two rows with the same id are the same row
    assert db.sessions[f.value].id == db.sessions[k].id;
  }

  /**
   * `validate_host_join`: the token's user exists and owns the quiz of the
   * session with this PIN; every failure is caught and gives false.
   */
  predicate HostOwnsSession(db: Db, tokenUser: Option<int>, sessionPin: JVal) {
    && tokenUser.Some? && FindUser(db, tokenUser.value).Some?
    && PyStr(sessionPin).Some? && FindSessionByPin(db, PyStr(sessionPin).value).Some?
    && var s := db.sessions[FindSessionByPin(db, PyStr(sessionPin).value).value];
       FindQuiz(db, s.quiz).Some? && db.quizzes[FindQuiz(db, s.quiz).value].createdBy == tokenUser.value
  }

  /** What receiving one frame does: nothing, a reply, a broadcast, or an uncaught exception. */
  datatype Outcome = Ignored | Replied(msg: Msg) | Broadcast(event: GroupEvent) | Crashed

  datatype Response = Response(outcome: Outcome, db: Db)

  function Fail(error: string): Outcome {
    Replied(ErrorMsg(error, None))
  }

  /**
   * `receive` on the connection for `pin`; `tokenUser` is the user id the
   * frame's access token decodes to, if any. Only a saved answer changes the
   * database.
   */
  function Respond(db: Db, pin: string, frame: Frame, tokenUser: Option<int>): (r: Response)
    ensures r.db != db ==> frame.Text? && frame.value.JObject? && Get(frame.value.fields, "action") == JStr("answer")
    ensures frame.NoText? ==> r.outcome == Ignored
    ensures frame.NotJson? ==> r.outcome == Fail("invalid_json")
    ensures frame.Text? && !frame.value.JObject? ==> r.outcome == Crashed
  {
    match frame
    case NoText => Response(Ignored, db)
    case NotJson => Response(Fail("invalid_json"), db)
    case Text(v) =>
      if !v.JObject? then Response(Crashed, db)
      else
        var data := v.fields;
        var action := Get(data, "action");
        if action == JStr("join") then Response(Join(db, pin, Get(data, "participant_id")), db)
        else if action == JStr("host_join") then Response(HostJoin(db, Get(data, "token"), Get(data, "session_pin"), tokenUser), db)
        else if action == JStr("ping") then Response(Replied(PongMsg), db)
        else if action == JStr("answer") then AnswerAction(db, pin, Get(data, "participant_id"), Get(data, "choice_id"))
        else if action == JStr("host_push_question") then Response(PushQuestion(db, Get(data, "question_id")), db)
        else Response(Replied(UnknownActionMsg(action)), db)
  }

  /** The "join" action. */
  function Join(db: Db, pin: string, participantId: JVal): (o: Outcome)
    ensures !Truthy(participantId) ==> o == Fail("missing_participant_id")
    ensures Truthy(participantId) ==>
      match ParticipantInSession(db, participantId, pin)
      case None => o == Crashed
      case Some(true) => o == Replied(TypeMsg("join_success"))
      case Some(false) => o == Replied(ErrorMsg("join_failed", Some("Invalid participant or session")))
  {
    if !Truthy(participantId) then Fail("missing_participant_id")
    else match ParticipantInSession(db, participantId, pin)
      case None => Crashed
      case Some(true) => Replied(TypeMsg("join_success"))
      case Some(false) => Replied(ErrorMsg("join_failed", Some("Invalid participant or session")))
  }

  /**
   * With unique keys a student's join succeeds exactly when the participant
   * belongs to the session with this connection's PIN, and fails otherwise.
   */
  lemma JoinSucceedsExactly(db: Db, pin: string, participantId: JVal)
    requires Unique(db) && Truthy(participantId) && PyInt(participantId).Some?
    ensures var belongs := exists i, k :: (0 <= i < |db.participants| && 0 <= k < |db.sessions|
        && db.participants[i].id == PyInt(participantId).value
        && db.sessions[k].id == db.participants[i].session && db.sessions[k].pin == pin);
      && (Join(db, pin, participantId) == Replied(TypeMsg("join_success")) <==> belongs)
      && (Join(db, pin, participantId) == Replied(ErrorMsg("join_failed", Some("Invalid participant or session"))) <==> !belongs)
  {
    ParticipantInSessionExactly(db, participantId, pin);
  }

  /** The "host_join" action: it answers, but records nothing about the host. */
  function HostJoin(db: Db, token: JVal, sessionPin: JVal, tokenUser: Option<int>): (o: Outcome)
    ensures !Truthy(token) || !Truthy(sessionPin) ==> o == Fail("missing_token_or_pin")
    ensures Truthy(token) && Truthy(sessionPin) ==>
      (o == Replied(TypeMsg("host_join_success")) <==> HostOwnsSession(db, tokenUser, sessionPin))
    ensures Truthy(token) && Truthy(sessionPin) && !HostOwnsSession(db, tokenUser, sessionPin) ==>
      o == Replied(ErrorMsg("host_join_failed", Some("Invalid token or session ownership")))
  {
    if !Truthy(token) || !Truthy(sessionPin) then Fail("missing_token_or_pin")
    else if HostOwnsSession(db, tokenUser, sessionPin) then Replied(TypeMsg("host_join_success"))
    else Replied(ErrorMsg("host_join_failed", Some("Invalid token or session ownership")))
  }

  /** The "answer" action: save, then broadcast this connection's scoreboard. */
  function AnswerAction(db: Db, pin: string, participantId: JVal, choiceId: JVal): (r: Response)
    ensures participantId == JNull || choiceId == JNull ==> r == Response(Fail("missing_fields"), db)
    ensures participantId != JNull && choiceId != JNull ==>
      var s := SaveAnswer(db, participantId, choiceId);
      && (!s.ok ==> r == Response(Fail("save_failed"), db))
      && (s.ok ==> r == Response(Broadcast(ScoreUpdateEvent(BuildScoreboard(s.db, pin))), s.db))
  {
    if participantId == JNull || choiceId == JNull then Response(Fail("missing_fields"), db)
    else
      var s := SaveAnswer(db, participantId, choiceId);
      if !s.ok then Response(Fail("save_failed"), db)
      else Response(Broadcast(ScoreUpdateEvent(BuildScoreboard(s.db, pin))), s.db)
  }

  /** The "host_push_question" action: open to any connection, host or not. */
  function PushQuestion(db: Db, questionId: JVal): (o: Outcome)
    ensures questionId == JNull ==> o == Fail("missing_question_id")
    ensures questionId != JNull && PyInt(questionId).None? ==> o == Crashed
    ensures questionId != JNull && PyInt(questionId).Some? ==>
      match FindQuestion(db, PyInt(questionId).value)
      case None => o == Fail("question_not_found")
      case Some(k) => o == Broadcast(QuestionPushEvent(PayloadOf(db, db.questions[k])))
  {
    if questionId == JNull then Fail("missing_question_id")
    else match PyInt(questionId)
      case None => Crashed
      case Some(id) =>
        match FindQuestion(db, id)
        case None => Fail("question_not_found")
        case Some(k) => Broadcast(QuestionPushEvent(PayloadOf(db, db.questions[k])))
  }

  /** A frame whose "action" is none of the five gets it echoed back in an "unknown_action" error. */
  lemma UnknownActionEchoed(db: Db, pin: string, data: map<string, JVal>, tokenUser: Option<int>)
    requires Get(data, "action") !in [JStr("join"), JStr("host_join"), JStr("ping"), JStr("answer"), JStr("host_push_question")]
    ensures Respond(db, pin, Text(JObject(data)), tokenUser) == Response(Replied(UnknownActionMsg(Get(data, "action"))), db)
  {
  }

  /**
   * Which session an answer is scored in does not depend on the connection:
   * the participant's answer is saved the same whatever PIN the socket was
   * opened for; only the scoreboard broadcast afterwards is the socket's.
   */
  lemma AnswerIgnoresConnectionPin(db: Db, pin1: string, pin2: string, participantId: JVal, choiceId: JVal)
    ensures AnswerAction(db, pin1, participantId, choiceId).db == AnswerAction(db, pin2, participantId, choiceId).db
  {
  }

  /** Answering twice for one question leaves one answer, the second one. */
  lemma ResubmissionOverwrites(db: Db, participantId: JVal, c1: JVal, c2: JVal)
    requires SaveAnswer(db, participantId, c1).ok
    requires var d := SaveAnswer(db, participantId, c1).db;
      SaveAnswer(d, participantId, c2).ok
      && d.choices[FindChoice(d, PyInt(c2).value).value].question == d.choices[FindChoice(d, PyInt(c1).value).value].question
    ensures var d := SaveAnswer(db, participantId, c1).db;
      var e := SaveAnswer(d, participantId, c2).db;
      var p := db.participants[FindParticipant(db, PyInt(participantId).value).value];
      var c := db.choices[FindChoice(db, PyInt(c2).value).value];
      && e.answers.Keys == db.answers.Keys + {(p.id, c.question)}
      && e.answers[(p.id, c.question)].choice == Some(c.id)
  {
    var d := SaveAnswer(db, participantId, c1).db;
    assert d.choices == db.choices;
    assert FindParticipant(d, PyInt(participantId).value) == FindParticipant(db, PyInt(participantId).value) by {
      var i := FindParticipant(db, PyInt(participantId).value).value;
      assert forall j :: 0 <= j < |d.participants| ==> d.participants[j].id == db.participants[j].id;
    }
  }

  /** The consumer for one socket: its route PIN, its group, and what it sent. */
  class SessionConsumer {
    var pin: Option<string>
    var group: Option<string>
    var accepted: bool
    var closeCode: Option<int>
    var sent: seq<Msg>
    var broadcasts: seq<GroupEvent>
    var crashed: bool

    constructor (routePin: Option<string>)
      ensures pin == routePin && group.None? && !accepted && closeCode.None?
      ensures sent == [] && broadcasts == [] && !crashed
    {
      pin, group, accepted, closeCode := routePin, None, false, None;
      sent, broadcasts, crashed := [], [], false;
    }

    /**
     * `connect`: without a PIN the socket is closed with 4001 and joins no
     * group; otherwise it joins "session_<pin>", is accepted and is sent the
     * current scoreboard.
     */
    method Connect(db: Database)
      modifies this
      ensures pin == old(pin) && broadcasts == old(broadcasts) && crashed == old(crashed)
      ensures (pin.None? || pin.value == "") ==>
        closeCode == Some(4001) && group == old(group) && accepted == old(accepted) && sent == old(sent)
      ensures pin.Some? && pin.value != "" ==>
        && group == Some("session_" + pin.value) && accepted && closeCode == old(closeCode)
        && sent == old(sent) + [ScoreUpdateMsg(BuildScoreboard(db.View(), pin.value))]
    {
      if pin.None? || pin.value == "" {
        closeCode := Some(4001);
        return;
      }
      group := Some("session_" + pin.value);
      accepted := true;
      sent := sent + [ScoreUpdateMsg(BuildScoreboard(db.View(), pin.value))];
    }

    method Disconnect()
      modifies this
      ensures group.None?
      ensures pin == old(pin) && accepted == old(accepted) && closeCode == old(closeCode)
      ensures sent == old(sent) && broadcasts == old(broadcasts) && crashed == old(crashed)
    {
      group := None;
    }

    /** `receive`, for an accepted connection. */
    method Receive(db: Database, frame: Frame, tokenUser: Option<int>)
      requires pin.Some?
      modifies this, db
      ensures var r := Respond(old(db.View()), old(pin).value, frame, tokenUser);
        && db.View() == r.db
        && sent == old(sent) + (if r.outcome.Replied? then [r.outcome.msg] else [])
        && broadcasts == old(broadcasts) + (if r.outcome.Broadcast? then [r.outcome.event] else [])
        && crashed == (old(crashed) || r.outcome.Crashed?)
      ensures pin == old(pin) && group == old(group) && accepted == old(accepted) && closeCode == old(closeCode)
    {
      var here := pin.value;
      match frame {
        case NoText =>
        case NotJson =>
          sent := sent + [ErrorMsg("invalid_json", None)];
        case Text(v) =>
          if !v.JObject? {
            crashed := true;
          } else {
            var action := Get(v.fields, "action");
            if action == JStr("answer") {
              ReceiveAnswer(db, Get(v.fields, "participant_id"), Get(v.fields, "choice_id"));
            } else {
              var o: Outcome;
              if action == JStr("join") {
                o := Join(db.View(), here, Get(v.fields, "participant_id"));
              } else if action == JStr("host_join") {
                o := HostJoin(db.View(), Get(v.fields, "token"), Get(v.fields, "session_pin"), tokenUser);
              } else if action == JStr("ping") {
                o := Replied(PongMsg);
              } else if action == JStr("host_push_question") {
                o := PushQuestion(db.View(), Get(v.fields, "question_id"));
              } else {
                o := Replied(UnknownActionMsg(action));
              }
              Emit(o);
            }
          }
      }
    }

    /** Records a reply, a broadcast or a crash. */
    method Emit(o: Outcome)
      modifies this
      ensures sent == old(sent) + (if o.Replied? then [o.msg] else [])
      ensures broadcasts == old(broadcasts) + (if o.Broadcast? then [o.event] else [])
      ensures crashed == (old(crashed) || o.Crashed?)
      ensures pin == old(pin) && group == old(group) && accepted == old(accepted) && closeCode == old(closeCode)
    {
      match o {
        case Ignored =>
        case Replied(m) => sent := sent + [m];
        case Broadcast(e) => broadcasts := broadcasts + [e];
        case Crashed => crashed := true;
      }
    }

    /** The "answer" action. */
    method ReceiveAnswer(db: Database, participantId: JVal, choiceId: JVal)
      requires pin.Some?
      modifies this, db
      ensures var r := AnswerAction(old(db.View()), old(pin).value, participantId, choiceId);
        && db.View() == r.db
        && sent == old(sent) + (if r.outcome.Replied? then [r.outcome.msg] else [])
        && broadcasts == old(broadcasts) + (if r.outcome.Broadcast? then [r.outcome.event] else [])
        && crashed == (old(crashed) || r.outcome.Crashed?)
      ensures pin == old(pin) && group == old(group) && accepted == old(accepted) && closeCode == old(closeCode)
    {
      ghost var r := AnswerAction(db.View(), pin.value, participantId, choiceId);
      if participantId == JNull || choiceId == JNull {
        assert r.outcome == Fail("missing_fields");
        sent := sent + [ErrorMsg("missing_fields", None)];
        return;
      }
      ghost var s := SaveAnswer(db.View(), participantId, choiceId);
      var saved := SaveAnswerAndUpdateScore(db, participantId, choiceId);
      if !saved {
        assert r.outcome == Fail("save_failed");
        sent := sent + [ErrorMsg("save_failed", None)];
        return;
      }
      assert r.outcome == Broadcast(ScoreUpdateEvent(BuildScoreboard(s.db, pin.value)));
      broadcasts := broadcasts + [ScoreUpdateEvent(BuildScoreboard(db.View(), pin.value))];
    }

    /** `deliver` of a group event to this socket. */
    method OnGroupEvent(e: GroupEvent)
      modifies this
      ensures sent == old(sent) + [Deliver(e)]
      ensures pin == old(pin) && group == old(group) && accepted == old(accepted) && closeCode == old(closeCode)
      ensures broadcasts == old(broadcasts) && crashed == old(crashed)
    {
      sent := sent + [Deliver(e)];
    }
  }

  /** `save_answer_and_update_score`, writing the answer row and the score in place. */
  method SaveAnswerAndUpdateScore(db: Database, participantId: JVal, choiceId: JVal) returns (saved: bool)
    modifies db
    ensures var r := SaveAnswer(old(db.View()), participantId, choiceId);
      saved == r.ok && db.View() == r.db
  {
    ghost var before := db.View();
    ghost var r := SaveAnswer(before, participantId, choiceId);
    var pid, cid := PyInt(participantId), PyInt(choiceId);
    if pid.None? || cid.None? {
      assert !r.ok;
      return false;
    }
    var i := FindParticipant(db.View(), pid.value);
    var k := FindChoice(db.View(), cid.value);
    if i.None? || k.None? {
      assert !r.ok;
      return false;
    }
    assert r.ok;
    var p, c := db.participants[i.value], db.choices[k.value];
    var key := (p.id, c.question);
    var created := key !in db.answers;
    var wasCorrect := !created && db.answers[key].isCorrect;
    var answers := db.answers[key := Answer(p.id, c.question, Some(c.id), c.isCorrect)];
    var participants := db.participants[i.value := p.(score := ScoreAfter(p.score, created, wasCorrect, c.isCorrect))];
    assert r.db == before.(answers := answers, participants := participants);
    db.answers, db.participants := answers, participants;
    return true;
  }
}
