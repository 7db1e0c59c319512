/**
 * The REST views: PIN generation and session creation, joining with the
 * duplicate-name retry loop, the answer fallback endpoint, the session
 * actions, and the quiz and question view sets. Each view is a function from
 * the database and the request to the reply and the new database; the views
 * that change rows step by step are also methods on `Database` proved equal
 * to that function.
 */
module Views {
  import opened Wrappers
  import opened Text
  import opened Models
  import opened Permissions
  import opened Serializers
  import Consumer

  type JVal = Consumer.JVal

  // --- Looking a row up by a request value ---

  /**
   * What `pk=value` on an integer key turns `value` into: no key at all for
   * `null` (nothing matches), the integer `int()` gives, or an exception.
   */
  datatype Key = NoKey | IntKey(id: int) | BadKey

  function KeyOf(v: JVal): (k: Key)
    ensures v == Consumer.JNull ==> k == NoKey
    ensures v != Consumer.JNull ==> (k.BadKey? <==> Consumer.PyInt(v).None?)
    ensures k.IntKey? ==> Consumer.PyInt(v) == Some(k.id)
  {
    if v == Consumer.JNull then NoKey
    else match Consumer.PyInt(v)
      case None => BadKey
      case Some(id) => IntKey(id)
  }

  /** `get_object_or_404` over one table's finder: found, 404, or an uncaught exception. */
  datatype Lookup = Found(index: nat) | Missing | Raised

  function LookupBy(k: Key, find: int -> Option<nat>): Lookup {
    match k
    case NoKey => Missing
    case BadKey => Raised
    case IntKey(id) => if find(id).Some? then Found(find(id).value) else Missing
  }

  // --- `_generate_pin` ---

  /** The PINs sessions already use: `Session.objects.filter(pin=pin).exists()`. */
  function UsedPins(db: Db): set<string> {
    set s | s in db.sessions :: s.pin
  }

  lemma UsedPinsFind(db: Db, pin: string)
    ensures pin in UsedPins(db) <==> FindSessionByPin(db, pin).Some?
  {
    if pin in UsedPins(db) {
      var s :| s in db.sessions && s.pin == pin;
      var i :| 0 <= i < |db.sessions| && db.sessions[i] == s;
      assert db.sessions[i].pin == pin;
    }
  }

  /**
   * What `_generate_pin` returns, given the ten six-digit draws and the
   * eight-digit draw it would make: the first draw no session uses, or the
   * eight-digit one when all ten are taken.
   */
  function GeneratedPin(used: set<string>, candidates: seq<string>, fallback: string): (pin: string)
    ensures (forall i :: 0 <= i < |candidates| ==> candidates[i] in used) ==> pin == fallback
    ensures (exists i :: 0 <= i < |candidates| && candidates[i] !in used) ==>
      exists i :: 0 <= i < |candidates| && pin == candidates[i] && pin !in used
        && forall j :: 0 <= j < i ==> candidates[j] in used
  {
    var k := IndexWhere(candidates, (c: string) => c !in used);
    if k.Some? then candidates[k.value] else fallback
  }

  /** `_generate_pin`: the `for _ in range(10)` loop over the draws, then the fallback. */
  method GeneratePin(db: Database, candidates: seq<string>, fallback: string) returns (pin: string)
    requires |candidates| == 10
    ensures pin == GeneratedPin(UsedPins(db.View()), candidates, fallback)
  {
    var used := UsedPins(db.View());
    ghost var k := IndexWhere(candidates, (c: string) => c !in used);
    for i := 0 to 10
      invariant forall j :: 0 <= j < i ==> candidates[j] in used
    {
      if candidates[i] !in used {
        assert k == Some(i);
        return candidates[i];
      }
    }
    return fallback;
  }

  predicate DigitString(s: string, n: nat) {
    |s| == n && IsDigits(s)
  }

  /**
   * Every generated PIN is made of digits; it has six of them whenever a draw
   * was free, and otherwise eight, more than a session's `pin` column holds.
   */
  lemma GeneratedPinShape(used: set<string>, candidates: seq<string>, fallback: string)
    requires forall i :: 0 <= i < |candidates| ==> DigitString(candidates[i], 6)
    requires DigitString(fallback, 8)
    ensures var pin := GeneratedPin(used, candidates, fallback);
      && IsDigits(pin)
      && (|pin| == 6 || (|pin| == 8 && |pin| > PinMaxLength && forall i :: 0 <= i < |candidates| ==> candidates[i] in used))
  {
  }

  // --- SessionCreateView ---

  datatype SessionReply = NoSuchQuiz | SessionMade(session: Session) | PinConflict

  datatype SessionOutcome = SessionOutcome(reply: SessionReply, db: Db)

  /** The outcome of the serializer's create for a found quiz. */
  function Saving(db: Db, r: SessionSaved): (o: SessionOutcome) {
    match r
    case PinTaken => SessionOutcome(PinConflict, db)
    case SessionCreated(s, db1) => SessionOutcome(SessionMade(s), db1)
  }

  /**
   * `SessionCreateView.perform_create` as written: the view generates a PIN
   * and passes it to `save`, the serializer creates the session from the quiz
   * alone, and `Session.save` draws its own PIN from `rand`.
   */
  function SessionCreateAsWritten(db: Db, quiz: string, candidates: seq<string>, fallback: string, rand: int): (o: SessionOutcome)
    requires 100000 <= rand <= 999999
    ensures FindQuiz(db, quiz).None? ==> o == SessionOutcome(NoSuchQuiz, db)
    ensures o.reply.SessionMade? ==> o.reply.session.pin == NatToString(rand)
    ensures o.reply.PinConflict? <==> FindQuiz(db, quiz).Some? && NatToString(rand) in UsedPins(db)
  {
    if FindQuiz(db, quiz).None? then SessionOutcome(NoSuchQuiz, db)
    else
      var pin := GeneratedPin(UsedPins(db), candidates, fallback);
      UsedPinsFind(db, NatToString(rand));
      Saving(db, CreateSession(db, quiz, pin, rand))
  }

  /**
   * The generated PIN is lost: when `random.randint` repeats a PIN in use,
   * creating the session fails on the unique constraint although a free PIN
   * had been found.
   */
  lemma SessionCreateIgnoresFreePin(db: Db, quiz: string, candidates: seq<string>, fallback: string, rand: int, i: nat)
    requires 100000 <= rand <= 999999
    requires FindQuiz(db, quiz).Some? && NatToString(rand) in UsedPins(db)
    requires i < |candidates| && candidates[i] !in UsedPins(db)
    ensures GeneratedPin(UsedPins(db), candidates, fallback) !in UsedPins(db)
    ensures SessionCreateAsWritten(db, quiz, candidates, fallback, rand).reply == PinConflict
  {
  }

  /**
   * `perform_create` as intended: the session is created with the generated
   * PIN, which `Session.save` keeps because it is not empty.
   */
  function SessionCreate(db: Db, quiz: string, candidates: seq<string>, fallback: string, rand: int): (o: SessionOutcome)
    requires 100000 <= rand <= 999999
    requires forall i :: 0 <= i < |candidates| ==> DigitString(candidates[i], 6)
    requires DigitString(fallback, 8)
    ensures FindQuiz(db, quiz).None? ==> o == SessionOutcome(NoSuchQuiz, db)
    ensures o.reply.SessionMade? ==> o.reply.session.pin == GeneratedPin(UsedPins(db), candidates, fallback)
    ensures FindQuiz(db, quiz).Some? && (exists i :: 0 <= i < |candidates| && candidates[i] !in UsedPins(db)) ==>
      o.reply.SessionMade? && o.reply.session.pin !in UsedPins(db) && |o.reply.session.pin| == PinMaxLength
  {
    if FindQuiz(db, quiz).None? then SessionOutcome(NoSuchQuiz, db)
    else
      var pin := GeneratedPin(UsedPins(db), candidates, fallback);
      GeneratedPinShape(UsedPins(db), candidates, fallback);
      UsedPinsFind(db, pin);
      Saving(db, InsertSession(db, quiz, pin, rand))
  }

  /** A session created as intended is the only one with its PIN. */
  lemma SessionCreateKeepsPinsUnique(db: Db, quiz: string, candidates: seq<string>, fallback: string, rand: int)
    requires 100000 <= rand <= 999999
    requires forall i :: 0 <= i < |candidates| ==> DigitString(candidates[i], 6)
    requires DigitString(fallback, 8)
    requires Unique(db) && Fresh(db)
    ensures Unique(SessionCreate(db, quiz, candidates, fallback, rand).db)
    ensures Fresh(SessionCreate(db, quiz, candidates, fallback, rand).db)
  {
    if FindQuiz(db, quiz).Some? {
      InsertSessionKeepsInvariants(db, quiz, GeneratedPin(UsedPins(db), candidates, fallback), rand);
    }
  }

  // --- ParticipantJoinView ---

  datatype JoinReply =
    | JoinErrors(errors: map<string, string>)        // 400 {"errors": ...}
    | JoinOk(participant: Participant, session: Session) // 201
    | JoinDetail(detail: string)                     // 400 {"detail": ...}

  datatype JoinOutcome = JoinOutcome(reply: JoinReply, db: Db)

  const RetryLimit: nat := 100

  /** The name tried at each turn of the retry loop: the name itself, then `name_2`, `name_3`, … */
  function NameFor(base: string, counter: nat): string {
    if counter == 1 then base else base + "_" + NatToString(counter)
  }

  /** Different turns of the loop try different names. */
  lemma NameForInjective(base: string, c1: nat, c2: nat)
    requires 1 <= c1 && 1 <= c2 && c1 != c2
    ensures NameFor(base, c1) != NameFor(base, c2)
  {
    if c1 != 1 && c2 != 1 {
      var n1, n2 := NatToString(c1), NatToString(c2);
      if NameFor(base, c1) == NameFor(base, c2) {
        assert |n1| == |n2|;
        assert NameFor(base, c1)[|base| + 1..] == n1;
        assert NameFor(base, c2)[|base| + 1..] == n2;
        NatToStringInjective(c1, c2);
      }
    }
  }

  /** The first turn from `counter` on, up to the limit, whose `get_or_create` does not raise. */
  function FirstAccepted(raises: nat -> bool, counter: nat): (c: Option<nat>)
    ensures c.Some? ==>
      counter <= c.value <= RetryLimit && !raises(c.value) && forall t :: counter <= t < c.value ==> raises(t)
    ensures c.None? ==> forall t :: counter <= t <= RetryLimit ==> raises(t)
    decreases RetryLimit + 1 - counter
  {
    if counter > RetryLimit then None
    else if !raises(counter) then Some(counter)
    else FirstAccepted(raises, counter + 1)
  }

  /**
   * `ParticipantJoinView.create`. `saveRaises` says whether the serializer's
   * `save` hit an `IntegrityError` (a concurrent insert of the same name),
   * and `raises(t)` whether the loop's `get_or_create` at turn `t` does.
   */
  function JoinView(db: Db, pin: Option<string>, name: Option<string>, saveRaises: bool, raises: nat -> bool): (o: JoinOutcome)
    ensures ValidateJoin(db, pin, name).JoinInvalid? ==> o == JoinOutcome(JoinErrors(ValidateJoin(db, pin, name).errors), db)
    ensures o.reply.JoinOk? ==>
      && o.reply.participant in o.db.participants
      && o.reply.participant.session == o.reply.session.id
      && o.reply.session in db.sessions && o.reply.session.pin == Trim(pin.value)
    ensures o.reply.JoinOk? && !saveRaises ==> o.reply.participant.name == Trim(name.value)
    ensures o.reply.JoinOk? && saveRaises ==>
      FirstAccepted(raises, 1).Some? && o.reply.participant.name == NameFor(Trim(name.value), FirstAccepted(raises, 1).value)
    ensures o.reply.JoinDetail? <==>
      ValidateJoin(db, pin, name).JoinValid? && saveRaises && forall t :: 1 <= t <= RetryLimit ==> raises(t)
    ensures o.reply.JoinDetail? ==> o.reply.detail == "Could not create unique participant name." && o.db == db
  {
    var v := ValidateJoin(db, pin, name);
    if v.JoinInvalid? then JoinOutcome(JoinErrors(v.errors), db)
    else if !saveRaises then
      var r := GetOrCreate(db, v.session.id, v.name);
      JoinOutcome(JoinOk(r.participant, v.session), r.db)
    else
      var c := FirstAccepted(raises, 1);
      if c.None? then JoinOutcome(JoinDetail("Could not create unique participant name."), db)
      else
        var r := GetOrCreate(db, v.session.id, NameFor(v.name, c.value));
        JoinOutcome(JoinOk(r.participant, v.session), r.db)
  }

  /** `ParticipantJoinView.create` on the database, with its `while True` retry loop. */
  method ParticipantJoin(db: Database, pin: Option<string>, name: Option<string>, saveRaises: bool, raises: nat -> bool)
    returns (reply: JoinReply)
    modifies db
    ensures JoinOutcome(reply, db.View()) == JoinView(old(db.View()), pin, name, saveRaises, raises)
  {
    var v := ValidateJoin(db.View(), pin, name);
    if v.JoinInvalid? {
      return JoinErrors(v.errors);
    }
    if !saveRaises {
      var p := JoinCreate(db, v.session.id, v.name);
      return JoinOk(p, v.session);
    }
    var counter := 1;
    while true
      invariant 1 <= counter <= RetryLimit
      invariant FirstAccepted(raises, counter) == FirstAccepted(raises, 1)
      invariant db.View() == old(db.View())
      decreases RetryLimit - counter
    {
      if !raises(counter) {
        var p := JoinCreate(db, v.session.id, NameFor(v.name, counter));
        return JoinOk(p, v.session);
      }
      counter := counter + 1;
      if counter > RetryLimit {
        return JoinDetail("Could not create unique participant name.");
      }
    }
  }

  /** Without a concurrent insert the view answers for the name as typed, trimmed, and joining again returns the same row. */
  lemma JoinViewIsIdempotent(db: Db, pin: Option<string>, name: Option<string>, raises: nat -> bool)
    requires Unique(db)
    ensures var o1 := JoinView(db, pin, name, false, raises);
      var o2 := JoinView(o1.db, pin, name, false, raises);
      o1.reply.JoinOk? ==> o2 == o1
  {
    var v := ValidateJoin(db, pin, name);
    if v.JoinValid? {
      JoinIsIdempotent(db, v.session.id, v.name);
      var r := GetOrCreate(db, v.session.id, v.name);
      assert r.db.sessions == db.sessions;
      assert ValidateJoin(r.db, pin, name) == v by {
        assert FindSessionByPin(r.db, v.session.pin) == FindSessionByPin(db, v.session.pin);
      }
    }
  }

  // --- AnswerCreateView ---

  datatype AnswerReply = AnswerNotFound | AnswerError | AnswerCreated(answer: (int, int), correct: bool)

  datatype AnswerOutcome = AnswerOutcome(reply: AnswerReply, db: Db)

  /** The participant, question and choice rows an answer request names, once all three are found. */
  datatype Named = Named(p: nat, q: nat, c: Option<nat>)

  datatype Resolved = Resolved(named: Named) | Refused(reply: AnswerReply)

  /** The three `get_object_or_404` calls, the choice only when `choice_id` is truthy. */
  function Resolve(db: Db, participant: JVal, question: JVal, choice: JVal): (r: Resolved)
    ensures r.Resolved? ==>
      && r.named.p < |db.participants| && r.named.q < |db.questions|
      && (r.named.c.Some? <==> Consumer.Truthy(choice))
      && (r.named.c.Some? ==> r.named.c.value < |db.choices|)
    ensures r.Refused? ==> r.reply == AnswerNotFound || r.reply == AnswerError
  {
    match LookupBy(KeyOf(participant), id => FindParticipant(db, id))
    case Missing => Refused(AnswerNotFound)
    case Raised => Refused(AnswerError)
    case Found(p) =>
      match LookupBy(KeyOf(question), id => FindQuestion(db, id))
      case Missing => Refused(AnswerNotFound)
      case Raised => Refused(AnswerError)
      case Found(q) =>
        if !Consumer.Truthy(choice) then Resolved(Named(p, q, None))
        else match LookupBy(KeyOf(choice), id => FindChoice(db, id))
          case Missing => Refused(AnswerNotFound)
          case Raised => Refused(AnswerError)
          case Found(c) => Resolved(Named(p, q, Some(c)))
  }

  /**
   * `Answer.objects.create(...)`: refused (`IntegrityError`) for a null
   * choice or an answer already given to the question; otherwise the row is
   * inserted with `is_correct` at its default, false.
   */
  function InsertAnswer(db: Db, n: Named): (r: Option<Db>)
    requires n.p < |db.participants| && n.q < |db.questions| && (n.c.Some? ==> n.c.value < |db.choices|)
  {
    var key := (db.participants[n.p].id, db.questions[n.q].id);
    if n.c.None? || key in db.answers then None
    else Some(db.(answers := db.answers[key := Answer(key.0, key.1, Some(db.choices[n.c.value].id), false)]))
  }

  /**
   * `AnswerCreateView.create` as written: after the row is inserted,
   * `answer.correct = correct` assigns to a read-only property and raises.
   */
  function AnswerCreateAsWritten(db: Db, participant: JVal, question: JVal, choice: JVal): (o: AnswerOutcome)
    ensures !o.reply.AnswerCreated?
    ensures o.db.participants == db.participants
    ensures forall key :: key in o.db.answers && key !in db.answers ==> !o.db.answers[key].isCorrect
  {
    match Resolve(db, participant, question, choice)
    case Refused(reply) => AnswerOutcome(reply, db)
    case Resolved(n) =>
      match InsertAnswer(db, n)
      case None => AnswerOutcome(AnswerError, db)
      case Some(db1) => AnswerOutcome(AnswerError, db1)
  }

  /** A correct answer sent to the endpoint as written earns nothing, and is stored as wrong. */
  lemma AnswerAsWrittenLosesCorrectAnswers(db: Db, participant: JVal, question: JVal, choice: JVal)
    requires var r := Resolve(db, participant, question, choice);
      && r.Resolved? && r.named.c.Some? && db.choices[r.named.c.value].isCorrect
      && (db.participants[r.named.p].id, db.questions[r.named.q].id) !in db.answers
    ensures var o := AnswerCreateAsWritten(db, participant, question, choice);
      var n := Resolve(db, participant, question, choice).named;
      var key := (db.participants[n.p].id, db.questions[n.q].id);
      && o.reply == AnswerError
      && key in o.db.answers && !o.db.answers[key].isCorrect
      && o.db.participants[n.p].score == db.participants[n.p].score
  {
  }

  /**
   * `AnswerCreateView.create` as intended (`answer.is_correct = correct`): the
   * answer records whether the chosen choice is correct, and only a correct
   * one adds the question's marks to the participant's score.
   */
  function AnswerCreate(db: Db, participant: JVal, question: JVal, choice: JVal): (o: AnswerOutcome)
    ensures Resolve(db, participant, question, choice).Refused? ==>
      o == AnswerOutcome(Resolve(db, participant, question, choice).reply, db)
    ensures Resolve(db, participant, question, choice).Resolved? ==>
      o == Answered(db, Resolve(db, participant, question, choice).named)
    ensures !o.reply.AnswerCreated? ==> o.db == db
  {
    match Resolve(db, participant, question, choice)
    case Refused(reply) => AnswerOutcome(reply, db)
    case Resolved(n) => Answered(db, n)
  }

  /**
   * The intended endpoint once the three rows are found: a created answer is
   * new under (participant, question), records the chosen choice's
   * correctness, and adds the question's marks only when correct; anything
   * else is an error that changes nothing.
   */
  function Answered(db: Db, n: Named): (o: AnswerOutcome)
    requires n.p < |db.participants| && n.q < |db.questions| && (n.c.Some? ==> n.c.value < |db.choices|)
    ensures !o.reply.AnswerCreated? ==> o == AnswerOutcome(AnswerError, db)
    ensures o.reply.AnswerCreated? ==>
      var p, q := db.participants[n.p], db.questions[n.q];
      && n.c.Some?
      && o.reply.answer == (p.id, q.id) && o.reply.answer !in db.answers
      && o.reply.correct == db.choices[n.c.value].isCorrect
      && o.db.answers == db.answers[o.reply.answer := Answer(p.id, q.id, Some(db.choices[n.c.value].id), o.reply.correct)]
      && o.db.participants == (if o.reply.correct then db.participants[n.p := p.(score := p.score + Marks(q))] else db.participants)
  {
    var p, q := db.participants[n.p], db.questions[n.q];
    var key := (p.id, q.id);
    if n.c.None? || key in db.answers then AnswerOutcome(AnswerError, db)
    else
      var c := db.choices[n.c.value];
      AnswerOutcome(AnswerCreated(key, c.isCorrect), Recorded(db, n.p, key, Answer(p.id, q.id, Some(c.id), c.isCorrect), Marks(q)))
  }

  /** The answer row written, and `marks` added to the participant's score when the answer is correct. */
  function Recorded(db: Db, i: nat, key: (int, int), a: Answer, marks: nat): Db
    requires i < |db.participants|
  {
    db.(answers := db.answers[key := a],
        participants := if a.isCorrect then db.participants[i := db.participants[i].(score := db.participants[i].score + marks)]
                        else db.participants)
  }

  /** Through the intended endpoint every score still counts its participant's correct answers. */
  lemma AnswerCreateKeepsScoresCounting(db: Db, participant: JVal, question: JVal, choice: JVal)
    requires Unique(db) && ScoresCount(db)
    ensures ScoresCount(AnswerCreate(db, participant, question, choice).db)
    ensures Unique(AnswerCreate(db, participant, question, choice).db)
  {
    var r := Resolve(db, participant, question, choice);
    if r.Resolved? {
      AnsweredKeepsScoresCounting(db, r.named);
    }
  }

  lemma AnsweredKeepsScoresCounting(db: Db, n: Named)
    requires n.p < |db.participants| && n.q < |db.questions| && (n.c.Some? ==> n.c.value < |db.choices|)
    requires Unique(db) && ScoresCount(db)
    ensures ScoresCount(Answered(db, n).db) && Unique(Answered(db, n).db)
  {
    var o := Answered(db, n);
    if o.reply.AnswerCreated? {
      var p := db.participants[n.p];
      var key := o.reply.answer;
      var a := o.db.answers[key];
      forall j | 0 <= j < |o.db.participants|
        ensures o.db.participants[j].score == |CorrectKeys(o.db.answers, o.db.participants[j].id)|
      {
        var r := db.participants[j];
        CorrectKeysAfterPut(db.answers, key, a, r.id);
        if j != n.p {
          assert r.id != p.id;
        }
      }
    }
  }

  /** The intended endpoint on the database: the row, then `participant.score +=` for a correct answer. */
  method CreateAnswer(db: Database, participant: JVal, question: JVal, choice: JVal) returns (reply: AnswerReply)
    modifies db
    ensures AnswerOutcome(reply, db.View()) == AnswerCreate(old(db.View()), participant, question, choice)
  {
    var r := Resolve(db.View(), participant, question, choice);
    if r.Refused? {
      return r.reply;
    }
    var n := r.named;
    var p, q := db.participants[n.p], db.questions[n.q];
    if n.c.None? || (p.id, q.id) in db.answers {
      return AnswerError;
    }
    var c := db.choices[n.c.value];
    ghost var before := db.View();
    Record(db, n.p, (p.id, q.id), Answer(p.id, q.id, Some(c.id), c.isCorrect), Marks(q));
    reply := AnswerCreated((p.id, q.id), c.isCorrect);
    assert AnswerOutcome(reply, db.View()) == Answered(before, n);
    assert AnswerCreate(before, participant, question, choice) == Answered(before, n);
  }

  /** Writes the answer row, then adds `marks` to the participant's score when the answer is correct. */
  method Record(db: Database, i: nat, key: (int, int), a: Answer, marks: nat)
    requires i < |db.participants|
    modifies db
    ensures db.View() == Recorded(old(db.View()), i, key, a, marks)
  {
    db.answers := db.answers[key := a];
    if a.isCorrect {
      db.participants := db.participants[i := db.participants[i].(score := db.participants[i].score + marks)];
    }
  }

  // --- SessionActionView ---

  datatype ActionReply =
    | ActionDenied        // 401/403 from the permission classes
    | ActionNotFound      // 404
    | ActionError         // 500
    | ActionForbidden     // 403 {"detail": "Not allowed"}
    | Started(at: int)
    | Ended(at: int)
    | NextQuestion(question: Question)
    | NoQuestions         // 400 {"detail": "No questions"}
    | UnknownAction       // 400 {"detail": "unknown action"}

  datatype ActionOutcome = ActionOutcome(reply: ActionReply, db: Db)

  /**
   * `SessionActionView.post` as written. The permission classes let a
   * teacher through; then `session.host`, an attribute `Session` no longer
   * has, raises for every session that exists.
   */
  function SessionActionAsWritten(db: Db, principal: Principal, sessionId: int, action: string, questionId: JVal): (o: ActionOutcome)
    ensures o.db == db
    ensures !IsTeacher(principal) ==> o.reply == ActionDenied
    ensures IsTeacher(principal) ==> (o.reply == ActionNotFound <==> FindSession(db, sessionId).None?)
    ensures IsTeacher(principal) && FindSession(db, sessionId).Some? ==> o.reply == ActionError
  {
    if !IsTeacher(principal) then ActionOutcome(ActionDenied, db)
    else if FindSession(db, sessionId).None? then ActionOutcome(ActionNotFound, db)
    else ActionOutcome(ActionError, db)
  }

  /** The endpoint as written never starts, ends or advances a session. */
  lemma SessionActionAsWrittenDoesNothing(db: Db, principal: Principal, sessionId: int, action: string, questionId: JVal)
    ensures var o := SessionActionAsWritten(db, principal, sessionId, action, questionId);
      o.reply in {ActionDenied, ActionNotFound, ActionError} && o.db == db
  {
  }

  predicate QuestionOfQuiz(q: Question, quiz: string) {
    q.quiz == quiz
  }

  /** `quiz.questions.order_by("order").first()`: the lowest order, the earlier row among equals. */
  function FirstByOrder(qs: seq<Question>, quiz: string): (k: Option<nat>)
    ensures k.None? <==> forall i :: 0 <= i < |qs| ==> !QuestionOfQuiz(qs[i], quiz)
    ensures k.Some? ==>
      && k.value < |qs| && QuestionOfQuiz(qs[k.value], quiz)
      && forall i :: 0 <= i < |qs| && QuestionOfQuiz(qs[i], quiz) ==> qs[k.value].order <= qs[i].order
  {
    if qs == [] then None
    else
      var rest := FirstByOrder(qs[1..], quiz);
      assert forall i :: 1 <= i < |qs| ==> qs[i] == qs[1..][i - 1];
      if !QuestionOfQuiz(qs[0], quiz) then (if rest.Some? then Some(rest.value + 1) else None)
      else if rest.Some? && qs[rest.value + 1].order < qs[0].order then Some(rest.value + 1)
      else Some(0)
  }

  /** The host of a session as the removed `host` property defined it: its quiz's creator. */
  function HostOf(db: Db, s: Session): Option<int> {
    var k := FindQuiz(db, s.quiz);
    if k.Some? then Some(db.quizzes[k.value].createdBy) else None
  }

  /** A teacher who hosts the quiz of an existing session, or is staff: the requests that reach the action. */
  predicate Permitted(db: Db, principal: Principal, sessionId: int) {
    && IsTeacher(principal)
    && FindSession(db, sessionId).Some?
    && var host := HostOf(db, db.sessions[FindSession(db, sessionId).value]);
    && host.Some?
    && (host.value == principal.user.id || principal.user.isStaff)
  }

  /**
   * `SessionActionView.post` as intended, the host read as the quiz's
   * creator and `end` writing `ended_at`: only the host or staff may act.
   */
  function SessionAction(db: Db, principal: Principal, sessionId: int, action: string, questionId: JVal): (o: ActionOutcome)
    ensures !IsTeacher(principal) ==> o.reply == ActionDenied
    ensures IsTeacher(principal) && FindSession(db, sessionId).None? ==> o.reply == ActionNotFound
    ensures IsTeacher(principal) && FindSession(db, sessionId).Some? ==>
      var s := db.sessions[FindSession(db, sessionId).value];
      && (HostOf(db, s).None? ==> o.reply == ActionError)
      && (HostOf(db, s).Some? ==>
            (o.reply == ActionForbidden <==> HostOf(db, s).value != principal.user.id && !principal.user.isStaff))
    ensures o.reply.Started? || o.reply.Ended? ==> o.reply.at == db.clock
    ensures o.reply == UnknownAction ==> action !in {"start", "end", "next"}
    ensures o.reply.NextQuestion? && !Consumer.Truthy(questionId) ==>
      var s := db.sessions[FindSession(db, sessionId).value];
      && QuestionOfQuiz(o.reply.question, s.quiz)
      && forall i :: 0 <= i < |db.questions| && QuestionOfQuiz(db.questions[i], s.quiz) ==> o.reply.question.order <= db.questions[i].order
    ensures o.reply.NextQuestion? ==> o.reply.question in db.questions
    ensures o.reply == NoQuestions ==>
      !Consumer.Truthy(questionId) && forall i :: 0 <= i < |db.questions| ==>
        !QuestionOfQuiz(db.questions[i], db.sessions[FindSession(db, sessionId).value].quiz)
    ensures !(o.reply.Started? || o.reply.Ended?) ==> o.db == db
    ensures Permitted(db, principal, sessionId) ==>
      var k := FindSession(db, sessionId).value;
      var s := db.sessions[k];
      && (action == "start" ==>
            o == ActionOutcome(Started(db.clock), db.(sessions := db.sessions[k := s.(startedAt := db.clock)])))
      && (action == "end" ==>
            o == ActionOutcome(Ended(db.clock), db.(sessions := db.sessions[k := s.(endedAt := Some(db.clock))])))
      && (action !in {"start", "end", "next"} ==> o.reply == UnknownAction)
      && (action == "next" && !Consumer.Truthy(questionId) ==>
            (o.reply == NoQuestions <==> FirstByOrder(db.questions, s.quiz).None?)
            && (FirstByOrder(db.questions, s.quiz).Some? ==>
                  o.reply == NextQuestion(db.questions[FirstByOrder(db.questions, s.quiz).value])))
      && (action == "next" && Consumer.Truthy(questionId) ==>
            && (KeyOf(questionId).BadKey? ==> o.reply == ActionError)
            && (KeyOf(questionId).IntKey? && FindQuestion(db, KeyOf(questionId).id).Some? ==>
                  o.reply == NextQuestion(db.questions[FindQuestion(db, KeyOf(questionId).id).value]))
            && (KeyOf(questionId).IntKey? && FindQuestion(db, KeyOf(questionId).id).None? ==> o.reply == ActionNotFound))
  {
    if !IsTeacher(principal) then ActionOutcome(ActionDenied, db)
    else match FindSession(db, sessionId)
      case None => ActionOutcome(ActionNotFound, db)
      case Some(k) =>
        var s := db.sessions[k];
        var user := principal.user;
        var host := HostOf(db, s);
        if host.None? then ActionOutcome(ActionError, db)
        else if host.value != user.id && !user.isStaff then ActionOutcome(ActionForbidden, db)
        else if action == "start" then
          ActionOutcome(Started(db.clock), db.(sessions := db.sessions[k := s.(startedAt := db.clock)]))
        else if action == "end" then
          ActionOutcome(Ended(db.clock), db.(sessions := db.sessions[k := s.(endedAt := Some(db.clock))]))
        else if action == "next" then
          if Consumer.Truthy(questionId) then
            match LookupBy(KeyOf(questionId), id => FindQuestion(db, id))
            case Missing => ActionOutcome(ActionNotFound, db)
            case Raised => ActionOutcome(ActionError, db)
            case Found(i) => ActionOutcome(NextQuestion(db.questions[i]), db)
          else
            match FirstByOrder(db.questions, s.quiz)
            case None => ActionOutcome(NoQuestions, db)
            case Some(i) => ActionOutcome(NextQuestion(db.questions[i]), db)
        else ActionOutcome(UnknownAction, db)
  }

  /**
   * The endpoint with the host check repaired but `end` as written: it
   * assigns `session.finished_at`, which is not a column of `Session` (only
   * `ended_at` is), so `save()` writes the row back as it was while the reply
   * still reports the end.
   */
  function SessionActionEndAsWritten(db: Db, principal: Principal, sessionId: int, action: string, questionId: JVal): (o: ActionOutcome)
    ensures o.reply == SessionAction(db, principal, sessionId, action, questionId).reply
    ensures o.reply.Ended? ==> o.db == db
    ensures !o.reply.Ended? ==> o.db == SessionAction(db, principal, sessionId, action, questionId).db
  {
    var o := SessionAction(db, principal, sessionId, action, questionId);
    if o.reply.Ended? then ActionOutcome(o.reply, db) else o
  }

  /** As written, a permitted `end` on an open session reports the end but leaves `ended_at` unset. */
  lemma EndAsWrittenLeavesSessionOpen(db: Db, principal: Principal, sessionId: int, questionId: JVal)
    requires SessionActionEndAsWritten(db, principal, sessionId, "end", questionId).reply.Ended?
    ensures FindSession(db, sessionId).Some?
    ensures var o := SessionActionEndAsWritten(db, principal, sessionId, "end", questionId);
      var k := FindSession(db, sessionId).value;
      && o.reply == Ended(db.clock)
      && o.db.sessions[k].endedAt == db.sessions[k].endedAt
  {
  }

  /** As intended, a permitted `end` stores the time it reports in `ended_at`. */
  lemma EndRecordsEndedAt(db: Db, principal: Principal, sessionId: int, questionId: JVal)
    requires SessionAction(db, principal, sessionId, "end", questionId).reply.Ended?
    ensures FindSession(db, sessionId).Some?
    ensures var o := SessionAction(db, principal, sessionId, "end", questionId);
      var k := FindSession(db, sessionId).value;
      && o.reply == Ended(db.clock)
      && |o.db.sessions| == |db.sessions|
      && o.db.sessions[k].endedAt == Some(db.clock)
  {
  }

  /** `next` with a `question_id` returns that question, whichever quiz it belongs to. */
  lemma NextWithIdReturnsIt(db: Db, principal: Principal, sessionId: int, questionId: int)
    requires questionId != 0
    requires var o := SessionAction(db, principal, sessionId, "next", Consumer.JInt(questionId));
      o.reply.NextQuestion?
    ensures SessionAction(db, principal, sessionId, "next", Consumer.JInt(questionId)).reply.question.id == questionId
  {
  }

  /** A permitted host's `start` and `end` change only the session's timestamps. */
  lemma StartAndEndTouchOnlyTheSession(db: Db, principal: Principal, sessionId: int, action: string, questionId: JVal)
    requires action == "start" || action == "end"
    requires SessionAction(db, principal, sessionId, action, questionId).reply.Started?
          || SessionAction(db, principal, sessionId, action, questionId).reply.Ended?
    ensures var o := SessionAction(db, principal, sessionId, action, questionId);
      var k := FindSession(db, sessionId).value;
      && |o.db.sessions| == |db.sessions|
      && (forall i :: 0 <= i < |db.sessions| && i != k ==> o.db.sessions[i] == db.sessions[i])
      && o.db.sessions[k].pin == db.sessions[k].pin && o.db.sessions[k].isActive == db.sessions[k].isActive
      && o.db == db.(sessions := o.db.sessions)
  {
  }

  // --- QuizViewSet ---

  datatype QuizSerializerKind = QuizSerializer | QuizCreateUpdateSerializer

  datatype PermissionClass = IsAuthenticatedClass | IsTeacherClass

  const WriteActions: set<string> := {"create", "update", "partial_update", "destroy"}

  /** `QuizViewSet.get_serializer_class`. */
  function SerializerFor(action: string): (k: QuizSerializerKind)
    ensures k == QuizCreateUpdateSerializer <==> action in {"create", "update", "partial_update"}
  {
    if action in {"create", "update", "partial_update"} then QuizCreateUpdateSerializer else QuizSerializer
  }

  /** `QuizViewSet.get_permissions`. */
  function PermissionsFor(action: string): (ps: seq<PermissionClass>)
    ensures |ps| >= 1 && ps[0] == IsAuthenticatedClass
    ensures IsTeacherClass in ps <==> action in WriteActions
  {
    if action in WriteActions then [IsAuthenticatedClass, IsTeacherClass] else [IsAuthenticatedClass]
  }

  predicate Holds(c: PermissionClass, p: Principal) {
    match c
    case IsAuthenticatedClass => IsAuthenticated(p)
    case IsTeacherClass => IsTeacher(p)
  }

  /** DRF's check: every permission class must allow the request. */
  predicate Permits(ps: seq<PermissionClass>, p: Principal) {
    forall i :: 0 <= i < |ps| ==> Holds(ps[i], p)
  }

  /** Creating, changing or deleting a quiz needs a teacher; reading it any logged-in user. */
  lemma QuizAccess(action: string, p: Principal)
    ensures action in WriteActions ==> (Permits(PermissionsFor(action), p) <==> IsTeacher(p))
    ensures action !in WriteActions ==> (Permits(PermissionsFor(action), p) <==> IsAuthenticated(p))
  {
    var ps := PermissionsFor(action);
    if action in WriteActions && Permits(ps, p) {
      assert Holds(ps[1], p);
    }
    if action !in WriteActions && Permits(ps, p) {
      assert Holds(ps[0], p);
    }
  }

  /** Every write action is a teacher's, though `destroy` keeps the reading serializer. */
  lemma WriteSerializersNeedTeacher(action: string, p: Principal)
    requires SerializerFor(action) == QuizCreateUpdateSerializer && Permits(PermissionsFor(action), p)
    ensures IsTeacher(p)
  {
    QuizAccess(action, p);
  }

  // --- QuestionViewSet.perform_create ---

  /** The user's quizzes under `Quiz.Meta.ordering = ["-created_at"]`: `first()` is the newest. */
  function NewestQuiz(qs: seq<Quiz>, user: int): (k: Option<nat>)
    ensures k.None? <==> forall i :: 0 <= i < |qs| ==> qs[i].createdBy != user
    ensures k.Some? ==>
      && k.value < |qs| && qs[k.value].createdBy == user
      && forall i :: 0 <= i < |qs| && qs[i].createdBy == user ==> qs[i].createdAt <= qs[k.value].createdAt
  {
    if qs == [] then None
    else
      var rest := NewestQuiz(qs[1..], user);
      assert forall i :: 1 <= i < |qs| ==> qs[i] == qs[1..][i - 1];
      if qs[0].createdBy != user then (if rest.Some? then Some(rest.value + 1) else None)
      else if rest.Some? && qs[rest.value + 1].createdAt > qs[0].createdAt then Some(rest.value + 1)
      else Some(0)
  }

  datatype QuizPick = QuizMissing | QuizPicked(quiz: Quiz, db: Db)

  /**
   * The quiz `perform_create` attaches the question to: the one whose id the
   * request gives, else the user's newest, else a new "<username>'s Quiz"
   * with id `newId`.
   */
  function PickQuiz(db: Db, user: User, quizField: JVal, newId: string): (r: QuizPick)
    ensures Consumer.Truthy(quizField) ==>
      (r.QuizPicked? <==> quizField.JStr? && FindQuiz(db, quizField.s).Some?)
    ensures r.QuizPicked? && Consumer.Truthy(quizField) ==> r.quiz.id == quizField.s && r.quiz in db.quizzes && r.db == db
    ensures !Consumer.Truthy(quizField) ==> r.QuizPicked? && r.quiz.createdBy == user.id
    ensures !Consumer.Truthy(quizField) && (exists i :: 0 <= i < |db.quizzes| && db.quizzes[i].createdBy == user.id) ==>
      r.quiz in db.quizzes && r.db == db
      && forall i :: 0 <= i < |db.quizzes| && db.quizzes[i].createdBy == user.id ==> db.quizzes[i].createdAt <= r.quiz.createdAt
    ensures !Consumer.Truthy(quizField) && (forall i :: 0 <= i < |db.quizzes| ==> db.quizzes[i].createdBy != user.id) ==>
      r.quiz == Quiz(newId, user.username + "'s Quiz", user.id, db.clock) && r.db == db.(quizzes := db.quizzes + [r.quiz])
  {
    if Consumer.Truthy(quizField) then
      if quizField.JStr? && FindQuiz(db, quizField.s).Some? then QuizPicked(db.quizzes[FindQuiz(db, quizField.s).value], db)
      else QuizMissing
    else match NewestQuiz(db.quizzes, user.id)
      case Some(k) => QuizPicked(db.quizzes[k], db)
      case None =>
        var q := Quiz(newId, user.username + "'s Quiz", user.id, db.clock);
        QuizPicked(q, db.(quizzes := db.quizzes + [q]))
  }

  datatype QuestionReply = QuestionQuizNotFound | QuestionMade(question: Question)

  /** `QuestionViewSet.perform_create`: pick the quiz, then the serializer's create on it. */
  method PerformCreateQuestion(db: Database, user: User, quizField: JVal, newId: string, data: QuestionData)
    returns (reply: QuestionReply)
    requires data.text.Some?
    modifies db
    ensures PickQuiz(old(db.View()), user, quizField, newId).QuizMissing? ==> reply == QuestionQuizNotFound && db.View() == old(db.View())
    ensures PickQuiz(old(db.View()), user, quizField, newId).QuizPicked? ==>
      var pick := PickQuiz(old(db.View()), user, quizField, newId);
      && reply == QuestionMade(NewQuestion(pick.db.nextId, pick.quiz.id, data))
      && db.View() == Created(pick.db, pick.quiz.id, data)
  {
    var pick := PickQuiz(db.View(), user, quizField, newId);
    if pick.QuizMissing? {
      return QuestionQuizNotFound;
    }
    db.quizzes := pick.db.quizzes;
    var q := CreateQuestion(db, pick.quiz.id, data);
    reply := QuestionMade(q);
  }
}
