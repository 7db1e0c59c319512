/**
 * The serializers' own logic: creating and updating a question with its
 * choices, validating and performing a join, creating a session row, and the
 * registration password rule. Field validation follows the rules of DRF's
 * `CharField`: a missing value is required, the value is trimmed, a blank one
 * is refused, and the length limits apply to the trimmed text.
 */
module Serializers {
  import opened Wrappers
  import opened Text
  import opened Models

  // --- Field validation ---

  datatype FieldCheck = FieldOk(value: string) | FieldError(message: string)

  const Required := "This field is required."
  const Blank := "This field may not be blank."

  function TooLong(maxLength: nat): string {
    "Ensure this field has no more than " + NatToString(maxLength) + " characters."
  }

  function TooShort(minLength: nat): string {
    "Ensure this field has at least " + NatToString(minLength) + " characters."
  }

  /** Whether a length respects an optional `max_length`. */
  predicate Within(n: nat, maxLength: Option<nat>) {
    maxLength.None? || n <= maxLength.value
  }

  /** A `CharField` with an optional `max_length` and a `min_length` (0 for none). */
  function CharField(v: Option<string>, minLength: nat, maxLength: Option<nat>): (r: FieldCheck)
    ensures v.None? ==> r == FieldError(Required)
    ensures v.Some? && Trim(v.value) == [] ==> r == FieldError(Blank)
    ensures r.FieldOk? <==> v.Some? && Trim(v.value) != [] && minLength <= |Trim(v.value)| && Within(|Trim(v.value)|, maxLength)
    ensures r.FieldOk? ==> r.value == Trim(v.value)
    ensures v.Some? && Trim(v.value) != [] && !Within(|Trim(v.value)|, maxLength) ==> r == FieldError(TooLong(maxLength.value))
    ensures v.Some? && Trim(v.value) != [] && Within(|Trim(v.value)|, maxLength) && |Trim(v.value)| < minLength ==>
      r == FieldError(TooShort(minLength))
  {
    if v.None? then FieldError(Required)
    else
      var t := Trim(v.value);
      if t == [] then FieldError(Blank)
      else if !Within(|t|, maxLength) then FieldError(TooLong(maxLength.value))
      else if |t| < minLength then FieldError(TooShort(minLength))
      else FieldOk(t)
  }

  /** Surrounding white space never changes a field's verdict or value. */
  lemma CharFieldIgnoresPadding(s: string, minLength: nat, maxLength: Option<nat>)
    ensures CharField(Some(Trim(s)), minLength, maxLength) == CharField(Some(s), minLength, maxLength)
  {
    TrimIdempotent(s);
  }

  // --- RegisterSerializer ---

  /** `password = CharField(write_only=True, min_length=8)`. */
  function CheckPassword(password: Option<string>): (r: FieldCheck)
    ensures r.FieldOk? <==> password.Some? && 8 <= |Trim(password.value)|
    ensures r.FieldOk? ==> r.value == Trim(password.value)
    ensures password.Some? && Trim(password.value) != [] && |Trim(password.value)| < 8 ==>
      r == FieldError(TooShort(8))
  {
    CharField(password, 8, None)
  }

  /** The message a short password gets. */
  lemma ShortPasswordMessage()
    ensures TooShort(8) == "Ensure this field has at least 8 characters."
  {
    assert NatToString(8) == "8";
  }

  /** Eight characters counted with the padding are not enough when fewer remain trimmed. */
  lemma PaddedShortPasswordRefused(password: string)
    requires 8 <= |password| && 0 < |Trim(password)| < 8
    ensures CheckPassword(Some(password)).FieldError?
  {
  }

  // --- QuestionSerializer ---

  /** A validated entry of `choices`. */
  datatype ChoiceData = ChoiceData(text: string, isCorrect: bool)

  /** The validated fields of a question; `None` where the request did not give one. */
  datatype QuestionData = QuestionData(
    text: Option<string>,
    timeLimit: Option<nat>,
    order: Option<nat>,
    choices: Option<seq<ChoiceData>>)

  /** The rows `Choice.objects.create` makes for the entries, their ids counted from `first`. */
  function NewChoices(question: int, first: int, cs: seq<ChoiceData>): (r: seq<Choice>)
    ensures |r| == |cs|
    ensures forall i :: 0 <= i < |cs| ==> r[i] == Choice(first + i, question, cs[i].text, cs[i].isCorrect)
  {
    seq(|cs|, i requires 0 <= i < |cs| => Choice(first + i, question, cs[i].text, cs[i].isCorrect))
  }

  /** `Question.objects.create(**validated_data)`, the model's defaults filling the gaps. */
  function NewQuestion(id: int, quiz: string, data: QuestionData): (q: Question)
    requires data.text.Some?
    ensures q.id == id && q.quiz == quiz && q.text == data.text.value
    ensures q.timeLimit == (if data.timeLimit.Some? then data.timeLimit.value else DefaultTimeLimit)
    ensures q.order == (if data.order.Some? then data.order.value else DefaultOrder)
  {
    Question(id, quiz, data.text.value, data.timeLimit.GetOr(DefaultTimeLimit), data.order.GetOr(DefaultOrder))
  }

  /** The database after `QuestionSerializer.create`. */
  function Created(db: Db, quiz: string, data: QuestionData): Db
    requires data.text.Some?
  {
    var cs := data.choices.GetOr([]);
    db.(questions := db.questions + [NewQuestion(db.nextId, quiz, data)],
        choices := db.choices + NewChoices(db.nextId, db.nextId + 1, cs),
        nextId := db.nextId + 1 + |cs|)
  }

  /**
   * The new question owns exactly one choice per supplied entry, in order,
   * each with the entry's text and correctness.
   */
  lemma CreateMakesOneChoicePerEntry(db: Db, quiz: string, data: QuestionData)
    requires Fresh(db) && data.text.Some?
    ensures var cs := data.choices.GetOr([]);
      var own := ChoicesOf(Created(db, quiz, data).choices, db.nextId);
      && |own| == |cs|
      && forall i :: 0 <= i < |cs| ==> own[i].text == cs[i].text && own[i].isCorrect == cs[i].isCorrect
  {
    var made := NewChoices(db.nextId, db.nextId + 1, data.choices.GetOr([]));
    assert Created(db, quiz, data).choices == db.choices + made;
    assert ChoicesOf(db.choices + made, db.nextId) == made by {
      ChoicesOfAppend(db.choices, made, db.nextId);
      ChoicesOfForeign(db.choices, db.nextId);
      ChoicesOfOwn(made, db.nextId);
    }
  }

  /** Every other question keeps the choices it had. */
  lemma CreateKeepsOtherChoices(db: Db, quiz: string, data: QuestionData, other: int)
    requires data.text.Some? && other != db.nextId
    ensures ChoicesOf(Created(db, quiz, data).choices, other) == ChoicesOf(db.choices, other)
  {
    var made := NewChoices(db.nextId, db.nextId + 1, data.choices.GetOr([]));
    ChoicesOfAppend(db.choices, made, other);
    ChoicesOfForeign(made, other);
  }

  /** Creating a question keeps every key below the next id. */
  lemma CreateKeepsFresh(db: Db, quiz: string, data: QuestionData)
    requires Fresh(db) && data.text.Some?
    ensures Fresh(Created(db, quiz, data))
  {
    var r := Created(db, quiz, data);
    assert forall i :: 0 <= i < |db.choices| ==> r.choices[i] == db.choices[i];
    assert forall i :: |db.choices| <= i < |r.choices| ==> r.choices[i].question == db.nextId;
  }

  /** `QuestionSerializer.create`: the question, then one choice per entry. */
  method CreateQuestion(db: Database, quiz: string, data: QuestionData) returns (q: Question)
    requires data.text.Some?
    modifies db
    ensures q == NewQuestion(old(db.nextId), quiz, data)
    ensures db.View() == Created(old(db.View()), quiz, data)
  {
    q := NewQuestion(db.nextId, quiz, data);
    db.questions := db.questions + [q];
    db.nextId := db.nextId + 1;
    var cs := data.choices.GetOr([]);
    for i := 0 to |cs|
      invariant db.choices == old(db.choices) + NewChoices(q.id, q.id + 1, cs[..i])
      invariant db.nextId == q.id + 1 + i
      invariant db.questions == old(db.questions) + [q]
      invariant db.users == old(db.users) && db.quizzes == old(db.quizzes) && db.sessions == old(db.sessions)
      invariant db.participants == old(db.participants) && db.answers == old(db.answers) && db.clock == old(db.clock)
    {
      assert NewChoices(q.id, q.id + 1, cs[..i + 1]) == NewChoices(q.id, q.id + 1, cs[..i]) + [Choice(db.nextId, q.id, cs[i].text, cs[i].isCorrect)];
      db.choices := db.choices + [Choice(db.nextId, q.id, cs[i].text, cs[i].isCorrect)];
      db.nextId := db.nextId + 1;
    }
    assert cs[..|cs|] == cs;
  }

  /** `setattr(instance, attr, value)` for every supplied field. */
  function Patched(q: Question, data: QuestionData): Question {
    q.(text := data.text.GetOr(q.text), timeLimit := data.timeLimit.GetOr(q.timeLimit), order := data.order.GetOr(q.order))
  }

  /** A supplied field takes the given value; every other one keeps its old value, and the identity stays. */
  lemma PatchedSetsSuppliedFields(q: Question, data: QuestionData)
    ensures var r := Patched(q, data);
      && r.id == q.id && r.quiz == q.quiz
      && (data.text.Some? ==> r.text == data.text.value) && (data.text.None? ==> r.text == q.text)
      && (data.timeLimit.Some? ==> r.timeLimit == data.timeLimit.value) && (data.timeLimit.None? ==> r.timeLimit == q.timeLimit)
      && (data.order.Some? ==> r.order == data.order.value) && (data.order.None? ==> r.order == q.order)
      && Patched(r, data) == r
  {
  }

  /** Whether the delete of the question's choices takes an answer with it (`on_delete=CASCADE`). */
  predicate Cascaded(a: Answer, deleted: seq<Choice>) {
    a.choice.Some? && exists c :: c in deleted && c.id == a.choice.value
  }

  /** The database after `QuestionSerializer.update` of the question at `k`. */
  function Updated(db: Db, k: nat, data: QuestionData): (r: Db)
    requires k < |db.questions|
    ensures data.choices.None? ==> r.choices == db.choices && r.answers == db.answers
  {
    var q := db.questions[k];
    var db1 := db.(questions := db.questions[k := Patched(q, data)]);
    if data.choices.None? then db1
    else
      var cs := data.choices.value;
      var deleted := ChoicesOf(db.choices, q.id);
      db1.(choices := OtherChoices(db.choices, q.id) + NewChoices(q.id, db.nextId, cs),
           answers := map key | key in db.answers && !Cascaded(db.answers[key], deleted) :: db.answers[key],
           nextId := db.nextId + |cs|)
  }

  /**
   * With `choices` given, the question's choices are exactly the new entries,
   * every other question keeps its own, and the answers that chose a deleted
   * choice are gone while all others remain.
   */
  lemma UpdateReplacesChoices(db: Db, k: nat, data: QuestionData, other: int)
    requires Fresh(db) && k < |db.questions| && data.choices.Some? && other != db.questions[k].id
    ensures var r := Updated(db, k, data);
      var q := db.questions[k];
      var cs := data.choices.value;
      && ChoicesOf(r.choices, q.id) == NewChoices(q.id, db.nextId, cs)
      && ChoicesOf(r.choices, other) == ChoicesOf(db.choices, other)
      && (forall key :: key in r.answers <==> key in db.answers && !Cascaded(db.answers[key], ChoicesOf(db.choices, q.id)))
  {
    var q := db.questions[k];
    var made := NewChoices(q.id, db.nextId, data.choices.value);
    var kept := OtherChoices(db.choices, q.id);
    ChoicesOfAppend(kept, made, q.id);
    ChoicesOfForeign(kept, q.id);
    ChoicesOfOwn(made, q.id);
    ChoicesOfAppend(kept, made, other);
    ChoicesOfForeign(made, other);
    OtherChoicesKeepsOthers(db.choices, q.id, other);
  }

  /** `QuestionSerializer.update`: the attributes, then, when given, the choices replaced. */
  method UpdateQuestion(db: Database, k: nat, data: QuestionData)
    requires k < |db.questions|
    modifies db
    ensures db.View() == Updated(old(db.View()), k, data)
  {
    var q := db.questions[k];
    db.questions := db.questions[k := Patched(q, data)];
    if data.choices.Some? {
      var deleted := ChoicesOf(db.choices, q.id);
      db.choices := OtherChoices(db.choices, q.id);
      db.answers := map key | key in db.answers && !Cascaded(db.answers[key], deleted) :: db.answers[key];
      var cs := data.choices.value;
      ghost var kept := db.choices;
      ghost var first := db.nextId;
      for i := 0 to |cs|
        invariant db.choices == kept + NewChoices(q.id, first, cs[..i])
        invariant db.nextId == first + i
        invariant db.questions == old(db.questions)[k := Patched(q, data)]
        invariant db.answers == map key | key in old(db.answers) && !Cascaded(old(db.answers)[key], deleted) :: old(db.answers)[key]
        invariant db.users == old(db.users) && db.quizzes == old(db.quizzes) && db.sessions == old(db.sessions)
        invariant db.participants == old(db.participants) && db.clock == old(db.clock)
      {
        assert NewChoices(q.id, first, cs[..i + 1]) == NewChoices(q.id, first, cs[..i]) + [Choice(db.nextId, q.id, cs[i].text, cs[i].isCorrect)];
        db.choices := db.choices + [Choice(db.nextId, q.id, cs[i].text, cs[i].isCorrect)];
        db.nextId := db.nextId + 1;
      }
      assert cs[..|cs|] == cs;
    }
  }

  // --- ParticipantJoinSerializer ---

  const PinLimit: nat := 32
  const NameLimit: nat := 150

  datatype JoinCheck = JoinInvalid(errors: map<string, string>) | JoinValid(session: Session, name: string)

  /** The field errors of a join request, by field name. */
  function FieldErrors(pin: FieldCheck, name: FieldCheck): (m: map<string, string>)
    ensures "pin" in m <==> pin.FieldError?
    ensures "name" in m <==> name.FieldError?
  {
    var m := if pin.FieldError? then map["pin" := pin.message] else map[];
    if name.FieldError? then m["name" := name.message] else m
  }

  /**
   * `is_valid()`: the two fields, then `validate`, which looks the session up
   * by the trimmed PIN.
   */
  function ValidateJoin(db: Db, pin: Option<string>, name: Option<string>): (r: JoinCheck)
    ensures var p, n := CharField(pin, 0, Some(PinLimit)), CharField(name, 0, Some(NameLimit));
      && (r.JoinValid? <==> p.FieldOk? && n.FieldOk? && FindSessionByPin(db, p.value).Some?)
      && (r.JoinValid? ==> r.session in db.sessions && r.session.pin == Trim(pin.value) && r.name == Trim(name.value))
      && (p.FieldOk? && n.FieldOk? && r.JoinInvalid? ==> r.errors == map["pin" := "Session with this PIN does not exist."])
      && (r.JoinInvalid? ==> "pin" in r.errors || "name" in r.errors)
      && (p.FieldError? || n.FieldError? ==>
            r.JoinInvalid? && ("pin" in r.errors <==> p.FieldError?) && ("name" in r.errors <==> n.FieldError?))
  {
    var p, n := CharField(pin, 0, Some(PinLimit)), CharField(name, 0, Some(NameLimit));
    if p.FieldError? || n.FieldError? then
      var m := FieldErrors(p, n);
      assert "pin" in m || "name" in m;
      JoinInvalid(m)
    else
      var k := FindSessionByPin(db, p.value);
      if k.None? then JoinInvalid(map["pin" := "Session with this PIN does not exist."])
      else JoinValid(db.sessions[k.value], n.value)
  }

  datatype JoinedRow = JoinedRow(participant: Participant, db: Db)

  /** `Participant.objects.get_or_create(session=session, name=name)`. */
  function GetOrCreate(db: Db, session: int, name: string): (r: JoinedRow)
    ensures r.participant.session == session && r.participant.name == name
    ensures r.participant in r.db.participants
    ensures FindMember(db, session, name).Some? ==> r.db == db
    ensures FindMember(db, session, name).None? ==>
      r.participant.score == 0 && r.participant.id == db.nextId && r.db.participants == db.participants + [r.participant]
  {
    var k := FindMember(db, session, name);
    if k.Some? then JoinedRow(db.participants[k.value], db)
    else
      var p := Participant(db.nextId, session, name, 0, db.clock);
      JoinedRow(p, db.(participants := db.participants + [p], nextId := db.nextId + 1))
  }

  /** Joining twice under the same name returns the same participant and adds nothing. */
  lemma JoinIsIdempotent(db: Db, session: int, name: string)
    requires Unique(db)
    ensures var r1 := GetOrCreate(db, session, name);
      var r2 := GetOrCreate(r1.db, session, name);
      r2.participant == r1.participant && r2.db == r1.db
  {
    var r1 := GetOrCreate(db, session, name);
    var k := FindMember(r1.db, session, name);
    if FindMember(db, session, name).None? {
      var n := |db.participants|;
      assert r1.db.participants[n] == r1.participant;
      assert k.Some?;
      assert k.value == n;
    } else {
      var j := FindMember(db, session, name).value;
      assert k.value == j;
    }
  }

  /** A join keeps the keys unique, the ids fresh and every score equal to its count of correct answers. */
  lemma JoinKeepsInvariants(db: Db, session: int, name: string)
    requires Unique(db) && Fresh(db) && ScoresCount(db)
    ensures var r := GetOrCreate(db, session, name).db;
      Unique(r) && Fresh(r) && ScoresCount(r)
  {
    var r := GetOrCreate(db, session, name);
    if FindMember(db, session, name).None? {
      assert CorrectKeys(db.answers, db.nextId) == {};
      var ps := r.db.participants;
      assert forall i :: 0 <= i < |db.participants| ==> ps[i] == db.participants[i];
    }
  }

  /** `ParticipantJoinSerializer.create`, on the database in place. */
  method JoinCreate(db: Database, session: int, name: string) returns (p: Participant)
    modifies db
    ensures JoinedRow(p, db.View()) == GetOrCreate(old(db.View()), session, name)
  {
    var k := FindMember(db.View(), session, name);
    if k.Some? {
      p := db.participants[k.value];
    } else {
      p := Participant(db.nextId, session, name, 0, db.clock);
      db.participants := db.participants + [p];
      db.nextId := db.nextId + 1;
    }
  }

  // --- SessionCreateSerializer ---

  datatype SessionSaved = SessionCreated(session: Session, db: Db) | PinTaken

  /**
   * `Session.objects.create(**fields)` on a `pin` that `Session.save` fills
   * in from `rand` when empty; the unique constraint on `pin` refuses a PIN
   * already in use.
   */
  function InsertSession(db: Db, quiz: string, pin: string, rand: int): (r: SessionSaved)
    requires 100000 <= rand <= 999999
    ensures r.SessionCreated? <==> FindSessionByPin(db, AssignedPin(pin, rand)).None?
    ensures r.SessionCreated? ==>
      && r.session == Session(db.nextId, quiz, AssignedPin(pin, rand), db.clock, None, true)
      && r.db == db.(sessions := db.sessions + [r.session], nextId := db.nextId + 1)
  {
    var s := Session(db.nextId, quiz, AssignedPin(pin, rand), db.clock, None, true);
    if FindSessionByPin(db, s.pin).Some? then PinTaken
    else SessionCreated(s, db.(sessions := db.sessions + [s], nextId := db.nextId + 1))
  }

  /** A created session keeps the PINs unique and the ids fresh. */
  lemma InsertSessionKeepsInvariants(db: Db, quiz: string, pin: string, rand: int)
    requires 100000 <= rand <= 999999 && Unique(db) && Fresh(db)
    ensures var r := InsertSession(db, quiz, pin, rand);
      r.SessionCreated? ==> Unique(r.db) && Fresh(r.db)
  {
  }

  /**
   * `SessionCreateSerializer.create`: the `pin` passed to `save` arrives in
   * `validated_data` and is not used; the session is created with the quiz only.
   */
  function CreateSession(db: Db, quiz: string, validatedPin: string, rand: int): SessionSaved
    requires 100000 <= rand <= 999999
  {
    InsertSession(db, quiz, "", rand)
  }

  /** The PIN a view passes in makes no difference to the created session. */
  lemma CreateSessionIgnoresGivenPin(db: Db, quiz: string, pin1: string, pin2: string, rand: int)
    requires 100000 <= rand <= 999999
    ensures CreateSession(db, quiz, pin1, rand) == CreateSession(db, quiz, pin2, rand)
    ensures var r := CreateSession(db, quiz, pin1, rand);
      r.SessionCreated? ==> r.session.pin == NatToString(rand) && |r.session.pin| == PinMaxLength
  {
  }
}
