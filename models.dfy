/**
 * The backend's data model: one datatype per table row, the field defaults,
 * the `__str__` formats, the uniqueness constraints, and the whole database
 * as a value `Db` whose tables are sequences in primary-key order, with the
 * answers keyed by (participant, question).
 */
module Models {
  import opened Wrappers
  import opened Text

  datatype User = User(id: int, username: string, role: Option<string>, isStaff: bool)

  /** A quiz; its primary key is a UUID, kept as its text. */
  datatype Quiz = Quiz(id: string, title: string, createdBy: int, createdAt: int)

  datatype Question = Question(id: int, quiz: string, text: string, timeLimit: nat, order: nat)

  datatype Choice = Choice(id: int, question: int, text: string, isCorrect: bool)

  datatype Session = Session(id: int, quiz: string, pin: string, startedAt: int, endedAt: Option<int>, isActive: bool)

  datatype Participant = Participant(id: int, session: int, name: string, score: int, joinedAt: int)

  /** An answer row; `choice` is a non-null foreign key in the schema. */
  datatype Answer = Answer(participant: int, question: int, choice: Option<int>, isCorrect: bool)

  const DefaultTimeLimit: nat := 30
  const DefaultOrder: nat := 0
  const PinMaxLength: nat := 6

  /** `Question.marks`: every question is worth one mark. */
  function Marks(q: Question): nat {
    1
  }

  /** `Choice.correct` and `Answer.correct`: read-only views of `is_correct`. */
  predicate ChoiceCorrect(c: Choice) {
    c.isCorrect
  }

  predicate AnswerCorrect(a: Answer) {
    a.isCorrect
  }

  function Min(a: nat, b: nat): nat {
    if a <= b then a else b
  }

  /** `Question.__str__`: "Q", the 1-based position, ": " and at most 50 characters of the text. */
  function QuestionStr(q: Question): (s: string)
    ensures var n := NatToString(q.order + 1);
      && |s| == 3 + |n| + Min(|q.text|, 50)
      && s[0] == 'Q' && s[1..1 + |n|] == n && s[1 + |n|..3 + |n|] == ": "
      && s[3 + |n|..] == q.text[..Min(|q.text|, 50)]
  {
    "Q" + NatToString(q.order + 1) + ": " + q.text[..Min(|q.text|, 50)]
  }

  /** Questions at different positions render differently, whatever their texts. */
  lemma QuestionStrShowsOrder(q1: Question, q2: Question)
    requires q1.order != q2.order
    ensures QuestionStr(q1) != QuestionStr(q2)
  {
    var n1, n2 := NatToString(q1.order + 1), NatToString(q2.order + 1);
    var s1, s2 := QuestionStr(q1), QuestionStr(q2);
    // the digits run up to the ':' that follows them
    if |n1| < |n2| {
      assert s1[1 + |n1|] == ':' && IsDigit(s2[1 + |n1|]);
    } else if |n2| < |n1| {
      assert s2[1 + |n2|] == ':' && IsDigit(s1[1 + |n2|]);
    } else {
      assert n1 != n2 by {
        if n1 == n2 {
          NatToStringInjective(q1.order + 1, q2.order + 1);
        }
      }
      assert s1[1..1 + |n1|] != s2[1..1 + |n2|];
    }
  }

  /** `Choice.__str__`: the text followed by "(correct)" or "(wrong)". */
  function ChoiceStr(c: Choice): (s: string)
    ensures ChoiceCorrect(c) ==> s == c.text + " (correct)"
    ensures !ChoiceCorrect(c) ==> s == c.text + " (wrong)"
  {
    c.text + " (" + (if c.isCorrect then "correct" else "wrong") + ")"
  }

  /** The printed form tells correct and wrong choices apart, whatever their texts. */
  lemma ChoiceStrShowsCorrectness(c: Choice)
    ensures var s := ChoiceStr(c);
      ChoiceCorrect(c) <==> |s| >= 9 && s[|s| - 9..] == "(correct)"
  {
    var s := ChoiceStr(c);
    if !c.isCorrect && |s| >= 9 {
      assert s[|s| - 2] == 'g';
      assert "(correct)"[7] == 't';
    }
  }

  /** `Session.__str__`: "Session", the PIN and "(Active)" or "(Ended)". */
  function SessionStr(s: Session): (r: string)
    ensures s.isActive ==> r == "Session " + s.pin + " (Active)"
    ensures !s.isActive ==> r == "Session " + s.pin + " (Ended)"
  {
    "Session " + s.pin + " (" + (if s.isActive then "Active" else "Ended") + ")"
  }

  lemma SessionStrShowsActivity(s: Session)
    ensures var r := SessionStr(s);
      s.isActive <==> r[|r| - 8..] == "(Active)"
  {
    var r := SessionStr(s);
    if !s.isActive {
      assert r[|r| - 2] == 'd';
      assert "(Active)"[6] == 'e';
    }
  }

  /** `Participant.__str__`: the name and, in parentheses, the session's PIN. */
  function ParticipantStr(p: Participant, sessionPin: string): (r: string)
    ensures |r| == |p.name| + |sessionPin| + 3
    ensures r[..|p.name|] == p.name && r[|p.name|..] == " (" + sessionPin + ")"
  {
    p.name + " (" + sessionPin + ")"
  }

  /**
   * What `Session.save` leaves in `pin`: an existing PIN stays, an empty one
   * becomes the decimal text of `random.randint(100000, 999999)`.
   */
  function AssignedPin(pin: string, rand: int): (r: string)
    requires 100000 <= rand <= 999999
    ensures pin != "" ==> r == pin
    ensures pin == "" ==> |r| == PinMaxLength && IsDigits(r) && ParseDigits(r) == rand
  {
    if pin != "" then pin
    else
      ToStringOfSixDigits(rand);
      ParseNatToString(rand);
      NatToString(rand)
  }

  /** Saving twice assigns a PIN at most once. */
  lemma SaveKeepsAssignedPin(pin: string, r1: int, r2: int)
    requires 100000 <= r1 <= 999999 && 100000 <= r2 <= 999999
    ensures AssignedPin(AssignedPin(pin, r1), r2) == AssignedPin(pin, r1)
  {
  }

  /** An unsaved or saved `Session` object, whose `save` fills in the PIN. */
  class SessionRecord {
    var pin: string
    var saved: bool

    constructor (pin: string)
      ensures this.pin == pin && !saved
    {
      this.pin, saved := pin, false;
    }

    /** `save()`, with the value `random.randint` would give. */
    method Save(rand: int)
      requires 100000 <= rand <= 999999
      modifies this
      ensures pin == AssignedPin(old(pin), rand) && saved
    {
      if pin == "" {
        pin := NatToString(rand);
      }
      saved := true;
    }
  }

  // --- The database ---

  /** The first index whose element satisfies `p`. */
  function IndexWhere<T>(s: seq<T>, p: T -> bool): (k: Option<nat>)
    ensures k.None? <==> forall i :: 0 <= i < |s| ==> !p(s[i])
    ensures k.Some? ==> k.value < |s| && p(s[k.value]) && forall i :: 0 <= i < k.value ==> !p(s[i])
  {
    if s == [] then None
    else if p(s[0]) then Some(0)
    else
      var r := IndexWhere(s[1..], p);
      assert forall i :: 1 <= i < |s| ==> s[i] == s[1..][i - 1];
      if r.Some? then Some(r.value + 1) else None
  }

  /**
   * The tables, each in primary-key order. `nextId` is the next value of the
   * integer primary-key sequence and `clock` the current time.
   */
  datatype Db = Db(
    users: seq<User>,
    quizzes: seq<Quiz>,
    questions: seq<Question>,
    choices: seq<Choice>,
    sessions: seq<Session>,
    participants: seq<Participant>,
    answers: map<(int, int), Answer>,
    nextId: int,
    clock: int)

  function FindUser(db: Db, id: int): Option<nat> { IndexWhere(db.users, (u: User) => u.id == id) }
  function FindQuiz(db: Db, id: string): Option<nat> { IndexWhere(db.quizzes, (q: Quiz) => q.id == id) }
  function FindQuestion(db: Db, id: int): Option<nat> { IndexWhere(db.questions, (q: Question) => q.id == id) }
  function FindChoice(db: Db, id: int): Option<nat> { IndexWhere(db.choices, (c: Choice) => c.id == id) }
  function FindSession(db: Db, id: int): Option<nat> { IndexWhere(db.sessions, (s: Session) => s.id == id) }
  function FindSessionByPin(db: Db, pin: string): Option<nat> { IndexWhere(db.sessions, (s: Session) => s.pin == pin) }
  function FindParticipant(db: Db, id: int): Option<nat> { IndexWhere(db.participants, (p: Participant) => p.id == id) }
  function FindMember(db: Db, session: int, name: string): Option<nat> {
    IndexWhere(db.participants, (p: Participant) => p.session == session && p.name == name)
  }

  /** `question.choices.all()`: the question's choices, in primary-key order. */
  function ChoicesOf(cs: seq<Choice>, question: int): (r: seq<Choice>)
    ensures |r| <= |cs|
    ensures forall i :: 0 <= i < |r| ==> r[i].question == question && r[i] in cs
  {
    if cs == [] then []
    else (if cs[0].question == question then [cs[0]] else []) + ChoicesOf(cs[1..], question)
  }

  /** `question.choices` of the table except one question's choices; what `choices.all().delete()` leaves. */
  function OtherChoices(cs: seq<Choice>, question: int): (r: seq<Choice>)
    ensures |r| <= |cs|
    ensures forall i :: 0 <= i < |r| ==> r[i].question != question && r[i] in cs
  {
    if cs == [] then []
    else (if cs[0].question != question then [cs[0]] else []) + OtherChoices(cs[1..], question)
  }

  lemma {:induction false} ChoicesOfAppend(a: seq<Choice>, b: seq<Choice>, question: int)
    ensures ChoicesOf(a + b, question) == ChoicesOf(a, question) + ChoicesOf(b, question)
  {
    if a == [] {
      assert a + b == b;
    } else {
      var head := if a[0].question == question then [a[0]] else [];
      assert (a + b)[0] == a[0] && (a + b)[1..] == a[1..] + b;
      ChoicesOfAppend(a[1..], b, question);
      calc {
        ChoicesOf(a + b, question);
        head + ChoicesOf(a[1..] + b, question);
        head + (ChoicesOf(a[1..], question) + ChoicesOf(b, question));
        (head + ChoicesOf(a[1..], question)) + ChoicesOf(b, question);
      }
    }
  }

  /** A table whose rows all belong to `question` is all of that question's choices. */
  lemma {:induction false} ChoicesOfOwn(cs: seq<Choice>, question: int)
    requires forall i :: 0 <= i < |cs| ==> cs[i].question == question
    ensures ChoicesOf(cs, question) == cs
  {
    if cs != [] {
      ChoicesOfOwn(cs[1..], question);
    }
  }

  /** A table holding none of the question's rows has no choices for it. */
  lemma {:induction false} ChoicesOfForeign(cs: seq<Choice>, question: int)
    requires forall i :: 0 <= i < |cs| ==> cs[i].question != question
    ensures ChoicesOf(cs, question) == []
  {
    if cs != [] {
      ChoicesOfForeign(cs[1..], question);
    }
  }

  /** Removing one question's choices leaves every other question's choices as they were. */
  lemma {:induction false} OtherChoicesKeepsOthers(cs: seq<Choice>, question: int, other: int)
    requires other != question
    ensures ChoicesOf(OtherChoices(cs, question), other) == ChoicesOf(cs, other)
  {
    if cs != [] {
      var rest := OtherChoices(cs[1..], question);
      OtherChoicesKeepsOthers(cs[1..], question, other);
      ChoicesOfAppend(if cs[0].question != question then [cs[0]] else [], rest, other);
    }
  }

  /** `unique_together = ("session", "name")` (models.py) and the other keys. */
  ghost predicate Unique(db: Db) {
    && (forall i, j :: 0 <= i < j < |db.participants| ==>
          db.participants[i].id != db.participants[j].id
          && (db.participants[i].session != db.participants[j].session || db.participants[i].name != db.participants[j].name))
    && (forall i, j :: 0 <= i < j < |db.sessions| ==> db.sessions[i].pin != db.sessions[j].pin && db.sessions[i].id != db.sessions[j].id)
    && (forall k :: k in db.answers ==> db.answers[k].participant == k.0 && db.answers[k].question == k.1)
  }

  /** Every integer key in use, and every one referred to, is below `nextId`. */
  ghost predicate Fresh(db: Db) {
    && (forall i :: 0 <= i < |db.questions| ==> db.questions[i].id < db.nextId)
    && (forall i :: 0 <= i < |db.choices| ==> db.choices[i].id < db.nextId)
    && (forall i :: 0 <= i < |db.sessions| ==> db.sessions[i].id < db.nextId)
    && (forall i :: 0 <= i < |db.participants| ==> db.participants[i].id < db.nextId)
    && (forall i :: 0 <= i < |db.choices| ==> db.choices[i].question < db.nextId)
    && (forall k :: k in db.answers ==> k.0 < db.nextId)
  }

  /** The keys of a participant's correct answers. */
  function CorrectKeys(answers: map<(int, int), Answer>, participant: int): set<(int, int)> {
    set k | k in answers && k.0 == participant && answers[k].isCorrect
  }

  /** Each participant's score is the number of its answers that are correct. */
  ghost predicate ScoresCount(db: Db) {
    forall i :: 0 <= i < |db.participants| ==>
      db.participants[i].score == |CorrectKeys(db.answers, db.participants[i].id)|
  }

  /** Writing one answer moves one participant's count of correct answers by at most one. */
  lemma CorrectKeysAfterPut(answers: map<(int, int), Answer>, k: (int, int), a: Answer, participant: int)
    ensures var before := |CorrectKeys(answers, participant)|;
      var was := if k in answers && k.0 == participant && answers[k].isCorrect then 1 else 0;
      var now := if k.0 == participant && a.isCorrect then 1 else 0;
      |CorrectKeys(answers[k := a], participant)| == before - was + now
  {
    var s, t := CorrectKeys(answers, participant), CorrectKeys(answers[k := a], participant);
    assert t - {k} == s - {k};
    if k in s {
      assert s == (s - {k}) + {k};
    }
    if k in t {
      assert t == (t - {k}) + {k};
    }
  }

  /** The database the views, serializers and consumer update in place. */
  class Database {
    var users: seq<User>
    var quizzes: seq<Quiz>
    var questions: seq<Question>
    var choices: seq<Choice>
    var sessions: seq<Session>
    var participants: seq<Participant>
    var answers: map<(int, int), Answer>
    var nextId: int
    var clock: int

    function View(): Db
      reads this
    {
      Db(users, quizzes, questions, choices, sessions, participants, answers, nextId, clock)
    }

    constructor (db: Db)
      ensures View() == db
    {
      users, quizzes, questions, choices := db.users, db.quizzes, db.questions, db.choices;
      sessions, participants, answers := db.sessions, db.participants, db.answers;
      nextId, clock := db.nextId, db.clock;
    }
  }
}
