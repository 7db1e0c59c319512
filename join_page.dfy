/**
 * The student join page: it checks that a name and a PIN were typed, posts
 * them trimmed to the join endpoint, and on success stores the participant's
 * id, PIN and name for the quiz page and navigates there. On failure it shows
 * the first error the backend gave.
 *
 * The request itself is not modelled; its result is an input of the handler.
 */
module JoinPage {
  import opened Wrappers
  import opened Text
  import QuizPage

  /** The JSON body of `POST /api/participants/join/`. */
  datatype JoinBody = JoinBody(name: string, pin: string)

  /** What the request ends in, as the handler can tell it apart. */
  datatype JoinResponse =
    | Joined(participant: Option<int>)   // 2xx; `data.participant.id` when present
    | Refused(errorPin: Option<string>, errorName: Option<string>, detail: Option<string>)
    | NotJson                            // `response.json()` throws
    | NetworkError                       // `fetch` throws

  /** The three local-storage entries written on success. */
  datatype Stored = Stored(participantId: string, pin: string, name: string)

  datatype JoinResult = JoinResult(error: string, request: Option<JoinBody>, stored: Option<Stored>, navigated: bool)

  predicate Truthy(s: Option<string>) {
    s.Some? && s.value != ""
  }

  /**
   * `data.errors?.pin || data.errors?.name || data.detail || "Failed to join"`:
   * the PIN error first, then the name error, then the detail; never empty.
   */
  function ErrorMessage(errorPin: Option<string>, errorName: Option<string>, detail: Option<string>): (m: string)
    ensures m != ""
    ensures m in [errorPin.GetOr(""), errorName.GetOr(""), detail.GetOr(""), "Failed to join"]
    ensures Truthy(errorPin) ==> m == errorPin.value
    ensures !Truthy(errorPin) && Truthy(errorName) ==> m == errorName.value
    ensures !Truthy(errorPin) && !Truthy(errorName) && Truthy(detail) ==> m == detail.value
    ensures !Truthy(errorPin) && !Truthy(errorName) && !Truthy(detail) ==> m == "Failed to join"
  {
    if Truthy(errorPin) then errorPin.value
    else if Truthy(errorName) then errorName.value
    else if Truthy(detail) then detail.value
    else "Failed to join"
  }

  /** `handleJoin` for the typed name and PIN and the outcome of the request. */
  function HandleJoin(username: string, pin: string, response: JoinResponse): (r: JoinResult)
    ensures r.request.None? <==> Trim(username) == [] || Trim(pin) == []
    ensures r.request.Some? ==> r.request.value == JoinBody(Trim(username), Trim(pin))
    ensures r.request.None? ==> r.error == "Username and PIN are required"
    ensures r.navigated <==> r.stored.Some?
    ensures r.stored.Some? <==> r.request.Some? && response.Joined? && response.participant.Some?
    ensures r.stored.Some? ==>
      r.stored.value == Stored(IntToString(response.participant.value), Trim(pin), Trim(username)) && r.error == ""
    ensures r.error == "" <==> r.navigated
    ensures r.request.Some? && response.Refused? ==>
      r.error == ErrorMessage(response.errorPin, response.errorName, response.detail)
    ensures r.request.Some? && !response.Refused? && r.stored.None? ==> r.error == "Network error, please try again"
  {
    var name, p := Trim(username), Trim(pin);
    if name == [] || p == [] then JoinResult("Username and PIN are required", None, None, false)
    else
      var body := Some(JoinBody(name, p));
      match response
      case Refused(ep, en, d) => JoinResult(ErrorMessage(ep, en, d), body, None, false)
      case Joined(Some(id)) => JoinResult("", body, Some(Stored(IntToString(id), p, name)), true)
      // reading `data.participant.id` of a missing participant throws, as do the two below
      case Joined(None) => JoinResult("Network error, please try again", body, None, false)
      case NotJson => JoinResult("Network error, please try again", body, None, false)
      case NetworkError => JoinResult("Network error, please try again", body, None, false)
  }

  /** Only whitespace in either field: nothing is sent, whatever the server would have said. */
  lemma BlankSendsNothing(username: string, pin: string, r1: JoinResponse, r2: JoinResponse)
    requires Trim(username) == [] || Trim(pin) == []
    ensures HandleJoin(username, pin, r1) == HandleJoin(username, pin, r2)
    ensures HandleJoin(username, pin, r1).request.None?
  {
  }

  /** Padding around the typed values changes neither the request nor what is stored. */
  lemma PaddingIsIgnored(username: string, pin: string, response: JoinResponse)
    ensures HandleJoin(Trim(username), Trim(pin), response) == HandleJoin(username, pin, response)
  {
    TrimIdempotent(username);
    TrimIdempotent(pin);
  }

  /**
   * After a successful join the quiz page finds what it needs: mounting it on
   * the stored values opens the socket, the join message carries the stored
   * id, and the page recognises its own row of a scoreboard by loose equality.
   */
  lemma JoinedThenQuizPageJoins(username: string, pin: string, id: nat)
    requires Trim(username) != [] && Trim(pin) != []
    ensures var r := HandleJoin(username, pin, Joined(Some(id)));
      && r.stored.Some?
      && var p := QuizPage.Mounted(QuizPage.Initial(Some(r.stored.value.participantId), Some(r.stored.value.pin)), false);
      && p.socketCreated
      && QuizPage.Opened(p).outbox == [QuizPage.Join(NatToString(id))]
      && JsLooseEquals(id, r.stored.value.participantId)
  {
    var s := NatToString(id);
    assert IntToString(id) == s;
    assert HandleJoin(username, pin, Joined(Some(id))).stored == Some(Stored(s, Trim(pin), Trim(username)));
    var p := QuizPage.Mounted(QuizPage.Initial(Some(s), Some(Trim(pin))), false);
    assert p.socketCreated && p.joinId == s && p.outbox == [];
    ParsersReadDecimal(id);
  }

  /** The page as a component: the two inputs, the error line, local storage and the location. */
  class JoinPageComponent {
    var username: string
    var pin: string
    var error: string
    var storage: map<string, string>
    var requests: seq<JoinBody>
    var location: string

    constructor (storage: map<string, string>)
      ensures username == "" && pin == "" && error == ""
      ensures this.storage == storage && requests == [] && location == "/"
    {
      username, pin, error := "", "", "";
      this.storage, requests, location := storage, [], "/";
    }

    method Type(name: string, typedPin: string)
      modifies this
      ensures username == name && pin == typedPin
      ensures error == old(error) && storage == old(storage) && requests == old(requests) && location == old(location)
    {
      username, pin := name, typedPin;
    }

    /**
     * `handleJoin`, with the request's outcome given: the pure validation and
     * error choice of `HandleJoin`, then the writes it calls for.
     */
    method Join(response: JoinResponse)
      modifies this
      ensures error == HandleJoin(old(username), old(pin), response).error
      ensures requests == old(requests) + Sent(HandleJoin(old(username), old(pin), response))
      ensures storage == StorageAfter(old(storage), HandleJoin(old(username), old(pin), response))
      ensures location == (if HandleJoin(old(username), old(pin), response).navigated then "/quiz" else old(location))
      ensures username == old(username) && pin == old(pin)
    {
      var r := HandleJoin(username, pin, response);
      error := r.error;
      requests := requests + Sent(r);
      storage := StorageAfter(storage, r);
      if r.navigated {
        location := "/quiz";
      }
    }
  }

  function Sent(r: JoinResult): seq<JoinBody> {
    if r.request.Some? then [r.request.value] else []
  }

  /** `localStorage` after the handler: the three keys written in order on success. */
  function StorageAfter(storage: map<string, string>, r: JoinResult): map<string, string> {
    if r.stored.Some? then
      storage["participant_id" := r.stored.value.participantId]
             ["session_pin" := r.stored.value.pin]
             ["participant_name" := r.stored.value.name]
    else storage
  }
}
