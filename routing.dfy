/**
 * The WebSocket routes: `^wss/session/(?P<pin>\w+)/$` and
 * `^ws/session/(?P<pin>\w+)/$`, both to the session consumer. Django matches
 * an endpoint pattern that ends in `$` against the whole path, so the path
 * must be exactly the prefix, a non-empty run of word characters and `/`.
 */
module Routing {
  import opened Wrappers

  /** `\w`, on ASCII text. */
  predicate IsWordChar(c: char) {
    ('a' <= c <= 'z') || ('A' <= c <= 'Z') || ('0' <= c <= '9') || c == '_'
  }

  predicate AllWord(s: string) {
    forall i :: 0 <= i < |s| ==> IsWordChar(s[i])
  }

  datatype Scheme = Ws | Wss

  function Prefix(scheme: Scheme): string {
    match scheme
    case Ws => "ws/session/"
    case Wss => "wss/session/"
  }

  /** The path of a PIN's route. */
  function PathOf(scheme: Scheme, pin: string): string {
    Prefix(scheme) + pin + "/"
  }

  /** One pattern against the path: the captured `pin`, if it matches. */
  function MatchPattern(scheme: Scheme, path: string): (pin: Option<string>)
    ensures pin.Some? ==> pin.value != [] && AllWord(pin.value) && path == PathOf(scheme, pin.value)
  {
    var head := Prefix(scheme);
    if |path| >= |head| + 2 && path[..|head|] == head && path[|path| - 1] == '/' && AllWord(path[|head|..|path| - 1]) then
      assert path == head + path[|head|..|path| - 1] + "/";
      Some(path[|head|..|path| - 1])
    else None
  }

  datatype RouteMatch = RouteMatch(scheme: Scheme, pin: string)

  /** `websocket_urlpatterns`, tried in order. */
  function Route(path: string): (r: Option<RouteMatch>)
    ensures r.Some? ==> r.value.pin != [] && AllWord(r.value.pin) && path == PathOf(r.value.scheme, r.value.pin)
  {
    var secure := MatchPattern(Wss, path);
    if secure.Some? then Some(RouteMatch(Wss, secure.value))
    else
      var plain := MatchPattern(Ws, path);
      if plain.Some? then Some(RouteMatch(Ws, plain.value)) else None
  }

  /** A path that starts with one scheme's prefix does not match the other's pattern. */
  lemma OtherSchemeMisses(scheme: Scheme, path: string)
    requires |path| >= |Prefix(scheme)| && path[..|Prefix(scheme)|] == Prefix(scheme)
    ensures MatchPattern(if scheme == Ws then Wss else Ws, path).None?
  {
    var other := if scheme == Ws then Wss else Ws;
    // the prefixes differ at position 2: '/' against 's'
    assert path[2] == Prefix(scheme)[2] != Prefix(other)[2];
    if |path| >= |Prefix(other)| {
      assert path[..|Prefix(other)|][2] == path[2];
    }
  }

  /**
   * A PIN's path is routed exactly when the PIN is a non-empty run of word
   * characters, and then under its own scheme with the PIN extracted.
   */
  lemma RouteOfPath(scheme: Scheme, pin: string)
    ensures Route(PathOf(scheme, pin)) == if pin != [] && AllWord(pin) then Some(RouteMatch(scheme, pin)) else None
  {
    var path := PathOf(scheme, pin);
    var head := Prefix(scheme);
    assert path[..|head|] == head && path[|head|..|path| - 1] == pin && path[|path| - 1] == '/';
    OtherSchemeMisses(scheme, path);
  }

  /** Every non-empty word-character PIN is routed, under either scheme, with the PIN extracted. */
  lemma RouteAcceptsWordPins(scheme: Scheme, pin: string)
    requires pin != [] && AllWord(pin)
    ensures Route(PathOf(scheme, pin)) == Some(RouteMatch(scheme, pin))
  {
    RouteOfPath(scheme, pin);
  }

  /** A PIN holding a non-word character, such as '-' or '/', is not routed. */
  lemma RouteRejectsNonWordPins(scheme: Scheme, pin: string, i: nat)
    requires i < |pin| && !IsWordChar(pin[i])
    ensures Route(PathOf(scheme, pin)).None?
  {
    RouteOfPath(scheme, pin);
  }

  /** The empty PIN is not routed. */
  lemma RouteRejectsEmptyPin(scheme: Scheme)
    ensures Route(PathOf(scheme, "")).None?
  {
    RouteOfPath(scheme, "");
  }

  /** Anything after the PIN's slash, even another slash, stops the route from matching. */
  lemma RouteRejectsTrailingText(scheme: Scheme, pin: string, rest: string)
    requires rest != []
    ensures Route(PathOf(scheme, pin) + rest).None?
  {
    var path := PathOf(scheme, pin) + rest;
    var head := Prefix(scheme);
    assert path[..|head|] == head;
    OtherSchemeMisses(scheme, path);
    var mid := path[|head|..|path| - 1];
    assert mid[|pin|] == '/';
    assert !AllWord(mid);
  }

  /** Without the closing slash the route does not match. */
  lemma RouteRequiresSlash(scheme: Scheme, pin: string)
    requires pin == [] || pin[|pin| - 1] != '/'
    ensures Route(Prefix(scheme) + pin).None?
  {
    var path := Prefix(scheme) + pin;
    assert path[..|Prefix(scheme)|] == Prefix(scheme);
    OtherSchemeMisses(scheme, path);
    if pin != [] {
      assert path[|path| - 1] == pin[|pin| - 1];
    }
  }
}
