/**
 * The request runner of `useMatildaRequest`: route resolution, the
 * single-flight `running` flag, the URL and body of the exchange, and the
 * normalisation of every outcome into one `{result, errors}` envelope.
 *
 * The transport (`fetch` and `response.json()`) is not modelled: an exchange
 * the runner issues is recorded, and its outcome (a parsed envelope or a
 * failure) is handed to `Resolve`. The notification sink is a recorded list
 * of messages.
 */
module MatildaRequest {
  import opened Wrappers
  import opened Text
  import opened Records
  import Json

  // ---------------------------------------------------------------- routes

  /** A concrete endpoint: `{path, method}`; `verb` is the HTTP method. */
  datatype Route = Route(path: string, verb: string)

  /** A route key as the caller passes it, by JavaScript `typeof`. */
  datatype RouteKey =
    | StringKey(s: string)                 // typeof 'string'
    | ObjectKey(route: Route)              // typeof 'object', a descriptor
    | NullKey                              // null, whose typeof is 'object' too
    | OtherKey(repr: string, truthy: bool) // number, boolean, undefined, function, symbol

  /** What `getRouteObject` hands back, or the error it throws. */
  datatype Resolution = Resolved(route: Route) | ResolvedNull | InvalidRouteKey

  /**
   * `getRouteObject`: a registry hit wins whatever the key's type; otherwise
   * an object passes through unchanged, a string becomes a GET to that path,
   * and every other key is refused.
   */
  function GetRouteObject(registry: RouteKey -> Option<Route>, key: RouteKey): (r: Resolution)
    ensures registry(key).Some? ==> r == Resolved(registry(key).value)
    ensures registry(key).None? && key.ObjectKey? ==> r == Resolved(key.route)
    ensures registry(key).None? && key.StringKey? ==> r == Resolved(Route(key.s, "GET"))
    ensures r == InvalidRouteKey <==> registry(key).None? && key.OtherKey?
    ensures r == ResolvedNull <==> registry(key).None? && key == NullKey
  {
    match registry(key)
    case Some(route) => Resolved(route)
    case None =>
      match key
      case ObjectKey(route) => Resolved(route)
      case NullKey => ResolvedNull
      case StringKey(s) => Resolved(Route(s, "GET"))
      case OtherKey(_, _) => InvalidRouteKey
  }

  // ------------------------------------------------------------ parameters

  datatype ParamValue = Str(s: string) | Num(n: int) | Bool(b: bool)

  /** One own property of a parameter object, listed in `Object.entries` order. */
  datatype Param = Param(key: string, value: ParamValue)

  /** The text a template literal `${value}` produces. */
  function Render(v: ParamValue): (text: string)
  {
    match v
    case Str(s) => s
    case Num(n) => IntToString(n)
    case Bool(b) => if b then "true" else "false"
  }

  /** The text one parameter contributes to a GET URL: `key=value&`, nothing encoded. */
  function Pair(p: Param): (text: string)
  {
    p.key + "=" + Render(p.value) + "&"
  }

  /** The query of a GET: one `key=value&` per parameter, in entry order. */
  function Query(params: seq<Param>): (q: string)
  {
    if params == [] then "" else Pair(params[0]) + Query(params[1..])
  }

  /** The query is empty exactly when there are no parameters, and otherwise ends with `&`. */
  lemma {:induction false} QueryShape(params: seq<Param>)
    ensures params == [] <==> Query(params) == ""
    ensures Query(params) != "" ==> Query(params)[|Query(params)| - 1] == '&'
  {
    if params != [] {
      var head := Pair(params[0]);
      assert head[|head| - 1] == '&';
      QueryShape(params[1..]);
    }
  }

  lemma {:induction false} QuerySnoc(params: seq<Param>, p: Param)
    ensures Query(params + [p]) == Query(params) + Pair(p)
  {
    if params != [] {
      assert (params + [p])[1..] == params[1..] + [p];
      QuerySnoc(params[1..], p);
    }
  }

  /**
   * The URL `send` requests: for a GET the path, a `?`, and `key=value&` for
   * each parameter in entry order; for any other method the bare path.
   */
  method BuildUrl(route: Route, params: seq<Param>) returns (url: string)
    ensures route.verb == "GET" ==> url == route.path + "?" + Query(params)
    ensures route.verb != "GET" ==> url == route.path
  {
    url := route.path;
    if route.verb == "GET" {
      var prefix := route.path + "?";
      url := prefix;
      var i := 0;
      while i < |params|
        invariant 0 <= i <= |params|
        invariant url == prefix + Query(params[..i])
      {
        var p := params[i];
        url := url + Pair(p);
        QuerySnoc(params[..i], p);
        AppendAssoc(prefix, Query(params[..i]), Pair(p));
        assert params[..i + 1] == params[..i] + [p];
        i := i + 1;
      }
      assert params[..i] == params;
    }
  }

  lemma AppendAssoc(a: string, b: string, c: string)
    ensures (a + b) + c == a + (b + c)
  {
  }

  /**
   * A literal reader of `key=value&` pairs: split on `&`, then on the first
   * `=`. It decodes nothing: no percent escapes, no `+` for a space, and no
   * `#` fragment is cut off, so it says what the query text holds, not what
   * every server-side form reader makes of it.
   */
  function ParseQuery(q: string): (pairs: seq<(string, string)>)
    decreases |q|
  {
    if q == [] then []
    else
      var i := IndexOf(q, '&');
      var segment := q[..i];
      var j := IndexOf(segment, '=');
      var entry := (segment[..j], if j < |segment| then segment[j + 1..] else "");
      [entry] + (if i < |q| then ParseQuery(q[i + 1..]) else [])
  }

  function RenderedPairs(params: seq<Param>): (pairs: seq<(string, string)>)
    ensures |pairs| == |params|
    ensures forall k :: 0 <= k < |params| ==> pairs[k] == (params[k].key, Render(params[k].value))
  {
    if params == [] then [] else [(params[0].key, Render(params[0].value))] + RenderedPairs(params[1..])
  }

  /** No key holds `&` or `=`, no rendered value holds `&`: the query reads back. */
  ghost predicate QuerySafe(params: seq<Param>)
  {
    forall k :: 0 <= k < |params| ==>
      '&' !in params[k].key && '=' !in params[k].key && '&' !in Render(params[k].value)
  }

  /**
   * Since nothing is percent-encoded, the query reads back under the literal
   * reader when no key holds `&` or `=` and no value holds `&`.
   */
  lemma {:induction false} QueryRoundTrip(params: seq<Param>)
    requires QuerySafe(params)
    ensures ParseQuery(Query(params)) == RenderedPairs(params)
  {
    if params != [] {
      var p := params[0];
      var rest := Query(params[1..]);
      assert Query(params) == p.key + "=" + Render(p.value) + "&" + rest;
      ParseStep(p.key, Render(p.value), rest);
      assert QuerySafe(params[1..]) by {
        forall k | 0 <= k < |params[1..]|
          ensures '&' !in params[1..][k].key && '=' !in params[1..][k].key && '&' !in Render(params[1..][k].value)
        {
          assert params[1..][k] == params[k + 1];
        }
      }
      QueryRoundTrip(params[1..]);
    }
  }

  /** The reader takes one safe `key=value&` pair off the front of a query. */
  lemma ParseStep(key: string, v: string, rest: string)
    requires '&' !in key && '=' !in key && '&' !in v
    ensures ParseQuery(key + "=" + v + "&" + rest) == [(key, v)] + ParseQuery(rest)
  {
    var q := key + "=" + v + "&" + rest;
    var i := |key| + 1 + |v|;
    assert q[i] == '&';
    assert forall k :: 0 <= k < i ==> q[k] != '&' by {
      forall k | 0 <= k < i ensures q[k] != '&' {
        if k < |key| { assert q[k] == key[k]; }
        else if k > |key| { assert q[k] == v[k - |key| - 1]; }
      }
    }
    assert IndexOf(q, '&') == i;
    var segment := q[..i];
    assert segment == key + "=" + v;
    assert segment[|key|] == '=';
    assert forall k :: 0 <= k < |key| ==> segment[k] != '=' by {
      forall k | 0 <= k < |key| ensures segment[k] != '=' {
        assert segment[k] == key[k];
      }
    }
    assert IndexOf(segment, '=') == |key|;
    assert segment[..|key|] == key;
    assert segment[|key| + 1..] == v;
    assert q[i + 1..] == rest;
  }

  /** A value holding `&` is split in two by the reader: the query is not encoded. */
  lemma AmpersandValueSplits()
    ensures ParseQuery(Query([Param("q", Str("a&b"))])) == [("q", "a"), ("b", "")]
  {
    AmpersandQuery();
    AmpersandParse();
  }

  lemma AmpersandQuery()
    ensures Query([Param("q", Str("a&b"))]) == "q=a&b&"
  {
    assert [Param("q", Str("a&b"))][1..] == [];
  }

  lemma AmpersandParse()
    ensures ParseQuery("q=a&b&") == [("q", "a"), ("b", "")]
  {
    var q := "q=a&b&";
    assert IndexOf(q, '&') == 3;
    assert q[..3] == "q=a" && q[4..] == "b&";
    assert IndexOf("q=a", '=') == 1;
    assert "q=a"[..1] == "q" && "q=a"[2..] == "a";
    LoneKeySegment();
  }

  /** The trailing `b&` reads as a key without a value. */
  lemma LoneKeySegment()
    ensures ParseQuery("b&") == [("b", "")]
  {
    assert IndexOf("b&", '&') == 1;
    assert "b&"[..1] == "b";
    assert IndexOf("b", '=') == 1;
    assert "b"[..1] == "b";
    assert "b&"[2..] == [];
    assert ParseQuery("b&"[2..]) == [];
  }

  function JsonScalar(v: ParamValue): (scalar: Json.Scalar)
  {
    match v
    case Str(s) => Json.JStr(s)
    case Num(n) => Json.JInt(n)
    case Bool(b) => Json.JBool(b)
  }

  function JsonMembers(params: seq<Param>): (members: seq<(string, Json.Scalar)>)
    ensures |members| == |params|
    ensures forall k :: 0 <= k < |params| ==> members[k] == (params[k].key, JsonScalar(params[k].value))
  {
    if params == [] then [] else [(params[0].key, JsonScalar(params[0].value))] + JsonMembers(params[1..])
  }

  // ------------------------------------------------------------- exchange

  /** What `send` hands to `fetch`: the URL and the options object. */
  datatype Exchange = Exchange(url: string, verb: string, body: Option<string>, headers: seq<(string, string)>)

  const JsonHeaders: seq<(string, string)> := [("Accept", "application/json"), ("Content-Type", "application/json")]

  /** The exchange `send` issues for a resolved route and its parameters. */
  function ExchangeFor(route: Route, params: seq<Param>): (e: Exchange)
    ensures route.verb == "GET" ==> e.url == route.path + "?" + Query(params) && e.body == None
    ensures route.verb != "GET" ==> e.url == route.path && e.body == Some(Json.Stringify(JsonMembers(params)))
    ensures e.verb == route.verb && e.headers == JsonHeaders
  {
    Exchange(
      if route.verb == "GET" then route.path + "?" + Query(params) else route.path,
      route.verb,
      if route.verb == "GET" then None else Some(Json.Stringify(JsonMembers(params))),
      JsonHeaders)
  }

  // ------------------------------------------------------------- envelope

  datatype ErrorItem = ErrorItem(message: string)

  /** The standard pagination block `payload.params.pagination`. */
  datatype WirePagination = WirePagination(totalItems: int, page: int, perPage: int)

  datatype PayloadParams = PayloadParams(pagination: Option<WirePagination>)

  datatype Payload = Payload(params: Option<PayloadParams>, records: seq<Row>)

  /** The `{result, payload, errors}` envelope; `result` is its truthiness. */
  datatype Envelope = Envelope(result: bool, payload: Option<Payload>, errors: Option<seq<ErrorItem>>)

  /** How the exchange ended: a body that parsed as JSON, or a transport or parse failure. */
  datatype FetchOutcome = Parsed(envelope: Envelope) | TransportFailure

  /** The envelope every outcome becomes; a failure is never rejected. */
  function Normalize(outcome: FetchOutcome, defaultErrorMessage: string): (env: Envelope)
    ensures outcome.Parsed? ==> env == outcome.envelope
    ensures outcome.TransportFailure? ==>
      !env.result && env.payload.None? && env.errors == Some([ErrorItem(defaultErrorMessage)])
  {
    match outcome
    case Parsed(e) => e
    case TransportFailure => Envelope(false, None, Some([ErrorItem(defaultErrorMessage)]))
  }

  /** The message of a failed envelope: its first error's, else the default. */
  function ErrorMessage(env: Envelope, defaultErrorMessage: string): (m: string)
    ensures env.errors.Some? && |env.errors.value| > 0 ==> m == env.errors.value[0].message
    ensures env.errors.None? || env.errors.value == [] ==> m == defaultErrorMessage
  {
    if env.errors.Some? && |env.errors.value| > 0 then env.errors.value[0].message else defaultErrorMessage
  }

  /** `config` of `useMatildaRequest`. */
  datatype RequestConfig = RequestConfig(manageError: bool, defaultErrorMessage: string)

  /** The caller's `configProps`; an absent entry keeps its default. */
  datatype RequestConfigProps = RequestConfigProps(manageError: Option<bool>, defaultErrorMessage: Option<string>)

  /** Defaults (`manageError` on, the translated general error) overridden by the caller's props. */
  function MakeRequestConfig(props: RequestConfigProps, translate: string -> string): (c: RequestConfig)
    ensures props.manageError.None? ==> c.manageError
    ensures props.manageError.Some? ==> c.manageError == props.manageError.value
    ensures props.defaultErrorMessage.None? ==> c.defaultErrorMessage == translate("messages.general_error")
    ensures props.defaultErrorMessage.Some? ==> c.defaultErrorMessage == props.defaultErrorMessage.value
  {
    RequestConfig(
      props.manageError.GetOr(true),
      props.defaultErrorMessage.GetOr(translate("messages.general_error")))
  }

  /** The notification `manageResponse` shows, if any. */
  function Notification(config: RequestConfig, env: Envelope): (n: Option<string>)
    ensures n.Some? <==> config.manageError && !env.result
    ensures n.Some? ==> n.value == ErrorMessage(env, config.defaultErrorMessage)
  {
    if config.manageError && !env.result then Some(ErrorMessage(env, config.defaultErrorMessage)) else None
  }

  /** A transport failure, once normalised, is reported with the default message. */
  lemma {:induction false} FailureReportsDefault(config: RequestConfig)
    ensures var env := Normalize(TransportFailure, config.defaultErrorMessage);
      Notification(config, env) == (if config.manageError then Some(config.defaultErrorMessage) else None)
  {
    var env := Normalize(TransportFailure, config.defaultErrorMessage);
    assert env.errors.value[0].message == config.defaultErrorMessage;
  }

  // --------------------------------------------------------------- runner

  /** Why `send` threw instead of returning a promise. */
  datatype SendError =
    | InvalidRouteKeyError   // getRouteObject's `throw new Error(...)`
    | NullRouteTypeError     // `routeObject.path` read on null

  /** What a call to `send` did: ignored (resolved with null), issued an exchange, or threw. */
  datatype SendStart = Ignored | Issued(exchange: Exchange) | Threw(error: SendError)

  class RequestRunner {
    const config: RequestConfig
    const registry: RouteKey -> Option<Route>
    /** The `running` state. */
    var running: bool
    /** Every exchange handed to the transport, in order. */
    var issued: seq<Exchange>
    /** Every error notification shown, in order. */
    var notifications: seq<string>
    /** An issued exchange has not completed yet. */
    ghost var awaiting: bool

    ghost predicate Valid()
      reads this
    {
      awaiting ==> running
    }

    constructor (props: RequestConfigProps, registry: RouteKey -> Option<Route>, translate: string -> string)
      ensures Valid()
      ensures config == MakeRequestConfig(props, translate) && this.registry == registry
      ensures !running && !awaiting && issued == [] && notifications == []
    {
      config := MakeRequestConfig(props, translate);
      this.registry := registry;
      running := false;
      awaiting := false;
      issued := [];
      notifications := [];
    }

    /**
     * `send`: ignored while running; otherwise sets `running`, resolves the
     * route and issues one exchange. A key that does not resolve throws
     * after `running` was set, and nothing ever clears it again.
     */
    method Send(key: RouteKey, params: seq<Param>) returns (r: SendStart)
      requires Valid()
      modifies this
      ensures Valid() && notifications == old(notifications)
      ensures old(running) ==> r == Ignored && unchanged(this)
      ensures !old(running) ==> running && r != Ignored
      ensures !old(running) ==>
        match GetRouteObject(registry, key)
        case Resolved(route) =>
          r == Issued(ExchangeFor(route, params)) && issued == old(issued) + [r.exchange] && awaiting
        case ResolvedNull =>
          r == Threw(NullRouteTypeError) && issued == old(issued) && !awaiting
        case InvalidRouteKey =>
          r == Threw(InvalidRouteKeyError) && issued == old(issued) && !awaiting
    {
      if running {
        return Ignored;
      }
      running := true;
      var resolution := GetRouteObject(registry, key);
      match resolution {
        case InvalidRouteKey =>
          r := Threw(InvalidRouteKeyError);
        case ResolvedNull =>
          r := Threw(NullRouteTypeError);
        case Resolved(route) =>
          var url := BuildUrl(route, params);
          var body := if route.verb == "GET" then None else Some(Json.Stringify(JsonMembers(params)));
          var exchange := Exchange(url, route.verb, body, JsonHeaders);
          issued := issued + [exchange];
          awaiting := true;
          r := Issued(exchange);
      }
    }

    /**
     * The end of the exchange: `manageResponse` on the parsed envelope, or on
     * the synthesised failure envelope; `running` is cleared before the
     * promise resolves with the envelope.
     */
    method Resolve(outcome: FetchOutcome) returns (env: Envelope)
      requires Valid() && awaiting
      modifies this
      ensures Valid() && !running && !awaiting && issued == old(issued)
      ensures env == Normalize(outcome, config.defaultErrorMessage)
      ensures notifications == old(notifications) +
        (match Notification(config, env) case Some(m) => [m] case None => [])
    {
      env := Normalize(outcome, config.defaultErrorMessage);
      if config.manageError && !env.result {
        var errorMessage := config.defaultErrorMessage;
        if env.errors.Some? && |env.errors.value| > 0 {
          errorMessage := env.errors.value[0].message;
        }
        notifications := notifications + [errorMessage];
      }
      running := false;
      awaiting := false;
    }
  }

  /**
   * One runner, two sends before the first completes, a third after it: the
   * second is ignored and issues nothing, the third goes out.
   */
  method SingleFlight(registry: RouteKey -> Option<Route>, translate: string -> string, outcome: FetchOutcome)
    returns (first: SendStart, second: SendStart, third: SendStart)
    ensures first.Issued? && second == Ignored && third.Issued?
  {
    var runner := new RequestRunner(RequestConfigProps(None, None), registry, translate);
    var key := StringKey("items");
    first := runner.Send(key, []);
    second := runner.Send(key, [Param("page", Num(2))]);
    assert runner.issued == [first.exchange];
    var env := runner.Resolve(outcome);
    third := runner.Send(key, []);
  }

  /** A key that throws leaves `running` set: every later send is ignored. */
  method StuckAfterThrow(registry: RouteKey -> Option<Route>, translate: string -> string, later: RouteKey)
    returns (first: SendStart, second: SendStart)
    requires registry(OtherKey("42", true)).None?
    ensures first == Threw(InvalidRouteKeyError) && second == Ignored
  {
    var runner := new RequestRunner(RequestConfigProps(None, None), registry, translate);
    first := runner.Send(OtherKey("42", true), []);
    second := runner.Send(later, []);
  }
}
