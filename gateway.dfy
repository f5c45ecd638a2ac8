/**
 * The server's proxy logic: resolving the panel credential, building the
 * form fields of an upstream call, and turning each route's upstream
 * outcome into an HTTP response. The HTTP call itself is a parameter
 * `upstream` that maps the fields sent to an outcome.
 */
module Gateway {
  import opened Wrappers
  import opened JsonValues

  /** The placeholder a deployer is meant to replace; a key equal to it counts as absent. */
  const Sentinel: string := "YOUR_API_KEY_HERE"

  /** The message of the failure raised before any request exists. */
  const KeyMissing: string := "API_KEY_MISSING"

  /** A credential the server will send: non-empty and not the placeholder. */
  predicate Usable(key: string) {
    key != "" && key != Sentinel
  }

  type UsableKey = k: string | Usable(k) witness "k"

  /**
   * The credential built into the server for when the environment gives
   * none. Its literal is not reproduced; all the model keeps of it is that
   * it is usable.
   */
  const FallbackKey: UsableKey := "built-in-key"

  /** `process.env.MOTHERPANEL_API_KEY || fallback`: an unset or empty variable falls back. */
  function ResolveKey(env: Option<string>): (key: string)
    ensures key != ""
    ensures Usable(key) <==> env != Some(Sentinel)
    ensures env.Some? && env.value != "" ==> key == env.value
    ensures env.None? || env == Some("") ==> key == FallbackKey
  {
    if env.Some? && env.value != "" then env.value else FallbackKey
  }

  /** One `name=value` pair of the form body sent upstream. */
  datatype Field = Field(name: string, value: string)

  /** One entry of the caller's data, in `Object.entries` order. */
  type Entry = (string, Json)

  /**
   * The fields of an upstream call: the credential, the action, then every
   * caller entry in order with its value passed through `String()`.
   */
  function FieldList(key: string, action: string, data: seq<Entry>): (fields: seq<Field>)
    ensures |fields| == 2 + |data|
    ensures fields[0] == Field("key", key) && fields[1] == Field("action", action)
    ensures forall i :: 0 <= i < |data| ==> fields[2 + i] == Field(data[i].0, StringOf(data[i].1))
  {
    [Field("key", key), Field("action", action)]
      + seq(|data|, i requires 0 <= i < |data| => Field(data[i].0, StringOf(data[i].1)))
  }

  /** How many fields carry the name `name`. */
  function CountNamed(fields: seq<Field>, name: string): nat {
    if fields == [] then 0
    else (if fields[0].name == name then 1 else 0) + CountNamed(fields[1..], name)
  }

  /** How many caller entries carry the name `name`. */
  function CountEntries(data: seq<Entry>, name: string): nat {
    if data == [] then 0
    else (if data[0].0 == name then 1 else 0) + CountEntries(data[1..], name)
  }

  lemma {:induction false} CountNamedAppend(a: seq<Field>, b: seq<Field>, name: string)
    ensures CountNamed(a + b, name) == CountNamed(a, name) + CountNamed(b, name)
  {
    if a == [] {
      assert a + b == b;
    } else {
      assert (a + b)[1..] == a[1..] + b;
      CountNamedAppend(a[1..], b, name);
    }
  }

  lemma {:induction false} CountEntryFields(key: string, action: string, data: seq<Entry>, name: string)
    ensures CountNamed(FieldList(key, action, data)[2..], name) == CountEntries(data, name)
  {
    if data != [] {
      CountEntryFields(key, action, data[1..], name);
      assert FieldList(key, action, data)[2..][1..] == FieldList(key, action, data[1..])[2..];
    }
  }

  /**
   * Caller entries are appended, never merged: a caller entry named `key`
   * or `action` adds a second field of that name, and the first two fields
   * still hold the credential and the action.
   */
  lemma CallerFieldsAppended(key: string, action: string, data: seq<Entry>, name: string)
    ensures FieldList(key, action, data)[0] == Field("key", key)
    ensures FieldList(key, action, data)[1] == Field("action", action)
    ensures CountNamed(FieldList(key, action, data), name)
         == (if name == "key" then 1 else 0) + (if name == "action" then 1 else 0) + CountEntries(data, name)
  {
    var fields := FieldList(key, action, data);
    assert fields == fields[..2] + fields[2..];
    CountNamedAppend(fields[..2], fields[2..], name);
    CountEntryFields(key, action, data, name);
    assert fields[..2][1..] == [fields[1]];
  }

  /** The `URLSearchParams` object the body is built in: an ordered list of fields. */
  class SearchParams {
    var fields: seq<Field>

    constructor ()
      ensures fields == []
    {
      fields := [];
    }

    /** `params.append(name, value)`. */
    method Append(name: string, value: string)
      modifies this
      ensures fields == old(fields) + [Field(name, value)]
    {
      fields := fields + [Field(name, value)];
    }
  }

  /** What the upstream call gives back: the decoded body, or a failure with its message. */
  datatype Outcome = Delivered(body: Json) | Failed(message: string)

  /**
   * `callSmmApi(action, data)`. The list `sent` records the requests
   * handed to `upstream`: none when the credential is the placeholder,
   * otherwise exactly one, whose outcome is returned unchanged.
   */
  method CallSmmApi(env: Option<string>, action: string, data: seq<Entry>, upstream: seq<Field> -> Outcome)
    returns (sent: seq<seq<Field>>, outcome: Outcome)
    ensures env == Some(Sentinel) ==> sent == [] && outcome == Failed(KeyMissing)
    ensures env != Some(Sentinel) ==> sent == [FieldList(ResolveKey(env), action, data)]
    ensures env != Some(Sentinel) ==> outcome == upstream(FieldList(ResolveKey(env), action, data))
  {
    var key := ResolveKey(env);
    if !Usable(key) {
      return [], Failed(KeyMissing);
    }
    var params := new SearchParams();
    params.Append("key", key);
    params.Append("action", action);
    var i := 0;
    while i < |data|
      invariant 0 <= i <= |data|
      invariant params.fields == FieldList(key, action, data[..i])
    {
      params.Append(data[i].0, StringOf(data[i].1));
      i := i + 1;
    }
    assert data[..i] == data;
    sent := [params.fields];
    outcome := upstream(params.fields);
  }

  /** The four API routes. */
  datatype Route = Health | BalanceRoute | ServicesRoute | Smm(action: string)

  datatype Response = Response(status: nat, body: Json)

  /** The upstream action a proxy route performs. */
  function ActionOf(route: Route): (action: string)
    requires !route.Health?
    ensures route == BalanceRoute ==> action == "balance"
    ensures route == ServicesRoute ==> action == "services"
    ensures route.Smm? ==> action == route.action
  {
    match route
    case BalanceRoute => "balance"
    case ServicesRoute => "services"
    case Smm(action) => action
  }

  /** The caller data a proxy route forwards: the request body on the open route, nothing otherwise. */
  function RouteData(route: Route, body: seq<Entry>): (data: seq<Entry>)
    requires !route.Health?
    ensures route.Smm? ==> data == body
    ensures !route.Smm? ==> data == []
  {
    if route.Smm? then body else []
  }

  /** The text a route reports when the failure carries no message. */
  function RouteFailureText(route: Route): (text: string)
    requires !route.Health?
    ensures text != ""
  {
    match route
    case BalanceRoute => "Failed to fetch balance"
    case ServicesRoute => "Failed to fetch services"
    case Smm(action) => "Failed to perform " + action
  }

  /** `error.message || <route text>`: the failure's own message when it has one. */
  function FailureMessage(route: Route, message: string): (text: string)
    requires !route.Health?
    ensures text != ""
    ensures message != "" ==> text == message
    ensures message == "" ==> text == RouteFailureText(route)
  {
    if message != "" then message else RouteFailureText(route)
  }

  /** `{error: message}`, the body of every failure response. */
  function ErrorBody(message: string): Json {
    JObj([("error", JStr(message))])
  }

  function HealthBody(now: string): Json {
    JObj([("status", JStr("ok")), ("time", JStr(now))])
  }

  /**
   * A proxy route's response to an upstream outcome: a delivered body is
   * sent as it is with status 200; every failure becomes status 500 with
   * a body whose only member is `error`.
   */
  function Reply(route: Route, outcome: Outcome): (r: Response)
    requires !route.Health?
    ensures r.status == 200 <==> outcome.Delivered?
    ensures outcome.Delivered? ==> r.body == outcome.body
    ensures outcome.Failed? ==> r.status == 500
    ensures outcome.Failed? ==> r.body == JObj([("error", JStr(FailureMessage(route, outcome.message)))])
  {
    match outcome
    case Delivered(body) => Response(200, body)
    case Failed(message) => Response(500, ErrorBody(FailureMessage(route, message)))
  }

  /**
   * Serving one API request. `now` is the clock reading for the health
   * route; `sent` records the upstream requests made.
   */
  method Handle(route: Route, env: Option<string>, body: seq<Entry>, now: string, upstream: seq<Field> -> Outcome)
    returns (sent: seq<seq<Field>>, response: Response)
    ensures route.Health? ==> sent == [] && response == Response(200, HealthBody(now))
    ensures !route.Health? && env == Some(Sentinel) ==>
              sent == [] && response == Response(500, ErrorBody(KeyMissing))
    ensures !route.Health? && env != Some(Sentinel) ==>
              sent == [FieldList(ResolveKey(env), ActionOf(route), RouteData(route, body))]
              && response == Reply(route, upstream(sent[0]))
  {
    if route.Health? {
      return [], Response(200, HealthBody(now));
    }
    var outcome;
    sent, outcome := CallSmmApi(env, ActionOf(route), RouteData(route, body), upstream);
    response := Reply(route, outcome);
  }

  /** The balance and services routes send exactly the credential and the action. */
  lemma FixedRoutesSendTwoFields(env: Option<string>, route: Route, body: seq<Entry>)
    requires route == BalanceRoute || route == ServicesRoute
    ensures FieldList(ResolveKey(env), ActionOf(route), RouteData(route, body))
         == [Field("key", ResolveKey(env)), Field("action", ActionOf(route))]
  {
  }
}
