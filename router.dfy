/**
 * The server's route table in production mode, in registration order, and
 * first-match dispatch over it. A request path is given as its segments:
 * "/api/smm/add" is ["api", "smm", "add"].
 */
module Router {
  import opened Wrappers
  import Gateway

  datatype Verb = Get | Post

  /** One pattern segment: a literal, or a named parameter such as `:action`. */
  datatype Segment = Lit(text: string) | Param

  /** A path pattern, or `*`, which matches every path. */
  datatype Pattern = Path(segments: seq<Segment>) | Wildcard

  /** What a registration serves: one of the API routes, or the client's entry document. */
  datatype Handler = HealthHandler | BalanceHandler | ServicesHandler | SmmHandler | IndexHandler

  datatype Registration = Registration(verb: Verb, pattern: Pattern, handler: Handler)

  /** The registrations in the order the server makes them: the API routes, then `*`. */
  const Registrations: seq<Registration> := [
    Registration(Get, Path([Lit("api"), Lit("health")]), HealthHandler),
    Registration(Get, Path([Lit("api"), Lit("balance")]), BalanceHandler),
    Registration(Get, Path([Lit("api"), Lit("services")]), ServicesHandler),
    Registration(Post, Path([Lit("api"), Lit("smm"), Param]), SmmHandler),
    Registration(Get, Wildcard, IndexHandler)
  ]

  /** A parameter matches one non-empty segment; a literal matches itself. */
  predicate SegmentMatches(s: Segment, part: string) {
    match s
    case Lit(text) => part == text
    case Param => part != ""
  }

  predicate PatternMatches(p: Pattern, path: seq<string>) {
    match p
    case Wildcard => true
    case Path(segments) =>
      |segments| == |path| && forall i :: 0 <= i < |path| ==> SegmentMatches(segments[i], path[i])
  }

  predicate RegistrationMatches(r: Registration, verb: Verb, path: seq<string>) {
    r.verb == verb && PatternMatches(r.pattern, path)
  }

  /** The position of the first registration that matches, counting from `from`. */
  function FirstMatch(regs: seq<Registration>, verb: Verb, path: seq<string>, from: nat): (r: Option<nat>)
    requires from <= |regs|
    ensures r.Some? ==> from <= r.value < |regs| && RegistrationMatches(regs[r.value], verb, path)
    ensures r.Some? ==> forall j :: from <= j < r.value ==> !RegistrationMatches(regs[j], verb, path)
    ensures r.None? <==> forall j :: from <= j < |regs| ==> !RegistrationMatches(regs[j], verb, path)
    decreases |regs| - from
  {
    if from == |regs| then None
    else if RegistrationMatches(regs[from], verb, path) then Some(from)
    else FirstMatch(regs, verb, path, from + 1)
  }

  /** What a request reaches: an API route, or the entry document. */
  datatype Target = Api(route: Gateway.Route) | IndexDocument

  /**
   * Express's dispatch: the first matching registration serves the request;
   * `None` is the framework's own "not found".
   */
  function Dispatch(verb: Verb, path: seq<string>): (t: Option<Target>)
    ensures t.Some? && t.value.Api? && t.value.route.Smm? ==> |path| == 3 && t.value.route.action == path[2]
  {
    match FirstMatch(Registrations, verb, path, 0)
    case None => None
    case Some(i) =>
      match Registrations[i].handler
      case HealthHandler => Some(Api(Gateway.Health))
      case BalanceHandler => Some(Api(Gateway.BalanceRoute))
      case ServicesHandler => Some(Api(Gateway.ServicesRoute))
      case SmmHandler => Some(Api(Gateway.Smm(path[2])))
      case IndexHandler => Some(IndexDocument)
  }

  /** Every API registration precedes the `*` fallback, which is the last registration. */
  lemma ApiRegisteredBeforeFallback()
    ensures Registrations[|Registrations| - 1].handler == IndexHandler
    ensures forall i :: 0 <= i < |Registrations| - 1 ==> Registrations[i].handler != IndexHandler
  {
  }

  /** No request that an API route matches reaches the entry document. */
  lemma {:induction false} ApiRoutesNotShadowed(verb: Verb, path: seq<string>, i: nat)
    requires i < |Registrations| && Registrations[i].handler != IndexHandler
    requires RegistrationMatches(Registrations[i], verb, path)
    ensures Dispatch(verb, path).Some? && Dispatch(verb, path).value.Api?
  {
    var m := FirstMatch(Registrations, verb, path, 0);
    assert m.Some? && m.value <= i;
    ApiRegisteredBeforeFallback();
  }

  lemma HealthPathReachesHealth()
    ensures Dispatch(Get, ["api", "health"]) == Some(Api(Gateway.Health))
  {
    ApiRoutesNotShadowed(Get, ["api", "health"], 0);
  }

  lemma BalancePathReachesBalance()
    ensures Dispatch(Get, ["api", "balance"]) == Some(Api(Gateway.BalanceRoute))
  {
    var path := ["api", "balance"];
    ApiRoutesNotShadowed(Get, path, 1);
    assert !SegmentMatches(Registrations[0].pattern.segments[1], path[1]);
  }

  lemma ServicesPathReachesServices()
    ensures Dispatch(Get, ["api", "services"]) == Some(Api(Gateway.ServicesRoute))
  {
    var path := ["api", "services"];
    ApiRoutesNotShadowed(Get, path, 2);
    assert !SegmentMatches(Registrations[0].pattern.segments[1], path[1]);
    assert !SegmentMatches(Registrations[1].pattern.segments[1], path[1]);
  }

  /** The open route passes its last segment on verbatim as the action. */
  lemma SmmPathReachesSmm(action: string)
    requires action != ""
    ensures Dispatch(Post, ["api", "smm", action]) == Some(Api(Gateway.Smm(action)))
  {
    ApiRoutesNotShadowed(Post, ["api", "smm", action], 3);
  }

  /**
   * Every other GET, including one under /api that no GET route names
   * (such as /api/smm/add), gets the entry document; every other POST,
   * including one to a GET-only API path, is not found.
   */
  lemma OtherRequests(verb: Verb, path: seq<string>)
    requires verb == Get ==> path != ["api", "health"] && path != ["api", "balance"] && path != ["api", "services"]
    requires verb == Post ==> !(|path| == 3 && path[0] == "api" && path[1] == "smm" && path[2] != "")
    ensures verb == Get ==> Dispatch(verb, path) == Some(IndexDocument)
    ensures verb == Post ==> Dispatch(verb, path) == None
  {
    forall k | 0 <= k < 4 ensures !RegistrationMatches(Registrations[k], verb, path) {
    }
  }
}
