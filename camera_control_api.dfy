/**
 * The registry-driven HTTP client: a camera selection, a cached Nexus session
 * with a timeout, authentication by a WhoAmI request, and command execution
 * that validates parameters with the script's rules and sends one request.
 * The HTTP layer is an oracle object whose answers are fixed in advance and
 * which logs every request it is given.
 */
module CameraControlApi {
  import opened Wrappers
  import opened Text
  import opened Constants
  import opened CameraControlScript

  /** What the WhoAmI exchange yields once the response is decoded. */
  datatype WhoAmIReply =
    | Unreachable                  // HTTPError or URLError from the request
    | NotJson                      // the body is not JSON
    | NotAnObject                  // JSON whose lookups raise (a list, or a non-object under the key)
    | Document(id: Option<string>) // an object; `id` is the "Id" under "SERVERWhoAmI", if present

  /** What the command request yields: a raised RuntimeError, or the decoded payload. */
  datatype CommandReply = Failed | Answered(payload: string)

  /** The exceptions the client raises, each named after its cause. */
  datatype ApiError =
    | UnknownAlias(alias: string, known: seq<string>)
    | MalformedWhoAmI
    | NotAuthenticated
    | Invalid(error: Error)
    | UnexpectedParams(command: string, listed: seq<string>)
    | RequestFailed

  /** The session fields of the client. */
  datatype SessionState = SessionState(sessionId: Option<string>, lastAuth: int)

  const INVALIDATED := SessionState(None, 0)

  const WHO_AM_I_QUERY := "?action=SERVERWhoAmI"

  /** The property `host`: an override wins; otherwise the alias must be known. */
  function HostFor(cameraAlias: string, hostOverride: Option<string>): (r: Result<string, ApiError>)
    ensures Truthy(hostOverride) ==> r == Ok(hostOverride.value)
    ensures !Truthy(hostOverride) ==> (r.Ok? <==> cameraAlias in CAMERA_HOSTS)
    ensures !Truthy(hostOverride) && r.Ok? ==> r.value == CAMERA_HOSTS[cameraAlias]
    ensures r.Err? ==> r.error == UnknownAlias(cameraAlias, SORTED_ALIASES)
  {
    if Truthy(hostOverride) then Ok(hostOverride.value)
    else if cameraAlias !in CAMERA_HOSTS then Err(UnknownAlias(cameraAlias, SORTED_ALIASES))
    else Ok(CAMERA_HOSTS[cameraAlias])
  }

  /**
   * The client and the script pick the same host for every non-empty alias.
   * They differ on the empty alias only: the script falls back to the default
   * camera, the client rejects it.
   */
  lemma ClientHostMatchesScript(cameraAlias: string, hostOverride: Option<string>)
    ensures cameraAlias != "" ==>
      match HostFor(cameraAlias, hostOverride)
      case Ok(h) => ResolveHost(hostOverride, Some(cameraAlias)) == Ok(h)
      case Err(_) => ResolveHost(hostOverride, Some(cameraAlias)).Err?
    ensures cameraAlias == "" && !Truthy(hostOverride) ==>
      HostFor(cameraAlias, hostOverride).Err? && ResolveHost(hostOverride, Some(cameraAlias)) == Ok(FLIR2_IP)
  {
  }

  /** `_session_expired`: strictly older than the timeout. */
  predicate Expired(s: SessionState, timeout: int, now: int) {
    now - s.lastAuth > timeout
  }

  /** The condition under which `authenticate()` trusts the cached session. */
  predicate Fresh(s: SessionState, timeout: int, now: int) {
    Truthy(s.sessionId) && !Expired(s, timeout, now)
  }

  /** A session exactly `timeout` old is still fresh; one tick later it is not. */
  lemma {:induction false} ExpiryIsStrict(id: string, lastAuth: int, timeout: int)
    requires id != ""
    ensures Fresh(SessionState(Some(id), lastAuth), timeout, lastAuth + timeout)
    ensures !Fresh(SessionState(Some(id), lastAuth), timeout, lastAuth + timeout + 1)
  {
  }

  /** The outcome of one `authenticate` call: its result, the new session, and whether WhoAmI was sent. */
  datatype AuthStep = AuthStep(result: Result<bool, ApiError>, after: SessionState, exchanged: bool)

  /**
   * `authenticate(force)` on values. `baseUrl` is the outcome of `_base_url()`
   * (an unknown alias raises there, before any request), and `reply` is what
   * the WhoAmI request would yield.
   */
  function AuthenticateStep(s: SessionState, timeout: int, force: bool, now: int,
                            baseUrl: Result<string, ApiError>, reply: WhoAmIReply): (step: AuthStep)
    ensures !force && Fresh(s, timeout, now) ==> step == AuthStep(Ok(true), s, false)
    ensures step.exchanged <==> (force || !Fresh(s, timeout, now)) && baseUrl.Ok?
    ensures !step.exchanged ==> step.after == s
    ensures step.result.Err? ==> step.after == s
    ensures step.result.Err? <==> (force || !Fresh(s, timeout, now)) && (baseUrl.Err? || reply.NotAnObject?)
    ensures step.result == Ok(false) <==> step.exchanged && !reply.NotAnObject? && !(reply.Document? && Truthy(reply.id))
    ensures step.result == Ok(false) ==> step.after == INVALIDATED
    ensures step.exchanged && step.result == Ok(true) ==> step.after == SessionState(reply.id, now) && Truthy(reply.id)
    ensures step.result == Ok(true) ==> Truthy(step.after.sessionId)
    ensures timeout >= 0 && step.result == Ok(true) ==> Fresh(step.after, timeout, now)
  {
    if !force && Fresh(s, timeout, now) then AuthStep(Ok(true), s, false)
    else
      match baseUrl
      case Err(e) => AuthStep(Err(e), s, false)
      case Ok(_) =>
        match reply
        case Unreachable => AuthStep(Ok(false), INVALIDATED, true)
        case NotJson => AuthStep(Ok(false), INVALIDATED, true)
        case NotAnObject => AuthStep(Err(MalformedWhoAmI), s, true)
        case Document(id) =>
          if Truthy(id) then AuthStep(Ok(true), SessionState(id, now), true)
          else AuthStep(Ok(false), INVALIDATED, true)
  }

  /** After an invalidation the next authentication always asks the camera, forced or not. */
  lemma InvalidatedSessionAlwaysExchanges(timeout: int, force: bool, now: int, baseUrl: Result<string, ApiError>,
                                          reply: WhoAmIReply)
    requires baseUrl.Ok?
    ensures AuthenticateStep(INVALIDATED, timeout, force, now, baseUrl, reply).exchanged
  {
  }

  /** The parameters `execute` resolves for a command, or the error it raises first. */
  function CommandPlan(commandName: string, params: map<string, string>,
                       renderFloat: string -> Option<string>): Result<(ParsedCommand, map<string, string>), Error>
  {
    match LoadCommand(commandName)
    case Err(e) => Err(e)
    case Ok(c) =>
      match ResolveParams(c.name, c.paramSpecs, params, false, renderFloat)
      case Err(e) => Err(e)
      case Ok(m) => Ok((c, m))
  }

  /**
   * For every registry command the client resolves parameters exactly as the
   * script's popping loop does.
   */
  lemma ClientResolvesLikeScript(commandName: string, params: map<string, string>,
                                 renderFloat: string -> Option<string>)
    requires LoadCommand(commandName).Ok?
    ensures var c := LoadCommand(commandName).value;
      ResolveParams(c.name, c.paramSpecs, params, false, renderFloat) ==
      ResolveParams(c.name, c.paramSpecs, params, true, renderFloat)
  {
    var c := LoadCommand(commandName).value;
    ConsumingResolvesAlike(c.name, c.paramSpecs, params, renderFloat);
  }

  /** The HTTP layer: fixed answers indexed by call number, and a log of what was sent. */
  class HttpTransport {
    const whoAmI: nat -> WhoAmIReply
    const replies: nat -> CommandReply
    var authUrls: seq<string>
    var requests: seq<(string, map<string, string>)>

    constructor(whoAmI: nat -> WhoAmIReply, replies: nat -> CommandReply)
      ensures this.whoAmI == whoAmI && this.replies == replies
      ensures authUrls == [] && requests == []
    {
      this.whoAmI := whoAmI;
      this.replies := replies;
      authUrls := [];
      requests := [];
    }

    /** Sends the WhoAmI request. */
    method WhoAmI(url: string) returns (reply: WhoAmIReply)
      modifies this
      ensures reply == whoAmI(|old(authUrls)|)
      ensures authUrls == old(authUrls) + [url] && requests == old(requests)
    {
      reply := whoAmI(|authUrls|);
      authUrls := authUrls + [url];
    }

    /** `issue_request`: sends one command request. */
    method Send(url: string, query: map<string, string>) returns (reply: CommandReply)
      modifies this
      ensures reply == replies(|old(requests)|)
      ensures requests == old(requests) + [(url, query)] && authUrls == old(authUrls)
    {
      reply := replies(|requests|);
      requests := requests + [(url, query)];
    }
  }

  /** `CameraControlAPI`. Times are whole seconds on the caller's clock. */
  class CameraControlApi {
    var cameraAlias: string
    var hostOverride: Option<string>
    var port: int
    const sessionTimeout: int
    var sessionId: Option<string>
    var lastAuth: int

    /** The Python defaults are the default camera, no override, port 80 and a 120-second timeout. */
    constructor(cameraAlias: string, host: Option<string>, port: int, sessionTimeout: int)
      ensures this.cameraAlias == cameraAlias && hostOverride == host && this.port == port
      ensures this.sessionTimeout == sessionTimeout
      ensures State() == INVALIDATED
    {
      this.cameraAlias := cameraAlias;
      hostOverride := host;
      this.port := port;
      this.sessionTimeout := sessionTimeout;
      sessionId := None;
      lastAuth := 0;
    }

    function State(): SessionState
      reads this
    {
      SessionState(sessionId, lastAuth)
    }

    function Host(): Result<string, ApiError>
      reads this
    {
      HostFor(cameraAlias, hostOverride)
    }

    /** `_base_url()`. */
    function BaseUrlNow(): Result<string, ApiError>
      reads this
    {
      match Host()
      case Err(e) => Err(e)
      case Ok(h) => Ok(BaseUrl(h, port, NEXUS_CGI_PATH))
    }

    predicate SessionExpired(now: int)
      reads this
    {
      Expired(State(), sessionTimeout, now)
    }

    /** `invalidate_session`. */
    method InvalidateSession()
      modifies this
      ensures State() == INVALIDATED
      ensures cameraAlias == old(cameraAlias) && hostOverride == old(hostOverride) && port == old(port)
    {
      sessionId := None;
      lastAuth := 0;
    }

    /** `set_camera`: replaces what is given and always drops the session. */
    method SetCamera(cameraAlias: Option<string>, host: Option<string>)
      modifies this
      ensures this.cameraAlias == cameraAlias.GetOr(old(this.cameraAlias))
      ensures hostOverride == (if host.Some? then host else old(hostOverride))
      ensures port == old(port)
      ensures State() == INVALIDATED
    {
      if cameraAlias.Some? {
        this.cameraAlias := cameraAlias.value;
      }
      if host.Some? {
        hostOverride := host;
      }
      InvalidateSession();
    }

    /** `authenticate(force)`, reading the clock once as `now`. */
    method Authenticate(force: bool, now: int, t: HttpTransport) returns (r: Result<bool, ApiError>)
      modifies this, t
      ensures var step := AuthenticateStep(old(State()), sessionTimeout, force, now, old(BaseUrlNow()),
                                           t.whoAmI(|old(t.authUrls)|));
        && r == step.result
        && State() == step.after
        && t.authUrls == (if step.exchanged then old(t.authUrls) + [old(BaseUrlNow()).value + WHO_AM_I_QUERY]
                          else old(t.authUrls))
      ensures t.requests == old(t.requests)
      ensures cameraAlias == old(cameraAlias) && hostOverride == old(hostOverride) && port == old(port)
    {
      if !force && Truthy(sessionId) && !SessionExpired(now) {
        return Ok(true);
      }
      var base := BaseUrlNow();
      if base.Err? {
        return Err(base.error);
      }
      var reply := t.WhoAmI(base.value + WHO_AM_I_QUERY);
      match reply {
        case Unreachable =>
          InvalidateSession();
          return Ok(false);
        case NotJson =>
          InvalidateSession();
          return Ok(false);
        case NotAnObject =>
          return Err(MalformedWhoAmI);
        case Document(id) =>
          if !Truthy(id) {
            InvalidateSession();
            return Ok(false);
          }
          sessionId := id;
          lastAuth := now;
          return Ok(true);
      }
    }

    /**
     * `execute` after a successful authentication: resolve the command and its
     * parameters, then send the one request with the override pair included.
     */
    method RunCommand(commandName: string, params: map<string, string>, t: HttpTransport,
                      renderFloat: string -> Option<string>) returns (r: Result<string, ApiError>)
      requires Truthy(sessionId)
      modifies t
      ensures t.authUrls == old(t.authUrls)
      ensures var plan := CommandPlan(commandName, params, renderFloat);
        && (plan.Err? ==> t.requests == old(t.requests))
        && (plan.Err? && !plan.error.UnexpectedParameters? ==> r == Err(Invalid(plan.error)))
        && (plan.Err? && plan.error.UnexpectedParameters? ==>
              && r.Err? && r.error.UnexpectedParams? && r.error.command == commandName
              && StrictlySorted(r.error.listed)
              && (forall x :: x in r.error.listed <==> x in plan.error.names))
        && (plan.Ok? && BaseUrlNow().Err? ==> r == Err(BaseUrlNow().error) && t.requests == old(t.requests))
        && (plan.Ok? && BaseUrlNow().Ok? ==>
              var n := |old(t.requests)|;
              && |t.requests| == n + 1
              && t.requests[..n] == old(t.requests)
              && t.requests[n].0 == BaseUrlNow().value
              && MergedQuery(t.requests[n].1, plan.value.0.action, plan.value.0.staticParams,
                             sessionId.value, plan.value.1, true)
              && r == (match t.replies(n) case Failed => Err(RequestFailed) case Answered(p) => Ok(p)))
    {
      var plan := ValidateCommand(commandName, params, renderFloat);
      if plan.Err? {
        return Err(plan.error);
      }
      var command := plan.value.0;
      var query := BuildQuery(command, sessionId.value, plan.value.1, true);
      var base := BaseUrlNow();
      if base.Err? {
        return Err(base.error);
      }
      var reply := t.Send(base.value, query);
      if reply.Failed? {
        return Err(RequestFailed);
      }
      return Ok(reply.payload);
    }

    /**
     * `execute`: authenticate (a failure raises before the command is looked
     * up), then resolve, validate and send. There is no retry.
     */
    method Execute(commandName: string, params: map<string, string>, now: int, t: HttpTransport,
                   renderFloat: string -> Option<string>) returns (r: Result<string, ApiError>)
      modifies this, t
      ensures cameraAlias == old(cameraAlias) && hostOverride == old(hostOverride) && port == old(port)
      ensures var step := AuthenticateStep(old(State()), sessionTimeout, false, now, old(BaseUrlNow()),
                                           t.whoAmI(|old(t.authUrls)|));
        && State() == step.after
        && t.authUrls == (if step.exchanged then old(t.authUrls) + [old(BaseUrlNow()).value + WHO_AM_I_QUERY]
                          else old(t.authUrls))
        && (step.result.Err? ==> r == Err(step.result.error))
        && (step.result == Ok(false) ==> r == Err(NotAuthenticated))
        && (step.result != Ok(true) ==> t.requests == old(t.requests))
      ensures var step := AuthenticateStep(old(State()), sessionTimeout, false, now, old(BaseUrlNow()),
                                           t.whoAmI(|old(t.authUrls)|));
        var plan := CommandPlan(commandName, params, renderFloat);
        step.result == Ok(true) ==>
          && (plan.Err? ==> t.requests == old(t.requests))
          && (plan.Err? && !plan.error.UnexpectedParameters? ==> r == Err(Invalid(plan.error)))
          && (plan.Err? && plan.error.UnexpectedParameters? ==>
                && r.Err? && r.error.UnexpectedParams? && r.error.command == commandName
                && StrictlySorted(r.error.listed)
                && (forall x :: x in r.error.listed <==> x in plan.error.names))
          && (plan.Ok? && BaseUrlNow().Err? ==> r == Err(BaseUrlNow().error) && t.requests == old(t.requests))
          && (plan.Ok? && BaseUrlNow().Ok? ==>
                var n := |old(t.requests)|;
                && |t.requests| == n + 1
                && t.requests[..n] == old(t.requests)
                && t.requests[n].0 == BaseUrlNow().value
                && Truthy(sessionId)
                && MergedQuery(t.requests[n].1, plan.value.0.action, plan.value.0.staticParams,
                               sessionId.value, plan.value.1, true)
                && r == (match t.replies(n) case Failed => Err(RequestFailed) case Answered(p) => Ok(p)))
    {
      var authed := Authenticate(false, now, t);
      if authed.Err? {
        return Err(authed.error);
      }
      if !authed.value {
        return Err(NotAuthenticated);
      }
      r := RunCommand(commandName, params, t, renderFloat);
    }
  }

  /**
   * The validation half of `execute`: look the command up, coerce the declared
   * parameters, and reject undeclared ones, listed in sorted order.
   */
  method ValidateCommand(commandName: string, params: map<string, string>,
                         renderFloat: string -> Option<string>)
    returns (r: Result<(ParsedCommand, map<string, string>), ApiError>)
    ensures var plan := CommandPlan(commandName, params, renderFloat);
      && (plan.Ok? ==> r == Ok(plan.value))
      && (plan.Err? && !plan.error.UnexpectedParameters? ==> r == Err(Invalid(plan.error)))
      && (plan.Err? && plan.error.UnexpectedParameters? ==>
            && r.Err? && r.error.UnexpectedParams? && r.error.command == commandName
            && StrictlySorted(r.error.listed)
            && (forall x :: x in r.error.listed <==> x in plan.error.names))
  {
    var loaded := LoadCommand(commandName);
    if loaded.Err? {
      return Err(Invalid(loaded.error));
    }
    var command := loaded.value;
    var expected := NameSet(command.paramSpecs);
    var coerced := CoerceDeclared(command, params, renderFloat);
    if coerced.Err? {
      return Err(Invalid(coerced.error));
    }
    var extras := params.Keys - expected;
    if extras != {} {
      var listed := SortedList(extras);
      return Err(UnexpectedParams(commandName, listed));
    }
    return Ok((command, coerced.value));
  }

  /**
   * The loop of `execute` over the declared parameters: unlike the script it
   * leaves the supplied map untouched.
   */
  method CoerceDeclared(command: ParsedCommand, params: map<string, string>,
                        renderFloat: string -> Option<string>) returns (r: Result<map<string, string>, Error>)
    ensures r == ResolveDeclared(command.name, command.paramSpecs, params, false, renderFloat)
  {
    var specs := command.paramSpecs;
    var coerced: map<string, string> := map[];
    assert specs[0..] == specs;
    ThenNothing(ResolveDeclared(command.name, specs, params, false, renderFloat));
    for i := 0 to |specs|
      invariant Then(coerced, ResolveDeclared(command.name, specs[i..], params, false, renderFloat))
             == ResolveDeclared(command.name, specs, params, false, renderFloat)
    {
      var spec := specs[i];
      var name := spec.name;
      assert specs[i..][0] == spec && specs[i..][1..] == specs[i + 1..];
      if name !in params {
        if MustBeSupplied(spec) {
          ThenFail(coerced, command.name, specs[i..], params, false, renderFloat);
          return Err(MissingParameter(name, command.name));
        }
        ThenStep(coerced, command.name, specs[i..], params, false, renderFloat);
        if spec.default.Some? {
          coerced := coerced[name := spec.default.value];
        }
        continue;
      }
      var c := CoerceParamValue(name, params[name], spec, renderFloat);
      if c.Err? {
        ThenFail(coerced, command.name, specs[i..], params, false, renderFloat);
        return Err(c.error);
      }
      ThenStep(coerced, command.name, specs[i..], params, false, renderFloat);
      coerced := coerced[name := c.value];
    }
    assert specs[|specs|..] == [];
    assert coerced + map[] == coerced;
    return Ok(coerced);
  }
}
