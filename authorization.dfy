/**
 * The isAuthorized middleware of umpack.js as a per-request state machine:
 *
 *   Start -> TokenChosen -> TokenDecoded -> PolicyChecked -> (DeviceChecked) -> Authorized
 *
 * with an edge to Rejected from every stage before DeviceChecked. The role check and the
 * device check are opaque collaborators; the two checks, which umpack.js runs
 * together with Promise.all, are taken in sequence, role check first.
 */
module Authorization {
  import opened Wrappers
  import opened Http
  import opened Tokens

  /** The identity the middleware builds from the decoded claims. */
  datatype Identity = Identity(userName: string, roles: seq<string>, deviceToken: Option<string>)

  function IdentityOf(decoded: Claims): Identity {
    Identity(decoded.user, decoded.roles, decoded.device)
  }

  /** The settled result of checkRole or checkDevice. */
  datatype Check = Pass | Fail(error: Error)

  /**
   * Process configuration: the cookie consulted when the header is missing,
   * whether device control is on, and the error objects of the API error
   * enumeration for the three token failures.
   */
  datatype Config = Config(
    cookieAccessTokenName: string,
    deviceControl: bool,
    apiErrors: ApiErrorName -> Error)

  /** The foreign calls the middleware makes: the token verifier, checkRole and checkDevice. */
  datatype Collaborators = Collaborators(
    verify: string -> Verification,
    checkRole: (string, string, Identity) -> Check,
    checkDevice: (string, Option<string>) -> Check)

  datatype Stage =
    | Start
    | TokenChosen(token: string)
    | TokenDecoded(identity: Identity)
    | PolicyChecked(identity: Identity)
    | DeviceChecked
    | Authorized
    | Rejected(error: Error)

  predicate Terminal(s: Stage) {
    s.Authorized? || s.Rejected?
  }

  /** How many stages at most lie ahead of `s`. */
  function Rank(s: Stage): nat {
    match s
    case Start => 5
    case TokenChosen(_) => 4
    case TokenDecoded(_) => 3
    case PolicyChecked(_) => 2
    case DeviceChecked => 1
    case Authorized => 0
    case Rejected(_) => 0
  }

  /** One transition of the middleware. */
  function Step(cfg: Config, env: Collaborators, req: Request, s: Stage): (next: Stage)
    requires !Terminal(s)
    ensures Rank(next) < Rank(s)
  {
    match s
    case Start =>
      (match ChooseToken(req, cfg.cookieAccessTokenName)
       case None => Rejected(cfg.apiErrors(JwtNotExists))
       case Some(token) => TokenChosen(token))
    case TokenChosen(token) =>
      (match env.verify(token)
       case Verified(decoded) => TokenDecoded(IdentityOf(decoded))
       case VerifyFailed(e) => Rejected(cfg.apiErrors(ClassifyFailure(e))))
    case TokenDecoded(userInfo) =>
      (match env.checkRole(req.verb, req.originalUrl, userInfo)
       case Pass => PolicyChecked(userInfo)
       case Fail(e) => Rejected(e))
    case PolicyChecked(userInfo) =>
      if !cfg.deviceControl then Authorized
      else
        (match env.checkDevice(userInfo.userName, userInfo.deviceToken)
         case Pass => DeviceChecked
         case Fail(e) => Rejected(e))
    case DeviceChecked => Authorized
  }

  /** The stages a request passes through from `s` until it is authorized or rejected. */
  function Trace(cfg: Config, env: Collaborators, req: Request, s: Stage): (t: seq<Stage>)
    decreases Rank(s)
    ensures 0 < |t| <= Rank(s) + 1
    ensures t[0] == s && Terminal(t[|t| - 1])
    ensures forall i :: 0 <= i < |t| - 1 ==> !Terminal(t[i]) && t[i + 1] == Step(cfg, env, req, t[i])
  {
    if Terminal(s) then [s] else [s] + Trace(cfg, env, req, Step(cfg, env, req, s))
  }

  /** Stages never repeat or go back: ranks strictly fall along a trace. */
  lemma {:induction false} TraceAdvances(cfg: Config, env: Collaborators, req: Request, s: Stage, i: nat, j: nat)
    requires i < j < |Trace(cfg, env, req, s)|
    ensures Rank(Trace(cfg, env, req, s)[j]) < Rank(Trace(cfg, env, req, s)[i])
    decreases Rank(s)
  {
    var t := Trace(cfg, env, req, s);
    var next := Step(cfg, env, req, s);
    assert t == [s] + Trace(cfg, env, req, next);
    if i == 0 {
      if j > 1 {
        TraceAdvances(cfg, env, req, next, 0, j - 1);
      }
    } else {
      TraceAdvances(cfg, env, req, next, i - 1, j - 1);
    }
  }

  function Last(t: seq<Stage>): Stage
    requires |t| > 0
  {
    t[|t| - 1]
  }

  /** Where a request ends up. */
  function Outcome(cfg: Config, env: Collaborators, req: Request): (s: Stage)
    ensures Terminal(s)
  {
    Last(Trace(cfg, env, req, Start))
  }

  /**
   * Reference definition: the same middleware written as a sequential
   * composition of decodeRequestToken and the two checks, with early exit on
   * the first failure.
   */
  function Pipeline(cfg: Config, env: Collaborators, req: Request): Stage {
    match DecodeRequestToken(req, cfg.cookieAccessTokenName, env.verify)
    case Err(name) => Rejected(cfg.apiErrors(name))
    case Ok(decoded) =>
      var userInfo := IdentityOf(decoded);
      match env.checkRole(req.verb, req.originalUrl, userInfo)
      case Fail(e) => Rejected(e)
      case Pass =>
        if !cfg.deviceControl then Authorized
        else
          (match env.checkDevice(userInfo.userName, userInfo.deviceToken)
           case Fail(e) => Rejected(e)
           case Pass => Authorized)
  }

  lemma LastOfTrace(cfg: Config, env: Collaborators, req: Request, s: Stage)
    requires !Terminal(s)
    ensures Last(Trace(cfg, env, req, s)) == Last(Trace(cfg, env, req, Step(cfg, env, req, s)))
  {
  }

  /** From PolicyChecked: authorized unless device control is on and the device check fails. */
  lemma FromPolicyChecked(cfg: Config, env: Collaborators, req: Request, userInfo: Identity)
    ensures var device := env.checkDevice(userInfo.userName, userInfo.deviceToken);
      Last(Trace(cfg, env, req, PolicyChecked(userInfo))) ==
        if cfg.deviceControl && device.Fail? then Rejected(device.error) else Authorized
  {
    LastOfTrace(cfg, env, req, PolicyChecked(userInfo));
    if cfg.deviceControl && env.checkDevice(userInfo.userName, userInfo.deviceToken).Pass? {
      LastOfTrace(cfg, env, req, DeviceChecked);
    }
  }

  /** From TokenDecoded: a failed role check rejects, a passed one continues at PolicyChecked. */
  lemma FromTokenDecoded(cfg: Config, env: Collaborators, req: Request, userInfo: Identity)
    ensures var role := env.checkRole(req.verb, req.originalUrl, userInfo);
      Last(Trace(cfg, env, req, TokenDecoded(userInfo))) ==
        if role.Fail? then Rejected(role.error) else Last(Trace(cfg, env, req, PolicyChecked(userInfo)))
  {
    LastOfTrace(cfg, env, req, TokenDecoded(userInfo));
  }

  /** From Start: the stages up to TokenDecoded do what decodeRequestToken does. */
  lemma FromStart(cfg: Config, env: Collaborators, req: Request)
    ensures var decoded := DecodeRequestToken(req, cfg.cookieAccessTokenName, env.verify);
      Last(Trace(cfg, env, req, Start)) ==
        if decoded.Err? then Rejected(cfg.apiErrors(decoded.error))
        else Last(Trace(cfg, env, req, TokenDecoded(IdentityOf(decoded.value))))
  {
    LastOfTrace(cfg, env, req, Start);
    var chosen := ChooseToken(req, cfg.cookieAccessTokenName);
    if chosen.Some? {
      LastOfTrace(cfg, env, req, TokenChosen(chosen.value));
    }
  }

  /** The state machine ends where the sequential composition ends. */
  lemma {:induction false} OutcomeIsPipeline(cfg: Config, env: Collaborators, req: Request)
    ensures Outcome(cfg, env, req) == Pipeline(cfg, env, req)
  {
    FromStart(cfg, env, req);
    var decoded := DecodeRequestToken(req, cfg.cookieAccessTokenName, env.verify);
    if decoded.Ok? {
      var userInfo := IdentityOf(decoded.value);
      FromTokenDecoded(cfg, env, req, userInfo);
      FromPolicyChecked(cfg, env, req, userInfo);
    }
  }

  /**
   * Authorization succeeds exactly when the token decodes, the role check
   * passes and, with device control on, the device check passes too.
   */
  lemma AuthorizedIffChecksPass(cfg: Config, env: Collaborators, req: Request)
    ensures Outcome(cfg, env, req) == Authorized <==>
      && DecodeRequestToken(req, cfg.cookieAccessTokenName, env.verify).Ok?
      && var userInfo := IdentityOf(DecodeRequestToken(req, cfg.cookieAccessTokenName, env.verify).value);
         && env.checkRole(req.verb, req.originalUrl, userInfo).Pass?
         && (cfg.deviceControl ==> env.checkDevice(userInfo.userName, userInfo.deviceToken).Pass?)
  {
    OutcomeIsPipeline(cfg, env, req);
  }

  /** A decode failure rejects the request with that failure's API error. */
  lemma DecodeFailureRejects(cfg: Config, env: Collaborators, req: Request)
    requires DecodeRequestToken(req, cfg.cookieAccessTokenName, env.verify).Err?
    ensures Outcome(cfg, env, req)
         == Rejected(cfg.apiErrors(DecodeRequestToken(req, cfg.cookieAccessTokenName, env.verify).error))
  {
    OutcomeIsPipeline(cfg, env, req);
  }

  /**
   * Without a token the request is rejected right after Start: the
   * TokenChosen stage, the only one that calls the verifier, is never
   * reached, and any verifier gives the same trace.
   */
  lemma MissingTokenSkipsVerifier(cfg: Config, env: Collaborators, req: Request,
                                  other: string -> Verification)
    requires ChooseToken(req, cfg.cookieAccessTokenName).None?
    ensures Trace(cfg, env, req, Start) == [Start, Rejected(cfg.apiErrors(JwtNotExists))]
    ensures Trace(cfg, env.(verify := other), req, Start) == Trace(cfg, env, req, Start)
  {
    var t := Trace(cfg, env, req, Start);
    assert t[1] == Rejected(cfg.apiErrors(JwtNotExists));
    var t' := Trace(cfg, env.(verify := other), req, Start);
    assert t'[1] == Rejected(cfg.apiErrors(JwtNotExists));
  }

  /** With device control off, no stage of the machine consults checkDevice. */
  lemma StepIgnoresDevice(cfg: Config, env: Collaborators, req: Request, s: Stage,
                          other: (string, Option<string>) -> Check)
    requires !cfg.deviceControl && !Terminal(s)
    ensures Step(cfg, env.(checkDevice := other), req, s) == Step(cfg, env, req, s)
    ensures !Step(cfg, env, req, s).DeviceChecked?
  {
  }

  lemma {:induction false} TraceIgnoresDevice(cfg: Config, env: Collaborators, req: Request, s: Stage,
                                              other: (string, Option<string>) -> Check)
    requires !cfg.deviceControl && !s.DeviceChecked?
    ensures Trace(cfg, env.(checkDevice := other), req, s) == Trace(cfg, env, req, s)
    ensures forall i :: 0 <= i < |Trace(cfg, env, req, s)| ==> !Trace(cfg, env, req, s)[i].DeviceChecked?
    decreases Rank(s)
  {
    if !Terminal(s) {
      StepIgnoresDevice(cfg, env, req, s, other);
      TraceIgnoresDevice(cfg, env, req, Step(cfg, env, req, s), other);
    }
  }

  /**
   * With device control off the outcome is the role check's outcome, the
   * device check is never consulted, and replacing it changes nothing.
   */
  lemma DeviceControlOff(cfg: Config, env: Collaborators, req: Request,
                         other: (string, Option<string>) -> Check)
    requires !cfg.deviceControl
    requires DecodeRequestToken(req, cfg.cookieAccessTokenName, env.verify).Ok?
    ensures var userInfo := IdentityOf(DecodeRequestToken(req, cfg.cookieAccessTokenName, env.verify).value);
      var role := env.checkRole(req.verb, req.originalUrl, userInfo);
      Outcome(cfg, env, req) == if role.Pass? then Authorized else Rejected(role.error)
    ensures forall i :: 0 <= i < |Trace(cfg, env, req, Start)| ==> !Trace(cfg, env, req, Start)[i].DeviceChecked?
    ensures Trace(cfg, env.(checkDevice := other), req, Start) == Trace(cfg, env, req, Start)
  {
    OutcomeIsPipeline(cfg, env, req);
    TraceIgnoresDevice(cfg, env, req, Start, other);
  }

  /**
   * With device control on both checks must pass; a failure reports the
   * error of one of the checks that failed.
   */
  lemma DeviceControlOn(cfg: Config, env: Collaborators, req: Request)
    requires cfg.deviceControl
    requires DecodeRequestToken(req, cfg.cookieAccessTokenName, env.verify).Ok?
    ensures var userInfo := IdentityOf(DecodeRequestToken(req, cfg.cookieAccessTokenName, env.verify).value);
      var role := env.checkRole(req.verb, req.originalUrl, userInfo);
      var device := env.checkDevice(userInfo.userName, userInfo.deviceToken);
      && (Outcome(cfg, env, req) == Authorized <==> role.Pass? && device.Pass?)
      && (Outcome(cfg, env, req).Rejected? ==>
            (role.Fail? && Outcome(cfg, env, req).error == role.error) ||
            (device.Fail? && Outcome(cfg, env, req).error == device.error))
  {
    OutcomeIsPipeline(cfg, env, req);
  }

  /**
   * A decoded token yields the identity {userName: user, roles, deviceToken:
   * device}, and getUserRolesFromRequest reports the same user and roles.
   */
  lemma DecodedIdentity(cfg: Config, env: Collaborators, req: Request)
    requires DecodeRequestToken(req, cfg.cookieAccessTokenName, env.verify).Ok?
    ensures var decoded := DecodeRequestToken(req, cfg.cookieAccessTokenName, env.verify).value;
      && |Trace(cfg, env, req, Start)| > 2
      && Trace(cfg, env, req, Start)[2] == TokenDecoded(Identity(decoded.user, decoded.roles, decoded.device))
      && UserRolesFromRequest(req, cfg.cookieAccessTokenName, env.verify)
         == Ok(UserRoles(Trace(cfg, env, req, Start)[2].identity.userName, Trace(cfg, env, req, Start)[2].identity.roles))
  {
    var t := Trace(cfg, env, req, Start);
    assert t[1] == TokenChosen(ChooseToken(req, cfg.cookieAccessTokenName).value);
  }

  /** The side effects of the middleware, in order. */
  datatype Effect =
    | LogAuthorizationResult
    | LogAuthorizationFail(error: Error)
    | LogAuthorizationInternalError(error: Error)
    | CallNext
    | Send(response: Response)

  function NextCalls(fx: seq<Effect>): nat {
    if fx == [] then 0 else (if fx[0].CallNext? then 1 else 0) + NextCalls(fx[1..])
  }

  function Responses(fx: seq<Effect>): seq<Response> {
    if fx == [] then [] else (if fx[0].Send? then [fx[0].response] else []) + Responses(fx[1..])
  }

  /**
   * The response a rejection becomes: an untyped error is answered with 500
   * and a body holding only its message, a typed one with its own status
   * and `{message, internalStatus}`.
   */
  function ErrorResponse(e: Error): (r: Response)
    ensures r.body.message == e.message
    ensures r.body.internalStatus.Some? <==> IsTyped(e)
    ensures IsTyped(e) ==> r.status == e.responseStatus && r.body.internalStatus == e.internalStatus
    ensures !IsTyped(e) ==> r.status == 500
  {
    if !IsTyped(e) then Response(500, Body(e.message, None))
    else Response(e.responseStatus, Body(e.message, e.internalStatus))
  }

  lemma PairEffects(first: Effect, second: Effect)
    ensures NextCalls([first, second]) == (if first.CallNext? then 1 else 0) + (if second.CallNext? then 1 else 0)
    ensures Responses([first, second]) ==
      (if first.Send? then [first.response] else []) + (if second.Send? then [second.response] else [])
  {
    var pair := [first, second];
    assert pair[1..] == [second];
    assert [second][1..] == [];
    assert NextCalls([second]) == (if second.CallNext? then 1 else 0) + NextCalls([]);
    assert NextCalls(pair) == (if first.CallNext? then 1 else 0) + NextCalls([second]);
    assert Responses([second]) == (if second.Send? then [second.response] else []) + Responses([]);
    assert Responses(pair) == (if first.Send? then [first.response] else []) + Responses([second]);
  }

  /** What the middleware does once a request is authorized or rejected. */
  function Respond(final: Stage): (fx: seq<Effect>)
    requires Terminal(final)
    ensures NextCalls(fx) == (if final.Authorized? then 1 else 0)
    ensures Responses(fx) == (if final.Rejected? then [ErrorResponse(final.error)] else [])
  {
    var fx := match final
      case Authorized => [LogAuthorizationResult, CallNext]
      case Rejected(err) =>
        if !IsTyped(err) then [LogAuthorizationInternalError(err), Send(ErrorResponse(err))]
        else [LogAuthorizationFail(err), Send(ErrorResponse(err))];
    PairEffects(fx[0], fx[1]);
    assert fx == [fx[0], fx[1]];
    fx
  }

  /** isAuthorized(req, res, next): the effects one request produces. */
  function IsAuthorized(cfg: Config, env: Collaborators, req: Request): (fx: seq<Effect>)
    ensures NextCalls(fx) + |Responses(fx)| == 1
  {
    Respond(Outcome(cfg, env, req))
  }

  /**
   * next is called exactly when every check passes, and then no response is
   * sent; otherwise exactly one response goes out, carrying the error of the
   * failing step.
   */
  lemma NextOrOneResponse(cfg: Config, env: Collaborators, req: Request)
    ensures NextCalls(IsAuthorized(cfg, env, req)) == 1 <==>
      && DecodeRequestToken(req, cfg.cookieAccessTokenName, env.verify).Ok?
      && var userInfo := IdentityOf(DecodeRequestToken(req, cfg.cookieAccessTokenName, env.verify).value);
         && env.checkRole(req.verb, req.originalUrl, userInfo).Pass?
         && (cfg.deviceControl ==> env.checkDevice(userInfo.userName, userInfo.deviceToken).Pass?)
    ensures NextCalls(IsAuthorized(cfg, env, req)) == 1 ==> Responses(IsAuthorized(cfg, env, req)) == []
    ensures NextCalls(IsAuthorized(cfg, env, req)) == 0 ==>
      |Responses(IsAuthorized(cfg, env, req))| == 1
  {
    AuthorizedIffChecksPass(cfg, env, req);
  }
}
