/** The sign-in at a tenant's identity provider, and the login that ends a run. */
module FlowSso {
  import opened Wrappers
  import opened Json
  import opened FlowGraph
  import opened FlowRun
  import opened FlowConditions
  import opened FlowState
  import opened FlowContext
  import opened FlowCodes
  import opened FlowUrls
  import TokenStore
  import UserStore

  // ------------------------------------------------------------------- SSO

  function ExchangeStep(host: Host, task: Task, full: Json): string {
    ArgumentText(host, task, "exchangeStepId", full)
  }

  /** The provider's address for the hint, given or typed, and for the address that leads back to this run; or why there
      is none. */
  function ProviderUrl(scope: Scope, task: Task, ctx: Json, full: Json): Result<string, string> {
    var host := scope.host;
    var given := ArgumentText(host, task, "loginHint", full);
    var page := PageOf(host, ctx, ArgumentText(host, task, "redirectUrl", full));
    host.startSso(if given != "" then given else LoginId(host, ctx),
                  BackUrl(host.urlEncode, page, scope.id, ExchangeStep(host, task, full)))
  }

  /** An envelope that sends the browser away. */
  function RedirectEnvelope(env: Json, url: string): (r: Json)
    requires env.Obj? && IsWaiting(env) && ErrorCode(env) == Null
    ensures r.Obj? && IsWaiting(r) && Child(r, "stepId") == Child(env, "stepId") && ErrorCode(r) == Null
    ensures Child(r, "action") == Str("redirect") && Child(Child(r, "redirect"), "url") == Str(url)
  {
    With(With(env, "action", Str("redirect")), "redirect", Obj(map["url" := Str(url), "isPopup" := Bool(false)]))
  }

  /** The browser is sent to the provider over what the widget shows and awaited at the exchange step, or the screen
      says why not. */
  ghost predicate SentAway(scope: Scope, s: Stores, ctx: Json, url: Result<string, string>, exchange: string,
                           o: Outcome)
  {
    match url
    case Err(why) => o == ScreenError("SSO sign-in could not start: " + why)
    case Ok(to) =>
      exists env ::
        ShowsWait(scope, s, ctx, exchange, env) && WaitsFor(env, exchange)
          && o == Wait(RedirectEnvelope(env, to), exchange)
  }

  method SendAway(state: EmulatorState, scope: Scope, ctx: Json, url: Result<string, string>, exchange: string)
    returns (o: Outcome)
    requires ctx.Obj? && state.users.lower == state.host.lower && scope.host == state.host
    ensures StillOpen(o) && SentAway(scope, state.Stores(), ctx, url, exchange, o)
  {
    if url.Err? {
      return ScreenError("SSO sign-in could not start: " + url.error);
    }
    var env := WaitEnvelope(state, scope, ctx, exchange);
    return Wait(RedirectEnvelope(env, url.value), exchange);
  }

  /** The browser was sent to the provider, or the screen says why not; neither the run nor a store changed. */
  ghost predicate SsoAsked(scope: Scope, task: Task, a: Snapshot, b: Snapshot, o: Outcome) {
    && b == a
    && exists full ::
         && IsFullContext(scope, a.stores, a.view.ctx, full)
         && SentAway(scope, a.stores, a.view.ctx, ProviderUrl(scope, task, a.view.ctx, full),
                     ExchangeStep(scope.host, task, full), o)
  }

  /** Sends the browser to the provider, or says why not. */
  method SsoStart(state: EmulatorState, scope: Scope, run: Run, task: Task) returns (o: Outcome)
    requires CanRun(state, scope, run)
    ensures ActionOk(NoMeans, Snap(state, run), Snap(state, run), o)
    ensures SsoAsked(scope, task, Snap(state, run), Snap(state, run), o)
  {
    var full := FullContext(state, scope, run.ctx);
    o := SendAway(state, scope, run.ctx, ProviderUrl(scope, task, run.ctx, full), ExchangeStep(state.host, task, full));
    UnchangedOk(NoMeans, Snap(state, run), state.Stores(), o);
  }

  function ExchangeCode(input: Json): string {
    if Child(input, "exchangeCode").Str? then Child(input, "exchangeCode").s else ""
  }

  /** Whom a code signs in: any live token's user that is not a tenant, or why nobody. */
  function ExchangedFor(tokens: TokenStore.Tokens, code: string): (r: Result<string, Outcome>)
    ensures r.Err? ==> r.error.Fail? && StillOpen(r.error)
  {
    if code !in tokens.entries then Err(Fail("E062503", "The SSO code is not valid"))
    else if "tenant:" <= tokens.entries[code].userId then Err(Fail("E112102", "User not found"))
    else Ok(tokens.entries[code].userId)
  }

  method TakeExchange(state: EmulatorState, code: string) returns (user: Result<string, Outcome>)
    modifies state.tokens
    ensures user == ExchangedFor(old(state.tokens.State()), code)
    ensures state.tokens.State() == TokenStore.Consumed(old(state.tokens.State()), code)
  {
    var consumed := state.tokens.Consume(code);
    if consumed.Err? {
      return Err(Fail("E062503", "The SSO code is not valid"));
    }
    var userId := consumed.value.userId;
    return if "tenant:" <= userId then Err(Fail("E112102", "User not found")) else Ok(userId);
  }

  /** The code was consumed, whatever came of it, and signed in its user unless it was a tenant's. */
  ghost predicate SsoChecked(input: Json, a: Snapshot, b: Snapshot, o: Outcome) {
    var code := ExchangeCode(input);
    && b.stores == a.stores.(tokens := TokenStore.Consumed(a.stores.tokens, code))
    && SsoSignsIn(a, b, o, code, ExchangedFor(a.stores.tokens, code))
  }

  ghost predicate SsoSignsIn(a: Snapshot, b: Snapshot, o: Outcome, code: string, user: Result<string, Outcome>) {
    match user
    case Err(why) => o == why && b.view == a.view
    case Ok(u) =>
      && a.view.ctx.Obj? && o == SUCCESS
      && b.view == SignedInView(a, b.stores, u, "saml", false, SsoCodeConsumed(code))
  }

  method SignInBySso(run: Run, code: string, user: Result<string, Outcome>, ghost a: Snapshot, ghost t: Stores)
    returns (o: Outcome)
    requires a.view == run.View() && Ready(a.view) && Open(a.view.history) && (user.Err? ==> StillOpen(user.error))
    modifies run`ctx, run`history
    ensures ActionOk(BySso, a, Snapshot(t, run.View()), o) && SsoSignsIn(a, Snapshot(t, run.View()), o, code, user)
  {
    o := if user.Ok? then SUCCESS else user.error;
    run.SignInSome(if user.Ok? then Some(user.value) else None, "saml", false, SsoCodeConsumed(code), a, t, o);
  }

  /** Consumes the code the browser came back with, and signs its user in unless the code is a tenant's. */
  method SsoExchange(state: EmulatorState, scope: Scope, run: Run, input: Json) returns (o: Outcome)
    requires CanRun(state, scope, run)
    modifies run, state.tokens
    ensures state.Valid() && ActionOk(BySso, old(Snap(state, run)), Snap(state, run), o)
    ensures SsoChecked(input, old(Snap(state, run)), Snap(state, run), o)
  {
    ghost var a := Snap(state, run);
    var user := TakeExchange(state, ExchangeCode(input));
    o := SignInBySso(run, ExchangeCode(input), user, a, state.Stores());
  }

  // ------------------------------------------------------------- logged in

  /** The session for `user`, as the context says it signed in. */
  function SessionFor(host: Host, user: UserStore.User, ctx: Json): Option<Json> {
    var how := AsText(host, Child(Child(ctx, "auth"), "method"));
    host.authInfo(user, if how == "" then "pwd" else how, Child(Child(ctx, "auth"), "firstSeen") == Bool(true))
  }

  /** The user a login would be for, stored and not disabled, with a session that can be signed. */
  predicate LoginReady(host: Host, users: UserStore.Users, ctx: Json, user: string) {
    AuthUser(ctx) == Some(user) && user in users.byUserId && users.byUserId[user].status != "disabled"
    && SessionFor(host, users.byUserId[user], ctx).Some?
  }

  /** The session a login hands out, or why there is none. */
  function LoginOf(host: Host, users: UserStore.Users, ctx: Json): (r: Result<Json, Outcome>)
    ensures r.Ok? <==> AuthUser(ctx).Some? && LoginReady(host, users, ctx, AuthUser(ctx).value)
    ensures r.Err? ==> r.error.Fail? && StillOpen(r.error)
  {
    var u := UserStore.Fetched(users, AuthUser(ctx));
    if AuthUser(ctx).None? then Err(Fail("E102106", "The flow ended without signing anyone in"))
    else if u.Err? then Err(Fail("E112102", "User not found"))
    else if u.value.status == "disabled" then Err(Fail("E011006", "User is disabled"))
    else
      var info := SessionFor(host, u.value, ctx);
      if info.None? then Err(Fail("E000000", "The session could not be signed")) else Ok(info.value)
  }

  method CheckLogin(state: EmulatorState, ctx: Json) returns (r: Result<Json, Outcome>)
    ensures r == LoginOf(state.host, state.users.View(), ctx)
  {
    if AuthUser(ctx).None? {
      return Err(Fail("E102106", "The flow ended without signing anyone in"));
    }
    var u := state.users.LoadByUserId(AuthUser(ctx).value);
    if u.Err? {
      return Err(Fail("E112102", "User not found"));
    }
    if u.value.status == "disabled" {
      return Err(Fail("E011006", "User is disabled"));
    }
    var info := SessionFor(state.host, u.value, ctx);
    return if info.None? then Err(Fail("E000000", "The session could not be signed")) else Ok(info.value);
  }

  function CompletedEnvelope(id: string, taskId: string, info: Json): (env: Json)
    ensures env.Obj? && Child(env, "status") == Str("completed") && ErrorCode(env) == Null
            && Child(env, "authInfo") == info
  {
    With(Envelope(id, taskId, "completed"), "authInfo", info)
  }

  /** The users after a login of `user`. */
  function LoginStamped(users: UserStore.Users, user: string, now: nat): UserStore.Users
    requires user in users.byUserId
  {
    UserStore.WithUser(users, user, users.byUserId[user].(lastLogin := Some(now)))
  }

  /** The run's user was handed a session, the login noted with the user and in the history; or the login was refused
      and nothing changed. */
  ghost predicate LoginDone(scope: Scope, a: Snapshot, b: Snapshot, o: Outcome) {
    match LoginOf(scope.host, a.stores.users, a.view.ctx)
    case Err(why) => o == why && b == a
    case Ok(session) =>
      var user := AuthUser(a.view.ctx).value;
      && o == Done(CompletedEnvelope(scope.id, a.view.taskId, session))
      && b == Snapshot(a.stores.(users := LoginStamped(a.stores.users, user, scope.moment.now)),
                       a.view.(history := a.view.history + [LoggedIn(user, a.stores)]))
  }

  lemma LoggedInOk(a: Snapshot, t: Stores, user: string, o: Outcome)
    requires Ready(a.view) && Open(a.view.history) && AuthUser(a.view.ctx) == Some(user)
    requires o.Done? && o.envelope.Obj? && !IsWaiting(o.envelope) && ErrorCode(o.envelope) == Null
    ensures ActionOk(Login, a, Snapshot(t, a.view.(history := a.view.history + [LoggedIn(user, a.stores)])), o)
  {
    var after := a.view.(history := a.view.history + [LoggedIn(user, a.stores)]);
    Snoc(a.view.history, LoggedIn(user, a.stores));
    assert LoginLast(after);
  }

  /** The only way a run completes: hands out the session of the signed-in user and stamps the login, or refuses and
      changes nothing. */
  method LogIn(state: EmulatorState, scope: Scope, run: Run) returns (o: Outcome)
    requires CanRun(state, scope, run)
    modifies run`history, state.users`byUserId
    ensures state.Valid() && ActionOk(Login, old(Snap(state, run)), Snap(state, run), o)
    ensures LoginDone(scope, old(Snap(state, run)), Snap(state, run), o)
  {
    ghost var a := Snap(state, run);
    var session := CheckLogin(state, run.ctx);
    if session.Err? {
      o := session.error;
      UnchangedOk(Login, a, a.stores, o);
      return;
    }
    var userId := AuthUser(run.ctx).value;
    var _ := state.users.RecordLoginByUserId(userId, scope.moment.now);
    o := Done(CompletedEnvelope(run.id, run.taskId, session.value));
    run.history := run.history + [LoggedIn(userId, a.stores)];
    LoggedInOk(a, state.Stores(), userId, o);
  }
}
