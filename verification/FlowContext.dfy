/** What actions, conditions and screens read: the run's context with what the stores add to it at that moment. */
module FlowContext {
  import opened Wrappers
  import opened Json
  import opened FlowGraph
  import opened FlowRun
  import opened FlowConditions
  import opened FlowState
  import UserStore
  import WebAuthnStore

  // ----------------------------------------------------------- live parts

  function TextList(items: seq<string>): seq<Json> {
    seq(|items|, i requires 0 <= i < |items| => Str(items[i]))
  }

  function ProjectUser(u: UserStore.User, hasPasskey: bool): Json {
    Obj(map["userId" := Str(u.userId), "loginIds" := Arr(TextList(u.loginIds)),
            "email" := Str(UserStore.Or(u.email, "")), "phone" := Str(UserStore.Or(u.phone, "")),
            "name" := Str(UserStore.Or(u.name, "")),
            "verifiedEmail" := Bool(u.verifiedEmail), "verifiedPhone" := Bool(u.verifiedPhone),
            "tenantIds" := Arr(TextList(seq(|u.userTenants|,
                                            i requires 0 <= i < |u.userTenants| => u.userTenants[i].tenantId))),
            "customAttributes" := Obj(u.customAttributes), "status" := Str(u.status),
            "webauthn" := Bool(hasPasskey), "password" := Bool(u.password)])
  }

  /** What is shown of a user, if there is one. */
  function ProjectionOf(passkeys: WebAuthnStore.State, found: Result<UserStore.User, StoreError>): Json {
    if found.Ok? then ProjectUser(found.value, WebAuthnStore.CredentialsOf(passkeys, found.value.userId) != [])
    else EMPTY
  }

  function WithLiveParts(ctx: Json, user: Json, unauthUser: Json, sso: bool): (full: Json)
    requires ctx.Obj?
    ensures full.Obj? && Child(full, "form") == Child(ctx, "form") && Child(full, "auth") == Child(ctx, "auth")
    ensures Child(full, "user") == user && Child(full, "unauthUser") == unauthUser
  {
    var firstSeen := Bool(Child(Child(ctx, "auth"), "firstSeen") == Bool(true));
    Obj(ctx.fields["user" := user]["unauthUser" := unauthUser]
          ["authInfo" := Obj(map["firstSeen" := firstSeen, "user" := user])]["ssoEnabled" := Bool(sso)])
  }

  predicate SsoEnabled(scope: Scope, ctx: Json) {
    '@' in LoginId(scope.host, ctx) && scope.moment.usesSso(LoginId(scope.host, ctx))
  }

  /** `full` is the context plus its live parts, each as the stores have it: two users projected, one by id and one by
      what was typed, and the SSO flag. */
  ghost predicate IsFullContext(scope: Scope, s: Stores, ctx: Json, full: Json) {
    && ctx.Obj?
    && exists named :: UserStore.LoadsAs(s.users, scope.host.lower, LoginId(scope.host, ctx), named)
         && full == WithLiveParts(ctx, ProjectionOf(s.passkeys, UserStore.Fetched(s.users, AuthUser(ctx))),
                                  ProjectionOf(s.passkeys, named), SsoEnabled(scope, ctx))
  }

  method Projected(state: EmulatorState, found: Result<UserStore.User, StoreError>) returns (r: Json)
    ensures r == ProjectionOf(state.webauthn.View(), found)
  {
    r := EMPTY;
    if found.Ok? {
      var has := state.webauthn.HasCredentials(found.value.userId);
      r := ProjectUser(found.value, has);
    }
  }

  method SignedInUser(state: EmulatorState, ctx: Json) returns (r: Result<UserStore.User, StoreError>)
    ensures r == UserStore.Fetched(state.users.View(), AuthUser(ctx))
  {
    r := Err(UserNotFound);
    if AuthUser(ctx).Some? {
      r := state.users.LoadByUserId(AuthUser(ctx).value);
    }
  }

  method FullContext(state: EmulatorState, scope: Scope, ctx: Json) returns (full: Json)
    requires ctx.Obj? && state.users.lower == state.host.lower && scope.host == state.host
    ensures IsFullContext(scope, state.Stores(), ctx, full)
    ensures full.Obj? && Child(full, "form") == Child(ctx, "form") && Child(full, "auth") == Child(ctx, "auth")
  {
    var signedIn := SignedInUser(state, ctx);
    var user := Projected(state, signedIn);
    var named, _ := state.users.Load(LoginId(state.host, ctx));
    var unauthUser := Projected(state, named);
    full := WithLiveParts(ctx, user, unauthUser, SsoEnabled(scope, ctx));
  }

  // -------------------------------------------------------------- targets

  function IdOf(found: Result<UserStore.User, StoreError>): Option<string> {
    if found.Ok? then Some(found.value.userId) else None
  }

  /** Whose account an action touches: that of the context's user, and only without one that of whoever the typed text
      loads. */
  ghost predicate Targets(host: Host, users: UserStore.Users, ctx: Json, target: Option<string>) {
    if AuthUser(ctx).Some? then target == AuthUser(ctx)
    else exists found :: UserStore.LoadsAs(users, host.lower, LoginId(host, ctx), found) && target == IdOf(found)
  }

  method TargetUserId(state: EmulatorState, ctx: Json) returns (r: Option<string>)
    requires state.users.lower == state.host.lower
    ensures Targets(state.host, state.users.View(), ctx, r)
  {
    if AuthUser(ctx).Some? {
      return AuthUser(ctx);
    }
    var u, _ := state.users.Load(LoginId(state.host, ctx));
    return IdOf(u);
  }

  // -------------------------------------------------------------- screens

  /** The context keys a screen asks for, copied in order. */
  function WithKeys(screenState: Json, full: Json, keys: seq<string>): (r: Json)
    requires screenState.Obj?
    ensures r.Obj?
  {
    if keys == [] then screenState
    else
      var path := SplitDots(keys[|keys| - 1]);
      SetPath(WithKeys(screenState, full, keys[..|keys| - 1]), path, GetPath(full, path))
  }

  function WithError(screenState: Json, error: Option<string>): (r: Json)
    requires screenState.Obj?
    ensures r.Obj? && (error.Some? ==> Child(r, "errorText") == Str(error.value)) && (error.None? ==> r == screenState)
  {
    if error.None? then screenState
    else With(With(screenState, "errorText", Str(error.value)), "errorType", Str("error"))
  }

  /** What every screen is told about components it may hold. */
  const COMPONENTS: Json := Obj(map["samlGroupMappings" := EMPTY, "ssoApplications" := EMPTY,
                                    "thirdPartyAppApproveScopes" := EMPTY,
                                    "userRoles" := EMPTY, "userSelectedTenant" := EMPTY])

  function PlainScreenState(ctx: Json, full: Json): (r: Json)
    ensures r.Obj?
  {
    Obj(map["componentsConfig" := COMPONENTS, "form" := Child(ctx, "form"), "inputs" := Child(ctx, "form"),
            "sentTo" := Child(ctx, "sentTo"),
            "user" := Child(full, "user"), "project" := Obj(map["name" := Str("local")])])
  }

  /** A screen's envelope: it waits at the screen's task, names the screen, and carries what the screen draws. */
  function ScreenOf(scope: Scope, task: Task, screenState: Json): (env: Json)
    ensures env.Obj? && IsWaiting(env) && Child(env, "stepId") == Str(task.id) && ErrorCode(env) == Null
    ensures Child(env, "screen") == Obj(map["id" := Str(scope.def.id + "/" + task.screenId), "state" := screenState])
  {
    With(With(Envelope(scope.id, task.id, "waiting"), "stepName", task.name),
         "screen", Obj(map["id" := Str(scope.def.id + "/" + task.screenId), "state" := screenState]))
  }

  /** The screen of a task, drawn from a full context, perhaps with an error. */
  function ScreenFor(scope: Scope, task: Task, ctx: Json, full: Json, error: Option<string>): (env: Json)
    ensures env.Obj? && IsWaiting(env) && Child(env, "stepId") == Str(task.id) && ErrorCode(env) == Null
    ensures error.Some? ==> Child(Child(Child(env, "screen"), "state"), "errorText") == Str(error.value)
  {
    var screenState := WithError(WithKeys(PlainScreenState(ctx, full), full, task.contextKeys), error);
    var env := ScreenOf(scope, task, screenState);
    assert Child(Child(env, "screen"), "state") == screenState;
    env
  }

  method CopyKeys(screenState: Json, full: Json, keys: seq<string>) returns (r: Json)
    requires screenState.Obj?
    ensures r == WithKeys(screenState, full, keys)
  {
    r := screenState;
    var i := 0;
    while i < |keys|
      invariant 0 <= i <= |keys| && r == WithKeys(screenState, full, keys[..i])
    {
      assert keys[..i + 1][..i] == keys[..i];
      var path := SplitDots(keys[i]);
      r := WritePath(r, path, GetPath(full, path));
      i := i + 1;
    }
    assert keys[..i] == keys;
  }

  /** The screen a task shows, drawn from the full context of that moment. */
  method ScreenEnvelope(state: EmulatorState, scope: Scope, ctx: Json, task: Task, error: Option<string>)
    returns (env: Json, ghost full: Json)
    requires ctx.Obj? && state.users.lower == state.host.lower && scope.host == state.host
    ensures IsFullContext(scope, state.Stores(), ctx, full) && env == ScreenFor(scope, task, ctx, full, error)
    ensures WaitsFor(env, task.id)
  {
    var live := FullContext(state, scope, ctx);
    full := live;
    var screenState := CopyKeys(PlainScreenState(ctx, live), live, task.contextKeys);
    screenState := WithError(screenState, error);
    env := ScreenOf(scope, task, screenState);
  }

  /** An envelope that waits, put under another step. */
  function Under(env: Json, step: string): (r: Json)
    requires env.Obj? && IsWaiting(env) && ErrorCode(env) == Null
    ensures WaitsFor(r, step)
  {
    With(env, "stepId", Str(step))
  }

  /** What the widget shows while the browser works: the last screen if there is one, under the step that will
      finish. */
  ghost predicate ShowsWait(scope: Scope, s: Stores, ctx: Json, step: string, env: Json) {
    var screenTask := AsText(scope.host, Child(ctx, "screenTask"));
    if screenTask in scope.def.tasks then
      exists full ::
        IsFullContext(scope, s, ctx, full)
        && env == Under(ScreenFor(scope, scope.def.tasks[screenTask], ctx, full, None), step)
    else env == Under(Envelope(scope.id, step, "waiting"), step)
  }

  method WaitEnvelope(state: EmulatorState, scope: Scope, ctx: Json, step: string) returns (env: Json)
    requires ctx.Obj? && state.users.lower == state.host.lower && scope.host == state.host
    ensures WaitsFor(env, step) && ShowsWait(scope, state.Stores(), ctx, step, env)
  {
    var screenTask := AsText(state.host, Child(ctx, "screenTask"));
    if screenTask in scope.def.tasks {
      var drawn, full := ScreenEnvelope(state, scope, ctx, scope.def.tasks[screenTask], None);
      env := Under(drawn, step);
      assert IsFullContext(scope, state.Stores(), ctx, full);
    } else {
      env := Under(Envelope(scope.id, step, "waiting"), step);
    }
  }
}
