/** Where in the context things stand: what the engine reads and writes, by literal path. */
module ContextLaws {
  import opened Wrappers
  import opened Json
  import opened FlowGraph
  import opened FlowRun
  import opened FlowConditions
  import opened FlowState
  import opened FlowContext
  import opened FlowActions
  import opened FlowCodes
  import opened FlowPasskeys
  import opened ConditionLaws
  import UserStore
  import WebAuthnStore

  // ------------------------------------------------------------- reading

  lemma TextIff(host: Host, v: Json, text: string)
    ensures AsText(host, v) == text <==> Reads(host, v, text)
  {
  }

  /** What was typed into a field of the form. */
  ghost predicate Typed(host: Host, ctx: Json, field: string, text: string) {
    Reads(host, GetPath(ctx, ["form", field]), text)
  }

  lemma TypedIs(host: Host, ctx: Json, field: string, text: string)
    ensures Typed(host, ctx, field, text) <==> AsText(host, Child(Child(ctx, "form"), field)) == text
  {
    ReadTwo(ctx, "form", field);
    TextIff(host, GetPath(ctx, ["form", field]), text);
  }

  /** The identifier and the code are trimmed, passwords and names taken as they are typed. */
  lemma FormReads(host: Host, ctx: Json, text: string)
    ensures Typed(host, ctx, "email", text) ==> LoginId(host, ctx) == host.trim(text)
    ensures Typed(host, ctx, "code", text) ==> TypedCode(host, ctx) == host.trim(text)
    ensures Typed(host, ctx, "password", text) ==> TypedPassword(host, ctx) == text
    ensures Typed(host, ctx, "fullName", text) ==> FullName(host, ctx) == text
  {
    hide Typed;
    TypedIs(host, ctx, "email", text);
    TypedIs(host, ctx, "code", text);
    TypedIs(host, ctx, "password", text);
    TypedIs(host, ctx, "fullName", text);
  }

  /** Of the two fields for a new password the first that is not empty counts. */
  lemma NewPasswordReads(host: Host, ctx: Json, free: string, other: string)
    requires Typed(host, ctx, "newPassword_noPolicyOverrides", free) && Typed(host, ctx, "newPassword", other)
    ensures NewPassword(host, ctx) == if free != "" then free else other
  {
    hide Typed;
    TypedIs(host, ctx, "newPassword_noPolicyOverrides", free);
    TypedIs(host, ctx, "newPassword", other);
  }

  /** Who is signed in, whose code is pending, which link, whether it was opened, and what was answered last. */
  lemma ContextReads(ctx: Json, user: string, token: string)
    ensures AuthUser(ctx) == Some(user) <==> GetPath(ctx, ["auth", "userId"]) == Str(user)
    ensures PendingCode(ctx) == Some(user) <==> GetPath(ctx, ["pending", "code", "userId"]) == Str(user)
    ensures PendingLink(ctx) == Some(Link(token, user))
       <==> GetPath(ctx, ["pending", "magicLink"]).Obj?
            && GetPath(ctx, ["pending", "magicLink", "token"]) == Str(token)
            && GetPath(ctx, ["pending", "magicLink", "userId"]) == Str(user)
    ensures Verified(ctx) <==> GetPath(ctx, ["pending", "magicLink", "verified"]) == Bool(true)
    ensures LastEnvelope(ctx) == GetPath(ctx, ["lastEnvelope"])
    ensures PendingPasskey(ctx) == GetPath(ctx, ["pending", "passkey", "transactionId"])
  {
    ReadTwo(ctx, "auth", "userId");
    ReadThree(ctx, "pending", "code", "userId");
    ReadTwo(ctx, "pending", "magicLink");
    ReadThree(ctx, "pending", "magicLink", "token");
    ReadThree(ctx, "pending", "magicLink", "userId");
    ReadThree(ctx, "pending", "magicLink", "verified");
    ReadOne(ctx, "lastEnvelope");
    ReadThree(ctx, "pending", "passkey", "transactionId");
  }

  /** An argument of a task, read from the context or filled in as a template. */
  lemma ArgumentReads(host: Host, task: Task, name: string, ctx: Json, v: Json, text: string)
    requires StandsFor(host, GetPath(task.arguments, [name]), ctx, v) && Reads(host, v, text)
    ensures ArgumentText(host, task, name, ctx) == text
  {
    hide StandsFor, Reads;
    ReadOne(task.arguments, name);
    Resolved(host, Child(task.arguments, name), ctx, v);
    TextIff(host, v, text);
  }

  // -------------------------------------------------------------- writing

  /** Below the top-level keys named, anything may differ; nothing else does. */
  ghost predicate OnlyUnder(a: Json, b: Json, keys: set<string>) {
    forall q: seq<string> | q != [] && q[0] !in keys :: Lookup(b, q) == Lookup(a, q)
  }

  lemma KeysOnly(a: Json, b: Json, keys: set<string>)
    requires a.Obj? && b.Obj? && b.fields - keys == a.fields - keys
    ensures OnlyUnder(a, b, keys)
  {
    forall q: seq<string> | q != [] && q[0] !in keys ensures Lookup(b, q) == Lookup(a, q) {
      assert q[0] in a.fields <==> q[0] in a.fields - keys;
      assert q[0] in b.fields <==> q[0] in b.fields - keys;
      if q[0] in a.fields {
        assert (a.fields - keys)[q[0]] == (b.fields - keys)[q[0]];
      }
    }
  }

  /** `user` became the signed-in one, by this method, first seen or not, and nothing else changed in the run. */
  ghost predicate BecameSignedIn(a: RunView, b: RunView, user: string, how: string, firstSeen: bool) {
    && b == a.(ctx := b.ctx, history := b.history)
    && GetPath(b.ctx, ["auth"])
       == Obj(map["userId" := Str(user), "method" := Str(how), "firstSeen" := Bool(firstSeen)])
    && OnlyUnder(a.ctx, b.ctx, {"auth"})
  }

  lemma SignedInWrites(a: Snapshot, t: Stores, user: string, how: string, firstSeen: bool, evidence: Evidence)
    requires a.view.ctx.Obj?
    ensures BecameSignedIn(a.view, SignedInView(a, t, user, how, firstSeen, evidence), user, how, firstSeen)
  {
    var b := SignedInView(a, t, user, how, firstSeen, evidence);
    ReadOne(b.ctx, "auth");
    assert b.ctx.fields - {"auth"} == a.view.ctx.fields - {"auth"};
    KeysOnly(a.view.ctx, b.ctx, {"auth"});
  }

  // -------------------------------------------------------- whom it is for

  /** The signed-in user; only without one whoever the identifier typed loads, if anybody. */
  ghost predicate ActsFor(host: Host, users: UserStore.Users, ctx: Json, typed: string, target: Option<string>) {
    var signedIn := GetPath(ctx, ["auth", "userId"]);
    if signedIn.Str? then target == Some(signedIn.s)
    else
      || (target.None? && UserStore.LoadsAs(users, host.lower, host.trim(typed), Err(UserNotFound)))
      || exists u: UserStore.User ::
           target == Some(u.userId) && UserStore.LoadsAs(users, host.lower, host.trim(typed), Ok(u))
  }

  lemma LoadErrs(users: UserStore.Users, lower: string -> string, text: string, r: Result<UserStore.User, StoreError>)
    requires UserStore.LoadsAs(users, lower, text, r) && r.Err?
    ensures r == Err(UserNotFound)
  {
  }

  lemma TargetReads(host: Host, users: UserStore.Users, ctx: Json, typed: string, target: Option<string>)
    requires Targets(host, users, ctx, target) && Typed(host, ctx, "email", typed)
    ensures ActsFor(host, users, ctx, typed, target)
  {
    hide UserStore.LoadsAs, Typed;
    FormReads(host, ctx, typed);
    var signedIn := GetPath(ctx, ["auth", "userId"]);
    ReadTwo(ctx, "auth", "userId");
    if !signedIn.Str? {
      var found :| UserStore.LoadsAs(users, host.lower, LoginId(host, ctx), found) && target == IdOf(found);
      if found.Err? {
        LoadErrs(users, host.lower, LoginId(host, ctx), found);
      }
    }
  }

  // ---------------------------------------------------------- full context

  /** What conditions and screens see of a user, by field. */
  lemma ProjectedTexts(u: UserStore.User, hasPasskey: bool)
    ensures var p := ProjectUser(u, hasPasskey);
            && Child(p, "userId") == Str(u.userId) && Child(p, "status") == Str(u.status)
            && Child(p, "email") == Str(if u.email.Some? then u.email.value else "")
            && Child(p, "phone") == Str(if u.phone.Some? then u.phone.value else "")
            && Child(p, "name") == Str(if u.name.Some? then u.name.value else "")
  {
  }

  lemma ProjectedFlags(u: UserStore.User, hasPasskey: bool)
    ensures var p := ProjectUser(u, hasPasskey);
            && Child(p, "verifiedEmail") == Bool(u.verifiedEmail) && Child(p, "verifiedPhone") == Bool(u.verifiedPhone)
            && Child(p, "webauthn") == Bool(hasPasskey) && Child(p, "password") == Bool(u.password)
            && Child(p, "customAttributes") == Obj(u.customAttributes)
  {
  }

  lemma ProjectedLists(u: UserStore.User, hasPasskey: bool)
    ensures var p := ProjectUser(u, hasPasskey);
            var loginIds, tenantIds := GetPath(p, ["loginIds"]), GetPath(p, ["tenantIds"]);
            && loginIds.Arr? && |loginIds.items| == |u.loginIds|
            && (forall i | 0 <= i < |u.loginIds| :: loginIds.items[i] == Str(u.loginIds[i]))
            && tenantIds.Arr? && |tenantIds.items| == |u.userTenants|
            && forall i | 0 <= i < |u.userTenants| :: tenantIds.items[i] == Str(u.userTenants[i].tenantId)
  {
    var p := ProjectUser(u, hasPasskey);
    ReadOne(p, "loginIds");
    ReadOne(p, "tenantIds");
  }

  /** A user as shown: projected, with the mark whether there is a passkey; or an empty object. */
  ghost predicate ShownAs(passkeys: WebAuthnStore.State, found: Result<UserStore.User, StoreError>, v: Json) {
    match found
    case Err(_) => v == Obj(map[])
    case Ok(u) => v == ProjectUser(u, u.userId in passkeys.credentials && passkeys.credentials[u.userId] != [])
  }

  /** The full context adds the signed-in user, the user the typed identifier loads, whether it is their first time, and
      whether the address signs in by SSO; everything else is as in the context. */
  lemma FullContextReads(scope: Scope, s: Stores, ctx: Json, full: Json, typed: string)
    requires IsFullContext(scope, s, ctx, full) && Typed(scope.host, ctx, "email", typed)
    ensures OnlyUnder(ctx, full, {"user", "unauthUser", "authInfo", "ssoEnabled"})
    ensures exists named :: UserStore.LoadsAs(s.users, scope.host.lower, scope.host.trim(typed), named)
                            && ShownAs(s.passkeys, named, GetPath(full, ["unauthUser"]))
    ensures var id := GetPath(ctx, ["auth", "userId"]);
            ShownAs(s.passkeys, if id.Str? && id.s in s.users.byUserId then Ok(s.users.byUserId[id.s])
                                else Err(UserNotFound),
                    GetPath(full, ["user"]))
    ensures GetPath(full, ["authInfo", "user"]) == GetPath(full, ["user"])
    ensures GetPath(full, ["authInfo", "firstSeen"]) == Bool(GetPath(ctx, ["auth", "firstSeen"]) == Bool(true))
    ensures GetPath(full, ["ssoEnabled"])
            == Bool('@' in scope.host.trim(typed) && scope.moment.usesSso(scope.host.trim(typed)))
  {
    hide UserStore.LoadsAs, Typed, ProjectUser;
    FormReads(scope.host, ctx, typed);
    var named :| UserStore.LoadsAs(s.users, scope.host.lower, LoginId(scope.host, ctx), named)
      && full == WithLiveParts(ctx, ProjectionOf(s.passkeys, UserStore.Fetched(s.users, AuthUser(ctx))),
                               ProjectionOf(s.passkeys, named), SsoEnabled(scope, ctx));
    FullFields(scope, ctx, full, ProjectionOf(s.passkeys, UserStore.Fetched(s.users, AuthUser(ctx))),
               ProjectionOf(s.passkeys, named));
    ReadTwo(ctx, "auth", "userId");
  }

  lemma FullFields(scope: Scope, ctx: Json, full: Json, user: Json, unauthUser: Json)
    requires ctx.Obj? && full == WithLiveParts(ctx, user, unauthUser, SsoEnabled(scope, ctx))
    ensures OnlyUnder(ctx, full, {"user", "unauthUser", "authInfo", "ssoEnabled"})
    ensures GetPath(full, ["user"]) == user && GetPath(full, ["unauthUser"]) == unauthUser
    ensures GetPath(full, ["authInfo", "user"]) == user
    ensures GetPath(full, ["authInfo", "firstSeen"]) == Bool(GetPath(ctx, ["auth", "firstSeen"]) == Bool(true))
    ensures GetPath(full, ["ssoEnabled"])
            == Bool('@' in LoginId(scope.host, ctx) && scope.moment.usesSso(LoginId(scope.host, ctx)))
  {
    hide LoginId;
    var keys := {"user", "unauthUser", "authInfo", "ssoEnabled"};
    assert full.fields - keys == ctx.fields - keys;
    KeysOnly(ctx, full, keys);
    ReadOne(full, "user");
    ReadOne(full, "unauthUser");
    ReadTwo(full, "authInfo", "user");
    ReadTwo(full, "authInfo", "firstSeen");
    ReadTwo(ctx, "auth", "firstSeen");
    ReadOne(full, "ssoEnabled");
  }

  // -------------------------------------------------- screens and answers

  lemma EnvelopeReads(id: string, step: string, status: string)
    ensures var env := Envelope(id, step, status);
            && Child(env, "executionId") == Str(id) && Child(env, "stepId") == Str(step)
            && Child(env, "status") == Str(status) && Child(env, "action") == Str("")
            && Child(env, "error") == Null && Child(env, "screen") == Null
  {
  }

  lemma FailureReads(id: string, code: string, description: string)
    ensures var env := FailedEnvelope(id, code, description);
            && Child(env, "executionId") == Str(id) && Child(env, "status") == Str("failed")
            && GetPath(env, ["error", "errorCode"]) == Str(code)
            && GetPath(env, ["error", "errorDescription"]) == Str(description)
            && GetPath(env, ["error", "errorMessage"]) == Str(description)
  {
    var env := FailedEnvelope(id, code, description);
    ReadTwo(env, "error", "errorCode");
    ReadTwo(env, "error", "errorDescription");
    ReadTwo(env, "error", "errorMessage");
  }

  /** What a screen's state starts from. */
  lemma PlainStateReads(ctx: Json, full: Json)
    ensures var plain := PlainScreenState(ctx, full);
            && Child(plain, "form") == GetPath(ctx, ["form"]) && Child(plain, "inputs") == GetPath(ctx, ["form"])
            && Child(plain, "sentTo") == GetPath(ctx, ["sentTo"]) && Child(plain, "user") == GetPath(full, ["user"])
            && Child(plain, "project") == Obj(map["name" := Str("local")])
            && Child(plain, "componentsConfig")
               == Obj(map["samlGroupMappings" := Obj(map[]), "ssoApplications" := Obj(map[]),
                          "thirdPartyAppApproveScopes" := Obj(map[]), "userRoles" := Obj(map[]),
                          "userSelectedTenant" := Obj(map[])])
  {
    ReadOne(ctx, "form");
    ReadOne(ctx, "sentTo");
    ReadOne(full, "user");
  }

  /** Where no key a screen asks for reaches, its state stays. */
  lemma {:induction false} KeysKeep(screenState: Json, full: Json, keys: seq<string>, q: seq<string>)
    requires screenState.Obj? && forall i | 0 <= i < |keys| :: Diverge(SplitDots(keys[i]), q)
    ensures Lookup(WithKeys(screenState, full, keys), q) == Lookup(screenState, q)
  {
    if keys != [] {
      var n := |keys| - 1;
      KeysKeep(screenState, full, keys[..n], q);
      var path := SplitDots(keys[n]);
      WriteKeepsDiverging(WithKeys(screenState, full, keys[..n]), path, q, GetPath(full, path));
    }
  }

  /** A key it asks for reads as in the full context, unless a later key reaches the same place. */
  lemma {:induction false} KeyShown(screenState: Json, full: Json, keys: seq<string>, i: nat)
    requires screenState.Obj? && i < |keys|
    requires forall j | i < j < |keys| :: Diverge(SplitDots(keys[j]), SplitDots(keys[i]))
    ensures Lookup(WithKeys(screenState, full, keys), SplitDots(keys[i])) == Some(GetPath(full, SplitDots(keys[i])))
  {
    var n := |keys| - 1;
    var path, last := SplitDots(keys[i]), SplitDots(keys[n]);
    var before := WithKeys(screenState, full, keys[..n]);
    if i == n {
      ReadBelowWritten(before, path, [], GetPath(full, path));
      assert path + [] == path;
    } else {
      KeyShown(screenState, full, keys[..n], i);
      WriteKeepsDiverging(before, last, path, GetPath(full, last));
    }
  }

  /** A screen's answer: it waits at the screen's task in this run, names the screen, and carries the state with the
      keys asked for and the error. */
  lemma ScreenReads(scope: Scope, task: Task, ctx: Json, full: Json, error: Option<string>)
    ensures var env := ScreenFor(scope, task, ctx, full, error);
            && Child(env, "executionId") == Str(scope.id) && Child(env, "stepId") == Str(task.id)
            && Child(env, "status") == Str("waiting") && Child(env, "stepName") == task.name
            && Child(Child(env, "screen"), "id") == Str(scope.def.id + "/" + task.screenId)
            && var shown := Child(Child(env, "screen"), "state");
            var drawn := WithKeys(PlainScreenState(ctx, full), full, task.contextKeys);
            && (error.None? ==> shown == drawn)
            && (error.Some? ==> OnlyUnder(drawn, shown, {"errorText", "errorType"})
                                && Child(shown, "errorText") == Str(error.value)
                                && Child(shown, "errorType") == Str("error"))
  {
    hide WithKeys, PlainScreenState;
    var drawn := WithKeys(PlainScreenState(ctx, full), full, task.contextKeys);
    var shown := WithError(drawn, error);
    if error.Some? {
      assert shown.fields - {"errorText", "errorType"} == drawn.fields - {"errorText", "errorType"};
      KeysOnly(drawn, shown, {"errorText", "errorType"});
    }
    ScreenOfReads(scope, task, shown);
  }

  lemma ScreenOfReads(scope: Scope, task: Task, shown: Json)
    ensures var env := ScreenOf(scope, task, shown);
            && Child(env, "executionId") == Str(scope.id) && Child(env, "stepName") == task.name
            && Child(Child(env, "screen"), "id") == Str(scope.def.id + "/" + task.screenId)
            && Child(Child(env, "screen"), "state") == shown
  {
    EnvelopeReads(scope.id, task.id, "waiting");
  }
}
