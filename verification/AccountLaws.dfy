/** The actions on accounts, spelled out: risk, properties, passwords and the login. */
module AccountLaws {
  import opened Wrappers
  import opened Json
  import opened FlowGraph
  import opened FlowRun
  import opened FlowConditions
  import opened FlowState
  import opened FlowContext
  import opened FlowActions
  import opened FlowSso
  import opened ConditionLaws
  import opened ContextLaws
  import FlowStore
  import Lockout
  import UserStore

  // ------------------------------------------------------------- refusals

  /** A flow that has a rule for this refusal takes it; otherwise the screen says so. */
  ghost predicate RefusedWith(task: Task, interaction: string, text: string, o: Outcome) {
    if Follow(task, interaction).Some? then o == Interaction(interaction) else o == ScreenError(text)
  }

  // ----------------------------------------------------------------- risk

  /** The score goes under `riskInfo`, and nothing else happens. */
  lemma RiskNoted(a: Snapshot, b: Snapshot, o: Outcome)
    requires RiskTaken(a, b, o)
    ensures o == Interaction("success") && b.stores == a.stores && b.view == a.view.(ctx := b.view.ctx)
    ensures OnlyUnder(a.view.ctx, b.view.ctx, {"riskInfo"})
    ensures GetPath(b.view.ctx, ["riskInfo", "riskScore"]).Number?
  {
    var score :| b == a.(view := a.view.(ctx := WithRisk(a.view.ctx, score)));
    RiskReads(a.view.ctx, score);
  }

  lemma RiskReads(ctx: Json, score: real)
    requires ctx.Obj?
    ensures GetPath(WithRisk(ctx, score), ["riskInfo", "riskScore"]) == Number(score)
    ensures OnlyUnder(ctx, WithRisk(ctx, score), {"riskInfo"})
  {
    ReadTwo(WithRisk(ctx, score), "riskInfo", "riskScore");
    assert WithRisk(ctx, score).fields - {"riskInfo"} == ctx.fields - {"riskInfo"};
    KeysOnly(ctx, WithRisk(ctx, score), {"riskInfo"});
  }

  /** The login ids looked up: the signed-in user's, then the email; what was typed, if nobody stored is signed in. */
  lemma WhoseScore(host: Host, users: UserStore.Users, ctx: Json, typed: string)
    requires Typed(host, ctx, "email", typed)
    ensures var id := GetPath(ctx, ["auth", "userId"]);
            KnownLoginIds(host, users, ctx)
            == if id.Str? && id.s in users.byUserId then
                 users.byUserId[id.s].loginIds
                 + (if users.byUserId[id.s].email.Some? then [users.byUserId[id.s].email.value] else [])
               else [host.trim(typed)]
  {
    hide Typed;
    FormReads(host, ctx, typed);
    ReadTwo(ctx, "auth", "userId");
  }

  /** The first login id with a score counts; without any, the default; without one, zero. */
  lemma {:induction false} FirstScoreCounts(scores: map<string, real>, default: Option<real>, lower: string -> string,
                                            loginIds: seq<string>, i: nat)
    requires i <= |loginIds| && forall j | 0 <= j < i :: lower(loginIds[j]) !in scores
    requires i < |loginIds| ==> lower(loginIds[i]) in scores
    ensures FlowStore.ScoreOf(scores, default, lower, loginIds)
            == if i < |loginIds| then scores[lower(loginIds[i])] else if default.Some? then default.value else 0.0
  {
    if loginIds != [] && i > 0 {
      FirstScoreCounts(scores, default, lower, loginIds[1..], i - 1);
    }
  }

  // ----------------------------------------------------------- properties

  /** A definition of a property: its key, and its value as it stands, or filled in, or read from the context. */
  ghost predicate Defines(host: Host, definition: Json, ctx: Json, key: string, value: Json) {
    var kind, given := GetPath(definition, ["type"]), GetPath(definition, ["value"]);
    && GetPath(definition, ["key"]) == Str(key)
    && if kind == Str("context") then given.Str? && value == GetPath(ctx, SplitDots(given.s))
       else if kind == Str("inline") && given.Str? then value == Str(host.render(given.s, ctx))
       else value == given
  }

  lemma DefinedValue(host: Host, definition: Json, ctx: Json, key: string, value: Json)
    requires Defines(host, definition, ctx, key, value)
    ensures Child(definition, "key") == Str(key)
    ensures var kind := Child(definition, "type");
            value == if kind == Str("inline") || kind == Str("context") then ResolveValue(host, definition, ctx)
                     else Child(definition, "value")
  {
    ReadOne(definition, "key");
    ReadOne(definition, "type");
    ReadOne(definition, "value");
  }

  /** Where a property of the user's own goes. */
  lemma PropertyGoes(host: Host, u: UserStore.User, definition: Json, ctx: Json, key: string, value: Json, text: string)
    requires Defines(host, definition, ctx, key, value) && Reads(host, value, text)
    requires !("customAttributes." <= key)
    ensures WithProperty(host, u, definition, ctx)
            == if key in {"displayName", "name"} then u.(name := Some(text))
               else if key == "givenName" then u.(givenName := Some(text))
               else if key == "familyName" then u.(familyName := Some(text)) else u
  {
    hide Reads, ResolveValue, AsText, Defines;
    DefinedValue(host, definition, ctx, key, value);
    TextIff(host, value, text);
    KeyIsText(host, key);
  }

  /** Where a custom attribute goes. */
  lemma AttributeGoes(host: Host, u: UserStore.User, definition: Json, ctx: Json, name: string, value: Json)
    requires Defines(host, definition, ctx, "customAttributes." + name, value)
    ensures WithProperty(host, u, definition, ctx) == u.(customAttributes := u.customAttributes[name := value])
  {
    hide ResolveValue, AsText, Defines;
    var key := "customAttributes." + name;
    DefinedValue(host, definition, ctx, key, value);
    KeyIsText(host, key);
    assert "customAttributes." <= key && key[17..] == name;
  }

  lemma KeyIsText(host: Host, key: string)
    ensures AsText(host, Str(key)) == key
  {
  }

  /** The task's own list counts if it is not empty; otherwise the full name typed, if there is one. */
  lemma WhichProperties(task: Task, ctx: Json)
    ensures var given, name := GetPath(task.arguments, ["userPropertiesDefinitions", "value"]),
            GetPath(ctx, ["form", "fullName"]);
            && (given.Arr? && given.items != [] ==> Definitions(task, ctx) == given.items)
            && (!(given.Arr? && given.items != []) && name.Str? ==>
                  Definitions(task, ctx)
                  == [Obj(map["key" := Str("displayName"), "type" := Str("string"), "value" := name])])
            && (!(given.Arr? && given.items != []) && !name.Str? ==> Definitions(task, ctx) == [])
  {
    ReadTwo(ctx, "form", "fullName");
  }

  lemma OnePropertyMore(host: Host, u: UserStore.User, definitions: seq<Json>, definition: Json, ctx: Json)
    ensures WithProperties(host, u, [], ctx) == u
    ensures WithProperties(host, u, definitions + [definition], ctx)
            == WithProperty(host, WithProperties(host, u, definitions, ctx), definition, ctx)
  {
    assert (definitions + [definition])[..|definitions|] == definitions;
  }

  /** The target's record alone changes. */
  lemma PropertiesStoredFor(scope: Scope, task: Task, a: Snapshot, b: Snapshot, o: Outcome, typed: string)
    returns (target: Option<string>, full: Json)
    requires PropertiesUpdated(scope, task, a, b, o) && Typed(scope.host, a.view.ctx, "email", typed)
    ensures ActsFor(scope.host, a.stores.users, a.view.ctx, typed, target)
    ensures o == Interaction("success") && b.view == a.view && b.stores == a.stores.(users := b.stores.users)
    ensures if target.Some? && target.value in a.stores.users.byUserId then
              && IsFullContext(scope, a.stores, a.view.ctx, full)
              && b.stores.users
                 == a.stores.users.(byUserId := a.stores.users.byUserId[target.value :=
                      WithProperties(scope.host, a.stores.users.byUserId[target.value],
                                     Definitions(task, a.view.ctx), full)])
            else b.stores.users == a.stores.users
  {
    hide Typed, Definitions, WithProperties, IsFullContext, Targets;
    target, full :|
      && Targets(scope.host, a.stores.users, a.view.ctx, target)
      && (target.Some? ==> IsFullContext(scope, a.stores, a.view.ctx, full))
      && b.stores == a.stores.(users := PropertiesStored(scope.host, a.stores.users, target,
                                                         Definitions(task, a.view.ctx), full));
    TargetReads(scope.host, a.stores.users, a.view.ctx, typed, target);
  }

  // ------------------------------------------------------------ passwords

  /** The account the text loads, enabled and with a hash this password verifies against. */
  ghost predicate OpensWith(host: Host, users: UserStore.Users, loginId: string, password: string, u: UserStore.User) {
    && UserStore.LoadsAs(users, host.lower, loginId, Ok(u))
    && u.status != "disabled" && u.passwordHash.Some? && host.bcryptVerify(password, u.passwordHash.value)
  }

  /** The typed password signs in the account it opens, and nobody else; or the run stays, with a refusal. */
  lemma WhomAPasswordSignsIn(scope: Scope, task: Task, a: Snapshot, b: Snapshot, o: Outcome, email: string,
                             password: string)
    requires PasswordTried(scope, task, a, b, o)
    requires Typed(scope.host, a.view.ctx, "email", email) && Typed(scope.host, a.view.ctx, "password", password)
    ensures b.stores == a.stores
    ensures if o == Interaction("success") then
              && scope.moment.passwordEnabled
              && exists u :: OpensWith(scope.host, a.stores.users, scope.host.trim(email), password, u)
                             && BecameSignedIn(a.view, b.view, u.userId, "pwd", false)
            else
              && b.view == a.view
              && (o == ScreenError("Incorrect email, username or password.")
                  || RefusedWith(task, "UserDoesNotExists", "Incorrect email, username or password.", o))
  {
    hide Typed, Follow, BecameSignedIn, UserStore.LoadsAs;
    FormReads(scope.host, a.view.ctx, email);
    FormReads(scope.host, a.view.ctx, password);
    if o == SUCCESS {
      var found :|
        && UserStore.LoadsAs(a.stores.users, scope.host.lower, LoginId(scope.host, a.view.ctx), found)
        && if Opens(scope.host, found, TypedPassword(scope.host, a.view.ctx))
           then o == SUCCESS && b.view == PasswordView(scope.host, a, found.value.userId)
           else o == Refusal(found, task) && b.view == a.view;
      SignedInWrites(a, a.stores, found.value.userId, "pwd", false,
                     PasswordAccepted(LoginId(scope.host, a.view.ctx), TypedPassword(scope.host, a.view.ctx)));
      assert OpensWith(scope.host, a.stores.users, scope.host.trim(email), password, found.value);
    }
  }

  /** With password sign-in on and the login id not locked, a try succeeds exactly with the right password of an enabled
      account, and leaves one note; otherwise it is refused unseen, and leaves none. */
  lemma WhatATryComesTo(host: Host, moment: Moment, users: UserStore.Users, notes: map<string, seq<Lockout.Event>>,
                        notes': map<string, seq<Lockout.Event>>, loginId: string, password: string, task: Task,
                        found: Result<UserStore.User, StoreError>, accepted: Option<UserStore.User>, refusal: Outcome)
    requires Checked(host, moment, users, notes, notes', loginId, password, task, found, accepted, refusal)
    ensures var before := if loginId in notes then notes[loginId] else [];
            if moment.passwordEnabled && !Lockout.LockedOut(Lockout.Stored(before), moment.now) then
              && UserStore.LoadsAs(users, host.lower, loginId, found)
              && (accepted.Some? <==> found.Ok? && OpensWith(host, users, loginId, password, found.value))
              && (accepted.Some? ==> accepted.value == found.value)
              && notes' == notes[loginId := before + [if accepted.Some? then Lockout.Clear(moment.now)
                                                      else Lockout.Failure(moment.now)]]
              && (found.Err? || found.value.passwordHash.None? ==>
                    RefusedWith(task, "UserDoesNotExists", "Incorrect email, username or password.", refusal))
              && (found.Ok? && found.value.passwordHash.Some? ==>
                    refusal == ScreenError("Incorrect email, username or password."))
            else
              accepted.None? && notes' == notes && refusal == ScreenError("Incorrect email, username or password.")
  {
    hide Follow, UserStore.LoadsAs, Lockout.Stored, Lockout.LockedOut;
  }

  /** The stored user has the password now, hashed, and everybody else is as before; or nothing changed. */
  ghost predicate SavesPassword(host: Host, users: UserStore.Users, users': UserStore.Users, userId: string,
                                password: string, o: Outcome)
  {
    if host.bcryptHash(password).Some? && userId in users.byUserId then
      && o == Interaction("success")
      && users' == users.(byUserId := users.byUserId[userId :=
                            users.byUserId[userId].(passwordHash := host.bcryptHash(password), password := true)])
    else o == ScreenError("The password could not be saved.") && users' == users
  }

  /** A replacement is for the target, signs the target in unless somebody is, and does so whether or not it was
      saved. */
  lemma WhomAReplacementSignsIn(scope: Scope, a: Snapshot, b: Snapshot, o: Outcome, email: string, free: string,
                                other: string) returns (target: Option<string>)
    requires PasswordReset(scope, a, b, o) && Typed(scope.host, a.view.ctx, "email", email)
    requires Typed(scope.host, a.view.ctx, "newPassword_noPolicyOverrides", free)
    requires Typed(scope.host, a.view.ctx, "newPassword", other)
    ensures ActsFor(scope.host, a.stores.users, a.view.ctx, email, target)
    ensures b.stores == a.stores.(users := b.stores.users)
    ensures target.None? ==> b == a && o == ScreenError("Incorrect email, username or password.")
    ensures target.Some? ==>
              && SavesPassword(scope.host, a.stores.users, b.stores.users, target.value,
                               if free != "" then free else other, o)
              && if GetPath(a.view.ctx, ["auth", "userId"]).Str? then b.view == a.view
                 else BecameSignedIn(a.view, b.view, target.value, "pwd", false)
  {
    hide Typed, ActsFor, Targets, BecameSignedIn;
    target :|
      && Targets(scope.host, a.stores.users, a.view.ctx, target)
      && if target.None? then o == ScreenError(PASSWORD_REFUSED) && b == a
         else
           && PasswordSaved(scope.host, a.stores.users, b.stores.users, target.value,
                            NewPassword(scope.host, a.view.ctx), o)
           && b.view == if AuthUser(a.view.ctx).Some? then a.view
                        else ReplacedView(scope.host, a, b.stores, target.value, o == SUCCESS);
    TargetReads(scope.host, a.stores.users, a.view.ctx, email, target);
    NewPasswordReads(scope.host, a.view.ctx, free, other);
    ReadTwo(a.view.ctx, "auth", "userId");
    if target.Some? {
      SignedInWrites(a, b.stores, target.value, "pwd", false,
                     PasswordReplaced(LoginId(scope.host, a.view.ctx), o == SUCCESS));
    }
  }

  /** An update is for the signed-in user only, and leaves the run. */
  lemma WhoseUpdate(scope: Scope, a: Snapshot, b: Snapshot, o: Outcome, free: string, other: string)
    requires PasswordChanged(scope, a, b, o)
    requires Typed(scope.host, a.view.ctx, "newPassword_noPolicyOverrides", free)
    requires Typed(scope.host, a.view.ctx, "newPassword", other)
    ensures b.view == a.view && b.stores == a.stores.(users := b.stores.users)
    ensures var id := GetPath(a.view.ctx, ["auth", "userId"]);
            if id.Str? then SavesPassword(scope.host, a.stores.users, b.stores.users, id.s,
                                          if free != "" then free else other, o)
            else o == ScreenError("Sign in before you set a password.") && b == a
  {
    hide Typed;
    NewPasswordReads(scope.host, a.view.ctx, free, other);
    ReadTwo(a.view.ctx, "auth", "userId");
  }

  // ---------------------------------------------------------------- login

  /** Why a login is refused, in this order, or the session it is for. */
  ghost predicate LoginComesTo(host: Host, users: UserStore.Users, ctx: Json, how: string, r: Result<Json, Outcome>) {
    var id := GetPath(ctx, ["auth", "userId"]);
    if !id.Str? then r == Err(Fail("E102106", "The flow ended without signing anyone in"))
    else if id.s !in users.byUserId then r == Err(Fail("E112102", "User not found"))
    else if users.byUserId[id.s].status == "disabled" then r == Err(Fail("E011006", "User is disabled"))
    else
      var session := host.authInfo(users.byUserId[id.s], if how == "" then "pwd" else how,
                                   GetPath(ctx, ["auth", "firstSeen"]) == Bool(true));
      if session.None? then r == Err(Fail("E000000", "The session could not be signed")) else r == Ok(session.value)
  }

  lemma LoginReads(host: Host, users: UserStore.Users, ctx: Json, how: string)
    requires Reads(host, GetPath(ctx, ["auth", "method"]), how)
    ensures LoginComesTo(host, users, ctx, how, LoginOf(host, users, ctx))
  {
    hide Reads, AsText;
    ReadTwo(ctx, "auth", "userId");
    ReadTwo(ctx, "auth", "method");
    ReadTwo(ctx, "auth", "firstSeen");
    TextIff(host, GetPath(ctx, ["auth", "method"]), how);
  }

  lemma SessionReads(id: string, taskId: string, session: Json)
    ensures var env := CompletedEnvelope(id, taskId, session);
            && Child(env, "status") == Str("completed") && Child(env, "executionId") == Str(id)
            && Child(env, "stepId") == Str(taskId) && Child(env, "authInfo") == session
  {
    EnvelopeReads(id, taskId, "completed");
  }

  /** A login hands out the session of the signed-in user under the method it was by, notes the time with the user, and
      changes nothing else; a refused one changes nothing. */
  lemma WhatALoginDoes(scope: Scope, a: Snapshot, b: Snapshot, o: Outcome, how: string)
    returns (r: Result<Json, Outcome>)
    requires LoginDone(scope, a, b, o) && Reads(scope.host, GetPath(a.view.ctx, ["auth", "method"]), how)
    ensures LoginComesTo(scope.host, a.stores.users, a.view.ctx, how, r)
    ensures r.Err? ==> o == r.error && b == a
    ensures r.Ok? ==>
              && var id, users := GetPath(a.view.ctx, ["auth", "userId"]), a.stores.users.byUserId;
              && o.Done? && Child(o.envelope, "status") == Str("completed") && Child(o.envelope, "authInfo") == r.value
              && Child(o.envelope, "executionId") == Str(scope.id) && Child(o.envelope, "stepId") == Str(a.view.taskId)
              && id.Str? && id.s in users && b.view == a.view.(history := b.view.history)
              && b.stores == a.stores.(users := a.stores.users.(byUserId :=
                   users[id.s := users[id.s].(lastLogin := Some(scope.moment.now))]))
  {
    hide Reads, LoginComesTo, CompletedEnvelope, SessionFor;
    r := LoginOf(scope.host, a.stores.users, a.view.ctx);
    LoginReads(scope.host, a.stores.users, a.view.ctx, how);
    ReadTwo(a.view.ctx, "auth", "userId");
    if r.Ok? {
      SessionReads(scope.id, a.view.taskId, r.value);
    }
  }
}
