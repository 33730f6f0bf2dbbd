/** The actions of automated tasks: what each does to the run's context and to the stores. */
module FlowActions {
  import opened Wrappers
  import opened Json
  import opened FlowGraph
  import opened FlowRun
  import opened FlowConditions
  import opened FlowState
  import opened FlowContext
  import FlowStore
  import Lockout
  import UserStore

  const PASSWORD_REFUSED := "Incorrect email, username or password."
  const CODE_REFUSED := "Incorrect code. Check the code and try again."
  const NO_PASSKEY := "No passkey is registered for this user on this device."
  const PASSKEY_REFUSED := "The passkey could not be verified. Try again or sign in another way."
  const NO_ACCOUNT := "No account was found for this sign-in."
  const NOT_CREATED := "The account could not be created."
  const ACCOUNT_EXISTS := "An account already exists for this sign-in."
  const NOT_SAVED := "The password could not be saved."
  const PASSWORD_NEEDS_SIGN_IN := "Sign in before you set a password."
  const BIOMETRICS_NEED_SIGN_IN := "Sign in before you add biometrics."

  // --------------------------------------------------------------- risk

  /** Login ids and address of the user in the context; for nobody, what was typed. */
  function KnownLoginIds(host: Host, users: UserStore.Users, ctx: Json): seq<string> {
    var u := UserStore.Fetched(users, AuthUser(ctx));
    if u.Ok? then u.value.loginIds + (if u.value.email.Some? then [u.value.email.value] else [])
    else [LoginId(host, ctx)]
  }

  method ReadKnownLoginIds(state: EmulatorState, ctx: Json) returns (ids: seq<string>)
    ensures ids == KnownLoginIds(state.host, state.users.View(), ctx)
  {
    var u := SignedInUser(state, ctx);
    if u.Ok? {
      return u.value.loginIds + if u.value.email.Some? then [u.value.email.value] else [];
    }
    return [LoginId(state.host, ctx)];
  }

  function WithRisk(ctx: Json, score: real): (r: Json)
    requires ctx.Obj?
    ensures OnlyKey(ctx, r, "riskInfo")
  {
    With(ctx, "riskInfo", Obj(map["riskScore" := Number(score)]))
  }

  lemma RiskOk(a: Snapshot, score: real)
    requires Ready(a.view) && Open(a.view.history)
    ensures ActionOk(NoMeans, a, a.(view := a.view.(ctx := WithRisk(a.view.ctx, score))), SUCCESS)
  {
    var before, ctx := a.view, WithRisk(a.view.ctx, score);
    assert Child(ctx, "pending") == Child(before.ctx, "pending") && Child(ctx, "sentTo") == Child(before.ctx, "sentTo");
    assert Child(ctx, "auth") == Child(before.ctx, "auth")
           && Child(ctx, "screenTask") == Child(before.ctx, "screenTask");
    assert Child(ctx, "lastEnvelope") == Child(before.ctx, "lastEnvelope");
  }

  /** A score was noted in the context, and nothing else happened. */
  ghost predicate RiskTaken(a: Snapshot, b: Snapshot, o: Outcome) {
    a.view.ctx.Obj? && o == SUCCESS && exists score :: b == a.(view := a.view.(ctx := WithRisk(a.view.ctx, score)))
  }

  method Risk(state: EmulatorState, scope: Scope, run: Run) returns (o: Outcome)
    requires CanRun(state, scope, run)
    modifies run`ctx
    ensures state.Valid() && ActionOk(NoMeans, old(Snap(state, run)), Snap(state, run), o)
    ensures RiskTaken(old(Snap(state, run)), Snap(state, run), o)
    ensures run.ctx == WithRisk(old(run.ctx), FlowStore.ScoreOf(state.flows.riskScores, state.flows.defaultRiskScore,
                         state.host.lower, KnownLoginIds(state.host, old(state.users.View()), old(run.ctx))))
  {
    ghost var a := Snap(state, run);
    var ids := ReadKnownLoginIds(state, run.ctx);
    var score := state.flows.RiskScore(state.host.lower, ids);
    run.ctx := WithRisk(run.ctx, score);
    RiskOk(a, score);
    o := SUCCESS;
  }

  // -------------------------------------------------------- user properties

  /** One property definition applied to a user. */
  function WithProperty(host: Host, u: UserStore.User, definition: Json, ctx: Json): (r: UserStore.User)
    ensures r.userId == u.userId && r.loginIds == u.loginIds && r.status == u.status && r.passwordHash == u.passwordHash
  {
    var key := AsText(host, if Child(definition, "key").Str? then Child(definition, "key") else Null);
    var kind := Child(definition, "type");
    var value := if kind == Str("inline") || kind == Str("context") then ResolveValue(host, definition, ctx)
                 else Child(definition, "value");
    if "customAttributes." <= key then u.(customAttributes := u.customAttributes[key[17..] := value])
    else if key == "displayName" || key == "name" then u.(name := Some(AsText(host, value)))
    else if key == "givenName" then u.(givenName := Some(AsText(host, value)))
    else if key == "familyName" then u.(familyName := Some(AsText(host, value)))
    else u
  }

  /** The properties the task defines; without any, the full name the screen collected. */
  function Definitions(task: Task, ctx: Json): seq<Json> {
    var given := GetPath(task.arguments, ["userPropertiesDefinitions", "value"]);
    var name := Child(Child(ctx, "form"), "fullName");
    if given.Arr? && given.items != [] then given.items
    else if name.Str? then [Obj(map["key" := Str("displayName"), "type" := Str("string"), "value" := name])]
    else []
  }

  /** The definitions applied in order. */
  function WithProperties(host: Host, u: UserStore.User, definitions: seq<Json>, ctx: Json): (r: UserStore.User)
    ensures r.userId == u.userId && r.loginIds == u.loginIds && r.status == u.status && r.passwordHash == u.passwordHash
  {
    if definitions == [] then u
    else WithProperty(host, WithProperties(host, u, definitions[..|definitions| - 1], ctx),
                      definitions[|definitions| - 1], ctx)
  }

  method Apply(host: Host, u: UserStore.User, definitions: seq<Json>, ctx: Json) returns (user: UserStore.User)
    ensures user == WithProperties(host, u, definitions, ctx)
  {
    user := u;
    var i := 0;
    while i < |definitions|
      invariant 0 <= i <= |definitions|
      invariant user == WithProperties(host, u, definitions[..i], ctx)
    {
      assert definitions[..i + 1][..i] == definitions[..i];
      user := WithProperty(host, user, definitions[i], ctx);
      i := i + 1;
    }
    assert definitions[..i] == definitions;
  }

  /** The users after the target's properties were stored, if it is still stored. */
  function PropertiesStored(host: Host, users: UserStore.Users, target: Option<string>, definitions: seq<Json>,
                            full: Json): UserStore.Users
  {
    if target.Some? && target.value in users.byUserId
    then UserStore.WithUser(users, target.value, WithProperties(host, users.byUserId[target.value], definitions, full))
    else users
  }

  /** The task's properties were stored with the target, drawn from the full context; the run stayed as it was. */
  ghost predicate PropertiesUpdated(scope: Scope, task: Task, a: Snapshot, b: Snapshot, o: Outcome) {
    var ctx, users := a.view.ctx, a.stores.users;
    && o == SUCCESS && b.view == a.view
    && exists target, full ::
         && Targets(scope.host, users, ctx, target) && (target.Some? ==> IsFullContext(scope, a.stores, ctx, full))
         && b.stores == a.stores.(users := PropertiesStored(scope.host, users, target, Definitions(task, ctx), full))
  }

  method StoreProperties(state: EmulatorState, scope: Scope, ctx: Json, task: Task)
    returns (ghost target: Option<string>, ghost full: Json)
    requires ctx.Obj? && state.users.lower == state.host.lower && scope.host == state.host
    modifies state.users
    ensures Targets(state.host, old(state.users.View()), ctx, target)
    ensures target.Some? ==> IsFullContext(scope, old(state.Stores()), ctx, full)
    ensures state.users.View()
            == PropertiesStored(state.host, old(state.users.View()), target, Definitions(task, ctx), full)
  {
    full := Null;
    var userId := TargetUserId(state, ctx);
    target := userId;
    if userId.None? { return; }
    var live := FullContext(state, scope, ctx);
    full := live;
    var loaded := state.users.LoadByUserId(userId.value);
    if loaded.Err? { return; }
    var user := Apply(state.host, loaded.value, Definitions(task, ctx), live);
    state.users.Store(userId.value, user);
  }

  lemma PropertiesAre(scope: Scope, task: Task, a: Snapshot, t: Stores, target: Option<string>, full: Json)
    requires Targets(scope.host, a.stores.users, a.view.ctx, target)
    requires target.Some? ==> IsFullContext(scope, a.stores, a.view.ctx, full)
    requires t == a.stores.(users := PropertiesStored(scope.host, a.stores.users, target, Definitions(task, a.view.ctx),
                                                      full))
    ensures PropertiesUpdated(scope, task, a, Snapshot(t, a.view), SUCCESS)
  {
  }

  /** Stores the task's properties with the target user. */
  method UpdateUserProperties(state: EmulatorState, scope: Scope, run: Run, task: Task) returns (o: Outcome)
    requires CanRun(state, scope, run)
    modifies state.users
    ensures state.Valid() && ActionOk(NoMeans, old(Snap(state, run)), Snap(state, run), o)
    ensures PropertiesUpdated(scope, task, old(Snap(state, run)), Snap(state, run), o)
  {
    ghost var a := Snap(state, run);
    ghost var target, full := StoreProperties(state, scope, run.ctx, task);
    PropertiesAre(scope, task, a, state.Stores(), target, full);
    o := SUCCESS;
    UnchangedOk(NoMeans, a, state.Stores(), o);
  }

  // ------------------------------------------------------------- passwords

  /** The failures and clears recorded for a login id. */
  function NotesOf(notes: map<string, seq<Lockout.Event>>, loginId: string): seq<Lockout.Event> {
    if loginId in notes then notes[loginId] else []
  }

  function Noted(notes: map<string, seq<Lockout.Event>>, loginId: string, e: Lockout.Event)
    : map<string, seq<Lockout.Event>>
  {
    notes[loginId := NotesOf(notes, loginId) + [e]]
  }

  /** Password sign-in is on, and the login id is not locked out. */
  predicate MayTry(moment: Moment, notes: map<string, seq<Lockout.Event>>, loginId: string) {
    moment.passwordEnabled && !Lockout.LockedOut(Lockout.Stored(NotesOf(notes, loginId)), moment.now)
  }

  /** The password opens the account that was loaded. */
  predicate Opens(host: Host, found: Result<UserStore.User, StoreError>, password: string) {
    found.Ok? && found.value.passwordHash.Some? && host.bcryptVerify(password, found.value.passwordHash.value)
    && found.value.status != "disabled"
  }

  /** What a refused try shows: nothing tells a wrong password from a disabled account, but a flow may branch on there
      being none. */
  function Refusal(found: Result<UserStore.User, StoreError>, task: Task): (o: Outcome)
    ensures Plain(o) && o != SUCCESS
  {
    if found.Err? || found.value.passwordHash.None? then HandledError(task, "UserDoesNotExists", PASSWORD_REFUSED)
    else ScreenError(PASSWORD_REFUSED)
  }

  /** What a try with a password comes to: the account it opens, or the refusal. It leaves one note, a failure or a
      clear; without a try there is none. */
  ghost predicate Checked(host: Host, moment: Moment, users: UserStore.Users, notes: map<string, seq<Lockout.Event>>,
                          notes': map<string, seq<Lockout.Event>>, loginId: string, password: string, task: Task,
                          found: Result<UserStore.User, StoreError>, accepted: Option<UserStore.User>, refusal: Outcome)
  {
    if MayTry(moment, notes, loginId) then
      && UserStore.LoadsAs(users, host.lower, loginId, found)
      && accepted == (if Opens(host, found, password) then Some(found.value) else None)
      && refusal == Refusal(found, task)
      && notes' == Noted(notes, loginId, if accepted.Some? then Lockout.Clear(moment.now)
                                         else Lockout.Failure(moment.now))
    else accepted.None? && refusal == ScreenError(PASSWORD_REFUSED) && notes' == notes
  }

  method CheckPassword(state: EmulatorState, moment: Moment, loginId: string, password: string, task: Task)
    returns (accepted: Option<UserStore.User>, refusal: Outcome, ghost found: Result<UserStore.User, StoreError>)
    requires state.Valid()
    modifies state.lockouts
    ensures state.Valid() && Plain(refusal) && refusal != SUCCESS
    ensures Checked(state.host, moment, old(state.users.View()), old(state.lockouts.history), state.lockouts.history,
                    loginId, password, task,
                    found, accepted, refusal)
  {
    accepted, refusal, found := None, ScreenError(PASSWORD_REFUSED), Err(UserNotFound);
    if !moment.passwordEnabled {
      return;
    }
    var locked := state.lockouts.CheckNotLockedOut(loginId, moment.now);
    if locked.Err? {
      return;
    }
    var loaded, _ := state.users.Load(loginId);
    found := loaded;
    if loaded.Err? || loaded.value.passwordHash.None? {
      state.lockouts.RecordFailure(loginId, moment.now);
      refusal := HandledError(task, "UserDoesNotExists", PASSWORD_REFUSED);
      return;
    }
    var valid := state.host.bcryptVerify(password, loaded.value.passwordHash.value);
    if !valid || loaded.value.status == "disabled" {
      state.lockouts.RecordFailure(loginId, moment.now);
      return;
    }
    state.lockouts.ClearFailures(loginId, moment.now);
    accepted := Some(loaded.value);
  }

  function TypedPassword(host: Host, ctx: Json): string {
    AsText(host, Child(Child(ctx, "form"), "password"))
  }

  /** The run after the typed password signed `user` in. */
  function PasswordView(host: Host, a: Snapshot, user: string): RunView
    requires a.view.ctx.Obj?
  {
    SignedInView(a, a.stores, user, "pwd", false,
                 PasswordAccepted(LoginId(host, a.view.ctx), TypedPassword(host, a.view.ctx)))
  }

  /** A try with the typed password: none at all, or whom it opens signed in, or the refusal. The stores stay as they
      were. */
  ghost predicate PasswordTried(scope: Scope, task: Task, a: Snapshot, b: Snapshot, o: Outcome) {
    var host, ctx := scope.host, a.view.ctx;
    && ctx.Obj? && b.stores == a.stores
    && ((o == ScreenError(PASSWORD_REFUSED) && b.view == a.view)
        || (scope.moment.passwordEnabled && exists found ::
              && UserStore.LoadsAs(a.stores.users, host.lower, LoginId(host, ctx), found)
              && if Opens(host, found, TypedPassword(host, ctx))
                 then o == SUCCESS && b.view == PasswordView(host, a, found.value.userId)
                 else o == Refusal(found, task) && b.view == a.view))
  }

  /** What came of the typed password: whom it opened, or why nobody. */
  ghost predicate TypedOpens(scope: Scope, task: Task, s: Stores, ctx: Json, accepted: Option<UserStore.User>,
                             refusal: Outcome)
  {
    var host := scope.host;
    || (accepted.None? && refusal == ScreenError(PASSWORD_REFUSED))
    || (scope.moment.passwordEnabled && exists found ::
          && UserStore.LoadsAs(s.users, host.lower, LoginId(host, ctx), found)
          && accepted == (if Opens(host, found, TypedPassword(host, ctx)) then Some(found.value) else None)
          && refusal == Refusal(found, task))
  }

  lemma CheckedOpens(scope: Scope, task: Task, s: Stores, ctx: Json, notes: map<string, seq<Lockout.Event>>,
                     notes': map<string, seq<Lockout.Event>>, found: Result<UserStore.User, StoreError>,
                     accepted: Option<UserStore.User>, refusal: Outcome)
    requires Checked(scope.host, scope.moment, s.users, notes, notes', LoginId(scope.host, ctx),
                     TypedPassword(scope.host, ctx),
                     task, found, accepted, refusal)
    ensures TypedOpens(scope, task, s, ctx, accepted, refusal)
  {
  }

  lemma TriedAre(scope: Scope, task: Task, a: Snapshot, accepted: Option<UserStore.User>, refusal: Outcome)
    requires a.view.ctx.Obj? && TypedOpens(scope, task, a.stores, a.view.ctx, accepted, refusal)
    ensures if accepted.Some?
            then PasswordTried(scope, task, a, a.(view := PasswordView(scope.host, a, accepted.value.userId)), SUCCESS)
            else PasswordTried(scope, task, a, a, refusal)
  {
  }

  /** Tries the typed password: whom it opens, or the refusal. */
  method TryTyped(state: EmulatorState, scope: Scope, run: Run, task: Task)
    returns (accepted: Option<UserStore.User>, refusal: Outcome, ghost found: Result<UserStore.User, StoreError>)
    requires state.Valid() && run.ctx.Obj? && scope.host == state.host
    modifies state.lockouts
    ensures state.Valid() && Plain(refusal) && refusal != SUCCESS
    ensures Checked(state.host, scope.moment, old(state.users.View()), old(state.lockouts.history),
                    state.lockouts.history,
                    LoginId(state.host, run.ctx), TypedPassword(state.host, run.ctx), task, found, accepted, refusal)
    ensures if accepted.Some? then
              PasswordTried(scope, task, Snap(state, run),
                            Snap(state, run).(view := PasswordView(state.host, Snap(state, run),
                                                                   accepted.value.userId)), SUCCESS)
            else PasswordTried(scope, task, Snap(state, run), Snap(state, run), refusal)
  {
    ghost var notes := state.lockouts.history;
    var host, ctx := state.host, run.ctx;
    accepted, refusal, found := CheckPassword(state, scope.moment, LoginId(host, ctx), TypedPassword(host, ctx), task);
    CheckedOpens(scope, task, state.Stores(), ctx, notes, state.lockouts.history, found, accepted, refusal);
    TriedAre(scope, task, Snap(state, run), accepted, refusal);
  }

  /** Signs in the account the typed password opened, if it opened one. */
  method SignInTyped(host: Host, run: Run, user: Option<UserStore.User>, why: Outcome, ghost a: Snapshot)
    returns (o: Outcome)
    requires a.view == run.View() && Ready(a.view) && Open(a.view.history) && Plain(why)
    modifies run`ctx, run`history
    ensures o == (if user.Some? then SUCCESS else why) && ActionOk(ByPassword, a, Snapshot(a.stores, run.View()), o)
    ensures run.View() == if user.Some? then PasswordView(host, a, user.value.userId) else a.view
  {
    o := if user.Some? then SUCCESS else why;
    run.SignInSome(if user.Some? then Some(user.value.userId) else None, "pwd", false,
                   PasswordAccepted(LoginId(host, run.ctx), TypedPassword(host, run.ctx)), a, a.stores, o);
  }

  /** Signs in whom the typed password opens; otherwise the refusal, and the run stays as it is. */
  method PasswordSignIn(state: EmulatorState, scope: Scope, run: Run, task: Task)
    returns (o: Outcome, ghost found: Result<UserStore.User, StoreError>, ghost accepted: Option<UserStore.User>,
             ghost refusal: Outcome)
    requires CanRun(state, scope, run)
    modifies run, state.lockouts
    ensures state.Valid() && ActionOk(ByPassword, old(Snap(state, run)), Snap(state, run), o)
    ensures PasswordTried(scope, task, old(Snap(state, run)), Snap(state, run), o)
    ensures Checked(state.host, scope.moment, old(state.users.View()), old(state.lockouts.history),
                    state.lockouts.history,
                    LoginId(state.host, old(run.ctx)), TypedPassword(state.host, old(run.ctx)), task, found, accepted,
                    refusal)
    ensures o == (if accepted.Some? then SUCCESS else refusal) && refusal != SUCCESS
  {
    var user, why;
    user, why, found := TryTyped(state, scope, run, task);
    accepted, refusal := user, why;
    o := SignInTyped(state.host, run, user, why, Snap(state, run));
  }

  /** The new password is saved with the stored user, or nothing changes. */
  ghost predicate PasswordSaved(host: Host, before: UserStore.Users, after: UserStore.Users, userId: string,
                                password: string, o: Outcome)
  {
    if host.bcryptHash(password).Some? && userId in before.byUserId then
      && o == SUCCESS
      && after == UserStore.WithUser(before, userId,
                                     before.byUserId[userId].(passwordHash := host.bcryptHash(password),
                                                              password := true))
    else o == ScreenError(NOT_SAVED) && after == before
  }

  method SetPassword(state: EmulatorState, userId: string, password: string) returns (o: Outcome)
    modifies state.users
    ensures PasswordSaved(state.host, old(state.users.View()), state.users.View(), userId, password, o)
  {
    var hash := state.host.bcryptHash(password);
    if hash.None? {
      return ScreenError(NOT_SAVED);
    }
    var u := state.users.LoadByUserId(userId);
    if u.Err? {
      return ScreenError(NOT_SAVED);
    }
    state.users.Store(userId, u.value.(passwordHash := hash, password := true));
    return SUCCESS;
  }

  function NewPassword(host: Host, ctx: Json): string {
    var first := AsText(host, Child(Child(ctx, "form"), "newPassword_noPolicyOverrides"));
    if first != "" then first else AsText(host, Child(Child(ctx, "form"), "newPassword"))
  }

  /** The run after `user` was signed in with a new password, saved or not. */
  function ReplacedView(host: Host, a: Snapshot, t: Stores, user: string, saved: bool): RunView
    requires a.view.ctx.Obj?
  {
    SignedInView(a, t, user, "pwd", false, PasswordReplaced(LoginId(host, a.view.ctx), saved))
  }

  /** The target got the new password, or the screen says it was not saved; unless somebody was, the target is signed in
      either way. Without a target nothing happened. */
  ghost predicate PasswordReset(scope: Scope, a: Snapshot, b: Snapshot, o: Outcome) {
    var host, ctx := scope.host, a.view.ctx;
    && ctx.Obj? && b.stores == a.stores.(users := b.stores.users)
    && exists target ::
         && Targets(host, a.stores.users, ctx, target)
         && if target.None? then o == ScreenError(PASSWORD_REFUSED) && b == a
            else
              && PasswordSaved(host, a.stores.users, b.stores.users, target.value, NewPassword(host, ctx), o)
              && b.view == if AuthUser(ctx).Some? then a.view
                           else ReplacedView(host, a, b.stores, target.value, o == SUCCESS)
  }

  method ReplaceFor(state: EmulatorState, scope: Scope, run: Run, userId: string) returns (o: Outcome)
    requires CanRun(state, scope, run)
    modifies run, state.users
    ensures state.Valid() && ActionOk(ByReplacement, old(Snap(state, run)), Snap(state, run), o)
    ensures PasswordSaved(state.host, old(state.users.View()), state.users.View(), userId,
                          NewPassword(state.host, old(run.ctx)), o)
    ensures run.View() == if AuthUser(old(run.ctx)).Some? then old(run.View())
                          else ReplacedView(state.host, old(Snap(state, run)), state.Stores(), userId, o == SUCCESS)
  {
    ghost var a := Snap(state, run);
    o := SetPassword(state, userId, NewPassword(state.host, run.ctx));
    run.SignInSome(if AuthUser(run.ctx).None? then Some(userId) else None, "pwd", false,
                   PasswordReplaced(LoginId(state.host, run.ctx), o == SUCCESS), a, state.Stores(), o);
  }

  lemma ResetAre(scope: Scope, a: Snapshot, b: Snapshot, target: Option<string>, o: Outcome)
    requires a.view.ctx.Obj? && Targets(scope.host, a.stores.users, a.view.ctx, target)
    requires b.stores == a.stores.(users := b.stores.users)
    requires if target.None? then o == ScreenError(PASSWORD_REFUSED) && b == a
             else
               && PasswordSaved(scope.host, a.stores.users, b.stores.users, target.value,
                                NewPassword(scope.host, a.view.ctx), o)
               && b.view == if AuthUser(a.view.ctx).Some? then a.view
                            else ReplacedView(scope.host, a, b.stores, target.value, o == SUCCESS)
    ensures PasswordReset(scope, a, b, o)
  {
  }

  /** The target is signed in whether or not the new password could be saved; nobody signed in is ever replaced. */
  method PasswordReplace(state: EmulatorState, scope: Scope, run: Run) returns (o: Outcome)
    requires CanRun(state, scope, run)
    modifies run, state.users
    ensures state.Valid() && ActionOk(ByReplacement, old(Snap(state, run)), Snap(state, run), o)
    ensures PasswordReset(scope, old(Snap(state, run)), Snap(state, run), o)
  {
    ghost var a := Snap(state, run);
    var userId := TargetUserId(state, run.ctx);
    if userId.None? {
      o := ScreenError(PASSWORD_REFUSED);
      UnchangedOk(ByReplacement, a, state.Stores(), o);
    } else {
      o := ReplaceFor(state, scope, run, userId.value);
    }
    ResetAre(scope, a, Snap(state, run), userId, o);
  }

  /** The signed-in user's password was saved, or the screen says why not; the run stayed as it was. */
  ghost predicate PasswordChanged(scope: Scope, a: Snapshot, b: Snapshot, o: Outcome) {
    var user := AuthUser(a.view.ctx);
    && b.view == a.view && b.stores == a.stores.(users := b.stores.users)
    && if user.None? then o == ScreenError(PASSWORD_NEEDS_SIGN_IN) && b == a
       else PasswordSaved(scope.host, a.stores.users, b.stores.users, user.value, NewPassword(scope.host, a.view.ctx),
                          o)
  }

  lemma ChangedAre(scope: Scope, a: Snapshot, t: Stores, o: Outcome)
    requires t == a.stores.(users := t.users)
    requires var user := AuthUser(a.view.ctx);
             if user.None? then o == ScreenError(PASSWORD_NEEDS_SIGN_IN) && t == a.stores
             else PasswordSaved(scope.host, a.stores.users, t.users, user.value, NewPassword(scope.host, a.view.ctx), o)
    ensures PasswordChanged(scope, a, Snapshot(t, a.view), o)
  {
  }

  /** Saves a new password for the signed-in user. */
  method PasswordUpdate(state: EmulatorState, scope: Scope, run: Run) returns (o: Outcome)
    requires CanRun(state, scope, run)
    modifies state.users
    ensures state.Valid() && ActionOk(NoMeans, old(Snap(state, run)), Snap(state, run), o)
    ensures PasswordChanged(scope, old(Snap(state, run)), Snap(state, run), o)
  {
    ghost var a := Snap(state, run);
    if AuthUser(run.ctx).None? {
      o := ScreenError(PASSWORD_NEEDS_SIGN_IN);
    } else {
      o := SetPassword(state, AuthUser(run.ctx).value, NewPassword(state.host, run.ctx));
    }
    ChangedAre(scope, a, state.Stores(), o);
    UnchangedOk(NoMeans, a, state.Stores(), o);
  }
}
