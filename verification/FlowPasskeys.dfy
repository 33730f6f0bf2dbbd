/** The passkey actions: handing a ceremony to the browser, and finishing it with what comes back. */
module FlowPasskeys {
  import opened Bytes
  import opened Wrappers
  import opened Json
  import opened FlowGraph
  import opened FlowRun
  import opened FlowConditions
  import opened FlowState
  import opened FlowContext
  import opened FlowActions
  import opened FlowCodes
  import opened FlowUrls
  import UserStore
  import WebAuthnStore

  function CeremonyOf(action: string): WebAuthnStore.Ceremony {
    if "webauthn-sign-up" <= action then WebAuthnStore.SignUp
    else if "webauthn-sign-in" <= action then WebAuthnStore.SignIn
    else WebAuthnStore.Update
  }

  // ----------------------------------------------------------------- start

  datatype Owner = Owner(loginId: string, userId: string, displayName: string)

  /** Whom a ceremony is for. A sign-up is for an identifier that loads nobody, a sign-in for the user it loads, if that
      user has a passkey, an update for the signed-in user. */
  function OwnerOf(host: Host, users: UserStore.Users, passkeys: WebAuthnStore.State, ctx: Json, task: Task, full: Json,
                   ceremony: WebAuthnStore.Ceremony, named: Result<UserStore.User, StoreError>)
    : (r: Result<Owner, Outcome>)
    ensures r.Err? ==> Plain(r.error)
  {
    match ceremony
    case SignUp =>
      if named.Ok? then Err(HandledError(task, "UserAlreadyExists", ACCOUNT_EXISTS))
      else Ok(Owner(LoginId(host, ctx), "", AsText(host, Child(Child(ctx, "form"), "fullName"))))
    case SignIn =>
      if named.Err? then Err(HandledError(task, "UserDoesNotExists", NO_PASSKEY))
      else if WebAuthnStore.CredentialsOf(passkeys, named.value.userId) == [] then Err(ScreenError(NO_PASSKEY))
      else Ok(Owner(LoginId(host, ctx), named.value.userId, UserStore.Or(named.value.name, "")))
    case Update =>
      var u := UserStore.Fetched(users, AuthUser(ctx));
      if u.Err? then Err(ScreenError(BIOMETRICS_NEED_SIGN_IN))
      else
        var chosen := ArgumentText(host, task, "passkeyLoginId", full);
        Ok(Owner(if chosen != "" then chosen else if u.value.loginIds != [] then u.value.loginIds[0] else "",
                 u.value.userId, UserStore.Or(u.value.name, "")))
  }

  method PasskeyOwner(state: EmulatorState, ctx: Json, task: Task, ceremony: WebAuthnStore.Ceremony, full: Json)
    returns (owner: Result<Owner, Outcome>, ghost named: Result<UserStore.User, StoreError>)
    requires state.users.lower == state.host.lower
    ensures ceremony != WebAuthnStore.Update ==>
            UserStore.LoadsAs(state.users.View(), state.host.lower, LoginId(state.host, ctx), named)
    ensures owner == OwnerOf(state.host, state.users.View(), state.webauthn.View(), ctx, task, full, ceremony, named)
  {
    named := Err(UserNotFound);
    if ceremony == WebAuthnStore.Update {
      owner := UpdateOwner(state, ctx, task, full);
    } else {
      owner, named := NamedOwner(state, ctx, task, ceremony);
    }
  }

  method NamedOwner(state: EmulatorState, ctx: Json, task: Task, ceremony: WebAuthnStore.Ceremony)
    returns (owner: Result<Owner, Outcome>, ghost named: Result<UserStore.User, StoreError>)
    requires state.users.lower == state.host.lower && ceremony != WebAuthnStore.Update
    ensures UserStore.LoadsAs(state.users.View(), state.host.lower, LoginId(state.host, ctx), named)
    ensures owner == OwnerOf(state.host, state.users.View(), state.webauthn.View(), ctx, task, Null, ceremony, named)
  {
    var host := state.host;
    var u, _ := state.users.Load(LoginId(host, ctx));
    named := u;
    if ceremony == WebAuthnStore.SignUp {
      owner := if u.Ok? then Err(HandledError(task, "UserAlreadyExists", ACCOUNT_EXISTS))
               else Ok(Owner(LoginId(host, ctx), "", AsText(host, Child(Child(ctx, "form"), "fullName"))));
    } else if u.Err? {
      owner := Err(HandledError(task, "UserDoesNotExists", NO_PASSKEY));
    } else {
      var has := state.webauthn.HasCredentials(u.value.userId);
      owner := if has then Ok(Owner(LoginId(host, ctx), u.value.userId, UserStore.Or(u.value.name, "")))
               else Err(ScreenError(NO_PASSKEY));
    }
  }

  method UpdateOwner(state: EmulatorState, ctx: Json, task: Task, full: Json) returns (owner: Result<Owner, Outcome>)
    ensures owner
            == OwnerOf(state.host, state.users.View(), state.webauthn.View(), ctx, task, full, WebAuthnStore.Update,
                       Err(UserNotFound))
  {
    var u := SignedInUser(state, ctx);
    if u.Err? {
      return Err(ScreenError(BIOMETRICS_NEED_SIGN_IN));
    }
    var chosen := ArgumentText(state.host, task, "passkeyLoginId", full);
    var loginId := if chosen != "" then chosen else if u.value.loginIds != [] then u.value.loginIds[0] else "";
    return Ok(Owner(loginId, u.value.userId, UserStore.Or(u.value.name, "")));
  }

  function PendingPasskey(ctx: Json): Json {
    Child(Child(Child(ctx, "pending"), "passkey"), "transactionId")
  }

  function PasskeyNoted(ctx: Json, transactionId: string, loginId: string): (r: Json)
    requires CtxOk(ctx)
    ensures Noting(ctx, r) && PendingPasskey(r) == Str(transactionId)
  {
    WithIn(ctx, "pending", "passkey", Obj(map["transactionId" := Str(transactionId), "loginId" := Str(loginId)]))
  }

  /** The envelope of a wait for the browser's ceremony. */
  function CeremonyEnvelope(env: Json, ceremony: WebAuthnStore.Ceremony, transactionId: string, options: string)
    : (r: Json)
    requires env.Obj? && IsWaiting(env) && ErrorCode(env) == Null
    ensures r.Obj? && IsWaiting(r) && Child(r, "stepId") == Child(env, "stepId") && ErrorCode(r) == Null
    ensures Child(Child(r, "webauthn"), "transactionId") == Str(transactionId)
    ensures Child(r, "action") == Str(if ceremony == WebAuthnStore.SignIn then "webauthnGet" else "webauthnCreate")
  {
    With(With(env, "action", Str(if ceremony == WebAuthnStore.SignIn then "webauthnGet" else "webauthnCreate")),
         "webauthn", Obj(map["transactionId" := Str(transactionId), "options" := Str(options)]))
  }

  /** The ceremony a run opens: for its owner, with the widget's own host as the relying party. */
  function CeremonyFor(scope: Scope, ctx: Json, ceremony: WebAuthnStore.Ceremony, owner: Owner, id: string,
                       challenge: Bytes)
    : WebAuthnStore.Transaction
  {
    var rpId := RelyingParty(AsText(scope.host, Child(ctx, "origin")), OptionText(scope.host, ctx, "location"));
    WebAuthnStore.Transaction(id, ceremony, owner.loginId, owner.userId, challenge, rpId, scope.moment.now)
  }

  /** What the browser is told about the ceremony. */
  function CeremonyOptions(scope: Scope, passkeys: WebAuthnStore.State, t: WebAuthnStore.Transaction, owner: Owner)
    : string
  {
    var libs := scope.host.libs;
    libs.jsonText(WebAuthnStore.OptionsFor(libs, t, owner.displayName,
                                           WebAuthnStore.CredentialsOf(passkeys, owner.userId)))
  }

  /** The browser waits under `finish` with this ceremony, over what the widget shows meanwhile. */
  ghost predicate AsksBrowser(scope: Scope, s: Stores, ctx: Json, finish: string, ceremony: WebAuthnStore.Ceremony,
                              id: string, options: string, o: Outcome)
  {
    exists env ::
      ShowsWait(scope, s, ctx, finish, env) && WaitsFor(env, finish)
      && o == Wait(CeremonyEnvelope(env, ceremony, id, options), finish)
  }

  method PasskeyWait(state: EmulatorState, scope: Scope, ctx: Json, finish: string, ceremony: WebAuthnStore.Ceremony,
                     id: string, options: string) returns (o: Outcome)
    requires ctx.Obj? && state.users.lower == state.host.lower && scope.host == state.host
    ensures StillOpen(o) && AsksBrowser(scope, state.Stores(), ctx, finish, ceremony, id, options, o)
  {
    var env := WaitEnvelope(state, scope, ctx, finish);
    return Wait(CeremonyEnvelope(env, ceremony, id, options), finish);
  }

  /** Opens the ceremony for its owner: its id, and the options for the browser. */
  method PasskeyBegin(state: EmulatorState, scope: Scope, ctx: Json, ceremony: WebAuthnStore.Ceremony, owner: Owner)
    returns (id: string, options: string, ghost challenge: Bytes)
    requires state.webauthn.Valid() && scope.host == state.host
    modifies state.webauthn
    ensures state.webauthn.Valid()
    ensures var t := CeremonyFor(scope, ctx, ceremony, owner, id, challenge);
            && state.webauthn.View() == WebAuthnStore.Begun(old(state.webauthn.View()), t, scope.moment.now)
            && options == CeremonyOptions(scope, old(state.webauthn.View()), t, owner)
  {
    var host := state.host;
    var rpId := RelyingParty(AsText(host, Child(ctx, "origin")), OptionText(host, ctx, "location"));
    id := RandomText();
    var drawn := RandomBytes();
    challenge := drawn;
    var given := state.webauthn.Begin(host.libs, ceremony, owner.loginId, owner.userId, owner.displayName, rpId,
                                      scope.moment.now, id, drawn);
    options := host.libs.jsonText(given);
  }

  /** The ceremony is open for its owner, the run remembers it, and the browser was asked for it. */
  ghost predicate HandedOut(scope: Scope, owner: Owner, finish: string, ceremony: WebAuthnStore.Ceremony, a: Snapshot,
                            b: Snapshot, o: Outcome, id: string, challenge: Bytes) {
    var t := CeremonyFor(scope, a.view.ctx, ceremony, owner, id, challenge);
    && CtxOk(a.view.ctx)
    && b == Snapshot(a.stores.(passkeys := WebAuthnStore.Begun(a.stores.passkeys, t, scope.moment.now)),
                     a.view.(ctx := PasskeyNoted(a.view.ctx, id, owner.loginId)))
    && AsksBrowser(scope, b.stores, b.view.ctx, finish, ceremony, id,
                   CeremonyOptions(scope, a.stores.passkeys, t, owner), o)
  }

  /** The run was handed a ceremony for its owner, or refused without a change. */
  ghost predicate AskedFor(scope: Scope, owner: Result<Owner, Outcome>, finish: string,
                           ceremony: WebAuthnStore.Ceremony, a: Snapshot, b: Snapshot, o: Outcome)
  {
    match owner
    case Err(why) => o == why && b == a
    case Ok(whose) => exists id, challenge :: HandedOut(scope, whose, finish, ceremony, a, b, o, id, challenge)
  }

  /** Opens a ceremony and hands it out, for a run whose context is going to remember it. */
  method HandOut(state: EmulatorState, scope: Scope, ctx: Json, finish: string, ceremony: WebAuthnStore.Ceremony,
                 owner: Owner, ghost a: Snapshot)
    returns (o: Outcome, id: string, ghost challenge: Bytes)
    requires CtxOk(ctx) && state.users.lower == state.host.lower && scope.host == state.host && state.webauthn.Valid()
    requires a.stores == state.Stores() && a.view.ctx == ctx
    modifies state.webauthn
    ensures state.webauthn.Valid() && StillOpen(o)
    ensures HandedOut(scope, owner, finish, ceremony, a,
                      Snapshot(state.Stores(), a.view.(ctx := PasskeyNoted(ctx, id, owner.loginId))),
                      o, id, challenge)
  {
    var options;
    id, options, challenge := PasskeyBegin(state, scope, ctx, ceremony, owner);
    o := PasskeyWait(state, scope, PasskeyNoted(ctx, id, owner.loginId), finish, ceremony, id, options);
  }

  lemma HandedIs(scope: Scope, owner: Owner, finish: string, ceremony: WebAuthnStore.Ceremony, a: Snapshot, b: Snapshot,
                 o: Outcome, id: string, challenge: Bytes)
    requires HandedOut(scope, owner, finish, ceremony, a, b, o, id, challenge)
    ensures AskedFor(scope, Ok(owner), finish, ceremony, a, b, o)
  {
  }

  /** Remembers the ceremony handed out. */
  method NotePasskey(run: Run, id: string, loginId: string, ghost a: Snapshot, ghost t: Stores, ghost o: Outcome)
    requires a.view == run.View() && Ready(a.view) && Open(a.view.history) && StillOpen(o)
    modifies run`ctx
    ensures run.View() == a.view.(ctx := PasskeyNoted(a.view.ctx, id, loginId))
            && ActionOk(NoMeans, a, Snapshot(t, run.View()), o)
  {
    run.ctx := PasskeyNoted(run.ctx, id, loginId);
    NotingOk(a, t, run.ctx, o);
  }

  method PasskeyHand(state: EmulatorState, scope: Scope, run: Run, finish: string, ceremony: WebAuthnStore.Ceremony,
                     owner: Owner)
    returns (o: Outcome)
    requires CanRun(state, scope, run)
    modifies run`ctx, state.webauthn
    ensures state.Valid() && ActionOk(NoMeans, old(Snap(state, run)), Snap(state, run), o)
    ensures AskedFor(scope, Ok(owner), finish, ceremony, old(Snap(state, run)), Snap(state, run), o)
  {
    hide HandedOut;
    ghost var a, challenge := Snap(state, run), [];
    var id;
    o, id, challenge := HandOut(state, scope, run.ctx, finish, ceremony, owner, a);
    ghost var b := Snapshot(state.Stores(), a.view.(ctx := PasskeyNoted(a.view.ctx, id, owner.loginId)));
    HandedIs(scope, owner, finish, ceremony, a, b, o, id, challenge);
    NotePasskey(run, id, owner.loginId, a, b.stores, o);
  }

  method PasskeyAsk(state: EmulatorState, scope: Scope, run: Run, finish: string, ceremony: WebAuthnStore.Ceremony,
                    owner: Result<Owner, Outcome>) returns (o: Outcome)
    requires CanRun(state, scope, run) && (owner.Err? ==> Plain(owner.error))
    modifies run`ctx, state.webauthn
    ensures state.Valid() && ActionOk(NoMeans, old(Snap(state, run)), Snap(state, run), o)
    ensures AskedFor(scope, owner, finish, ceremony, old(Snap(state, run)), Snap(state, run), o)
  {
    match owner {
      case Ok(whose) => o := PasskeyHand(state, scope, run, finish, ceremony, whose);
      case Err(why) =>
        o := why;
        UnchangedOk(NoMeans, Snap(state, run), state.Stores(), o);
    }
  }

  /** Whom the ceremony is for, or why not, and the step that will finish it, as the full context and the stores have
      it. */
  ghost predicate OwnerFound(scope: Scope, task: Task, ceremony: WebAuthnStore.Ceremony, s: Stores, ctx: Json,
                             owner: Result<Owner, Outcome>, finish: string) {
    exists full, named ::
      && IsFullContext(scope, s, ctx, full)
      && (ceremony != WebAuthnStore.Update ==>
          UserStore.LoadsAs(s.users, scope.host.lower, LoginId(scope.host, ctx), named))
      && owner == OwnerOf(scope.host, s.users, s.passkeys, ctx, task, full, ceremony, named)
      && finish == ArgumentText(scope.host, task, "finishStepId", full)
  }

  method FindOwner(state: EmulatorState, scope: Scope, ctx: Json, task: Task, ceremony: WebAuthnStore.Ceremony)
    returns (owner: Result<Owner, Outcome>, finish: string)
    requires ctx.Obj? && state.users.lower == state.host.lower && scope.host == state.host
    ensures OwnerFound(scope, task, ceremony, state.Stores(), ctx, owner, finish) && (owner.Err? ==> Plain(owner.error))
  {
    var full := FullContext(state, scope, ctx);
    ghost var named;
    owner, named := PasskeyOwner(state, ctx, task, ceremony, full);
    finish := ArgumentText(state.host, task, "finishStepId", full);
  }

  /** The browser was asked for a ceremony of its owner, or the run was refused one and nothing changed. */
  ghost predicate PasskeyAsked(scope: Scope, task: Task, ceremony: WebAuthnStore.Ceremony, a: Snapshot, b: Snapshot,
                               o: Outcome)
  {
    exists owner, finish ::
      OwnerFound(scope, task, ceremony, a.stores, a.view.ctx, owner, finish)
      && AskedFor(scope, owner, finish, ceremony, a, b, o)
  }

  /** Hands the browser a ceremony for whom `OwnerOf` says, or refuses and changes nothing. */
  method PasskeyStart(state: EmulatorState, scope: Scope, run: Run, task: Task, ceremony: WebAuthnStore.Ceremony)
    returns (o: Outcome)
    requires CanRun(state, scope, run)
    modifies run`ctx, state.webauthn
    ensures state.Valid() && ActionOk(NoMeans, old(Snap(state, run)), Snap(state, run), o)
    ensures PasskeyAsked(scope, task, ceremony, old(Snap(state, run)), Snap(state, run), o)
  {
    var owner, finish := FindOwner(state, scope, run.ctx, task, ceremony);
    o := PasskeyAsk(state, scope, run, finish, ceremony, owner);
  }

  // ---------------------------------------------------------------- finish

  /** The response finishes the ceremony: an accepted assertion, or an accepted registration by somebody signed in, or
      for a free login id. */
  predicate Finishes(host: Host, users: UserStore.Users, passkeys: WebAuthnStore.State, auth: Option<string>,
                     t: WebAuthnStore.Transaction, response: string) {
    match t.ceremony
    case SignIn => WebAuthnStore.AssertionOf(host.libs, WebAuthnStore.CredentialsOf(passkeys, t.userId), t,
                                             response).Ok?
    case Update => auth.Some? && WebAuthnStore.RegistrationOf(host.libs, t, response).Ok?
    case SignUp => WebAuthnStore.RegistrationOf(host.libs, t, response).Ok? && host.lower(t.loginId) !in users.byLoginId
  }

  /** The account a passkey signs up. */
  function PasskeyAccount(host: Host, t: WebAuthnStore.Transaction, fullName: string, userId: string, now: nat)
    : UserStore.User
  {
    var email := host.lower(t.loginId);
    NewAccount(userId, email, if LooksLikeEmail(host, email) then Some(email) else None,
               if fullName == "" then None else Some(fullName), now)
  }

  /** Whom a response for `t` is filed under: the ceremony's own user, the signed-in user, or the new account. */
  function FiledFor(t: WebAuthnStore.Transaction, auth: Option<string>, newId: string): string {
    match t.ceremony
    case SignIn => t.userId
    case Update => if auth.Some? then auth.value else ""
    case SignUp => newId
  }

  /** The passkeys after a response: an accepted one is filed, also when the sign-up it belongs to then fails. */
  function PasskeysAfter(host: Host, passkeys: WebAuthnStore.State, t: WebAuthnStore.Transaction, auth: Option<string>,
                         newId: string, response: string): WebAuthnStore.State
  {
    if t.ceremony == WebAuthnStore.SignIn then WebAuthnStore.FinishedAssertion(host.libs, passkeys, t, response)
    else if t.ceremony == WebAuthnStore.Update && auth.None? then passkeys
    else WebAuthnStore.FinishedRegistration(host.libs, passkeys, t, FiledFor(t, auth, newId), response)
  }

  /** Why a ceremony did not finish: only a sign-up whose passkey was accepted can find its login id taken. */
  function WhyNot(host: Host, t: WebAuthnStore.Transaction, response: string): string {
    if t.ceremony == WebAuthnStore.SignUp && WebAuthnStore.RegistrationOf(host.libs, t, response).Ok?
    then ACCOUNT_EXISTS
    else PASSKEY_REFUSED
  }

  /** What finishing a ceremony does to users and passkeys; `newId` is the id of the account a sign-up makes. */
  ghost predicate Finished(scope: Scope, auth: Option<string>, fullName: string, t: WebAuthnStore.Transaction,
                           response: string, users: UserStore.Users, passkeys: WebAuthnStore.State,
                           users': UserStore.Users, passkeys': WebAuthnStore.State, done: bool, newId: string)
  {
    && done == Finishes(scope.host, users, passkeys, auth, t, response)
    && passkeys' == PasskeysAfter(scope.host, passkeys, t, auth, newId, response)
    && users' == if done && t.ceremony == WebAuthnStore.SignUp
                 then UserStore.Inserted(users, PasskeyAccount(scope.host, t, fullName, newId, scope.moment.now))
                 else users
  }

  method FinishSignUp(state: EmulatorState, scope: Scope, fullName: string, t: WebAuthnStore.Transaction,
                      response: string)
    returns (done: bool, why: string, newId: string)
    requires state.webauthn.Valid() && scope.host == state.host && t.ceremony == WebAuthnStore.SignUp
    modifies state.users, state.webauthn
    ensures state.webauthn.Valid() && (!done ==> why == WhyNot(state.host, t, response))
    ensures done == Finishes(state.host, old(state.users.View()), old(state.webauthn.View()), None, t, response)
    ensures state.webauthn.View()
            == WebAuthnStore.FinishedRegistration(state.host.libs, old(state.webauthn.View()), t, newId, response)
    ensures state.users.View() == if done
                                  then UserStore.Inserted(old(state.users.View()),
                                                          PasskeyAccount(state.host, t, fullName, newId,
                                                                         scope.moment.now))
                                  else old(state.users.View())
  {
    newId := RandomText();
    done, why := false, PASSKEY_REFUSED;
    var r := state.webauthn.FinishRegistration(state.host.libs, t, newId, response);
    if r.Ok? {
      var account := PasskeyAccount(state.host, t, fullName, newId, scope.moment.now);
      OneLoginId(state.users.View(), account);
      var inserted := state.users.Insert(account);
      done, why := inserted.Ok?, ACCOUNT_EXISTS;
    }
  }

  /** A sign-up that fails leaves the stores as they were exactly when it was the response that was refused; when the
      login id was taken, the passkey stays behind under an id nobody has. */
  lemma FailedSignUpLeavesNothingIff(scope: Scope, auth: Option<string>, fullName: string, t: WebAuthnStore.Transaction,
                                     response: string, users: UserStore.Users, passkeys: WebAuthnStore.State,
                                     users': UserStore.Users, passkeys': WebAuthnStore.State, newId: string)
    requires Finished(scope, auth, fullName, t, response, users, passkeys, users', passkeys', false, newId)
    requires t.ceremony == WebAuthnStore.SignUp && newId !in passkeys.credentials
    ensures users' == users
    ensures passkeys' == passkeys <==> WebAuthnStore.RegistrationOf(scope.host.libs, t, response).Err?
  {
    if WebAuthnStore.RegistrationOf(scope.host.libs, t, response).Ok? {
      assert newId in passkeys'.credentials;
    }
  }

  /** Finishes a ceremony taken from the store. */
  method FinishCeremony(state: EmulatorState, scope: Scope, auth: Option<string>, fullName: string,
                        t: WebAuthnStore.Transaction, response: string)
    returns (done: bool, why: string, newId: string)
    requires state.webauthn.Valid() && scope.host == state.host
    modifies state.users, state.webauthn
    ensures state.webauthn.Valid() && (!done ==> why == WhyNot(state.host, t, response))
    ensures Finished(scope, auth, fullName, t, response, old(state.users.View()), old(state.webauthn.View()),
                     state.users.View(), state.webauthn.View(), done, newId)
  {
    done, why, newId := false, PASSKEY_REFUSED, "";
    match t.ceremony {
      case SignIn =>
        var r := state.webauthn.FinishAssertion(state.host.libs, t, response);
        done := r.Ok?;
      case Update =>
        if auth.Some? {
          var r := state.webauthn.FinishRegistration(state.host.libs, t, auth.value, response);
          done := r.Ok?;
        }
      case SignUp =>
        done, why, newId := FinishSignUp(state, scope, fullName, t, response);
    }
  }

  function TextAt(input: Json, key: string): string {
    if Child(input, key).Str? then Child(input, key).s else ""
  }

  /** The ceremony the input names is open, as this kind. */
  predicate NamesOpen(input: Json, ceremony: WebAuthnStore.Ceremony, passkeys: WebAuthnStore.State) {
    var id := TextAt(input, "transactionId");
    id in passkeys.transactions && passkeys.transactions[id].ceremony == ceremony
  }

  /** What the widget sends back finishes the ceremony it names. */
  predicate PasskeyAccepted(host: Host, users: UserStore.Users, passkeys: WebAuthnStore.State, ctx: Json, input: Json,
                            ceremony: WebAuthnStore.Ceremony)
  {
    NamesOpen(input, ceremony, passkeys)
    && var id := TextAt(input, "transactionId");
    Finishes(host, users, WebAuthnStore.Taken(passkeys, id, ceremony), AuthUser(ctx), Named(input, passkeys),
             TextAt(input, "response"))
  }

  const NO_CEREMONY := WebAuthnStore.Transaction("", WebAuthnStore.Update, "", "", [], "", 0)

  /** The open ceremony the input names. */
  function Named(input: Json, passkeys: WebAuthnStore.State): WebAuthnStore.Transaction {
    var id := TextAt(input, "transactionId");
    if id in passkeys.transactions then passkeys.transactions[id] else NO_CEREMONY
  }

  function FullName(host: Host, ctx: Json): string {
    AsText(host, Child(Child(ctx, "form"), "fullName"))
  }

  /** What taking and finishing the ceremony the input names does to the stores `s`: nothing unless it is open, and
      `done` says whether it was accepted. */
  ghost predicate Took(scope: Scope, ctx: Json, input: Json, ceremony: WebAuthnStore.Ceremony, s: Stores, t: Stores,
                       done: bool, newId: string)
  {
    var id, response := TextAt(input, "transactionId"), TextAt(input, "response");
    && done == PasskeyAccepted(scope.host, s.users, s.passkeys, ctx, input, ceremony)
    && if NamesOpen(input, ceremony, s.passkeys) then
         var open, taken := Named(input, s.passkeys), WebAuthnStore.Taken(s.passkeys, id, ceremony);
         t == s.(passkeys := PasskeysAfter(scope.host, taken, open, AuthUser(ctx), newId, response),
                 users := if done && ceremony == WebAuthnStore.SignUp
                          then UserStore.Inserted(s.users,
                                                  PasskeyAccount(scope.host, open, FullName(scope.host, ctx), newId,
                                                                          scope.moment.now))
                          else s.users)
       else t == s
  }

  /** Whom an accepted response signs in. */
  function FinishedUser(ctx: Json, input: Json, passkeys: WebAuthnStore.State, newId: string): string {
    FiledFor(Named(input, passkeys), AuthUser(ctx), newId)
  }

  lemma TookOpen(scope: Scope, ctx: Json, input: Json, ceremony: WebAuthnStore.Ceremony, s: Stores, t: Stores,
                 done: bool, newId: string)
    requires NamesOpen(input, ceremony, s.passkeys) && t.otps == s.otps && t.tokens == s.tokens
    requires Finished(scope, AuthUser(ctx), FullName(scope.host, ctx), Named(input, s.passkeys),
                      TextAt(input, "response"), s.users,
                      WebAuthnStore.Taken(s.passkeys, TextAt(input, "transactionId"), ceremony), t.users, t.passkeys,
                      done, newId)
    ensures Took(scope, ctx, input, ceremony, s, t, done, newId)
  {
  }

  lemma TookNothing(scope: Scope, ctx: Json, input: Json, ceremony: WebAuthnStore.Ceremony, s: Stores, newId: string)
    requires !NamesOpen(input, ceremony, s.passkeys)
    ensures Took(scope, ctx, input, ceremony, s, s, false, newId)
  {
  }

  /** Why what came back was refused. */
  function BackRefusal(host: Host, input: Json, ceremony: WebAuthnStore.Ceremony, passkeys: WebAuthnStore.State): string
  {
    if NamesOpen(input, ceremony, passkeys) then WhyNot(host, Named(input, passkeys), TextAt(input, "response"))
    else PASSKEY_REFUSED
  }

  /** The run after the ceremony the input names was accepted. */
  function FinishedView(a: Snapshot, t: Stores, input: Json, ceremony: WebAuthnStore.Ceremony, newId: string): RunView
    requires a.view.ctx.Obj?
  {
    if ceremony == WebAuthnStore.Update then a.view
    else SignedInView(a, t, FinishedUser(a.view.ctx, input, a.stores.passkeys, newId), "webauthn",
                      ceremony == WebAuthnStore.SignUp,
                      PasskeyFinished(Named(input, a.stores.passkeys), TextAt(input, "response")))
  }

  /** What came back finished the ceremony it names, and signed in whom it is for, an update nobody; or it was
      refused. */
  ghost predicate CameBack(scope: Scope, ceremony: WebAuthnStore.Ceremony, input: Json, a: Snapshot, b: Snapshot,
                           o: Outcome, newId: string)
  {
    match o
    case Interaction(name) =>
      && name == "success" && a.view.ctx.Obj?
      && Took(scope, a.view.ctx, input, ceremony, a.stores, b.stores, true, newId)
      && b.view == FinishedView(a, b.stores, input, ceremony, newId)
    case ScreenError(text) =>
      && text == BackRefusal(scope.host, input, ceremony, a.stores.passkeys) && b.view == a.view
      && Took(scope, a.view.ctx, input, ceremony, a.stores, b.stores, false, newId)
    case _ => false
  }

  function FailureText(failure: string): string {
    "The passkey request was cancelled or not allowed (" + failure + ")."
  }

  /** The browser failed, or came back. */
  ghost predicate PasskeyChecked(scope: Scope, ceremony: WebAuthnStore.Ceremony, input: Json, a: Snapshot, b: Snapshot,
                                 o: Outcome)
  {
    if TextAt(input, "failure") != "" then o == ScreenError(FailureText(TextAt(input, "failure"))) && b == a
    else exists newId :: CameBack(scope, ceremony, input, a, b, o, newId)
  }

  /** Signs in whom an accepted response is for; a refused one is an error on the screen. */
  method Conclude(host: Host, run: Run, input: Json, ceremony: WebAuthnStore.Ceremony, t: WebAuthnStore.Transaction,
                  done: bool, why: string, newId: string, ghost a: Snapshot, ghost after: Stores)
    returns (o: Outcome)
    requires a.view == run.View() && Ready(a.view) && Open(a.view.history)
             && (done ==> t == Named(input, a.stores.passkeys))
    modifies run`ctx, run`history
    ensures o == (if done then SUCCESS else ScreenError(why)) && ActionOk(ByPasskey, a, Snapshot(after, run.View()), o)
    ensures run.View() == if done then FinishedView(a, after, input, ceremony, newId) else a.view
  {
    o := if done then SUCCESS else ScreenError(why);
    var user := if done && ceremony != WebAuthnStore.Update then Some(FiledFor(t, AuthUser(run.ctx), newId)) else None;
    run.SignInSome(user, "webauthn", ceremony == WebAuthnStore.SignUp, PasskeyFinished(t, TextAt(input, "response")), a,
                   after, o);
  }

  lemma CameBackAre(scope: Scope, ceremony: WebAuthnStore.Ceremony, input: Json, a: Snapshot, b: Snapshot, done: bool,
                    newId: string)
    requires a.view.ctx.Obj? && Took(scope, a.view.ctx, input, ceremony, a.stores, b.stores, done, newId)
    requires b.view == if done then FinishedView(a, b.stores, input, ceremony, newId) else a.view
    ensures CameBack(scope, ceremony, input, a, b,
                     if done then SUCCESS
                     else ScreenError(BackRefusal(scope.host, input, ceremony, a.stores.passkeys)), newId)
  {
  }

  /** Takes the ceremony the input names and finishes it, if it is open: whether it was accepted, and why not. */
  method TakeBack(state: EmulatorState, scope: Scope, ctx: Json, input: Json, ceremony: WebAuthnStore.Ceremony)
    returns (done: bool, why: string, newId: string, t: WebAuthnStore.Transaction)
    requires state.webauthn.Valid() && scope.host == state.host
    modifies state.users, state.webauthn
    ensures state.webauthn.Valid()
            && Took(scope, ctx, input, ceremony, old(state.Stores()), state.Stores(), done, newId)
    ensures !done ==> why == BackRefusal(state.host, input, ceremony, old(state.webauthn.View()))
    ensures done ==> t == Named(input, old(state.webauthn.View()))
  {
    hide Took, Finished;
    ghost var s := state.Stores();
    t := NO_CEREMONY;
    var taken := state.webauthn.TakeTransaction(TextAt(input, "transactionId"), ceremony);
    if taken.Ok? {
      t := taken.value;
      done, why, newId := FinishCeremony(state, scope, AuthUser(ctx), FullName(state.host, ctx), t,
                                         TextAt(input, "response"));
      TookOpen(scope, ctx, input, ceremony, s, state.Stores(), done, newId);
    } else {
      done, why, newId := false, PASSKEY_REFUSED, "";
      TookNothing(scope, ctx, input, ceremony, s, newId);
    }
  }

  /** Signs in by an accepted response, or adds a passkey for who is signed in; a refused one is an error on the
      screen. */
  method PasskeyBack(state: EmulatorState, scope: Scope, run: Run, input: Json, ceremony: WebAuthnStore.Ceremony)
    returns (o: Outcome, ghost newId: string)
    requires CanRun(state, scope, run)
    modifies run, state.users, state.webauthn
    ensures state.Valid() && ActionOk(ByPasskey, old(Snap(state, run)), Snap(state, run), o)
    ensures CameBack(scope, ceremony, input, old(Snap(state, run)), Snap(state, run), o, newId)
  {
    ghost var a := Snap(state, run);
    var done, why, made, t := TakeBack(state, scope, run.ctx, input, ceremony);
    newId := made;
    o := Conclude(state.host, run, input, ceremony, t, done, why, made, a, state.Stores());
    CameBackAre(scope, ceremony, input, a, Snap(state, run), done, newId);
  }

  /** Takes back what the browser made of the ceremony, or that it failed. */
  method PasskeyFinish(state: EmulatorState, scope: Scope, run: Run, input: Json, ceremony: WebAuthnStore.Ceremony)
    returns (o: Outcome)
    requires CanRun(state, scope, run)
    modifies run, state.users, state.webauthn
    ensures state.Valid() && ActionOk(ByPasskey, old(Snap(state, run)), Snap(state, run), o)
    ensures PasskeyChecked(scope, ceremony, input, old(Snap(state, run)), Snap(state, run), o)
  {
    var failure := TextAt(input, "failure");
    if failure != "" {
      o := ScreenError(FailureText(failure));
      UnchangedOk(ByPasskey, Snap(state, run), state.Stores(), o);
    } else {
      ghost var newId;
      o, newId := PasskeyBack(state, scope, run, input, ceremony);
    }
  }
}
