/** Passkeys and single sign-on, spelled out: what the browser is sent away with, and what it must bring back. */
module BrowserLaws {
  import opened Bytes
  import opened Wrappers
  import opened Json
  import opened FlowGraph
  import opened FlowRun
  import opened FlowConditions
  import opened FlowState
  import opened FlowContext
  import opened FlowCodes
  import opened FlowPasskeys
  import opened FlowSso
  import opened FlowUrls
  import opened ConditionLaws
  import opened ContextLaws
  import opened AccountLaws
  import opened CodeLaws
  import TokenStore
  import UserStore
  import WebAuthnStore

  // ------------------------------------------------------ passkeys, asked

  /** What is shown while the browser works: the screen last shown, or nothing but the wait; under the step that will
      finish. */
  ghost predicate Awaits(scope: Scope, s: Stores, ctx: Json, step: string, env: Json) {
    var last := GetPath(ctx, ["screenTask"]);
    exists name: string ::
      && Reads(scope.host, last, name)
      && if name in scope.def.tasks then
           exists full, drawn ::
             && IsFullContext(scope, s, ctx, full) && drawn == ScreenFor(scope, scope.def.tasks[name], ctx, full, None)
             && OnlyUnder(drawn, env, {"stepId"}) && Child(env, "stepId") == Str(step)
         else
           && OnlyUnder(Envelope(scope.id, step, "waiting"), env, {"stepId"}) && Child(env, "stepId") == Str(step)
  }

  lemma UnderReads(env: Json, step: string)
    requires env.Obj? && IsWaiting(env) && ErrorCode(env) == Null
    ensures OnlyUnder(env, Under(env, step), {"stepId"}) && Child(Under(env, step), "stepId") == Str(step)
  {
    assert Under(env, step).fields - {"stepId"} == env.fields - {"stepId"};
    KeysOnly(env, Under(env, step), {"stepId"});
  }

  lemma PlainWait(id: string, step: string)
    ensures IsWaiting(Envelope(id, step, "waiting")) && ErrorCode(Envelope(id, step, "waiting")) == Null
  {
  }

  lemma WaitReads(scope: Scope, s: Stores, ctx: Json, step: string, env: Json)
    requires ShowsWait(scope, s, ctx, step, env)
    ensures Awaits(scope, s, ctx, step, env)
  {
    hide IsFullContext, ScreenFor, OnlyUnder, Under, Envelope, Reads, AsText;
    var name := AsText(scope.host, Child(ctx, "screenTask"));
    ReadOne(ctx, "screenTask");
    TextIff(scope.host, Child(ctx, "screenTask"), name);
    if name in scope.def.tasks {
      var full :| IsFullContext(scope, s, ctx, full)
        && env == Under(ScreenFor(scope, scope.def.tasks[name], ctx, full, None), step);
      UnderReads(ScreenFor(scope, scope.def.tasks[name], ctx, full, None), step);
    } else {
      EnvelopeReads(scope.id, step, "waiting");
      PlainWait(scope.id, step);
      UnderReads(Envelope(scope.id, step, "waiting"), step);
    }
  }

  /** Whom a ceremony is for, or why it is for nobody: a sign-up for what was typed, if that loads nobody; a sign-in for
      the user it loads, if there is a passkey; an update for the signed-in user, under the login id chosen or the
      first. */
  ghost predicate OwnedBy(host: Host, s: Stores, ctx: Json, task: Task, chosen: string,
                          ceremony: WebAuthnStore.Ceremony, typed: string, name: string, owner: Result<Owner, Outcome>)
  {
    var signedIn := GetPath(ctx, ["auth", "userId"]);
    match ceremony
    case SignUp =>
      || (UserStore.LoadsAs(s.users, host.lower, host.trim(typed), Err(UserNotFound))
          && owner == Ok(Owner(host.trim(typed), "", name)))
      || (&& (exists u: UserStore.User :: UserStore.LoadsAs(s.users, host.lower, host.trim(typed), Ok(u)))
          && owner.Err?
          && RefusedWith(task, "UserAlreadyExists", "An account already exists for this sign-in.", owner.error))
    case SignIn =>
      || (UserStore.LoadsAs(s.users, host.lower, host.trim(typed), Err(UserNotFound)) && owner.Err?
          && RefusedWith(task, "UserDoesNotExists", "No passkey is registered for this user on this device.",
                         owner.error))
      || exists u: UserStore.User ::
           && UserStore.LoadsAs(s.users, host.lower, host.trim(typed), Ok(u))
           && owner == if u.userId in s.passkeys.credentials && s.passkeys.credentials[u.userId] != []
                       then Ok(Owner(host.trim(typed), u.userId, if u.name.Some? then u.name.value else ""))
                       else Err(ScreenError("No passkey is registered for this user on this device."))
    case Update =>
      if signedIn.Str? && signedIn.s in s.users.byUserId then
        var u := s.users.byUserId[signedIn.s];
        owner == Ok(Owner(if chosen != "" then chosen else if u.loginIds != [] then u.loginIds[0] else "", u.userId,
                          if u.name.Some? then u.name.value else ""))
      else owner == Err(ScreenError("Sign in before you add biometrics."))
  }

  lemma OwnerReads(host: Host, s: Stores, ctx: Json, task: Task, full: Json, ceremony: WebAuthnStore.Ceremony,
                   named: Result<UserStore.User, StoreError>, typed: string, name: string)
    requires Typed(host, ctx, "email", typed) && Typed(host, ctx, "fullName", name)
    requires ceremony != WebAuthnStore.Update ==> UserStore.LoadsAs(s.users, host.lower, LoginId(host, ctx), named)
    ensures OwnedBy(host, s, ctx, task, ArgumentText(host, task, "passkeyLoginId", full), ceremony, typed, name,
                    OwnerOf(host, s.users, s.passkeys, ctx, task, full, ceremony, named))
  {
    hide Typed, UserStore.LoadsAs, ArgumentText, Follow;
    FormReads(host, ctx, typed);
    FormReads(host, ctx, name);
    ReadTwo(ctx, "auth", "userId");
    if ceremony != WebAuthnStore.Update && named.Err? {
      LoadErrs(s.users, host.lower, LoginId(host, ctx), named);
    }
  }

  /** A ceremony was opened for the owner over these octets, with the page the widget is on as the relying party; the
      run remembers it, and the answer carries its options. */
  ghost predicate CeremonyOut(scope: Scope, a: Snapshot, b: Snapshot, o: Outcome, finish: string,
                              ceremony: WebAuthnStore.Ceremony, owner: Owner, t: WebAuthnStore.Transaction)
  {
    && t.ceremony == ceremony && t.loginId == owner.loginId && t.userId == owner.userId
    && t.createdAt == scope.moment.now
    && b.stores == a.stores.(passkeys := WebAuthnStore.Begun(a.stores.passkeys, t, scope.moment.now))
    && b.view == a.view.(ctx := b.view.ctx) && OnlyUnder(a.view.ctx, b.view.ctx, {"pending"})
    && GetPath(b.view.ctx, ["pending", "passkey"])
       == Obj(map["transactionId" := Str(t.id), "loginId" := Str(owner.loginId)])
    && GetPath(b.view.ctx, ["pending", "magicLink"]) == GetPath(a.view.ctx, ["pending", "magicLink"])
    && o.Wait? && o.awaitTask == finish
    && exists env ::
         && Awaits(scope, b.stores, b.view.ctx, finish, env) && OnlyUnder(env, o.envelope, {"action", "webauthn"})
         && Child(o.envelope, "action")
            == Str(if ceremony == WebAuthnStore.SignIn then "webauthnGet" else "webauthnCreate")
         && Child(Child(o.envelope, "webauthn"), "transactionId") == Str(t.id)
         && Child(Child(o.envelope, "webauthn"), "options")
            == Str(scope.host.libs.jsonText(
                     WebAuthnStore.OptionsFor(scope.host.libs, t, owner.displayName,
                                              WebAuthnStore.CredentialsOf(a.stores.passkeys, owner.userId))))
  }

  lemma PasskeyNotedReads(ctx: Json, id: string, loginId: string)
    requires CtxOk(ctx)
    ensures var r := PasskeyNoted(ctx, id, loginId);
            && OnlyUnder(ctx, r, {"pending"})
            && GetPath(r, ["pending", "passkey"]) == Obj(map["transactionId" := Str(id), "loginId" := Str(loginId)])
            && GetPath(r, ["pending", "magicLink"]) == GetPath(ctx, ["pending", "magicLink"])
  {
    var r := PasskeyNoted(ctx, id, loginId);
    ReadTwo(r, "pending", "passkey");
    ReadTwo(r, "pending", "magicLink");
    ReadTwo(ctx, "pending", "magicLink");
    assert r.fields - {"pending"} == ctx.fields - {"pending"};
    KeysOnly(ctx, r, {"pending"});
  }

  lemma CeremonyEnvelopeReads(env: Json, ceremony: WebAuthnStore.Ceremony, id: string, options: string)
    requires env.Obj? && IsWaiting(env) && ErrorCode(env) == Null
    ensures var r := CeremonyEnvelope(env, ceremony, id, options);
            && OnlyUnder(env, r, {"action", "webauthn"})
            && Child(r, "action") == Str(if ceremony == WebAuthnStore.SignIn then "webauthnGet" else "webauthnCreate")
            && Child(Child(r, "webauthn"), "transactionId") == Str(id)
            && Child(Child(r, "webauthn"), "options") == Str(options)
  {
    var r := CeremonyEnvelope(env, ceremony, id, options);
    assert r.fields - {"action", "webauthn"} == env.fields - {"action", "webauthn"};
    KeysOnly(env, r, {"action", "webauthn"});
  }

  lemma HandedReads(scope: Scope, owner: Owner, finish: string, ceremony: WebAuthnStore.Ceremony, a: Snapshot,
                    b: Snapshot, o: Outcome, id: string, challenge: Bytes)
    requires HandedOut(scope, owner, finish, ceremony, a, b, o, id, challenge)
    ensures CeremonyOut(scope, a, b, o, finish, ceremony, owner,
                        CeremonyFor(scope, a.view.ctx, ceremony, owner, id, challenge))
  {
    hide ShowsWait, Awaits, OnlyUnder, CeremonyEnvelope, PasskeyNoted, WebAuthnStore.Begun, WebAuthnStore.OptionsFor,
         RelyingParty;
    var t := CeremonyFor(scope, a.view.ctx, ceremony, owner, id, challenge);
    var options := CeremonyOptions(scope, a.stores.passkeys, t, owner);
    PasskeyNotedReads(a.view.ctx, id, owner.loginId);
    var env :| ShowsWait(scope, b.stores, b.view.ctx, finish, env) && WaitsFor(env, finish)
      && o == Wait(CeremonyEnvelope(env, ceremony, id, options), finish);
    WaitReads(scope, b.stores, b.view.ctx, finish, env);
    CeremonyEnvelopeReads(env, ceremony, id, options);
  }

  /** The relying party is the host of the page the request came from, or else of the page the widget is on. */
  lemma WhoRelies(scope: Scope, ctx: Json, ceremony: WebAuthnStore.Ceremony, owner: Owner, id: string, challenge: Bytes,
                  origin: string, location: string)
    requires Reads(scope.host, GetPath(ctx, ["origin"]), origin)
    requires Reads(scope.host, GetPath(ctx, ["options", "location"]), location)
    ensures CeremonyFor(scope, ctx, ceremony, owner, id, challenge).rpId == RelyingParty(origin, location)
    ensures CeremonyFor(scope, ctx, ceremony, owner, id, challenge).challenge == challenge
  {
    hide RelyingParty, Reads, AsText;
    ReadOne(ctx, "origin");
    ReadTwo(ctx, "options", "location");
    TextIff(scope.host, GetPath(ctx, ["origin"]), origin);
    TextIff(scope.host, GetPath(ctx, ["options", "location"]), location);
  }

  /** The browser is handed a ceremony for its owner, or the run is refused one and nothing changes. */
  lemma WhoseCeremony(scope: Scope, task: Task, ceremony: WebAuthnStore.Ceremony, a: Snapshot, b: Snapshot, o: Outcome,
                      typed: string, name: string)
    returns (owner: Result<Owner, Outcome>, full: Json, t: WebAuthnStore.Transaction)
    requires PasskeyAsked(scope, task, ceremony, a, b, o)
    requires Typed(scope.host, a.view.ctx, "email", typed) && Typed(scope.host, a.view.ctx, "fullName", name)
    ensures IsFullContext(scope, a.stores, a.view.ctx, full)
    ensures OwnedBy(scope.host, a.stores, a.view.ctx, task, ArgumentText(scope.host, task, "passkeyLoginId", full),
                    ceremony, typed, name, owner)
    ensures match owner
            case Err(why) => o == why && b == a
            case Ok(whose) =>
              CeremonyOut(scope, a, b, o, ArgumentText(scope.host, task, "finishStepId", full), ceremony, whose, t)
  {
    hide Typed, UserStore.LoadsAs, IsFullContext, OwnedBy, OwnerOf, HandedOut, CeremonyOut, ArgumentText;
    var finish;
    owner, finish :| OwnerFound(scope, task, ceremony, a.stores, a.view.ctx, owner, finish)
      && AskedFor(scope, owner, finish, ceremony, a, b, o);
    t := NO_CEREMONY;
    var named;
    full, named := FoundHow(scope, task, ceremony, a.stores, a.view.ctx, owner, finish);
    OwnerReads(scope.host, a.stores, a.view.ctx, task, full, ceremony, named, typed, name);
    if owner.Ok? {
      var id, challenge :| HandedOut(scope, owner.value, finish, ceremony, a, b, o, id, challenge);
      HandedReads(scope, owner.value, finish, ceremony, a, b, o, id, challenge);
      t := CeremonyFor(scope, a.view.ctx, ceremony, owner.value, id, challenge);
    }
  }

  lemma FoundHow(scope: Scope, task: Task, ceremony: WebAuthnStore.Ceremony, s: Stores, ctx: Json,
                 owner: Result<Owner, Outcome>, finish: string)
    returns (full: Json, named: Result<UserStore.User, StoreError>)
    requires OwnerFound(scope, task, ceremony, s, ctx, owner, finish)
    ensures IsFullContext(scope, s, ctx, full) && finish == ArgumentText(scope.host, task, "finishStepId", full)
    ensures ceremony != WebAuthnStore.Update ==>
              UserStore.LoadsAs(s.users, scope.host.lower, LoginId(scope.host, ctx), named)
    ensures owner == OwnerOf(scope.host, s.users, s.passkeys, ctx, task, full, ceremony, named)
  {
    hide UserStore.LoadsAs, IsFullContext, OwnerOf, ArgumentText, LoginId;
    full, named :|
      && IsFullContext(scope, s, ctx, full)
      && (ceremony != WebAuthnStore.Update ==>
          UserStore.LoadsAs(s.users, scope.host.lower, LoginId(scope.host, ctx), named))
      && owner == OwnerOf(scope.host, s.users, s.passkeys, ctx, task, full, ceremony, named)
      && finish == ArgumentText(scope.host, task, "finishStepId", full);
  }

  // ------------------------------------------------- passkeys, come back

  /** What a field of a request says; a field that is no text says nothing. */
  ghost predicate Sent(input: Json, field: string, text: string) {
    var v := GetPath(input, [field]);
    text == if v.Str? then v.s else ""
  }

  lemma SentReads(input: Json, field: string, text: string)
    requires Sent(input, field, text)
    ensures TextAt(input, field) == text
  {
    ReadOne(input, field);
  }

  /** What a response has to be: one of the user's own keys signed it; or it offers a passkey, to whoever is signed in,
      or under a login id nobody has. */
  ghost predicate Proves(host: Host, s: Stores, ctx: Json, t: WebAuthnStore.Transaction, response: string) {
    match t.ceremony
    case SignIn =>
      var creds := if t.userId in s.passkeys.credentials then s.passkeys.credentials[t.userId] else [];
      WebAuthnStore.SomeoneSigned(host.libs, creds, t, response)
    case Update => GetPath(ctx, ["auth", "userId"]).Str? && WebAuthnStore.SomethingOffered(host.libs, t, response)
    case SignUp =>
      WebAuthnStore.SomethingOffered(host.libs, t, response) && host.lower(t.loginId) !in s.users.byLoginId
  }

  lemma FinishesIff(host: Host, s: Stores, ctx: Json, t: WebAuthnStore.Transaction, passkeys: WebAuthnStore.State,
                    response: string)
    requires passkeys.credentials == s.passkeys.credentials
    ensures Finishes(host, s.users, passkeys, AuthUser(ctx), t, response) <==> Proves(host, s, ctx, t, response)
  {
    hide WebAuthnStore.SomeoneSigned, WebAuthnStore.SomethingOffered, WebAuthnStore.AssertionOf,
         WebAuthnStore.RegistrationOf;
    ReadTwo(ctx, "auth", "userId");
    WebAuthnStore.SignedIffOk(host.libs, WebAuthnStore.CredentialsOf(passkeys, t.userId), t, response);
    WebAuthnStore.OfferedIffOk(host.libs, t, response);
  }

  /** What an accepted response does: a signature counts for the user it is of and signs that user in; a passkey offered
      is filed under the signed-in user, or under a new account, which is signed in for the first time. */
  ghost predicate AcceptedAs(scope: Scope, a: Snapshot, b: Snapshot, t: WebAuthnStore.Transaction,
                             taken: WebAuthnStore.State, response: string, name: string, newId: string) {
    var libs, signedIn := scope.host.libs, GetPath(a.view.ctx, ["auth", "userId"]);
    match t.ceremony
    case SignIn =>
      && b.stores == a.stores.(passkeys := WebAuthnStore.FinishedAssertion(libs, taken, t, response))
      && BecameSignedIn(a.view, b.view, t.userId, "webauthn", false)
    case Update =>
      && b.view == a.view && signedIn.Str?
      && b.stores == a.stores.(passkeys := WebAuthnStore.FinishedRegistration(libs, taken, t, signedIn.s, response))
    case SignUp =>
      && BecameSignedIn(a.view, b.view, newId, "webauthn", true)
      && exists account ::
           && SignsUp(scope, t, name, newId, account)
           && b.stores == a.stores.(passkeys := WebAuthnStore.FinishedRegistration(libs, taken, t, newId, response),
                                    users := UserStore.Inserted(a.stores.users, account))
  }

  /** The account of a passkey: under the ceremony's identifier in lower case, which is its address if it is one, and by
      the name typed, if any. */
  ghost predicate SignsUp(scope: Scope, t: WebAuthnStore.Transaction, name: string, newId: string,
                          account: UserStore.User) {
    var loginId := scope.host.lower(t.loginId);
    var mail := exists local, domain :: MailShaped(scope.host.trim(loginId), local, domain);
    FreshAccount(account, newId, loginId, if mail then Some(loginId) else None, if name == "" then None else Some(name),
                 scope.moment.now)
  }

  lemma AccountReads(scope: Scope, t: WebAuthnStore.Transaction, name: string, newId: string)
    ensures SignsUp(scope, t, name, newId, PasskeyAccount(scope.host, t, name, newId, scope.moment.now))
  {
    hide MailShaped, LooksLikeEmail;
    MailIff(scope.host, scope.host.lower(t.loginId));
  }

  /** A refused response changes no user, uses the ceremony up, and leaves a passkey behind only if it was offered for a
      login id that is taken. */
  ghost predicate RefusedAs(scope: Scope, a: Snapshot, b: Snapshot, o: Outcome, t: WebAuthnStore.Transaction,
                            taken: WebAuthnStore.State, response: string, newId: string) {
    var libs := scope.host.libs;
    var orphan := t.ceremony == WebAuthnStore.SignUp && WebAuthnStore.SomethingOffered(libs, t, response);
    && b.view == a.view
    && b.stores == a.stores.(passkeys := if orphan
                                         then WebAuthnStore.FinishedRegistration(libs, taken, t, newId, response)
                                         else taken)
    && o == ScreenError(if orphan then "An account already exists for this sign-in."
                        else "The passkey could not be verified. Try again or sign in another way.")
  }

  /** A browser that failed, or that names no open ceremony of this kind, changes nothing. A ceremony it names is used
      up: by a response that proves what the ceremony asks for, or by a refusal. */
  lemma WhatCameBack(scope: Scope, ceremony: WebAuthnStore.Ceremony, input: Json, a: Snapshot, b: Snapshot, o: Outcome,
                     failure: string, id: string, response: string, name: string)
    returns (newId: string)
    requires PasskeyChecked(scope, ceremony, input, a, b, o) && Typed(scope.host, a.view.ctx, "fullName", name)
    requires Sent(input, "failure", failure) && Sent(input, "transactionId", id) && Sent(input, "response", response)
    ensures var open := a.stores.passkeys.transactions;
            if failure != "" then
              b == a && o == ScreenError("The passkey request was cancelled or not allowed (" + failure + ").")
            else if id in open && open[id].ceremony == ceremony then
              var t, taken := open[id], a.stores.passkeys.(transactions := open - {id});
              if Proves(scope.host, a.stores, a.view.ctx, t, response)
              then o == Interaction("success") && AcceptedAs(scope, a, b, t, taken, response, name, newId)
              else RefusedAs(scope, a, b, o, t, taken, response, newId)
            else
              b == a && o == ScreenError("The passkey could not be verified. Try again or sign in another way.")
  {
    hide Typed, Sent, CameBack, Proves, AcceptedAs, RefusedAs;
    SentReads(input, "failure", failure);
    newId := "";
    if failure == "" {
      newId :| CameBack(scope, ceremony, input, a, b, o, newId);
      BackReads(scope, ceremony, input, a, b, o, id, response, name, newId);
    }
  }

  lemma BackReads(scope: Scope, ceremony: WebAuthnStore.Ceremony, input: Json, a: Snapshot, b: Snapshot, o: Outcome,
                  id: string, response: string, name: string, newId: string)
    requires CameBack(scope, ceremony, input, a, b, o, newId) && Typed(scope.host, a.view.ctx, "fullName", name)
    requires Sent(input, "transactionId", id) && Sent(input, "response", response)
    ensures var open := a.stores.passkeys.transactions;
            if id in open && open[id].ceremony == ceremony then
              var t, taken := open[id], a.stores.passkeys.(transactions := open - {id});
              if Proves(scope.host, a.stores, a.view.ctx, t, response)
              then o == Interaction("success") && AcceptedAs(scope, a, b, t, taken, response, name, newId)
              else RefusedAs(scope, a, b, o, t, taken, response, newId)
            else
              b == a && o == ScreenError("The passkey could not be verified. Try again or sign in another way.")
  {
    hide Typed, Sent, Proves, AcceptedAs, RefusedAs, Finishes, PasskeysAfter, WebAuthnStore.RegistrationOf,
         PasskeyAccount, SignedInView;
    SentReads(input, "transactionId", id);
    SentReads(input, "response", response);
    FormReads(scope.host, a.view.ctx, name);
    var open := a.stores.passkeys.transactions;
    if id in open && open[id].ceremony == ceremony {
      var t, taken := open[id], a.stores.passkeys.(transactions := open - {id});
      FinishesIff(scope.host, a.stores, a.view.ctx, t, taken, response);
      if o.Interaction? {
        AcceptedReads(scope, a, b, t, taken, response, name, newId);
      } else {
        RefusedReads(scope, a, b, o, t, taken, response, newId);
      }
    }
  }

  lemma AcceptedReads(scope: Scope, a: Snapshot, b: Snapshot, t: WebAuthnStore.Transaction, taken: WebAuthnStore.State,
                      response: string, name: string, newId: string)
    requires a.view.ctx.Obj? && Finishes(scope.host, a.stores.users, taken, AuthUser(a.view.ctx), t, response)
    requires b.view == if t.ceremony == WebAuthnStore.Update then a.view
                       else SignedInView(a, b.stores, FiledFor(t, AuthUser(a.view.ctx), newId), "webauthn",
                                         t.ceremony == WebAuthnStore.SignUp, PasskeyFinished(t, response))
    requires b.stores
             == a.stores.(passkeys := PasskeysAfter(scope.host, taken, t, AuthUser(a.view.ctx), newId, response),
                                   users := if t.ceremony == WebAuthnStore.SignUp
                                            then UserStore.Inserted(a.stores.users,
                                                                    PasskeyAccount(scope.host, t, name, newId,
                                                                                   scope.moment.now))
                                            else a.stores.users)
    ensures AcceptedAs(scope, a, b, t, taken, response, name, newId)
  {
    hide WebAuthnStore.AssertionOf, WebAuthnStore.RegistrationOf, WebAuthnStore.FinishedAssertion,
         WebAuthnStore.FinishedRegistration, BecameSignedIn, SignsUp, PasskeyAccount, UserStore.Inserted, SignedInView;
    ReadTwo(a.view.ctx, "auth", "userId");
    AccountReads(scope, t, name, newId);
    SignedInWrites(a, b.stores, FiledFor(t, AuthUser(a.view.ctx), newId), "webauthn",
                   t.ceremony == WebAuthnStore.SignUp, PasskeyFinished(t, response));
  }

  lemma RefusedReads(scope: Scope, a: Snapshot, b: Snapshot, o: Outcome, t: WebAuthnStore.Transaction,
                     taken: WebAuthnStore.State, response: string, newId: string)
    requires !Finishes(scope.host, a.stores.users, taken, AuthUser(a.view.ctx), t, response)
    requires o == ScreenError(WhyNot(scope.host, t, response)) && b.view == a.view
    requires b.stores
             == a.stores.(passkeys := PasskeysAfter(scope.host, taken, t, AuthUser(a.view.ctx), newId, response))
    ensures RefusedAs(scope, a, b, o, t, taken, response, newId)
  {
    hide WebAuthnStore.AssertionOf, WebAuthnStore.RegistrationOf, WebAuthnStore.SomethingOffered;
    WebAuthnStore.OfferedIffOk(scope.host.libs, t, response);
  }

  // ------------------------------------------------------------------- SSO

  /** The provider is asked about the hint of the task, or else what was typed, with the way back to the exchange step;
      the browser goes where it says, or the screen says why not. */
  ghost predicate AskedProvider(scope: Scope, a: Snapshot, o: Outcome, typed: string, hint: string, page: string,
                                exchange: string) {
    var host := scope.host;
    match host.startSso(if hint != "" then hint else host.trim(typed),
                        BackUrl(host.urlEncode, page, scope.id, exchange))
    case Err(why) => o == ScreenError("SSO sign-in could not start: " + why)
    case Ok(to) =>
      && o.Wait? && o.awaitTask == exchange
      && exists env ::
           && Awaits(scope, a.stores, a.view.ctx, exchange, env)
           && OnlyUnder(env, o.envelope, {"action", "redirect"})
           && Child(o.envelope, "action") == Str("redirect")
           && Child(o.envelope, "redirect") == Obj(map["url" := Str(to), "isPopup" := Bool(false)])
  }

  /** Nothing changes until the browser is back. */
  lemma WhomSsoAsks(scope: Scope, task: Task, a: Snapshot, b: Snapshot, o: Outcome, typed: string)
    returns (full: Json, page: string)
    requires SsoAsked(scope, task, a, b, o) && Typed(scope.host, a.view.ctx, "email", typed)
    ensures b == a && IsFullContext(scope, a.stores, a.view.ctx, full)
    ensures ReturnsTo(scope.host, a.view.ctx, ArgumentText(scope.host, task, "redirectUrl", full), page)
    ensures AskedProvider(scope, a, o, typed, ArgumentText(scope.host, task, "loginHint", full), page,
                          ArgumentText(scope.host, task, "exchangeStepId", full))
  {
    hide Typed, IsFullContext, ArgumentText, ReturnsTo, BackUrl, PageOf, ShowsWait, Awaits, RedirectEnvelope, OnlyUnder;
    full :|
      && IsFullContext(scope, a.stores, a.view.ctx, full)
      && SentAway(scope, a.stores, a.view.ctx, ProviderUrl(scope, task, a.view.ctx, full),
                  ExchangeStep(scope.host, task, full), o);
    page := PageOf(scope.host, a.view.ctx, ArgumentText(scope.host, task, "redirectUrl", full));
    PageReads(scope.host, a.view.ctx, ArgumentText(scope.host, task, "redirectUrl", full));
    FormReads(scope.host, a.view.ctx, typed);
    var url, exchange := ProviderUrl(scope, task, a.view.ctx, full), ExchangeStep(scope.host, task, full);
    if url.Ok? {
      var env :| ShowsWait(scope, a.stores, a.view.ctx, exchange, env) && WaitsFor(env, exchange)
        && o == Wait(RedirectEnvelope(env, url.value), exchange);
      WaitReads(scope, a.stores, a.view.ctx, exchange, env);
      RedirectReads(env, url.value);
    }
  }

  lemma RedirectReads(env: Json, url: string)
    requires env.Obj? && IsWaiting(env) && ErrorCode(env) == Null
    ensures var r := RedirectEnvelope(env, url);
            && OnlyUnder(env, r, {"action", "redirect"}) && Child(r, "action") == Str("redirect")
            && Child(r, "redirect") == Obj(map["url" := Str(url), "isPopup" := Bool(false)])
  {
    var r := RedirectEnvelope(env, url);
    assert r.fields - {"action", "redirect"} == env.fields - {"action", "redirect"};
    KeysOnly(env, r, {"action", "redirect"});
  }

  /** The code brought back is used up, and signs in the user it stands for unless that is a tenant. */
  lemma WhatACodeFromSsoDoes(input: Json, a: Snapshot, b: Snapshot, o: Outcome, code: string)
    requires SsoChecked(input, a, b, o) && Sent(input, "exchangeCode", code)
    ensures b.stores == a.stores.(tokens := TokenStore.Consumed(a.stores.tokens, code))
    ensures if code in a.stores.tokens.entries then
              var user := a.stores.tokens.entries[code].userId;
              if |user| >= 7 && user[..7] == "tenant:" then o == Fail("E112102", "User not found") && b.view == a.view
              else o == Interaction("success") && BecameSignedIn(a.view, b.view, user, "saml", false)
            else o == Fail("E062503", "The SSO code is not valid") && b.view == a.view
  {
    hide BecameSignedIn, TokenStore.Consumed, SignedInView;
    ReadOne(input, "exchangeCode");
    var user := ExchangedFor(a.stores.tokens, code);
    if user.Ok? {
      SignedInWrites(a, b.stores, user.value, "saml", false, SsoCodeConsumed(code));
    }
  }
}
