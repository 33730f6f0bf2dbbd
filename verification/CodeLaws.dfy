/** Codes and links, spelled out: whom they go to, what is remembered of them, and what they prove. */
module CodeLaws {
  import opened Wrappers
  import opened Json
  import opened FlowGraph
  import opened FlowRun
  import opened FlowConditions
  import opened FlowState
  import opened FlowContext
  import opened FlowCodes
  import opened FlowUrls
  import opened ConditionLaws
  import opened ContextLaws
  import opened AccountLaws
  import FlowStore
  import TokenStore
  import UserStore

  // -------------------------------------------------------------- sending

  /** Where it goes: the stored address, or what was typed. */
  ghost predicate GoesTo(host: Host, users: UserStore.Users, typed: string, channel: Channel, userId: string,
                         to: string)
  {
    var stored := if userId !in users.byUserId then None
                  else if channel == Email then users.byUserId[userId].email else users.byUserId[userId].phone;
    to == if stored.Some? then stored.value else host.trim(typed)
  }

  lemma AddressReads(host: Host, users: UserStore.Users, ctx: Json, typed: string, channel: Channel, userId: string)
    requires Typed(host, ctx, "email", typed)
    ensures GoesTo(host, users, typed, channel, userId, Address(host, users, ctx, channel, userId))
  {
    hide Typed;
    FormReads(host, ctx, typed);
  }

  /** One code was stored for the user, who is pending now, and where it went is noted, masked. */
  ghost predicate CodeOut(host: Host, a: Snapshot, b: Snapshot, typed: string, channel: Channel, userId: string,
                          created: bool)
  {
    && userId in b.stores.otps && b.stores.otps == a.stores.otps[userId := b.stores.otps[userId]]
    && b.view == a.view.(ctx := b.view.ctx) && OnlyUnder(a.view.ctx, b.view.ctx, {"pending", "sentTo"})
    && GetPath(b.view.ctx, ["pending", "code"]) == Obj(map["userId" := Str(userId), "created" := Bool(created)])
    && GetPath(b.view.ctx, ["pending", "magicLink"]) == GetPath(a.view.ctx, ["pending", "magicLink"])
    && exists to ::
         && GoesTo(host, b.stores.users, typed, channel, userId, to)
         && GetPath(b.view.ctx, ["sentTo", if channel == Email then "maskedEmail" else "maskedPhone"])
            == Str(if channel == Email then host.maskEmail(to) else host.maskPhone(to))
  }

  lemma CodeNotedReads(host: Host, ctx: Json, channel: Channel, to: string, userId: string, created: bool)
    requires CtxOk(ctx)
    ensures var r := CodeNoted(host, ctx, channel, to, userId, created);
            && OnlyUnder(ctx, r, {"pending", "sentTo"})
            && GetPath(r, ["pending", "code"]) == Obj(map["userId" := Str(userId), "created" := Bool(created)])
            && GetPath(r, ["pending", "magicLink"]) == GetPath(ctx, ["pending", "magicLink"])
            && GetPath(r, ["sentTo", if channel == Email then "maskedEmail" else "maskedPhone"])
               == Str(if channel == Email then host.maskEmail(to) else host.maskPhone(to))
  {
    var r := CodeNoted(host, ctx, channel, to, userId, created);
    ReadTwo(r, "pending", "code");
    ReadTwo(r, "pending", "magicLink");
    ReadTwo(ctx, "pending", "magicLink");
    ReadTwo(r, "sentTo", if channel == Email then "maskedEmail" else "maskedPhone");
    assert r.fields - {"pending", "sentTo"} == ctx.fields - {"pending", "sentTo"};
    KeysOnly(ctx, r, {"pending", "sentTo"});
  }

  /** An account as a sign-up makes it: the one login id, enabled, nothing verified, no password. */
  ghost predicate FreshAccount(u: UserStore.User, id: string, loginId: string, email: Option<string>,
                               name: Option<string>, now: nat)
  {
    && u.userId == id && u.loginIds == [loginId] && u.email == email && u.name == name && u.phone.None?
    && u.status == "enabled" && !u.verifiedEmail && !u.verifiedPhone && u.createdTime == now && u.lastLogin.None?
    && !u.password && u.passwordHash.None? && u.roleNames == [] && u.userTenants == [] && u.customAttributes == map[]
    && !u.saml && !u.isTestUser
  }

  /** The text typed, trimmed again, is an address. */
  ghost predicate Mailable(host: Host, typed: string) {
    exists local, domain :: MailShaped(host.trim(host.trim(typed)), local, domain)
  }

  /** The target gets the code. Without one, a new account does, if the task may make one, the text is an address, and
      it is free; if it is taken the screen says so, and otherwise that there is nobody. */
  lemma WhomACodeGoesTo(scope: Scope, task: Task, channel: Channel, maySignUp: bool, a: Snapshot, b: Snapshot,
                        o: Outcome, typed: string)
    returns (target: Option<string>, account: UserStore.User)
    requires CodeSent(scope, task, channel, maySignUp, a, b, o) && Typed(scope.host, a.view.ctx, "email", typed)
    ensures ActsFor(scope.host, a.stores.users, a.view.ctx, typed, target)
    ensures b.stores == a.stores.(users := b.stores.users, otps := b.stores.otps)
    ensures var host := scope.host;
            var free := host.lower(host.trim(typed)) !in a.stores.users.byLoginId;
            if target.Some? then
              && b.stores.users == a.stores.users && o == Interaction("success")
              && CodeOut(host, a, b, typed, channel, target.value, false)
            else if maySignUp && channel == Email && Mailable(host, typed) then
              if free then
                && FreshAccount(account, account.userId, host.lower(host.trim(typed)),
                                Some(host.lower(host.trim(typed))), None, scope.moment.now)
                && b.stores.users == UserStore.Inserted(a.stores.users, account) && o == Interaction("success")
                && CodeOut(host, a, b, typed, channel, account.userId, true)
              else b == a && o == ScreenError("The account could not be created.")
            else b == a && RefusedWith(task, "UserDoesNotExists", "No account was found for this sign-in.", o)
  {
    hide Typed, ActsFor, Targets, CodeOut, Follow, UserStore.Inserted, LooksLikeEmail;
    var host, ctx := scope.host, a.view.ctx;
    var user;
    target, user :|
      && CodeGoesTo(scope, a.stores.users, b.stores.users, ctx, channel, maySignUp, target, user)
      && OneCode(a.stores.otps, b.stores.otps, user)
      && if user.None? then o == CodeRefusal(host, task, ctx, channel, maySignUp) && b.view == a.view
         else
           var to := Address(host, b.stores.users, ctx, channel, user.value);
           o == SUCCESS && b.view == a.view.(ctx := CodeNoted(host, ctx, channel, to, user.value, target.None?));
    account := CodeAccount(host, ctx, if user.Some? then user.value else "", scope.moment.now);
    TargetReads(host, a.stores.users, ctx, typed, target);
    FormReads(host, ctx, typed);
    MailIff(host, LoginId(host, ctx));
    if user.Some? {
      CodeIsOut(scope, channel, a, b, typed, user.value, target.None?);
    }
  }

  lemma CodeIsOut(scope: Scope, channel: Channel, a: Snapshot, b: Snapshot, typed: string, userId: string,
                  created: bool)
    requires CtxOk(a.view.ctx) && OneCode(a.stores.otps, b.stores.otps, Some(userId))
    requires Typed(scope.host, a.view.ctx, "email", typed)
    requires var to := Address(scope.host, b.stores.users, a.view.ctx, channel, userId);
             b.view == a.view.(ctx := CodeNoted(scope.host, a.view.ctx, channel, to, userId, created))
    ensures CodeOut(scope.host, a, b, typed, channel, userId, created)
  {
    hide Typed, GoesTo, CodeNoted, OnlyUnder;
    var to := Address(scope.host, b.stores.users, a.view.ctx, channel, userId);
    AddressReads(scope.host, b.stores.users, a.view.ctx, typed, channel, userId);
    CodeNotedReads(scope.host, a.view.ctx, channel, to, userId, created);
    assert b.stores.otps == a.stores.otps[userId := b.stores.otps[userId]];
  }

  // ------------------------------------------------------------- checking

  /** The address is marked verified for the user, if its first login id leads to it, and for nobody else; without a
      login id nobody is. */
  ghost predicate AddressProved(users: UserStore.Users, users': UserStore.Users, userId: string, channel: Channel) {
    && (userId !in users.byUserId || users.byUserId[userId].loginIds == [] ==> users' == users)
    && (userId in users.byUserId && users.byUserId[userId].loginIds != []
        && users.byUserId[userId].loginIds[0] in users.byLoginId
        && users.byLoginId[users.byUserId[userId].loginIds[0]] == userId ==>
          var u := users.byUserId[userId];
          users' == users.(byUserId := users.byUserId[userId :=
                             if channel == Email then u.(verifiedEmail := true) else u.(verifiedPhone := true)]))
  }

  lemma ProvedReads(lower: string -> string, users: UserStore.Users, users': UserStore.Users, userId: string,
                    channel: Channel)
    requires VerifiedIn(lower, users, users', userId, channel)
    ensures AddressProved(users, users', userId, channel)
  {
    if FiledUnder(users, userId) {
      FiledIsMarked(lower, users, users', userId, channel);
    }
  }

  /** The pending user's own code, typed, is taken once, proves the address, and signs that user in unless somebody is;
      anything else is refused and changes nothing. */
  lemma WhatACodeProves(scope: Scope, channel: Channel, a: Snapshot, b: Snapshot, o: Outcome, typed: string)
    requires CodeChecked(scope, channel, a, b, o) && Typed(scope.host, a.view.ctx, "code", typed)
    ensures var pending, code := GetPath(a.view.ctx, ["pending", "code", "userId"]), scope.host.trim(typed);
            if pending.Str? && pending.s in a.stores.otps && a.stores.otps[pending.s] == code then
              && o == Interaction("success")
              && b.stores == a.stores.(otps := a.stores.otps - {pending.s}, users := b.stores.users)
              && AddressProved(a.stores.users, b.stores.users, pending.s, channel)
              && if GetPath(a.view.ctx, ["auth", "userId"]).Str? then b.view == a.view
                 else BecameSignedIn(a.view, b.view, pending.s, if channel == Email then "email" else "sms",
                                     GetPath(a.view.ctx, ["pending", "code", "created"]) == Bool(true))
            else b == a && o == ScreenError("Incorrect code. Check the code and try again.")
  {
    hide Typed, VerifiedIn, AddressProved, BecameSignedIn;
    FormReads(scope.host, a.view.ctx, typed);
    ReadThree(a.view.ctx, "pending", "code", "userId");
    ReadThree(a.view.ctx, "pending", "code", "created");
    ReadTwo(a.view.ctx, "auth", "userId");
    var taken := TakenFor(scope.host, a.view.ctx, a.stores.otps);
    if taken.Some? {
      ProvedReads(scope.host.lower, a.stores.users, b.stores.users, taken.value, channel);
      SignedInWrites(a, b.stores, taken.value, if channel == Email then "email" else "sms",
                     GetPath(a.view.ctx, ["pending", "code", "created"]) == Bool(true),
                     CodeConsumed(TypedCode(scope.host, a.view.ctx)));
    }
  }

  // ---------------------------------------------------------------- links

  /** A link went out: a new entry for the user in the store, and the pending one of this run, not yet verified. */
  ghost predicate LinkOut(scope: Scope, a: Snapshot, b: Snapshot, typed: string, userId: string, token: string) {
    && b.stores == a.stores.(tokens := TokenStore.Inserted(a.stores.tokens, token,
                                                           TokenStore.TokenEntry(userId, TokenStore.Magic,
                                                                                 scope.moment.now)))
    && b.view == a.view.(ctx := b.view.ctx, history := b.view.history)
    && OnlyUnder(a.view.ctx, b.view.ctx, {"pending", "sentTo"})
    && GetPath(b.view.ctx, ["pending", "magicLink"])
       == Obj(map["token" := Str(token), "userId" := Str(userId), "verified" := Bool(false)])
    && exists to :: GoesTo(scope.host, a.stores.users, typed, Email, userId, to)
                    && GetPath(b.view.ctx, ["sentTo", "maskedEmail"]) == Str(scope.host.maskEmail(to))
  }

  lemma LinkNotedReads(ctx: Json, masked: string, link: Link)
    requires CtxOk(ctx)
    ensures var r := LinkNoted(ctx, masked, link);
            && OnlyUnder(ctx, r, {"pending", "sentTo"})
            && GetPath(r, ["pending", "magicLink"])
               == Obj(map["token" := Str(link.token), "userId" := Str(link.user), "verified" := Bool(false)])
            && GetPath(r, ["sentTo", "maskedEmail"]) == Str(masked)
  {
    var r := LinkNoted(ctx, masked, link);
    ReadTwo(r, "pending", "magicLink");
    ReadTwo(r, "sentTo", "maskedEmail");
    assert r.fields - {"pending", "sentTo"} == ctx.fields - {"pending", "sentTo"};
    KeysOnly(ctx, r, {"pending", "sentTo"});
  }

  /** A link goes to the target, for an update only to the signed-in user; without one, nothing happens. */
  lemma WhomALinkGoesTo(scope: Scope, task: Task, updateUser: bool, a: Snapshot, b: Snapshot, o: Outcome, typed: string)
    returns (target: Option<string>, token: string)
    requires LinkWentOut(scope, task, updateUser, a, b, o) && Typed(scope.host, a.view.ctx, "email", typed)
    ensures var id := GetPath(a.view.ctx, ["auth", "userId"]);
            if updateUser then target == (if id.Str? then Some(id.s) else None)
            else ActsFor(scope.host, a.stores.users, a.view.ctx, typed, target)
    ensures if target.Some? then o == Interaction("success") && LinkOut(scope, a, b, typed, target.value, token)
            else b == a && RefusedWith(task, "UserDoesNotExists", "No account was found for this sign-in.", o)
  {
    hide Typed, ActsFor, Targets, LinkOut, Follow, LinkNotedFor;
    token := "";
    target :| LinkFor(scope.host, a.stores.users, a.view.ctx, updateUser, target)
      && LinkSentTo(scope, task, a, b, target, o);
    ReadTwo(a.view.ctx, "auth", "userId");
    if !updateUser {
      TargetReads(scope.host, a.stores.users, a.view.ctx, typed, target);
    }
    if target.Some? {
      token :| LinkNotedFor(scope, a, b, Link(token, target.value));
      LinkIsOut(scope, a, b, typed, Link(token, target.value));
    }
  }

  lemma LinkIsOut(scope: Scope, a: Snapshot, b: Snapshot, typed: string, link: Link)
    requires LinkNotedFor(scope, a, b, link) && Typed(scope.host, a.view.ctx, "email", typed)
    ensures LinkOut(scope, a, b, typed, link.user, link.token)
  {
    hide Typed, GoesTo, LinkNoted, OnlyUnder, TokenStore.Inserted;
    var to := Address(scope.host, a.stores.users, a.view.ctx, Email, link.user);
    AddressReads(scope.host, a.stores.users, a.view.ctx, typed, Email, link.user);
    LinkNotedReads(a.view.ctx, scope.host.maskEmail(to), link);
  }

  /** The page a link or a provider leads back to: the task's own, or else the widget's, or the one the widget is on. */
  ghost predicate ReturnsTo(host: Host, ctx: Json, given: string, page: string) {
    exists redirectUrl, location ::
      && Reads(host, GetPath(ctx, ["options", "redirectUrl"]), redirectUrl)
      && Reads(host, GetPath(ctx, ["options", "location"]), location)
      && page == ReturnUrl(given, redirectUrl, location)
  }

  lemma PageReads(host: Host, ctx: Json, given: string)
    ensures ReturnsTo(host, ctx, given, PageOf(host, ctx, given))
  {
    hide Reads, AsText, ReturnUrl;
    ReadTwo(ctx, "options", "redirectUrl");
    ReadTwo(ctx, "options", "location");
    TextIff(host, GetPath(ctx, ["options", "redirectUrl"]), OptionText(host, ctx, "redirectUrl"));
    TextIff(host, GetPath(ctx, ["options", "location"]), OptionText(host, ctx, "location"));
  }

  /** Whoever reads the mail finds the token, and the address that brings it to the step that checks it, under where it
      went and under what was typed. */
  lemma WhatIsSent(scope: Scope, task: Task, s: Stores, ctx: Json, link: Link, links: map<string, FlowStore.SentLink>,
                   links': map<string, FlowStore.SentLink>, typed: string)
    returns (full: Json, page: string, to: string)
    requires LinkRecorded(scope, task, s, ctx, link, links, links') && Typed(scope.host, ctx, "email", typed)
    ensures IsFullContext(scope, s, ctx, full)
    ensures ReturnsTo(scope.host, ctx, ArgumentText(scope.host, task, "uri", full), page)
    ensures GoesTo(scope.host, s.users, typed, Email, link.user, to)
    ensures var host := scope.host;
            var step := ArgumentText(host, task, "verifyStepId", full);
            var record := FlowStore.SentLink(link.token, LinkUrl(host.urlEncode, page, scope.id, step, link.token),
                                             scope.id);
            links' == links[host.lower(to) := record][host.lower(host.trim(typed)) := record]
  {
    hide Typed, IsFullContext, ArgumentText, ReturnsTo, GoesTo, PageOf, LinkUrl, Address, LoginId;
    full :|
      && IsFullContext(scope, s, ctx, full)
      && var record := LinkRecord(scope, task, ctx, full, link.token);
      var email := scope.host.lower(Address(scope.host, s.users, ctx, Email, link.user));
      links' == links[email := record][scope.host.lower(LoginId(scope.host, ctx)) := record];
    page := PageOf(scope.host, ctx, ArgumentText(scope.host, task, "uri", full));
    PageReads(scope.host, ctx, ArgumentText(scope.host, task, "uri", full));
    to := Address(scope.host, s.users, ctx, Email, link.user);
    AddressReads(scope.host, s.users, ctx, typed, Email, link.user);
    FormReads(scope.host, ctx, typed);
  }

  /** The token of the pending link, while the store holds it, is taken, proves the address, marks the link verified,
      and signs in the entry's user unless somebody is; any other is refused, and changes nothing. */
  lemma WhatALinkProves(scope: Scope, input: Json, a: Snapshot, b: Snapshot, o: Outcome)
    requires LinkChecked(scope, input, a, b, o)
    ensures var given, pending := GetPath(input, ["token"]), GetPath(a.view.ctx, ["pending", "magicLink", "token"]);
            if given.Str? && given.s != "" && pending == given && given.s in a.stores.tokens.entries then
              var userId := a.stores.tokens.entries[given.s].userId;
              && o == Interaction("success")
              && b.stores == a.stores.(tokens := TokenStore.Consumed(a.stores.tokens, given.s), users := b.stores.users)
              && AddressProved(a.stores.users, b.stores.users, userId, Email)
              && GetPath(b.view.ctx, ["pending", "magicLink", "verified"]) == Bool(true)
              && OnlyUnder(a.view.ctx, b.view.ctx, {"pending", "auth"})
              && GetPath(b.view.ctx, ["auth"])
                 == if GetPath(a.view.ctx, ["auth", "userId"]).Str? then GetPath(a.view.ctx, ["auth"])
                    else Obj(map["userId" := Str(userId), "method" := Str("magiclink"), "firstSeen" := Bool(false)])
            else
              && b == a
              && o == Fail("E062503", if given.Str? && given.s != "" && pending == given
                                      then "The sign-in link has expired or was already used"
                                      else "The sign-in link is not valid")
  {
    hide VerifiedIn, AddressProved, OnlyUnder, TokenStore.Consumed;
    var ctx := a.view.ctx;
    ReadOne(input, "token");
    ReadThree(ctx, "pending", "magicLink", "token");
    ReadTwo(ctx, "auth", "userId");
    if LinkAccepted(ctx, a.stores.tokens, Child(input, "token")) {
      var user := a.stores.tokens.entries[Child(input, "token").s].userId;
      ProvedReads(scope.host.lower, a.stores.users, b.stores.users, user, Email);
      LinkTakenReads(ctx, user);
    }
  }

  lemma LinkTakenReads(ctx: Json, user: string)
    requires CtxOk(ctx) && MagicLink(ctx).Obj?
    ensures var r := LinkTaken(ctx, user);
            && GetPath(r, ["pending", "magicLink", "verified"]) == Bool(true)
            && OnlyUnder(ctx, r, {"pending", "auth"})
            && GetPath(r, ["auth"])
               == if AuthUser(ctx).Some? then GetPath(ctx, ["auth"])
                  else Obj(map["userId" := Str(user), "method" := Str("magiclink"), "firstSeen" := Bool(false)])
  {
    var r := LinkTaken(ctx, user);
    ReadThree(r, "pending", "magicLink", "verified");
    ReadOne(r, "auth");
    ReadOne(ctx, "auth");
    assert r.fields - {"pending", "auth"} == ctx.fields - {"pending", "auth"};
    KeysOnly(ctx, r, {"pending", "auth"});
  }
}
