/** The actions that send a code or a link, and those that take one back. */
module FlowCodes {
  import opened Wrappers
  import opened Json
  import opened FlowGraph
  import opened FlowRun
  import opened FlowConditions
  import opened FlowState
  import opened FlowContext
  import opened FlowActions
  import opened FlowUrls
  import FlowStore
  import TokenStore
  import UserStore

  datatype Channel = Email | Sms

  // ----------------------------------------------------------------- codes

  /** A change to `sentTo` and `pending` that leaves the pending link alone. */
  ghost predicate Noting(before: Json, after: Json) {
    && before.Obj? && after.Obj? && Child(after, "sentTo").Obj? && Child(after, "pending").Obj?
    && (forall k | k != "sentTo" && k != "pending" :: Child(after, k) == Child(before, k))
    && MagicLink(after) == MagicLink(before)
  }

  lemma NotingOk(a: Snapshot, t: Stores, ctx: Json, o: Outcome)
    requires Ready(a.view) && Open(a.view.history) && Noting(a.view.ctx, ctx) && StillOpen(o)
    ensures ActionOk(NoMeans, a, Snapshot(t, a.view.(ctx := ctx)), o)
  {
    assert Child(ctx, "lastEnvelope") == Child(a.view.ctx, "lastEnvelope");
    assert Child(ctx, "screenTask") == Child(a.view.ctx, "screenTask");
    assert Child(ctx, "auth") == Child(a.view.ctx, "auth");
  }

  function NewAccount(userId: string, loginId: string, email: Option<string>, name: Option<string>, now: nat)
    : UserStore.User
  {
    UserStore.User(userId, [loginId], email, None, name, None, None, None, None, false, false, [], [], "enabled", now,
                   map[],
                   false, false, None, false, None)
  }

  lemma OneLoginId(s: UserStore.Users, u: UserStore.User)
    requires |u.loginIds| == 1
    ensures UserStore.Conflict(s, u) <==> u.loginIds[0] in s.byLoginId
  {
    assert u.loginIds[0] in u.loginIds;
  }

  /** The account a code signs up. */
  function CodeAccount(host: Host, ctx: Json, userId: string, now: nat): UserStore.User {
    NewAccount(userId, host.lower(LoginId(host, ctx)), Some(host.lower(LoginId(host, ctx))), None, now)
  }

  /** Nobody is there to send a code to, but the flow may sign the address up. */
  predicate MaySignUp(host: Host, ctx: Json, channel: Channel, allowed: bool) {
    allowed && channel == Email && LooksLikeEmail(host, LoginId(host, ctx))
  }

  /** What a request for a code shows when there is nobody to send one to. */
  function CodeRefusal(host: Host, task: Task, ctx: Json, channel: Channel, maySignUp: bool): (o: Outcome)
    ensures Plain(o) && o != SUCCESS
  {
    if MaySignUp(host, ctx, channel, maySignUp) then ScreenError(NOT_CREATED)
    else HandledError(task, "UserDoesNotExists", NO_ACCOUNT)
  }

  /** Whom a code goes to, if anybody: the target, else a new account when the flow allows it and the address is
      free. */
  ghost predicate CodeGoesTo(scope: Scope, before: UserStore.Users, after: UserStore.Users, ctx: Json, channel: Channel,
                             maySignUp: bool, target: Option<string>, user: Option<string>) {
    var host := scope.host;
    && Targets(host, before, ctx, target)
    && (target.Some? ==> user == target)
    && (target.None? ==>
          (user.Some? <==>
           MaySignUp(host, ctx, channel, maySignUp) && host.lower(LoginId(host, ctx)) !in before.byLoginId))
    && after == (if target.None? && user.Some?
                 then UserStore.Inserted(before, CodeAccount(host, ctx, user.value, scope.moment.now)) else before)
  }

  /** The user to send a code to. */
  method CodeRecipient(state: EmulatorState, scope: Scope, ctx: Json, channel: Channel, maySignUp: bool)
    returns (userId: Option<string>, created: bool, ghost target: Option<string>)
    requires state.users.lower == state.host.lower && scope.host == state.host
    modifies state.users
    ensures CodeGoesTo(scope, old(state.users.View()), state.users.View(), ctx, channel, maySignUp, target, userId)
    ensures created == (target.None? && userId.Some?)
  {
    created := false;
    userId := TargetUserId(state, ctx);
    target := userId;
    if userId.None? && MaySignUp(state.host, ctx, channel, maySignUp) {
      var newId := RandomText();
      var user := CodeAccount(state.host, ctx, newId, scope.moment.now);
      OneLoginId(state.users.View(), user);
      var inserted := state.users.Insert(user);
      if inserted.Ok? {
        userId, created := Some(newId), true;
      }
    }
  }

  function SentNoted(ctx: Json, key: string, masked: string): (r: Json)
    requires CtxOk(ctx)
    ensures OnlyKey(ctx, r, "sentTo") && CtxOk(r) && Child(r, "pending") == Child(ctx, "pending")
  {
    WithIn(ctx, "sentTo", key, Str(masked))
  }

  function WithCode(ctx: Json, userId: string, created: bool): (r: Json)
    requires CtxOk(ctx)
    ensures OnlyKey(ctx, r, "pending") && CtxOk(r) && MagicLink(r) == MagicLink(ctx) && PendingCode(r) == Some(userId)
  {
    WithIn(ctx, "pending", "code", Obj(map["userId" := Str(userId), "created" := Bool(created)]))
  }

  /** The context after a code went to `to`. */
  function CodeNoted(host: Host, ctx: Json, channel: Channel, to: string, userId: string, created: bool): (r: Json)
    requires CtxOk(ctx)
    ensures Noting(ctx, r) && PendingCode(r) == Some(userId)
  {
    var masked := if channel == Email then host.maskEmail(to) else host.maskPhone(to);
    WithCode(SentNoted(ctx, if channel == Email then "maskedEmail" else "maskedPhone", masked), userId, created)
  }

  /** Where a code for this user goes: the stored address, or what was typed. */
  function Address(host: Host, users: UserStore.Users, ctx: Json, channel: Channel, userId: string): string {
    var u := UserStore.Fetched(users, Some(userId));
    if u.Ok? then UserStore.Or(if channel == Email then u.value.email else u.value.phone, LoginId(host, ctx))
    else LoginId(host, ctx)
  }

  method CodeAddress(state: EmulatorState, ctx: Json, channel: Channel, userId: string) returns (to: string)
    ensures to == Address(state.host, state.users.View(), ctx, channel, userId)
  {
    var u := state.users.LoadByUserId(userId);
    to := LoginId(state.host, ctx);
    if u.Ok? {
      to := UserStore.Or(if channel == Email then u.value.email else u.value.phone, to);
    }
  }

  /** One code more, for `user`, if there is one. */
  ghost predicate OneCode(otps: map<string, string>, otps': map<string, string>, user: Option<string>) {
    if user.None? then otps' == otps else user.value in otps' && otps' == otps[user.value := otps'[user.value]]
  }

  /** Stores one code for the recipient: `to` is where it goes. */
  method IssueCode(state: EmulatorState, scope: Scope, ctx: Json, channel: Channel, maySignUp: bool)
    returns (user: Option<string>, to: string, created: bool, ghost target: Option<string>)
    requires state.users.lower == state.host.lower && scope.host == state.host
    modifies state.users, state.otps
    ensures CodeGoesTo(scope, old(state.users.View()), state.users.View(), ctx, channel, maySignUp, target, user)
    ensures created == (target.None? && user.Some?) && OneCode(old(state.otps.pending), state.otps.pending, user)
    ensures user.Some? ==> to == Address(state.host, state.users.View(), ctx, channel, user.value)
  {
    to := "";
    user, created, target := CodeRecipient(state, scope, ctx, channel, maySignUp);
    if user.Some? {
      to := CodeAddress(state, ctx, channel, user.value);
      var code := RandomText();
      state.otps.Store(user.value, code);
    }
  }

  /** One code went to the recipient, and the run remembers that very user and where the code went; without a recipient
      neither the run nor the codes changed. */
  ghost predicate CodeSent(scope: Scope, task: Task, channel: Channel, maySignUp: bool, a: Snapshot, b: Snapshot,
                           o: Outcome)
  {
    var host, ctx := scope.host, a.view.ctx;
    && CtxOk(ctx) && b.stores == a.stores.(users := b.stores.users, otps := b.stores.otps)
    && exists target, user ::
         && CodeGoesTo(scope, a.stores.users, b.stores.users, ctx, channel, maySignUp, target, user)
         && OneCode(a.stores.otps, b.stores.otps, user)
         && if user.None? then o == CodeRefusal(host, task, ctx, channel, maySignUp) && b.view == a.view
            else
              var to := Address(host, b.stores.users, ctx, channel, user.value);
              o == SUCCESS && b.view == a.view.(ctx := CodeNoted(host, ctx, channel, to, user.value, target.None?))
  }

  lemma CodeSentAre(scope: Scope, task: Task, channel: Channel, maySignUp: bool, a: Snapshot, b: Snapshot,
                    target: Option<string>, user: Option<string>, o: Outcome)
    requires CtxOk(a.view.ctx) && b.stores == a.stores.(users := b.stores.users, otps := b.stores.otps)
    requires CodeGoesTo(scope, a.stores.users, b.stores.users, a.view.ctx, channel, maySignUp, target, user)
    requires OneCode(a.stores.otps, b.stores.otps, user)
    requires if user.None? then o == CodeRefusal(scope.host, task, a.view.ctx, channel, maySignUp) && b.view == a.view
             else
               var to := Address(scope.host, b.stores.users, a.view.ctx, channel, user.value);
               && o == SUCCESS
               && b.view == a.view.(ctx := CodeNoted(scope.host, a.view.ctx, channel, to, user.value, target.None?))
    ensures CodeSent(scope, task, channel, maySignUp, a, b, o)
  {
  }

  /** Remembers where a code went, if one did. */
  method NoteCode(host: Host, run: Run, channel: Channel, to: string, user: Option<string>, created: bool,
                  refusal: Outcome, ghost a: Snapshot, ghost t: Stores)
    returns (o: Outcome)
    requires a.view == run.View() && Ready(a.view) && Open(a.view.history) && Plain(refusal)
    modifies run`ctx
    ensures o == (if user.Some? then SUCCESS else refusal) && ActionOk(NoMeans, a, Snapshot(t, run.View()), o)
    ensures run.View() == if user.None? then a.view
                          else a.view.(ctx := CodeNoted(host, a.view.ctx, channel, to, user.value, created))
  {
    if user.Some? {
      o := SUCCESS;
      run.ctx := CodeNoted(host, run.ctx, channel, to, user.value, created);
      NotingOk(a, t, run.ctx, o);
    } else {
      o := refusal;
      UnchangedOk(NoMeans, a, t, o);
    }
  }

  /** Sends a code to whom `CodeGoesTo` says. */
  method SendCode(state: EmulatorState, scope: Scope, run: Run, task: Task, channel: Channel, maySignUp: bool)
    returns (o: Outcome)
    requires CanRun(state, scope, run)
    modifies run`ctx, state.users, state.otps
    ensures state.Valid() && ActionOk(NoMeans, old(Snap(state, run)), Snap(state, run), o)
    ensures CodeSent(scope, task, channel, maySignUp, old(Snap(state, run)), Snap(state, run), o)
  {
    ghost var a := Snap(state, run);
    var user, to, created;
    ghost var target;
    user, to, created, target := IssueCode(state, scope, run.ctx, channel, maySignUp);
    o := NoteCode(state.host, run, channel, to, user, created,
                  CodeRefusal(state.host, task, run.ctx, channel, maySignUp),
                  a, state.Stores());
    CodeSentAre(scope, task, channel, maySignUp, a, Snap(state, run), target, user, o);
  }

  function PendingCode(ctx: Json): Option<string> {
    TextOf(Child(Child(Child(ctx, "pending"), "code"), "userId"))
  }

  /** The user is stored and its first login id leads to it. */
  ghost predicate FiledUnder(s: UserStore.Users, userId: string) {
    && userId in s.byUserId && s.byUserId[userId].loginIds != []
    && s.byUserId[userId].loginIds[0] in s.byLoginId && s.byLoginId[s.byUserId[userId].loginIds[0]] == userId
  }

  function Marked(s: UserStore.Users, userId: string, patch: UserStore.UserPatch): UserStore.Users
    requires userId in s.byUserId
  {
    UserStore.WithUser(s, userId, UserStore.Merged(s.byUserId[userId], patch))
  }

  function VerifiedPatch(channel: Channel): UserStore.UserPatch {
    if channel == Email then UserStore.NO_CHANGE.(verifiedEmail := Some(true))
    else UserStore.NO_CHANGE.(verifiedPhone := Some(true))
  }

  /** The address a user just proved is marked, if the user is still stored: whoever the first login id resolves to is
      patched, and nobody else. */
  ghost predicate VerifiedIn(lower: string -> string, users: UserStore.Users, users': UserStore.Users, userId: string,
                             channel: Channel) {
    var u := UserStore.Fetched(users, Some(userId));
    if u.Err? || u.value.loginIds == [] then users' == users
    else
      exists uid :: UserStore.ResolvesTo(users, lower, u.value.loginIds[0], uid)
        && users' == if uid.Some? && uid.value in users.byUserId then Marked(users, uid.value, VerifiedPatch(channel))
                     else users
  }

  /** A user its first login id leads to is the one marked. */
  lemma FiledIsMarked(lower: string -> string, users: UserStore.Users, users': UserStore.Users, userId: string,
                      channel: Channel)
    requires VerifiedIn(lower, users, users', userId, channel) && FiledUnder(users, userId)
    ensures users' == Marked(users, userId, VerifiedPatch(channel))
  {
  }

  method MarkVerified(state: EmulatorState, userId: string, channel: Channel)
    requires state.users.lower == state.host.lower
    modifies state.users
    ensures VerifiedIn(state.host.lower, old(state.users.View()), state.users.View(), userId, channel)
  {
    var u := state.users.LoadByUserId(userId);
    if u.Ok? && u.value.loginIds != [] {
      var _, _ := state.users.Patch(u.value.loginIds[0], VerifiedPatch(channel));
    }
  }

  function TypedCode(host: Host, ctx: Json): string {
    host.trim(AsText(host, Child(Child(ctx, "form"), "code")))
  }

  /** The typed code is the one the pending user was sent. */
  predicate CodeAccepted(host: Host, ctx: Json, otps: map<string, string>) {
    var user := PendingCode(ctx);
    user.Some? && user.value in otps && otps[user.value] == TypedCode(host, ctx)
  }

  /** Whose code is taken, if any: the pending user's own, when that is what was typed. */
  function TakenFor(host: Host, ctx: Json, otps: map<string, string>): Option<string> {
    if CodeAccepted(host, ctx, otps) then PendingCode(ctx) else None
  }

  /** Taking a code: it is gone, and the address it went to is marked; if none is taken, nothing happens. */
  ghost predicate CodeTaken(host: Host, ctx: Json, channel: Channel, s: Stores, t: Stores) {
    var taken := TakenFor(host, ctx, s.otps);
    if taken.None? then t == s
    else
      && t == s.(otps := s.otps - {taken.value}, users := t.users)
      && VerifiedIn(host.lower, s.users, t.users, taken.value, channel)
  }

  method TakeCode(state: EmulatorState, ctx: Json, channel: Channel) returns (taken: Option<string>)
    requires state.users.lower == state.host.lower
    modifies state.otps, state.users
    ensures taken == TakenFor(state.host, ctx, old(state.otps.pending))
    ensures CodeTaken(state.host, ctx, channel, old(state.Stores()), state.Stores())
  {
    taken := PendingCode(ctx);
    if taken.Some? {
      var consumed := state.otps.Consume(taken.value, TypedCode(state.host, ctx));
      if consumed.Err? {
        taken := None;
      } else {
        MarkVerified(state, taken.value, channel);
      }
    }
  }

  /** The run after the pending user's code signed that user in. */
  function CodeView(host: Host, a: Snapshot, t: Stores, channel: Channel, user: string): RunView
    requires a.view.ctx.Obj?
  {
    SignedInView(a, t, user, if channel == Email then "email" else "sms",
                 Child(Child(Child(a.view.ctx, "pending"), "code"), "created") == Bool(true),
                 CodeConsumed(TypedCode(host, a.view.ctx)))
  }

  /** The pending user's code was taken if it was typed, and signed that user in unless somebody was signed in
      already. */
  ghost predicate CodeChecked(scope: Scope, channel: Channel, a: Snapshot, b: Snapshot, o: Outcome) {
    match TakenFor(scope.host, a.view.ctx, a.stores.otps)
    case None => b == a && o == ScreenError(CODE_REFUSED)
    case Some(user) =>
      && a.view.ctx.Obj? && CodeTaken(scope.host, a.view.ctx, channel, a.stores, b.stores) && o == SUCCESS
      && b.view == if AuthUser(a.view.ctx).None? then CodeView(scope.host, a, b.stores, channel, user) else a.view
  }

  lemma CodeCheckedAre(scope: Scope, channel: Channel, a: Snapshot, t: Stores, v: RunView)
    requires a.view.ctx.Obj? && CodeTaken(scope.host, a.view.ctx, channel, a.stores, t)
    requires var taken := TakenFor(scope.host, a.view.ctx, a.stores.otps);
             v == if taken.Some? && AuthUser(a.view.ctx).None? then CodeView(scope.host, a, t, channel, taken.value)
                  else a.view
    ensures var taken := TakenFor(scope.host, a.view.ctx, a.stores.otps);
            CodeChecked(scope, channel, a, Snapshot(t, v), if taken.Some? then SUCCESS else ScreenError(CODE_REFUSED))
  {
  }

  /** Signs in the user whose code was taken, unless somebody is signed in already. */
  method SignInByCode(host: Host, run: Run, channel: Channel, user: Option<string>, ghost a: Snapshot, ghost t: Stores)
    returns (o: Outcome)
    requires a.view == run.View() && Ready(a.view) && Open(a.view.history)
    modifies run`ctx, run`history
    ensures o == if user.Some? then SUCCESS else ScreenError(CODE_REFUSED)
    ensures ActionOk(ByCode, a, Snapshot(t, run.View()), o)
    ensures run.View() == if user.Some? && AuthUser(a.view.ctx).None? then CodeView(host, a, t, channel, user.value)
                          else a.view
  {
    o := if user.Some? then SUCCESS else ScreenError(CODE_REFUSED);
    run.SignInSome(if AuthUser(run.ctx).None? then user else None, if channel == Email then "email" else "sms",
                   Child(Child(Child(run.ctx, "pending"), "code"), "created") == Bool(true),
                   CodeConsumed(TypedCode(host, run.ctx)), a, t, o);
  }

  /** Consumes the pending user's code; signs that user in unless somebody is signed in already. */
  method VerifyCode(state: EmulatorState, scope: Scope, run: Run, channel: Channel) returns (o: Outcome)
    requires CanRun(state, scope, run)
    modifies run, state.users, state.otps
    ensures state.Valid() && ActionOk(ByCode, old(Snap(state, run)), Snap(state, run), o)
    ensures CodeChecked(scope, channel, old(Snap(state, run)), Snap(state, run), o)
  {
    ghost var a := Snap(state, run);
    var user := TakeCode(state, run.ctx, channel);
    o := SignInByCode(state.host, run, channel, user, a, state.Stores());
    CodeCheckedAre(scope, channel, a, state.Stores(), run.View());
  }

  // ----------------------------------------------------------------- links

  /** Whom a link is for: the signed-in user only, for an update. */
  ghost predicate LinkFor(host: Host, users: UserStore.Users, ctx: Json, updateUser: bool, target: Option<string>) {
    if updateUser then target == AuthUser(ctx) else Targets(host, users, ctx, target)
  }

  function OptionText(host: Host, ctx: Json, key: string): string {
    AsText(host, Child(Child(ctx, "options"), key))
  }

  /** The page links and providers lead back to. */
  function PageOf(host: Host, ctx: Json, given: string): string {
    ReturnUrl(given, OptionText(host, ctx, "redirectUrl"), OptionText(host, ctx, "location"))
  }

  /** What is kept of a link for whoever reads the mail: its token, and the address that brings it to this run's
      step. */
  function LinkRecord(scope: Scope, task: Task, ctx: Json, full: Json, token: string): FlowStore.SentLink {
    var page := PageOf(scope.host, ctx, ArgumentText(scope.host, task, "uri", full));
    var step := ArgumentText(scope.host, task, "verifyStepId", full);
    FlowStore.SentLink(token, LinkUrl(scope.host.urlEncode, page, scope.id, step, token), scope.id)
  }

  /** The link is the last one sent to its address, and to what was typed. */
  ghost predicate LinkRecorded(scope: Scope, task: Task, s: Stores, ctx: Json, link: Link,
                               links: map<string, FlowStore.SentLink>, links': map<string, FlowStore.SentLink>)
  {
    exists full ::
      && IsFullContext(scope, s, ctx, full)
      && var record := LinkRecord(scope, task, ctx, full, link.token);
      var host := scope.host;
      var email := host.lower(Address(host, s.users, ctx, Email, link.user));
      links' == links[email := record][host.lower(LoginId(host, ctx)) := record]
  }

  method RecordLink(state: EmulatorState, scope: Scope, task: Task, ctx: Json, link: Link, email: string)
    requires ctx.Obj? && state.users.lower == state.host.lower == state.sentLinks.lower && scope.host == state.host
    requires email == Address(state.host, state.users.View(), ctx, Email, link.user)
    modifies state.sentLinks
    ensures LinkRecorded(scope, task, state.Stores(), ctx, link, old(state.sentLinks.links), state.sentLinks.links)
  {
    var full := FullContext(state, scope, ctx);
    var record := LinkRecord(scope, task, ctx, full, link.token);
    state.sentLinks.Record(email, LoginId(state.host, ctx), record);
  }

  function LinkEntry(scope: Scope, user: string): TokenStore.TokenEntry {
    TokenStore.TokenEntry(user, TokenStore.Magic, scope.moment.now)
  }

  /** A token was put into the store for whom the link is for, if anybody. */
  ghost predicate LinkIssued(scope: Scope, ctx: Json, updateUser: bool, s: Stores, t: Stores, target: Option<string>,
                             link: Option<Link>, masked: string) {
    && LinkFor(scope.host, s.users, ctx, updateUser, target)
    && link.Some? == target.Some?
    && if link.None? then t == s
       else
         && link.value.user == target.value
         && masked == scope.host.maskEmail(Address(scope.host, s.users, ctx, Email, target.value))
         && t == s.(tokens := TokenStore.Inserted(s.tokens, link.value.token, LinkEntry(scope, target.value)))
  }

  method LinkTarget(state: EmulatorState, ctx: Json, updateUser: bool) returns (target: Option<string>)
    requires state.users.lower == state.host.lower
    ensures LinkFor(state.host, state.users.View(), ctx, updateUser, target)
  {
    if updateUser {
      return AuthUser(ctx);
    }
    target := TargetUserId(state, ctx);
  }

  /** A new token for whom the link is for, and the address it is sent to. */
  method IssueLink(state: EmulatorState, scope: Scope, ctx: Json, updateUser: bool)
    returns (link: Option<Link>, email: string, ghost target: Option<string>)
    requires ctx.Obj? && state.users.lower == state.host.lower && scope.host == state.host
    modifies state.tokens
    ensures LinkIssued(scope, ctx, updateUser, old(state.Stores()), state.Stores(), target, link,
                       scope.host.maskEmail(email))
    ensures link.Some? ==> email == Address(state.host, state.users.View(), ctx, Email, link.value.user)
  {
    link, email := None, "";
    var userId := LinkTarget(state, ctx, updateUser);
    target := userId;
    if userId.Some? {
      email := CodeAddress(state, ctx, Email, userId.value);
      var token := RandomText();
      link := Some(Link(token, userId.value));
      state.tokens.Insert(token, userId.value, TokenStore.Magic, scope.moment.now);
    }
  }

  /** A link went out: its token is in the store for whom it is for, and pending in the run, not yet verified. Without
      anybody to send it to nothing happened. */
  ghost predicate LinkWentOut(scope: Scope, task: Task, updateUser: bool, a: Snapshot, b: Snapshot, o: Outcome) {
    exists target ::
      LinkFor(scope.host, a.stores.users, a.view.ctx, updateUser, target) && LinkSentTo(scope, task, a, b, target, o)
  }

  ghost predicate LinkSentTo(scope: Scope, task: Task, a: Snapshot, b: Snapshot, target: Option<string>, o: Outcome) {
    match target
    case None => o == HandledError(task, "UserDoesNotExists", NO_ACCOUNT) && b == a
    case Some(user) => o == SUCCESS && exists token :: LinkNotedFor(scope, a, b, Link(token, user))
  }

  /** The link is in the store, pending in the run and in its history. */
  ghost predicate LinkNotedFor(scope: Scope, a: Snapshot, b: Snapshot, link: Link) {
    var masked := scope.host.maskEmail(Address(scope.host, a.stores.users, a.view.ctx, Email, link.user));
    && CtxOk(a.view.ctx)
    && b.stores == a.stores.(tokens := TokenStore.Inserted(a.stores.tokens, link.token, LinkEntry(scope, link.user)))
    && b.view == LinkNotedView(a.view, masked, link)
  }

  lemma WentOutAre(scope: Scope, task: Task, updateUser: bool, a: Snapshot, b: Snapshot, target: Option<string>,
                   link: Option<Link>, masked: string, o: Outcome)
    requires CtxOk(a.view.ctx) && LinkIssued(scope, a.view.ctx, updateUser, a.stores, b.stores, target, link, masked)
    requires o == if link.Some? then SUCCESS else HandledError(task, "UserDoesNotExists", NO_ACCOUNT)
    requires b.view == if link.Some? then LinkNotedView(a.view, masked, link.value) else a.view
    ensures LinkWentOut(scope, task, updateUser, a, b, o)
  {
    if link.Some? {
      assert link.value == Link(link.value.token, target.value);
      assert LinkNotedFor(scope, a, b, Link(link.value.token, target.value));
    }
    assert LinkSentTo(scope, task, a, b, target, o);
  }

  lemma IssuedIsThere(scope: Scope, ctx: Json, updateUser: bool, s: Stores, t: Stores, target: Option<string>,
                      link: Option<Link>, masked: string)
    requires LinkIssued(scope, ctx, updateUser, s, t, target, link, masked) && link.Some?
    ensures link.value.token in t.tokens.entries && t.tokens.entries[link.value.token].userId == link.value.user
  {
  }

  /** Remembers an issued link, or says that there is nobody to send one to. */
  method NoteSent(run: Run, task: Task, link: Option<Link>, masked: string, ghost a: Snapshot, ghost t: Stores)
    returns (o: Outcome)
    requires a.view == run.View() && Ready(a.view) && Open(a.view.history)
    requires link.Some? ==>
             link.value.token in t.tokens.entries && t.tokens.entries[link.value.token].userId == link.value.user
    modifies run`ctx, run`history
    ensures o == if link.Some? then SUCCESS else HandledError(task, "UserDoesNotExists", NO_ACCOUNT)
    ensures ActionOk(NoMeans, a, Snapshot(t, run.View()), o)
    ensures run.View() == if link.Some? then LinkNotedView(a.view, masked, link.value) else a.view
  {
    if link.Some? {
      run.NoteLink(masked, link.value, a, t);
      o := SUCCESS;
    } else {
      o := HandledError(task, "UserDoesNotExists", NO_ACCOUNT);
      UnchangedOk(NoMeans, a, t, o);
    }
  }

  /** Issues a token and remembers it as this run's pending link. */
  method SendToken(state: EmulatorState, scope: Scope, run: Run, task: Task, updateUser: bool)
    returns (o: Outcome, link: Option<Link>, email: string)
    requires CanRun(state, scope, run)
    modifies run`ctx, run`history, state.tokens
    ensures state.Valid() && ActionOk(NoMeans, old(Snap(state, run)), Snap(state, run), o)
    ensures LinkWentOut(scope, task, updateUser, old(Snap(state, run)), Snap(state, run), o)
    ensures link == if o == SUCCESS then PendingLink(run.ctx) else None
    ensures link.Some? ==> email == Address(state.host, state.users.View(), old(run.ctx), Email, link.value.user)
  {
    ghost var a, target := Snap(state, run), None;
    link, email, target := IssueLink(state, scope, run.ctx, updateUser);
    var masked := state.host.maskEmail(email);
    if link.Some? {
      IssuedIsThere(scope, run.ctx, updateUser, a.stores, state.Stores(), target, link, masked);
    }
    o := NoteSent(run, task, link, masked, a, state.Stores());
    WentOutAre(scope, task, updateUser, a, Snap(state, run), target, link, masked, o);
  }

  /** The same, with the link put on record for whoever reads the mail. */
  method SendLink(state: EmulatorState, scope: Scope, run: Run, task: Task, updateUser: bool) returns (o: Outcome)
    requires CanRun(state, scope, run)
    modifies run`ctx, run`history, state.tokens, state.sentLinks
    ensures state.Valid() && ActionOk(NoMeans, old(Snap(state, run)), Snap(state, run), o)
    ensures LinkWentOut(scope, task, updateUser, old(Snap(state, run)), Snap(state, run), o)
    ensures var link, links := PendingLink(run.ctx), old(state.sentLinks.links);
            if o == SUCCESS && link.Some?
            then LinkRecorded(scope, task, state.Stores(), old(run.ctx), link.value, links, state.sentLinks.links)
            else state.sentLinks.links == links
  {
    hide LinkWentOut, ActionOk, LinkRecorded, PendingLink, Address;
    var ctx, link, email := run.ctx, None, "";
    o, link, email := SendToken(state, scope, run, task, updateUser);
    if link.Some? {
      RecordLink(state, scope, task, ctx, link.value, email);
    }
  }

  /** Whether a link's token is the one this run waits for and the store still holds. */
  predicate LinkAccepted(ctx: Json, tokens: TokenStore.Tokens, given: Json) {
    given.Str? && given.s != "" && Child(MagicLink(ctx), "token") == given && given.s in tokens.entries
  }

  /** Why a link was refused. */
  function LinkRefusal(ctx: Json, given: Json): (o: Outcome)
    ensures o.Fail? && o.code == "E062503" && StillOpen(o)
  {
    if given.Str? && given.s != "" && Child(MagicLink(ctx), "token") == given
    then Fail("E062503", "The sign-in link has expired or was already used")
    else Fail("E062503", "The sign-in link is not valid")
  }

  /** Taking a link's token: it is gone, and the address it went to is marked. */
  ghost predicate TokenTaken(lower: string -> string, token: string, user: string, s: Stores, t: Stores) {
    && t == s.(tokens := TokenStore.Consumed(s.tokens, token), users := t.users)
    && VerifiedIn(lower, s.users, t.users, user, Email)
  }

  /** What comes of a token: taken for its user, or refused without a change. */
  ghost predicate TakenOrRefused(lower: string -> string, ctx: Json, given: Json, s: Stores, t: Stores,
                                 user: Option<string>, refusal: Outcome)
  {
    if LinkAccepted(ctx, s.tokens, given)
    then user == Some(s.tokens.entries[given.s].userId)
      && TokenTaken(lower, given.s, s.tokens.entries[given.s].userId, s, t)
    else user.None? && refusal == LinkRefusal(ctx, given) && t == s
  }

  lemma LinkGone(lower: string -> string, ctx: Json, given: Json, s: Stores, t: Stores, user: string, refusal: Outcome)
    requires LinkAccepted(ctx, s.tokens, given) && user == s.tokens.entries[given.s].userId
    requires t == s.(tokens := TokenStore.Consumed(s.tokens, given.s), users := t.users)
    requires VerifiedIn(lower, s.users, t.users, user, Email)
    ensures TakenOrRefused(lower, ctx, given, s, t, Some(user), refusal)
  {
    hide VerifiedIn, TokenStore.Consumed;
  }

  lemma LinkLeft(lower: string -> string, ctx: Json, given: Json, s: Stores)
    requires !LinkAccepted(ctx, s.tokens, given)
    ensures TakenOrRefused(lower, ctx, given, s, s, None, LinkRefusal(ctx, given))
  {
    hide TokenTaken, LinkRefusal;
  }

  /** Takes the token out of the store, if it is accepted, and marks the address it proves. */
  method TakeLink(state: EmulatorState, ctx: Json, given: Json) returns (user: Option<string>, refusal: Outcome)
    requires state.users.lower == state.host.lower
    modifies state.tokens, state.users
    ensures TakenOrRefused(state.host.lower, ctx, given, old(state.Stores()), state.Stores(), user, refusal)
  {
    hide TakenOrRefused, VerifiedIn, LinkRefusal;
    ghost var s := state.Stores();
    user, refusal := None, LinkRefusal(ctx, given);
    var token := if given.Str? then given.s else "";
    if token == "" || Child(MagicLink(ctx), "token") != Str(token) {
      LinkLeft(state.host.lower, ctx, given, s);
      return;
    }
    var consumed := state.tokens.Consume(token);
    if consumed.Ok? {
      user := Some(consumed.value.userId);
      MarkVerified(state, user.value, Email);
      LinkGone(state.host.lower, ctx, given, s, state.Stores(), user.value, refusal);
    } else {
      LinkLeft(state.host.lower, ctx, given, s);
    }
  }

  /** The token of this run's pending link was taken while the store still held it, and signed in the user the store's
      entry names unless somebody was signed in already; any other token changed nothing and failed the run. */
  ghost predicate LinkChecked(scope: Scope, input: Json, a: Snapshot, b: Snapshot, o: Outcome) {
    var ctx, token := a.view.ctx, Child(input, "token");
    && CtxOk(ctx)
    && if LinkAccepted(ctx, a.stores.tokens, token) then
         var user := a.stores.tokens.entries[token.s].userId;
         && o == SUCCESS && TokenTaken(scope.host.lower, token.s, user, a.stores, b.stores)
         && b.view == LinkTakenView(a, b.stores, user, token.s)
       else o == LinkRefusal(ctx, token) && b == a
  }

  lemma LinkCheckedAre(scope: Scope, input: Json, a: Snapshot, b: Snapshot, user: Option<string>, refusal: Outcome)
    requires CtxOk(a.view.ctx)
    requires var ctx, token := a.view.ctx, Child(input, "token");
             if LinkAccepted(ctx, a.stores.tokens, token) then
               && user == Some(a.stores.tokens.entries[token.s].userId)
               && TokenTaken(scope.host.lower, token.s, user.value, a.stores, b.stores)
               && b.view == LinkTakenView(a, b.stores, user.value, token.s)
             else user.None? && refusal == LinkRefusal(ctx, token) && b == a
    ensures LinkChecked(scope, input, a, b, if user.Some? then SUCCESS else refusal)
  {
  }

  /** Accepts the token of this run's pending link while the store still holds it, once. */
  method VerifyLink(state: EmulatorState, scope: Scope, run: Run, input: Json) returns (o: Outcome)
    requires CanRun(state, scope, run)
    modifies run, state.users, state.tokens
    ensures state.Valid() && ActionOk(ByLink, old(Snap(state, run)), Snap(state, run), o)
    ensures LinkChecked(scope, input, old(Snap(state, run)), Snap(state, run), o)
  {
    ghost var a := Snap(state, run);
    var given := Child(input, "token");
    var user, refusal := TakeLink(state, run.ctx, given);
    o := if user.Some? then SUCCESS else refusal;
    if user.Some? {
      run.AcceptLink(user.value, given.s, a, state.Stores());
    } else {
      UnchangedOk(ByLink, a, state.Stores(), o);
    }
    LinkCheckedAre(scope, input, a, Snap(state, run), user, refusal);
  }
}
