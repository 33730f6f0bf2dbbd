/** A run of a flow as requests see it: its context, what happened in it, and what every sequence of requests keeps. */
module FlowRun {
  import opened Wrappers
  import opened Json
  import TokenStore
  import UserStore
  import WebAuthnStore

  datatype FlowStatus = Waiting | Completed | Failed

  /** Libraries and text templates, as pure functions. */
  datatype Host = Host(
    libs: WebAuthnStore.Libs, render: (string, Json) -> string, jsonText: Json -> string,
    trim: string -> string, lower: string -> string, parseNumber: string -> Option<real>,
    bcryptVerify: (string, string) -> bool, bcryptHash: string -> Option<string>,
    maskEmail: string -> string, maskPhone: string -> string, urlEncode: string -> string,
    startSso: (string, string) -> Result<string, string>, authInfo: (UserStore.User, string, bool) -> Option<Json>)

  // ------------------------------------------------------------- envelopes

  function Envelope(executionId: string, stepId: string, status: string): (env: Json)
    ensures env.Obj?
  {
    Obj(map["executionId" := Str(executionId), "stepId" := Str(stepId), "status" := Str(status), "action" := Str(""),
            "screen" := Null, "redirect" := Obj(map["url" := Str(""), "isPopup" := Bool(false)]),
            "webauthn" := Obj(map["transactionId" := Str(""), "options" := Str("")]),
            "authInfo" := Null, "error" := Null, "stepName" := Str("")])
  }

  function With(v: Json, key: string, x: Json): (r: Json)
    requires v.Obj?
    ensures r.Obj?
  {
    Obj(v.fields[key := x])
  }

  function FailedEnvelope(executionId: string, code: string, description: string): (env: Json)
    ensures env.Obj? && !IsWaiting(env) && ErrorCode(env) == Str(code)
  {
    With(Envelope(executionId, "", "failed"), "error",
         Obj(map["errorCode" := Str(code), "errorDescription" := Str(description), "errorMessage" := Str(description)]))
  }

  function NoNextTask(executionId: string): (env: Json)
    ensures !IsWaiting(env) && ErrorCode(env) == Str("E102103")
  {
    FailedEnvelope(executionId, "E102103", "Did not find next task")
  }

  function PollEnvelope(executionId: string, taskId: string): (env: Json)
    ensures IsWaiting(env) && Child(env, "stepId") == Str(taskId) && ErrorCode(env) == Null
  {
    With(Envelope(executionId, taskId, "waiting"), "action", Str("poll"))
  }

  predicate IsWaiting(env: Json) {
    Child(env, "status") == Str("waiting")
  }

  function ErrorCode(env: Json): Json {
    Child(Child(env, "error"), "errorCode")
  }

  // --------------------------------------------------------------- context

  /** The parts of the context the engine assigns into are objects, so no assignment ever finds a scalar in the way. */
  predicate CtxOk(ctx: Json) {
    ctx.Obj? && Child(ctx, "pending").Obj? && Child(ctx, "sentTo").Obj?
  }

  function TextOf(v: Json): Option<string> {
    if v.Str? then Some(v.s) else None
  }

  function AuthUser(ctx: Json): Option<string> {
    TextOf(Child(Child(ctx, "auth"), "userId"))
  }

  function MagicLink(ctx: Json): Json {
    Child(Child(ctx, "pending"), "magicLink")
  }

  predicate Verified(ctx: Json) {
    Child(MagicLink(ctx), "verified") == Bool(true)
  }

  datatype Link = Link(token: string, user: string)

  /** The link this run last sent. */
  function PendingLink(ctx: Json): Option<Link> {
    var token, user := Child(MagicLink(ctx), "token"), Child(MagicLink(ctx), "userId");
    if token.Str? && user.Str? then Some(Link(token.s, user.s)) else None
  }

  function LastEnvelope(ctx: Json): Json {
    Child(ctx, "lastEnvelope")
  }

  // --------------------------------------------------------------- history

  /** What the actions read and write. */
  datatype Stores = Stores(
    users: UserStore.Users, otps: map<string, string>, tokens: TokenStore.Tokens, passkeys: WebAuthnStore.State)

  datatype Evidence =
    | PasswordAccepted(loginId: string, password: string)
    | PasswordReplaced(loginId: string, saved: bool)
    | CodeConsumed(code: string)
    | LinkConsumed(token: string)
    | PasskeyFinished(transaction: WebAuthnStore.Transaction, response: string)
    | SsoCodeConsumed(code: string)

  /** `before` and `after` are the stores around the action that signed the user in. */
  datatype Event =
    | SignedIn(user: string, evidence: Evidence, before: Stores, after: Stores)
    | LinkSent(link: Link)
    | LoggedIn(user: string, at: Stores)
    | Finished(envelope: Json)

  /** What each of the six ways to sign in must have seen in the stores. */
  ghost predicate EvidenceHolds(host: Host, e: Event)
    requires e.SignedIn?
  {
    match e.evidence
    case PasswordAccepted(loginId, password) =>
      exists u :: UserStore.LoadsAs(e.before.users, host.lower, loginId, Ok(u)) && u.userId == e.user
        && u.status != "disabled" && u.passwordHash.Some? && host.bcryptVerify(password, u.passwordHash.value)
    case PasswordReplaced(loginId, saved) =>
      && (exists u :: UserStore.LoadsAs(e.before.users, host.lower, loginId, Ok(u)) && u.userId == e.user)
      && (if saved then e.user in e.after.users.byUserId && e.after.users.byUserId[e.user].password
                        && e.after.users.byUserId[e.user].passwordHash.Some?
          else e.after == e.before)
    case CodeConsumed(code) =>
      e.user in e.before.otps && e.before.otps[e.user] == code && e.after.otps == e.before.otps - {e.user}
    case LinkConsumed(token) =>
      token in e.before.tokens.entries && e.before.tokens.entries[token].userId == e.user
      && e.after.tokens == TokenStore.Consumed(e.before.tokens, token)
    case PasskeyFinished(t, response) =>
      && t.id in e.before.passkeys.transactions && e.before.passkeys.transactions[t.id] == t
      && t.id !in e.after.passkeys.transactions
      && (t.ceremony == WebAuthnStore.SignIn ==>
            e.user == t.userId
            && WebAuthnStore.SomeoneSigned(
                 host.libs, WebAuthnStore.CredentialsOf(e.before.passkeys, t.userId), t, response))
      && (t.ceremony == WebAuthnStore.SignUp ==>
            WebAuthnStore.SomethingOffered(host.libs, t, response)
            && e.user in e.after.users.byUserId && e.after.users.byUserId[e.user].loginIds == [host.lower(t.loginId)])
      && t.ceremony != WebAuthnStore.Update
    case SsoCodeConsumed(code) =>
      code in e.before.tokens.entries && e.before.tokens.entries[code].userId == e.user && !("tenant:" <= e.user)
      && e.after.tokens == TokenStore.Consumed(e.before.tokens, code)
  }

  ghost predicate EventHolds(host: Host, e: Event) {
    match e
    case SignedIn(_, _, _, _) => EvidenceHolds(host, e)
    case LoggedIn(user, at) => user in at.users.byUserId && at.users.byUserId[user].status != "disabled"
    case Finished(env) => env.Obj?
    case LinkSent(_) => true
  }

  /** The user of the last sign-in. */
  function LastUser(history: seq<Event>): Option<string> {
    if history == [] then None
    else
      var last := history[|history| - 1];
      if last.SignedIn? then Some(last.user) else LastUser(history[..|history| - 1])
  }

  /** The link sent last. */
  function LastLink(history: seq<Event>): Option<Link> {
    if history == [] then None
    else
      var last := history[|history| - 1];
      if last.LinkSent? then Some(last.link) else LastLink(history[..|history| - 1])
  }

  /** Nobody was logged in yet, and the run has not ended. */
  ghost predicate Open(history: seq<Event>) {
    forall i | 0 <= i < |history| :: history[i].SignedIn? || history[i].LinkSent?
  }

  lemma Snoc(history: seq<Event>, e: Event)
    ensures LastUser(history + [e]) == if e.SignedIn? then Some(e.user) else LastUser(history)
    ensures LastLink(history + [e]) == if e.LinkSent? then Some(e.link) else LastLink(history)
    ensures Open(history + [e]) <==> Open(history) && (e.SignedIn? || e.LinkSent?)
    ensures history <= history + [e]
  {
    var h := history + [e];
    assert h[..|history|] == history;
    assert h[|history|] == e;
    assert forall i | 0 <= i < |history| :: h[i] == history[i];
  }

  // ------------------------------------------------------------------ runs

  datatype RunView = RunView(taskId: string, ctx: Json, status: FlowStatus, history: seq<Event>)

  /** The context says what the history says. */
  ghost predicate Ready(v: RunView) {
    && CtxOk(v.ctx)
    && AuthUser(v.ctx) == LastUser(v.history)
    && PendingLink(v.ctx) == LastLink(v.history)
  }

  /** The history up to the end of the run: a login right before it, if it completed. */
  ghost predicate EndsWith(v: RunView, open: seq<Event>, env: Json) {
    && Open(open)
    && match v.status
       case Completed =>
         exists user, at :: v.history == open + [LoggedIn(user, at)] + [Finished(env)] && AuthUser(v.ctx) == Some(user)
       case Failed => v.history == open + [Finished(env)]
       case Waiting => false
  }

  ghost predicate Ended(v: RunView, env: Json) {
    env.Obj? && (exists open :: EndsWith(v, open, env)) && (Verified(v.ctx) ==> LastEnvelope(v.ctx) == env)
  }

  /** A stored run: waiting with an open history, or ended with the envelope that ended it, kept for pollers if the link
      was verified. */
  ghost predicate RunOk(v: RunView) {
    Ready(v) && if v.status == Waiting then Open(v.history) else exists env :: Ended(v, env)
  }

  ghost predicate SameButOrigin(a: Json, b: Json) {
    a.Obj? && b.Obj? && a.fields - {"origin"} == b.fields - {"origin"}
  }

  /** What a request to an ended run answers. */
  function EndedReply(id: string, v: RunView, polling: bool): Json {
    if !polling then NoNextTask(id)
    else if Verified(v.ctx) && LastEnvelope(v.ctx) != Null then LastEnvelope(v.ctx)
    else PollEnvelope(id, v.taskId)
  }

  /** One served request: `before` as stored, `after` as stored again, `reply` the envelope. */
  ghost predicate Served(id: string, before: RunView, after: RunView, polling: bool, reply: Json) {
    && RunOk(before) && RunOk(after)
    && before.history <= after.history
    && (before.status != Waiting ==>
          && after.status == before.status && after.taskId == before.taskId && after.history == before.history
          && SameButOrigin(before.ctx, after.ctx) && reply == EndedReply(id, after, polling))
    && (before.status == Waiting && after.status != Waiting ==> Ended(after, reply))
  }

  // ----------------------------------------------------- whole-run theorems

  lemma {:induction false} LastUserAt(history: seq<Event>) returns (i: nat)
    ensures LastUser(history).Some? ==>
            i < |history| && history[i].SignedIn? && history[i].user == LastUser(history).value
    ensures LastUser(history).Some? ==> forall j | i < j < |history| :: !history[j].SignedIn?
    ensures LastUser(history).None? ==> forall j | 0 <= j < |history| :: !history[j].SignedIn?
  {
    i := 0;
    if history != [] {
      var n := |history| - 1;
      if history[n].SignedIn? {
        i := n;
      } else {
        i := LastUserAt(history[..n]);
      }
    }
  }

  /** A completed run ends with the login of the user in its context; the last sign-in stands before it, and is that
      user's. */
  lemma CompletedAfterSignIn(v: RunView) returns (i: nat, j: nat)
    requires RunOk(v) && v.status == Completed
    ensures i < j < |v.history| && v.history[i].SignedIn? && v.history[j].LoggedIn?
    ensures v.history[i].user == v.history[j].user && AuthUser(v.ctx) == Some(v.history[j].user)
    ensures forall k | i < k < |v.history| :: !v.history[k].SignedIn?
    ensures forall k | 0 <= k < j :: !v.history[k].LoggedIn?
  {
    j := LoginBeforeEnd(v);
    i := LastUserAt(v.history);
  }

  lemma LoginBeforeEnd(v: RunView) returns (j: nat)
    requires RunOk(v) && v.status == Completed
    ensures |v.history| == j + 2 && v.history[j].LoggedIn? && v.history[j + 1].Finished?
    ensures AuthUser(v.ctx) == Some(v.history[j].user)
    ensures forall k | 0 <= k < j :: v.history[k].SignedIn? || v.history[k].LinkSent?
  {
    var env :| Ended(v, env);
    var open :| EndsWith(v, open, env);
    var user, at :| v.history == open + [LoggedIn(user, at)] + [Finished(env)] && AuthUser(v.ctx) == Some(user);
    j := |open|;
    assert v.history[j] == LoggedIn(user, at) && v.history[j + 1] == Finished(env);
    assert forall k | 0 <= k < j :: v.history[k] == open[k];
  }

  /** A step without a sign-in leaves the signed-in user as it was. */
  lemma {:induction false} AuthChangesOnlyBySignIn(before: RunView, after: RunView)
    requires Ready(before) && Ready(after) && before.history <= after.history
    requires forall k | |before.history| <= k < |after.history| :: !after.history[k].SignedIn?
    ensures AuthUser(after.ctx) == AuthUser(before.ctx)
  {
    NoSignInSameUser(before.history, after.history);
  }

  lemma {:induction false} NoSignInSameUser(short: seq<Event>, long: seq<Event>)
    requires short <= long && forall k | |short| <= k < |long| :: !long[k].SignedIn?
    ensures LastUser(long) == LastUser(short)
    decreases |long|
  {
    if |long| > |short| {
      NoSignInSameUser(short, long[..|long| - 1]);
    } else {
      assert long == short;
    }
  }

  /** One request as it was served: the stored run before and after it, whether it polled, and what it was answered. */
  datatype Exchange = Exchange(before: RunView, after: RunView, polling: bool, reply: Json)

  ghost predicate Exchanged(id: string, e: Exchange) {
    Served(id, e.before, e.after, e.polling, e.reply)
  }

  ghost predicate Follows(served: seq<Exchange>, i: nat)
    requires 0 < i < |served|
  {
    served[i].before == served[i - 1].after
  }

  /** The requests served to one run, in order: each finds the run as the one before it left it. */
  ghost predicate Chain(id: string, served: seq<Exchange>) {
    && (forall i {:trigger Exchanged(id, served[i])} | 0 <= i < |served| :: Exchanged(id, served[i]))
    && (forall i | 0 < i < |served| :: Follows(served, i))
  }

  lemma SameParts(a: Json, b: Json)
    requires CtxOk(a) && b.Obj?
    requires forall k | k in {"auth", "pending", "sentTo", "lastEnvelope"} :: Child(b, k) == Child(a, k)
    ensures CtxOk(b) && AuthUser(b) == AuthUser(a) && PendingLink(b) == PendingLink(a)
    ensures MagicLink(b) == MagicLink(a) && Verified(b) == Verified(a) && LastEnvelope(b) == LastEnvelope(a)
  {
    assert Child(b, "auth") == Child(a, "auth") && Child(b, "pending") == Child(a, "pending");
    assert Child(b, "sentTo") == Child(a, "sentTo") && Child(b, "lastEnvelope") == Child(a, "lastEnvelope");
  }

  lemma OriginParts(a: Json, b: Json)
    requires CtxOk(a) && SameButOrigin(a, b)
    ensures CtxOk(b) && AuthUser(b) == AuthUser(a) && PendingLink(b) == PendingLink(a)
    ensures MagicLink(b) == MagicLink(a) && Verified(b) == Verified(a) && LastEnvelope(b) == LastEnvelope(a)
  {
    forall k | k != "origin" ensures Child(b, k) == Child(a, k) {
      assert k in a.fields <==> k in a.fields - {"origin"};
      assert k in b.fields <==> k in b.fields - {"origin"};
      if k in a.fields { assert (a.fields - {"origin"})[k] == (b.fields - {"origin"})[k]; }
    }
    SameParts(a, b);
  }

  /** The same end: status, task, history, signed-in user, link and last envelope. */
  ghost predicate SameEnd(a: RunView, b: RunView) {
    && b.status == a.status && b.taskId == a.taskId && b.history == a.history
    && AuthUser(b.ctx) == AuthUser(a.ctx) && Verified(b.ctx) == Verified(a.ctx)
    && LastEnvelope(b.ctx) == LastEnvelope(a.ctx)
  }

  lemma ServedAfterTheEnd(id: string, e: Exchange)
    requires Exchanged(id, e) && e.before.status != Waiting
    ensures SameEnd(e.before, e.after)
  {
    OriginParts(e.before.ctx, e.after.ctx);
  }

  /** Once ended, a run stays as it is through every later request: its status, its task, its user, its history, its
      last envelope. */
  lemma {:induction false} EndedStaysEnded(id: string, served: seq<Exchange>, i: nat, j: nat)
    requires Chain(id, served) && i <= j < |served| && served[i].before.status != Waiting
    ensures SameEnd(served[i].before, served[j].before) && SameEnd(served[i].before, served[j].after)
    decreases j - i
  {
    if i < j {
      EndedStaysEnded(id, served, i, j - 1);
      assert Follows(served, j);
    }
    ServedAfterTheEnd(id, served[j]);
  }

  lemma PollOfEnded(id: string, e: Exchange)
    requires Exchanged(id, e) && e.polling && e.before.status != Waiting
    ensures e.reply == EndedReply(id, e.after, true)
  {
  }

  /** An exchange that ended its run leaves its reply for pollers, if the link was verified. */
  lemma EndingExchange(id: string, e: Exchange)
    requires Exchanged(id, e) && e.before.status == Waiting && e.after.status != Waiting
    ensures Verified(e.after.ctx) ==> LastEnvelope(e.after.ctx) == e.reply && e.reply != Null
  {
    if Verified(e.after.ctx) {
      EndedEnvelope(e.after, e.reply);
    }
  }

  /** The request that ended the run said how; if the link was verified, every later poll gets that very envelope, and
      otherwise every later poll is told to go on waiting. */
  lemma PollsAfterTheEnd(id: string, served: seq<Exchange>, i: nat, j: nat)
    requires Chain(id, served) && i < j < |served| && served[j].polling
    requires served[i].before.status == Waiting && served[i].after.status != Waiting
    ensures served[j].reply == if Verified(served[i].after.ctx) then served[i].reply
                               else PollEnvelope(id, served[i].after.taskId)
  {
    assert Follows(served, i + 1);
    EndedStaysEnded(id, served, i + 1, j);
    EndingExchange(id, served[i]);
    PollOfEnded(id, served[j]);
  }

  lemma EndedEnvelope(v: RunView, env: Json)
    requires RunOk(v) && Ended(v, env) && Verified(v.ctx)
    ensures LastEnvelope(v.ctx) == env && env != Null
  {
    assert env.Obj?;
  }
}
