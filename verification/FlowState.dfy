/** The emulator as the flow engine sees it, a run under way, and what every action on a run keeps. */
module FlowState {
  import opened Bytes
  import opened Wrappers
  import opened Json
  import opened FlowGraph
  import opened FlowRun
  import opened FlowConditions
  import FlowStore
  import Lockout
  import OtpStore
  import TokenStore
  import UserStore
  import WebAuthnStore

  /** The clock, and the settings management calls may change between requests. */
  datatype Moment = Moment(now: nat, passwordEnabled: bool, usesSso: string -> bool)

  /** Random values: any will do for what is proved about one run. */
  method RandomText() returns (t: string) {
    t := *;
  }

  method RandomBytes() returns (b: Bytes) {
    b := *;
  }

  class EmulatorState {
    const host: Host
    const users: UserStore.UserStore
    const otps: OtpStore.OtpStore
    const tokens: TokenStore.TokenStore
    const webauthn: WebAuthnStore.WebAuthnStore
    const lockouts: Lockout.LockoutMap
    const sentLinks: FlowStore.SentLinks
    const flows: FlowStore.FlowStore

    ghost function Stores(): Stores
      reads users, otps, tokens, webauthn
    {
      FlowRun.Stores(users.View(), otps.pending, tokens.State(), webauthn.View())
    }

    /** What actions may change. */
    ghost function Frame(): set<object> {
      {users, otps, tokens, webauthn, lockouts, sentLinks}
    }

    ghost predicate Valid()
      reads webauthn, lockouts
    {
      && webauthn.Valid() && lockouts.Valid()
      && users.lower == host.lower && sentLinks.lower == host.lower && flows !in Frame()
    }

    constructor (host: Host)
      ensures Valid() && this.host == host && flows.Valid() && flows.runs == map[]
    {
      this.host := host;
      users := new UserStore.UserStore(host.lower);
      otps := new OtpStore.OtpStore();
      tokens := new TokenStore.TokenStore();
      webauthn := new WebAuthnStore.WebAuthnStore();
      lockouts := new Lockout.LockoutMap();
      sentLinks := new FlowStore.SentLinks(host.lower);
      flows := new FlowStore.FlowStore();
    }
  }

  datatype Outcome =
    | Interaction(name: string)
    | Wait(envelope: Json, awaitTask: string)
    | ScreenError(text: string)
    | Done(envelope: Json)
    | Fail(code: string, description: string)

  const SUCCESS: Outcome := Interaction("success")

  /** A run and the stores at one moment of a request. */
  datatype Snapshot = Snapshot(stores: Stores, view: RunView)

  ghost function Snap(state: EmulatorState, run: Run): Snapshot
    reads state.users, state.otps, state.tokens, state.webauthn, run
  {
    Snapshot(state.Stores(), run.View())
  }

  /** What stays the same while one request is worked on. */
  datatype Scope = Scope(host: Host, moment: Moment, def: FlowDef, id: string)

  // -------------------------------------------------------------- contexts

  /** Only `key` differs. */
  ghost predicate OnlyKey(a: Json, b: Json, key: string) {
    a.Obj? && b.Obj? && forall k | k != key :: Child(b, k) == Child(a, k)
  }

  /** The context with one key of one of its objects set. */
  function WithIn(ctx: Json, outer: string, key: string, x: Json): Json
    requires ctx.Obj? && Child(ctx, outer).Obj?
  {
    With(ctx, outer, With(Child(ctx, outer), key, x))
  }

  function LoginId(host: Host, ctx: Json): string {
    host.trim(AsText(host, Child(Child(ctx, "form"), "email")))
  }

  function ArgumentText(host: Host, task: Task, name: string, ctx: Json): string {
    AsText(host, ResolveValue(host, Child(task.arguments, name), ctx))
  }

  /** The context with its pending link marked verified. */
  function LinkVerified(ctx: Json): Json
    requires CtxOk(ctx) && MagicLink(ctx).Obj?
  {
    WithIn(ctx, "pending", "magicLink", With(MagicLink(ctx), "verified", Bool(true)))
  }

  function SignedInCtx(ctx: Json, userId: string, how: string, firstSeen: bool): (r: Json)
    requires ctx.Obj?
    ensures OnlyKey(ctx, r, "auth") && AuthUser(r) == Some(userId) && MagicLink(r) == MagicLink(ctx)
  {
    With(ctx, "auth", Obj(map["userId" := Str(userId), "method" := Str(how), "firstSeen" := Bool(firstSeen)]))
  }

  /** The context after a link was sent: the pending link, not yet verified. */
  function LinkNoted(ctx: Json, masked: string, link: Link): (r: Json)
    requires CtxOk(ctx)
    ensures CtxOk(r) && PendingLink(r) == Some(link) && !Verified(r)
    ensures forall k | k != "sentTo" && k != "pending" :: Child(r, k) == Child(ctx, k)
  {
    WithIn(WithIn(ctx, "sentTo", "maskedEmail", Str(masked)), "pending", "magicLink",
           Obj(map["token" := Str(link.token), "userId" := Str(link.user), "verified" := Bool(false)]))
  }

  /** The context after the pending link was accepted for `user`. */
  function LinkTaken(ctx: Json, user: string): (r: Json)
    requires CtxOk(ctx) && MagicLink(ctx).Obj?
    ensures MagicLink(r) == MagicLink(LinkVerified(ctx)) && Verified(r)
    ensures AuthUser(r) == if AuthUser(ctx).Some? then AuthUser(ctx) else Some(user)
    ensures forall k | k != "auth" && k != "pending" :: Child(r, k) == Child(ctx, k)
  {
    if AuthUser(ctx).Some? then LinkVerified(ctx) else SignedInCtx(LinkVerified(ctx), user, "magiclink", false)
  }

  // ------------------------------------------------- what every action keeps

  /** An action is run on a waiting run whose context and history agree. */
  ghost predicate CanRun(state: EmulatorState, scope: Scope, run: Run)
    reads state.webauthn, state.lockouts, run
  {
    && state.Valid() && scope.host == state.host && scope.id == run.id
    && Ready(run.View()) && Open(run.history) && run.status == Waiting
  }

  /** What an action may do about the signed-in user: sign somebody in, one way or another, or end the run for who
      is. */
  datatype Means = ByPassword | ByReplacement | ByCode | ByLink | ByPasskey | BySso | Login | NoMeans

  predicate SignsIn(means: Means) {
    means != Login && means != NoMeans
  }

  function MeansOf(e: Evidence): (m: Means)
    ensures SignsIn(m)
  {
    match e
    case PasswordAccepted(_, _) => ByPassword
    case PasswordReplaced(_, _) => ByReplacement
    case CodeConsumed(_) => ByCode
    case LinkConsumed(_) => ByLink
    case PasskeyFinished(_, _) => ByPasskey
    case SsoCodeConsumed(_) => BySso
  }

  /** What an action between the stores `s` and `t` may add to the history: a sign-in by its own means between these
      stores, a login against `s`, a link that is in `t`. */
  ghost predicate Adds(e: Event, means: Means, s: Stores, t: Stores) {
    match e
    case SignedIn(_, evidence, before, after) => MeansOf(evidence) == means && before == s && after == t
    case LoggedIn(_, at) => means == Login && at == s
    case LinkSent(link) =>
      means == NoMeans && link.token in t.tokens.entries && t.tokens.entries[link.token].userId == link.user
    case Finished(_) => false
  }

  /** At most one event more. */
  ghost predicate AddsOnly(before: seq<Event>, after: seq<Event>, means: Means, s: Stores, t: Stores) {
    || after == before
    || (|after| == |before| + 1 && before <= after && Adds(after[|before|], means, s, t))
  }

  /** Task, status, screen and last envelope stay; the context goes on agreeing with the history, which only grows. */
  ghost predicate Keeps(means: Means, a: Snapshot, b: Snapshot) {
    var before, after := a.view, b.view;
    && after.taskId == before.taskId && after.status == before.status
    && LastEnvelope(after.ctx) == LastEnvelope(before.ctx)
    && Child(after.ctx, "screenTask") == Child(before.ctx, "screenTask")
    && AddsOnly(before.history, after.history, means, a.stores, b.stores) && Ready(after)
  }

  /** What every action keeps: it ends the run only by a login, and waits only with an answer that says for what. */
  ghost predicate ActionOk(means: Means, a: Snapshot, b: Snapshot, o: Outcome) {
    match o
    case Interaction(_) => Keeps(means, a, b) && Open(b.view.history)
    case ScreenError(_) => Keeps(means, a, b) && Open(b.view.history)
    case Fail(code, _) => Keeps(means, a, b) && Open(b.view.history) && code != "E102105"
    case Wait(env, step) => Keeps(means, a, b) && Open(b.view.history) && WaitsFor(env, step)
    case Done(env) =>
      Keeps(means, a, b) && LoginLast(b.view) && means == Login && env.Obj? && !IsWaiting(env) && ErrorCode(env) == Null
  }

  predicate WaitsFor(env: Json, step: string) {
    env.Obj? && IsWaiting(env) && Child(env, "stepId") == Str(step) && ErrorCode(env) == Null
  }

  /** The user in the context was just logged in. */
  ghost predicate LoginLast(v: RunView) {
    exists open, user, at ::
      Open(open) && v.history == open + [LoggedIn(user, at)] && AuthUser(v.ctx) == Some(user)
  }

  /** An outcome that only goes on or shows a screen again. */
  predicate Plain(o: Outcome) {
    o.Interaction? || o.ScreenError?
  }

  /** An outcome after which the run is still open. */
  ghost predicate StillOpen(o: Outcome) {
    && (o.Wait? ==> WaitsFor(o.envelope, o.awaitTask))
    && (o.Fail? ==> o.code != "E102105")
    && !o.Done?
  }

  function HandledError(task: Task, interaction: string, text: string): Outcome {
    if Follow(task, interaction).Some? then Interaction(interaction) else ScreenError(text)
  }

  lemma UnchangedOk(means: Means, a: Snapshot, t: Stores, o: Outcome)
    requires Ready(a.view) && Open(a.view.history) && StillOpen(o)
    ensures ActionOk(means, a, Snapshot(t, a.view), o)
  {
  }

  /** The run after `user` was signed in between the stores of `a` and `t`. */
  function SignedInView(a: Snapshot, t: Stores, user: string, how: string, firstSeen: bool, evidence: Evidence): RunView
    requires a.view.ctx.Obj?
  {
    a.view.(ctx := SignedInCtx(a.view.ctx, user, how, firstSeen),
            history := a.view.history + [SignedIn(user, evidence, a.stores, t)])
  }

  lemma SignedInReady(v: RunView, ctx: Json, e: Event)
    requires Ready(v) && Open(v.history) && OnlyKey(v.ctx, ctx, "auth") && e.SignedIn? && AuthUser(ctx) == Some(e.user)
    ensures Ready(v.(ctx := ctx, history := v.history + [e])) && Open(v.history + [e])
  {
    Snoc(v.history, e);
    assert Child(ctx, "pending") == Child(v.ctx, "pending") && Child(ctx, "sentTo") == Child(v.ctx, "sentTo");
  }

  lemma SignedInOk(a: Snapshot, t: Stores, user: string, how: string, firstSeen: bool, evidence: Evidence, o: Outcome)
    requires Ready(a.view) && Open(a.view.history) && Plain(o)
    ensures ActionOk(MeansOf(evidence), a, Snapshot(t, SignedInView(a, t, user, how, firstSeen, evidence)), o)
  {
    var after := SignedInView(a, t, user, how, firstSeen, evidence);
    SignedInReady(a.view, after.ctx, SignedIn(user, evidence, a.stores, t));
    assert Child(after.ctx, "lastEnvelope") == Child(a.view.ctx, "lastEnvelope");
    assert Child(after.ctx, "screenTask") == Child(a.view.ctx, "screenTask");
  }

  lemma VerifiedReady(v: RunView, ctx: Json)
    requires Ready(v) && MagicLink(v.ctx).Obj? && ctx == LinkVerified(v.ctx)
    ensures Ready(v.(ctx := ctx)) && OnlyKey(v.ctx, ctx, "pending") && Verified(ctx)
    ensures AuthUser(ctx) == AuthUser(v.ctx)
  {
    assert Child(ctx, "auth") == Child(v.ctx, "auth");
  }

  /** The run after a link was sent. */
  function LinkNotedView(v: RunView, masked: string, link: Link): RunView
    requires CtxOk(v.ctx)
  {
    v.(ctx := LinkNoted(v.ctx, masked, link), history := v.history + [LinkSent(link)])
  }

  lemma LinkSentOk(a: Snapshot, t: Stores, masked: string, link: Link)
    requires Ready(a.view) && Open(a.view.history)
    requires link.token in t.tokens.entries && t.tokens.entries[link.token].userId == link.user
    ensures ActionOk(NoMeans, a, Snapshot(t, LinkNotedView(a.view, masked, link)), SUCCESS)
  {
    var before, after := a.view, LinkNotedView(a.view, masked, link);
    Snoc(before.history, LinkSent(link));
    assert Child(after.ctx, "lastEnvelope") == Child(before.ctx, "lastEnvelope");
    assert Child(after.ctx, "screenTask") == Child(before.ctx, "screenTask");
    assert Child(after.ctx, "auth") == Child(before.ctx, "auth");
  }

  /** The run after its pending link was accepted for `user`. */
  function LinkTakenView(a: Snapshot, t: Stores, user: string, token: string): RunView
    requires CtxOk(a.view.ctx) && MagicLink(a.view.ctx).Obj?
  {
    a.view.(ctx := LinkTaken(a.view.ctx, user),
            history := if AuthUser(a.view.ctx).Some? then a.view.history
                       else a.view.history + [SignedIn(user, LinkConsumed(token), a.stores, t)])
  }

  lemma LinkTakenOk(a: Snapshot, t: Stores, user: string, token: string)
    requires Ready(a.view) && Open(a.view.history) && MagicLink(a.view.ctx).Obj?
    ensures ActionOk(ByLink, a, Snapshot(t, LinkTakenView(a, t, user, token)), SUCCESS)
  {
    var v, after := a.view, LinkTakenView(a, t, user, token);
    VerifiedReady(v, LinkVerified(v.ctx));
    if AuthUser(v.ctx).None? {
      SignedInReady(v.(ctx := LinkVerified(v.ctx)), after.ctx, SignedIn(user, LinkConsumed(token), a.stores, t));
    }
    assert Child(after.ctx, "lastEnvelope") == Child(v.ctx, "lastEnvelope");
    assert Child(after.ctx, "screenTask") == Child(v.ctx, "screenTask");
  }

  class Run {
    const id: string
    var taskId: string
    var ctx: Json
    var status: FlowStatus
    ghost var history: seq<Event>

    ghost function View(): RunView reads this {
      RunView(taskId, ctx, status, history)
    }

    constructor (id: string, taskId: string, ctx: Json, status: FlowStatus, ghost history: seq<Event>)
      ensures this.id == id && View() == RunView(taskId, ctx, status, history)
    {
      this.id, this.taskId, this.ctx, this.status, this.history := id, taskId, ctx, status, history;
    }

    /** The only place the signed-in user is written; `o` is the outcome of the action that does it. */
    method SignIn(userId: string, how: string, firstSeen: bool, ghost evidence: Evidence, ghost a: Snapshot,
                  ghost t: Stores, ghost o: Outcome)
      requires a.view == View() && Ready(a.view) && Open(a.view.history) && Plain(o)
      modifies this`ctx, this`history
      ensures View() == SignedInView(a, t, userId, how, firstSeen, evidence)
      ensures ActionOk(MeansOf(evidence), a, Snapshot(t, View()), o)
    {
      SignedInOk(a, t, userId, how, firstSeen, evidence, o);
      ctx := SignedInCtx(ctx, userId, how, firstSeen);
      history := history + [SignedIn(userId, evidence, a.stores, t)];
    }

    /** Signs `user` in if there is one; otherwise the action left the run as it is. */
    method SignInSome(user: Option<string>, how: string, firstSeen: bool, ghost evidence: Evidence, ghost a: Snapshot,
                      ghost t: Stores, ghost o: Outcome)
      requires a.view == View() && Ready(a.view) && Open(a.view.history)
               && (if user.Some? then Plain(o) else StillOpen(o))
      modifies this`ctx, this`history
      ensures ActionOk(MeansOf(evidence), a, Snapshot(t, View()), o)
      ensures View() == if user.Some? then SignedInView(a, t, user.value, how, firstSeen, evidence) else a.view
    {
      if user.Some? {
        SignIn(user.value, how, firstSeen, evidence, a, t, o);
      } else {
        UnchangedOk(MeansOf(evidence), a, t, o);
      }
    }

    /** Remembers a link just sent as the pending one; its token went into the stores between `a` and `t`. */
    method NoteLink(masked: string, link: Link, ghost a: Snapshot, ghost t: Stores)
      requires a.view == View() && Ready(a.view) && Open(a.view.history)
      requires link.token in t.tokens.entries && t.tokens.entries[link.token].userId == link.user
      modifies this`ctx, this`history
      ensures ActionOk(NoMeans, a, Snapshot(t, View()), SUCCESS)
      ensures View() == LinkNotedView(a.view, masked, link)
    {
      LinkSentOk(a, t, masked, link);
      ctx := LinkNoted(ctx, masked, link);
      history := history + [LinkSent(link)];
    }

    /** Marks the pending link verified, and signs its user in unless somebody is signed in already. */
    method AcceptLink(userId: string, ghost token: string, ghost a: Snapshot, ghost t: Stores)
      requires a.view == View() && Ready(a.view) && Open(a.view.history) && MagicLink(a.view.ctx).Obj?
      modifies this`ctx, this`history
      ensures View() == LinkTakenView(a, t, userId, token)
      ensures ActionOk(ByLink, a, Snapshot(t, View()), SUCCESS)
    {
      LinkTakenOk(a, t, userId, token);
      VerifiedReady(a.view, LinkVerified(ctx));
      ctx := LinkVerified(ctx);
      if AuthUser(ctx).None? {
        SignIn(userId, "magiclink", false, LinkConsumed(token), a.(view := View()), t, SUCCESS);
      }
    }
  }
}
