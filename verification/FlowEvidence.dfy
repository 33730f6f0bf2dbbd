/** What the steps of a path say about sign-ins: the evidence was there, it is what the request brought, and a login is
    the last step and leaves its user stored and enabled. */
module FlowEvidence {
  import opened Json
  import opened FlowGraph
  import opened FlowRun
  import opened FlowState
  import opened FlowActions
  import opened FlowCodes
  import opened FlowPasskeys
  import opened FlowSso
  import opened FlowPerform
  import opened FlowPath
  import opened TaskNames
  import WebAuthnStore

  /** If the history grew, the event it grew by holds. */
  ghost predicate NewHolds(host: Host, a: Snapshot, b: Snapshot) {
    |b.view.history| > |a.view.history| ==> EventHolds(host, b.view.history[|a.view.history|])
  }

  lemma PasswordEvidence(scope: Scope, task: Task, a: Snapshot, b: Snapshot, o: Outcome)
    requires PasswordTried(scope, task, a, b, o)
    ensures NewHolds(scope.host, a, b)
  {
  }

  lemma ResetEvidence(scope: Scope, a: Snapshot, b: Snapshot, o: Outcome)
    requires PasswordReset(scope, a, b, o)
    ensures NewHolds(scope.host, a, b)
  {
  }

  lemma CodeEvidence(scope: Scope, channel: Channel, a: Snapshot, b: Snapshot, o: Outcome)
    requires CodeChecked(scope, channel, a, b, o)
    ensures NewHolds(scope.host, a, b)
  {
  }

  lemma LinkEvidence(scope: Scope, input: Json, a: Snapshot, b: Snapshot, o: Outcome)
    requires LinkChecked(scope, input, a, b, o)
    ensures NewHolds(scope.host, a, b)
  {
  }

  /** The ceremony an accepted response is for was open, and is not any more. */
  lemma OpenThenGone(scope: Scope, ctx: Json, input: Json, ceremony: WebAuthnStore.Ceremony, s: Stores, t: Stores,
                     newId: string)
    requires WebAuthnStore.Good(s.passkeys) && Took(scope, ctx, input, ceremony, s, t, true, newId)
    ensures var open := Named(input, s.passkeys);
            && open.id in s.passkeys.transactions && s.passkeys.transactions[open.id] == open
            && open.ceremony == ceremony
            && open.id !in t.passkeys.transactions && open.id == TextAt(input, "transactionId")
  {
    hide Finishes, PasskeyAccount;
    assert Named(input, s.passkeys).id == TextAt(input, "transactionId");
  }

  lemma SignInAccepted(scope: Scope, ctx: Json, input: Json, s: Stores, t: Stores, newId: string)
    requires Took(scope, ctx, input, WebAuthnStore.SignIn, s, t, true, newId)
    ensures var open := Named(input, s.passkeys);
            WebAuthnStore.SomeoneSigned(scope.host.libs, WebAuthnStore.CredentialsOf(s.passkeys, open.userId), open,
                                        TextAt(input, "response"))
  {
    hide PasskeysAfter, PasskeyAccount, WebAuthnStore.SomeoneSigned, WebAuthnStore.AssertionOf;
    var open := Named(input, s.passkeys);
    WebAuthnStore.SignedIffOk(scope.host.libs, WebAuthnStore.CredentialsOf(s.passkeys, open.userId), open,
                              TextAt(input, "response"));
  }

  /** The account a sign-up made is stored under its one login id. */
  lemma SignUpAccepted(scope: Scope, ctx: Json, input: Json, s: Stores, t: Stores, newId: string)
    requires Took(scope, ctx, input, WebAuthnStore.SignUp, s, t, true, newId)
    ensures var open := Named(input, s.passkeys);
            && WebAuthnStore.SomethingOffered(scope.host.libs, open, TextAt(input, "response"))
            && newId in t.users.byUserId && t.users.byUserId[newId].loginIds == [scope.host.lower(open.loginId)]
  {
    hide PasskeysAfter, WebAuthnStore.SomethingOffered, WebAuthnStore.RegistrationOf;
    WebAuthnStore.OfferedIffOk(scope.host.libs, Named(input, s.passkeys), TextAt(input, "response"));
    OneLoginId(s.users,
               PasskeyAccount(scope.host, Named(input, s.passkeys), FullName(scope.host, ctx), newId,
                              scope.moment.now));
  }

  lemma SignInEvidence(scope: Scope, input: Json, a: Snapshot, b: Snapshot, newId: string)
    requires a.view.ctx.Obj? && WebAuthnStore.Good(a.stores.passkeys)
    requires Took(scope, a.view.ctx, input, WebAuthnStore.SignIn, a.stores, b.stores, true, newId)
    requires b.view == FinishedView(a, b.stores, input, WebAuthnStore.SignIn, newId)
    ensures NewHolds(scope.host, a, b)
  {
    hide Took, Named, WebAuthnStore.Good;
    OpenThenGone(scope, a.view.ctx, input, WebAuthnStore.SignIn, a.stores, b.stores, newId);
    SignInAccepted(scope, a.view.ctx, input, a.stores, b.stores, newId);
  }

  lemma SignUpEvidence(scope: Scope, input: Json, a: Snapshot, b: Snapshot, newId: string)
    requires a.view.ctx.Obj? && WebAuthnStore.Good(a.stores.passkeys)
    requires Took(scope, a.view.ctx, input, WebAuthnStore.SignUp, a.stores, b.stores, true, newId)
    requires b.view == FinishedView(a, b.stores, input, WebAuthnStore.SignUp, newId)
    ensures NewHolds(scope.host, a, b)
  {
    hide Took, Named, WebAuthnStore.Good, WebAuthnStore.SomethingOffered, WebAuthnStore.SomeoneSigned;
    OpenThenGone(scope, a.view.ctx, input, WebAuthnStore.SignUp, a.stores, b.stores, newId);
    SignUpAccepted(scope, a.view.ctx, input, a.stores, b.stores, newId);
  }

  lemma BackEvidence(scope: Scope, ceremony: WebAuthnStore.Ceremony, input: Json, a: Snapshot, b: Snapshot, o: Outcome,
                     newId: string)
    requires WebAuthnStore.Good(a.stores.passkeys) && CameBack(scope, ceremony, input, a, b, o, newId)
    ensures NewHolds(scope.host, a, b)
  {
    hide Took, EventHolds, Named, SignedInView;
    if o.Interaction? {
      match ceremony {
        case SignIn => SignInEvidence(scope, input, a, b, newId);
        case SignUp => SignUpEvidence(scope, input, a, b, newId);
        case Update =>
      }
    }
  }

  lemma PasskeyEvidence(scope: Scope, ceremony: WebAuthnStore.Ceremony, input: Json, a: Snapshot, b: Snapshot,
                        o: Outcome)
    requires WebAuthnStore.Good(a.stores.passkeys) && PasskeyChecked(scope, ceremony, input, a, b, o)
    ensures NewHolds(scope.host, a, b)
  {
    hide CameBack, EventHolds;
    if TextAt(input, "failure") == "" {
      var newId :| CameBack(scope, ceremony, input, a, b, o, newId);
      BackEvidence(scope, ceremony, input, a, b, o, newId);
    }
  }

  lemma SsoEvidence(host: Host, input: Json, a: Snapshot, b: Snapshot, o: Outcome)
    requires SsoChecked(input, a, b, o)
    ensures NewHolds(host, a, b)
  {
  }

  lemma LoginEvidence(scope: Scope, a: Snapshot, b: Snapshot, o: Outcome)
    requires LoginDone(scope, a, b, o)
    ensures NewHolds(scope.host, a, b)
  {
  }

  lemma OtherEvidence(host: Host, a: Snapshot, b: Snapshot, o: Outcome)
    requires ActionOk(NoMeans, a, b, o)
    ensures NewHolds(host, a, b)
  {
    hide EvidenceHolds;
  }

  /** Whatever an action adds to a history holds: a sign-in in the stores around it, a login in the stores before it. */
  lemma RanEvidence(scope: Scope, task: Task, action: Action, input: Json, a: Snapshot, b: Snapshot, o: Outcome)
    requires WebAuthnStore.Good(a.stores.passkeys) && Ran(scope, task, action, input, a, b, o)
    ensures NewHolds(scope.host, a, b)
  {
    hide NewHolds, ActionOk, RiskTaken, PropertiesUpdated, PasswordTried, PasswordReset, PasswordChanged, CodeSent,
         CodeChecked, LinkWentOut, LinkChecked, PasskeyAsked, PasskeyChecked, SsoAsked, SsoChecked, LoginDone,
         UnknownAction;
    match action {
      case TryPassword => PasswordEvidence(scope, task, a, b, o);
      case ReplacePassword => ResetEvidence(scope, a, b, o);
      case CheckCode(channel) => CodeEvidence(scope, channel, a, b, o);
      case CheckLink => LinkEvidence(scope, input, a, b, o);
      case CheckPasskey(ceremony) => PasskeyEvidence(scope, ceremony, input, a, b, o);
      case CheckSso => SsoEvidence(scope.host, input, a, b, o);
      case EndSignedIn => LoginEvidence(scope, a, b, o);
      case _ => OtherEvidence(scope.host, a, b, o);
    }
  }

  /** Whatever a step of a path adds to the history holds. */
  lemma StepEvidence(scope: Scope, path: Path, i: nat)
    requires Stepped(scope, path, i)
    ensures NewHolds(scope.host, path.trail[i], path.trail[i + 1])
  {
    hide Ran, EventHolds;
    var task := scope.def.tasks[path.walk[i]];
    if task.kind == Automated {
      RanEvidence(scope, task, ActionOf(task.action), InputAt(scope.def, path, i), path.trail[i], path.trail[i + 1],
                  path.outcomes[i]);
    }
  }

  // -------------------------------------------------- by the task's name

  /** If the history grew by a sign-in, a task of this name may sign in so; by a login, it is the login's. */
  ghost predicate NewNamed(name: string, a: Snapshot, b: Snapshot) {
    |b.view.history| > |a.view.history| ==>
      var e := b.view.history[|a.view.history|];
      (e.SignedIn? ==> SignsInOn(name, e.evidence)) && (e.LoggedIn? ==> name == "logged-in")
  }

  /** What a finished passkey signs in on is the ceremony its task is for. */
  ghost predicate NewCeremony(ceremony: WebAuthnStore.Ceremony, a: Snapshot, b: Snapshot) {
    |b.view.history| > |a.view.history| ==>
      var e := b.view.history[|a.view.history|];
      && ceremony != WebAuthnStore.Update && e.SignedIn? && e.evidence.PasskeyFinished?
      && e.evidence.transaction.ceremony == ceremony
  }

  lemma PasskeyCeremony(scope: Scope, ceremony: WebAuthnStore.Ceremony, input: Json, a: Snapshot, b: Snapshot,
                        o: Outcome)
    requires WebAuthnStore.Good(a.stores.passkeys) && PasskeyChecked(scope, ceremony, input, a, b, o)
    ensures NewCeremony(ceremony, a, b)
  {
    hide CameBack;
    if TextAt(input, "failure") == "" {
      var newId :| CameBack(scope, ceremony, input, a, b, o, newId);
      BackCeremony(scope, ceremony, input, a, b, o, newId);
    }
  }

  lemma BackCeremony(scope: Scope, ceremony: WebAuthnStore.Ceremony, input: Json, a: Snapshot, b: Snapshot, o: Outcome,
                     newId: string)
    requires WebAuthnStore.Good(a.stores.passkeys) && CameBack(scope, ceremony, input, a, b, o, newId)
    ensures NewCeremony(ceremony, a, b)
  {
    hide Took, Named, WebAuthnStore.Good;
    if o.Interaction? {
      OpenThenGone(scope, a.view.ctx, input, ceremony, a.stores, b.stores, newId);
    }
  }

  lemma RanNamed(scope: Scope, task: Task, name: string, input: Json, a: Snapshot, b: Snapshot, o: Outcome)
    requires RanAs(scope, task, name, input, a, b, o)
    ensures NewNamed(name, a, b)
  {
    hide Contract, ActionOf, MeansFor, Ready, Open;
    MeansNames(name);
    if name in {"webauthn-sign-up-finish", "webauthn-sign-in-finish", "webauthn-update-user-finish"} {
      FinishNamed(scope, task, name, input, a, b, o);
    }
  }

  lemma FinishNamed(scope: Scope, task: Task, name: string, input: Json, a: Snapshot, b: Snapshot, o: Outcome)
    requires RanAs(scope, task, name, input, a, b, o)
    requires name in {"webauthn-sign-up-finish", "webauthn-sign-in-finish", "webauthn-update-user-finish"}
    ensures NewNamed(name, a, b)
  {
    hide RanAs, PasskeyChecked, Contract;
    RanByContract(scope, task, name, input, a, b, o);
    CheckPasskeyTask(scope, task, name, input, a, b, o);
    PasskeyCeremony(scope, if name == "webauthn-sign-up-finish" then WebAuthnStore.SignUp
                           else if name == "webauthn-sign-in-finish" then WebAuthnStore.SignIn
                           else WebAuthnStore.Update, input, a, b, o);
  }

  lemma StepByName(scope: Scope, path: Path, i: nat)
    requires Stepped(scope, path, i)
    ensures NewNamed(scope.def.tasks[path.walk[i]].action, path.trail[i], path.trail[i + 1])
  {
    hide Ran, SignsInOn;
    var task := scope.def.tasks[path.walk[i]];
    if task.kind == Automated {
      RanNamed(scope, task, task.action, InputAt(scope.def, path, i), path.trail[i], path.trail[i + 1],
               path.outcomes[i]);
    }
  }

  // ------------------------------------------------ what a request brings

  /** Evidence a request has to bring along; the rest was typed into the form. */
  predicate Presented(evidence: Evidence) {
    match evidence
    case LinkConsumed(_) => true
    case PasskeyFinished(t, _) => t.id != ""
    case SsoCodeConsumed(code) => code != ""
    case _ => false
  }

  /** The input carries the link's token, the response to the ceremony, or the provider's code. */
  predicate Carries(input: Json, evidence: Evidence) {
    match evidence
    case LinkConsumed(token) => Child(input, "token") == Str(token)
    case PasskeyFinished(t, response) => TextAt(input, "transactionId") == t.id && TextAt(input, "response") == response
    case SsoCodeConsumed(code) => ExchangeCode(input) == code
    case _ => false
  }

  /** If the history grew by a sign-in on such evidence, the input carried it. */
  ghost predicate NewCarried(input: Json, a: Snapshot, b: Snapshot) {
    |b.view.history| > |a.view.history| ==>
      var e := b.view.history[|a.view.history|];
      e.SignedIn? && Presented(e.evidence) ==> Carries(input, e.evidence)
  }

  lemma LinkCarried(scope: Scope, input: Json, a: Snapshot, b: Snapshot, o: Outcome)
    requires LinkChecked(scope, input, a, b, o)
    ensures NewCarried(input, a, b)
  {
    hide TokenTaken;
  }

  lemma BackCarried(scope: Scope, ceremony: WebAuthnStore.Ceremony, input: Json, a: Snapshot, b: Snapshot, o: Outcome,
                    newId: string)
    requires WebAuthnStore.Good(a.stores.passkeys) && CameBack(scope, ceremony, input, a, b, o, newId)
    ensures NewCarried(input, a, b)
  {
    hide Took, Named, WebAuthnStore.Good;
    if o.Interaction? {
      OpenThenGone(scope, a.view.ctx, input, ceremony, a.stores, b.stores, newId);
    }
  }

  lemma PasskeyCarried(scope: Scope, ceremony: WebAuthnStore.Ceremony, input: Json, a: Snapshot, b: Snapshot,
                       o: Outcome)
    requires WebAuthnStore.Good(a.stores.passkeys) && PasskeyChecked(scope, ceremony, input, a, b, o)
    ensures NewCarried(input, a, b)
  {
    hide CameBack;
    if TextAt(input, "failure") == "" {
      var newId :| CameBack(scope, ceremony, input, a, b, o, newId);
      BackCarried(scope, ceremony, input, a, b, o, newId);
    }
  }

  lemma SsoCarried(input: Json, a: Snapshot, b: Snapshot, o: Outcome)
    requires SsoChecked(input, a, b, o)
    ensures NewCarried(input, a, b)
  {
  }

  lemma OtherCarried(means: Means, input: Json, a: Snapshot, b: Snapshot, o: Outcome)
    requires ActionOk(means, a, b, o) && means != ByLink && means != ByPasskey && means != BySso
    ensures NewCarried(input, a, b)
  {
    hide Ready, Open;
  }

  lemma RanCarried(scope: Scope, task: Task, action: Action, input: Json, a: Snapshot, b: Snapshot, o: Outcome)
    requires WebAuthnStore.Good(a.stores.passkeys) && Ran(scope, task, action, input, a, b, o)
    ensures NewCarried(input, a, b)
  {
    hide NewCarried, ActionOk, RiskTaken, PropertiesUpdated, PasswordTried, PasswordReset, PasswordChanged, CodeSent,
         CodeChecked, LinkWentOut, LinkChecked, PasskeyAsked, PasskeyChecked, SsoAsked, SsoChecked, LoginDone,
         UnknownAction;
    match action {
      case CheckLink => LinkCarried(scope, input, a, b, o);
      case CheckPasskey(ceremony) => PasskeyCarried(scope, ceremony, input, a, b, o);
      case CheckSso => SsoCarried(input, a, b, o);
      case _ => OtherCarried(MeansFor(action), input, a, b, o);
    }
  }

  lemma StepCarried(scope: Scope, path: Path, i: nat)
    requires Stepped(scope, path, i)
    ensures NewCarried(InputAt(scope.def, path, i), path.trail[i], path.trail[i + 1])
  {
    hide Ran, Carries;
    var task := scope.def.tasks[path.walk[i]];
    if task.kind == Automated {
      RanCarried(scope, task, ActionOf(task.action), InputAt(scope.def, path, i), path.trail[i], path.trail[i + 1],
                 path.outcomes[i]);
    }
  }

  /** What a request has to bring signs in at the first task that acts, and is what was sent for that task. */
  lemma BroughtToTheFirst(scope: Scope, path: Path, k: nat, i: nat)
    requires Stepped(scope, path, i) && Grew(path, k, i)
    requires var e := path.trail[i + 1].view.history[k]; e.SignedIn? && Presented(e.evidence)
    ensures path.given.Some? && NoneActs(scope.def, path.walk, i)
    ensures Carries(path.given.value, path.trail[i + 1].view.history[k].evidence)
  {
    hide TaskRun;
    StepCarried(scope, path, i);
  }

  /** Tasks that do not act leave every store. */
  lemma {:induction false} NothingActed(scope: Scope, path: Path, a: Snapshot, b: Snapshot, i: nat)
    requires Joined(scope, path, a, b) && i <= |path.outcomes| && NoneActs(scope.def, path.walk, i)
    ensures path.trail[i].stores == a.stores
    decreases i
  {
    hide Ran;
    if i > 0 {
      NothingActed(scope, path, a, b, i - 1);
      assert Stepped(scope, path, i - 1) && !Acts(scope.def, path.walk[i - 1]);
    }
  }

  // ------------------------------------------------------------- the login

  /** A login of `user` at `now`: from stores that held the user, not disabled, to the same stores with the login
      noted. */
  ghost predicate LoggedInFrom(user: string, now: nat, s: Stores, t: Stores) {
    && user in s.users.byUserId && s.users.byUserId[user].status != "disabled"
    && t == s.(users := LoginStamped(s.users, user, now))
  }

  lemma LoginRan(scope: Scope, task: Task, action: Action, input: Json, a: Snapshot, b: Snapshot, o: Outcome)
    requires Ran(scope, task, action, input, a, b, o)
    requires |b.view.history| > |a.view.history| && b.view.history[|a.view.history|].LoggedIn?
    ensures action == EndSignedIn && o.Done?
    ensures var e := b.view.history[|a.view.history|];
            e.at == a.stores && LoggedInFrom(e.user, scope.moment.now, a.stores, b.stores)
  {
    hide RiskTaken, PropertiesUpdated, PasswordTried, PasswordReset, PasswordChanged, CodeSent, CodeChecked,
         LinkWentOut, LinkChecked, PasskeyAsked, PasskeyChecked, SsoAsked, SsoChecked, UnknownAction, Ready, Open,
         LoginStamped;
    assert MeansFor(action) == Login;
  }

  /** A login is the last step of its path. */
  lemma LoginIsLast(scope: Scope, path: Path, k: nat, i: nat)
    requires Stepped(scope, path, i) && Grew(path, k, i) && path.trail[i + 1].view.history[k].LoggedIn?
    ensures i + 1 == |path.walk|
    ensures var user := path.trail[i + 1].view.history[k].user;
            LoggedInFrom(user, scope.moment.now, path.trail[i].stores, path.trail[i + 1].stores)
  {
    hide Ran, LoggedInFrom;
    var task := scope.def.tasks[path.walk[i]];
    LoginRan(scope, task, ActionOf(task.action), InputAt(scope.def, path, i), path.trail[i], path.trail[i + 1],
             path.outcomes[i]);
  }
}
