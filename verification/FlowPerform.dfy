/** The actions a task may name, what each may do about the signed-in user, and the contract of each, in one place. */
module FlowPerform {
  import opened Json
  import opened FlowGraph
  import opened FlowRun
  import opened FlowState
  import opened FlowActions
  import opened FlowCodes
  import opened FlowPasskeys
  import opened FlowSso
  import WebAuthnStore

  // --------------------------------------------------------------- actions

  datatype Action =
    | AssessRisk | UpdateProperties | TryPassword | ReplacePassword | ChangePassword
    | AskCode(channel: Channel, maySignUp: bool) | CheckCode(channel: Channel)
    | AskLink(updateUser: bool) | CheckLink
    | AskPasskey(ceremony: WebAuthnStore.Ceremony) | CheckPasskey(ceremony: WebAuthnStore.Ceremony)
    | AskSso | CheckSso | Scriptlet | EndSignedIn | NotRun

  function ActionOf(name: string): Action {
    match name
    case "risk" => AssessRisk
    case "update-user-properties" => UpdateProperties
    case "password-sign-in-v2" => TryPassword
    case "password-sign-in" => TryPassword
    case "password-replace-v3" => ReplacePassword
    case "password-replace" => ReplacePassword
    case "password-update" => ChangePassword
    case "sign-in-otp-email" => AskCode(Email, false)
    case "sign-up-or-in-otp-email" => AskCode(Email, true)
    case "sign-up-otp-email" => AskCode(Email, true)
    case "sign-in-otp-sms" => AskCode(Sms, false)
    case "sign-up-or-in-otp-sms" => AskCode(Sms, true)
    case "sign-up-otp-sms" => AskCode(Sms, true)
    case "verify-code-otp-email" => CheckCode(Email)
    case "verify-code-otp-sms" => CheckCode(Sms)
    case "sign-in-magic-linkv3-email" => AskLink(false)
    case "sign-in-magic-link-email" => AskLink(false)
    case "sign-up-or-in-magic-link-email" => AskLink(false)
    case "update-user-magic-link-email" => AskLink(true)
    case "verify-magic-link" => CheckLink
    case "webauthn-sign-up-start" => AskPasskey(CeremonyOf(name))
    case "webauthn-sign-in-start" => AskPasskey(CeremonyOf(name))
    case "webauthn-update-user-start" => AskPasskey(CeremonyOf(name))
    case "webauthn-sign-up-finish" => CheckPasskey(CeremonyOf(name))
    case "webauthn-sign-in-finish" => CheckPasskey(CeremonyOf(name))
    case "webauthn-update-user-finish" => CheckPasskey(CeremonyOf(name))
    case "saml-start" => AskSso
    case "sso-start" => AskSso
    case "exchange-saml-code" => CheckSso
    case "exchange-sso-code" => CheckSso
    case "scriptlet" => Scriptlet
    case "logged-in" => EndSignedIn
    case _ => NotRun
  }

  /** What an action may do about the signed-in user: six can sign somebody in, one ends the run, the others leave
      it. */
  function MeansFor(action: Action): Means {
    match action
    case TryPassword => ByPassword
    case ReplacePassword => ByReplacement
    case CheckCode(_) => ByCode
    case CheckLink => ByLink
    case CheckPasskey(_) => ByPasskey
    case CheckSso => BySso
    case EndSignedIn => Login
    case _ => NoMeans
  }

  function UnknownAction(task: Task): Outcome {
    Fail("E102004", "The emulator does not run the " + task.action + " action (task " + task.id + ")")
  }

  /** What an action makes of the run and the stores, from one moment to the next, and how it comes out. */
  ghost predicate Contract(scope: Scope, task: Task, action: Action, input: Json, a: Snapshot, b: Snapshot, o: Outcome)
  {
    match action
    case AssessRisk => RiskTaken(a, b, o)
    case UpdateProperties => PropertiesUpdated(scope, task, a, b, o)
    case TryPassword => PasswordTried(scope, task, a, b, o)
    case ReplacePassword => PasswordReset(scope, a, b, o)
    case ChangePassword => PasswordChanged(scope, a, b, o)
    case AskCode(channel, maySignUp) => CodeSent(scope, task, channel, maySignUp, a, b, o)
    case CheckCode(channel) => CodeChecked(scope, channel, a, b, o)
    case AskLink(updateUser) => LinkWentOut(scope, task, updateUser, a, b, o)
    case CheckLink => LinkChecked(scope, input, a, b, o)
    case AskPasskey(ceremony) => PasskeyAsked(scope, task, ceremony, a, b, o)
    case CheckPasskey(ceremony) => PasskeyChecked(scope, ceremony, input, a, b, o)
    case AskSso => SsoAsked(scope, task, a, b, o)
    case CheckSso => SsoChecked(input, a, b, o)
    case Scriptlet => o == SUCCESS && b == a
    case EndSignedIn => LoginDone(scope, a, b, o)
    case NotRun => o == UnknownAction(task) && b == a
  }

  /** The action ran: what every action keeps, and its own contract. */
  ghost predicate Ran(scope: Scope, task: Task, action: Action, input: Json, a: Snapshot, b: Snapshot, o: Outcome) {
    ActionOk(MeansFor(action), a, b, o) && Contract(scope, task, action, input, a, b, o)
  }

  predicate Typed(action: Action) {
    action.TryPassword? || action.ReplacePassword? || action.CheckCode?
  }

  predicate Brought(action: Action) {
    action.CheckLink? || action.CheckPasskey? || action.CheckSso?
  }

  predicate Sends(action: Action) {
    action.AskCode? || action.AskLink?
  }

  predicate Asks(action: Action) {
    action.AskPasskey? || action.AskSso?
  }

  predicate OnAccount(action: Action) {
    action.UpdateProperties? || action.ChangePassword? || action.EndSignedIn?
  }

  /** Signs in by what was typed into the form. */
  method PerformTyped(state: EmulatorState, scope: Scope, run: Run, task: Task, action: Action, input: Json)
    returns (o: Outcome)
    requires CanRun(state, scope, run) && Typed(action)
    modifies run, state.Frame()
    ensures state.Valid() && Ran(scope, task, action, input, old(Snap(state, run)), Snap(state, run), o)
  {
    hide ActionOk, RiskTaken, PropertiesUpdated, PasswordTried, PasswordReset, PasswordChanged, CodeSent, CodeChecked,
         LinkWentOut, LinkChecked, PasskeyAsked, PasskeyChecked, SsoAsked, SsoChecked, LoginDone;
    match action {
      case TryPassword =>
        var answer, _, _, _ := PasswordSignIn(state, scope, run, task);
        o := answer;
      case ReplacePassword => o := PasswordReplace(state, scope, run);
      case CheckCode(channel) => o := VerifyCode(state, scope, run, channel);
    }
  }

  lemma LinkRan(scope: Scope, task: Task, input: Json, a: Snapshot, b: Snapshot, o: Outcome)
    requires ActionOk(ByLink, a, b, o) && LinkChecked(scope, input, a, b, o)
    ensures Ran(scope, task, CheckLink, input, a, b, o)
  {
    hide ActionOk, LinkChecked;
  }

  lemma PasskeyRan(scope: Scope, task: Task, ceremony: WebAuthnStore.Ceremony, input: Json, a: Snapshot, b: Snapshot,
                   o: Outcome)
    requires ActionOk(ByPasskey, a, b, o) && PasskeyChecked(scope, ceremony, input, a, b, o)
    ensures Ran(scope, task, CheckPasskey(ceremony), input, a, b, o)
  {
    hide ActionOk, PasskeyChecked;
  }

  lemma SsoRan(scope: Scope, task: Task, input: Json, a: Snapshot, b: Snapshot, o: Outcome)
    requires ActionOk(BySso, a, b, o) && SsoChecked(input, a, b, o)
    ensures Ran(scope, task, CheckSso, input, a, b, o)
  {
    hide ActionOk, SsoChecked;
  }

  /** Signs in by what the widget brought with the request. */
  method PerformBrought(state: EmulatorState, scope: Scope, run: Run, task: Task, action: Action, input: Json)
    returns (o: Outcome)
    requires CanRun(state, scope, run) && Brought(action)
    modifies run, state.Frame()
    ensures state.Valid() && Ran(scope, task, action, input, old(Snap(state, run)), Snap(state, run), o)
  {
    hide Ran, ActionOk, LinkChecked, PasskeyChecked, SsoChecked;
    ghost var a := Snap(state, run);
    match action {
      case CheckLink =>
        o := VerifyLink(state, scope, run, input);
        LinkRan(scope, task, input, a, Snap(state, run), o);
      case CheckPasskey(ceremony) =>
        o := PasskeyFinish(state, scope, run, input, ceremony);
        PasskeyRan(scope, task, ceremony, input, a, Snap(state, run), o);
      case CheckSso =>
        o := SsoExchange(state, scope, run, input);
        SsoRan(scope, task, input, a, Snap(state, run), o);
    }
  }

  /** Sends the user a code or a link. */
  method PerformSend(state: EmulatorState, scope: Scope, run: Run, task: Task, action: Action, input: Json)
    returns (o: Outcome)
    requires CanRun(state, scope, run) && Sends(action)
    modifies run, state.Frame()
    ensures state.Valid() && Ran(scope, task, action, input, old(Snap(state, run)), Snap(state, run), o)
  {
    hide ActionOk, RiskTaken, PropertiesUpdated, PasswordTried, PasswordReset, PasswordChanged, CodeSent, CodeChecked,
         LinkWentOut, LinkChecked, PasskeyAsked, PasskeyChecked, SsoAsked, SsoChecked, LoginDone;
    match action {
      case AskCode(channel, maySignUp) => o := SendCode(state, scope, run, task, channel, maySignUp);
      case AskLink(updateUser) => o := SendLink(state, scope, run, task, updateUser);
    }
  }

  /** Asks the browser for something. */
  method PerformAsk(state: EmulatorState, scope: Scope, run: Run, task: Task, action: Action, input: Json)
    returns (o: Outcome)
    requires CanRun(state, scope, run) && Asks(action)
    modifies run, state.Frame()
    ensures state.Valid() && Ran(scope, task, action, input, old(Snap(state, run)), Snap(state, run), o)
  {
    hide ActionOk, RiskTaken, PropertiesUpdated, PasswordTried, PasswordReset, PasswordChanged, CodeSent, CodeChecked,
         LinkWentOut, LinkChecked, PasskeyAsked, PasskeyChecked, SsoAsked, SsoChecked, LoginDone;
    match action {
      case AskPasskey(ceremony) => o := PasskeyStart(state, scope, run, task, ceremony);
      case AskSso => o := SsoStart(state, scope, run, task);
    }
  }

  /** Works on the account behind the run, or ends the run for it. */
  method PerformOnAccount(state: EmulatorState, scope: Scope, run: Run, task: Task, action: Action, input: Json)
    returns (o: Outcome)
    requires CanRun(state, scope, run) && OnAccount(action)
    modifies run, state.Frame()
    ensures state.Valid() && Ran(scope, task, action, input, old(Snap(state, run)), Snap(state, run), o)
  {
    hide ActionOk, RiskTaken, PropertiesUpdated, PasswordTried, PasswordReset, PasswordChanged, CodeSent, CodeChecked,
         LinkWentOut, LinkChecked, PasskeyAsked, PasskeyChecked, SsoAsked, SsoChecked, LoginDone;
    match action {
      case UpdateProperties => o := UpdateUserProperties(state, scope, run, task);
      case ChangePassword => o := PasswordUpdate(state, scope, run);
      case EndSignedIn => o := LogIn(state, scope, run);
    }
  }

  /** What a task without anything to do comes to: a scriptlet goes on, an action the engine does not know fails the
      run. */
  function Nothing(task: Task, action: Action): Outcome {
    if action == Scriptlet then SUCCESS else UnknownAction(task)
  }

  lemma NothingOk(scope: Scope, task: Task, action: Action, input: Json, a: Snapshot)
    requires Ready(a.view) && Open(a.view.history) && (action.Scriptlet? || action.NotRun?)
    ensures Ran(scope, task, action, input, a, a, Nothing(task, action))
  {
    UnchangedOk(NoMeans, a, a.stores, Nothing(task, action));
  }

  /** Touches no store. */
  method PerformLight(state: EmulatorState, scope: Scope, run: Run, task: Task, action: Action, input: Json)
    returns (o: Outcome)
    requires CanRun(state, scope, run) && (action.AssessRisk? || action.Scriptlet? || action.NotRun?)
    modifies run, state.Frame()
    ensures state.Valid() && Ran(scope, task, action, input, old(Snap(state, run)), Snap(state, run), o)
  {
    hide ActionOk, RiskTaken, PropertiesUpdated, PasswordTried, PasswordReset, PasswordChanged, CodeSent, CodeChecked,
         LinkWentOut, LinkChecked, PasskeyAsked, PasskeyChecked, SsoAsked, SsoChecked, LoginDone;
    if action == AssessRisk {
      o := Risk(state, scope, run);
    } else {
      o := Nothing(task, action);
      NothingOk(scope, task, action, input, Snap(state, run));
    }
  }

  /** Runs the task's action. */
  method Perform(state: EmulatorState, scope: Scope, run: Run, task: Task, action: Action, input: Json)
    returns (o: Outcome)
    requires CanRun(state, scope, run)
    modifies run, state.Frame()
    ensures state.Valid() && Ran(scope, task, action, input, old(Snap(state, run)), Snap(state, run), o)
  {
    hide Ran;
    if Typed(action) {
      o := PerformTyped(state, scope, run, task, action, input);
    } else if Brought(action) {
      o := PerformBrought(state, scope, run, task, action, input);
    } else if Sends(action) {
      o := PerformSend(state, scope, run, task, action, input);
    } else if Asks(action) {
      o := PerformAsk(state, scope, run, task, action, input);
    } else if OnAccount(action) {
      o := PerformOnAccount(state, scope, run, task, action, input);
    } else {
      o := PerformLight(state, scope, run, task, action, input);
    }
  }
}
