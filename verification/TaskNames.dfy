/** What a task's action name stands for: by name, what an automated task does to the run and the stores. */
module TaskNames {
  import opened Wrappers
  import opened Json
  import opened FlowGraph
  import opened FlowRun
  import opened FlowState
  import opened FlowActions
  import opened FlowCodes
  import opened FlowPasskeys
  import opened FlowSso
  import opened FlowPerform
  import opened FlowPath
  import WebAuthnStore

  /** An automated task of this name ran. */
  ghost predicate RanAs(scope: Scope, task: Task, name: string, input: Json, a: Snapshot, b: Snapshot, o: Outcome) {
    task.kind == Automated && task.action == name && TaskRun(scope, task, input, a, b, o)
  }

  lemma RanByContract(scope: Scope, task: Task, name: string, input: Json, a: Snapshot, b: Snapshot, o: Outcome)
    requires RanAs(scope, task, name, input, a, b, o)
    ensures Contract(scope, task, ActionOf(name), input, a, b, o) && WebAuthnStore.Good(a.stores.passkeys)
  {
    hide Contract, ActionOf, ActionOk;
  }

  lemma CeremonyNames()
    ensures CeremonyOf("webauthn-sign-up-start") == CeremonyOf("webauthn-sign-up-finish") == WebAuthnStore.SignUp
    ensures CeremonyOf("webauthn-sign-in-start") == CeremonyOf("webauthn-sign-in-finish") == WebAuthnStore.SignIn
    ensures CeremonyOf("webauthn-update-user-start") == CeremonyOf("webauthn-update-user-finish")
                                                     == WebAuthnStore.Update
  {
    assert "webauthn-sign-up" <= "webauthn-sign-up-start" && "webauthn-sign-up" <= "webauthn-sign-up-finish";
    assert "webauthn-sign-in" <= "webauthn-sign-in-start" && "webauthn-sign-in" <= "webauthn-sign-in-finish";
    assert "webauthn-sign-up"[14] != "webauthn-sign-in-start"[14]
           && "webauthn-sign-up"[9] != "webauthn-update-user-start"[9];
    assert "webauthn-sign-up"[14] != "webauthn-sign-in-finish"[14]
           && "webauthn-sign-up"[9] != "webauthn-update-user-finish"[9];
    assert "webauthn-sign-in"[9] != "webauthn-update-user-start"[9]
           && "webauthn-sign-in"[9] != "webauthn-update-user-finish"[9];
  }

  lemma AccountNames()
    ensures ActionOf("risk") == AssessRisk && ActionOf("update-user-properties") == UpdateProperties
    ensures ActionOf("password-sign-in-v2") == ActionOf("password-sign-in") == TryPassword
    ensures ActionOf("password-replace-v3") == ActionOf("password-replace") == ReplacePassword
    ensures ActionOf("password-update") == ChangePassword
    ensures ActionOf("scriptlet") == Scriptlet && ActionOf("logged-in") == EndSignedIn
  {
  }

  lemma CodeNames()
    ensures ActionOf("sign-in-otp-email") == AskCode(Email, false)
    ensures ActionOf("sign-up-or-in-otp-email") == ActionOf("sign-up-otp-email") == AskCode(Email, true)
    ensures ActionOf("sign-in-otp-sms") == AskCode(Sms, false)
    ensures ActionOf("sign-up-or-in-otp-sms") == ActionOf("sign-up-otp-sms") == AskCode(Sms, true)
    ensures ActionOf("verify-code-otp-email") == CheckCode(Email) && ActionOf("verify-code-otp-sms") == CheckCode(Sms)
  {
  }

  lemma LinkNames()
    ensures ActionOf("sign-in-magic-linkv3-email") == ActionOf("sign-in-magic-link-email") == AskLink(false)
    ensures ActionOf("sign-up-or-in-magic-link-email") == AskLink(false)
    ensures ActionOf("update-user-magic-link-email") == AskLink(true) && ActionOf("verify-magic-link") == CheckLink
    ensures ActionOf("saml-start") == ActionOf("sso-start") == AskSso
    ensures ActionOf("exchange-saml-code") == ActionOf("exchange-sso-code") == CheckSso
  {
  }

  lemma PasskeyNames()
    ensures ActionOf("webauthn-sign-up-start") == AskPasskey(WebAuthnStore.SignUp)
    ensures ActionOf("webauthn-sign-in-start") == AskPasskey(WebAuthnStore.SignIn)
    ensures ActionOf("webauthn-update-user-start") == AskPasskey(WebAuthnStore.Update)
    ensures ActionOf("webauthn-sign-up-finish") == CheckPasskey(WebAuthnStore.SignUp)
    ensures ActionOf("webauthn-sign-in-finish") == CheckPasskey(WebAuthnStore.SignIn)
    ensures ActionOf("webauthn-update-user-finish") == CheckPasskey(WebAuthnStore.Update)
  {
    hide CeremonyOf;
    CeremonyNames();
  }

  lemma RiskTask(scope: Scope, task: Task, name: string, input: Json, a: Snapshot, b: Snapshot, o: Outcome)
    requires RanAs(scope, task, name, input, a, b, o) && name == "risk"
    ensures RiskTaken(a, b, o)
  {
    hide ActionOf, RanAs, RiskTaken;
    AccountNames();
    RanByContract(scope, task, name, input, a, b, o);
  }

  lemma PropertiesTask(scope: Scope, task: Task, name: string, input: Json, a: Snapshot, b: Snapshot, o: Outcome)
    requires RanAs(scope, task, name, input, a, b, o) && name == "update-user-properties"
    ensures PropertiesUpdated(scope, task, a, b, o)
  {
    hide ActionOf, RanAs, PropertiesUpdated;
    AccountNames();
    RanByContract(scope, task, name, input, a, b, o);
  }

  lemma PasswordTask(scope: Scope, task: Task, name: string, input: Json, a: Snapshot, b: Snapshot, o: Outcome)
    requires RanAs(scope, task, name, input, a, b, o) && name in {"password-sign-in-v2", "password-sign-in"}
    ensures PasswordTried(scope, task, a, b, o)
  {
    hide ActionOf, RanAs, PasswordTried;
    AccountNames();
    RanByContract(scope, task, name, input, a, b, o);
  }

  lemma ReplaceTask(scope: Scope, task: Task, name: string, input: Json, a: Snapshot, b: Snapshot, o: Outcome)
    requires RanAs(scope, task, name, input, a, b, o) && name in {"password-replace-v3", "password-replace"}
    ensures PasswordReset(scope, a, b, o)
  {
    hide ActionOf, RanAs, PasswordReset;
    AccountNames();
    RanByContract(scope, task, name, input, a, b, o);
  }

  lemma UpdateTask(scope: Scope, task: Task, name: string, input: Json, a: Snapshot, b: Snapshot, o: Outcome)
    requires RanAs(scope, task, name, input, a, b, o) && name == "password-update"
    ensures PasswordChanged(scope, a, b, o)
  {
    hide ActionOf, RanAs, PasswordChanged;
    AccountNames();
    RanByContract(scope, task, name, input, a, b, o);
  }

  /** Only the `sign-up` names may make an account. */
  lemma AskCodeTask(scope: Scope, task: Task, name: string, input: Json, a: Snapshot, b: Snapshot, o: Outcome)
    requires RanAs(scope, task, name, input, a, b, o)
    ensures name == "sign-in-otp-email" ==> CodeSent(scope, task, Email, false, a, b, o)
    ensures name in {"sign-up-or-in-otp-email", "sign-up-otp-email"} ==> CodeSent(scope, task, Email, true, a, b, o)
    ensures name == "sign-in-otp-sms" ==> CodeSent(scope, task, Sms, false, a, b, o)
    ensures name in {"sign-up-or-in-otp-sms", "sign-up-otp-sms"} ==> CodeSent(scope, task, Sms, true, a, b, o)
  {
    hide ActionOf, RanAs, CodeSent;
    CodeNames();
    RanByContract(scope, task, name, input, a, b, o);
  }

  lemma CheckCodeTask(scope: Scope, task: Task, name: string, input: Json, a: Snapshot, b: Snapshot, o: Outcome)
    requires RanAs(scope, task, name, input, a, b, o)
    ensures name == "verify-code-otp-email" ==> CodeChecked(scope, Email, a, b, o)
    ensures name == "verify-code-otp-sms" ==> CodeChecked(scope, Sms, a, b, o)
  {
    hide ActionOf, RanAs, CodeChecked;
    CodeNames();
    RanByContract(scope, task, name, input, a, b, o);
  }

  /** Only an update goes to nobody but the signed-in user. */
  lemma AskLinkTask(scope: Scope, task: Task, name: string, input: Json, a: Snapshot, b: Snapshot, o: Outcome)
    requires RanAs(scope, task, name, input, a, b, o)
    ensures name in {"sign-in-magic-linkv3-email", "sign-in-magic-link-email", "sign-up-or-in-magic-link-email"} ==>
              LinkWentOut(scope, task, false, a, b, o)
    ensures name == "update-user-magic-link-email" ==> LinkWentOut(scope, task, true, a, b, o)
  {
    hide ActionOf, RanAs, LinkWentOut;
    LinkNames();
    RanByContract(scope, task, name, input, a, b, o);
  }

  lemma CheckLinkTask(scope: Scope, task: Task, name: string, input: Json, a: Snapshot, b: Snapshot, o: Outcome)
    requires RanAs(scope, task, name, input, a, b, o) && name == "verify-magic-link"
    ensures LinkChecked(scope, input, a, b, o)
  {
    hide ActionOf, RanAs, LinkChecked;
    LinkNames();
    RanByContract(scope, task, name, input, a, b, o);
  }

  lemma AskPasskeyTask(scope: Scope, task: Task, name: string, input: Json, a: Snapshot, b: Snapshot, o: Outcome)
    requires RanAs(scope, task, name, input, a, b, o)
    ensures name == "webauthn-sign-up-start" ==> PasskeyAsked(scope, task, WebAuthnStore.SignUp, a, b, o)
    ensures name == "webauthn-sign-in-start" ==> PasskeyAsked(scope, task, WebAuthnStore.SignIn, a, b, o)
    ensures name == "webauthn-update-user-start" ==> PasskeyAsked(scope, task, WebAuthnStore.Update, a, b, o)
  {
    hide ActionOf, RanAs, PasskeyAsked;
    PasskeyNames();
    RanByContract(scope, task, name, input, a, b, o);
  }

  lemma CheckPasskeyTask(scope: Scope, task: Task, name: string, input: Json, a: Snapshot, b: Snapshot, o: Outcome)
    requires RanAs(scope, task, name, input, a, b, o)
    ensures name == "webauthn-sign-up-finish" ==> PasskeyChecked(scope, WebAuthnStore.SignUp, input, a, b, o)
    ensures name == "webauthn-sign-in-finish" ==> PasskeyChecked(scope, WebAuthnStore.SignIn, input, a, b, o)
    ensures name == "webauthn-update-user-finish" ==> PasskeyChecked(scope, WebAuthnStore.Update, input, a, b, o)
  {
    hide ActionOf, RanAs, PasskeyChecked;
    PasskeyNames();
    RanByContract(scope, task, name, input, a, b, o);
  }

  lemma AskSsoTask(scope: Scope, task: Task, name: string, input: Json, a: Snapshot, b: Snapshot, o: Outcome)
    requires RanAs(scope, task, name, input, a, b, o) && name in {"saml-start", "sso-start"}
    ensures SsoAsked(scope, task, a, b, o)
  {
    hide ActionOf, RanAs, SsoAsked;
    LinkNames();
    RanByContract(scope, task, name, input, a, b, o);
  }

  lemma CheckSsoTask(scope: Scope, task: Task, name: string, input: Json, a: Snapshot, b: Snapshot, o: Outcome)
    requires RanAs(scope, task, name, input, a, b, o) && name in {"exchange-saml-code", "exchange-sso-code"}
    ensures SsoChecked(input, a, b, o)
  {
    hide ActionOf, RanAs, SsoChecked;
    LinkNames();
    RanByContract(scope, task, name, input, a, b, o);
  }

  lemma LoginTask(scope: Scope, task: Task, name: string, input: Json, a: Snapshot, b: Snapshot, o: Outcome)
    requires RanAs(scope, task, name, input, a, b, o) && name == "logged-in"
    ensures LoginDone(scope, a, b, o)
  {
    hide ActionOf, RanAs, LoginDone;
    AccountNames();
    RanByContract(scope, task, name, input, a, b, o);
  }

  /** A scriptlet goes on without having done anything. */
  lemma ScriptletTask(scope: Scope, task: Task, name: string, input: Json, a: Snapshot, b: Snapshot, o: Outcome)
    requires RanAs(scope, task, name, input, a, b, o) && name == "scriptlet"
    ensures o == Interaction("success") && b == a
  {
    hide ActionOf, RanAs;
    AccountNames();
    RanByContract(scope, task, name, input, a, b, o);
  }

  const NAMES: set<string> :=
    {"risk", "update-user-properties", "password-sign-in-v2", "password-sign-in", "password-replace-v3",
     "password-replace", "password-update", "sign-in-otp-email", "sign-up-or-in-otp-email", "sign-up-otp-email",
     "sign-in-otp-sms", "sign-up-or-in-otp-sms", "sign-up-otp-sms", "verify-code-otp-email", "verify-code-otp-sms",
     "sign-in-magic-linkv3-email", "sign-in-magic-link-email", "sign-up-or-in-magic-link-email",
     "update-user-magic-link-email", "verify-magic-link", "webauthn-sign-up-start", "webauthn-sign-in-start",
     "webauthn-update-user-start", "webauthn-sign-up-finish", "webauthn-sign-in-finish", "webauthn-update-user-finish",
     "saml-start", "sso-start", "exchange-saml-code", "exchange-sso-code", "scriptlet", "logged-in"}

  lemma OthersNotRun(name: string)
    requires name !in NAMES
    ensures ActionOf(name) == NotRun
  {
  }

  /** Any other name fails the run, and says so. */
  lemma UnknownTask(scope: Scope, task: Task, name: string, input: Json, a: Snapshot, b: Snapshot, o: Outcome)
    requires RanAs(scope, task, name, input, a, b, o) && name !in NAMES
    ensures b == a
    ensures o == Fail("E102004", "The emulator does not run the " + name + " action (task " + task.id + ")")
  {
    hide ActionOf, NAMES;
    RanByContract(scope, task, name, input, a, b, o);
    OthersNotRun(name);
  }

  /** The tasks that send links. */
  lemma SendNames(name: string)
    ensures ActionOf(name).AskLink?
       <==> name in {"sign-in-magic-linkv3-email", "sign-in-magic-link-email", "sign-up-or-in-magic-link-email",
                     "update-user-magic-link-email"}
  {
    if name !in NAMES {
      OthersNotRun(name);
    }
  }

  // --------------------------------------------------- who may sign in where

  /** The tasks that sign somebody in on such evidence. */
  predicate SignsInOn(name: string, evidence: Evidence) {
    match evidence
    case PasswordAccepted(_, _) => name in {"password-sign-in-v2", "password-sign-in"}
    case PasswordReplaced(_, _) => name in {"password-replace-v3", "password-replace"}
    case CodeConsumed(_) => name in {"verify-code-otp-email", "verify-code-otp-sms"}
    case LinkConsumed(_) => name == "verify-magic-link"
    case PasskeyFinished(t, _) =>
      || (t.ceremony == WebAuthnStore.SignUp && name == "webauthn-sign-up-finish")
      || (t.ceremony == WebAuthnStore.SignIn && name == "webauthn-sign-in-finish")
    case SsoCodeConsumed(_) => name in {"exchange-saml-code", "exchange-sso-code"}
  }

  lemma MeansNames(name: string)
    ensures MeansFor(ActionOf(name)) == ByPassword <==> name in {"password-sign-in-v2", "password-sign-in"}
    ensures MeansFor(ActionOf(name)) == ByReplacement <==> name in {"password-replace-v3", "password-replace"}
    ensures MeansFor(ActionOf(name)) == ByCode <==> name in {"verify-code-otp-email", "verify-code-otp-sms"}
    ensures MeansFor(ActionOf(name)) == ByLink <==> name == "verify-magic-link"
    ensures MeansFor(ActionOf(name)) == ByPasskey
       <==> name in {"webauthn-sign-up-finish", "webauthn-sign-in-finish", "webauthn-update-user-finish"}
    ensures MeansFor(ActionOf(name)) == BySso <==> name in {"exchange-saml-code", "exchange-sso-code"}
    ensures MeansFor(ActionOf(name)) == Login <==> name == "logged-in"
  {
    if name !in NAMES {
      OthersNotRun(name);
    }
  }
}
