# Verified model of the rescope emulator's sign-in core

A Dafny 4.11 model of the parts of the emulator that decide who is signed in: the engine that runs exported
flows, the stores it rests on, just-in-time provisioning for SSO, the failed sign-in lockout, and three small
kernels (CIDR membership, body capture for the request log, and the log's text formatter). `dafny verify dfyconfig.toml`
checks the whole project.

The main results:

* **Who gets signed in.** Through any sequence of starts, requests and other calls on the emulator, a run of a flow completes
  only for a user who was signed in at one step of one call for that run, by one of six ways, on evidence that held in the
  stores at that step. A link, a passkey response or a provider's code came with the request itself and was good in the
  emulator's stores as the request found them. At a later step, the last of its call, with no sign-in since, the user was
  stored and not disabled, and still is in the emulator's stores as that call left them (`FlowSystem.WhoGetsSignedIn`). A
  request that walks no sign-in task changes nobody's sign-in (`FlowRequests.SignInOnlyAtSignInTasks`).
* **How runs end.** Whatever else is served meanwhile, an ended run stays exactly as it ended, and what pollers are told is
  settled, also when it was the start that ended it (`FlowSystem.EndedRunStays`, `FlowSystem.PollsOfAnEndedRun`).
* **Where walks stop.** On a sound graph the step cap never fires, on a ring it always does, and a waiting answer names the
  very task the next request resumes from (`FlowGraph.NoWalkReachesTheCap`, `FlowEngine.Drive`, `FlowRequests.Next`).
* **Links.** However requests interleave, a link is accepted at most once across all runs, only in the run that sent it, for
  the user it was sent for; and it is accepted as long as fewer than 10,000 tokens were issued since (`LinkProtocol`). Every
  whole start and request of the engine is a sequence of that protocol's steps (`LinkRequests`).
* **What names and words mean.** What a flow's author writes is spelled out without the engine's own vocabulary: what each
  task name does (`TaskNames`), what each condition operator tests (`ConditionLaws`), where a request enters the graph and what
  a poll is told (`RequestLaws`), what a walk answers (`AnswerLaws`), which path of the context each thing stands under
  (`ContextLaws`), whom each action is for and what it changes (`AccountLaws`, `CodeLaws`, `BrowserLaws`). An accepted passkey
  response is one that the user's own key signed, over that ceremony's challenge, for its relying party
  (`WebAuthnStore.AcceptedIffSigned`). A link that is opened while it is live is consumed and verified, from the request to
  the stored run (`RequestLaws.OpenedLinkVerifies`).
* **Stores.** Each store agrees with a simple abstract state through every operation; the login-id index is exact, tokens
  leave first in first out, ceremonies are taken once, phone lookups agree with a scan.
* **Races.** Any number of provisioning calls for one address, interleaved at their three steps, make one user.

The engine is a class `Run` and a class of stores (`EmulatorState`), changed in place by one method per action, as in
the program. Ghost histories record what happened to a run; `RunOk` says that the context agrees with the history, and
every method keeps it. Each request leaves a ghost path behind (`FlowPath`): the tasks it walked, the run and the stores
before each of them and after the last, and how each came out. Every step of a path is its task's own contract
(`FlowPerform.Contract`), from one moment to the next: a task that does not act changes nothing, and the outcome leads
to the next task by the rule the graph gives it. A path begins with the emulator's stores as the request found them and
ends with those it left, so the contracts fix every moment in between, up to random values. `FlowSystem` joins the paths
of all calls. Libraries the program calls (hashing, signatures, CBOR, base64, JSON text, lowercasing, templates) are
function values in `Host` and `Libs`: what is proved holds for any such functions, or for all that satisfy the stated
laws (`Libs.Valid`, `Codec.Valid`). The two laws on JSON text are asked only of values without numbers, which is all
that responses and client data consist of. Random values and the iteration order of hash maps are arbitrary choices;
where freshness matters it is a stated condition on the sequence of steps.

Where code and documentation, or code and expectation, part ways, the model follows the code:

* `password-replace` signs the user in even when hashing or saving the new password failed
  (apps/api/src/flow_engine.rs:1056-1066); `FlowActions.PasswordReplace` states it, and the evidence says which.
* An ended run whose link was not verified answers every poll with "waiting", for good; `FlowSystem.PollsOfAnEndedRun` gives
  both cases.
* The SSO exchange accepts any live token that is not a tenant's, whatever its type, so a link token too;
  `FlowSso.SsoExchange` states exactly which.
* A passkey sign-up that finds its login id taken reports an error but leaves the new passkey filed under an id nobody has;
  a failed sign-up leaves nothing behind exactly when its response was refused (`FlowPasskeys.FailedSignUpLeavesNothingIff`).
* An insert under a user id in use leaves the login-id index wrong unless the old user had no login ids
  (`UserIndex.InsertExactIff`).
* The lockout window is fixed, not sliding: five failures within 300 seconds need not lock
  (`Lockout.FiveRecentFailuresMayNotLock`; `Lockout.RefusedIffFullWindow` is the exact condition).
* The soft authenticator writes the length of a credential id in two bytes, so ids of 65,536 bytes or more do not come
  back (`AuthData.RoundTripIffIdFits`).
* An insert of a token that is still live lists it twice in the eviction queue; the queue stays right exactly when the token
  is not live once the eviction has made room (`TokenStore.InsertListsIff`).

## Model

| member | source | states |
|---|---|---|
| Json.WritePath | apps/api/src/flow_engine.rs:249-263 | the moving-cursor loop leaves the object that the recursive write describes, whatever stood in the way |
| Json.ReadBelowWritten | apps/api/src/flow_engine.rs:241-263 | reading the path just written, or any path below it, reads the value written |
| Json.WriteKeepsDiverging | apps/api/src/flow_engine.rs:241-263 | a write leaves every path that parts ways with it as it read before, also where a scalar or a missing node was replaced |
| Json.ReadAboveWritten | apps/api/src/flow_engine.rs:241-263 | above the written path there is an object whose rest is what it was |
| Json.WriteTwice | apps/api/src/flow_engine.rs:249-263 | of two writes to one path the later one counts |
| Json.WriteBackIffPresent | apps/api/src/flow_engine.rs:241-263 | writing back what a path read changes nothing exactly when the path was there |
| Json.WritesCommute | apps/api/src/flow_engine.rs:249-263 | writes to diverging paths can be swapped |
| Json.MergeForm | apps/api/src/flow_engine.rs:373-396 | a submit, its fields taken in any order, leaves every path outside `form` as it was |
| Json.FormPathShape | apps/api/src/flow_engine.rs:393-394 | a field lands at its own dotted path below `form`; the prefix `form.` is not doubled |
| Json.SplitIff | apps/api/src/flow_engine.rs:241-263 | a dotted name reads as a list of keys exactly when no key holds a dot and joining them by dots gives the name |
| Json.MergeKeepsOutsideForm | apps/api/src/flow_engine.rs:373-396 | no list of fields reaches a path that does not start at `form` |
| Json.MergeReadsBack | apps/api/src/flow_engine.rs:373-396 | a field whose path parts ways with all others reads back as submitted |
| Json.SubmitReads | apps/api/src/flow_engine.rs:373-396 | in whatever order the fields come, every field of a submit with plain names reads back below `form` but for the ten that belong to round trips, and what was not submitted reads as before |
| FlowGraph.FirstRule | apps/api/src/flow_engine.rs:557-576 | the target of the first rule that applies: matching interaction (any, if empty), and not one of the task's own finish steps |
| FlowGraph.FollowIff | apps/api/src/flow_engine.rs:557-576 | an interaction is followed to a task exactly if that is where the first rule leads that names it (any, if empty) and not to the verify, finish or exchange step among the task's own arguments |
| FlowGraph.StartScreenIff | apps/api/src/flow_engine.rs:105-116 | the start screen is the screen that so many tasks in a row, each the target of the first rule before it, end in, if there is one |
| FlowGraph.NoWalkReachesTheCap | apps/api/src/flow_engine.rs:52-52 | with at most 200 tasks, all targets there, and no cycle among tasks that are not screens, no walk makes 200 steps |
| FlowGraph.RingIsEndless | apps/api/src/flow_engine.rs:51-52 | from a task on a ring of tasks that lead around among themselves, nothing but a cap ever stops a walk |
| FlowGraph.SelfLoopReachesTheCap | apps/api/src/flow_engine.rs:51-52 | a task whose first rule leads back to itself is such a ring, and makes the graph unsound; `FlowEngine.Drive` answers E102105 from there |
| FlowConditions.EvaluateCondition | apps/api/src/flow_engine.rs:755-773 | the interaction of the first case with conditions that all hold, wherever the else case stands, and `ELSE` exactly when there is none; `ConditionLaws` says when one holds |
| ConditionLaws.TrueOrFalse | apps/api/src/flow_engine.rs:775-782 | `is-true` holds of true, of text that spells true in any case, and of a number other than zero; `is-false` exactly of everything else |
| ConditionLaws.NumbersCompare | apps/api/src/flow_engine.rs:794-798 | the four comparisons hold of numbers, and of text that parses as one, by their order |
| ConditionLaws.OthersDoNotCompare | apps/api/src/flow_engine.rs:811-841 | none of the four holds when either side is no number |
| ConditionLaws.TextsCompare | apps/api/src/flow_engine.rs:811-841 | `equal`, `not-equal` and `contains` are about the texts, nothing being the empty text; one contains another exactly when it is some text, the other, and some text |
| ConditionLaws.EmptyOrNot | apps/api/src/flow_engine.rs:784-792 | `empty` holds exactly of nothing, the empty text, list and object |
| ConditionLaws.MailOrNot | apps/api/src/flow_engine.rs:800-809 | `is-email` holds exactly of a local part, one `@`, and a domain with a dot that neither begins nor ends it |
| ConditionLaws.OtherOperatorsFail | apps/api/src/flow_engine.rs:811-841 | a test with any other operator never holds |
| ConditionLaws.CaseNeedsAll | apps/api/src/flow_engine.rs:755-773 | a case is taken exactly when it has tests and each of them holds |
| ConditionLaws.FirstCaseCounts | apps/api/src/flow_engine.rs:755-773 | of several cases the first that would be taken alone is, and without one `ELSE` |
| FlowRun.CompletedAfterSignIn | apps/api/src/flow_engine.rs:353-355 | the history of a completed run ends with the login of the user in its context, the first in it, and the last sign-in stands before it and is that user's |
| FlowRun.AuthChangesOnlyBySignIn | apps/api/src/flow_engine.rs:345-355 | between two states of a run without a sign-in in between, the signed-in user is the same |
| FlowRun.EndedStaysEnded | apps/api/src/flow_engine.rs:474-480 | along the requests served to one run: once it is not waiting, every later one leaves its status, task, user, link, last envelope and history |
| FlowRun.PollsAfterTheEnd | apps/api/src/flow_engine.rs:513-536 | along the requests served to one run: after the end every poll gets the envelope that ended it if the link was verified, and is told to go on waiting if not |
| FlowSystem.RequestsFormAChain | apps/api/src/flow_engine.rs:452-508 | through any sequence of starts, requests to any runs, expiry and other calls, the start of a run and the requests served to it form a chain, and the run as stored is the end of it |
| FlowSystem.EndedRunStays | apps/api/src/flow_engine.rs:474-480 | in any such sequence a run that ended stays as it ended for as long as it is stored |
| FlowSystem.PollsOfAnEndedRun | apps/api/src/flow_engine.rs:513-536 | in any such sequence, after the call that ended a run, its own start perhaps, every poll of it gets that call's very answer if the link was verified, and is told to go on waiting if not |
| FlowSystem.EventHappened | apps/api/src/flow_engine.rs:580-662 | every sign-in, link and login in any run's history was added by one step of one call that concerns that run, a step that ran by its task's contract, on a path of such steps from the emulator's stores as the call found them to those it left |
| FlowSystem.WhoGetsSignedIn | apps/api/src/flow_engine.rs:1572-1623 | in any such sequence a completed run's user was signed in at one step, of a task whose name is one of those that sign in on that evidence, and the evidence held in the stores there; a link, response or code came with that request and held in the emulator's stores as the request found them; at a later step, the last of its call and of a `logged-in` task, with no sign-in between or after, the user was stored and not disabled, and is in the emulator's stores as that call left them, with the login noted |
| FlowStore.FlowStore.SweepExpired | libs/rescope-core/src/store/flow_store.rs:133-138 | exactly the runs younger than 600 seconds stay |
| FlowStore.FlowStore.InsertRun | libs/rescope-core/src/store/flow_store.rs:140-142 | the run is stored under its id with its history, all others stay |
| FlowStore.FlowStore.RiskScore | libs/rescope-core/src/store/flow_store.rs:173-179 | the score of the first known login id, else the default, else zero |
| FlowState.Run.SignIn | apps/api/src/flow_engine.rs:353-355 | `auth` becomes this user, method and first-seen mark, nothing else changes, only on evidence that holds, and the history says so |
| FlowState.Run.AcceptLink | apps/api/src/flow_engine.rs:1303-1306 | the pending link becomes verified, and its user is signed in by it unless somebody is already |
| FlowContext.FullContext | apps/api/src/flow_engine.rs:717-751 | the context plus the stored user of its id, the user the typed identifier loads, each projected with their passkeys, and whether the typed address uses SSO |
| ContextLaws.FullContextReads | apps/api/src/flow_engine.rs:717-751 | below which keys the full context shows the signed-in user, the user the typed identifier loads, whether they are new and whether the address uses SSO; every other path reads as in the context |
| ContextLaws.ScreenReads | apps/api/src/flow_engine.rs:671-713 | by path, what a screen's answer says: run, task, name, screen id, its state with the keys asked for, and the error |
| ContextLaws.KeyShown | apps/api/src/flow_engine.rs:696-703 | a key the screen asks for reads in its state as in the full context, unless a later key reaches the same place |
| FlowContext.CopyKeys | apps/api/src/flow_engine.rs:696-703 | the loop copies the context keys the screen asks for, in order, each to the path it was read from |
| FlowContext.ScreenEnvelope | apps/api/src/flow_engine.rs:671-713 | the whole screen answer: it waits under the screen task's own id and name, and its state is form, sent-to notes and user drawn from the full context, the keys the screen asks for, and the error |
| FlowContext.TargetUserId | apps/api/src/flow_engine.rs:942-953 | the signed-in user if there is one, else exactly the user the typed identifier loads, if any |
| FlowActions.Risk | apps/api/src/flow_engine.rs:921-939 | only `riskInfo` changes, to the score of the first known id of the signed-in user or of what was typed |
| AccountLaws.WhoseScore | apps/api/src/flow_engine.rs:920-932 | the ids looked up are the login ids and the address of the signed-in user, if stored, or else what was typed, trimmed |
| FlowActions.UpdateUserProperties | apps/api/src/flow_engine.rs:955-993 | exactly the target user is stored again with the task's definitions applied in order; the run stays as it is |
| AccountLaws.PropertiesStoredFor | apps/api/src/flow_engine.rs:955-993 | by the typed text and the `auth` path: whose record alone changes, and by which definitions on which context |
| AccountLaws.PropertyGoes | apps/api/src/flow_engine.rs:977-992 | which property each key of a definition writes; other keys write none |
| AccountLaws.AttributeGoes | apps/api/src/flow_engine.rs:983-984 | a `customAttributes.` key writes the attribute it names, with the value as it is |
| FlowActions.CheckPassword | apps/api/src/flow_engine.rs:995-1027 | when sign-in is on and the login id not locked, accepted exactly if the loaded user has a hash that verifies and is not disabled; one failure or one clear is recorded, and neither when nothing was looked at |
| FlowActions.PasswordSignIn | apps/api/src/flow_engine.rs:995-1030 | signs in exactly whom the typed password opens, recorded as such; otherwise the refusal, and the run is unchanged |
| AccountLaws.WhomAPasswordSignsIn | apps/api/src/flow_engine.rs:995-1030 | by path and text: success means password sign-in is on and an enabled account the typed identifier loads has a hash that the typed password verifies against, and that user becomes signed in by `pwd`; anything else leaves run and stores |
| AccountLaws.WhatATryComesTo | apps/api/src/flow_engine.rs:995-1027 | when sign-in is on and the login id not locked, exactly the right password of an enabled account is accepted, and the try leaves one note; otherwise it leaves none |
| FlowActions.SetPassword | apps/api/src/flow_engine.rs:1032-1046 | saves the hash for the stored user or changes nothing, and says which |
| FlowActions.PasswordReplace | apps/api/src/flow_engine.rs:1056-1066 | signs the target in whether or not the password was saved, and never replaces a signed-in user |
| AccountLaws.WhomAReplacementSignsIn | apps/api/src/flow_engine.rs:1048-1066 | by path and text: which of the two fields is the new password, whose it becomes, and that the target is signed in by `pwd` unless somebody is |
| FlowActions.PasswordUpdate | apps/api/src/flow_engine.rs:1068-1074 | saves the new password of the signed-in user, or says that there is none or that it could not be saved; the run stays |
| AccountLaws.WhoseUpdate | apps/api/src/flow_engine.rs:1068-1074 | by path: the signed-in user's password only, and what the screen says without one |
| FlowCodes.CodeRecipient | apps/api/src/flow_engine.rs:1090-1119 | the target, whoever the typed identifier loads included; without one, a new account exactly when allowed, by email, for a free address |
| FlowCodes.SendCode | apps/api/src/flow_engine.rs:1082-1144 | stores one code for that recipient and remembers that very user as pending and where the code went; without a recipient neither run nor codes change |
| CodeLaws.WhomACodeGoesTo | apps/api/src/flow_engine.rs:1082-1144 | by path and text: the target's address, stored or typed; without a target a new account, exactly as one is made, when the task may make one and the typed address is one and free; the two refusals; what is pending and noted after |
| FlowCodes.MarkVerified | apps/api/src/flow_engine.rs:1163-1182 | patches at most one user: the one proved, whenever its first login id leads to it |
| FlowCodes.VerifyCode | apps/api/src/flow_engine.rs:1146-1192 | succeeds exactly on the pending user's own code, which is gone after; signs that user in unless somebody is; marks the address verified |
| CodeLaws.WhatACodeProves | apps/api/src/flow_engine.rs:1146-1192 | by path and text: a typed code that is the pending user's is gone, proves the address by channel, and signs that user in by `email` or `sms` unless somebody is; any other changes nothing |
| FlowCodes.SendLink | apps/api/src/flow_engine.rs:1195-1273 | a new token goes into the store for the target, the signed-in user only for an update, and becomes this run's pending link, not yet verified; the link text, naming page, run, step and token, is on record as the last one sent to the address and to what was typed; without a target nothing changes |
| CodeLaws.WhomALinkGoesTo | apps/api/src/flow_engine.rs:1195-1273 | by path and text: whom the new token is for, what the run remembers of it, and the refusal without a target |
| CodeLaws.WhatIsSent | apps/api/src/flow_engine.rs:1242-1268 | the link on record under the address and what was typed leads back to this run's verify step, by the page of the task, the widget's, or the one it is on |
| FlowCodes.VerifyLink | apps/api/src/flow_engine.rs:1275-1308 | succeeds exactly when the token is this run's pending one and still in the store, consumes it, verifies the link, signs in the entry's user unless somebody is; otherwise nothing changes |
| CodeLaws.WhatALinkProves | apps/api/src/flow_engine.rs:1275-1308 | by path: exactly the pending token, while it is live, is consumed, proves the address, sets `verified`, and signs in its entry's user by `magiclink` unless somebody is; the two refusals |
| FlowUrls.RelyingPartyIsHost | apps/api/src/flow_engine.rs:1311-1328 | a page names its host as the relying party, whatever scheme, port, path, query and fragment, from the origin or from where the widget is |
| FlowUrls.BackReads | apps/api/src/flow_engine.rs:1528-1535 | the way back from a provider is a link of this run and step up to the token |
| FlowUrls.ReturnsToTheFirst | apps/api/src/flow_engine.rs:1203-1213 | links lead to the first page given, up to its query or fragment |
| FlowPasskeys.PasskeyOwner | apps/api/src/flow_engine.rs:1351-1400 | a sign-up is for an identifier that loads nobody, a sign-in for the user it loads if that user has a passkey, an update for the signed-in user under the chosen or first login id; each refusal told apart |
| FlowPasskeys.PasskeyStart | apps/api/src/flow_engine.rs:1340-1431 | opens exactly one ceremony, of the right kind, for that owner and the widget's relying party, while expired ones go; the run remembers it, and the answer waits under the finish step over what the widget shows, with the ceremony's options; or it refuses and changes nothing |
| BrowserLaws.WhoseCeremony | apps/api/src/flow_engine.rs:1340-1431 | by path and text: the owner of each kind of ceremony or why there is none, the ceremony opened over what the context says, what the run remembers, and the answer with action, id and options |
| FlowPasskeys.FinishCeremony | apps/api/src/flow_engine.rs:1457-1519 | succeeds exactly on an accepted assertion, an accepted registration by somebody signed in, or one for a free login id, and changes users and passkeys exactly so |
| FlowPasskeys.FailedSignUpLeavesNothingIff | apps/api/src/flow_engine.rs:1490-1516 | a failed sign-up leaves the stores as they were if and only if its response was refused |
| FlowPasskeys.PasskeyFinish | apps/api/src/flow_engine.rs:1433-1520 | succeeds exactly when what came back finishes a ceremony of that kind that was open, and then signs in whom it is for, an update nobody; otherwise an error on the screen and the run unchanged |
| BrowserLaws.WhatCameBack | apps/api/src/flow_engine.rs:1433-1520 | by path: a failure or a name of no open ceremony of that kind changes nothing; a ceremony named is used up, and accepted exactly if somebody's own key signed, or a passkey was offered to a signed-in user or under a free login id; then who becomes signed in by `webauthn`, under which account, with which passkeys; each refusal |
| FlowSso.SsoStart | apps/api/src/flow_engine.rs:1522-1558 | sends the browser to the provider's address, asked for with the address that leads back to this run and step, over the last screen under the exchange step, or shows why there is none; neither run nor store changes |
| BrowserLaws.WhomSsoAsks | apps/api/src/flow_engine.rs:1522-1558 | by path and text: the hint, the way back and the step it names, and the redirect or the text that says why not |
| FlowSso.SsoExchange | apps/api/src/flow_engine.rs:1560-1570 | succeeds exactly for a live token that is not a tenant's, consumes it either way, signs in the entry's user |
| BrowserLaws.WhatACodeFromSsoDoes | apps/api/src/flow_engine.rs:1560-1570 | by path: the code is used up, and a live one whose user is no tenant signs that user in by `saml`; the two refusals |
| FlowSso.LogIn | apps/api/src/flow_engine.rs:1572-1623 | done exactly when the user in the context is stored, not disabled and its session can be signed, with that session and the login time recorded; each refusal told apart, and it changes nothing |
| AccountLaws.WhatALoginDoes | apps/api/src/flow_engine.rs:1572-1623 | by path: whose session, by which method and whether first seen, the refusals in order with their codes, and the one field of the user that changes |
| FlowPerform.Perform | apps/api/src/flow_engine.rs:854-918 | the action the name stands for runs by its own contract, from the run and stores before it to those after, with its outcome; what every action keeps: task, status, screen and last envelope, and at most one event more, a sign-in only by that action's own means; `TaskNames` says by literal name which contract |
| TaskNames.PasswordTask | apps/api/src/flow_engine.rs:865-865 | a step of a task named `password-sign-in-v2` or `password-sign-in` is a password tried |
| TaskNames.ReplaceTask | apps/api/src/flow_engine.rs:866-866 | one named `password-replace-v3` or `password-replace` is a replacement |
| TaskNames.AskCodeTask | apps/api/src/flow_engine.rs:868-880 | which names send a code by which channel, and that only the sign-up names may make an account |
| TaskNames.CheckCodeTask | apps/api/src/flow_engine.rs:881-882 | which names check a code of which channel |
| TaskNames.AskLinkTask | apps/api/src/flow_engine.rs:883-895 | which names send a link, and that only the update goes to nobody but the signed-in user |
| TaskNames.CheckLinkTask | apps/api/src/flow_engine.rs:896-896 | `verify-magic-link` checks a link, with the input of its step |
| TaskNames.AskPasskeyTask | apps/api/src/flow_engine.rs:897-899 | which name opens which kind of ceremony |
| TaskNames.CheckPasskeyTask | apps/api/src/flow_engine.rs:900-902 | which name finishes which kind |
| TaskNames.CheckSsoTask | apps/api/src/flow_engine.rs:904-904 | `exchange-saml-code` and `exchange-sso-code` exchange a code |
| TaskNames.LoginTask | apps/api/src/flow_engine.rs:909-909 | `logged-in` ends the run with a session or a refusal |
| TaskNames.UnknownTask | apps/api/src/flow_engine.rs:910-916 | a step of any other name fails with E102004, which names action and task, and changes nothing |
| TaskNames.MeansNames | apps/api/src/flow_engine.rs:854-918 | by name, exactly which tasks may sign somebody in, and by which of the six ways |
| FlowEngine.Step | apps/api/src/flow_engine.rs:598-612 | a task that is not a screen: its action, the branch its conditions take on the full context, or nothing |
| FlowEngine.Remember | apps/api/src/flow_engine.rs:665-669 | the envelope is kept exactly when the link is verified, and only that changes |
| FlowEngine.ShowScreen | apps/api/src/flow_engine.rs:599-605 | the run waits at the screen shown, remembered as the one errors come back to, and the answer is that screen drawn from the full context |
| FlowEngine.Settle | apps/api/src/flow_engine.rs:627-655 | a wait, an error screen, a completion and a failure each leave exactly the status, task, context and history their answer reports; an error shows the last screen again, drawn from the full context |
| FlowPath.GrewOnPath | apps/api/src/flow_engine.rs:580-662 | an event a request added, other than its end, was added by one step of its path, which ran by its task's contract on the run and stores as the step before left them |
| FlowEvidence.RanEvidence | apps/api/src/flow_engine.rs:854-918 | whatever an action adds to the history holds: a sign-in on evidence in the stores around it, a login of a stored user who is not disabled |
| FlowEvidence.BroughtToTheFirst | apps/api/src/flow_engine.rs:608-611 | a link, a response or a code signs in at the first task that acts, and is what the request carried for that task |
| FlowEvidence.LoginIsLast | apps/api/src/flow_engine.rs:642-646 | a login is the last step of its path, and changes no store but for the login time of its user, who was stored and not disabled |
| FlowEngine.Drive | apps/api/src/flow_engine.rs:580-662 | the run stays good; every task on the way runs by its contract on what the one before left, and its outcome takes it to the next by its rule; the widget's input goes to the first task that acts and to no other; the answer is the last outcome's, the screen's or missing task's where the walk stops, or the cap's; the cap's error means an unsound graph, and a walk nothing else stops gets it |
| AnswerLaws.WhatAWalkAnswers | apps/api/src/flow_engine.rs:580-662 | by path and code: how the run is left and what is answered at a last outcome, a screen, a missing task, a missing rule, an error with no screen, or after two hundred tasks, and that the answer is kept exactly if the link was opened |
| FlowRequests.RememberOrigin | apps/api/src/flow_engine.rs:398-402 | nothing but `origin` changes |
| FlowRequests.Submit | apps/api/src/flow_engine.rs:489-490 | every submitted field lands in the form, in some order, and nothing else changes: no sign-in, no link, no envelope |
| FlowRequests.SignInOnlyAtSignInTasks | apps/api/src/flow_engine.rs:854-918 | a served request whose walk has no sign-in task leaves the signed-in user |
| FlowRequests.Poll | apps/api/src/flow_engine.rs:513-536 | until the link is verified, and once an envelope is kept, polling changes nothing; otherwise it goes on exactly along the polling rule, without input, to the walk's own answer |
| FlowRequests.Advance | apps/api/src/flow_engine.rs:481-504 | a request enters the graph where `RequestLaws` says, with the submit in the form or its input handed on, and answers what the walk answers |
| RequestLaws.RoundTripEnters | apps/api/src/flow_engine.rs:481-485 | a request to a waiting run that brings a `token` or `exchangeCode` and names an automated task starts the walk there, with all of its input and the form as it was |
| RequestLaws.SubmitEnters | apps/api/src/flow_engine.rs:489-498 | any other request to a run at a screen puts its fields into the form and starts where the screen's rule leads, without input, or answers E102103 |
| RequestLaws.ResumeEnters | apps/api/src/flow_engine.rs:498-504 | at any other task the walk goes on there with all of the input; a missing task is answered E102103 |
| RequestLaws.PollAnswers | apps/api/src/flow_engine.rs:513-536 | a poll is told to wait until `pending.magicLink.verified`, then gets `lastEnvelope`, and only without one goes on along the rule for `polling` |
| RequestLaws.OpenedLinkVerifies | apps/api/src/flow_engine.rs:481-486 | end to end: a request that brings a waiting run its live pending token at its `verify-magic-link` step consumes the token in its first step and verifies the link, and so the stored run and the store end, unless the same walk sends another link |
| FlowRequests.Save | apps/api/src/flow_engine.rs:538-553 | expired runs go, this run is stored as it is with its age kept and its history, and every stored run is still good |
| AnswerLaws.WhatASaveKeeps | apps/api/src/flow_engine.rs:538-553 | the saved run stands under its id with its first age; any other run stays exactly if it is younger than 600 seconds |
| FlowRequests.Next | apps/api/src/flow_engine.rs:452-508 | the stored run goes from good to good as served, with its origin noted, along one path of contract steps from the stores before to the stores after, to that path's answer; every other run and history is left or expires, an ended run changes no store, step ids match the stored task, and a sound graph never reports the cap |
| FlowRequests.Start | apps/api/src/flow_engine.rs:404-450 | a new run knows nobody, has the widget's fields in its form, enters at the start task or past the start screen, and is stored good, along one path of contract steps, with that path's answer; every other run and history is left or expires |
| RequestLaws.StartEnters | apps/api/src/flow_engine.rs:404-450 | a start enters at the start task; with an interaction, past the screen that at most four first rules lead to, which is remembered, or answers E102103 |
| AnswerLaws.WhatAStartHolds | apps/api/src/flow_engine.rs:404-422 | by path: a run starts at the start task with the widget's options, the page it came from, every field sent under a plain name in the form but for the ten of round trips, nothing pending and nobody signed in |
| LinkProtocol.AcceptedOnceInItsOwnRun | apps/api/src/flow_engine.rs:1245-1308 | under every interleaving with fresh tokens, accepted links have distinct tokens, each accepted in the run that sent it, for the user of the consumed entry and of that run's pending link |
| LinkProtocol.EveryRunKeeps | apps/api/src/flow_engine.rs:1275-1308 | the joint invariant of contexts in flight, stored contexts and token store is kept by every sequence of steps |
| LinkRequests.ActionTokens | apps/api/src/flow_engine.rs:854-918 | what any action's contract does to its run's link and to the token store: a link sent, the pending link verified, another token consumed, or nothing |
| LinkRequests.RequestTakesSteps | apps/api/src/flow_engine.rs:452-508 | a whole request is a sequence of the protocol's steps of one request: its copy loaded, worked on, sent and accepted with, expired runs swept, the copy stored; tokens and stored contexts come out as the engine leaves them |
| LinkRequests.StartTakesSteps | apps/api/src/flow_engine.rs:404-450 | so is a start, with a new copy |
| LinkProtocol.SentLinkIsAccepted | libs/rescope-core/src/store/token_store.rs:41-72 | a sent link is accepted from whatever copy of its run presents it first, while fewer than 10,000 tokens were issued since |
| TokenStore.TokenStore.Insert | libs/rescope-core/src/store/token_store.rs:41-61 | the oldest token goes when the store is full, the new one is live and last in the queue |
| TokenStore.TokenStore.Consume | libs/rescope-core/src/store/token_store.rs:64-72 | the entry is returned and gone from map and queue, or nothing changes |
| TokenStore.RunGood | libs/rescope-core/src/store/token_store.rs:41-72 | with fresh tokens the queue lists the live tokens once each, in insertion order, never more than 10,000 |
| TokenStore.ConsumedOnlyOnce | libs/rescope-core/src/store/token_store.rs:64-72 | a consumed token is refused at every later point of every run |
| TokenStore.UnconsumedStaysLive | libs/rescope-core/src/store/token_store.rs:41-72 | an unconsumed token stays live, with its entry, while fewer than 10,000 inserts follow |
| TokenStore.LiveIffFewerThanTheCap | libs/rescope-core/src/store/token_store.rs:41-61 | when only inserts follow, that bound is exact |
| TokenStore.InsertListsIff | libs/rescope-core/src/store/token_store.rs:41-61 | a queue that lists the live tokens and no others, once each and within the cap, still does after an insert if and only if the token is not live once the eviction has made room |
| TokenStore.GoodLists | libs/rescope-core/src/store/token_store.rs:41-72 | every store that fresh tokens lead to has such a queue |
| OtpStore.OtpStore.Store | libs/rescope-core/src/store/otp_store.rs:26-28 | a user has one pending code, the last one stored |
| OtpStore.OtpStore.Consume | libs/rescope-core/src/store/otp_store.rs:38-46 | accepted exactly when it is the pending code, which is then gone; otherwise it stays |
| UserStore.UserStore.Insert | libs/rescope-core/src/store/user_store.rs:29-51 | refused exactly when a login id is taken, and then nothing changes; otherwise all four maps list the user |
| UserStore.UserStore.ResolveUserId | libs/rescope-core/src/store/user_store.rs:68-106 | the fallback chain, spelled out in order: login id, lowercased email key, verified phone key, phone scan, and last a filed login id that lowercases to the text lowercased, an `@` and anything; nobody exactly when there is none of these; any choice where the code iterates a hash map |
| UserStore.EmptyNamesNobody | libs/rescope-core/src/store/user_store.rs:68-106 | the empty text loads nobody, while no key or phone is empty and no login id begins with `@` |
| UserStore.UserStore.Update | libs/rescope-core/src/store/user_store.rs:145-176 | exactly the resolved user is replaced, its new keys filed, and returned as stored; a refusal changes nothing |
| UserStore.UserStore.Patch | libs/rescope-core/src/store/user_store.rs:179-219 | only given fields of the resolved user change, and no index; it is returned as stored |
| UserStore.UserStore.RemoveByUid | libs/rescope-core/src/store/user_store.rs:266-278 | the user and every key it lists go, nothing else |
| UserStore.WhoIsRemoved | libs/rescope-core/src/store/user_store.rs:242-278 | key by key: of every map exactly those entries go that belong to, or are listed by, a user removed |
| UserStore.UserStore.DeleteAllTestUsers | libs/rescope-core/src/store/user_store.rs:254-264 | in whatever order, the outcome is the removal of all test users at once |
| UserStore.TestUsersGo | libs/rescope-core/src/store/user_store.rs:254-264 | exactly the users stay that are no test users |
| UserStore.UserStore.UpdateLoginId | libs/rescope-core/src/store/user_store.rs:531-554 | renames unless the new id is somebody else's, without duplicates in the user's list; the error cases are told apart |
| UserStore.UserStore.BatchInsert | libs/rescope-core/src/store/user_store.rs:622-633 | stops at the first conflict and keeps what came before, and says so; without a conflict returns the users as stored |
| UserStore.UserStore.Restore | libs/rescope-core/src/store/user_store.rs:522-528 | replaces everything by the listed users, skipping conflicts |
| UserIndex.RunExact | libs/rescope-core/src/store/user_store.rs:29-51 | with fresh user ids, through every history of inserts, batches, renames, deletes, updates and restores, the login-id index maps `l` to `u` exactly when `u` is stored and lists `l` |
| UserIndex.InsertExactIff | libs/rescope-core/src/store/user_store.rs:35-49 | an insert that goes through keeps the index exact if and only if its user id is new or the old user had no login ids |
| UserIndex.RenamedExact | libs/rescope-core/src/store/user_store.rs:531-554 | a rename keeps the index exact, and on an exact index its user is always stored |
| UserIndex.RemovedExact | libs/rescope-core/src/store/user_store.rs:242-278 | removing any set of users keeps the index exact |
| UserIndex.BatchExact | libs/rescope-core/src/store/user_store.rs:622-633 | a batch keeps the index exact also when it stops part way |
| UserIndex.RestoreSnapshot | libs/rescope-core/src/store/user_store.rs:517-528 | restoring a snapshot, in any order, rebuilds the same users and the same login-id index |
| UserIndex.PhoneLookupAgreesWithScan | libs/rescope-core/src/store/user_store.rs:76-96 | however stale the phone index, a phone somebody holds resolves to a holder, and one nobody holds resolves only by a login id that begins with it and an `@` |
| UserIndex.PhoneLookupAfterAnyHistory | libs/rescope-core/src/store/user_store.rs:68-96 | after every history, a phone that is neither a login id nor an email key loads a user who holds it |
| AuthData.SoftAuthenticator.AuthData | libs/rescope-core/src/store/webauthn_store.rs:472-506 | the buffer written is header, flags, counter and, when attested, id and key in the layout of section 6.1 of Web Authentication Level 2; the counter moves on |
| AuthData.PlainRoundTrip | libs/rescope-core/src/store/webauthn_store.rs:316-352 | without attested data the counter comes back |
| AuthData.RoundTripIffIdFits | libs/rescope-core/src/store/webauthn_store.rs:316-352 | counter, id and key come back exactly as written if and only if the id is under 65,536 bytes |
| AuthData.AcceptsIffLaidOut | libs/rescope-core/src/store/webauthn_store.rs:316-352 | on arbitrary bytes, accepted with a counter, id and key exactly when the bytes are laid out that way (sections 6.1 and 6.5.1 of Web Authentication Level 2) |
| AuthData.AcceptsIffSays | libs/rescope-core/src/store/webauthn_store.rs:316-352 | the same byte by byte: the first 32 are the hash of the relying party, bit 0 of the next is set, four more are the counter; with bit 6 the id follows its length at 53, and then the first key under each COSE label |
| AuthData.CoseKeyNamesP256 | libs/rescope-core/src/store/webauthn_store.rs:490-503 | the key it writes names a P-256 key: the five labels of section 7.1 of RFC 9053, each once, with their values |
| WebAuthnStore.WebAuthnStore.Begin | libs/rescope-core/src/store/webauthn_store.rs:106-173 | expired ceremonies go, the new one is open as asked, and the options are those of its kind: challenge, relying party, user, key kinds, selection criteria, and the user's passkeys to allow or to exclude |
| WebAuthnStore.WebAuthnStore.TakeTransaction | libs/rescope-core/src/store/webauthn_store.rs:176-190 | taken exactly when open as that kind; otherwise the store is as it was |
| WebAuthnStore.WebAuthnStore.FinishRegistration | libs/rescope-core/src/store/webauthn_store.rs:193-225 | an accepted response files one credential under the user, replacing one of the same id; a refused one changes nothing; accepted exactly if something was offered |
| WebAuthnStore.WebAuthnStore.FinishAssertion | libs/rescope-core/src/store/webauthn_store.rs:228-254 | an accepted assertion returns the user its ceremony was opened for; a refused one changes nothing; accepted exactly if one of the user's keys signed |
| WebAuthnStore.AcceptedIffSigned | libs/rescope-core/src/store/webauthn_store.rs:228-254 | accepted for a credential and counter if and only if the response holds client data of type `webauthn.get` with the ceremony's challenge, an id that is that credential's and no earlier one's, authenticator data for its relying party with the user present and that counter, and a signature by that credential's key over that data and the hash of the client data |
| WebAuthnStore.RegisteredIffOffered | libs/rescope-core/src/store/webauthn_store.rs:193-225 | accepted with an id, key and counter if and only if the response holds client data of type `webauthn.create` with the ceremony's challenge, and an attestation whose authenticator data is for its relying party, with the user present, and attests them |
| WebAuthnStore.CountedWhoSigned | libs/rescope-core/src/store/webauthn_store.rs:228-254 | then that credential's counter is what was signed, and nothing else changes |
| WebAuthnStore.FiledWhatWasOffered | libs/rescope-core/src/store/webauthn_store.rs:193-225 | then the user's credentials are the one offered and all those of other ids, and nobody else's change |
| WebAuthnStore.OptionsList | libs/rescope-core/src/store/webauthn_store.rs:106-173 | by path, what the options of each kind say of challenge, relying party and the user's passkeys |
| WebAuthnStore.KindsOfKey | libs/rescope-core/src/store/webauthn_store.rs:136-157 | by path: a new passkey may be of the two kinds of key the emulator verifies, the elliptic one preferred |
| WebAuthnStore.RunGood | libs/rescope-core/src/store/webauthn_store.rs:106-254 | in every run, credentials under a user carry that user's id with distinct ids, and only opened ceremonies are open |
| WebAuthnStore.TakenOnceAsItsOwnKind | libs/rescope-core/src/store/webauthn_store.rs:176-190 | with fresh ids a ceremony is taken only as its own kind and never again |
| WebAuthnStore.OtherKindLeavesOpen | libs/rescope-core/src/store/webauthn_store.rs:176-190 | asking for another kind leaves the ceremony open |
| WebAuthnStore.OnlyOwnResponsesTouchPasskeys | libs/rescope-core/src/store/webauthn_store.rs:193-254 | a user's passkeys change only by an accepted response for that user, and a sign-in changes only a counter |
| WebAuthnStore.CreatedIsAccepted | libs/rescope-core/src/store/webauthn_store.rs:509-537 | what the soft authenticator creates for the options is accepted, with its own id, key and counter |
| WebAuthnStore.SignedIsAccepted | libs/rescope-core/src/store/webauthn_store.rs:539-565 | what it signs for the options is accepted for a user who holds its credential among any others |
| WebAuthnStore.RegisteredPasskeySignsIn | libs/rescope-core/src/store/webauthn_store.rs:587-611 | a registered passkey signs its user in later, whatever happened to other users |
| SsoJit.NormalizesIffAddress | apps/api/src/sso_jit.rs:48-55 | a value normalizes exactly when, trimmed and lowercased, it is a local part, one `@` and a dotted domain |
| SsoJit.ProvisionSsoUser | apps/api/src/sso_jit.rs:90-171 | one call alone: refused by address, domain or policy without a change, or the user the address loads, or one new user stored and returned |
| SsoJit.WhoIsMade | apps/api/src/sso_jit.rs:127-160 | the new user, field by field: the address as verified login id and email, the asserted names that are not blank or a derived one, enabled, marked as SSO, without a password |
| SsoJit.WhoseRoles | apps/api/src/sso_jit.rs:127-160 | asserted roles win over the tenant's defaults, and those over the project's; the tenant is the user's one tenant with the same roles |
| SsoJit.WhoseAttributes | apps/api/src/sso_jit.rs:127-160 | an asserted attribute overrides the tenant's default of that name, every other default stays |
| SsoJit.OneUserForEverybody | apps/api/src/sso_jit.rs:127-170 | however calls for one address interleave at read, insert and reload, with fresh ids and no deletes or renames, one user is inserted and every call that returns succeeds with that user |
| Lockout.LockoutMap.CheckNotLockedOut | apps/api/src/auth_policy.rs:37-51 | refused exactly when the login id's own history says so |
| Lockout.LockoutMap.RecordFailure | apps/api/src/auth_policy.rs:53-64 | what is stored stays what the history says, for every login id |
| Lockout.LockoutMap.ClearFailures | apps/api/src/auth_policy.rs:66-68 | the same for a clear |
| Lockout.StoredIsHistory | apps/api/src/auth_policy.rs:53-68 | with a clock that does not go back, the stored pair is the number of failures since the one that opened the window and its time, all within 300 seconds of it, no clear since |
| Lockout.WindowUnique | apps/api/src/auth_policy.rs:53-64 | a history has at most one open window |
| Lockout.RefusedIffFullWindow | apps/api/src/auth_policy.rs:37-51 | a sign-in is refused exactly when the open window holds five failures and is not over |
| Lockout.RefusalMeansFiveRecentFailures | apps/api/src/auth_policy.rs:37-51 | a refusal means the last five events were failures in the last 300 seconds |
| Lockout.FiveRecentFailuresMayNotLock | apps/api/src/auth_policy.rs:53-64 | the converse fails: a history with five recent failures that is not locked |
| Lockout.FailuresDoNotExtendLock | apps/api/src/auth_policy.rs:53-64 | failures during a lock count but never move its end |
| Lockout.LockEndsOnTime | apps/api/src/auth_policy.rs:37-51 | a lock is over exactly 300 seconds after its window opened |
| Cidr.MaskTestIsArithmetic | libs/rescope-core/src/store/access_key_store.rs:196-234 | for widths 32 and 128 and every prefix length, the masked test holds exactly when family and quotient by the block size agree (section 3.1 of RFC 4632) |
| Cidr.BlocksNestedOrDisjoint | libs/rescope-core/src/store/access_key_store.rs:196-234 | two blocks that share an address are nested |
| Cidr.ExtremePrefixes | libs/rescope-core/src/store/access_key_store.rs:196-234 | a zero prefix holds the whole family, a full one only its own address |
| BodyCapture.BufferPrefix | apps/api/src/request_log.rs:219-265 | for every stream, one that fails part way too: the rebuilt body yields the same bytes and the same error, the prefix is the first bytes up to the cap, truncation is told exactly, at most the cap and one chunk are held |
| BodyCapture.FirstBytes | apps/api/src/request_log.rs:237-244 | the bytes copied are the first of the whole, up to the cap |
| LogFormat.FormatBody | apps/api/src/request_log.rs:141-170 | whole characters, at most the cap and at most three bytes short of it, one line; the marker exactly when something was cut here or before |
| LogFormat.CollapseLine | apps/api/src/request_log.rs:143-157 | the loop yields the words of the text joined by single spaces |
| LogFormat.LineIsOneLine | apps/api/src/request_log.rs:143-157 | no line break, no doubled space, no space at either end |
| LogFormat.CollapseTwice | apps/api/src/request_log.rs:143-157 | collapsing again changes nothing |

## Left out

- FlowRequests.Next: requests to one run are served one at a time; the program loads and saves a run under separate locks, so two overlapping requests to the same run may overwrite each other. `LinkProtocol` is the part proved under overlap.
- FlowSystem.WhoGetsSignedIn: an execution id is assumed never to be drawn twice.
- FlowPerform.Perform: carries up what an action does to the run and to users, codes, tokens and passkeys; the lockout's notes, the record of sent links and which risk score was read are in the contract of the action's own method only.
- FlowSso.SsoStart: what the provider's library answers is one function value of the hint and the address that leads back.
- FlowCodes.SendLink: percent-encoding inside the link text is a function value.
- FlowSso.LogIn: the tokens inside the session are one function value of user, method and first-seen mark.
- WebAuthnStore.CreatedIsAccepted: the id and type fields the authenticator adds, which nothing reads, are not modelled.
- LogFormat.FormatBody: takes the text after lossy UTF-8 decoding as given.
- Cidr.MaskTestIsArithmetic: parsing of addresses, prefix lengths and the slash is left to the caller.
- bcrypt, signatures, SHA-256, CBOR, base64, JSON text, Unicode case and trimming, template rendering, masking of addresses and the signed session are function values with the laws stated beside them.
- Exactness of the email index: the program itself does not keep it.
- Tenant, role and attribute setters, search and listing of users: easy members of the same shape.
- `set_path` through a mutable reference: the cursor is a value and the trail of objects it went through; aliasing is not modelled.
- Counters and times are unbounded naturals; scores and JSON numbers are abstract reals. The authenticator's 32-bit counter and the 16-bit id length wrap explicitly.
- Constant fields of envelopes that no decision reads, response headers and cookies.
- HTTP routing, the widget, loading of flow files, tracing, the older built-in password flow, access key records, permissions, roles, connectors, templates and snapshots.
