/** Users made on their first SSO sign-in: check, insert, reload, raced by any number of calls. */
module SsoJit {
  import opened Wrappers
  import opened Json
  import opened UserStore
  import opened UserIndex

  // ---------------------------------------------------------- addresses

  /** The text before and after the first `@`. */
  function SplitAt(s: string): (parts: Option<(string, string)>)
    ensures parts.None? <==> '@' !in s
    ensures parts.Some? ==> s == parts.value.0 + "@" + parts.value.1 && '@' !in parts.value.0
  {
    if s == "" then None
    else if s[0] == '@' then Some(("", s[1..]))
    else
      var rest := SplitAt(s[1..]);
      if rest.None? then None else Some(([s[0]] + rest.value.0, rest.value.1))
  }

  /** Trimmed and lowercased, if it is an email address. */
  function NormalizeEmail(trim: string -> string, lower: string -> string, raw: string): Option<string> {
    var email := lower(trim(raw));
    var parts := SplitAt(email);
    if parts.None? then None
    else
      var (local, domain) := parts.value;
      if local == "" || domain == "" || '@' in domain || '.' !in domain then None else Some(email)
  }

  ghost predicate IsAddress(email: string, local: string, domain: string) {
    email == local + "@" + domain && local != "" && '@' !in local && '@' !in domain && '.' in domain
  }

  lemma {:induction false} SplitAtFirst(local: string, domain: string)
    requires '@' !in local
    ensures SplitAt(local + "@" + domain) == Some((local, domain))
  {
    var s := local + "@" + domain;
    if local == "" {
      assert s[0] == '@' && s[1..] == domain;
    } else {
      assert s[0] == local[0] && local[0] in local;
      assert s[1..] == local[1..] + "@" + domain;
      SplitAtFirst(local[1..], domain);
      assert [local[0]] + local[1..] == local;
    }
  }

  /** A value normalizes exactly when, trimmed and lowercased, it is one local part, one `@`, and a dotted domain. */
  lemma NormalizesIffAddress(trim: string -> string, lower: string -> string, raw: string)
    ensures NormalizeEmail(trim, lower, raw).Some? <==>
            exists local, domain :: IsAddress(lower(trim(raw)), local, domain)
    ensures NormalizeEmail(trim, lower, raw).Some? ==> NormalizeEmail(trim, lower, raw).value == lower(trim(raw))
  {
    var email := lower(trim(raw));
    if NormalizeEmail(trim, lower, raw).Some? {
      var (local, domain) := SplitAt(email).value;
      assert IsAddress(email, local, domain);
    }
    forall local, domain | IsAddress(email, local, domain) ensures NormalizeEmail(trim, lower, raw).Some? {
      SplitAtFirst(local, domain);
    }
  }

  // -------------------------------------------------------- one call alone

  datatype Tenant = Tenant(
    id: string, name: string, domains: seq<string>, ownsEmail: bool, jitEnabled: bool,
    defaultRoles: seq<string>, defaultAttributes: map<string, Json>)

  datatype Input = Input(
    email: string, name: Option<string>, givenName: Option<string>, familyName: Option<string>,
    roleNames: seq<string>, customAttributes: map<string, Json>)

  datatype ProvisionError = NotAnAddress | ForeignDomain | StoreFailed(error: StoreError)

  function NonBlank(trim: string -> string, text: Option<string>): Option<string> {
    if text.Some? && trim(text.value) != "" then text else None
  }

  /** The user a first sign-in creates. */
  function NewUser(trim: string -> string, tenant: Tenant, input: Input, email: string, userId: string,
                   projectRoles: seq<string>, derivedName: string, now: nat): User
  {
    var roles := if input.roleNames != [] then input.roleNames
                 else if tenant.defaultRoles != [] then tenant.defaultRoles else projectRoles;
    User(userId, [email], Some(email), None, Some(Or(NonBlank(trim, input.name), derivedName)),
         NonBlank(trim, input.givenName), None, NonBlank(trim, input.familyName), None, true, false, roles,
         [UserTenant(tenant.id, tenant.name, roles)], "enabled", now,
         tenant.defaultAttributes + input.customAttributes, true, false, None, false, None)
  }

  /** Roles asserted win over the tenant's, and those over the project's, for the user and the membership alike. */
  lemma WhoseRoles(trim: string -> string, tenant: Tenant, input: Input, email: string, userId: string,
                   projectRoles: seq<string>, derivedName: string, now: nat)
    ensures var u := NewUser(trim, tenant, input, email, userId, projectRoles, derivedName, now);
            && (input.roleNames != [] ==> u.roleNames == input.roleNames)
            && (input.roleNames == [] && tenant.defaultRoles != [] ==> u.roleNames == tenant.defaultRoles)
            && (input.roleNames == [] && tenant.defaultRoles == [] ==> u.roleNames == projectRoles)
            && |u.userTenants| == 1 && u.userTenants[0].tenantId == tenant.id
            && u.userTenants[0].tenantName == tenant.name && u.userTenants[0].roleNames == u.roleNames
  {
  }

  /** An attribute asserted overrides the tenant's default of that name; every other default stays, and there are no
      more. */
  lemma WhoseAttributes(trim: string -> string, tenant: Tenant, input: Input, email: string, userId: string,
                        projectRoles: seq<string>, derivedName: string, now: nat, key: string)
    ensures var attributes :=
              NewUser(trim, tenant, input, email, userId, projectRoles, derivedName, now).customAttributes;
            && (key in input.customAttributes ==>
                  key in attributes && attributes[key] == input.customAttributes[key])
            && (key !in input.customAttributes && key in tenant.defaultAttributes ==>
                  key in attributes && attributes[key] == tenant.defaultAttributes[key])
            && (key !in input.customAttributes && key !in tenant.defaultAttributes ==> key !in attributes)
  {
  }

  /** A name that is blank counts as none; the address is the one login id, vouched for, and the user may sign in at
      once but has no password. */
  lemma WhoIsMade(trim: string -> string, tenant: Tenant, input: Input, email: string, userId: string,
                  projectRoles: seq<string>, derivedName: string, now: nat)
    ensures var u := NewUser(trim, tenant, input, email, userId, projectRoles, derivedName, now);
            && u.userId == userId && u.loginIds == [email] && u.email == Some(email) && u.phone.None?
            && u.verifiedEmail && !u.verifiedPhone && u.status == "enabled" && u.saml && !u.isTestUser
            && !u.password && u.passwordHash.None? && u.createdTime == now && u.lastLogin.None?
            && (forall n | input.name == Some(n) && trim(n) != "" :: u.name == Some(n))
            && ((forall n | input.name == Some(n) :: trim(n) == "") ==> u.name == Some(derivedName))
            && (forall n | input.givenName == Some(n) :: u.givenName == if trim(n) != "" then Some(n) else None)
            && (forall n | input.familyName == Some(n) :: u.familyName == if trim(n) != "" then Some(n) else None)
            && (input.givenName.None? ==> u.givenName.None?) && (input.familyName.None? ==> u.familyName.None?)
  {
  }

  /** One call with nobody racing it: refused, or the user the address already loads, or a new one, stored and
      returned. */
  method ProvisionSsoUser(users: UserStore, trim: string -> string, tenant: Tenant, input: Input, userId: string,
                          projectRoles: seq<string>, derivedName: string, now: nat)
    returns (r: Result<User, ProvisionError>)
    requires Exact(users.View()) && Keyed(users.View()) && userId !in users.byUserId
    modifies users
    ensures Exact(users.View()) && Keyed(users.View())
    ensures var email := NormalizeEmail(trim, users.lower, input.email);
            var before := old(users.View());
            if email.None? then r == Err(NotAnAddress) && users.View() == before
            else if tenant.domains != [] && !tenant.ownsEmail then r == Err(ForeignDomain) && users.View() == before
            else if !tenant.jitEnabled then r == Err(StoreFailed(UserNotFound)) && users.View() == before
            else r.Ok? && ((users.View() == before && LoadsAs(before, users.lower, email.value, Ok(r.value)))
                 || (LoadsAs(before, users.lower, email.value, Err(UserNotFound))
                     && r.value == NewUser(trim, tenant, input, email.value, userId, projectRoles, derivedName, now)
                     && users.View() == Inserted(before, r.value)))
  {
    var email := NormalizeEmail(trim, users.lower, input.email);
    if email.None? { return Err(NotAnAddress); }
    if tenant.domains != [] && !tenant.ownsEmail { return Err(ForeignDomain); }
    if !tenant.jitEnabled { return Err(StoreFailed(UserNotFound)); }
    var existing, _ := users.Load(email.value);
    if existing.Ok? { return Ok(existing.value); }
    var user := NewUser(trim, tenant, input, email.value, userId, projectRoles, derivedName, now);
    ghost var before := users.View();
    UnloadedIsUnfiled(before, users.lower, email.value);
    InsertExactIff(before, user);
    var inserted := users.Insert(user);
    match inserted {
      case Ok(_) =>
      case Err(UserAlreadyExists) =>
      case Err(e) => return Err(StoreFailed(e));
    }
    var reloaded, _ := users.Load(email.value);
    match reloaded {
      case Ok(u) => return Ok(u);
      case Err(e) => return Err(StoreFailed(e));
    }
  }

  lemma UnloadedIsUnfiled(s: Users, lower: string -> string, email: string)
    requires Exact(s) && LoadsAs(s, lower, email, Err(UserNotFound))
    ensures email !in s.byLoginId
  {
    var owner := if email in s.byLoginId then s.byLoginId[email] else "";
    var owned := Owns(s, owner, email);
  }

  // ------------------------------------------------------------- the race

  /** Where a call for the address stands. */
  datatype Call = Reading | Inserting(user: User) | Reloading | Returned(r: Result<User, StoreError>)

  datatype World = World(users: Users, calls: map<nat, Call>, inserted: set<string>, usedIds: set<string>)

  /** The address loads nobody. */
  ghost predicate Nobody(s: Users, lower: string -> string, email: string) {
    email !in s.byLoginId && forall r | LoadsAs(s, lower, email, r) :: r.Err?
  }

  ghost predicate Initial(w: World, lower: string -> string, email: string) {
    && Exact(w.users) && Keyed(w.users) && Nobody(w.users, lower, email)
    && (forall c | c in w.calls :: w.calls[c] == Reading)
    && w.inserted == {} && (forall u | u in w.users.byUserId :: u in w.usedIds)
  }

  /** Call `c` loads the address: an existing user wins, otherwise it makes a user under a fresh id. */
  ghost predicate Read(w: World, w': World, lower: string -> string, email: string, c: nat) {
    && c in w.calls && w.calls[c] == Reading && w'.users == w.users && w'.inserted == w.inserted
    && exists r :: LoadsAs(w.users, lower, email, r) &&
         if r.Ok? then w'.calls == w.calls[c := Returned(r)] && w'.usedIds == w.usedIds
         else exists u: User :: u.loginIds == [email] && u.userId !in w.usedIds
                && w'.calls == w.calls[c := Inserting(u)] && w'.usedIds == w.usedIds + {u.userId}
  }

  /** Call `c` inserts; that somebody was first is not an error. */
  ghost predicate InsertStep(w: World, w': World, c: nat) {
    && c in w.calls && w.calls[c].Inserting?
    && w'.users == Inserted(w.users, w.calls[c].user)
    && w'.calls == w.calls[c := Reloading] && w'.usedIds == w.usedIds
    && w'.inserted == w.inserted + if Conflict(w.users, w.calls[c].user) then {} else {w.calls[c].user.userId}
  }

  ghost predicate Reload(w: World, w': World, lower: string -> string, email: string, c: nat) {
    && c in w.calls && w.calls[c] == Reloading && w'.users == w.users && w'.inserted == w.inserted
    && w'.usedIds == w.usedIds
    && exists r :: LoadsAs(w.users, lower, email, r) && w'.calls == w.calls[c := Returned(r)]
  }

  /** Anything else the server does meanwhile: other users come and change under fresh ids, but nobody is deleted or
      renamed and the address is not given to anyone else. */
  ghost predicate Elsewhere(w: World, w': World, lower: string -> string, email: string) {
    && w'.calls == w.calls && w'.inserted == w.inserted && w.usedIds <= w'.usedIds
    && Keyed(w'.users)
    && (forall u | u in w.users.byUserId :: u in w'.users.byUserId)
    && (forall u | u in w'.users.byUserId :: u in w.users.byUserId || u !in w.usedIds)
    && (forall u | u in w'.users.byUserId :: u in w'.usedIds)
    && (email in w'.users.byLoginId <==> email in w.users.byLoginId)
    && (email in w.users.byLoginId ==> w'.users.byLoginId[email] == w.users.byLoginId[email])
    && (Nobody(w.users, lower, email) ==> Nobody(w'.users, lower, email))
  }

  ghost predicate Next(w: World, w': World, lower: string -> string, email: string) {
    || (exists c :: Read(w, w', lower, email, c))
    || (exists c :: InsertStep(w, w', c))
    || (exists c :: Reload(w, w', lower, email, c))
    || Elsewhere(w, w', lower, email)
  }

  /** Before the first insert nobody has got past it; after it, everybody who returned got that user. */
  ghost predicate Inv(w: World, lower: string -> string, email: string) {
    && Keyed(w.users) && (forall u | u in w.users.byUserId :: u in w.usedIds)
    && (forall c | c in w.calls && w.calls[c].Inserting? ::
          w.calls[c].user.loginIds == [email] && w.calls[c].user.userId in w.usedIds
          && (email in w.users.byLoginId || w.calls[c].user.userId !in w.users.byUserId))
    && if email !in w.users.byLoginId then
         && w.inserted == {} && Nobody(w.users, lower, email)
         && (forall c | c in w.calls :: w.calls[c] == Reading || w.calls[c].Inserting?)
       else
         && w.inserted == {w.users.byLoginId[email]} && w.users.byLoginId[email] in w.users.byUserId
         && (forall c | c in w.calls && w.calls[c].Returned? ::
               w.calls[c].r.Ok? && w.calls[c].r.value.userId == w.users.byLoginId[email])
  }

  lemma FiledLoads(s: Users, lower: string -> string, email: string, r: Result<User, StoreError>)
    requires Keyed(s) && email in s.byLoginId && s.byLoginId[email] in s.byUserId && LoadsAs(s, lower, email, r)
    ensures r == Ok(s.byUserId[s.byLoginId[email]]) && r.value.userId == s.byLoginId[email]
  {
  }

  lemma ReadKeeps(w: World, w': World, lower: string -> string, email: string, c: nat)
    requires Inv(w, lower, email) && Read(w, w', lower, email, c)
    ensures Inv(w', lower, email)
  {
    var r :| LoadsAs(w.users, lower, email, r) &&
             if r.Ok? then w'.calls == w.calls[c := Returned(r)] && w'.usedIds == w.usedIds
             else exists u: User :: u.loginIds == [email] && u.userId !in w.usedIds
                    && w'.calls == w.calls[c := Inserting(u)] && w'.usedIds == w.usedIds + {u.userId};
    if email in w.users.byLoginId {
      FiledLoads(w.users, lower, email, r);
    }
  }

  lemma InsertKeeps(w: World, w': World, lower: string -> string, email: string, c: nat)
    requires Inv(w, lower, email) && InsertStep(w, w', c)
    ensures Inv(w', lower, email)
  {
    var user := w.calls[c].user;
    assert user.loginIds[0] == email;
    if email in w.users.byLoginId {
      assert Conflict(w.users, user);
    } else {
      assert !Conflict(w.users, user);
    }
  }

  lemma ReloadKeeps(w: World, w': World, lower: string -> string, email: string, c: nat)
    requires Inv(w, lower, email) && Reload(w, w', lower, email, c)
    ensures Inv(w', lower, email)
  {
    var r :| LoadsAs(w.users, lower, email, r) && w'.calls == w.calls[c := Returned(r)];
    assert email in w.users.byLoginId;
    FiledLoads(w.users, lower, email, r);
  }

  lemma StepKeeps(w: World, w': World, lower: string -> string, email: string)
    requires Inv(w, lower, email) && Next(w, w', lower, email)
    ensures Inv(w', lower, email)
  {
    if c :| Read(w, w', lower, email, c) {
      ReadKeeps(w, w', lower, email, c);
    } else if c :| InsertStep(w, w', c) {
      InsertKeeps(w, w', lower, email, c);
    } else if c :| Reload(w, w', lower, email, c) {
      ReloadKeeps(w, w', lower, email, c);
    }
  }

  ghost predicate Trace(run: seq<World>, lower: string -> string, email: string) {
    && run != [] && Initial(run[0], lower, email)
    && forall i | 0 <= i < |run| - 1 :: Next(run[i], run[i + 1], lower, email)
  }

  lemma {:induction false} TraceKeeps(run: seq<World>, lower: string -> string, email: string, i: nat)
    requires Trace(run, lower, email) && i < |run|
    ensures Inv(run[i], lower, email)
  {
    if i > 0 {
      TraceKeeps(run, lower, email, i - 1);
      assert Next(run[i - 1], run[i - 1 + 1], lower, email);
      StepKeeps(run[i - 1], run[i], lower, email);
    }
  }

  /** However the calls interleave: at most one of them inserts, exactly one as soon as any call got past its insert or
      returned, and every call that returned succeeded with the one user inserted. */
  lemma OneUserForEverybody(run: seq<World>, lower: string -> string, email: string)
    requires Trace(run, lower, email)
    ensures var w := run[|run| - 1];
            |w.inserted| <= 1
            && ((exists c :: c in w.calls && (w.calls[c] == Reloading || w.calls[c].Returned?)) ==> |w.inserted| == 1)
            && forall c | c in w.calls && w.calls[c].Returned? ::
                 w.calls[c].r.Ok? && w.inserted == {w.calls[c].r.value.userId}
                   && w.calls[c].r.value.userId in w.users.byUserId
  {
    TraceKeeps(run, lower, email, |run| - 1);
  }
}
