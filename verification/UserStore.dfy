/** Users, with login-id, email and phone indices over one primary map. */
module UserStore {
  import opened Wrappers
  import opened Json

  datatype UserTenant = UserTenant(tenantId: string, tenantName: string, roleNames: seq<string>)

  datatype User = User(
    userId: string, loginIds: seq<string>, email: Option<string>, phone: Option<string>,
    name: Option<string>, givenName: Option<string>, middleName: Option<string>, familyName: Option<string>,
    picture: Option<string>,
    verifiedEmail: bool, verifiedPhone: bool, roleNames: seq<string>, userTenants: seq<UserTenant>,
    status: string, createdTime: nat, customAttributes: map<string, Json>, saml: bool, password: bool,
    lastLogin: Option<nat>, isTestUser: bool, passwordHash: Option<string>)

  datatype UserUpdate = UserUpdate(
    email: Option<string>, phone: Option<string>, name: Option<string>, givenName: Option<string>,
    middleName: Option<string>, familyName: Option<string>, picture: Option<string>, verifiedEmail: Option<bool>,
    verifiedPhone: Option<bool>, roleNames: Option<seq<string>>,
    customAttributes: Option<map<string, Json>>, userTenants: Option<seq<UserTenant>>)

  /** A full replacement and a partial merge name the same fields. */
  type UserPatch = UserUpdate

  const NO_CHANGE: UserPatch := UserUpdate(None, None, None, None, None, None, None, None, None, None, None, None)

  datatype Users = Users(
    byUserId: map<string, User>, byLoginId: map<string, string>, byEmail: map<string, string>,
    byPhone: map<string, string>)

  const NO_USERS := Users(map[], map[], map[], map[])

  // ------------------------------------------------------------- insertion

  predicate Conflict(s: Users, user: User) {
    exists l | l in user.loginIds :: l in s.byLoginId
  }

  function IndexText(index: map<string, string>, text: Option<string>, uid: string): map<string, string> {
    if text.Some? && text.value != "" then index[text.value := uid] else index
  }

  function IndexAll(index: map<string, string>, ids: seq<string>, uid: string): map<string, string> {
    index + map l | l in ids :: uid
  }

  function Inserted(s: Users, user: User): Users {
    if Conflict(s, user) then s
    else Users(s.byUserId[user.userId := user], IndexAll(s.byLoginId, user.loginIds, user.userId),
               IndexText(s.byEmail, user.email, user.userId), IndexText(s.byPhone, user.phone, user.userId))
  }

  /** Stops at the first conflict, and keeps what was inserted before it. */
  function BatchInserted(s: Users, users: seq<User>): Users
    decreases |users|
  {
    if users == [] || Conflict(s, users[0]) then s else BatchInserted(Inserted(s, users[0]), users[1..])
  }

  /** Every user of the batch goes in. */
  predicate NoConflict(s: Users, users: seq<User>)
    decreases |users|
  {
    users == [] || (!Conflict(s, users[0]) && NoConflict(Inserted(s, users[0]), users[1..]))
  }

  /** Skips conflicts. */
  function RestoredOver(s: Users, users: seq<User>): Users
    decreases |users|
  {
    if users == [] then s else RestoredOver(Inserted(s, users[0]), users[1..])
  }

  // --------------------------------------------------------------- removal

  function LoginIdsOf(s: Users, uids: set<string>): set<string> {
    set u, l | u in uids && u in s.byUserId && l in s.byUserId[u].loginIds :: l
  }

  function EmailsOf(s: Users, uids: set<string>): set<string> {
    set u | u in uids && u in s.byUserId && s.byUserId[u].email.Some? :: s.byUserId[u].email.value
  }

  function PhonesOf(s: Users, uids: set<string>): set<string> {
    set u | u in uids && u in s.byUserId && s.byUserId[u].phone.Some? :: s.byUserId[u].phone.value
  }

  /** Without these users, and without every index key any of them names. */
  function Removed(s: Users, uids: set<string>): Users {
    Users(s.byUserId - uids, s.byLoginId - LoginIdsOf(s, uids), s.byEmail - EmailsOf(s, uids),
          s.byPhone - PhonesOf(s, uids))
  }

  function TestUsers(s: Users): set<string> {
    set u | u in s.byUserId && s.byUserId[u].isTestUser
  }

  /** The users named are gone, and every key one of them lists; all the rest is as it was. */
  lemma WhoIsRemoved(s: Users, uids: set<string>)
    ensures var r := Removed(s, uids);
            && (forall u :: u in r.byUserId <==> u in s.byUserId && u !in uids)
            && (forall u | u in r.byUserId :: r.byUserId[u] == s.byUserId[u])
            && (forall l :: l in r.byLoginId <==>
                  l in s.byLoginId && forall u | u in uids && u in s.byUserId :: l !in s.byUserId[u].loginIds)
            && (forall e :: e in r.byEmail <==>
                  e in s.byEmail && forall u | u in uids && u in s.byUserId :: s.byUserId[u].email != Some(e))
            && (forall p :: p in r.byPhone <==>
                  p in s.byPhone && forall u | u in uids && u in s.byUserId :: s.byUserId[u].phone != Some(p))
  {
  }

  /** Of the users stored exactly those stay that are no test users. */
  lemma TestUsersGo(s: Users, u: string)
    ensures u in Removed(s, TestUsers(s)).byUserId <==> u in s.byUserId && !s.byUserId[u].isTestUser
  {
  }

  // --------------------------------------------------------------- changes

  function WithoutIds(ids: seq<string>, a: string, b: string): seq<string> {
    if ids == [] then []
    else (if ids[0] != a && ids[0] != b then [ids[0]] else []) + WithoutIds(ids[1..], a, b)
  }

  predicate RenameAllowed(s: Users, from: string, to: string) {
    from in s.byLoginId && (to in s.byLoginId ==> s.byLoginId[to] == s.byLoginId[from])
  }

  /** The index is rekeyed before the user is looked up, as the code does. */
  function Renamed(s: Users, from: string, to: string): Users {
    if !RenameAllowed(s, from, to) then s
    else
      var uid := s.byLoginId[from];
      var rekeyed := s.(byLoginId := (s.byLoginId - {from})[to := uid]);
      if uid !in s.byUserId then rekeyed
      else
        var u := s.byUserId[uid];
        rekeyed.(byUserId := s.byUserId[uid := u.(loginIds := WithoutIds(u.loginIds, from, to) + [to])])
  }

  function Or<T>(o: Option<T>, default: T): T {
    if o.Some? then o.value else default
  }

  function OrElse<T>(o: Option<T>, other: Option<T>): Option<T> {
    if o.Some? then o else other
  }

  function Replaced(u: User, update: UserUpdate): User {
    u.(email := update.email, phone := update.phone, name := update.name, givenName := update.givenName,
       middleName := update.middleName, familyName := update.familyName, picture := OrElse(update.picture, Some("")),
       verifiedEmail := Or(update.verifiedEmail, false),
       verifiedPhone := Or(update.verifiedPhone, false), roleNames := Or(update.roleNames, []),
       customAttributes := Or(update.customAttributes, u.customAttributes),
       userTenants := Or(update.userTenants, u.userTenants))
  }

  function Merged(u: User, patch: UserPatch): User {
    u.(email := OrElse(patch.email, u.email), phone := OrElse(patch.phone, u.phone), name := OrElse(patch.name, u.name),
       givenName := OrElse(patch.givenName, u.givenName), middleName := OrElse(patch.middleName, u.middleName),
       picture := OrElse(patch.picture, u.picture), familyName := OrElse(patch.familyName, u.familyName),
       verifiedEmail := Or(patch.verifiedEmail, u.verifiedEmail),
       verifiedPhone := Or(patch.verifiedPhone, u.verifiedPhone),
       roleNames := Or(patch.roleNames, u.roleNames),
       customAttributes := Or(patch.customAttributes, u.customAttributes),
       userTenants := Or(patch.userTenants, u.userTenants))
  }

  function Updated(s: Users, uid: string, update: UserUpdate): Users
    requires uid in s.byUserId
  {
    var u := s.byUserId[uid];
    Users(s.byUserId[uid := Replaced(u, update)], s.byLoginId,
          IndexText(s.byEmail, update.email, u.userId), IndexText(s.byPhone, update.phone, u.userId))
  }

  function WithUser(s: Users, uid: string, u: User): Users {
    s.(byUserId := s.byUserId[uid := u])
  }

  // ------------------------------------------------------------ resolution

  predicate PhoneIndexHit(s: Users, text: string) {
    text in s.byPhone && s.byPhone[text] in s.byUserId && s.byUserId[s.byPhone[text]].phone == Some(text)
  }

  /** The users a full scan finds under a phone. */
  function PhoneScan(s: Users, text: string): set<string> {
    set u | u in s.byUserId && s.byUserId[u].phone == Some(text)
  }

  function PrefixMatches(s: Users, lower: string -> string, text: string): set<string> {
    set l | l in s.byLoginId && lower(text) + "@" <= lower(l)
  }

  /** What `text` may resolve to: the fallback chain, with any choice where the code iterates a hash map. */
  ghost predicate ResolvesTo(s: Users, lower: string -> string, text: string, r: Option<string>) {
    if text in s.byLoginId then r == Some(s.byLoginId[text])
    else if lower(text) in s.byEmail then r == Some(s.byEmail[lower(text)])
    else if PhoneIndexHit(s, text) then r == Some(s.byPhone[text])
    else if PhoneScan(s, text) != {} then exists u | u in PhoneScan(s, text) :: r == Some(s.byUserId[u].userId)
    else if PrefixMatches(s, lower, text) != {} then exists l | l in PrefixMatches(s, lower, text) ::
                                                       r == Some(s.byLoginId[l])
    else r == None
  }

  /** What loading `text` may give. */
  ghost predicate LoadsAs(s: Users, lower: string -> string, text: string, r: Result<User, StoreError>) {
    exists uid: Option<string> :: ResolvesTo(s, lower, text, uid) && r == Fetched(s, uid)
  }

  function Fetched(s: Users, uid: Option<string>): Result<User, StoreError> {
    if uid.Some? && uid.value in s.byUserId then Ok(s.byUserId[uid.value]) else Err(UserNotFound)
  }

  // ------------------------------------------------- the chain, spelled out

  /** A login id that is the text, an `@` and something more, but for case. */
  ghost predicate BareNameOf(s: Users, lower: string -> string, text: string, l: string) {
    l in s.byLoginId && exists rest: string :: lower(l) == lower(text) + "@" + rest
  }

  /** Somebody's phone. */
  ghost predicate HeldBy(s: Users, text: string, u: string) {
    u in s.byUserId && s.byUserId[u].phone == Some(text)
  }

  /** The five stages in order: a login id, an email address in lower case, a phone the index still has right, a phone
      anybody holds, a bare user name. */
  ghost predicate InOrder(s: Users, lower: string -> string, text: string, r: Option<string>) {
    && (text in s.byLoginId ==> r == Some(s.byLoginId[text]))
    && (text !in s.byLoginId && lower(text) in s.byEmail ==> r == Some(s.byEmail[lower(text)]))
    && (text !in s.byLoginId && lower(text) !in s.byEmail ==>
          && (text in s.byPhone && HeldBy(s, text, s.byPhone[text]) ==> r == Some(s.byPhone[text]))
          && (!(text in s.byPhone && HeldBy(s, text, s.byPhone[text])) && (exists u :: HeldBy(s, text, u)) ==>
                exists u :: HeldBy(s, text, u) && r == Some(s.byUserId[u].userId))
          && ((forall u :: !HeldBy(s, text, u)) ==>
                && (r.Some? ==> exists l :: BareNameOf(s, lower, text, l) && r == Some(s.byLoginId[l]))
                && (r.None? ==> forall l :: !BareNameOf(s, lower, text, l))))
  }

  lemma BareNameIff(s: Users, lower: string -> string, text: string, l: string)
    ensures BareNameOf(s, lower, text, l) <==> l in PrefixMatches(s, lower, text)
  {
    var prefix := lower(text) + "@";
    if l in PrefixMatches(s, lower, text) {
      assert lower(l) == lower(text) + "@" + lower(l)[|prefix|..];
    }
  }

  lemma HeldIff(s: Users, text: string, u: string)
    ensures HeldBy(s, text, u) <==> u in PhoneScan(s, text)
  {
  }

  /** Every result of the chain is the first stage's that has one. */
  lemma ResolvedInOrder(s: Users, lower: string -> string, text: string, r: Option<string>)
    requires ResolvesTo(s, lower, text, r)
    ensures InOrder(s, lower, text, r)
  {
    hide BareNameOf, HeldBy, PhoneScan, PrefixMatches;
    forall l ensures BareNameOf(s, lower, text, l) <==> l in PrefixMatches(s, lower, text) {
      BareNameIff(s, lower, text, l);
    }
    forall u ensures HeldBy(s, text, u) <==> u in PhoneScan(s, text) { HeldIff(s, text, u); }
    IndexHitIff(s, text);
    if PhoneScan(s, text) != {} {
      ScanKeys(s, text);
    }
  }

  lemma IndexHitIff(s: Users, text: string)
    ensures PhoneIndexHit(s, text) <==> text in s.byPhone && HeldBy(s, text, s.byPhone[text])
  {
  }

  lemma ScanKeys(s: Users, text: string)
    ensures forall u | u in PhoneScan(s, text) :: u in s.byUserId
  {
  }

  /** The empty text names nobody, unless something empty or beginning with `@` was filed. */
  lemma EmptyNamesNobody(s: Users, lower: string -> string, r: Result<User, StoreError>)
    requires LoadsAs(s, lower, "", r) && lower("") == ""
    requires "" !in s.byLoginId && "" !in s.byEmail && forall u | u in s.byUserId :: s.byUserId[u].phone != Some("")
    requires forall l | l in s.byLoginId :: lower(l) == "" || lower(l)[0] != '@'
    ensures r == Err(UserNotFound)
  {
    var uid: Option<string> :| ResolvesTo(s, lower, "", uid) && r == Fetched(s, uid);
    ResolvedInOrder(s, lower, "", uid);
  }

  // ----------------------------------------------------- keys and fields

  /** An insert that goes through files the user under every login id it lists, its email and its phone, unless empty,
      and leaves every other key. */
  lemma InsertedKeys(s: Users, u: User, key: string)
    requires forall l | l in u.loginIds :: l !in s.byLoginId
    ensures var s' := Inserted(s, u);
            && s'.byUserId == s.byUserId[u.userId := u]
            && s'.byLoginId.Keys == s.byLoginId.Keys + (set l | l in u.loginIds)
            && (key in s'.byLoginId ==>
                  s'.byLoginId[key] == if key in u.loginIds then u.userId else s.byLoginId[key])
            && (key in s'.byEmail <==> key in s.byEmail || (key != "" && u.email == Some(key)))
            && (key in s'.byEmail ==>
                  s'.byEmail[key] == if key != "" && u.email == Some(key) then u.userId else s.byEmail[key])
            && (key in s'.byPhone <==> key in s.byPhone || (key != "" && u.phone == Some(key)))
            && (key in s'.byPhone ==>
                  s'.byPhone[key] == if key != "" && u.phone == Some(key) then u.userId else s.byPhone[key])
  {
    assert !Conflict(s, u);
  }

  /** A taken login id stops an insert. */
  lemma TakenIdStops(s: Users, u: User, l: string)
    requires l in u.loginIds && l in s.byLoginId
    ensures Inserted(s, u) == s
  {
    assert Conflict(s, u);
  }

  /** A patch sets the fields it gives and no other. */
  lemma PatchedFields(u: User, p: UserPatch)
    ensures var r := Merged(u, p);
            && (if p.email.Some? then r.email == p.email else r.email == u.email)
            && (if p.phone.Some? then r.phone == p.phone else r.phone == u.phone)
            && (if p.name.Some? then r.name == p.name else r.name == u.name)
            && (if p.givenName.Some? then r.givenName == p.givenName else r.givenName == u.givenName)
            && (if p.middleName.Some? then r.middleName == p.middleName else r.middleName == u.middleName)
            && (if p.familyName.Some? then r.familyName == p.familyName else r.familyName == u.familyName)
            && (if p.picture.Some? then r.picture == p.picture else r.picture == u.picture)
            && (if p.verifiedEmail.Some? then r.verifiedEmail == p.verifiedEmail.value
                else r.verifiedEmail == u.verifiedEmail)
            && (if p.verifiedPhone.Some? then r.verifiedPhone == p.verifiedPhone.value
                else r.verifiedPhone == u.verifiedPhone)
            && (if p.roleNames.Some? then r.roleNames == p.roleNames.value else r.roleNames == u.roleNames)
            && (if p.customAttributes.Some? then r.customAttributes == p.customAttributes.value
                else r.customAttributes == u.customAttributes)
            && (if p.userTenants.Some? then r.userTenants == p.userTenants.value else r.userTenants == u.userTenants)
    ensures Merged(u, p).(email := u.email, phone := u.phone, name := u.name, givenName := u.givenName,
                          middleName := u.middleName, familyName := u.familyName, picture := u.picture,
                          verifiedEmail := u.verifiedEmail, verifiedPhone := u.verifiedPhone, roleNames := u.roleNames,
                          customAttributes := u.customAttributes, userTenants := u.userTenants) == u
  {
  }

  /** An update sets what it gives and clears what it does not, but for attributes and tenants. */
  lemma UpdatedFields(u: User, p: UserUpdate)
    ensures var r := Replaced(u, p);
            && r.email == p.email && r.phone == p.phone && r.name == p.name && r.givenName == p.givenName
            && r.middleName == p.middleName && r.familyName == p.familyName
            && (if p.picture.Some? then r.picture == p.picture else r.picture == Some(""))
            && (r.verifiedEmail <==> p.verifiedEmail == Some(true))
            && (r.verifiedPhone <==> p.verifiedPhone == Some(true))
            && (if p.roleNames.Some? then r.roleNames == p.roleNames.value else r.roleNames == [])
            && (if p.customAttributes.Some? then r.customAttributes == p.customAttributes.value
                else r.customAttributes == u.customAttributes)
            && (if p.userTenants.Some? then r.userTenants == p.userTenants.value else r.userTenants == u.userTenants)
            && r.userId == u.userId && r.loginIds == u.loginIds && r.status == u.status
            && r.passwordHash == u.passwordHash && r.lastLogin == u.lastLogin
  {
  }

  class UserStore {
    var byUserId: map<string, User>
    var byLoginId: map<string, string>
    var byEmail: map<string, string>
    var byPhone: map<string, string>
    /** Unicode lowercasing. */
    const lower: string -> string

    ghost function View(): Users reads this {
      Users(byUserId, byLoginId, byEmail, byPhone)
    }

    constructor (lower: string -> string)
      ensures View() == NO_USERS && this.lower == lower
    {
      byUserId, byLoginId, byEmail, byPhone := map[], map[], map[], map[];
      this.lower := lower;
    }

    method Insert(user: User) returns (r: Result<(), StoreError>)
      modifies this
      ensures View() == Inserted(old(View()), user)
      ensures r == if Conflict(old(View()), user) then Err(UserAlreadyExists) else Ok(())
    {
      var i := 0;
      while i < |user.loginIds|
        invariant 0 <= i <= |user.loginIds|
        invariant forall j | 0 <= j < i :: user.loginIds[j] !in byLoginId
        invariant View() == old(View())
      {
        if user.loginIds[i] in byLoginId {
          return Err(UserAlreadyExists);
        }
        i := i + 1;
      }
      assert !Conflict(View(), user);
      var uid := user.userId;
      if user.email.Some? && user.email.value != "" {
        byEmail := byEmail[user.email.value := uid];
      }
      if user.phone.Some? && user.phone.value != "" {
        byPhone := byPhone[user.phone.value := uid];
      }
      IndexLoginIds(user.loginIds, uid);
      byUserId := byUserId[uid := user];
      return Ok(());
    }

    /** The loop that files every login id under the new user. */
    method IndexLoginIds(ids: seq<string>, uid: string)
      modifies this`byLoginId
      ensures byLoginId == IndexAll(old(byLoginId), ids, uid)
    {
      var i := 0;
      IndexNone(byLoginId, uid);
      while i < |ids|
        invariant 0 <= i <= |ids|
        invariant byLoginId == IndexAll(old(byLoginId), ids[..i], uid)
      {
        IndexSnoc(old(byLoginId), ids[..i], ids[i], uid);
        assert ids[..i + 1] == ids[..i] + [ids[i]];
        byLoginId := byLoginId[ids[i] := uid];
        i := i + 1;
      }
      assert ids[..i] == ids;
    }

    method ResolveUserId(text: string) returns (r: Option<string>)
      ensures ResolvesTo(View(), lower, text, r) && InOrder(View(), lower, text, r)
    {
      r := FindUserId(text);
      ResolvedInOrder(View(), lower, text, r);
    }

    method FindUserId(text: string) returns (r: Option<string>)
      ensures ResolvesTo(View(), lower, text, r)
    {
      if text in byLoginId {
        return Some(byLoginId[text]);
      }
      var lowered := lower(text);
      if lowered in byEmail {
        return Some(byEmail[lowered]);
      }
      if text in byPhone {
        if byPhone[text] in byUserId && byUserId[byPhone[text]].phone == Some(text) {
          return Some(byPhone[text]);
        }
      }
      var todo := byUserId.Keys;
      while todo != {}
        invariant todo <= byUserId.Keys
        invariant forall u | u in byUserId.Keys - todo :: byUserId[u].phone != Some(text)
        decreases todo
      {
        var u :| u in todo;
        if byUserId[u].phone == Some(text) {
          assert u in PhoneScan(View(), text);
          return Some(byUserId[u].userId);
        }
        todo := todo - {u};
      }
      assert PhoneScan(View(), text) == {};
      var prefix := lowered + "@";
      var lids := byLoginId.Keys;
      while lids != {}
        invariant lids <= byLoginId.Keys
        invariant forall l | l in byLoginId.Keys - lids :: !(prefix <= lower(l))
        decreases lids
      {
        var l :| l in lids;
        if prefix <= lower(l) {
          assert l in PrefixMatches(View(), lower, text);
          return Some(byLoginId[l]);
        }
        lids := lids - {l};
      }
      assert PrefixMatches(View(), lower, text) == {};
      return None;
    }

    method Load(text: string) returns (r: Result<User, StoreError>, ghost uid: Option<string>)
      ensures ResolvesTo(View(), lower, text, uid) && r == Fetched(View(), uid)
      ensures LoadsAs(View(), lower, text, r)
    {
      var found := ResolveUserId(text);
      uid := found;
      if found.Some? && found.value in byUserId {
        r := Ok(byUserId[found.value]);
      } else {
        r := Err(UserNotFound);
      }
    }

    method LoadByUserId(userId: string) returns (r: Result<User, StoreError>)
      ensures r == Fetched(View(), Some(userId))
    {
      r := if userId in byUserId then Ok(byUserId[userId]) else Err(UserNotFound);
    }

    /** `uid` is the user the text resolved to. */
    method Update(text: string, update: UserUpdate) returns (r: Result<User, StoreError>, ghost uid: Option<string>)
      modifies this
      ensures ResolvesTo(old(View()), lower, text, uid)
      ensures r.Ok? <==> uid.Some? && uid.value in old(byUserId)
      ensures r.Err? ==> View() == old(View())
      ensures r.Ok? ==>
              r == Ok(Replaced(old(byUserId)[uid.value], update)) && View() == Updated(old(View()), uid.value, update)
    {
      var found := ResolveUserId(text);
      uid := found;
      if found.None? || found.value !in byUserId {
        return Err(UserNotFound), uid;
      }
      var user := Replaced(byUserId[found.value], update);
      byUserId := byUserId[found.value := user];
      if update.email.Some? && update.email.value != "" {
        byEmail := byEmail[update.email.value := user.userId];
      }
      if update.phone.Some? && update.phone.value != "" {
        byPhone := byPhone[update.phone.value := user.userId];
      }
      return Ok(user), uid;
    }

    method Patch(text: string, patch: UserPatch) returns (r: Result<User, StoreError>, ghost uid: Option<string>)
      modifies this
      ensures ResolvesTo(old(View()), lower, text, uid)
      ensures r.Ok? <==> uid.Some? && uid.value in old(byUserId)
      ensures r.Err? ==> View() == old(View())
      ensures r.Ok? ==>
              r == Ok(Merged(old(byUserId)[uid.value], patch)) && View() == WithUser(old(View()), uid.value, r.value)
    {
      var found := ResolveUserId(text);
      uid := found;
      if found.None? || found.value !in byUserId {
        return Err(UserNotFound), uid;
      }
      byUserId := byUserId[found.value := Merged(byUserId[found.value], patch)];
      return Ok(byUserId[found.value]), uid;
    }

    /** A change made through `load_by_user_id_mut`; the callers never touch the id or the login ids. */
    method Store(userId: string, user: User)
      requires userId in byUserId
      requires user.userId == byUserId[userId].userId && user.loginIds == byUserId[userId].loginIds
      modifies this`byUserId
      ensures View() == WithUser(old(View()), userId, user)
    {
      byUserId := byUserId[userId := user];
    }

    method RecordLoginByUserId(userId: string, now: nat) returns (r: Result<(), StoreError>)
      modifies this`byUserId
      ensures userId !in old(byUserId) ==> r == Err(UserNotFound) && View() == old(View())
      ensures userId in old(byUserId) ==>
                r == Ok(()) && View() == WithUser(old(View()), userId, old(byUserId)[userId].(lastLogin := Some(now)))
    {
      if userId !in byUserId {
        return Err(UserNotFound);
      }
      byUserId := byUserId[userId := byUserId[userId].(lastLogin := Some(now))];
      return Ok(());
    }

    method RemoveByUid(uid: string)
      modifies this
      ensures View() == Removed(old(View()), {uid})
    {
      if uid in byUserId {
        var user := byUserId[uid];
        byUserId := byUserId - {uid};
        var i := 0;
        while i < |user.loginIds|
          invariant 0 <= i <= |user.loginIds|
          invariant byLoginId == old(byLoginId) - set l | l in user.loginIds[..i]
          invariant byUserId == old(byUserId) - {uid} && byEmail == old(byEmail) && byPhone == old(byPhone)
        {
          assert user.loginIds[..i + 1] == user.loginIds[..i] + [user.loginIds[i]];
          byLoginId := byLoginId - {user.loginIds[i]};
          i := i + 1;
        }
        assert user.loginIds[..i] == user.loginIds;
        assert LoginIdsOf(old(View()), {uid}) == set l | l in user.loginIds;
        if user.email.Some? {
          byEmail := byEmail - {user.email.value};
        }
        if user.phone.Some? {
          byPhone := byPhone - {user.phone.value};
        }
        assert EmailsOf(old(View()), {uid}) == if user.email.Some? then {user.email.value} else {};
        assert PhonesOf(old(View()), {uid}) == if user.phone.Some? then {user.phone.value} else {};
      } else {
        assert LoginIdsOf(View(), {uid}) == {} && EmailsOf(View(), {uid}) == {} && PhonesOf(View(), {uid}) == {};
      }
    }

    method DeleteByLoginId(loginId: string)
      modifies this
      ensures View() == if loginId in old(byLoginId) then Removed(old(View()), {old(byLoginId)[loginId]})
                        else old(View())
    {
      if loginId !in byLoginId {
        return;
      }
      RemoveByUid(byLoginId[loginId]);
    }

    method DeleteAllTestUsers()
      modifies this
      ensures View() == Removed(old(View()), TestUsers(old(View())))
    {
      var todo := set u | u in byUserId && byUserId[u].isTestUser;
      ghost var done: set<string> := {};
      RemovedNone(View());
      while todo != {}
        invariant done + todo == TestUsers(old(View())) && done !! todo
        invariant View() == Removed(old(View()), done)
        decreases todo
      {
        var uid :| uid in todo;
        RemovedMore(old(View()), done, uid);
        RemoveByUid(uid);
        done := done + {uid};
        todo := todo - {uid};
      }
      assert done == TestUsers(old(View()));
    }

    method UpdateLoginId(from: string, to: string) returns (r: Result<(), StoreError>)
      modifies this
      ensures View() == Renamed(old(View()), from, to)
      ensures r.Ok? <==> RenameAllowed(old(View()), from, to) && old(byLoginId)[from] in old(byUserId)
      ensures from !in old(byLoginId) ==> r == Err(UserNotFound)
      ensures from in old(byLoginId) && !RenameAllowed(old(View()), from, to) ==> r == Err(UserAlreadyExists)
    {
      if from !in byLoginId {
        return Err(UserNotFound);
      }
      var uid := byLoginId[from];
      if to in byLoginId && byLoginId[to] != uid {
        return Err(UserAlreadyExists);
      }
      byLoginId := byLoginId - {from};
      byLoginId := byLoginId[to := uid];
      if uid !in byUserId {
        return Err(UserNotFound);
      }
      var user := byUserId[uid];
      byUserId := byUserId[uid := user.(loginIds := WithoutIds(user.loginIds, from, to) + [to])];
      return Ok(());
    }

    method InsertEach(users: seq<User>) returns (r: Result<(), StoreError>)
      modifies this
      ensures View() == BatchInserted(old(View()), users)
      ensures r == if NoConflict(old(View()), users) then Ok(()) else Err(UserAlreadyExists)
    {
      var i := 0;
      while i < |users|
        invariant 0 <= i <= |users|
        invariant BatchInserted(View(), users[i..]) == BatchInserted(old(View()), users)
        invariant NoConflict(View(), users[i..]) == NoConflict(old(View()), users)
      {
        assert users[i..][0] == users[i] && users[i..][1..] == users[i + 1..];
        var one := Insert(users[i]);
        if one.Err? {
          return one;
        }
        i := i + 1;
      }
      return Ok(());
    }

    method BatchInsert(users: seq<User>) returns (r: Result<seq<User>, StoreError>)
      modifies this
      ensures View() == BatchInserted(old(View()), users)
      ensures r.Ok? <==> NoConflict(old(View()), users)
      ensures r.Err? ==> r == Err(UserAlreadyExists)
      ensures r.Ok? ==> |r.value| == |users| && forall i | 0 <= i < |users| ::
                users[i].userId in byUserId && r.value[i] == byUserId[users[i].userId]
    {
      ghost var before := View();
      var done := InsertEach(users);
      if done.Err? {
        return Err(done.error);
      }
      BatchFiles(before, users);
      return Ok(seq(|users|, j requires 0 <= j < |users|
                    && users[j].userId in byUserId reads this => byUserId[users[j].userId]));
    }

    method Restore(users: seq<User>)
      modifies this
      ensures View() == RestoredOver(NO_USERS, users)
    {
      byUserId, byLoginId, byEmail, byPhone := map[], map[], map[], map[];
      var i := 0;
      while i < |users|
        invariant 0 <= i <= |users|
        invariant RestoredOver(View(), users[i..]) == RestoredOver(NO_USERS, users)
      {
        assert users[i..][0] == users[i] && users[i..][1..] == users[i + 1..];
        var _ := Insert(users[i]);
        i := i + 1;
      }
    }
  }

  /** An insert removes nobody. */
  lemma {:induction false} BatchKeeps(s: Users, users: seq<User>, uid: string)
    requires uid in s.byUserId
    ensures uid in BatchInserted(s, users).byUserId
    decreases |users|
  {
    if users != [] && !Conflict(s, users[0]) {
      BatchKeeps(Inserted(s, users[0]), users[1..], uid);
    }
  }

  /** A batch that goes through files every user in it. */
  lemma {:induction false} BatchFiles(s: Users, users: seq<User>)
    requires NoConflict(s, users)
    ensures forall i | 0 <= i < |users| :: users[i].userId in BatchInserted(s, users).byUserId
    decreases |users|
  {
    if users != [] {
      var t := Inserted(s, users[0]);
      BatchFiles(t, users[1..]);
      BatchKeeps(t, users[1..], users[0].userId);
      forall i | 0 <= i < |users| ensures users[i].userId in BatchInserted(s, users).byUserId {
        if i > 0 { assert users[i] == users[1..][i - 1]; }
      }
    }
  }

  lemma IndexNone(index: map<string, string>, uid: string)
    ensures IndexAll(index, [], uid) == index
  {
  }

  lemma IndexSnoc(index: map<string, string>, ids: seq<string>, id: string, uid: string)
    ensures IndexAll(index, ids + [id], uid) == IndexAll(index, ids, uid)[id := uid]
  {
  }

  lemma RemovedNone(s: Users)
    ensures Removed(s, {}) == s
  {
    assert LoginIdsOf(s, {}) == {} && EmailsOf(s, {}) == {} && PhonesOf(s, {}) == {};
  }

  /** Removing one more user is removing them all at once. */
  lemma RemovedMore(s: Users, done: set<string>, uid: string)
    requires uid in s.byUserId && uid !in done
    ensures Removed(Removed(s, done), {uid}) == Removed(s, done + {uid})
  {
    var t := Removed(s, done);
    assert LoginIdsOf(s, done + {uid}) == LoginIdsOf(s, done) + LoginIdsOf(t, {uid});
    assert EmailsOf(s, done + {uid}) == EmailsOf(s, done) + EmailsOf(t, {uid});
    assert PhonesOf(s, done + {uid}) == PhonesOf(s, done) + PhonesOf(t, {uid});
  }
}
