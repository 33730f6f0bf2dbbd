/** What every history of the user store keeps: an exact login-id index, and phone lookups that agree with a scan. */
module UserIndex {
  import opened Wrappers
  import opened UserStore

  ghost predicate Keyed(s: Users) {
    forall k | k in s.byUserId :: s.byUserId[k].userId == k
  }

  ghost predicate Owns(s: Users, uid: string, loginId: string) {
    uid in s.byUserId && loginId in s.byUserId[uid].loginIds
  }

  /** `byLoginId[l] = u` holds exactly when `u` is stored and `l` is one of its login ids. */
  ghost predicate Exact(s: Users) {
    forall l, u :: (l in s.byLoginId && s.byLoginId[l] == u) <==> Owns(s, u, l)
  }

  // ------------------------------------------------------------- one step

  lemma InsertedOwns(s: Users, user: User, u: string, l: string)
    requires !Conflict(s, user)
    ensures Owns(Inserted(s, user), u, l) <==> if u == user.userId then l in user.loginIds else Owns(s, u, l)
  {
  }

  /** An insert that goes through keeps the index exact if and only if its user id is new, or was a user without login
      ids. */
  lemma InsertExactIff(s: Users, user: User)
    requires Exact(s) && !Conflict(s, user)
    ensures Exact(Inserted(s, user))
       <==> user.userId !in s.byUserId || s.byUserId[user.userId].loginIds == []
  {
    var t := Inserted(s, user);
    if user.userId in s.byUserId && s.byUserId[user.userId].loginIds != [] {
      var l := s.byUserId[user.userId].loginIds[0];
      assert Owns(s, user.userId, l);
      assert l in s.byLoginId && l !in user.loginIds;
      assert t.byLoginId[l] == user.userId && !Owns(t, user.userId, l);
    } else {
      forall l, u ensures (l in t.byLoginId && t.byLoginId[l] == u) <==> Owns(t, u, l) {
        InsertedOwns(s, user, u, l);
        assert (l in s.byLoginId && s.byLoginId[l] == u) <==> Owns(s, u, l);
        if l in user.loginIds { assert l !in s.byLoginId; }
      }
    }
  }

  lemma RemovedExact(s: Users, uids: set<string>)
    requires Exact(s)
    ensures Exact(Removed(s, uids))
  {
    var t := Removed(s, uids);
    forall l, u ensures (l in t.byLoginId && t.byLoginId[l] == u) <==> Owns(t, u, l) {
      assert (l in s.byLoginId && s.byLoginId[l] == u) <==> Owns(s, u, l);
      if l in LoginIdsOf(s, uids) {
        var w :| w in uids && Owns(s, w, l);
        assert s.byLoginId[l] == w;
      } else if Owns(s, u, l) {
        assert u !in uids;
      }
    }
  }

  lemma {:induction false} WithoutIdsAre(ids: seq<string>, a: string, b: string)
    ensures forall l :: l in WithoutIds(ids, a, b) <==> l in ids && l != a && l != b
  {
    if ids != [] { WithoutIdsAre(ids[1..], a, b); }
  }

  lemma RenamedExact(s: Users, from: string, to: string)
    requires Exact(s)
    ensures Exact(Renamed(s, from, to))
    ensures RenameAllowed(s, from, to) ==> s.byLoginId[from] in s.byUserId
  {
    if RenameAllowed(s, from, to) {
      var uid := s.byLoginId[from];
      assert Owns(s, uid, from);
      var t := Renamed(s, from, to);
      WithoutIdsAre(s.byUserId[uid].loginIds, from, to);
      forall l, u ensures (l in t.byLoginId && t.byLoginId[l] == u) <==> Owns(t, u, l) {
        assert (l in s.byLoginId && s.byLoginId[l] == u) <==> Owns(s, u, l);
        RenamedOwns(s, from, to, u, l);
      }
    }
  }

  lemma RenamedOwns(s: Users, from: string, to: string, u: string, l: string)
    requires RenameAllowed(s, from, to) && s.byLoginId[from] in s.byUserId
    ensures Owns(Renamed(s, from, to), u, l)
       <==> if u == s.byLoginId[from] then l == to || (l != from && Owns(s, u, l)) else Owns(s, u, l)
  {
    var ids := s.byUserId[s.byLoginId[from]].loginIds;
    WithoutIdsAre(ids, from, to);
  }

  lemma SameLoginIdsExact(s: Users, t: Users)
    requires Exact(s) && t.byLoginId == s.byLoginId && t.byUserId.Keys == s.byUserId.Keys
    requires forall u | u in s.byUserId :: t.byUserId[u].loginIds == s.byUserId[u].loginIds
    ensures Exact(t)
  {
    forall l, u ensures Owns(t, u, l) <==> Owns(s, u, l) {
    }
  }

  // ------------------------------------------------------------ every run

  datatype Op =
    | Insert(user: User)
    | Batch(users: seq<User>)
    | Restore(users: seq<User>)
    | Rename(from: string, to: string)
    | Delete(uids: set<string>)
    | Update(uid: string, update: UserUpdate)
    | Patch(uid: string, patch: UserPatch)
    | Change(uid: string, user: User)

  function Step(s: Users, op: Op): Users {
    match op
    case Insert(user) => Inserted(s, user)
    case Batch(users) => BatchInserted(s, users)
    case Restore(users) => RestoredOver(NO_USERS, users)
    case Rename(from, to) => Renamed(s, from, to)
    case Delete(uids) => Removed(s, uids)
    case Update(uid, update) => if uid in s.byUserId then Updated(s, uid, update) else s
    case Patch(uid, patch) => if uid in s.byUserId then WithUser(s, uid, Merged(s.byUserId[uid], patch)) else s
    case Change(uid, user) => if uid in s.byUserId then WithUser(s, uid, user) else s
  }

  function Run(s: Users, ops: seq<Op>): Users
    decreases |ops|
  {
    if ops == [] then s else Run(Step(s, ops[0]), ops[1..])
  }

  ghost predicate DistinctUserIds(users: seq<User>) {
    forall i, j | 0 <= i < j < |users| :: users[i].userId != users[j].userId
  }

  /** New users come with ids not in use; other changes keep the user's id and login ids. */
  ghost predicate FreshOp(s: Users, op: Op) {
    match op
    case Insert(user) => user.userId !in s.byUserId
    case Batch(users) => DistinctUserIds(users) && forall i | 0 <= i < |users| :: users[i].userId !in s.byUserId
    case Restore(users) => DistinctUserIds(users)
    case Change(uid, user) =>
      uid in s.byUserId ==> user.userId == s.byUserId[uid].userId && user.loginIds == s.byUserId[uid].loginIds
    case _ => true
  }

  ghost predicate Fresh(s: Users, ops: seq<Op>)
    decreases |ops|
  {
    ops == [] || (FreshOp(s, ops[0]) && Fresh(Step(s, ops[0]), ops[1..]))
  }

  lemma {:induction false} BatchExact(s: Users, users: seq<User>)
    requires Exact(s) && DistinctUserIds(users) && forall i | 0 <= i < |users| :: users[i].userId !in s.byUserId
    ensures Exact(BatchInserted(s, users))
    decreases |users|
  {
    if users != [] && !Conflict(s, users[0]) {
      InsertExactIff(s, users[0]);
      BatchExact(Inserted(s, users[0]), users[1..]);
    }
  }

  lemma {:induction false} RestoreExact(s: Users, users: seq<User>)
    requires Exact(s) && DistinctUserIds(users) && forall i | 0 <= i < |users| :: users[i].userId !in s.byUserId
    ensures Exact(RestoredOver(s, users))
    decreases |users|
  {
    if users != [] {
      if !Conflict(s, users[0]) { InsertExactIff(s, users[0]); }
      RestoreExact(Inserted(s, users[0]), users[1..]);
    }
  }

  lemma StepExact(s: Users, op: Op)
    requires Exact(s) && FreshOp(s, op)
    ensures Exact(Step(s, op))
  {
    match op {
      case Insert(user) => if !Conflict(s, user) { InsertExactIff(s, user); }
      case Batch(users) => BatchExact(s, users);
      case Restore(users) => RestoreExact(NO_USERS, users);
      case Rename(from, to) => RenamedExact(s, from, to);
      case Delete(uids) => RemovedExact(s, uids);
      case Update(uid, update) => SameLoginIdsExact(s, Step(s, op));
      case Patch(uid, patch) => SameLoginIdsExact(s, Step(s, op));
      case Change(uid, user) => SameLoginIdsExact(s, Step(s, op));
    }
  }

  /** With fresh user ids, the login-id index is exact after every history. */
  lemma {:induction false} RunExact(s: Users, ops: seq<Op>)
    requires Exact(s) && Fresh(s, ops)
    ensures Exact(Run(s, ops))
    decreases |ops|
  {
    if ops != [] {
      StepExact(s, ops[0]);
      RunExact(Step(s, ops[0]), ops[1..]);
    }
  }

  // --------------------------------------------------------- restore(snapshot)

  /** `users` is what a snapshot of `s` holds, in any order. */
  ghost predicate Snapshot(s: Users, users: seq<User>) {
    && DistinctUserIds(users)
    && (forall i | 0 <= i < |users| :: users[i].userId in s.byUserId && s.byUserId[users[i].userId] == users[i])
    && (forall u | u in s.byUserId :: s.byUserId[u] in users)
  }

  /** Part of `s`. */
  ghost predicate Within(t: Users, s: Users) {
    forall u | u in t.byUserId :: u in s.byUserId && s.byUserId[u] == t.byUserId[u]
  }

  lemma NoConflictWithin(s: Users, t: Users, user: User)
    requires Exact(s) && Exact(t) && Within(t, s)
    requires user.userId in s.byUserId && s.byUserId[user.userId] == user && user.userId !in t.byUserId
    ensures !Conflict(t, user)
  {
    forall l | l in user.loginIds ensures l !in t.byLoginId {
      if l in t.byLoginId {
        var w := t.byLoginId[l];
        assert Owns(t, w, l) && Owns(s, w, l) && Owns(s, user.userId, l);
      }
    }
  }

  function Ids(users: seq<User>): set<string> {
    if users == [] then {} else {users[0].userId} + Ids(users[1..])
  }

  lemma {:induction false} IdIn(users: seq<User>, i: nat)
    requires i < |users|
    ensures users[i].userId in Ids(users)
  {
    if i > 0 { IdIn(users[1..], i - 1); }
  }

  /** Every one of `users` is a user of `s`, and none is in `t` yet. */
  ghost predicate StillToCome(s: Users, t: Users, users: seq<User>) {
    forall i | 0 <= i < |users| ::
      users[i].userId in s.byUserId && s.byUserId[users[i].userId] == users[i] && users[i].userId !in t.byUserId
  }

  lemma RestoreOne(s: Users, t: Users, users: seq<User>)
    requires Exact(s) && Exact(t) && Within(t, s) && DistinctUserIds(users) && users != [] && StillToCome(s, t, users)
    ensures var u := Inserted(t, users[0]);
            Exact(u) && Within(u, s) && StillToCome(s, u, users[1..])
            && u.byUserId.Keys == t.byUserId.Keys + {users[0].userId}
  {
    NoConflictWithin(s, t, users[0]);
    InsertExactIff(t, users[0]);
  }

  lemma {:induction false} RestoreRebuilds(s: Users, t: Users, users: seq<User>)
    requires Exact(s) && Exact(t) && Within(t, s) && DistinctUserIds(users) && StillToCome(s, t, users)
    ensures var r := RestoredOver(t, users);
            Exact(r) && Within(r, s) && r.byUserId.Keys == t.byUserId.Keys + Ids(users)
    decreases |users|
  {
    if users != [] {
      RestoreOne(s, t, users);
      RestoreRebuilds(s, Inserted(t, users[0]), users[1..]);
    }
  }

  /** Restoring a snapshot, in any order, gives back the same users and the same login-id index. */
  lemma RestoreSnapshot(s: Users, users: seq<User>)
    requires Keyed(s) && Exact(s) && Snapshot(s, users)
    ensures RestoredOver(NO_USERS, users).byUserId == s.byUserId
    ensures RestoredOver(NO_USERS, users).byLoginId == s.byLoginId
  {
    RestoreRebuilds(s, NO_USERS, users);
    var r := RestoredOver(NO_USERS, users);
    forall u | u in s.byUserId ensures u in r.byUserId {
      var i :| 0 <= i < |users| && users[i] == s.byUserId[u];
      IdIn(users, i);
    }
    assert r.byUserId.Keys == s.byUserId.Keys;
    SameUsersSameIndex(s, r);
  }

  lemma SameUsersSameIndex(s: Users, r: Users)
    requires Exact(s) && Exact(r) && r.byUserId == s.byUserId
    ensures r.byLoginId == s.byLoginId
  {
    forall l ensures l in s.byLoginId <==> l in r.byLoginId
             ensures l in s.byLoginId ==> r.byLoginId[l] == s.byLoginId[l]
    {
      if l in s.byLoginId {
        assert Owns(s, s.byLoginId[l], l) && Owns(r, s.byLoginId[l], l);
      }
      if l in r.byLoginId {
        assert Owns(r, r.byLoginId[l], l) && Owns(s, r.byLoginId[l], l);
      }
    }
  }

  // --------------------------------------------------------------- phones

  lemma {:induction false} RestoredKeyed(s: Users, users: seq<User>)
    requires Keyed(s)
    ensures Keyed(RestoredOver(s, users)) && Keyed(BatchInserted(s, users))
    decreases |users|
  {
    if users != [] { RestoredKeyed(Inserted(s, users[0]), users[1..]); }
  }

  ghost predicate KeepsIds(s: Users, ops: seq<Op>)
    decreases |ops|
  {
    ops == [] || ((ops[0].Change? ==> ops[0].user.userId == ops[0].uid) && KeepsIds(Step(s, ops[0]), ops[1..]))
  }

  lemma StepKeyed(s: Users, op: Op)
    requires Keyed(s) && (op.Change? ==> op.user.userId == op.uid)
    ensures Keyed(Step(s, op))
  {
    match op {
      case Batch(users) => RestoredKeyed(s, users);
      case Restore(users) => RestoredKeyed(NO_USERS, users);
      case _ =>
    }
  }

  lemma {:induction false} RunKeyed(s: Users, ops: seq<Op>)
    requires Keyed(s) && KeepsIds(s, ops)
    ensures Keyed(Run(s, ops))
    decreases |ops|
  {
    if ops != [] {
      StepKeyed(s, ops[0]);
      RunKeyed(Step(s, ops[0]), ops[1..]);
    }
  }

  /** However stale the phone index: a phone some user holds resolves to a user who holds it, and one nobody holds never
      resolves by phone. */
  lemma PhoneLookupAgreesWithScan(s: Users, lower: string -> string, text: string, r: Option<string>)
    requires Keyed(s) && text !in s.byLoginId && lower(text) !in s.byEmail && ResolvesTo(s, lower, text, r)
    ensures (exists u :: HeldBy(s, text, u)) ==> r.Some? && HeldBy(s, text, r.value)
    ensures (forall u :: !HeldBy(s, text, u)) && r.Some? ==>
              exists l, rest: string ::
                l in s.byLoginId && s.byLoginId[l] == r.value && lower(l) == lower(text) + "@" + rest
  {
    ResolvedInOrder(s, lower, text, r);
    forall u ensures HeldBy(s, text, u) <==> u in PhoneScan(s, text) { HeldIff(s, text, u); }
    if PhoneIndexHit(s, text) {
      assert s.byPhone[text] in PhoneScan(s, text);
    } else if PhoneScan(s, text) != {} {
      var u :| u in PhoneScan(s, text) && r == Some(s.byUserId[u].userId);
    }
  }

  /** So after every history, a phone that is neither a login id nor an email key loads a user who holds it. */
  lemma PhoneLookupAfterAnyHistory(ops: seq<Op>, lower: string -> string, text: string, r: Result<User, StoreError>)
    requires KeepsIds(NO_USERS, ops)
    requires var s := Run(NO_USERS, ops);
             text !in s.byLoginId && lower(text) !in s.byEmail && PhoneScan(s, text) != {} && LoadsAs(s, lower, text, r)
    ensures r.Ok? && r.value.phone == Some(text)
  {
    RunKeyed(NO_USERS, ops);
    var s := Run(NO_USERS, ops);
    var uid: Option<string> :| ResolvesTo(s, lower, text, uid) && r == Fetched(s, uid);
    PhoneLookupAgreesWithScan(s, lower, text, uid);
  }
}
