/** Single-use tokens, capped, evicted first in first out. */
module TokenStore {
  import opened Wrappers

  const TOKEN_STORE_MAX: nat := 10_000

  datatype TokenType = Magic | Exchange | Reset

  datatype TokenEntry = TokenEntry(userId: string, tokenType: TokenType, createdAt: nat)

  datatype Tokens = Tokens(entries: map<string, TokenEntry>, order: seq<string>)

  const NO_TOKENS := Tokens(map[], [])

  /** The tokens of `order` that are in `live`, in their order. */
  function Keep(order: seq<string>, live: set<string>): seq<string> {
    if order == [] then []
    else (if order[0] in live then [order[0]] else []) + Keep(order[1..], live)
  }

  function Without(order: seq<string>, token: string): seq<string> {
    if order == [] then []
    else (if order[0] != token then [order[0]] else []) + Without(order[1..], token)
  }

  function Evicted(s: Tokens): Tokens {
    if |s.entries| >= TOKEN_STORE_MAX && s.order != []
    then Tokens(s.entries - {s.order[0]}, s.order[1..])
    else s
  }

  function Inserted(s: Tokens, token: string, entry: TokenEntry): Tokens {
    var room := Evicted(s);
    Tokens(room.entries[token := entry], room.order + [token])
  }

  function Consumed(s: Tokens, token: string): Tokens {
    if token in s.entries then Tokens(s.entries - {token}, Without(s.order, token)) else s
  }

  class TokenStore {
    var entries: map<string, TokenEntry>
    /** Insertion-order queue for eviction. */
    var order: seq<string>

    ghost function State(): Tokens reads this {
      Tokens(entries, order)
    }

    constructor ()
      ensures State() == NO_TOKENS
    {
      entries, order := map[], [];
    }

    method Insert(token: string, userId: string, tokenType: TokenType, now: nat)
      modifies this
      ensures State() == Inserted(old(State()), token, TokenEntry(userId, tokenType, now))
    {
      if |entries| >= TOKEN_STORE_MAX {
        if order != [] {
          var oldest := order[0];
          order := order[1..];
          entries := entries - {oldest};
        }
      }
      entries := entries[token := TokenEntry(userId, tokenType, now)];
      order := order + [token];
    }

    method Consume(token: string) returns (r: Result<TokenEntry, StoreError>)
      modifies this
      ensures State() == Consumed(old(State()), token)
      ensures r == if token in old(entries) then Ok(old(entries)[token]) else Err(InvalidToken)
    {
      if token in entries {
        r := Ok(entries[token]);
        entries := entries - {token};
        order := Without(order, token);
      } else {
        r := Err(InvalidToken);
      }
    }

    method Reset()
      modifies this
      ensures State() == NO_TOKENS
    {
      entries, order := map[], [];
    }
  }

  // ------------------------------------------------------------ whole runs

  datatype Op = Insert(token: string, entry: TokenEntry) | Consume(token: string) | ResetAll

  function Step(s: Tokens, op: Op): Tokens {
    match op
    case Insert(token, entry) => Inserted(s, token, entry)
    case Consume(token) => Consumed(s, token)
    case ResetAll => NO_TOKENS
  }

  function Run(s: Tokens, ops: seq<Op>): Tokens
    decreases |ops|
  {
    if ops == [] then s else Run(Step(s, ops[0]), ops[1..])
  }

  /** The history `issued`, a list of tokens, after one more step. */
  function IssuedAfter(issued: seq<string>, op: Op): seq<string> {
    if op.Insert? then issued + [op.token] else issued
  }

  function IssuedBy(issued: seq<string>, ops: seq<Op>): seq<string>
    decreases |ops|
  {
    if ops == [] then issued else IssuedBy(IssuedAfter(issued, ops[0]), ops[1..])
  }

  /** Every insert is of a token never inserted before. */
  ghost predicate Fresh(issued: seq<string>, ops: seq<Op>)
    decreases |ops|
  {
    ops == [] || ((ops[0].Insert? ==> ops[0].token !in issued) && Fresh(IssuedAfter(issued, ops[0]), ops[1..]))
  }

  ghost predicate NoDuplicates(order: seq<string>) {
    forall i, j | 0 <= i < j < |order| :: order[i] != order[j]
  }

  /** The queue is the tokens issued, in that order, less those no longer live; there are never more than the cap. */
  ghost predicate Good(s: Tokens, issued: seq<string>) {
    && NoDuplicates(issued)
    && (forall t | t in s.entries :: t in issued)
    && s.order == Keep(issued, s.entries.Keys)
    && |s.entries| == |s.order| <= TOKEN_STORE_MAX
  }

  // -------------------------------------------------------- one step

  lemma {:induction false} KeepFresh(issued: seq<string>, live: set<string>, token: string)
    requires token !in issued
    ensures Keep(issued + [token], live + {token}) == Keep(issued, live) + [token]
  {
    var more := issued + [token];
    if issued == [] {
      assert more[1..] == [];
    } else {
      assert more[1..] == issued[1..] + [token];
      KeepFresh(issued[1..], live, token);
      assert issued[0] in live + {token} <==> issued[0] in live;
    }
  }

  lemma {:induction false} KeepLess(issued: seq<string>, live: set<string>, token: string)
    ensures Keep(issued, live - {token}) == Without(Keep(issued, live), token)
  {
    if issued != [] {
      KeepLess(issued[1..], live, token);
      var rest := Keep(issued[1..], live);
      if issued[0] in live {
        assert ([issued[0]] + rest)[1..] == rest;
      } else {
        assert Keep(issued, live) == rest;
        assert Keep(issued, live - {token}) == Keep(issued[1..], live - {token});
      }
    }
  }

  lemma {:induction false} WithoutAbsent(order: seq<string>, token: string)
    requires token !in order
    ensures Without(order, token) == order
  {
    if order != [] { WithoutAbsent(order[1..], token); }
  }

  lemma {:induction false} WithoutOne(order: seq<string>, token: string)
    requires NoDuplicates(order) && token in order
    ensures |Without(order, token)| == |order| - 1
  {
    if order[0] == token {
      assert token !in order[1..];
      WithoutAbsent(order[1..], token);
    } else {
      WithoutOne(order[1..], token);
    }
  }

  lemma {:induction false} KeepNoDuplicates(issued: seq<string>, live: set<string>)
    requires NoDuplicates(issued)
    ensures NoDuplicates(Keep(issued, live))
  {
    if issued != [] {
      KeepNoDuplicates(issued[1..], live);
      assert issued[0] !in issued[1..];
      KeepIsFilter(issued[1..], live);
    }
  }

  lemma {:induction false} KeepIsFilter(issued: seq<string>, live: set<string>)
    ensures forall t :: t in Keep(issued, live) <==> t in issued && t in live
  {
    if issued != [] { KeepIsFilter(issued[1..], live); }
  }

  /** Taking out the head of the queue is evicting it. */
  lemma EvictGood(s: Tokens, issued: seq<string>)
    requires Good(s, issued)
    ensures Good(Evicted(s), issued)
    ensures Evicted(s).order == if |s.order| == TOKEN_STORE_MAX then s.order[1..] else s.order
    ensures |Evicted(s).order| < TOKEN_STORE_MAX
  {
    if |s.order| == TOKEN_STORE_MAX {
      KeepIsFilter(issued, s.entries.Keys);
      assert s.order[0] in s.order;
      RemoveGood(s, issued, s.order[0]);
      KeepNoDuplicates(issued, s.entries.Keys);
      assert s.order[0] !in s.order[1..];
      WithoutAbsent(s.order[1..], s.order[0]);
    }
  }

  lemma RemoveGood(s: Tokens, issued: seq<string>, token: string)
    requires Good(s, issued) && token in s.entries
    ensures Good(Tokens(s.entries - {token}, Without(s.order, token)), issued)
  {
    var entries := s.entries - {token};
    assert entries.Keys == s.entries.Keys - {token};
    assert |entries.Keys| == |s.entries.Keys| - 1;
    assert Without(s.order, token) == Keep(issued, entries.Keys) by {
      KeepLess(issued, s.entries.Keys, token);
    }
    assert |Without(s.order, token)| == |s.order| - 1 by {
      KeepNoDuplicates(issued, s.entries.Keys);
      KeepIsFilter(issued, s.entries.Keys);
      WithoutOne(s.order, token);
    }
  }

  lemma AddGood(room: Tokens, issued: seq<string>, token: string, entry: TokenEntry)
    requires Good(room, issued) && token !in issued && |room.order| < TOKEN_STORE_MAX
    ensures Good(Tokens(room.entries[token := entry], room.order + [token]), issued + [token])
  {
    var entries := room.entries[token := entry];
    assert entries.Keys == room.entries.Keys + {token};
    assert |entries.Keys| == |room.entries.Keys| + 1;
    KeepFresh(issued, room.entries.Keys, token);
    assert NoDuplicates(issued + [token]);
  }

  lemma InsertGood(s: Tokens, issued: seq<string>, token: string, entry: TokenEntry)
    requires Good(s, issued) && token !in issued
    ensures Good(Inserted(s, token, entry), issued + [token])
  {
    EvictGood(s, issued);
    AddGood(Evicted(s), issued, token, entry);
  }

  lemma StepGood(s: Tokens, issued: seq<string>, op: Op)
    requires Good(s, issued) && (op.Insert? ==> op.token !in issued)
    ensures Good(Step(s, op), IssuedAfter(issued, op))
  {
    match op {
      case Insert(token, entry) => InsertGood(s, issued, token, entry);
      case Consume(token) => if token in s.entries { RemoveGood(s, issued, token); }
      case ResetAll =>
        KeepNothing(issued);
        assert NO_TOKENS.entries.Keys == {};
    }
  }

  lemma {:induction false} KeepNothing(issued: seq<string>)
    ensures Keep(issued, {}) == []
  {
    if issued != [] { KeepNothing(issued[1..]); }
  }

  // ------------------------------------------------------------ every run

  /** With fresh tokens the queue lists the live tokens, once each, in insertion order, within the cap. */
  lemma {:induction false} RunGood(s: Tokens, issued: seq<string>, ops: seq<Op>)
    requires Good(s, issued) && Fresh(issued, ops)
    ensures Good(Run(s, ops), IssuedBy(issued, ops))
    decreases |ops|
  {
    if ops != [] {
      StepGood(s, issued, ops[0]);
      RunGood(Step(s, ops[0]), IssuedAfter(issued, ops[0]), ops[1..]);
    }
  }

  lemma EmptyIsGood()
    ensures Good(NO_TOKENS, [])
  {
  }

  // ------------------------------------------------- without fresh tokens

  /** The queue lists the live tokens and no others, once each, and there are no more than the cap. */
  ghost predicate Lists(s: Tokens) {
    && NoDuplicates(s.order) && (forall t :: t in s.order <==> t in s.entries)
    && |s.entries| == |s.order| <= TOKEN_STORE_MAX
  }

  lemma GoodLists(s: Tokens, issued: seq<string>)
    requires Good(s, issued)
    ensures Lists(s)
  {
    KeepIsFilter(issued, s.entries.Keys);
    KeepNoDuplicates(issued, s.entries.Keys);
  }

  lemma TailLists(order: seq<string>)
    requires NoDuplicates(order) && order != []
    ensures NoDuplicates(order[1..]) && forall t :: t in order[1..] <==> t in order && t != order[0]
  {
    var rest := order[1..];
    forall i, j | 0 <= i < j < |rest| ensures rest[i] != rest[j] {
      assert rest[i] == order[i + 1] && rest[j] == order[j + 1];
    }
    forall t ensures t in rest <==> t in order && t != order[0] {
      if t in rest {
        var i :| 0 <= i < |rest| && rest[i] == t;
        assert order[i + 1] == t;
      }
    }
  }

  lemma EvictedLists(s: Tokens)
    requires Lists(s)
    ensures Lists(Evicted(s)) && |Evicted(s).order| < TOKEN_STORE_MAX
  {
    if |s.entries| >= TOKEN_STORE_MAX {
      var oldest := s.order[0];
      TailLists(s.order);
      assert oldest in s.order && oldest in s.entries;
      assert (s.entries - {oldest}).Keys == s.entries.Keys - {oldest};
      assert |s.entries.Keys - {oldest}| == |s.entries.Keys| - 1;
    }
  }

  lemma AppendedLists(room: Tokens, token: string, entry: TokenEntry)
    requires Lists(room) && |room.order| < TOKEN_STORE_MAX && token !in room.entries
    ensures Lists(Tokens(room.entries[token := entry], room.order + [token]))
  {
    var entries := room.entries[token := entry];
    assert entries.Keys == room.entries.Keys + {token} && |entries.Keys| == |room.entries.Keys| + 1;
  }

  /** An insert keeps the queue right exactly when its token is not live, once the eviction has made room; inserted
      while live, it would be listed twice. */
  lemma InsertListsIff(s: Tokens, token: string, entry: TokenEntry)
    requires Lists(s)
    ensures Lists(Inserted(s, token, entry)) <==> token !in Evicted(s).entries
  {
    EvictedLists(s);
    var room := Evicted(s);
    var after := Inserted(s, token, entry);
    if token !in room.entries {
      AppendedLists(room, token, entry);
    } else {
      var i :| 0 <= i < |room.order| && room.order[i] == token;
      assert after.order[i] == after.order[|room.order|];
    }
  }

  /** Once gone, a token that was issued before is never accepted again. */
  lemma {:induction false} GoneStaysGone(s: Tokens, issued: seq<string>, token: string, ops: seq<Op>)
    requires token in issued && token !in s.entries && Fresh(issued, ops)
    ensures token !in Run(s, ops).entries
    decreases |ops|
  {
    if ops != [] {
      GoneStaysGone(Step(s, ops[0]), IssuedAfter(issued, ops[0]), token, ops[1..]);
    }
  }

  /** A token that was consumed is refused at every later point of every run. */
  lemma ConsumedOnlyOnce(s: Tokens, issued: seq<string>, token: string, later: seq<Op>)
    requires Good(s, issued) && token in s.entries && Fresh(issued, later)
    ensures token !in Run(Consumed(s, token), later).entries
  {
    GoneStaysGone(Consumed(s, token), issued, token, later);
  }

  // ------------------------------------------------------------- liveness

  function Inserts(ops: seq<Op>): nat {
    if ops == [] then 0 else (if ops[0].Insert? then 1 else 0) + Inserts(ops[1..])
  }

  ghost predicate Undisturbed(ops: seq<Op>, token: string) {
    forall i | 0 <= i < |ops| :: ops[i] != Consume(token) && !ops[i].ResetAll?
  }

  /** `token` is live and exactly `n` tokens stand behind it in the queue. */
  ghost predicate Waits(s: Tokens, token: string, entry: TokenEntry, n: nat) {
    && token in s.entries && s.entries[token] == entry
    && n < |s.order| && s.order[|s.order| - 1 - n] == token
  }

  lemma {:induction false} WithoutBehind(order: seq<string>, gone: string, i: nat) returns (j: nat)
    requires i < |order| && order[i] != gone
    ensures j < |Without(order, gone)| <= |order| && Without(order, gone)[j] == order[i]
    ensures |Without(order, gone)| - 1 - j <= |order| - 1 - i
    decreases i
  {
    WithoutShorter(order[1..], gone);
    if i == 0 {
      j := 0;
    } else {
      j := WithoutBehind(order[1..], gone, i - 1);
      if order[0] != gone { j := j + 1; }
    }
  }

  lemma {:induction false} WithoutShorter(order: seq<string>, gone: string)
    ensures |Without(order, gone)| <= |order|
  {
    if order != [] { WithoutShorter(order[1..], gone); }
  }

  lemma AppendWaits(room: Tokens, token: string, entry: TokenEntry, n: nat, other: string, e: TokenEntry)
    requires Waits(room, token, entry, n) && other != token
    ensures Waits(Tokens(room.entries[other := e], room.order + [other]), token, entry, n + 1)
  {
  }

  lemma EvictWaits(s: Tokens, issued: seq<string>, token: string, entry: TokenEntry, n: nat)
    requires Good(s, issued) && Waits(s, token, entry, n) && n + 1 < TOKEN_STORE_MAX
    ensures Waits(Evicted(s), token, entry, n)
  {
    EvictGood(s, issued);
    if |s.order| == TOKEN_STORE_MAX {
      KeepNoDuplicates(issued, s.entries.Keys);
      assert s.order[0] != s.order[|s.order| - 1 - n];
    }
  }

  lemma InsertWaits(s: Tokens, issued: seq<string>, token: string, entry: TokenEntry, n: nat, op: Op)
    requires Good(s, issued) && Waits(s, token, entry, n) && n + 1 < TOKEN_STORE_MAX
    requires op.Insert? && op.token != token
    ensures Waits(Step(s, op), token, entry, n + 1)
  {
    EvictWaits(s, issued, token, entry, n);
    AppendWaits(Evicted(s), token, entry, n, op.token, op.entry);
  }

  lemma ConsumeWaits(s: Tokens, token: string, entry: TokenEntry, n: nat, other: string) returns (m: nat)
    requires Waits(s, token, entry, n) && other != token
    ensures m <= n && Waits(Consumed(s, other), token, entry, m)
  {
    m := n;
    if other in s.entries {
      var j := WithoutBehind(s.order, other, |s.order| - 1 - n);
      m := |Without(s.order, other)| - 1 - j;
    }
  }

  lemma StepWaits(s: Tokens, issued: seq<string>, token: string, entry: TokenEntry, n: nat, op: Op) returns (m: nat)
    requires Good(s, issued) && Waits(s, token, entry, n)
    requires op != Consume(token) && !op.ResetAll?
    requires op.Insert? ==> op.token !in issued && n + 1 < TOKEN_STORE_MAX
    ensures Waits(Step(s, op), token, entry, m) && m <= n + (if op.Insert? then 1 else 0)
  {
    if op.Insert? {
      assert token in issued;
      InsertWaits(s, issued, token, entry, n, op);
      m := n + 1;
    } else {
      m := ConsumeWaits(s, token, entry, n, op.token);
    }
  }

  lemma {:induction false} StaysLive(s: Tokens, issued: seq<string>, token: string, entry: TokenEntry, n: nat,
                                     ops: seq<Op>)
    requires Good(s, issued) && Fresh(issued, ops) && Waits(s, token, entry, n)
    requires Undisturbed(ops, token) && n + Inserts(ops) < TOKEN_STORE_MAX
    ensures token in Run(s, ops).entries && Run(s, ops).entries[token] == entry
    decreases |ops|
  {
    if ops != [] {
      StepGood(s, issued, ops[0]);
      var m := StepWaits(s, issued, token, entry, n, ops[0]);
      StaysLive(Step(s, ops[0]), IssuedAfter(issued, ops[0]), token, entry, m, ops[1..]);
    }
  }

  lemma JustInsertedWaits(s: Tokens, issued: seq<string>, token: string, entry: TokenEntry)
    requires Good(s, issued) && token !in issued
    ensures Waits(Inserted(s, token, entry), token, entry, 0)
  {
  }

  /** A token nobody consumed is live, with its entry, while fewer inserts than the cap followed it. */
  lemma UnconsumedStaysLive(s: Tokens, issued: seq<string>, token: string, entry: TokenEntry, later: seq<Op>)
    requires Good(s, issued) && token !in issued && Fresh(issued + [token], later)
    requires Undisturbed(later, token) && Inserts(later) < TOKEN_STORE_MAX
    ensures var end := Run(Inserted(s, token, entry), later);
            token in end.entries && end.entries[token] == entry
  {
    InsertGood(s, issued, token, entry);
    JustInsertedWaits(s, issued, token, entry);
    StaysLive(Inserted(s, token, entry), issued + [token], token, entry, 0, later);
  }

  lemma WaitsWithinCap(s: Tokens, issued: seq<string>, token: string, entry: TokenEntry, n: nat)
    requires Good(s, issued) && Waits(s, token, entry, n)
    ensures n < TOKEN_STORE_MAX && token in issued
  {
  }

  /** One more insert puts one more token behind a waiting one, or evicts it. */
  lemma InsertPushesOn(s: Tokens, issued: seq<string>, token: string, entry: TokenEntry, n: nat, op: Op)
    requires Good(s, issued) && Waits(s, token, entry, n) && op.Insert? && op.token !in issued
    ensures token in issued && Good(Step(s, op), IssuedAfter(issued, op))
    ensures if n + 1 < TOKEN_STORE_MAX then Waits(Step(s, op), token, entry, n + 1) else token !in Step(s, op).entries
  {
    WaitsWithinCap(s, issued, token, entry, n);
    StepGood(s, issued, op);
    if n + 1 < TOKEN_STORE_MAX {
      InsertWaits(s, issued, token, entry, n, op);
    } else {
      FrontIsEvicted(s, issued, token, entry, n, op);
    }
  }

  lemma {:induction false} InsertsEvict(s: Tokens, issued: seq<string>, token: string, entry: TokenEntry, n: nat,
                                        ops: seq<Op>)
    requires Good(s, issued) && Fresh(issued, ops) && Waits(s, token, entry, n)
    requires (forall i | 0 <= i < |ops| :: ops[i].Insert?) && n + |ops| >= TOKEN_STORE_MAX
    ensures token !in Run(s, ops).entries
    decreases |ops|
  {
    WaitsWithinCap(s, issued, token, entry, n);
    InsertPushesOn(s, issued, token, entry, n, ops[0]);
    if n + 1 < TOKEN_STORE_MAX {
      InsertsEvict(Step(s, ops[0]), IssuedAfter(issued, ops[0]), token, entry, n + 1, ops[1..]);
    } else {
      GoneStaysGone(Step(s, ops[0]), IssuedAfter(issued, ops[0]), token, ops[1..]);
    }
  }

  lemma FrontIsEvicted(s: Tokens, issued: seq<string>, token: string, entry: TokenEntry, n: nat, op: Op)
    requires Good(s, issued) && Waits(s, token, entry, n) && n + 1 >= TOKEN_STORE_MAX
    requires op.Insert? && op.token != token
    ensures token !in Step(s, op).entries
  {
    assert s.order[0] == token;
  }

  lemma {:induction false} InsertsOfInserts(ops: seq<Op>)
    requires forall i | 0 <= i < |ops| :: ops[i].Insert?
    ensures Inserts(ops) == |ops|
  {
    if ops != [] { InsertsOfInserts(ops[1..]); }
  }

  /** The bound is exact: when only inserts follow, the token is live if and only if fewer than the cap did. */
  lemma LiveIffFewerThanTheCap(s: Tokens, issued: seq<string>, token: string, entry: TokenEntry, later: seq<Op>)
    requires Good(s, issued) && token !in issued && Fresh(issued + [token], later)
    requires forall i | 0 <= i < |later| :: later[i].Insert?
    ensures token in Run(Inserted(s, token, entry), later).entries <==> |later| < TOKEN_STORE_MAX
  {
    InsertsOfInserts(later);
    if |later| < TOKEN_STORE_MAX {
      UnconsumedStaysLive(s, issued, token, entry, later);
    } else {
      InsertGood(s, issued, token, entry);
      JustInsertedWaits(s, issued, token, entry);
      InsertsEvict(Inserted(s, token, entry), issued + [token], token, entry, 0, later);
    }
  }
}
