/** Passkey ceremonies and credentials, and what a response must prove to be accepted. */
module WebAuthnStore {
  import opened Bytes
  import opened Clock
  import opened Wrappers
  import opened Json
  import opened AuthData

  const TRANSACTION_TTL_SECS: nat := 300

  datatype Ceremony = SignUp | SignIn | Update

  function ClientDataType(c: Ceremony): string {
    if c == SignIn then "webauthn.get" else "webauthn.create"
  }

  datatype Transaction = Transaction(
    id: string, ceremony: Ceremony, loginId: string, userId: string, challenge: Bytes, rpId: string, createdAt: nat)

  datatype Credential = Credential(id: Bytes, userId: string, key: CredentialKey, signCount: nat)

  /** Parsing, encoding and signatures, as the libraries do them. Printed numbers need not come back: no response
      carries one. */
  datatype Libs = Libs(
    codec: Codec,
    parseJson: string -> Option<Json>, jsonText: Json -> string,
    parseJsonBytes: Bytes -> Option<Json>, jsonBytes: Json -> Bytes,
    decodeB64: string -> Option<Bytes>, encodeB64: Bytes -> string,
    verify: (CredentialKey, Bytes, Bytes) -> bool)
  {
    ghost predicate Valid() {
      && codec.Valid()
      && (forall v | NumberFree(v) :: parseJson(jsonText(v)) == Some(v))
      && (forall v | NumberFree(v) :: parseJsonBytes(jsonBytes(v)) == Some(v))
      && (forall b :: decodeB64(encodeB64(b)) == Some(b))
    }
  }

  // ---------------------------------------------------- reading a response

  function B64Field(libs: Libs, response: Json, path: seq<string>): Result<Bytes, Refusal> {
    var text := GetPath(response, path);
    if !text.Str? then Err(MissingField)
    else
      var bytes := libs.decodeB64(text.s);
      if bytes.None? then Err(NotBase64) else Ok(bytes.value)
  }

  function CheckClientData(libs: Libs, response: Json, t: Transaction): Result<Bytes, Refusal> {
    var raw :- B64Field(libs, response, ["response", "clientDataJSON"]);
    var clientData := libs.parseJsonBytes(raw);
    if clientData.None? then Err(NotJson)
    else if Child(clientData.value, "type") != Str(ClientDataType(t.ceremony)) then Err(OtherCeremony)
    else
      var text := Child(clientData.value, "challenge");
      var challenge := if text.Str? then libs.decodeB64(text.s) else None;
      if challenge.None? then Err(NoChallenge)
      else if challenge.value != t.challenge then Err(OtherChallenge)
      else Ok(raw)
  }

  function CborMapGet(entries: seq<(Cbor, Cbor)>, key: string): Option<Cbor> {
    if entries == [] then None
    else if entries[0].0 == Text(key) then Some(entries[0].1)
    else CborMapGet(entries[1..], key)
  }

  /** What a registration response proves: a credential id, its key and its counter. */
  function RegistrationOf(libs: Libs, t: Transaction, responseText: string)
    : Result<(Bytes, CredentialKey, nat), Refusal>
  {
    var response := libs.parseJson(responseText);
    if response.None? then Err(NotJson)
    else
      var _ :- CheckClientData(libs, response.value, t);
      var bytes :- B64Field(libs, response.value, ["response", "attestationObject"]);
      var attestation := libs.codec.readCbor(bytes);
      if attestation.None? then Err(NotCbor)
      else
        var authData := if attestation.value.Map? then CborMapGet(attestation.value.entries, "authData") else None;
        if authData.None? || !authData.value.Octets? then Err(NoAuthData)
        else
          var parsed :- ParseAuthData(libs.codec, authData.value.bytes, t.rpId);
          if parsed.attested.None? then Err(NoCredential)
          else Ok((parsed.attested.value.0, parsed.attested.value.1, parsed.signCount))
  }

  function FindCredential(creds: seq<Credential>, id: Bytes): (i: Option<nat>)
    ensures i.Some? ==> i.value < |creds| && creds[i.value].id == id
    ensures i.None? ==> forall j | 0 <= j < |creds| :: creds[j].id != id
  {
    if creds == [] then None
    else if creds[0].id == id then Some(0)
    else
      var rest := FindCredential(creds[1..], id);
      if rest.Some? then Some(rest.value + 1) else None
  }

  /** What a sign-in response proves: which of the user's passkeys signed, and its counter. */
  function AssertionOf(libs: Libs, creds: seq<Credential>, t: Transaction, responseText: string)
    : (r: Result<(nat, nat), Refusal>)
    ensures r.Ok? ==> r.value.0 < |creds|
  {
    var response := libs.parseJson(responseText);
    if response.None? then Err(NotJson)
    else
      var clientData :- CheckClientData(libs, response.value, t);
      var id :- B64Field(libs, response.value, ["rawId"]);
      var i := FindCredential(creds, id);
      if i.None? then Err(UnknownCredential)
      else
        var authData :- B64Field(libs, response.value, ["response", "authenticatorData"]);
        var parsed :- ParseAuthData(libs.codec, authData, t.rpId);
        var signature :- B64Field(libs, response.value, ["response", "signature"]);
        if libs.verify(creds[i.value].key, authData + libs.codec.sha256(clientData), signature)
        then Ok((i.value, parsed.signCount))
        else Err(BadSignature)
  }

  // ---------------------------------------------- what a response proves

  /** The response holds these octets, base64, under this path. */
  ghost predicate Holds(libs: Libs, response: Json, path: seq<string>, bytes: Bytes) {
    var text := GetPath(response, path);
    text.Str? && libs.decodeB64(text.s) == Some(bytes)
  }

  /** Client data made for this kind of ceremony, over its challenge. */
  ghost predicate Vouches(libs: Libs, kind: string, challenge: Bytes, raw: Bytes) {
    var clientData := libs.parseJsonBytes(raw);
    && clientData.Some? && GetPath(clientData.value, ["type"]) == Str(kind)
    && Holds(libs, clientData.value, ["challenge"], challenge)
  }

  lemma HoldsIff(libs: Libs, response: Json, path: seq<string>, bytes: Bytes)
    ensures B64Field(libs, response, path) == Ok(bytes) <==> Holds(libs, response, path, bytes)
  {
  }

  lemma VouchesIff(libs: Libs, response: Json, t: Transaction, raw: Bytes)
    ensures CheckClientData(libs, response, t) == Ok(raw)
       <==> && Holds(libs, response, ["response", "clientDataJSON"], raw)
            && Vouches(libs, if t.ceremony == SignIn then "webauthn.get" else "webauthn.create", t.challenge, raw)
  {
    HoldsIff(libs, response, ["response", "clientDataJSON"], raw);
    var clientData := libs.parseJsonBytes(raw);
    if clientData.Some? {
      ReadOne(clientData.value, "type");
      ReadOne(clientData.value, "challenge");
    }
  }

  /** The i-th credential is the first under the id the response names. */
  ghost predicate Names(libs: Libs, response: Json, creds: seq<Credential>, i: nat) {
    && i < |creds| && Holds(libs, response, ["rawId"], creds[i].id)
    && forall j | 0 <= j < i :: creds[j].id != creds[i].id
  }

  /** The response carries client data and authenticator data of this ceremony, with a counter, and the i-th
      credential's signature over both. */
  ghost predicate SignedOver(libs: Libs, creds: seq<Credential>, t: Transaction, response: Json, i: nat, signCount: nat,
                             clientData: Bytes, authData: Bytes, signature: Bytes)
  {
    && Holds(libs, response, ["response", "clientDataJSON"], clientData)
    && Vouches(libs, if t.ceremony == SignIn then "webauthn.get" else "webauthn.create", t.challenge, clientData)
    && Names(libs, response, creds, i)
    && Holds(libs, response, ["response", "authenticatorData"], authData)
    && (exists attested :: Says(libs.codec, authData, t.rpId, signCount, attested))
    && Holds(libs, response, ["response", "signature"], signature)
    && libs.verify(creds[i].key, authData + libs.codec.sha256(clientData), signature)
  }

  /** The text is a response to the ceremony signed with the i-th credential. */
  ghost predicate Asserts(libs: Libs, creds: seq<Credential>, t: Transaction, responseText: string, i: nat,
                          signCount: nat)
  {
    var response := libs.parseJson(responseText);
    && response.Some?
    && exists clientData, authData, signature ::
         SignedOver(libs, creds, t, response.value, i, signCount, clientData, authData, signature)
  }

  lemma NamesIff(libs: Libs, response: Json, creds: seq<Credential>, i: nat)
    ensures Names(libs, response, creds, i)
       <==> var id := B64Field(libs, response, ["rawId"]); id.Ok? && FindCredential(creds, id.value) == Some(i)
  {
    if i < |creds| {
      HoldsIff(libs, response, ["rawId"], creds[i].id);
      FirstFound(creds, i);
    }
  }

  lemma {:induction false} FirstFound(creds: seq<Credential>, i: nat)
    requires i < |creds|
    ensures FindCredential(creds, creds[i].id) == Some(i) <==> forall j | 0 <= j < i :: creds[j].id != creds[i].id
  {
    if i > 0 {
      FirstFound(creds[1..], i - 1);
      assert forall j | 0 < j < i :: creds[j] == creds[1..][j - 1];
    }
  }

  lemma AcceptedIsSigned(libs: Libs, creds: seq<Credential>, t: Transaction, responseText: string, i: nat,
                         signCount: nat)
    requires AssertionOf(libs, creds, t, responseText) == Ok((i, signCount))
    ensures Asserts(libs, creds, t, responseText, i, signCount)
  {
    hide Holds, Vouches, Names, Says, ParseAuthData, FindCredential, B64Field, CheckClientData;
    var response := libs.parseJson(responseText).value;
    var clientData := CheckClientData(libs, response, t).value;
    var authData := B64Field(libs, response, ["response", "authenticatorData"]).value;
    var signature := B64Field(libs, response, ["response", "signature"]).value;
    var parsed := ParseAuthData(libs.codec, authData, t.rpId).value;
    VouchesIff(libs, response, t, clientData);
    NamesIff(libs, response, creds, i);
    HoldsIff(libs, response, ["response", "authenticatorData"], authData);
    AcceptsIffSays(libs.codec, authData, t.rpId, signCount, parsed.attested);
    HoldsIff(libs, response, ["response", "signature"], signature);
    assert SignedOver(libs, creds, t, response, i, signCount, clientData, authData, signature);
  }

  lemma SignedIsTaken(libs: Libs, creds: seq<Credential>, t: Transaction, responseText: string, i: nat, signCount: nat)
    requires Asserts(libs, creds, t, responseText, i, signCount)
    ensures AssertionOf(libs, creds, t, responseText) == Ok((i, signCount))
  {
    hide Holds, Vouches, Names, Says, ParseAuthData, FindCredential, B64Field, CheckClientData;
    var response := libs.parseJson(responseText).value;
    var clientData, authData, signature :|
      SignedOver(libs, creds, t, response, i, signCount, clientData, authData, signature);
    var attested :| Says(libs.codec, authData, t.rpId, signCount, attested);
    VouchesIff(libs, response, t, clientData);
    NamesIff(libs, response, creds, i);
    HoldsIff(libs, response, ["response", "authenticatorData"], authData);
    AcceptsIffSays(libs.codec, authData, t.rpId, signCount, attested);
    HoldsIff(libs, response, ["response", "signature"], signature);
  }

  /** A sign-in response is accepted exactly when it is signed with one of the user's credentials over this ceremony's
      challenge and relying party. */
  lemma AcceptedIffSigned(libs: Libs, creds: seq<Credential>, t: Transaction, responseText: string, i: nat,
                          signCount: nat)
    ensures AssertionOf(libs, creds, t, responseText) == Ok((i, signCount))
       <==> Asserts(libs, creds, t, responseText, i, signCount)
  {
    hide AssertionOf, Asserts;
    if AssertionOf(libs, creds, t, responseText) == Ok((i, signCount)) {
      AcceptedIsSigned(libs, creds, t, responseText, i, signCount);
    }
    if Asserts(libs, creds, t, responseText, i, signCount) {
      SignedIsTaken(libs, creds, t, responseText, i, signCount);
    }
  }

  /** The attestation object is a CBOR map whose `authData` is these octets. */
  ghost predicate Wraps(libs: Libs, attestation: Bytes, authData: Bytes) {
    var cbor := libs.codec.readCbor(attestation);
    cbor.Some? && cbor.value.Map? && FirstUnder(cbor.value.entries, Text("authData"), Octets(authData))
  }

  /** The response carries client data of this ceremony and a credential for this relying party. */
  ghost predicate OffersIn(libs: Libs, t: Transaction, response: Json, id: Bytes, key: CredentialKey, signCount: nat,
                           clientData: Bytes, attestation: Bytes, authData: Bytes)
  {
    && Holds(libs, response, ["response", "clientDataJSON"], clientData)
    && Vouches(libs, if t.ceremony == SignIn then "webauthn.get" else "webauthn.create", t.challenge, clientData)
    && Holds(libs, response, ["response", "attestationObject"], attestation)
    && Wraps(libs, attestation, authData)
    && Says(libs.codec, authData, t.rpId, signCount, Some((id, key)))
  }

  ghost predicate Offers(libs: Libs, t: Transaction, responseText: string, id: Bytes, key: CredentialKey,
                         signCount: nat)
  {
    var response := libs.parseJson(responseText);
    && response.Some?
    && exists clientData, attestation, authData ::
         OffersIn(libs, t, response.value, id, key, signCount, clientData, attestation, authData)
  }

  lemma {:induction false} MapGetIsFirst(entries: seq<(Cbor, Cbor)>, key: string, v: Cbor)
    ensures CborMapGet(entries, key) == Some(v) <==> FirstUnder(entries, Text(key), v)
  {
    if entries != [] {
      MapGetIsFirst(entries[1..], key, v);
      if entries[0].0 == Text(key) {
        assert FirstUnder(entries, Text(key), entries[0].1);
      } else {
        FirstInRest(entries, Text(key), v);
      }
    }
  }

  lemma WrapsIff(libs: Libs, attestation: Bytes, authData: Bytes)
    ensures Wraps(libs, attestation, authData)
       <==> var cbor := libs.codec.readCbor(attestation);
            cbor.Some? && cbor.value.Map? && CborMapGet(cbor.value.entries, "authData") == Some(Octets(authData))
  {
    hide FirstUnder, CborMapGet;
    var cbor := libs.codec.readCbor(attestation);
    if cbor.Some? && cbor.value.Map? {
      MapGetIsFirst(cbor.value.entries, "authData", Octets(authData));
    }
  }

  lemma RegisteredIsOffered(libs: Libs, t: Transaction, responseText: string, id: Bytes, key: CredentialKey,
                            signCount: nat)
    requires RegistrationOf(libs, t, responseText) == Ok((id, key, signCount))
    ensures Offers(libs, t, responseText, id, key, signCount)
  {
    hide Holds, Vouches, Wraps, Says, ParseAuthData, CborMapGet, B64Field, CheckClientData;
    var response := libs.parseJson(responseText).value;
    var clientData := CheckClientData(libs, response, t).value;
    var bytes := B64Field(libs, response, ["response", "attestationObject"]).value;
    var attestation := libs.codec.readCbor(bytes).value;
    var authData := CborMapGet(attestation.entries, "authData").value.bytes;
    VouchesIff(libs, response, t, clientData);
    HoldsIff(libs, response, ["response", "attestationObject"], bytes);
    WrapsIff(libs, bytes, authData);
    AcceptsIffSays(libs.codec, authData, t.rpId, signCount, Some((id, key)));
    assert OffersIn(libs, t, response, id, key, signCount, clientData, bytes, authData);
  }

  lemma OfferedIsTaken(libs: Libs, t: Transaction, responseText: string, id: Bytes, key: CredentialKey, signCount: nat)
    requires Offers(libs, t, responseText, id, key, signCount)
    ensures RegistrationOf(libs, t, responseText) == Ok((id, key, signCount))
  {
    hide Holds, Vouches, Wraps, Says, ParseAuthData, CborMapGet, B64Field, CheckClientData;
    var response := libs.parseJson(responseText).value;
    var clientData, attestation, authData :|
      OffersIn(libs, t, response, id, key, signCount, clientData, attestation, authData);
    VouchesIff(libs, response, t, clientData);
    HoldsIff(libs, response, ["response", "attestationObject"], attestation);
    WrapsIff(libs, attestation, authData);
    AcceptsIffSays(libs.codec, authData, t.rpId, signCount, Some((id, key)));
  }

  /** A registration response is accepted exactly when it offers a credential for this ceremony's challenge and relying
      party, and then as that credential. */
  lemma RegisteredIffOffered(libs: Libs, t: Transaction, responseText: string, id: Bytes, key: CredentialKey,
                             signCount: nat)
    ensures RegistrationOf(libs, t, responseText) == Ok((id, key, signCount))
       <==> Offers(libs, t, responseText, id, key, signCount)
  {
    hide RegistrationOf, Offers;
    if RegistrationOf(libs, t, responseText) == Ok((id, key, signCount)) {
      RegisteredIsOffered(libs, t, responseText, id, key, signCount);
    }
    if Offers(libs, t, responseText, id, key, signCount) {
      OfferedIsTaken(libs, t, responseText, id, key, signCount);
    }
  }

  /** Some credential of these signed the response. */
  ghost predicate SomeoneSigned(libs: Libs, creds: seq<Credential>, t: Transaction, responseText: string) {
    exists i, signCount :: Asserts(libs, creds, t, responseText, i, signCount)
  }

  /** The response offers some credential. */
  ghost predicate SomethingOffered(libs: Libs, t: Transaction, responseText: string) {
    exists id, key, signCount :: Offers(libs, t, responseText, id, key, signCount)
  }

  lemma SignedIffOk(libs: Libs, creds: seq<Credential>, t: Transaction, responseText: string)
    ensures SomeoneSigned(libs, creds, t, responseText) <==> AssertionOf(libs, creds, t, responseText).Ok?
  {
    hide AssertionOf, Asserts;
    var r := AssertionOf(libs, creds, t, responseText);
    if r.Ok? {
      AcceptedIffSigned(libs, creds, t, responseText, r.value.0, r.value.1);
    }
    if SomeoneSigned(libs, creds, t, responseText) {
      var i, signCount :| Asserts(libs, creds, t, responseText, i, signCount);
      AcceptedIffSigned(libs, creds, t, responseText, i, signCount);
    }
  }

  lemma OfferedIffOk(libs: Libs, t: Transaction, responseText: string)
    ensures SomethingOffered(libs, t, responseText) <==> RegistrationOf(libs, t, responseText).Ok?
  {
    hide RegistrationOf, Offers;
    var r := RegistrationOf(libs, t, responseText);
    if r.Ok? {
      RegisteredIffOffered(libs, t, responseText, r.value.0, r.value.1, r.value.2);
    }
    if SomethingOffered(libs, t, responseText) {
      var id, key, signCount :| Offers(libs, t, responseText, id, key, signCount);
      RegisteredIffOffered(libs, t, responseText, id, key, signCount);
    }
  }

  // ----------------------------------------------------------------- state

  datatype State = State(credentials: map<string, seq<Credential>>, transactions: map<string, Transaction>)

  const EMPTY_STATE := State(map[], map[])

  function CredentialsOf(s: State, userId: string): seq<Credential> {
    if userId in s.credentials then s.credentials[userId] else []
  }

  function Begun(s: State, t: Transaction, now: nat): State {
    var kept := map k | k in s.transactions && Elapsed(now, s.transactions[k].createdAt) < TRANSACTION_TTL_SECS ::
      s.transactions[k];
    s.(transactions := kept[t.id := t])
  }

  function Taken(s: State, id: string, ceremony: Ceremony): State {
    if id in s.transactions && s.transactions[id].ceremony == ceremony
    then s.(transactions := s.transactions - {id}) else s
  }

  function Others(creds: seq<Credential>, id: Bytes): seq<Credential> {
    if creds == [] then []
    else (if creds[0].id != id then [creds[0]] else []) + Others(creds[1..], id)
  }

  function Registered(s: State, userId: string, id: Bytes, key: CredentialKey, signCount: nat): State {
    s.(credentials := s.credentials[userId := Others(CredentialsOf(s, userId),
                                                     id) + [Credential(id, userId, key, signCount)]])
  }

  function Counted(s: State, userId: string, i: nat, signCount: nat): State
    requires i < |CredentialsOf(s, userId)|
  {
    var creds := CredentialsOf(s, userId);
    s.(credentials := s.credentials[userId := creds[i := creds[i].(signCount := signCount)]])
  }

  function FinishedRegistration(libs: Libs, s: State, t: Transaction, userId: string, responseText: string): State {
    match RegistrationOf(libs, t, responseText)
    case Ok((id, key, signCount)) => Registered(s, userId, id, key, signCount)
    case Err(_) => s
  }

  function FinishedAssertion(libs: Libs, s: State, t: Transaction, responseText: string): State {
    match AssertionOf(libs, CredentialsOf(s, t.userId), t, responseText)
    case Ok((i, signCount)) => Counted(s, t.userId, i, signCount)
    case Err(_) => s
  }

  /** Credentials under a user carry that user's id, with distinct ids; a ceremony is filed under its own id. */
  ghost predicate Good(s: State) {
    && (forall u, i | u in s.credentials && 0 <= i < |s.credentials[u]| :: s.credentials[u][i].userId == u)
    && (forall u, i, j | u in s.credentials && 0 <= i < j < |s.credentials[u]| ::
          s.credentials[u][i].id != s.credentials[u][j].id)
    && (forall k | k in s.transactions :: s.transactions[k].id == k)
  }

  function PasskeyList(libs: Libs, creds: seq<Credential>): seq<Json> {
    if creds == [] then []
    else [Obj(map["type" := Str("public-key"), "id" := Str(libs.encodeB64(creds[0].id))])] + PasskeyList(libs,
                                                                                                         creds[1..])
  }

  function UserHandle(libs: Libs, userId: string, loginId: string): Bytes {
    libs.codec.utf8(if userId == "" then loginId else userId)
  }

  function KeyKind(alg: int): Json {
    Obj(map["type" := Str("public-key"), "alg" := Number(alg as real)])
  }

  function SignInOptions(libs: Libs, t: Transaction, existing: seq<Credential>): (r: Json)
    ensures Child(r, "challenge") == Str(libs.encodeB64(t.challenge)) && Child(r, "rpId") == Str(t.rpId)
  {
    Obj(map["challenge" := Str(libs.encodeB64(t.challenge)), "rpId" := Str(t.rpId),
            "allowCredentials" := Arr(PasskeyList(libs, existing)),
            "userVerification" := Str("preferred"), "timeout" := Number(60000.0)])
  }

  function CreationOptions(libs: Libs, t: Transaction, displayName: string, existing: seq<Credential>): (r: Json)
    ensures Child(r, "challenge") == Str(libs.encodeB64(t.challenge)) && Child(Child(r, "rp"), "id") == Str(t.rpId)
  {
    Obj(map["challenge" := Str(libs.encodeB64(t.challenge)),
            "rp" := Obj(map["id" := Str(t.rpId), "name" := Str(t.rpId)]),
            "user" := Obj(map["id" := Str(libs.encodeB64(UserHandle(libs, t.userId, t.loginId))),
                              "name" := Str(t.loginId),
                              "displayName" := Str(if displayName == "" then t.loginId else displayName)]),
            "pubKeyCredParams" := Arr([KeyKind(COSE_ES256), KeyKind(COSE_RS256)]),
            "excludeCredentials" := Arr(PasskeyList(libs, existing)),
            "authenticatorSelection" := Obj(map["userVerification" := Str("preferred"),
                                                "residentKey" := Str("preferred")]),
            "attestation" := Str("none"), "timeout" := Number(60000.0)])
  }

  /** What a browser needs to take part in the ceremony. */
  function OptionsFor(libs: Libs, t: Transaction, displayName: string, existing: seq<Credential>): Json {
    Obj(map["publicKey" := if t.ceremony == SignIn then SignInOptions(libs, t, existing)
                           else CreationOptions(libs, t, displayName, existing)])
  }

  class WebAuthnStore {
    var credentials: map<string, seq<Credential>>
    var transactions: map<string, Transaction>

    ghost function View(): State reads this {
      State(credentials, transactions)
    }

    ghost predicate Valid() reads this {
      Good(View())
    }

    constructor ()
      ensures Valid() && View() == EMPTY_STATE
    {
      credentials, transactions := map[], map[];
    }

    method HasCredentials(userId: string) returns (has: bool)
      ensures has <==> CredentialsOf(View(), userId) != []
    {
      has := userId in credentials && credentials[userId] != [];
    }

    method Begin(libs: Libs, ceremony: Ceremony, loginId: string, userId: string, displayName: string, rpId: string,
                 now: nat, transactionId: string, challenge: Bytes) returns (options: Json)
      requires Valid()
      modifies this
      ensures Valid()
      ensures var t := Transaction(transactionId, ceremony, loginId, userId, challenge, rpId, now);
              View() == Begun(old(View()), t, now)
              && options == OptionsFor(libs, t, displayName, CredentialsOf(old(View()), userId))
    {
      transactions := map k | k in transactions && Elapsed(now, transactions[k].createdAt) < TRANSACTION_TTL_SECS ::
        transactions[k];
      var t := Transaction(transactionId, ceremony, loginId, userId, challenge, rpId, now);
      options := OptionsFor(libs, t, displayName, if userId in credentials then credentials[userId] else []);
      transactions := transactions[transactionId := t];
    }

    method TakeTransaction(id: string, ceremony: Ceremony) returns (r: Result<Transaction, StoreError>)
      requires Valid()
      modifies this
      ensures Valid() && View() == Taken(old(View()), id, ceremony)
      ensures r == if id in old(transactions) && old(transactions)[id].ceremony == ceremony
                   then Ok(old(transactions)[id]) else Err(InvalidToken)
    {
      if id in transactions {
        var t := transactions[id];
        transactions := transactions - {id};
        if t.ceremony == ceremony {
          return Ok(t);
        }
        transactions := transactions[id := t];
        assert transactions == old(transactions);
      }
      return Err(InvalidToken);
    }

    method FinishRegistration(libs: Libs, t: Transaction, userId: string, responseText: string)
      returns (r: Result<(), Refusal>)
      requires Valid()
      modifies this
      ensures Valid() && View() == FinishedRegistration(libs, old(View()), t, userId, responseText)
      ensures r.Ok? <==> RegistrationOf(libs, t, responseText).Ok?
      ensures r.Ok? <==> SomethingOffered(libs, t, responseText)
      ensures r.Err? ==> View() == old(View())
    {
      hide SomethingOffered, RegistrationOf;
      OfferedIffOk(libs, t, responseText);
      var proved :- RegistrationOf(libs, t, responseText);
      var (id, key, signCount) := proved;
      RegisteredGood(View(), userId, id, key, signCount);
      var creds := if userId in credentials then credentials[userId] else [];
      credentials := credentials[userId := Others(creds, id) + [Credential(id, userId, key, signCount)]];
      return Ok(());
    }

    method FinishAssertion(libs: Libs, t: Transaction, responseText: string) returns (r: Result<string, Refusal>)
      requires Valid()
      modifies this
      ensures Valid() && View() == FinishedAssertion(libs, old(View()), t, responseText)
      ensures r.Ok? <==> AssertionOf(libs, CredentialsOf(old(View()), t.userId), t, responseText).Ok?
      ensures r.Ok? <==> SomeoneSigned(libs, CredentialsOf(old(View()), t.userId), t, responseText)
      ensures r.Ok? ==> r.value == t.userId
      ensures r.Err? ==> View() == old(View())
    {
      hide SomeoneSigned, AssertionOf;
      var creds := if t.userId in credentials then credentials[t.userId] else [];
      SignedIffOk(libs, creds, t, responseText);
      var proved :- AssertionOf(libs, creds, t, responseText);
      var (i, signCount) := proved;
      credentials := credentials[t.userId := creds[i := creds[i].(signCount := signCount)]];
      return Ok(creds[i].userId);
    }

    method Reset()
      modifies this
      ensures Valid() && View() == EMPTY_STATE
    {
      credentials, transactions := map[], map[];
    }
  }

  // ------------------------------------------------------------- one step

  lemma {:induction false} OthersAre(creds: seq<Credential>, id: Bytes)
    ensures forall c :: c in Others(creds, id) <==> c in creds && c.id != id
  {
    if creds != [] { OthersAre(creds[1..], id); }
  }

  ghost predicate DistinctIds(creds: seq<Credential>) {
    forall i, j | 0 <= i < j < |creds| :: creds[i].id != creds[j].id
  }

  lemma {:induction false} OthersDistinct(creds: seq<Credential>, id: Bytes)
    requires DistinctIds(creds)
    ensures DistinctIds(Others(creds, id))
  {
    if creds != [] {
      OthersDistinct(creds[1..], id);
      OthersAre(creds[1..], id);
      var rest := Others(creds[1..], id);
      forall j | 0 <= j < |rest| ensures rest[j].id != creds[0].id {
        assert rest[j] in rest;
      }
    }
  }

  lemma RegisteredGood(s: State, userId: string, id: Bytes, key: CredentialKey, signCount: nat)
    requires Good(s)
    ensures Good(Registered(s, userId, id, key, signCount))
  {
    var creds := CredentialsOf(s, userId);
    var others := Others(creds, id);
    OthersAre(creds, id);
    OthersDistinct(creds, id);
    forall i | 0 <= i < |others| ensures others[i].userId == userId && others[i].id != id {
      assert others[i] in others;
    }
  }

  lemma CountedGood(s: State, userId: string, i: nat, signCount: nat)
    requires Good(s) && i < |CredentialsOf(s, userId)|
    ensures Good(Counted(s, userId, i, signCount))
  {
  }

  // -------------------------------------------------- what the steps leave

  /** A ceremony stays open for less than 300 seconds; the new one is open as it was begun. */
  lemma OpenAfterBegin(s: State, t: Transaction, now: nat, k: string)
    ensures k in Begun(s, t, now).transactions
       <==> k == t.id || (k in s.transactions && now < s.transactions[k].createdAt + 300)
    ensures k in Begun(s, t, now).transactions ==>
              Begun(s, t, now).transactions[k] == if k == t.id then t else s.transactions[k]
    ensures Begun(s, t, now).credentials == s.credentials
  {
  }

  /** An accepted sign-in moves the counter of the credential that signed, and nothing else. */
  lemma CountedWhoSigned(libs: Libs, s: State, t: Transaction, responseText: string, i: nat, signCount: nat)
    requires Asserts(libs, CredentialsOf(s, t.userId), t, responseText, i, signCount)
    ensures t.userId in s.credentials && i < |s.credentials[t.userId]|
    ensures var creds := s.credentials[t.userId];
            FinishedAssertion(libs, s, t, responseText)
            == State(s.credentials[t.userId := creds[i := creds[i].(signCount := signCount)]], s.transactions)
  {
    hide Asserts, AssertionOf;
    AcceptedIffSigned(libs, CredentialsOf(s, t.userId), t, responseText, i, signCount);
  }

  /** An accepted registration files the credential offered, in place of one of the same id, and nothing else. */
  lemma FiledWhatWasOffered(libs: Libs, s: State, t: Transaction, userId: string, responseText: string, id: Bytes,
                            key: CredentialKey, signCount: nat, c: Credential)
    requires Offers(libs, t, responseText, id, key, signCount)
    ensures var s' := FinishedRegistration(libs, s, t, userId, responseText);
            && s'.transactions == s.transactions && userId in s'.credentials
            && s'.credentials - {userId} == s.credentials - {userId}
            && (c in s'.credentials[userId] <==>
                c == Credential(id, userId, key, signCount)
                || (userId in s.credentials && c in s.credentials[userId] && c.id != id))
  {
    hide Offers, RegistrationOf;
    RegisteredIffOffered(libs, t, responseText, id, key, signCount);
    OthersAre(CredentialsOf(s, userId), id);
    var s' := FinishedRegistration(libs, s, t, userId, responseText);
    assert s'.credentials == s.credentials[userId := s'.credentials[userId]];
  }

  /** What is refused leaves the store alone. */
  lemma RefusedLeaves(libs: Libs, s: State, t: Transaction, userId: string, responseText: string)
    ensures !SomethingOffered(libs, t, responseText) ==> FinishedRegistration(libs, s, t, userId, responseText) == s
    ensures !SomeoneSigned(libs, CredentialsOf(s, t.userId), t, responseText) ==>
              FinishedAssertion(libs, s, t, responseText) == s
  {
    hide SomethingOffered, SomeoneSigned;
    OfferedIffOk(libs, t, responseText);
    SignedIffOk(libs, CredentialsOf(s, t.userId), t, responseText);
  }

  lemma {:induction false} PasskeysListed(libs: Libs, creds: seq<Credential>, i: nat)
    ensures |PasskeyList(libs, creds)| == |creds|
    ensures i < |creds| ==> PasskeyList(libs, creds)[i]
                            == Obj(map["type" := Str("public-key"), "id" := Str(libs.encodeB64(creds[i].id))])
  {
    if creds != [] { PasskeysListed(libs, creds[1..], if i > 0 then i - 1 else 0); }
  }

  /** The options name the user's own passkeys, to allow when signing in and to exclude when adding one. */
  lemma OptionsList(libs: Libs, t: Transaction, displayName: string, existing: seq<Credential>)
    ensures var key := if t.ceremony == SignIn then "allowCredentials" else "excludeCredentials";
            var listed := GetPath(OptionsFor(libs, t, displayName, existing), ["publicKey", key]);
            && listed.Arr? && |listed.items| == |existing|
            && forall i | 0 <= i < |existing| :: Child(listed.items[i], "id") == Str(libs.encodeB64(existing[i].id))
  {
    var key := if t.ceremony == SignIn then "allowCredentials" else "excludeCredentials";
    ReadTwo(OptionsFor(libs, t, displayName, existing), "publicKey", key);
    PasskeysListed(libs, existing, 0);
    forall i | 0 <= i < |existing|
      ensures Child(PasskeyList(libs, existing)[i], "id") == Str(libs.encodeB64(existing[i].id))
    {
      PasskeysListed(libs, existing, i);
    }
  }

  /** A new passkey is made for the ceremony's own user. */
  lemma OptionsUser(libs: Libs, t: Transaction, displayName: string, existing: seq<Credential>)
    requires t.ceremony != SignIn
    ensures var user := GetPath(OptionsFor(libs, t, displayName, existing), ["publicKey", "user"]);
            && Child(user, "name") == Str(t.loginId)
            && Child(user, "displayName") == Str(if displayName == "" then t.loginId else displayName)
            && Child(user, "id")
               == Str(libs.encodeB64(libs.codec.utf8(if t.userId == "" then t.loginId else t.userId)))
  {
    ReadTwo(OptionsFor(libs, t, displayName, existing), "publicKey", "user");
  }

  /** A browser that signs in has a minute, and verifies its user if it can. */
  lemma SignInSettings(libs: Libs, t: Transaction, displayName: string, existing: seq<Credential>)
    requires t.ceremony == SignIn
    ensures var o := OptionsFor(libs, t, displayName, existing);
            && GetPath(o, ["publicKey", "timeout"]) == Number(60000.0)
            && GetPath(o, ["publicKey", "userVerification"]) == Str("preferred")
  {
    hide PasskeyList, UserHandle;
    var o := OptionsFor(libs, t, displayName, existing);
    ReadTwo(o, "publicKey", "timeout");
    ReadTwo(o, "publicKey", "userVerification");
  }

  /** One that makes a passkey has as long; the passkey should be discoverable, and no attestation is asked for. */
  lemma CreationSettings(libs: Libs, t: Transaction, displayName: string, existing: seq<Credential>)
    ensures var key := CreationOptions(libs, t, displayName, existing);
            && Child(key, "timeout") == Number(60000.0) && Child(key, "attestation") == Str("none")
            && Child(key, "rp") == Obj(map["id" := Str(t.rpId), "name" := Str(t.rpId)])
            && Child(key, "authenticatorSelection")
               == Obj(map["userVerification" := Str("preferred"), "residentKey" := Str("preferred")])
  {
    hide PasskeyList, UserHandle, KeyKind;
  }

  /** Two kinds of key are taken, the one preferred first. */
  lemma KindsOfKey(libs: Libs, t: Transaction, displayName: string, existing: seq<Credential>)
    requires t.ceremony != SignIn
    ensures GetPath(OptionsFor(libs, t, displayName, existing), ["publicKey", "pubKeyCredParams"])
            == Arr([Obj(map["type" := Str("public-key"), "alg" := Number(-7.0)]),
                    Obj(map["type" := Str("public-key"), "alg" := Number(-257.0)])])
  {
    hide PasskeyList, UserHandle;
    var o := OptionsFor(libs, t, displayName, existing);
    ReadTwo(o, "publicKey", "pubKeyCredParams");
  }

  // ------------------------------------------------------------ whole runs

  datatype Op =
    | Begin(t: Transaction, now: nat)
    | Take(id: string, ceremony: Ceremony)
    | Register(tx: Transaction, userId: string, responseText: string)
    | Assert(tx: Transaction, responseText: string)
    | ResetAll

  function Step(libs: Libs, s: State, op: Op): State {
    match op
    case Begin(t, now) => Begun(s, t, now)
    case Take(id, ceremony) => Taken(s, id, ceremony)
    case Register(tx, userId, responseText) => FinishedRegistration(libs, s, tx, userId, responseText)
    case Assert(tx, responseText) => FinishedAssertion(libs, s, tx, responseText)
    case ResetAll => EMPTY_STATE
  }

  function Run(libs: Libs, s: State, ops: seq<Op>): State
    decreases |ops|
  {
    if ops == [] then s else Run(libs, Step(libs, s, ops[0]), ops[1..])
  }

  /** The ceremonies ever opened, by id. */
  function OpenedAfter(begun: map<string, Transaction>, op: Op): map<string, Transaction> {
    if op.Begin? then begun[op.t.id := op.t] else begun
  }

  ghost predicate Fresh(begun: map<string, Transaction>, ops: seq<Op>)
    decreases |ops|
  {
    ops == [] || ((ops[0].Begin? ==> ops[0].t.id !in begun) && Fresh(OpenedAfter(begun, ops[0]), ops[1..]))
  }

  function OpenedBy(begun: map<string, Transaction>, ops: seq<Op>): map<string, Transaction>
    decreases |ops|
  {
    if ops == [] then begun else OpenedBy(OpenedAfter(begun, ops[0]), ops[1..])
  }

  /** What can be taken is what was opened. */
  ghost predicate WasOpened(s: State, begun: map<string, Transaction>) {
    forall k | k in s.transactions :: k in begun && begun[k] == s.transactions[k]
  }

  lemma StepGood(libs: Libs, s: State, op: Op)
    requires Good(s)
    ensures Good(Step(libs, s, op))
  {
    match op {
      case Register(tx, userId, responseText) =>
        match RegistrationOf(libs, tx, responseText) {
          case Ok((id, key, signCount)) => RegisteredGood(s, userId, id, key, signCount);
          case Err(_) =>
        }
      case Assert(tx, responseText) =>
        match AssertionOf(libs, CredentialsOf(s, tx.userId), tx, responseText) {
          case Ok((i, signCount)) => CountedGood(s, tx.userId, i, signCount);
          case Err(_) =>
        }
      case _ =>
    }
  }

  /** Every run keeps credentials filed under their own user with distinct ids, and opens nothing by itself. */
  lemma {:induction false} RunGood(libs: Libs, s: State, begun: map<string, Transaction>, ops: seq<Op>)
    requires Good(s) && WasOpened(s, begun) && Fresh(begun, ops)
    ensures Good(Run(libs, s, ops)) && WasOpened(Run(libs, s, ops), OpenedBy(begun, ops))
    decreases |ops|
  {
    if ops != [] {
      StepGood(libs, s, ops[0]);
      RunGood(libs, Step(libs, s, ops[0]), OpenedAfter(begun, ops[0]), ops[1..]);
    }
  }

  lemma {:induction false} GoneStaysGone(libs: Libs, s: State, begun: map<string, Transaction>, id: string,
                                         ops: seq<Op>)
    requires id in begun && id !in s.transactions && Fresh(begun, ops)
    ensures id !in Run(libs, s, ops).transactions
    decreases |ops|
  {
    if ops != [] {
      GoneStaysGone(libs, Step(libs, s, ops[0]), OpenedAfter(begun, ops[0]), id, ops[1..]);
    }
  }

  /** A ceremony is taken as the kind it was opened as, as it was opened, and never again in any run. */
  lemma TakenOnceAsItsOwnKind(libs: Libs, s: State, begun: map<string, Transaction>, id: string, ceremony: Ceremony,
                              later: seq<Op>)
    requires WasOpened(s, begun) && Fresh(begun, later)
    requires Taken(s, id, ceremony) != s
    ensures id in begun && begun[id] == s.transactions[id] && begun[id].ceremony == ceremony
    ensures id !in Run(libs, Taken(s, id, ceremony), later).transactions
  {
    GoneStaysGone(libs, Taken(s, id, ceremony), begun, id, later);
  }

  /** A ceremony asked for as another kind is refused and stays open. */
  lemma OtherKindLeavesOpen(s: State, id: string, ceremony: Ceremony)
    ensures Taken(s, id, ceremony) == s <==> id !in s.transactions || s.transactions[id].ceremony != ceremony
  {
    if id in s.transactions && s.transactions[id].ceremony == ceremony {
      assert id !in Taken(s, id, ceremony).transactions;
    }
  }

  /** Only an accepted response for that very user changes a user's passkeys, and an accepted sign-in changes no id or
      key. */
  lemma OnlyOwnResponsesTouchPasskeys(libs: Libs, s: State, op: Op, userId: string)
    requires !op.ResetAll?
    ensures (op.Register? && op.userId == userId && RegistrationOf(libs, op.tx, op.responseText).Ok?)
         || (op.Assert? && op.tx.userId == userId
             && AssertionOf(libs, CredentialsOf(s, userId), op.tx, op.responseText).Ok?
             && |CredentialsOf(Step(libs, s, op), userId)| == |CredentialsOf(s, userId)|
             && forall i | 0 <= i < |CredentialsOf(s, userId)| ::
                  CredentialsOf(Step(libs, s, op), userId)[i].(signCount := 0)
                    == CredentialsOf(s, userId)[i].(signCount := 0))
         || CredentialsOf(Step(libs, s, op), userId) == CredentialsOf(s, userId)
  {
  }

  // ------------------------------------------------------ a passkey's life

  /** A software authenticator's answers. `sign` signs with the private half of `Es256(x, y)`. */
  datatype Authenticator = Authenticator(x: Bytes, y: Bytes, credentialId: Bytes, sign: Bytes -> Bytes)

  function ClientData(libs: Libs, kind: string, options: Json): Bytes {
    libs.jsonBytes(Obj(map["type" := Str(kind), "challenge" := GetPath(options, ["publicKey", "challenge"]),
                           "origin" := Str("http://localhost:4200")]))
  }

  function Attestation(authData: Bytes): Cbor {
    Map([(Text("fmt"), Text("none")), (Text("attStmt"), Map([])), (Text("authData"), Octets(authData))])
  }

  function CreateJson(libs: Libs, id: Bytes, attestation: Cbor, clientData: Bytes): (r: Json)
    ensures NumberFree(r)
  {
    var response := Obj(map["attestationObject" := Str(libs.encodeB64(libs.codec.writeCbor(attestation))),
                            "clientDataJSON" := Str(libs.encodeB64(clientData))]);
    assert NumberFree(response);
    Obj(map["rawId" := Str(libs.encodeB64(id)), "response" := response])
  }

  function GetJson(libs: Libs, id: Bytes, authData: Bytes, clientData: Bytes, signature: Bytes): (r: Json)
    ensures NumberFree(r)
  {
    var response := Obj(map["authenticatorData" := Str(libs.encodeB64(authData)),
                            "clientDataJSON" := Str(libs.encodeB64(clientData)),
                            "signature" := Str(libs.encodeB64(signature))]);
    assert NumberFree(response);
    Obj(map["rawId" := Str(libs.encodeB64(id)), "response" := response])
  }

  function CreateResponse(libs: Libs, a: Authenticator, options: Json, signCount: nat): string
    requires signCount < 0x1_0000_0000
  {
    var rp := GetPath(options, ["publicKey", "rp", "id"]);
    var authData := Encoded(libs.codec, if rp.Str? then rp.s else "", signCount, true, a.credentialId, a.x, a.y);
    libs.jsonText(CreateJson(libs, a.credentialId, Attestation(authData), ClientData(libs, "webauthn.create", options)))
  }

  function GetResponse(libs: Libs, a: Authenticator, options: Json, signCount: nat): string
    requires signCount < 0x1_0000_0000
  {
    var rp := GetPath(options, ["publicKey", "rpId"]);
    var authData := Encoded(libs.codec, if rp.Str? then rp.s else "", signCount, false, a.credentialId, a.x, a.y);
    var clientData := ClientData(libs, "webauthn.get", options);
    libs.jsonText(GetJson(libs, a.credentialId, authData, clientData, a.sign(authData + libs.codec.sha256(clientData))))
  }

  /** Client data of the right kind, with the transaction's challenge, passes. */
  lemma ClientDataPasses(libs: Libs, response: Json, t: Transaction, raw: Bytes, clientData: Json)
    requires B64Field(libs, response, ["response", "clientDataJSON"]) == Ok(raw)
             && libs.parseJsonBytes(raw) == Some(clientData)
    requires Child(clientData, "type") == Str(ClientDataType(t.ceremony))
    requires Child(clientData, "challenge").Str?
             && libs.decodeB64(Child(clientData, "challenge").s) == Some(t.challenge)
    ensures CheckClientData(libs, response, t) == Ok(raw)
  {
  }

  lemma ClientDataChecks(libs: Libs, t: Transaction, options: Json, response: Json)
    requires libs.Valid() && GetPath(options, ["publicKey", "challenge"]) == Str(libs.encodeB64(t.challenge))
    requires GetPath(response, ["response", "clientDataJSON"])
             == Str(libs.encodeB64(ClientData(libs, ClientDataType(t.ceremony), options)))
    ensures CheckClientData(libs, response, t) == Ok(ClientData(libs, ClientDataType(t.ceremony), options))
  {
    var kind, challenge := ClientDataType(t.ceremony), GetPath(options, ["publicKey", "challenge"]);
    var cd := Obj(map["type" := Str(kind), "challenge" := challenge, "origin" := Str("http://localhost:4200")]);
    assert ClientData(libs, kind, options) == libs.jsonBytes(cd);
    assert Child(cd, "type") == Str(kind) && Child(cd, "challenge") == challenge;
    assert NumberFree(cd);
    ClientDataPasses(libs, response, t, libs.jsonBytes(cd), cd);
  }

  lemma OptionsRead(libs: Libs, t: Transaction, displayName: string, existing: seq<Credential>)
    ensures var o := OptionsFor(libs, t, displayName, existing);
            GetPath(o, ["publicKey", "challenge"]) == Str(libs.encodeB64(t.challenge))
            && (t.ceremony == SignIn ==> GetPath(o, ["publicKey", "rpId"]) == Str(t.rpId))
            && (t.ceremony != SignIn ==> GetPath(o, ["publicKey", "rp", "id"]) == Str(t.rpId))
  {
    var o := OptionsFor(libs, t, displayName, existing);
    ReadTwo(o, "publicKey", "challenge");
    ReadTwo(o, "publicKey", "rpId");
    ReadThree(o, "publicKey", "rp", "id");
  }

  lemma RegistrationAccepted(libs: Libs, t: Transaction, responseText: string, response: Json, bytes: Bytes,
                             attestation: Cbor, authData: Bytes, id: Bytes, key: CredentialKey, signCount: nat)
    requires libs.parseJson(responseText) == Some(response) && CheckClientData(libs, response, t).Ok?
    requires B64Field(libs, response, ["response", "attestationObject"]) == Ok(bytes)
    requires libs.codec.readCbor(bytes) == Some(attestation) && attestation.Map?
    requires CborMapGet(attestation.entries, "authData") == Some(Octets(authData))
    requires ParseAuthData(libs.codec, authData, t.rpId) == Ok(Parsed(signCount, Some((id, key))))
    ensures RegistrationOf(libs, t, responseText) == Ok((id, key, signCount))
  {
  }

  lemma B64Reads(libs: Libs, response: Json, path: seq<string>, bytes: Bytes)
    requires libs.Valid() && GetPath(response, path) == Str(libs.encodeB64(bytes))
    ensures B64Field(libs, response, path) == Ok(bytes)
  {
    assert libs.decodeB64(libs.encodeB64(bytes)) == Some(bytes);
  }

  lemma AuthDataFound(entries: seq<(Cbor, Cbor)>, data: Cbor)
    requires |entries| == 3 && entries[2] == (Text("authData"), data)
    requires entries[0].0 == Text("fmt") && entries[1].0 == Text("attStmt")
    ensures CborMapGet(entries, "authData") == Some(data)
  {
    assert entries[1..][0] == entries[1] && entries[1..][1..][0] == entries[2];
    assert CborMapGet(entries[1..][1..], "authData") == Some(data);
    assert CborMapGet(entries[1..], "authData") == CborMapGet(entries[1..][1..], "authData");
  }

  /** What the authenticator creates for the options is accepted, and is its own credential. */
  lemma CreatedIsAccepted(libs: Libs, a: Authenticator, t: Transaction, displayName: string, existing: seq<Credential>,
                          signCount: nat)
    requires libs.Valid() && t.ceremony != SignIn && signCount < 0x1_0000_0000 && |a.credentialId| < 0x1_0000
    ensures RegistrationOf(libs, t, CreateResponse(libs, a, OptionsFor(libs, t, displayName, existing), signCount))
            == Ok((a.credentialId, Es256(a.x, a.y), signCount))
  {
    var o := OptionsFor(libs, t, displayName, existing);
    OptionsRead(libs, t, displayName, existing);
    var authData := Encoded(libs.codec, t.rpId, signCount, true, a.credentialId, a.x, a.y);
    var attestation := Attestation(authData);
    var response := CreateJson(libs, a.credentialId, attestation, ClientData(libs, "webauthn.create", o));
    assert libs.parseJson(libs.jsonText(response)) == Some(response);
    CreateJsonReads(libs, a.credentialId, attestation, ClientData(libs, "webauthn.create", o));
    ClientDataChecks(libs, t, o, response);
    assert libs.codec.readCbor(libs.codec.writeCbor(attestation)) == Some(attestation);
    AuthDataFound(attestation.entries, Octets(authData));
    RoundTripIffIdFits(libs.codec, t.rpId, signCount, a.credentialId, a.x, a.y);
    RegistrationAccepted(libs, t, libs.jsonText(response), response, libs.codec.writeCbor(attestation), attestation,
                         authData, a.credentialId, Es256(a.x, a.y), signCount);
  }

  lemma AssertionAccepted(libs: Libs, creds: seq<Credential>, t: Transaction, responseText: string, response: Json,
                          clientData: Bytes, id: Bytes, i: nat, authData: Bytes, signature: Bytes, signCount: nat)
    requires libs.parseJson(responseText) == Some(response) && CheckClientData(libs, response, t) == Ok(clientData)
    requires B64Field(libs, response, ["rawId"]) == Ok(id) && FindCredential(creds, id) == Some(i)
    requires B64Field(libs, response, ["response", "authenticatorData"]) == Ok(authData)
    requires ParseAuthData(libs.codec, authData, t.rpId) == Ok(Parsed(signCount, None))
    requires B64Field(libs, response, ["response", "signature"]) == Ok(signature)
    requires libs.verify(creds[i].key, authData + libs.codec.sha256(clientData), signature)
    ensures AssertionOf(libs, creds, t, responseText) == Ok((i, signCount))
  {
  }

  lemma GetJsonReads(libs: Libs, id: Bytes, authData: Bytes, clientData: Bytes, signature: Bytes)
    requires libs.Valid()
    ensures var response := GetJson(libs, id, authData, clientData, signature);
            && GetPath(response, ["response", "clientDataJSON"]) == Str(libs.encodeB64(clientData))
            && B64Field(libs, response, ["rawId"]) == Ok(id)
            && B64Field(libs, response, ["response", "authenticatorData"]) == Ok(authData)
            && B64Field(libs, response, ["response", "signature"]) == Ok(signature)
  {
    var response := GetJson(libs, id, authData, clientData, signature);
    ReadOne(response, "rawId");
    ReadTwo(response, "response", "clientDataJSON");
    ReadTwo(response, "response", "authenticatorData");
    ReadTwo(response, "response", "signature");
    B64Reads(libs, response, ["rawId"], id);
    B64Reads(libs, response, ["response", "authenticatorData"], authData);
    B64Reads(libs, response, ["response", "signature"], signature);
  }

  lemma CreateJsonReads(libs: Libs, id: Bytes, attestation: Cbor, clientData: Bytes)
    requires libs.Valid()
    ensures var response := CreateJson(libs, id, attestation, clientData);
            && GetPath(response, ["response", "clientDataJSON"]) == Str(libs.encodeB64(clientData))
            && B64Field(libs, response, ["response", "attestationObject"]) == Ok(libs.codec.writeCbor(attestation))
  {
    var response := CreateJson(libs, id, attestation, clientData);
    ReadTwo(response, "response", "clientDataJSON");
    ReadTwo(response, "response", "attestationObject");
    B64Reads(libs, response, ["response", "attestationObject"], libs.codec.writeCbor(attestation));
  }

  /** What the authenticator signs for the options is accepted for a user who holds its credential, whatever else they
      hold. */
  lemma SignedIsAccepted(libs: Libs, a: Authenticator, t: Transaction, displayName: string, creds: seq<Credential>,
                         i: nat, signCount: nat)
    requires libs.Valid() && t.ceremony == SignIn && signCount < 0x1_0000_0000
    requires forall m :: libs.verify(Es256(a.x, a.y), m, a.sign(m))
    requires i < |creds| && DistinctIds(creds) && creds[i].id == a.credentialId && creds[i].key == Es256(a.x, a.y)
    ensures AssertionOf(libs, creds, t, GetResponse(libs, a, OptionsFor(libs, t, displayName, creds), signCount))
            == Ok((i, signCount))
  {
    var o := OptionsFor(libs, t, displayName, creds);
    OptionsRead(libs, t, displayName, creds);
    var authData := Encoded(libs.codec, t.rpId, signCount, false, a.credentialId, a.x, a.y);
    var clientData := ClientData(libs, "webauthn.get", o);
    var message := authData + libs.codec.sha256(clientData);
    var response := GetJson(libs, a.credentialId, authData, clientData, a.sign(message));
    assert libs.parseJson(libs.jsonText(response)) == Some(response);
    GetJsonReads(libs, a.credentialId, authData, clientData, a.sign(message));
    ClientDataChecks(libs, t, o, response);
    PlainRoundTrip(libs.codec, t.rpId, signCount, a.credentialId, a.x, a.y);
    var found := FindCredential(creds, a.credentialId);
    assert found == Some(i);
    AssertionAccepted(libs, creds, t, libs.jsonText(response), response, clientData, a.credentialId, i, authData,
                      a.sign(message), signCount);
  }

  /** A passkey registered for a user signs that user in later, whatever happened to other users' passkeys in
      between. */
  lemma RegisteredPasskeySignsIn(libs: Libs, a: Authenticator, s: State, t1: Transaction, name1: string, count1: nat,
                                 userId: string, s': State, t2: Transaction, name2: string, count2: nat)
    requires libs.Valid() && Good(s) && Good(s') && |a.credentialId| < 0x1_0000
    requires t1.ceremony != SignIn && t2.ceremony == SignIn && t2.userId == userId
    requires count1 < 0x1_0000_0000 && count2 < 0x1_0000_0000
    requires forall m :: libs.verify(Es256(a.x, a.y), m, a.sign(m))
    requires var created := CreateResponse(libs, a, OptionsFor(libs, t1, name1, CredentialsOf(s, t1.userId)), count1);
             CredentialsOf(s', userId) == CredentialsOf(FinishedRegistration(libs, s, t1, userId, created), userId)
    ensures var creds := CredentialsOf(s', userId);
            var r := AssertionOf(libs, creds, t2, GetResponse(libs, a, OptionsFor(libs, t2, name2, creds), count2));
            r.Ok? && creds[r.value.0].id == a.credentialId && creds[r.value.0].userId == userId
  {
    CreatedIsAccepted(libs, a, t1, name1, CredentialsOf(s, t1.userId), count1);
    var creds := CredentialsOf(s', userId);
    SignedIsAccepted(libs, a, t2, name2, creds, |creds| - 1, count2);
  }
}
