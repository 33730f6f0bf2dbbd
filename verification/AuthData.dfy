/** Authenticator data (sections 6.1 and 6.5.1 of Web Authentication Level 2): the parser, and the encoder of a software
    authenticator. */
module AuthData {
  import opened Bytes
  import opened Wrappers

  const COSE_ES256: int := -7
  const COSE_RS256: int := -257

  /** The bits of the flags octet, by their weight. */
  const FLAG_USER_PRESENT: nat := 0x01
  const FLAG_USER_VERIFIED: nat := 0x04
  const FLAG_ATTESTED_CREDENTIAL: nat := 0x40

  predicate HasFlag(flags: byte, weight: nat)
    requires weight > 0
  {
    flags as nat / weight % 2 == 1
  }

  datatype Cbor = Integer(i: int) | Octets(bytes: Bytes) | Text(s: string) | Map(entries: seq<(Cbor, Cbor)>) | Other

  datatype CredentialKey = Es256(x: Bytes, y: Bytes) | Rs256(n: Bytes, e: Bytes)

  /** Hashing and CBOR, as the libraries do them. */
  datatype Codec = Codec(sha256: Bytes -> Bytes, utf8: string -> Bytes, readCbor: Bytes -> Option<Cbor>,
                         writeCbor: Cbor -> Bytes) {
    ghost predicate Valid() {
      && (forall b :: |sha256(b)| == 32)
      && (forall v :: readCbor(writeCbor(v)) == Some(v))
    }
  }

  datatype Refusal =
    | NotJson | NotCbor | MissingField | NotBase64 | OtherCeremony | NoChallenge | OtherChallenge
    | TooShort | OtherRelyingParty | UserNotPresent | CredentialTooShort | IdCutShort
    | KeyIncomplete | UnknownAlgorithm | NoAuthData | NoCredential | UnknownCredential | BadSignature

  datatype Parsed = Parsed(signCount: nat, attested: Option<(Bytes, CredentialKey)>)

  function CoseGet(cose: Cbor, key: int): Option<Cbor> {
    if cose.Map? then CoseFind(cose.entries, key) else None
  }

  function CoseFind(entries: seq<(Cbor, Cbor)>, key: int): Option<Cbor> {
    if entries == [] then None
    else if entries[0].0 == Integer(key) then Some(entries[0].1)
    else CoseFind(entries[1..], key)
  }

  function CoseBytes(cose: Cbor, key: int): Result<Bytes, Refusal> {
    var v := CoseGet(cose, key);
    if v.Some? && v.value.Octets? then Ok(v.value.bytes) else Err(KeyIncomplete)
  }

  function ParseCoseKey(cose: Cbor): Result<CredentialKey, Refusal> {
    var alg := CoseGet(cose, 3);
    if alg == Some(Integer(COSE_ES256)) then
      var x :- CoseBytes(cose, -2);
      var y :- CoseBytes(cose, -3);
      Ok(Es256(x, y))
    else if alg == Some(Integer(COSE_RS256)) then
      var n :- CoseBytes(cose, -1);
      var e :- CoseBytes(cose, -2);
      Ok(Rs256(n, e))
    else Err(UnknownAlgorithm)
  }

  function ParseKeyBytes(codec: Codec, bytes: Bytes): Result<CredentialKey, Refusal> {
    var cose := codec.readCbor(bytes);
    if cose.None? then Err(NotCbor) else ParseCoseKey(cose.value)
  }

  /** Total on every byte string: no slice is ever out of range. */
  function ParseAuthData(codec: Codec, data: Bytes, rpId: string): Result<Parsed, Refusal> {
    if |data| < 37 then Err(TooShort)
    else if data[..32] != codec.sha256(codec.utf8(rpId)) then Err(OtherRelyingParty)
    else
      var flags := data[32];
      if !HasFlag(flags, FLAG_USER_PRESENT) then Err(UserNotPresent)
      else
        var signCount := FromBe32(data[33], data[34], data[35], data[36]);
        if !HasFlag(flags, FLAG_ATTESTED_CREDENTIAL) then Ok(Parsed(signCount, None))
        else
          var rest := data[37..];
          if |rest| < 18 then Err(CredentialTooShort)
          else
            var idLen := FromBe16(rest[16], rest[17]);
            var tail := rest[18..];
            if |tail| < idLen then Err(IdCutShort)
            else
              var key :- ParseKeyBytes(codec, tail[idLen..]);
              Ok(Parsed(signCount, Some((tail[..idLen], key))))
  }

  // ------------------------------------------------------------ the format

  const NO_AAGUID: Bytes := seq(16, _ => 0 as byte)

  /** The header every authenticator data starts with. */
  function Header(codec: Codec, rpId: string, flags: byte, signCount: nat): Bytes
    requires signCount < 0x1_0000_0000
  {
    codec.sha256(codec.utf8(rpId)) + [flags] + Be32(signCount)
  }

  /** The attested credential data of a credential. */
  function Attested(aaguid: Bytes, id: Bytes, keyBytes: Bytes): Bytes {
    aaguid + Be16(|id| % 0x1_0000) + id + keyBytes
  }

  /** The COSE map of a P-256 public key, as the software authenticator writes it. */
  function CoseKey(x: Bytes, y: Bytes): Cbor {
    Map([(Integer(1), Integer(2)), (Integer(3), Integer(COSE_ES256)), (Integer(-1), Integer(1)),
         (Integer(-2), Octets(x)), (Integer(-3), Octets(y))])
  }

  lemma {:induction false} FindsFirst(entries: seq<(Cbor, Cbor)>, key: int, i: nat)
    requires i < |entries| && entries[i].0 == Integer(key)
    requires forall j | 0 <= j < i :: entries[j].0 != Integer(key)
    ensures CoseFind(entries, key) == Some(entries[i].1)
  {
    if i > 0 { FindsFirst(entries[1..], key, i - 1); }
  }

  lemma CoseKeyParses(x: Bytes, y: Bytes)
    ensures ParseCoseKey(CoseKey(x, y)) == Ok(Es256(x, y))
  {
    var entries := CoseKey(x, y).entries;
    FindsFirst(entries, 3, 1);
    FindsFirst(entries, -2, 3);
    FindsFirst(entries, -3, 4);
  }

  /** A software authenticator: a P-256 public key, one credential, a counter that wraps at 32 bits. */
  class SoftAuthenticator {
    var x: Bytes
    var y: Bytes
    var credentialId: Bytes
    var signCount: nat

    ghost predicate Valid()
      reads this
    {
      signCount < 0x1_0000_0000
    }

    constructor (x: Bytes, y: Bytes, credentialId: Bytes)
      ensures Valid() && this.x == x && this.y == y && this.credentialId == credentialId && signCount == 0
    {
      this.x, this.y, this.credentialId, signCount := x, y, credentialId, 0;
    }

    /** Count up, and append the parts to one buffer. */
    method AuthData(codec: Codec, rpId: string, attested: bool) returns (data: Bytes)
      requires Valid()
      modifies this`signCount
      ensures Valid() && signCount == (old(signCount) + 1) % 0x1_0000_0000
      ensures data == Encoded(codec, rpId, signCount, attested, credentialId, x, y)
    {
      signCount := (signCount + 1) % 0x1_0000_0000;
      data := codec.sha256(codec.utf8(rpId));
      var flags := FLAG_USER_PRESENT + FLAG_USER_VERIFIED + if attested then FLAG_ATTESTED_CREDENTIAL else 0;
      data := data + [flags as byte];
      data := data + Be32(signCount);
      if attested {
        var header := data;
        data := data + NO_AAGUID;
        data := data + Be16(|credentialId| % 0x1_0000);
        data := data + credentialId;
        data := data + codec.writeCbor(CoseKey(x, y));
        assert data == header + Attested(NO_AAGUID, credentialId, codec.writeCbor(CoseKey(x, y)));
      }
    }
  }

  function Encoded(codec: Codec, rpId: string, signCount: nat, attested: bool, id: Bytes, x: Bytes, y: Bytes): Bytes
    requires signCount < 0x1_0000_0000
  {
    var flags := (FLAG_USER_PRESENT + FLAG_USER_VERIFIED + if attested then FLAG_ATTESTED_CREDENTIAL else 0) as byte;
    Header(codec, rpId, flags, signCount) + if attested then Attested(NO_AAGUID, id, codec.writeCbor(CoseKey(x, y)))
                                            else []
  }

  // ---------------------------------------------------------- round trips

  lemma HeaderReads(codec: Codec, rpId: string, flags: byte, signCount: nat, rest: Bytes)
    requires codec.Valid() && signCount < 0x1_0000_0000
    ensures var d := Header(codec, rpId, flags, signCount) + rest;
            |d| == 37 + |rest| && d[..32] == codec.sha256(codec.utf8(rpId)) && d[32] == flags
            && FromBe32(d[33], d[34], d[35], d[36]) == signCount && d[37..] == rest
  {
    var hash := codec.sha256(codec.utf8(rpId));
    assert |hash| == 32;
    var d := Header(codec, rpId, flags, signCount) + rest;
    var c := Be32(signCount);
    assert d[..32] == hash;
    assert d[33] == c[0] && d[34] == c[1] && d[35] == c[2] && d[36] == c[3];
  }

  lemma AttestedReads(aaguid: Bytes, id: Bytes, keyBytes: Bytes)
    requires |aaguid| == 16
    ensures var rest := Attested(aaguid, id, keyBytes);
            |rest| == 18 + |id| + |keyBytes| && FromBe16(rest[16], rest[17]) == |id| % 0x1_0000
            && rest[18..] == id + keyBytes
  {
    var l := Be16(|id| % 0x1_0000);
    FourParts(aaguid, l, id, keyBytes);
  }

  lemma FourParts(a: Bytes, l: Bytes, id: Bytes, k: Bytes)
    requires |a| == 16 && |l| == 2
    ensures var rest := a + l + id + k; rest[16] == l[0] && rest[17] == l[1] && rest[18..] == id + k
  {
    var rest := a + l + id + k;
    assert rest == (a + l) + (id + k);
    assert (a + l)[16] == l[0] && (a + l)[17] == l[1];
  }

  /** Without a credential, the parser returns exactly the counter written. */
  lemma PlainRoundTrip(codec: Codec, rpId: string, signCount: nat, id: Bytes, x: Bytes, y: Bytes)
    requires codec.Valid() && signCount < 0x1_0000_0000
    ensures ParseAuthData(codec, Encoded(codec, rpId, signCount, false, id, x, y), rpId) == Ok(Parsed(signCount, None))
  {
    HeaderReads(codec, rpId, 0x05, signCount, []);
  }

  /** With a credential, it returns exactly the counter, id and key written, if and only if the id's length fits its two
      octets. */
  lemma RoundTripIffIdFits(codec: Codec, rpId: string, signCount: nat, id: Bytes, x: Bytes, y: Bytes)
    requires codec.Valid() && signCount < 0x1_0000_0000
    ensures ParseAuthData(codec, Encoded(codec, rpId, signCount, true, id, x, y), rpId)
            == Ok(Parsed(signCount, Some((id, Es256(x, y)))))
       <==> |id| < 0x1_0000
  {
    var keyBytes := codec.writeCbor(CoseKey(x, y));
    var rest := Attested(NO_AAGUID, id, keyBytes);
    HeaderReads(codec, rpId, 0x45, signCount, rest);
    AttestedReads(NO_AAGUID, id, keyBytes);
    CoseKeyParses(x, y);
    if |id| < 0x1_0000 {
      assert (id + keyBytes)[|id|..] == keyBytes && (id + keyBytes)[..|id|] == id;
    } else {
      assert |rest[18..][..|id| % 0x1_0000]| < |id|;
    }
  }

  ghost predicate LaidOut(codec: Codec, data: Bytes, rpId: string, signCount: nat, id: Bytes, flags: byte,
                          aaguid: Bytes, keyBytes: Bytes)
  {
    && signCount < 0x1_0000_0000 && |aaguid| == 16
    && data == Header(codec, rpId, flags, signCount) + Attested(aaguid, id, keyBytes)
  }

  lemma SplitLayout(codec: Codec, data: Bytes, rpId: string, signCount: nat, id: Bytes)
    requires codec.Valid() && |data| >= 55 && data[..32] == codec.sha256(codec.utf8(rpId))
    requires signCount == FromBe32(data[33], data[34], data[35], data[36])
    requires var rest := data[37..];
             |id| == FromBe16(rest[16], rest[17]) && |id| <= |rest| - 18 && id == rest[18..][..|id|]
    ensures LaidOut(codec, data, rpId, signCount, id, data[32], data[37..][..16], data[37..][18..][|id|..])
  {
    var rest := data[37..];
    var tail := rest[18..];
    Be32OfFrom(data[33], data[34], data[35], data[36]);
    Be16OfFrom(rest[16], rest[17]);
    assert tail == id + tail[|id|..];
    assert rest == rest[..16] + [rest[16], rest[17]] + tail;
    assert rest == Attested(rest[..16], id, tail[|id|..]);
    assert data == data[..32] + [data[32]] + ([data[33], data[34]] + [data[35], data[36]]) + rest;
  }

  /** The data is laid out as the standard says around the credential, for this relying party, with the user present. */
  ghost predicate Carries(codec: Codec, data: Bytes, rpId: string, signCount: nat, id: Bytes, key: CredentialKey,
                          flags: byte, aaguid: Bytes, keyBytes: Bytes)
  {
    && LaidOut(codec, data, rpId, signCount, id, flags, aaguid, keyBytes)
    && HasFlag(flags, FLAG_USER_PRESENT) && HasFlag(flags, FLAG_ATTESTED_CREDENTIAL)
    && ParseKeyBytes(codec, keyBytes) == Ok(key)
  }

  lemma AcceptedCarries(codec: Codec, data: Bytes, rpId: string, signCount: nat, id: Bytes, key: CredentialKey)
    requires codec.Valid() && ParseAuthData(codec, data, rpId) == Ok(Parsed(signCount, Some((id, key))))
    ensures signCount < 0x1_0000_0000 && |id| < 0x1_0000
    ensures Carries(codec, data, rpId, signCount, id, key, data[32], data[37..][..16], data[37..][18..][|id|..])
  {
    SplitLayout(codec, data, rpId, signCount, id);
  }

  lemma CarriedIsAccepted(codec: Codec, data: Bytes, rpId: string, signCount: nat, id: Bytes, key: CredentialKey,
                          flags: byte, aaguid: Bytes, keyBytes: Bytes)
    requires codec.Valid() && |id| < 0x1_0000 && Carries(codec, data, rpId, signCount, id, key, flags, aaguid, keyBytes)
    ensures ParseAuthData(codec, data, rpId) == Ok(Parsed(signCount, Some((id, key))))
  {
    HeaderReads(codec, rpId, flags, signCount, Attested(aaguid, id, keyBytes));
    AttestedReads(aaguid, id, keyBytes);
    assert (id + keyBytes)[|id|..] == keyBytes && (id + keyBytes)[..|id|] == id;
  }

  /** The parser accepts a credential exactly when the data carries it, with a counter and an id that fit their
      fields. */
  lemma AcceptsIffLaidOut(codec: Codec, data: Bytes, rpId: string, signCount: nat, id: Bytes, key: CredentialKey)
    requires codec.Valid()
    ensures ParseAuthData(codec, data, rpId) == Ok(Parsed(signCount, Some((id, key))))
       <==> signCount < 0x1_0000_0000 && |id| < 0x1_0000
            && exists flags: byte, aaguid: Bytes, keyBytes: Bytes ::
                 Carries(codec, data, rpId, signCount, id, key, flags, aaguid, keyBytes)
  {
    if ParseAuthData(codec, data, rpId) == Ok(Parsed(signCount, Some((id, key)))) {
      AcceptedCarries(codec, data, rpId, signCount, id, key);
    }
    if |id| < 0x1_0000 {
      forall flags: byte, aaguid: Bytes,
             keyBytes: Bytes | Carries(codec, data, rpId, signCount, id, key, flags, aaguid, keyBytes)
        ensures ParseAuthData(codec, data, rpId) == Ok(Parsed(signCount, Some((id, key))))
      {
        CarriedIsAccepted(codec, data, rpId, signCount, id, key, flags, aaguid, keyBytes);
      }
    }
  }

  // ------------------------------------------------- what the parser accepts

  /** What a reader of a CBOR map finds under a label: the first entry with it. */
  ghost predicate FirstUnder(entries: seq<(Cbor, Cbor)>, tag: Cbor, v: Cbor) {
    exists i | 0 <= i < |entries| :: entries[i] == (tag, v) && forall j | 0 <= j < i :: entries[j].0 != tag
  }

  lemma {:induction false} FoundIsFirst(entries: seq<(Cbor, Cbor)>, key: int, v: Cbor)
    ensures CoseFind(entries, key) == Some(v) <==> FirstUnder(entries, Integer(key), v)
  {
    if entries != [] {
      var rest := entries[1..];
      FoundIsFirst(rest, key, v);
      if entries[0].0 == Integer(key) {
        assert FirstUnder(entries, Integer(key), entries[0].1);
      } else {
        FirstInRest(entries, Integer(key), v);
      }
    }
  }

  lemma FirstInRest(entries: seq<(Cbor, Cbor)>, tag: Cbor, v: Cbor)
    requires entries != [] && entries[0].0 != tag
    ensures FirstUnder(entries, tag, v) <==> FirstUnder(entries[1..], tag, v)
  {
    var rest := entries[1..];
    if FirstUnder(entries, tag, v) {
      var i :| 0 <= i < |entries| && entries[i] == (tag, v) && forall j | 0 <= j < i :: entries[j].0 != tag;
      assert rest[i - 1] == (tag, v) && forall j | 0 <= j < i - 1 :: rest[j] == entries[j + 1];
    }
    if FirstUnder(rest, tag, v) {
      var i :| 0 <= i < |rest| && rest[i] == (tag, v) && forall j | 0 <= j < i :: rest[j].0 != tag;
      assert entries[i + 1] == (tag, v);
      forall j | 0 <= j < i + 1 ensures entries[j].0 != tag {
        assert j > 0 ==> entries[j] == rest[j - 1];
      }
    }
  }

  /** A COSE key map (section 7 of RFC 9053, section 2 of RFC 8812): algorithm -7 with both coordinates, or -257 with
      modulus and exponent. */
  ghost predicate IsKey(cose: Cbor, key: CredentialKey) {
    && cose.Map?
    && match key
       case Es256(x, y) =>
         && FirstUnder(cose.entries, Integer(3), Integer(-7))
         && FirstUnder(cose.entries, Integer(-2), Octets(x)) && FirstUnder(cose.entries, Integer(-3), Octets(y))
       case Rs256(n, e) =>
         && FirstUnder(cose.entries, Integer(3), Integer(-257))
         && FirstUnder(cose.entries, Integer(-1), Octets(n)) && FirstUnder(cose.entries, Integer(-2), Octets(e))
  }

  lemma BytesFound(cose: Cbor, key: int, bytes: Bytes)
    requires cose.Map?
    ensures CoseBytes(cose, key) == Ok(bytes) <==> FirstUnder(cose.entries, Integer(key), Octets(bytes))
  {
    FoundIsFirst(cose.entries, key, Octets(bytes));
  }

  lemma NumberFound(cose: Cbor, key: int, n: int)
    requires cose.Map?
    ensures CoseGet(cose, key) == Some(Integer(n)) <==> FirstUnder(cose.entries, Integer(key), Integer(n))
  {
    FoundIsFirst(cose.entries, key, Integer(n));
  }

  /** A key is read exactly from a map that spells it. */
  lemma KeyIff(cose: Cbor, key: CredentialKey)
    ensures ParseCoseKey(cose) == Ok(key) <==> IsKey(cose, key)
  {
    hide FirstUnder, CoseFind;
    if cose.Map? {
      NumberFound(cose, 3, -7);
      NumberFound(cose, 3, -257);
      match key {
        case Es256(x, y) =>
          BytesFound(cose, -2, x);
          BytesFound(cose, -3, y);
        case Rs256(n, e) =>
          BytesFound(cose, -1, n);
          BytesFound(cose, -2, e);
      }
    }
  }

  /** What the software authenticator writes names a P-256 key by the labels of section 7.1 of RFC 9053: key type 2,
      algorithm -7, curve 1, and both coordinates, each once. */
  lemma CoseKeyNamesP256(x: Bytes, y: Bytes)
    ensures var cose := CoseKey(x, y);
            && cose.Map? && |cose.entries| == 5
            && FirstUnder(cose.entries, Integer(1), Integer(2)) && FirstUnder(cose.entries, Integer(3), Integer(-7))
            && FirstUnder(cose.entries, Integer(-1), Integer(1))
            && FirstUnder(cose.entries, Integer(-2), Octets(x)) && FirstUnder(cose.entries, Integer(-3), Octets(y))
  {
    var e := CoseKey(x, y).entries;
    assert e[0] == (Integer(1), Integer(2)) && e[1] == (Integer(3), Integer(-7)) && e[2] == (Integer(-1), Integer(1));
    assert e[3] == (Integer(-2), Octets(x)) && e[4] == (Integer(-3), Octets(y));
  }

  /** The key is encoded in these octets. */
  ghost predicate SpellsKey(codec: Codec, bytes: Bytes, key: CredentialKey) {
    var cose := codec.readCbor(bytes);
    cose.Some? && IsKey(cose.value, key)
  }

  /** Authenticator data for this relying party (section 6.1 of Web Authentication Level 2): its hash, the user-present
      bit, the counter, and the credential exactly if the attested bit is set. */
  ghost predicate Says(codec: Codec, data: Bytes, rpId: string, signCount: nat,
                       attested: Option<(Bytes, CredentialKey)>)
  {
    && 37 <= |data| && data[..32] == codec.sha256(codec.utf8(rpId)) && data[32] as nat % 2 == 1
    && signCount == data[33] as nat * 0x100_0000 + data[34] as nat * 0x1_0000 + data[35] as nat * 0x100
                    + data[36] as nat
    && (attested.Some? <==> data[32] as nat / 64 % 2 == 1)
    && (attested.Some? ==> SaysCredential(codec, data, attested.value.0, attested.value.1))
  }

  /** The credential from octet 37 on: a model id, the length of the id, the id, its key. */
  ghost predicate SaysCredential(codec: Codec, data: Bytes, id: Bytes, key: CredentialKey) {
    && 55 <= |data| && |id| == data[53] as nat * 0x100 + data[54] as nat && 55 + |id| <= |data|
    && data[55..55 + |id|] == id && SpellsKey(codec, data[55 + |id|..], key)
  }

  lemma CredentialRead(codec: Codec, data: Bytes)
    requires 55 <= |data|
    ensures var rest := data[37..];
            FromBe16(rest[16], rest[17]) == data[53] as nat * 0x100 + data[54] as nat && rest[18..] == data[55..]
  {
  }

  lemma TailRead(data: Bytes, n: nat)
    requires 55 + n <= |data|
    ensures data[55..][..n] == data[55..55 + n] && data[55..][n..] == data[55 + n..]
  {
  }

  lemma KeyBytesIff(codec: Codec, bytes: Bytes, key: CredentialKey)
    ensures ParseKeyBytes(codec, bytes) == Ok(key) <==> SpellsKey(codec, bytes, key)
  {
    hide IsKey, ParseCoseKey;
    var cose := codec.readCbor(bytes);
    if cose.Some? {
      KeyIff(cose.value, key);
    }
  }

  /** On arbitrary octets, the parser accepts exactly what authenticator data says. */
  lemma AcceptsIffSays(codec: Codec, data: Bytes, rpId: string, signCount: nat,
                       attested: Option<(Bytes, CredentialKey)>)
    ensures ParseAuthData(codec, data, rpId) == Ok(Parsed(signCount, attested))
       <==> Says(codec, data, rpId, signCount, attested)
  {
    hide SpellsKey, ParseKeyBytes;
    if 55 <= |data| {
      CredentialRead(codec, data);
      var n := data[53] as nat * 0x100 + data[54] as nat;
      if 55 + n <= |data| {
        TailRead(data, n);
        if attested.Some? {
          KeyBytesIff(codec, data[55 + n..], attested.value.1);
        }
      }
    }
  }
}
