/**
  The key-upload payload of `matrix.go`: the signed device-keys record and the
  re-keyed one-time keys that a device sends to a Matrix homeserver's
  `POST /_matrix/client/v3/keys/upload` endpoint.

  The account behind the `Matrix` object is not modelled: its decoded views
  (identity keys and unpublished one-time keys) are inputs, canonical-JSON
  encoding is the parameter `encode`, and the account's ed25519 signing is the
  parameter `sign`.
 */
module Matrix {
  import opened Wrappers

  /** The account's public identity keys, as `GetIdentityKeys` decodes them. */
  datatype IdentityKeys = IdentityKeys(curve25519: string, ed25519: string)

  /** The unpublished one-time keys, key id to public key, as `GetOneTimeKeys` decodes them. */
  datatype OneTimeKeys = OneTimeKeys(curve25519: map<string, string>)

  /** The error a canonical-JSON encoder reports. */
  datatype Error = EncodingError(message: string)

  /** The `device_keys` object of the upload body; `signatures` is absent until signing is done. */
  datatype DeviceKeys = DeviceKeys(
    algorithms: seq<string>,
    deviceId: string,
    keys: map<string, string>,
    signatures: Option<map<string, map<string, string>>>,
    userId: string)

  /** The upload body: `device_keys` and `one_time_keys`. */
  datatype UploadKeysBody = UploadKeysBody(deviceKeys: DeviceKeys, oneTimeKeys: map<string, string>)

  const Curve25519Prefix: string := "curve25519:"
  const Ed25519Prefix: string := "ed25519:"
  const MegolmAlgorithm: string := "m.megolm.v1.aes-sha"
  const OlmAlgorithm: string := "m.olm.curve25519-aes-sha256"

  /** `fmt.Sprintf("curve25519:%s", id)`: the prefix "curve25519:" followed by `id` and nothing else. */
  function Curve25519KeyId(id: string): string
  {
    Curve25519Prefix + id
  }

  /**
    `fmt.Sprintf("ed25519:%s", id)`: the prefix "ed25519:" followed by `id`; it
    is never a "curve25519:" key id, so a device's two identity keys never share
    a name.
   */
  function Ed25519KeyId(id: string): (k: string)
    ensures |k| == |Ed25519Prefix| + |id|
    ensures k[..|Ed25519Prefix|] == Ed25519Prefix && k[|Ed25519Prefix|..] == id
    ensures forall other :: k != Curve25519KeyId(other)
  {
    var k := Ed25519Prefix + id;
    assert forall other :: k[0] != Curve25519KeyId(other)[0];
    k
  }

  /** True iff `k` is a key id of the form "curve25519:" + something. */
  predicate IsCurve25519KeyId(k: string)
  {
    |Curve25519Prefix| <= |k| && k[..|Curve25519Prefix|] == Curve25519Prefix
  }

  /** The key id argument of a "curve25519:" key id. */
  function KeyIdSuffix(k: string): string
    requires IsCurve25519KeyId(k)
  {
    k[|Curve25519Prefix|..]
  }

  lemma Curve25519KeyIdDecodes(id: string)
    ensures IsCurve25519KeyId(Curve25519KeyId(id)) && KeyIdSuffix(Curve25519KeyId(id)) == id
  {
  }

  /** Prefixing with "curve25519:" never maps two key ids to one. */
  lemma Curve25519KeyIdInjective(a: string, b: string)
    ensures Curve25519KeyId(a) == Curve25519KeyId(b) <==> a == b
  {
    if Curve25519KeyId(a) == Curve25519KeyId(b) {
      Curve25519KeyIdDecodes(a);
      Curve25519KeyIdDecodes(b);
    }
  }

  /**
    The `one_time_keys` map of the upload body: every unpublished key `id -> k`
    re-keyed as `"curve25519:" + id -> k`.
   */
  function ReKeyed(m: map<string, string>): map<string, string>
  {
    assert forall a, b :: Curve25519KeyId(a) == Curve25519KeyId(b) ==> a == b by {
      forall a, b { Curve25519KeyIdInjective(a, b); }
    }
    map id | id in m :: Curve25519KeyId(id) := m[id]
  }

  /**
    Every input entry `id -> k` appears as `"curve25519:" + id -> k`, and every
    output key is one of those: it decodes back to an input key id carrying the
    same value.
   */
  lemma ReKeyedEntries(m: map<string, string>)
    ensures forall id :: id in m ==> Curve25519KeyId(id) in ReKeyed(m) && ReKeyed(m)[Curve25519KeyId(id)] == m[id]
    ensures forall k :: k in ReKeyed(m) ==>
      IsCurve25519KeyId(k) && KeyIdSuffix(k) in m && ReKeyed(m)[k] == m[KeyIdSuffix(k)]
  {
    var r := ReKeyed(m);
    forall k | k in r ensures IsCurve25519KeyId(k) && KeyIdSuffix(k) in m && r[k] == m[KeyIdSuffix(k)] {
      var id :| id in m && k == Curve25519KeyId(id);
      Curve25519KeyIdDecodes(id);
    }
  }

  /** Adding one more key to the input adds exactly its re-keyed entry to the output. */
  lemma ReKeyedInsert(m: map<string, string>, id: string, v: string)
    requires id !in m
    ensures Curve25519KeyId(id) !in ReKeyed(m)
    ensures ReKeyed(m[id := v]) == ReKeyed(m)[Curve25519KeyId(id) := v]
  {
    Curve25519KeyIdDecodes(id);
    ReKeyedEntries(m);
    var m', rhs := m[id := v], ReKeyed(m)[Curve25519KeyId(id) := v];
    forall j | j in m' ensures Curve25519KeyId(j) in rhs && rhs[Curve25519KeyId(j)] == m'[j] {
      Curve25519KeyIdInjective(j, id);
    }
    forall k | k in rhs ensures exists j :: j in m' && k == Curve25519KeyId(j) {
      if k == Curve25519KeyId(id) {
        assert id in m';
      } else {
        Curve25519KeyIdDecodes(KeyIdSuffix(k));
        assert KeyIdSuffix(k) in m';
      }
    }
    ReKeyedUnique(m', rhs);
  }

  /** A map with exactly the entries `"curve25519:" + id -> m[id]`, and no others, is `ReKeyed(m)`. */
  lemma ReKeyedUnique(m: map<string, string>, r: map<string, string>)
    requires forall id :: id in m ==> Curve25519KeyId(id) in r && r[Curve25519KeyId(id)] == m[id]
    requires forall k :: k in r ==> exists id :: id in m && k == Curve25519KeyId(id)
    ensures r == ReKeyed(m)
  {
    ReKeyedEntries(m);
    var rk := ReKeyed(m);
    forall k | k in rk ensures k in r {
      Curve25519KeyIdDecodes(KeyIdSuffix(k));
    }
    assert r.Keys == rk.Keys;
  }

  /** The re-keyed map has exactly as many entries as the input: no two one-time keys collide. */
  lemma {:induction false} ReKeyedSize(m: map<string, string>)
    ensures |ReKeyed(m)| == |m|
  {
    if m != map[] {
      var id :| id in m;
      var rest := m - {id};
      ReKeyedSize(rest);
      ReKeyedInsert(rest, id, m[id]);
      assert rest[id := m[id]] == m;
    }
  }

  /** The `device_keys` record before signing (matrix.go:125-138). */
  function UnsignedDeviceKeys(identity: IdentityKeys, deviceId: string, userId: string): (dk: DeviceKeys)
    ensures dk.algorithms == [MegolmAlgorithm, OlmAlgorithm]
    ensures dk.deviceId == deviceId && dk.userId == userId
    ensures dk.keys.Keys == {Curve25519KeyId(deviceId), Ed25519KeyId(deviceId)} && |dk.keys| == 2
    ensures dk.keys[Curve25519KeyId(deviceId)] == identity.curve25519
    ensures dk.keys[Ed25519KeyId(deviceId)] == identity.ed25519
    ensures dk.signatures == None
  {
    assert Curve25519KeyId(deviceId)[0] != Ed25519KeyId(deviceId)[0];
    DeviceKeys(
      [MegolmAlgorithm, OlmAlgorithm],
      deviceId,
      map[Curve25519KeyId(deviceId) := identity.curve25519, Ed25519KeyId(deviceId) := identity.ed25519],
      None,
      userId)
  }

  /**
    `SignObj`: canonically encode `obj`, then sign the encoding. An encoding
    failure is returned as it is, and then `sign` is never consulted.
   */
  function SignObj<T>(encode: T -> Result<string, Error>, sign: string -> string, obj: T): (r: Result<string, Error>)
    ensures r.Failure? <==> encode(obj).Failure?
    ensures r.Failure? ==> r.error == encode(obj).error
    ensures r.Success? ==> r.value == sign(encode(obj).value)
  {
    match encode(obj)
    case Failure(e) => Failure(e)
    case Success(bytes) => Success(sign(bytes))
  }

  /** When encoding fails, `SignObj`'s answer does not depend on the signer at all. */
  lemma SignObjFailureSignsNothing<T>(encode: T -> Result<string, Error>, sign1: string -> string, sign2: string -> string, obj: T)
    requires encode(obj).Failure?
    ensures SignObj(encode, sign1, obj) == SignObj(encode, sign2, obj) == Failure(encode(obj).error)
  {
  }

  /** The record as a verifier sees it: with its `signatures` removed, as the Matrix signing rules ask. */
  function Unsigned(dk: DeviceKeys): DeviceKeys
  {
    dk.(signatures := None)
  }

  /** `deviceKeys.Signatures = {userId: {"ed25519:" + deviceId: signature}}` (matrix.go:145-149). */
  function AttachSignature(dk: DeviceKeys, userId: string, deviceId: string, signature: string): (r: DeviceKeys)
    ensures r.signatures.Some?
    ensures r.signatures.value.Keys == {userId}
    ensures r.signatures.value[userId].Keys == {Ed25519KeyId(deviceId)}
    ensures r.signatures.value[userId][Ed25519KeyId(deviceId)] == signature
    ensures Unsigned(r) == Unsigned(dk)
  {
    dk.(signatures := Some(map[userId := map[Ed25519KeyId(deviceId) := signature]]))
  }

  /**
    The upload body that `UploadKeysParams` builds, or the encoding error that
    stopped it.
   */
  function UploadKeys(
    otk: OneTimeKeys, identity: IdentityKeys, deviceId: string, userId: string,
    encode: DeviceKeys -> Result<string, Error>, sign: string -> string): (r: Result<UploadKeysBody, Error>)
    ensures r.Failure? <==> encode(UnsignedDeviceKeys(identity, deviceId, userId)).Failure?
    ensures r.Failure? ==> r.error == encode(UnsignedDeviceKeys(identity, deviceId, userId)).error
    ensures r.Success? ==> r.value.oneTimeKeys == ReKeyed(otk.curve25519)
    ensures r.Success? ==> Unsigned(r.value.deviceKeys) == UnsignedDeviceKeys(identity, deviceId, userId)
    ensures r.Success? ==>
      r.value.deviceKeys.signatures == Some(map[userId := map[Ed25519KeyId(deviceId) := sign(encode(UnsignedDeviceKeys(identity, deviceId, userId)).value)]])
  {
    var unsigned := UnsignedDeviceKeys(identity, deviceId, userId);
    match SignObj(encode, sign, unsigned)
    case Failure(e) => Failure(e)
    case Success(signature) =>
      Success(UploadKeysBody(AttachSignature(unsigned, userId, deviceId, signature), ReKeyed(otk.curve25519)))
  }

  /**
    Every signature in `dk` is a valid signature, by the key that `dk.keys`
    publishes under the signature's key id, of the canonical encoding of `dk`
    with its `signatures` removed.
   */
  predicate SelfSignatureVerifies(dk: DeviceKeys, encode: DeviceKeys -> Result<string, Error>, verify: (string, string, string) -> bool)
  {
    && dk.signatures.Some?
    && encode(Unsigned(dk)).Success?
    && forall u, kid :: u in dk.signatures.value && kid in dk.signatures.value[u] ==>
         kid in dk.keys && verify(dk.keys[kid], encode(Unsigned(dk)).value, dk.signatures.value[u][kid])
  }

  /**
    A successful upload body carries a signature that a receiver can check: the
    signing key id names the device's own ed25519 key in `keys`, and the
    signature verifies over the body's device keys with `signatures` excluded,
    whenever `verify` accepts what the account's `sign` produces.
   */
  lemma UploadSelfSignatureVerifies(
    otk: OneTimeKeys, identity: IdentityKeys, deviceId: string, userId: string,
    encode: DeviceKeys -> Result<string, Error>, sign: string -> string, verify: (string, string, string) -> bool)
    requires forall msg :: verify(identity.ed25519, msg, sign(msg))
    requires encode(UnsignedDeviceKeys(identity, deviceId, userId)).Success?
    ensures UploadKeys(otk, identity, deviceId, userId, encode, sign).Success?
    ensures SelfSignatureVerifies(UploadKeys(otk, identity, deviceId, userId, encode, sign).value.deviceKeys, encode, verify)
  {
  }

  /** The one-time keys of a successful upload: one entry per unpublished key, each under "curve25519:" + its id. */
  lemma UploadOneTimeKeys(
    otk: OneTimeKeys, identity: IdentityKeys, deviceId: string, userId: string,
    encode: DeviceKeys -> Result<string, Error>, sign: string -> string)
    requires encode(UnsignedDeviceKeys(identity, deviceId, userId)).Success?
    ensures UploadKeys(otk, identity, deviceId, userId, encode, sign).Success?
    ensures var out := UploadKeys(otk, identity, deviceId, userId, encode, sign).value.oneTimeKeys;
      && |out| == |otk.curve25519|
      && (forall id :: id in otk.curve25519 ==> Curve25519KeyId(id) in out && out[Curve25519KeyId(id)] == otk.curve25519[id])
      && (forall k :: k in out ==> exists id :: id in otk.curve25519 && k == Curve25519KeyId(id))
  {
    var out := UploadKeys(otk, identity, deviceId, userId, encode, sign).value.oneTimeKeys;
    ReKeyedSize(otk.curve25519);
    ReKeyedEntries(otk.curve25519);
    forall k | k in out ensures exists id :: id in otk.curve25519 && k == Curve25519KeyId(id) {
      assert k == Curve25519KeyId(KeyIdSuffix(k));
    }
  }

  /**
    The `for id, curve25519Key := range ...` loop of `UploadKeysParams`: insert
    `"curve25519:" + id -> key` for each one-time key, visiting the keys in any
    order.
   */
  method ReKeyOneTimeKeys(m: map<string, string>) returns (oneTimeKeys: map<string, string>)
    ensures oneTimeKeys == ReKeyed(m)
    ensures |oneTimeKeys| == |m|
  {
    oneTimeKeys := map[];
    var pending := m.Keys;
    ghost var done: set<string> := {};
    while pending != {}
      invariant done !! pending && done + pending == m.Keys
      invariant forall id :: id in done ==> Curve25519KeyId(id) in oneTimeKeys && oneTimeKeys[Curve25519KeyId(id)] == m[id]
      invariant forall k :: k in oneTimeKeys ==> exists id :: id in done && k == Curve25519KeyId(id)
      decreases pending
    {
      var id :| id in pending;
      forall other | other in done ensures Curve25519KeyId(other) != Curve25519KeyId(id) {
        Curve25519KeyIdInjective(other, id);
      }
      oneTimeKeys := oneTimeKeys[Curve25519KeyId(id) := m[id]];
      done := done + {id};
      pending := pending - {id};
    }
    ReKeyedUnique(m, oneTimeKeys);
    ReKeyedSize(m);
  }

  /**
    `Matrix.UploadKeysParams`: re-key the one-time keys one at a time, build the
    device-keys record, sign it while it has no `signatures`, then attach the
    signature; an encoding error is returned with no payload.
   */
  method UploadKeysParams(
    otk: OneTimeKeys, identity: IdentityKeys, deviceId: string, userId: string,
    encode: DeviceKeys -> Result<string, Error>, sign: string -> string) returns (r: Result<UploadKeysBody, Error>)
    ensures r == UploadKeys(otk, identity, deviceId, userId, encode, sign)
    ensures r.Success? ==> |r.value.oneTimeKeys| == |otk.curve25519|
  {
    var oneTimeKeys := ReKeyOneTimeKeys(otk.curve25519);

    var deviceKeys := UnsignedDeviceKeys(identity, deviceId, userId);

    var signature := SignObj(encode, sign, deviceKeys);
    if signature.Failure? {
      return Failure(signature.error);
    }

    deviceKeys := deviceKeys.(signatures := Some(map[userId := map[Ed25519KeyId(deviceId) := signature.value]]));

    r := Success(UploadKeysBody(deviceKeys, oneTimeKeys));
  }
}
