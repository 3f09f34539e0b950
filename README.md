# libolm-go key upload, modelled in Dafny

This project models how `libolm-go` builds the body that a Matrix device sends to the
homeserver's end-to-end-encryption key upload (`POST /_matrix/client/v3/keys/upload`).
That body has two parts:

- `device_keys`: a fixed list of algorithms, the device and user ids, and the device's
  curve25519 and ed25519 identity keys under `"<algorithm>:<deviceId>"`. It also carries a
  self-signature under `signatures[userId]["ed25519:<deviceId>"]`.
- `one_time_keys`: the account's unpublished one-time keys, each re-keyed as
  `"curve25519:<keyId>"`.

Following the "Signing JSON" appendix of the Matrix specification, the record is signed
while it has no `signatures` field. The signature is attached only after signing returns.
If canonical encoding fails, the error comes back and no payload is built.

Files:

- `wrappers.dfy`: `Option` and `Result`. `Result` stands for Go's `(value, error)` return pairs.
- `matrix.dfy` (module `Matrix`): the payload datatypes and `SignObj`. It also holds the
  functional reference `UploadKeys`, the imperative `UploadKeysParams` (proved equal to `UploadKeys`)
  with its one-time-key loop `ReKeyOneTimeKeys`, and the lemmas about them.

The account behind the `Matrix` object is a foreign libolm handle, so it enters the model
as inputs:

- its decoded identity keys (`IdentityKeys`);
- its decoded unpublished one-time keys (`OneTimeKeys`);
- `encode`: canonical-JSON encoding, a possibly failing function from a device-keys record
  to bytes;
- `sign`: the account's ed25519 signing, a total function from bytes to a signature, as in
  the source, where `Account.Sign` returns no error.

Go's `range` over a map visits keys in no fixed order. The loop therefore picks its next key
with `:|`, so the proof holds for every visiting order.

Go returns `("", err)` from `SignObj` and `(nil, err)` from `UploadKeysParams`. Here both
become `Failure(err)`.

Order independence of signing needs no lemma. Dafny maps are values, so two records that
differ only in insertion order are the same value, and `encode` gives them the same bytes.

## Model

| member | source | states |
|---|---|---|
| Matrix.Curve25519KeyId | matrix.go:120 | the name `"curve25519:" + id` (also the device key name at line 133); that it decodes back to `id` and never merges two ids is stated by `Curve25519KeyIdDecodes` and `Curve25519KeyIdInjective` |
| Matrix.Ed25519KeyId | matrix.go:134 | the signing key name is exactly the prefix `"ed25519:"` followed by the device id (also the signature key id at line 147), and it never equals any `"curve25519:"` name |
| Matrix.ReKeyed | matrix.go:118-121 | the closed form of the `one_time_keys` map, `"curve25519:" + id -> m[id]` for each input id; its properties are stated by `ReKeyedEntries`, `ReKeyedUnique`, `ReKeyedInsert` and `ReKeyedSize` |
| Matrix.ReKeyedUnique | matrix.go:118-121 | a map holding every `"curve25519:" + id -> m[id]` and nothing else equals `ReKeyed(m)`, so the map the loop builds is determined whatever order it visits the keys in |
| Matrix.ReKeyOneTimeKeys | matrix.go:118-121 | the `range` loop, inserting one re-keyed entry per iteration in any order, returns exactly `ReKeyed` of the input, with as many entries as the input |
| Matrix.Curve25519KeyIdDecodes | matrix.go:120 | `"curve25519:" + id` starts with the prefix, and removing the prefix gives back `id` |
| Matrix.Curve25519KeyIdInjective | matrix.go:120 | two key ids get the same `"curve25519:"` name exactly when they are equal, so re-keying cannot merge two one-time keys |
| Matrix.ReKeyedEntries | matrix.go:118-121 | every input one-time key `id -> k` appears in the output as `"curve25519:" + id -> k`; every output key has the prefix, and its suffix is an input key id with the same value, so no other key appears |
| Matrix.ReKeyedInsert | matrix.go:120 | re-keying one more one-time key adds exactly its `"curve25519:"` entry, under a name not already present |
| Matrix.ReKeyedSize | matrix.go:118-121 | the re-keyed map has exactly as many entries as the input one-time-key map |
| Matrix.UnsignedDeviceKeys | matrix.go:125-138 | the record to be signed: algorithms exactly `["m.megolm.v1.aes-sha", "m.olm.curve25519-aes-sha256"]` in that order; `device_id` and `user_id` are the arguments; `keys` has exactly two entries, `"curve25519:"+deviceId` and `"ed25519:"+deviceId`, holding the two identity keys; no `signatures` |
| Matrix.SignObj | matrix.go:107-115 | fails exactly when encoding fails, with the encoder's error; on success returns the signature of the encoded bytes |
| Matrix.SignObjFailureSignsNothing | matrix.go:108-111 | when encoding fails, the result does not depend on the signer: nothing is signed |
| Matrix.AttachSignature | matrix.go:145-149 | `signatures` has exactly one outer key `userId`, whose inner map has exactly one key `"ed25519:"+deviceId` holding the signature; nothing else changes |
| Matrix.UploadKeys | matrix.go:117-158 | fails exactly when encoding the unsigned record fails, with that error and no payload; on success `one_time_keys` is the re-keyed map, the device keys without their `signatures` are exactly the record that was signed, and `signatures` is `{userId: {"ed25519:"+deviceId: sign(encoding)}}` |
| Matrix.UploadSelfSignatureVerifies | matrix.go:125-149 | if encoding succeeds and a verifier accepts what the account signs under its ed25519 key, then a payload is built and every signature in it verifies. It verifies under the key that `keys` itself publishes for that key id, over the canonical encoding of the device keys with `signatures` excluded |
| Matrix.UploadOneTimeKeys | matrix.go:118-121 | when encoding succeeds, a payload is built, and its `one_time_keys` has as many entries as the input map, contains `"curve25519:"+id -> k` for every input entry, and contains no key that is not of that form |
| Matrix.UploadKeysParams | matrix.go:117-158 | the imperative builder: it re-keys the one-time keys with `ReKeyOneTimeKeys`, signs the record while it has no `signatures`, then sets the field; it returns exactly `UploadKeys` of its inputs, and its one-time-key map has as many entries as the input |

## Left out

- `group_session.go` (outbound group sessions: create, session id, session key, encrypt):
  every operation is a cgo call into libolm, whose behaviour lives in the C library.
  `Encrypt` returns a constant message type and its buffer.
- The randomness panic in `CreateOutboundGroupSession`: it concerns the OS entropy source,
  not logic.
- `NewMatrix`, `Serialize`, `Deserialize` and `MarkPublished`. These are file I/O on
  `state.json`, `encoding/json` and libolm pickling; the ignored errors in `NewMatrix` are
  an I/O policy.
- `GetAccount` only returns the `account` field, which is the libolm handle this model
  does not represent.
- The JSON decoding in `GetIdentityKeys` and `GetOneTimeKeys`, which ignores errors: the
  decoded records are inputs. A field that fails to decode keeps its zero value (a nil map
  or an empty string) while the other fields may still be filled. The model's inputs are
  unconstrained, so every such partly decoded record is covered.
- Canonical JSON (`cjson.Marshal`) and ed25519 signing (`Account.Sign`) are foreign library
  and crypto calls, so they are the parameters `encode` and `sign`. Whether `encode` omits
  an absent `signatures` field depends on the `go-matrix` model types, which are not part of
  this model.
- The `go-matrix` wrappers `NewUploadKeysParams` and `SetKeys`: the body is the plain
  datatype `UploadKeysBody`.
- Aliasing: Go mutates the `deviceKeys` record through a pointer after signing. The model
  rebinds a local value with `signatures` set, which is the same behaviour because nothing
  else holds that pointer.
