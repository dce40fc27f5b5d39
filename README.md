# Envelope encryption over KMS, in Dafny

This project models the core of `effortless-encryption`. That core is the
envelope-encryption manager that `initKMS` returns (`src/modules/kms.js`)
and the buffer/text codec it relies on (`src/modules/utils.js`).

An instance is bound to one KMS master key id. `createEnvelope(data)` asks
KMS for a fresh data key and encrypts `data` under the plaintext key. It
returns the array `[encryptedData, encryptedKey]`, where the second element
is the KMS-wrapped key as base64 text. `decryptEnvelope(envelope)` first
checks that it was given an array of exactly two elements. It then asks
KMS to unwrap element 1 and decrypts element 0 with the result.
`updateEnvelope(envelope, updatedData)` applies the same check and unwraps
the existing key. It encrypts the new data under that key and returns the
new payload beside the unchanged element 1. `generateDataKey`,
`encryptDataKey` and `decryptDataKey` are thin wrappers over the KMS
requests GenerateDataKey, Encrypt and Decrypt.

## Structure

- `results.dfy` (`Results`): `Option` and `Result`.
- `codec.dfy` (`Codec`): `bufferToString` and `stringToBuffer`.
  - Base64 follows section 4 of RFC 4648, and it is the default.
  - Hex is Node's two lower-case digits per byte.
  - The codec's lemmas cover the round trip, the encoded length, and the
    alphabet with its padding.
- `encryption.dfy` (`Encryption`): the interface of `src/modules/encryption.js`.
  - A cipher is a pair of functions, `encrypt` and `decrypt`.
  - `Inverts` is the one law about it: decrypting under the same key gives
    the encrypted text back.
- `aws.dfy` (`Aws`): the three KMS requests, their responses, and a
  `Service` made of one function per request.
  - The service's randomness is a `draw` argument.
  - Three laws describe the service: `UnwrapsGenerated`, `UnwrapsEncrypted`
    and `GeneratesFreshly`.
- `kms.dfy` (`Kms`): `_getBuffer` (`GetBuffer`) and the envelope-shape guard
  (`IsEnvelope`).
  - Each operation has a specification function `...Outcome`. It gives the
    result together with the KMS requests the operation sends, in order.
  - The class `KmsInstance` is what `initKMS` returns. Its methods perform
    the operations step by step, and its ghost `log` records every KMS
    request.
  - Each method is proved to return its specification's result, and to
    append exactly that specification's requests to `log`.
- `kms_properties.dfy` (`KmsProperties`): lemmas that relate several
  operations.
  - The create/decrypt and update/decrypt round trips.
  - Updating a created envelope.
  - Updates never read the old payload.
  - Created envelopes are fresh.
  - Wrapping then unwrapping a data key.

Four places where the code does less than its names and comments suggest; the model follows the code:

- `encrypt` already returns base64 text, so in `createEnvelope` and
  `updateEnvelope` the call `bufferToString(encryptedData)` is a string's
  own `toString`, which returns the text unchanged. The only field that is
  actually base64-encoded is the wrapped key, in `createEnvelope`. In
  `updateEnvelope` both elements are strings and pass through unchanged.
- `Buffer.from` never throws, so `stringToBuffer` has no decode error.
- The guard checks only "an array of exactly two elements". It does not
  check that the fields are well formed.
- In `encryptDataKey` the parameter `key` shadows the `{ KeyId }` object,
  so `...key` spreads the data key. The Encrypt request therefore carries
  no `KeyId`, and the model records it that way (`EncryptRequest(None, …)`).

## Model

| member | source | states |
|---|---|---|
| `Codec.RoundTrip` | src/modules/utils.js:10-21 | `stringToBuffer(bufferToString(b, e), e) == b` for every byte sequence and for both base64 and hex |
| `Codec.DefaultRoundTrip` | src/modules/utils.js:10-21 | a producer and a consumer that both omit the encoding use the same default and recover every byte sequence |
| `Codec.Base64RoundTrip` | src/modules/utils.js:3-11 | base64 decoding inverts base64 encoding for every byte sequence |
| `Codec.Base64Length` | src/modules/utils.js:10-11 | the base64 text of `n` bytes has `4 * ceil(n / 3)` characters |
| `Codec.Base64Alphabet` | src/modules/utils.js:10-11 | every character of the base64 text is from Table 1 of RFC 4648 section 4, except the last `(3 - n % 3) % 3`, which are `=` |
| `Codec.Base64TestVectors` | src/modules/utils.js:3-11 | the encoder maps `f`, `fo` and `foobar` to `Zg==`, `Zm8=` and `Zm9vYmFy`, the test vectors of section 10 of RFC 4648 |
| `Codec.Base64Injective` | src/modules/utils.js:10-11 | different byte sequences have different base64 texts |
| `Codec.HexRoundTrip` | src/modules/utils.js:10-21 | hex decoding inverts hex encoding for every byte sequence |
| `Codec.BufferToStringOfString` | src/modules/utils.js:10-11 | `bufferToString` returns a string argument unchanged, whatever the encoding |
| `Codec.MismatchedEncodings` | src/modules/utils.js:10-21 | text produced under base64 and read back as hex gives other bytes (`AA==` gives `[170]` instead of `[0]`) |
| `Kms.GenerateDataKeyOutcome` | src/modules/kms.js:31-37 | exactly one GenerateDataKey request, with the fixed `KeySpec` and the configured `KeyId`; `Plaintext` becomes `key` and `CiphertextBlob` becomes `encryptedKey`; a rejection passes through as a service error |
| `Kms.EncryptDataKeyOutcome` | src/modules/kms.js:45-53 | exactly one Encrypt request, on `_getBuffer(key)` and with no `KeyId`; the result is the response's `CiphertextBlob` or the service error |
| `Kms.DecryptDataKeyOutcome` | src/modules/kms.js:61-67 | exactly one Decrypt request, on `_getBuffer(encryptedKey)`; the result is the response's `Plaintext` or the service error |
| `Kms.CreateEnvelopeOutcome` | src/modules/kms.js:75-80 | exactly one GenerateDataKey request and no other; on success the envelope is `[encrypt(data, key), base64(encryptedKey)]` for that request's key pair; otherwise its error |
| `Kms.DecryptEnvelopeOutcome` | src/modules/kms.js:88-96 | fails with `Invalid encryption envelope` exactly when the argument is not an array of two elements, and then sends no request; otherwise sends one Decrypt request on the decoded element 1; a KMS rejection passes through as its service error, a failed decipher gives `BadDecrypt`, and otherwise the result is the cipher's decryption of element 0 under the unwrapped key |
| `Kms.UpdateEnvelopeOutcome` | src/modules/kms.js:105-114 | the same guard, error and absence of requests; otherwise exactly one Decrypt request and no GenerateDataKey or Encrypt request; it succeeds exactly when the unwrap succeeds, a KMS rejection passes through as its service error, and a result keeps element 1 unchanged and holds the new data encrypted under the unwrapped key |
| `Kms.KmsInstance.constructor` | src/modules/kms.js:20-24 | the instance is bound to the options' `KeyId` and has sent no request |
| `Kms.KmsInstance.GenerateDataKey` | src/modules/kms.js:31-37 | returns the result of `GenerateDataKeyOutcome` and appends its one request to the log |
| `Kms.KmsInstance.EncryptDataKey` | src/modules/kms.js:45-53 | returns the result of `EncryptDataKeyOutcome` and appends its one request to the log |
| `Kms.KmsInstance.DecryptDataKey` | src/modules/kms.js:61-67 | returns the result of `DecryptDataKeyOutcome` and appends its one request to the log |
| `Kms.KmsInstance.CreateEnvelope` | src/modules/kms.js:75-80 | returns the result of `CreateEnvelopeOutcome`; the log grows by exactly one GenerateDataKey request |
| `Kms.KmsInstance.DecryptEnvelope` | src/modules/kms.js:88-96 | returns the result of `DecryptEnvelopeOutcome` and logs its requests; a malformed argument leaves the log unchanged |
| `Kms.KmsInstance.UpdateEnvelope` | src/modules/kms.js:105-114 | returns the result of `UpdateEnvelopeOutcome` and logs its requests; a malformed argument leaves the log unchanged; a result's element 1 is the argument's element 1 |
| `KmsProperties.GetBufferKeepsBuffer` | src/modules/kms.js:8-9 | `_getBuffer` returns a Buffer unchanged |
| `KmsProperties.GetBufferIdempotent` | src/modules/kms.js:8-9 | applying `_getBuffer` to its own result gives the same bytes |
| `KmsProperties.GetBufferOfText` | src/modules/kms.js:8-9 | `_getBuffer` decodes the default-encoded text of a Buffer back to that Buffer |
| `KmsProperties.CreateThenDecrypt` | src/modules/kms.js:75-96 | a created envelope opens to the data it was created from, given that KMS unwraps the keys it generates and that the cipher inverts |
| `KmsProperties.CreateThenUpdate` | src/modules/kms.js:75-114 | updating a created envelope succeeds; the new payload is the new data encrypted under the same data key, and the wrapped key is unchanged |
| `KmsProperties.UpdateThenDecrypt` | src/modules/kms.js:88-114 | an updated envelope opens to the new data, given that the cipher inverts |
| `KmsProperties.UpdateIgnoresPayload` | src/modules/kms.js:109-113 | two envelopes that differ only in element 0 update to the same result with the same requests |
| `KmsProperties.CreateIsFresh` | src/modules/kms.js:75-79 | envelopes created from different draws of KMS randomness have different wrapped keys, given that KMS generates fresh blobs |
| `KmsProperties.EncryptThenDecryptDataKey` | src/modules/kms.js:45-67 | `decryptDataKey` unwraps what `encryptDataKey` wrapped, as a Buffer or as base64 text, given that KMS unwraps what it encrypted |

## Left out

- Kms.KmsInstance.constructor: does not model `aws.config.update(options)`. That call is a process-wide mutation which configures credentials and region for the SDK. The configured KMS client is passed in as `service`.
- The AWS KMS service itself: the network, credentials, region, `apiVersion` and `promisifyAWS` are left out. `Service` replaces them: each request is a function from the request to a response or an error code.
- The behaviour of KMS is not derived; it is assumed. The laws `UnwrapsGenerated`, `UnwrapsEncrypted` and `GeneratesFreshly` are hypotheses of the lemmas that use them.
- The service's randomness is the `draw` argument of GenerateDataKey and Encrypt.
- The AES cipher of `src/modules/encryption.js`: `createCipher` derives the key and IV internally, and that derivation is not visible. Only `Inverts` is assumed about the cipher.
- Freshness of the payload of two created envelopes is not stated. It depends on the cipher, about which only `Inverts` is assumed. Only the wrapped keys are shown to differ.
- The value of `KMS.DEFAULT_ENCRYPTION_SPEC` is unknown. It is defined in the constants module, which is not part of this model, so `DefaultKeySpec` is an unspecified constant.
- async/await scheduling: each operation is one sequential step, and a rejected promise is a `Failure` result.
- Decoding text that is not well-formed base64 or hex. Node's `Buffer.from` is lenient. The model's decoders skip characters outside the alphabet, stop at the first `=` for base64, and stop at the first pair that is not hex. No property is claimed on such input.
- Encodings other than base64 and hex (`utf8`, `latin1`, `ascii`, …) are left out. For `utf8`, the round trip would not hold for every byte sequence.
- Envelope elements that are not strings are left out. Buffers, numbers and `undefined` inside the array are outside the model: envelope fields are text, as declared in `index.d.ts`.
- `encryptDataKey`'s request also carries the index-named properties that `...key` spreads. The model records only that the request has no `KeyId`.
- Errors thrown when a KMS response lacks a field, or when the cipher receives an undefined key, are not modelled.
- Unwrapping under a different master key fails on the KMS side. That is service behaviour: the code sends no key id with Decrypt, so it is not part of this model.
- Clearing plaintext keys from memory: the source relies on garbage collection, and the model has no memory to clear.
