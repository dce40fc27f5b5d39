/**
 * The envelope-encryption manager of src/modules/kms.js.
 *
 * `initKMS(options)` builds an instance bound to one KMS master key id; the
 * instance generates, wraps and unwraps data keys through KMS and builds,
 * opens and updates envelopes `[encryptedData, encryptedKey]`, both text.
 *
 * Each operation is specified by a function that gives its result together
 * with the KMS requests it sends, in order (an `Outcome`). The class
 * `KmsInstance` performs the operations step by step, records every request
 * in its ghost `log`, and is proved to agree with those functions.
 */
module Kms {
  import opened Results
  import opened Codec
  import opened Aws
  import opened Encryption

  /**
   * `KMS.DEFAULT_ENCRYPTION_SPEC`, the key spec of every generated data key.
   * Its value is defined in the constants module, which is not part of this
   * model, so it is left unspecified.
   */
  const DefaultKeySpec: string

  /** The options `initKMS` takes; credentials and region only configure the SDK. */
  datatype AwsKmsOptions = AwsKmsOptions(accessKeyId: string, secretAccessKey: string, region: string, KeyId: string)

  /** What `generateDataKey` resolves to: the plaintext key and its wrapped form. */
  datatype DataKeyPair = DataKeyPair(key: Bytes, encryptedKey: Bytes)

  /** The array `[encryptedData, encryptedKey]` that envelopes are made of. */
  datatype Envelope = Envelope(encryptedData: string, encryptedKey: string)

  /** A value passed where an envelope is expected: an array of strings, or not an array at all. */
  datatype Argument = Array(items: seq<string>) | NotArray

  datatype Error =
    | InvalidEnvelope             // new Error('Invalid encryption envelope')
    | ServiceError(code: string)  // a KMS rejection, propagated unchanged
    | BadDecrypt                  // thrown by the decipher on a bad final block

  /** The result of an operation and the KMS requests it sent, in order. */
  datatype Outcome<T> = Outcome(result: Result<T, Error>, calls: seq<Call>)

  /** An envelope as the array a caller passes back in. */
  function AsArgument(envelope: Envelope): Argument
  {
    Array([envelope.encryptedData, envelope.encryptedKey])
  }

  /** `_getBuffer`: a Buffer is kept, a string is decoded with the default encoding. */
  function GetBuffer(input: StringOrBuffer): Bytes
  {
    match input
    case Buf(b) => b
    case Str(s) => StringToBuffer(s)
  }

  /** The guard of decryptEnvelope and updateEnvelope: an array of exactly two elements. */
  predicate IsEnvelope(envelope: Argument)
  {
    envelope.Array? && |envelope.items| == 2
  }

  /** The request generateDataKey sends: the fixed key spec and the configured master key. */
  function KeyRequest(keyId: string): GenerateDataKeyRequest
  {
    GenerateDataKeyRequest(KeySpec := DefaultKeySpec, KeyId := keyId)
  }

  // ---------------------------------------------------------------------
  // Specification of each operation

  /** `generateDataKey`. */
  function GenerateDataKeyOutcome(service: Service, keyId: string, draw: nat): (o: Outcome<DataKeyPair>)
    ensures o.calls == [GenerateDataKeyCall(KeyRequest(keyId))]
    ensures var reply := service.generateDataKey(KeyRequest(keyId), draw);
            (o.result.Success? <==> reply.Success?) &&
            (reply.Success? ==> o.result.value.key == reply.value.Plaintext
                                && o.result.value.encryptedKey == reply.value.CiphertextBlob) &&
            (reply.Failure? ==> o.result.error == ServiceError(reply.error))
  {
    var request := KeyRequest(keyId);
    var result :=
      match service.generateDataKey(request, draw)
      case Success(response) => Success(DataKeyPair(key := response.Plaintext, encryptedKey := response.CiphertextBlob))
      case Failure(code) => Failure(ServiceError(code));
    Outcome(result, [GenerateDataKeyCall(request)])
  }

  /**
   * `encryptDataKey`. Its parameter `key` shadows the `{ KeyId }` object, so
   * `...key` spreads the data key rather than the master key id: the request
   * carries the key bytes and no `KeyId`.
   */
  function EncryptDataKeyOutcome(service: Service, key: StringOrBuffer, draw: nat): (o: Outcome<Bytes>)
    ensures o.calls == [EncryptCall(EncryptRequest(None, GetBuffer(key)))]
    ensures var reply := service.encrypt(EncryptRequest(None, GetBuffer(key)), draw);
            (o.result.Success? <==> reply.Success?) &&
            (reply.Success? ==> o.result.value == reply.value.CiphertextBlob) &&
            (reply.Failure? ==> o.result.error == ServiceError(reply.error))
  {
    var request := EncryptRequest(KeyId := None, Plaintext := GetBuffer(key));
    var result :=
      match service.encrypt(request, draw)
      case Success(response) => Success(response.CiphertextBlob)
      case Failure(code) => Failure(ServiceError(code));
    Outcome(result, [EncryptCall(request)])
  }

  /** `decryptDataKey`: unwrap the key, given as a Buffer or as default-encoded text. */
  function DecryptDataKeyOutcome(service: Service, encryptedKey: StringOrBuffer): (o: Outcome<Bytes>)
    ensures o.calls == [DecryptCall(DecryptRequest(GetBuffer(encryptedKey)))]
    ensures var reply := service.decrypt(DecryptRequest(GetBuffer(encryptedKey)));
            (o.result.Success? <==> reply.Success?) &&
            (reply.Success? ==> o.result.value == reply.value.Plaintext) &&
            (reply.Failure? ==> o.result.error == ServiceError(reply.error))
  {
    var request := DecryptRequest(CiphertextBlob := GetBuffer(encryptedKey));
    var result :=
      match service.decrypt(request)
      case Success(response) => Success(response.Plaintext)
      case Failure(code) => Failure(ServiceError(code));
    Outcome(result, [DecryptCall(request)])
  }

  /**
   * `createEnvelope`: one GenerateDataKey request and nothing else; the
   * payload is the cipher's text unchanged and the wrapped key is base64.
   */
  function CreateEnvelopeOutcome(service: Service, cipher: Cipher, keyId: string, data: string, draw: nat)
    : (o: Outcome<Envelope>)
    ensures o.calls == [GenerateDataKeyCall(KeyRequest(keyId))]
    ensures var generated := GenerateDataKeyOutcome(service, keyId, draw).result;
            (o.result.Success? <==> generated.Success?) &&
            (generated.Success? ==>
               o.result.value == Envelope(cipher.encrypt(data, generated.value.key),
                                          Base64Encode(generated.value.encryptedKey))) &&
            (generated.Failure? ==> o.result.error == generated.error)
  {
    var generated := GenerateDataKeyOutcome(service, keyId, draw);
    match generated.result
    case Failure(e) => Outcome(Failure(e), generated.calls)
    case Success(pair) =>
      var encryptedData := cipher.encrypt(data, pair.key);
      Outcome(Success(Envelope(BufferToString(Str(encryptedData)), BufferToString(Buf(pair.encryptedKey)))),
              generated.calls)
  }

  /**
   * `decryptEnvelope`: reject anything but a two-element array before any
   * request; otherwise unwrap element 1 and decrypt element 0 with it.
   */
  function DecryptEnvelopeOutcome(service: Service, cipher: Cipher, envelope: Argument): (o: Outcome<string>)
    ensures o.result == Failure(InvalidEnvelope) <==> !IsEnvelope(envelope)
    ensures !IsEnvelope(envelope) ==> o.calls == []
    ensures IsEnvelope(envelope) ==>
              o.calls == [DecryptCall(DecryptRequest(Base64Decode(envelope.items[1])))]
    ensures o.result.Success? ==>
              var reply := service.decrypt(DecryptRequest(Base64Decode(envelope.items[1])));
              reply.Success? && cipher.decrypt(envelope.items[0], reply.value.Plaintext) == Some(o.result.value)
    ensures IsEnvelope(envelope) ==>
              var reply := service.decrypt(DecryptRequest(Base64Decode(envelope.items[1])));
              (reply.Failure? ==> o.result == Failure(ServiceError(reply.error))) &&
              (reply.Success? ==>
                 var text := cipher.decrypt(envelope.items[0], reply.value.Plaintext);
                 o.result == if text.Some? then Success(text.value) else Failure(BadDecrypt))
  {
    if !IsEnvelope(envelope) then
      Outcome(Failure(InvalidEnvelope), [])
    else
      var encryptedData, encryptedKey := envelope.items[0], envelope.items[1];
      var unwrapped := DecryptDataKeyOutcome(service, Str(encryptedKey));
      match unwrapped.result
      case Failure(e) => Outcome(Failure(e), unwrapped.calls)
      case Success(decryptedKey) =>
        var result :=
          match cipher.decrypt(encryptedData, decryptedKey)
          case Some(text) => Success(text)
          case None => Failure(BadDecrypt);
        Outcome(result, unwrapped.calls)
  }

  /**
   * `updateEnvelope`: the same guard; then unwrap the existing key,
   * encrypt the new data under it and keep element 1 as it was. Element 0
   * is never read, and no key is generated or wrapped.
   */
  function UpdateEnvelopeOutcome(service: Service, cipher: Cipher, envelope: Argument, updatedData: string)
    : (o: Outcome<Envelope>)
    ensures o.result == Failure(InvalidEnvelope) <==> !IsEnvelope(envelope)
    ensures !IsEnvelope(envelope) ==> o.calls == []
    ensures IsEnvelope(envelope) ==>
              o.calls == [DecryptCall(DecryptRequest(Base64Decode(envelope.items[1])))]
    ensures o.result.Success? ==>
              var reply := service.decrypt(DecryptRequest(Base64Decode(envelope.items[1])));
              reply.Success? &&
              o.result.value == Envelope(cipher.encrypt(updatedData, reply.value.Plaintext), envelope.items[1])
    ensures IsEnvelope(envelope) ==>
              var reply := service.decrypt(DecryptRequest(Base64Decode(envelope.items[1])));
              (o.result.Success? <==> reply.Success?) &&
              (reply.Failure? ==> o.result == Failure(ServiceError(reply.error)))
  {
    if !IsEnvelope(envelope) then
      Outcome(Failure(InvalidEnvelope), [])
    else
      var encryptedKey := envelope.items[1];
      var unwrapped := DecryptDataKeyOutcome(service, Str(encryptedKey));
      match unwrapped.result
      case Failure(e) => Outcome(Failure(e), unwrapped.calls)
      case Success(decryptedKey) =>
        var encryptedData := cipher.encrypt(updatedData, decryptedKey);
        Outcome(Success(Envelope(BufferToString(Str(encryptedData)), BufferToString(Str(encryptedKey)))),
                unwrapped.calls)
  }

  // ---------------------------------------------------------------------
  // The instance initKMS returns

  class KmsInstance {
    /** The master key id from the options. */
    const keyId: string
    /** The KMS client the SDK was configured for. */
    const service: Service
    /** The cipher of the encryption module. */
    const cipher: Cipher
    /** Every request sent to KMS through this instance, oldest first. */
    ghost var log: seq<Call>

    /** `initKMS(options)`, with the configured KMS client and the cipher passed in. */
    constructor (options: AwsKmsOptions, service: Service, cipher: Cipher)
      ensures keyId == options.KeyId && this.service == service && this.cipher == cipher
      ensures log == []
    {
      keyId := options.KeyId;
      this.service := service;
      this.cipher := cipher;
      log := [];
    }

    method GenerateDataKey(draw: nat) returns (r: Result<DataKeyPair, Error>)
      modifies this`log
      ensures r == GenerateDataKeyOutcome(service, keyId, draw).result
      ensures log == old(log) + [GenerateDataKeyCall(KeyRequest(keyId))]
    {
      var request := KeyRequest(keyId);
      log := log + [GenerateDataKeyCall(request)];
      var response := service.generateDataKey(request, draw);
      if response.Failure? {
        return Failure(ServiceError(response.error));
      }
      r := Success(DataKeyPair(key := response.value.Plaintext, encryptedKey := response.value.CiphertextBlob));
    }

    method EncryptDataKey(key: StringOrBuffer, draw: nat) returns (r: Result<Bytes, Error>)
      modifies this`log
      ensures r == EncryptDataKeyOutcome(service, key, draw).result
      ensures log == old(log) + EncryptDataKeyOutcome(service, key, draw).calls
    {
      var keyBuffer := GetBuffer(key);
      var request := EncryptRequest(KeyId := None, Plaintext := keyBuffer);
      log := log + [EncryptCall(request)];
      var response := service.encrypt(request, draw);
      if response.Failure? {
        return Failure(ServiceError(response.error));
      }
      r := Success(response.value.CiphertextBlob);
    }

    method DecryptDataKey(encryptedKey: StringOrBuffer) returns (r: Result<Bytes, Error>)
      modifies this`log
      ensures r == DecryptDataKeyOutcome(service, encryptedKey).result
      ensures log == old(log) + DecryptDataKeyOutcome(service, encryptedKey).calls
    {
      var keyBuffer := GetBuffer(encryptedKey);
      var request := DecryptRequest(CiphertextBlob := keyBuffer);
      log := log + [DecryptCall(request)];
      var response := service.decrypt(request);
      if response.Failure? {
        return Failure(ServiceError(response.error));
      }
      r := Success(response.value.Plaintext);
    }

    method CreateEnvelope(data: string, draw: nat) returns (r: Result<Envelope, Error>)
      modifies this`log
      ensures r == CreateEnvelopeOutcome(service, cipher, keyId, data, draw).result
      ensures log == old(log) + [GenerateDataKeyCall(KeyRequest(keyId))]
    {
      var generated := GenerateDataKey(draw);
      if generated.Failure? {
        return Failure(generated.error);
      }
      var encryptedData := cipher.encrypt(data, generated.value.key);
      r := Success(Envelope(BufferToString(Str(encryptedData)), BufferToString(Buf(generated.value.encryptedKey))));
    }

    method DecryptEnvelope(envelope: Argument) returns (r: Result<string, Error>)
      modifies this`log
      ensures r == DecryptEnvelopeOutcome(service, cipher, envelope).result
      ensures log == old(log) + DecryptEnvelopeOutcome(service, cipher, envelope).calls
      ensures !IsEnvelope(envelope) ==> r == Failure(InvalidEnvelope) && log == old(log)
    {
      if !IsEnvelope(envelope) {
        return Failure(InvalidEnvelope);
      }
      var encryptedData, encryptedKey := envelope.items[0], envelope.items[1];
      var decryptedKey := DecryptDataKey(Str(encryptedKey));
      if decryptedKey.Failure? {
        return Failure(decryptedKey.error);
      }
      var decrypted := cipher.decrypt(encryptedData, decryptedKey.value);
      if decrypted.None? {
        return Failure(BadDecrypt);
      }
      r := Success(decrypted.value);
    }

    method UpdateEnvelope(envelope: Argument, updatedData: string) returns (r: Result<Envelope, Error>)
      modifies this`log
      ensures r == UpdateEnvelopeOutcome(service, cipher, envelope, updatedData).result
      ensures log == old(log) + UpdateEnvelopeOutcome(service, cipher, envelope, updatedData).calls
      ensures !IsEnvelope(envelope) ==> r == Failure(InvalidEnvelope) && log == old(log)
      ensures r.Success? ==> IsEnvelope(envelope) && r.value.encryptedKey == envelope.items[1]
    {
      if !IsEnvelope(envelope) {
        return Failure(InvalidEnvelope);
      }
      var encryptedKey := envelope.items[1];
      var decryptedKey := DecryptDataKey(Str(encryptedKey));
      if decryptedKey.Failure? {
        return Failure(decryptedKey.error);
      }
      var encryptedData := cipher.encrypt(updatedData, decryptedKey.value);
      r := Success(Envelope(BufferToString(Str(encryptedData)), BufferToString(Str(encryptedKey))));
    }
  }
}
