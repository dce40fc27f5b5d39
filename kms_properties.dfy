/**
 * Properties of the envelope manager of src/modules/kms.js that relate
 * several operations: the round trips, the stable key slot, and the
 * freshness of created envelopes. The laws of the collaborators that a
 * property rests on are its hypotheses.
 */
module KmsProperties {
  import opened Results
  import opened Codec
  import opened Aws
  import opened Encryption
  import opened Kms

  /** `_getBuffer` keeps a Buffer as it is. */
  lemma GetBufferKeepsBuffer(b: Bytes)
    ensures GetBuffer(Buf(b)) == b
  {
  }

  /** Applying `_getBuffer` to its own result changes nothing. */
  lemma GetBufferIdempotent(input: StringOrBuffer)
    ensures GetBuffer(Buf(GetBuffer(input))) == GetBuffer(input)
  {
  }

  /** `_getBuffer` decodes the default-encoded text of a Buffer back to that Buffer. */
  lemma GetBufferOfText(b: Bytes)
    ensures GetBuffer(Str(BufferToString(Buf(b)))) == b
  {
    DefaultRoundTrip(b);
  }

  /**
   * Round trip: an envelope that createEnvelope returns opens, through
   * decryptEnvelope, to the data it was created from.
   */
  lemma CreateThenDecrypt(service: Service, cipher: Cipher, keyId: string, data: string, draw: nat)
    requires UnwrapsGenerated(service) && Inverts(cipher)
    ensures var created := CreateEnvelopeOutcome(service, cipher, keyId, data, draw).result;
            created.Success? ==>
              DecryptEnvelopeOutcome(service, cipher, AsArgument(created.value)).result == Success(data)
  {
    var reply := service.generateDataKey(KeyRequest(keyId), draw);
    if reply.Success? {
      Base64RoundTrip(reply.value.CiphertextBlob);
    }
  }

  /**
   * Updating an envelope that createEnvelope returned cannot fail: it
   * re-encrypts the new data under the envelope's own data key and keeps
   * the wrapped key.
   */
  lemma CreateThenUpdate(service: Service, cipher: Cipher, keyId: string, data: string, draw: nat,
                         updatedData: string)
    requires UnwrapsGenerated(service)
    ensures var created := CreateEnvelopeOutcome(service, cipher, keyId, data, draw).result;
            created.Success? ==>
              var pair := GenerateDataKeyOutcome(service, keyId, draw).result.value;
              UpdateEnvelopeOutcome(service, cipher, AsArgument(created.value), updatedData).result
                == Success(Envelope(cipher.encrypt(updatedData, pair.key), created.value.encryptedKey))
  {
    var reply := service.generateDataKey(KeyRequest(keyId), draw);
    if reply.Success? {
      Base64RoundTrip(reply.value.CiphertextBlob);
    }
  }

  /** Round trip for updates: an updated envelope opens to the new data. */
  lemma UpdateThenDecrypt(service: Service, cipher: Cipher, envelope: Argument, updatedData: string)
    requires Inverts(cipher)
    ensures var updated := UpdateEnvelopeOutcome(service, cipher, envelope, updatedData).result;
            updated.Success? ==>
              DecryptEnvelopeOutcome(service, cipher, AsArgument(updated.value)).result == Success(updatedData)
  {
  }

  /**
   * updateEnvelope never reads element 0: two envelopes with the same
   * wrapped key update to the same result with the same requests.
   */
  lemma UpdateIgnoresPayload(service: Service, cipher: Cipher, payload1: string, payload2: string,
                             encryptedKey: string, updatedData: string)
    ensures UpdateEnvelopeOutcome(service, cipher, Array([payload1, encryptedKey]), updatedData)
            == UpdateEnvelopeOutcome(service, cipher, Array([payload2, encryptedKey]), updatedData)
  {
  }

  /**
   * Two envelopes created with different draws of the service's randomness
   * have different wrapped keys.
   */
  lemma CreateIsFresh(service: Service, cipher: Cipher, keyId: string, data: string, draw1: nat, draw2: nat)
    requires GeneratesFreshly(service)
    requires draw1 != draw2
    ensures var e1 := CreateEnvelopeOutcome(service, cipher, keyId, data, draw1).result;
            var e2 := CreateEnvelopeOutcome(service, cipher, keyId, data, draw2).result;
            e1.Success? && e2.Success? ==> e1.value.encryptedKey != e2.value.encryptedKey
  {
    var e1 := CreateEnvelopeOutcome(service, cipher, keyId, data, draw1).result;
    var e2 := CreateEnvelopeOutcome(service, cipher, keyId, data, draw2).result;
    if e1.Success? && e2.Success? && e1.value.encryptedKey == e2.value.encryptedKey {
      var r1 := service.generateDataKey(KeyRequest(keyId), draw1);
      var r2 := service.generateDataKey(KeyRequest(keyId), draw2);
      Base64Injective(r1.value.CiphertextBlob, r2.value.CiphertextBlob);
      assert false;
    }
  }

  /**
   * decryptDataKey unwraps what encryptDataKey wrapped, whether the wrapped
   * key is passed as a Buffer or as its default-encoded text.
   */
  lemma EncryptThenDecryptDataKey(service: Service, key: StringOrBuffer, draw: nat)
    requires UnwrapsEncrypted(service)
    ensures var wrapped := EncryptDataKeyOutcome(service, key, draw).result;
            wrapped.Success? ==>
              DecryptDataKeyOutcome(service, Buf(wrapped.value)).result == Success(GetBuffer(key)) &&
              DecryptDataKeyOutcome(service, Str(BufferToString(Buf(wrapped.value)))).result
                == Success(GetBuffer(key))
  {
    var wrapped := EncryptDataKeyOutcome(service, key, draw).result;
    if wrapped.Success? {
      DefaultRoundTrip(wrapped.value);
    }
  }
}
