/**
 * The AWS KMS operations that src/modules/kms.js calls, as an abstract
 * capability. Requests and responses keep the service's field names. The
 * service's randomness is the `draw` argument; its behaviour is described
 * only by the laws below, which the lemmas that need them take as
 * hypotheses.
 */
module Aws {
  import opened Results
  import opened Codec

  datatype GenerateDataKeyRequest = GenerateDataKeyRequest(KeySpec: string, KeyId: string)
  datatype GenerateDataKeyResponse = GenerateDataKeyResponse(Plaintext: Bytes, CiphertextBlob: Bytes)

  /** `KeyId` is `None` when the request object has no `KeyId` property. */
  datatype EncryptRequest = EncryptRequest(KeyId: Option<string>, Plaintext: Bytes)
  datatype EncryptResponse = EncryptResponse(CiphertextBlob: Bytes)

  datatype DecryptRequest = DecryptRequest(CiphertextBlob: Bytes)
  datatype DecryptResponse = DecryptResponse(Plaintext: Bytes)

  /** One request sent to the service. */
  datatype Call =
    | GenerateDataKeyCall(generate: GenerateDataKeyRequest)
    | EncryptCall(encrypt: EncryptRequest)
    | DecryptCall(decrypt: DecryptRequest)

  /**
   * The service: each operation answers a request with a response or with
   * the code of the error it rejects the request with.
   */
  datatype Service = Service(
    generateDataKey: (GenerateDataKeyRequest, nat) -> Result<GenerateDataKeyResponse, string>,
    encrypt: (EncryptRequest, nat) -> Result<EncryptResponse, string>,
    decrypt: DecryptRequest -> Result<DecryptResponse, string>)

  /** Decrypt unwraps every blob that GenerateDataKey hands out to its plaintext key. */
  ghost predicate UnwrapsGenerated(service: Service)
  {
    forall request, draw :: service.generateDataKey(request, draw).Success? ==>
      var response := service.generateDataKey(request, draw).value;
      service.decrypt(DecryptRequest(response.CiphertextBlob)) == Success(DecryptResponse(response.Plaintext))
  }

  /** Decrypt unwraps every blob that Encrypt hands out to the plaintext it was given. */
  ghost predicate UnwrapsEncrypted(service: Service)
  {
    forall request, draw :: service.encrypt(request, draw).Success? ==>
      service.decrypt(DecryptRequest(service.encrypt(request, draw).value.CiphertextBlob))
        == Success(DecryptResponse(request.Plaintext))
  }

  /** GenerateDataKey hands out a different blob for every draw. */
  ghost predicate GeneratesFreshly(service: Service)
  {
    forall request, draw1, draw2 ::
      draw1 != draw2 &&
      service.generateDataKey(request, draw1).Success? &&
      service.generateDataKey(request, draw2).Success? ==>
      service.generateDataKey(request, draw1).value.CiphertextBlob
        != service.generateDataKey(request, draw2).value.CiphertextBlob
  }
}
