/**
 * The interface of src/modules/encryption.js. `encrypt(dataText, key)`
 * returns the ciphertext as base64 text; `decrypt(encryptedText, key)`
 * returns the UTF-8 plaintext or throws when the final block does not
 * decrypt. The AES construction behind them is not part of this model:
 * a cipher is any pair of functions, and the only fact used about it is
 * that decryption under the same key inverts encryption.
 */
module Encryption {
  import opened Results
  import opened Codec

  /** `decrypt` gives `None` where Node's decipher throws. */
  datatype Cipher = Cipher(
    encrypt: (string, Bytes) -> string,
    decrypt: (string, Bytes) -> Option<string>)

  /** Decrypting under the same key gives back the text that was encrypted. */
  ghost predicate Inverts(cipher: Cipher)
  {
    forall text, key :: cipher.decrypt(cipher.encrypt(text, key), key) == Some(text)
  }
}
