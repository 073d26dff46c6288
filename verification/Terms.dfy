/**
 Symbolic cryptography. A string on the wire is either plain text or the output of authenticated
 encryption; key derivation, hashes and nonce derivation are free constructors, so that different
 inputs give different outputs. Encodings (JSON, base64) are left implicit.
 */
module Terms {

  datatype LogInfo = LogInfo(kind: string, log: string, logLimit: int, startTime: string, endTime: string)

  /** A digest claim: any text, or the hash of a request payload. */
  datatype Binding = BindingText(text: string) | BindingOf(sidekick: string, namespace: string, info: LogInfo)

  datatype Claims = Claims(
    snapshotName: string, sidekickName: string, namespace: string,
    binding: Binding, nonce: string, expiresAt: int)

  datatype Plain = PlainText(text: Blob) | PlainClaims(claims: Claims)

  /** The nonce of a ciphertext: drawn at random, or derived from key and plaintext. */
  datatype Iv = Random(bytes: string) | Derived(key: string, text: Blob)

  datatype Blob = Raw(text: string) | Sealed(key: string, iv: Iv, plain: Plain)
}
