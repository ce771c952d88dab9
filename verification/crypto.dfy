/** The library calls the core makes but that are not modelled: SHA-1 with
    base64url encoding (the record and user id), AES-GCM sealing and opening under an
    exported JSON Web Key, bcrypt hashing and comparison, and base64url encoding of
    the stored hash. Each becomes a function-valued field of `Primitives`, so that
    every property proved below holds for every choice of them. */
module Crypto {
  import opened Wrappers

  /** An exported AES key in JSON Web Key form. */
  type Key = string

  /** What `encryptwjkey` produces and `decryptwjkey` consumes. */
  datatype Envelope = Envelope(cipher: string, iv: string)

  datatype Primitives = Primitives(
    idOf: string -> string,                // SHA-1 digest of the text, base64url-encoded
    seal: (string, Key) -> Envelope,       // AES-GCM encryption under a key
    open: (Envelope, Key) -> Option<string>, // AES-GCM decryption; None when it rejects
    hash: (string, nat) -> string,         // bcrypt hash with a cost factor
    compare: (string, string) -> bool,     // bcrypt comparison of a password and a hash
    toBase64Url: string -> string,         // Buffer(..).toString("base64url")
    fromBase64Url: string -> string        // Buffer.from(.., "base64url").toString()
  )

  /** The cost factor the core passes to bcrypt. */
  const BCRYPT_COST: nat := 10

  /** The laws the libraries are relied on for: a sealed text opens under the same
      key, a password matches its own hash, and base64url decoding undoes encoding. */
  ghost predicate Lawful(p: Primitives)
  {
    && (forall t, k :: p.open(p.seal(t, k), k) == Some(t))
    && (forall pw, cost :: p.compare(pw, p.hash(pw, cost)))
    && (forall s :: p.fromBase64Url(p.toBase64Url(s)) == s)
  }
}
