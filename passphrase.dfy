/**
 * `hashPassphrase` and `verifyPassphrase`: PBKDF2 (section 5.2 of RFC 8018)
 * with HMAC-SHA-512, 1000 iterations and a 64-byte derived key, salted with
 * the hex text of 16 random bytes.
 *
 * The key-derivation function itself is a parameter: any deterministic
 * function of (passphrase, salt, iterations, key length, digest). The random
 * bytes are a parameter too.
 */
module Passphrase {
  import opened Wrappers
  import opened Hex

  datatype DigestAlgorithm = Sha512

  const Iterations: nat := 1000
  const KeyLength: nat := 64
  const SaltLength: nat := 16

  /** Node's `crypto.pbkdf2Sync(password, salt, iterations, keylen, digest)`. */
  type Pbkdf2 = (string, string, nat, nat, DigestAlgorithm) -> seq<byte>

  /** What Node promises of pbkdf2Sync: exactly `keylen` bytes come back. */
  ghost predicate KeyLengthHonoured(kdf: Pbkdf2) {
    forall passphrase: string, salt: string ::
      |kdf(passphrase, salt, Iterations, KeyLength, Sha512)| == KeyLength
  }

  /** The stored record of one protected channel. */
  datatype Credential = Credential(salt: string, hash: string)

  /** The derivation both hashing and verifying perform; the salt is the hex text. */
  function DerivedKey(kdf: Pbkdf2, passphrase: string, salt: string): seq<byte> {
    kdf(passphrase, salt, Iterations, KeyLength, Sha512)
  }

  function HashPassphrase(kdf: Pbkdf2, passphrase: string, randomBytes: seq<byte>): (c: Credential)
    requires |randomBytes| == SaltLength
    ensures |c.salt| == 2 * SaltLength && IsHex(c.salt)
    ensures Decode(c.salt) == Some(randomBytes)
    ensures Decode(c.hash) == Some(DerivedKey(kdf, passphrase, c.salt))
    ensures KeyLengthHonoured(kdf) ==> |c.hash| == 2 * KeyLength && IsHex(c.hash)
    ensures VerifyPassphrase(kdf, passphrase, c.salt, c.hash)
  {
    var salt := Encode(randomBytes);
    var key := DerivedKey(kdf, passphrase, salt);
    DecodeEncode(randomBytes);
    DecodeEncode(key);
    Credential(salt, Encode(key))
  }

  /** Recompute with the stored salt and compare the hex texts. */
  function VerifyPassphrase(kdf: Pbkdf2, passphrase: string, salt: string, hash: string): (ok: bool)
    ensures ok <==> Decode(hash) == Some(DerivedKey(kdf, passphrase, salt))
  {
    var key := DerivedKey(kdf, passphrase, salt);
    DecodeEncode(key);
    EncodeDecode(hash);
    hash == Encode(key)
  }

  /**
   * A credential made for `p` accepts `q` exactly when the derivation cannot
   * tell them apart under that credential's salt.
   */
  lemma AcceptsExactlySameKey(kdf: Pbkdf2, p: string, q: string, randomBytes: seq<byte>)
    requires |randomBytes| == SaltLength
    ensures var c := HashPassphrase(kdf, p, randomBytes);
      VerifyPassphrase(kdf, q, c.salt, c.hash) <==> DerivedKey(kdf, q, c.salt) == DerivedKey(kdf, p, c.salt)
  {
  }
}
