/** Symbolic digests and signatures: equal only when what they cover is equal. */
module Signing {
  const ALGORITHM := "hmac-sha256"
  const ZERO_INSTANT := -62_135_596_800_000_000_000

  /** A time as written: an instant in nanoseconds and a zone offset. */
  datatype Time = Time(instant: int, zone: int)

  /** Digest text: missing, the hex of a payload's hash in some letter case, or anything else. */
  datatype ShaText<P> = NoSha | ShaOf(payload: P, letterCase: nat) | OtherSha(text: string)

  datatype Mac<P> = Mac(key: string, algorithm: string, keyId: string, signedAt: int, payload: P)
  datatype MacText<P> = MacOf(mac: Mac<P>, letterCase: nat) | OtherMac(text: string)

  datatype Integrity<P> = Integrity(
    algorithm: string, keyId: string, signedAt: Time, payloadSha: ShaText<P>, signature: MacText<P>)

  function SignPayload<P>(key: string, keyId: string, at: int, p: P): Integrity<P> {
    Integrity(ALGORITHM, keyId, Time(at, 0), ShaOf(p, 0), MacOf(Mac(key, ALGORITHM, keyId, at, p), 0))
  }

  /** Signature verification. Hex is compared without regard to letter case, times by instant. */
  predicate VerifiesPayload<P(==)>(key: string, p: P, i: Integrity<P>) {
    && i.algorithm == ALGORITHM && |key| >= 32 && i.keyId != "" && i.signedAt.instant != ZERO_INSTANT
    && i.payloadSha.ShaOf? && i.signature.MacOf?
    && i.payloadSha.payload == p
    && i.signature.mac == Mac(key, i.algorithm, i.keyId, i.signedAt.instant, p)
  }
}
