/**
 * Verification of a signed envelope: an outer zip whose entries must be
 * exactly the payload archive and its detached signature, and a
 * SHA256withRSA check of that signature.
 */
module ZipVerification {
  import opened Common

  /** Entry names of the outer archive (ZipVerifiers.java is not part of this model; only their distinctness matters here). */
  const ENVELOPE: string := "envelope.zip"
  const SIGNATURE: string := "signature"

  const INVALID_ZIP_ENTRIES_MESSAGE: string := "Zip entries do not match expected file names"
  const INVALID_SIGNATURE_MESSAGE: string := "Zip signature failed verification"

  /** An outer archive after decoding: entry name to entry bytes. */
  type Archive = map<string, Bytes>

  /** An encoded public key. */
  type PublicKey = Bytes

  /**
   * What java.security.Signature reports for (key, data, signature):
   * verify() returned a boolean, or it threw a SignatureException because
   * the signature is malformed (of the wrong length, say).
   */
  datatype SignatureCheck = Verified(matches: bool) | Malformed

  /** SHA256withRSA, left uninterpreted. */
  type Crypto = (PublicKey, Bytes, Bytes) -> SignatureCheck

  datatype Cause = SignatureException

  datatype ZipError =
    | InvalidZipArchive(message: string)
    | DocSignatureFailure(message: string, cause: Option<Cause>)

  /** The entry-name check: the archive holds the two expected entries and nothing else. */
  function VerifyFileNames(names: set<string>): (r: Result<(), ZipError>)
    ensures r.Ok? <==> names == {ENVELOPE, SIGNATURE}
    ensures r.Err? ==> r.error == InvalidZipArchive(INVALID_ZIP_ENTRIES_MESSAGE)
  {
    if |names| == 2 && ENVELOPE in names && SIGNATURE in names then
      TwoNamesAreThePair(names);
      Ok(())
    else
      Err(InvalidZipArchive(INVALID_ZIP_ENTRIES_MESSAGE))
  }

  /** A two-element set holding both expected names holds nothing else. */
  lemma TwoNamesAreThePair(names: set<string>)
    requires |names| == 2 && ENVELOPE in names && SIGNATURE in names
    ensures names == {ENVELOPE, SIGNATURE}
  {
    var pair := {ENVELOPE, SIGNATURE};
    assert |pair| == 2;
    var rest := names - pair;
    assert names == pair + rest;
    assert |names| == |pair| + |rest|;
    assert rest == {};
  }

  /** Signature verification: every way of failing is the same exception kind with the same message. */
  function VerifySignature(key: PublicKey, data: Bytes, signature: Bytes, crypto: Crypto): (r: Result<(), ZipError>)
    ensures r.Ok? <==> crypto(key, data, signature) == Verified(true)
    ensures r.Err? ==> r.error.DocSignatureFailure? && r.error.message == INVALID_SIGNATURE_MESSAGE
    ensures r.Err? ==> (r.error.cause == Some(SignatureException) <==> crypto(key, data, signature) == Malformed)
  {
    match crypto(key, data, signature)
    case Verified(true) => Ok(())
    case Verified(false) => Err(DocSignatureFailure(INVALID_SIGNATURE_MESSAGE, None))
    case Malformed => Err(DocSignatureFailure(INVALID_SIGNATURE_MESSAGE, Some(SignatureException)))
  }

  /**
   * Verification of a whole envelope: names first, then the signature of the
   * payload entry; on success the payload archive is handed on.
   */
  function VerifyZip(archive: Archive, key: PublicKey, crypto: Crypto): (r: Result<Bytes, ZipError>)
    ensures r.Ok? <==> archive.Keys == {ENVELOPE, SIGNATURE}
                       && crypto(key, archive[ENVELOPE], archive[SIGNATURE]) == Verified(true)
    ensures r.Ok? ==> r.value == archive[ENVELOPE]
    ensures archive.Keys != {ENVELOPE, SIGNATURE} ==> r == Err(InvalidZipArchive(INVALID_ZIP_ENTRIES_MESSAGE))
    ensures archive.Keys == {ENVELOPE, SIGNATURE} && r.Err? ==>
              r.error.DocSignatureFailure? && r.error.message == INVALID_SIGNATURE_MESSAGE
  {
    match VerifyFileNames(archive.Keys)
    case Err(e) => Err(e)
    case Ok(_) =>
      match VerifySignature(key, archive[ENVELOPE], archive[SIGNATURE], crypto)
      case Err(e) => Err(e)
      case Ok(_) => Ok(archive[ENVELOPE])
  }

  /** The outer archive that the signing side builds from a payload and its signature. */
  function SignedEnvelope(payload: Bytes, signature: Bytes): (a: Archive)
  {
    map[ENVELOPE := payload, SIGNATURE := signature]
  }

  /** A correctly signed envelope verifies and yields its payload. */
  lemma SignedEnvelopeVerifies(payload: Bytes, signature: Bytes, key: PublicKey, crypto: Crypto)
    requires crypto(key, payload, signature) == Verified(true)
    ensures VerifyZip(SignedEnvelope(payload, signature), key, crypto) == Ok(payload)
  {
    assert SignedEnvelope(payload, signature).Keys == {ENVELOPE, SIGNATURE};
  }

  /** An envelope signed for another key (or with a corrupt signature) is refused as a signature failure, never accepted. */
  lemma OtherKeyRejected(payload: Bytes, signature: Bytes, key: PublicKey, crypto: Crypto)
    requires crypto(key, payload, signature) != Verified(true)
    ensures VerifyZip(SignedEnvelope(payload, signature), key, crypto).Err?
    ensures VerifyZip(SignedEnvelope(payload, signature), key, crypto).error
         == DocSignatureFailure(INVALID_SIGNATURE_MESSAGE,
                                if crypto(key, payload, signature) == Malformed then Some(SignatureException) else None)
  {
    assert SignedEnvelope(payload, signature).Keys == {ENVELOPE, SIGNATURE};
  }

  /** Adding any third entry name makes the name check fail. */
  lemma ExtraEntryRejected(extra: string)
    requires extra != ENVELOPE && extra != SIGNATURE
    ensures VerifyFileNames({ENVELOPE, SIGNATURE, extra}) == Err(InvalidZipArchive(INVALID_ZIP_ENTRIES_MESSAGE))
  {
    assert extra in {ENVELOPE, SIGNATURE, extra};
  }

  /** Replacing the signature entry by any other name makes the name check fail. */
  lemma SignatureEntryReplacedRejected(other: string)
    requires other != SIGNATURE
    ensures VerifyFileNames({ENVELOPE, other}) == Err(InvalidZipArchive(INVALID_ZIP_ENTRIES_MESSAGE))
  {
    assert SIGNATURE !in {ENVELOPE, other};
  }
}
