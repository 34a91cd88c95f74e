/** Record, state and job values of the proof store (src/store/record.rs, src/store/event.rs). */
module Records {
  import opened Common
  import opened Proofs

  const FAILURE_CODE_MAX_BYTES: nat := 64
  const FAILURE_MESSAGE_MAX_BYTES: nat := 256

  datatype Verdict = Valid | Invalid

  datatype RawFailure = RawFailure(code: Bytes, message: Bytes, retryable: bool)

  predicate IsLower(b: byte) { 97 <= b <= 122 }

  predicate IsDigitOrUnderscore(b: byte) { 48 <= b <= 57 || b == 95 }

  /** A code that starts with a lowercase letter, and both texts within their wire bounds. */
  predicate WireBounded(f: RawFailure) {
    && 1 <= |f.code| <= FAILURE_CODE_MAX_BYTES
    && |f.message| <= FAILURE_MESSAGE_MAX_BYTES
    && IsLower(f.code[0])
    && forall i :: 0 <= i < |f.code| ==> IsLower(f.code[i]) || IsDigitOrUnderscore(f.code[i])
  }

  /** Failures are only made by the validating constructor. */
  type VerificationFailure = f: RawFailure | WireBounded(f) witness RawFailure([97], [], false)

  /** VerificationFailure::new, byte by byte. */
  method NewFailure(code: Bytes, message: Bytes, retryable: bool) returns (r: Option<VerificationFailure>)
    ensures r.Some? <==> WireBounded(RawFailure(code, message, retryable))
    ensures r.Some? ==> r.value == RawFailure(code, message, retryable)
  {
    if code == [] || |code| > FAILURE_CODE_MAX_BYTES {
      return None;
    }
    for index := 0 to |code|
      invariant index > 0 ==> IsLower(code[0])
      invariant forall i :: 0 <= i < index ==> IsLower(code[i]) || IsDigitOrUnderscore(code[i])
    {
      if !(IsLower(code[index]) || (index > 0 && IsDigitOrUnderscore(code[index]))) {
        return None;
      }
    }
    if |message| > FAILURE_MESSAGE_MAX_BYTES {
      return None;
    }
    return Some(RawFailure(code, message, retryable));
  }

  datatype VerificationState =
    | Queued
    | Verifying
    | Completed(verdict: Verdict)
    | Failed(failure: VerificationFailure)

  datatype PeerId = PeerId(key: Bytes)

  datatype ProofSource = Rpc | Peer(peer: PeerId)

  /** Immutable cache value; every transition installs a new one. */
  datatype ProofRecord = ProofRecord(
    chainObservedAt: Option<nat>,
    contentSource: Option<ProofSource>,
    contentStoredAt: Option<nat>,
    verification: Option<VerificationState>,
    completedAt: Option<nat>,
    proof: Option<Proof>)

  datatype Outcome = Verdict(verdict: Verdict) | Failure(failure: VerificationFailure)

  /** A claimed job. `claim` is the identity of the record object installed by the claim. */
  datatype Job = Job(id: VerificationId, proof: Proof, claim: nat)

  datatype EvictionCause = Expired | Explicit | Size

  datatype Event =
    | VerificationObserved(id: VerificationId)
    | ProofStored(id: VerificationId, source: ProofSource)
    | VerificationChanged(id: VerificationId, state: VerificationState)
    | ProofEvicted(id: VerificationId, cause: EvictionCause)

  datatype StoreChange = Inserted | Updated | Unchanged
}
