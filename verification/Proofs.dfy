/** Proof content and its consensus-compatible identity (src/proof.rs). */
module Proofs {
  import opened Common

  datatype ProofType = MinaPickles | NoirBarretenberg

  datatype Proof = Proof(proofType: ProofType, proof: Bytes, publicInputs: Bytes, verificationKey: Bytes)

  datatype VerificationId = VerificationId(bytes: Digest)

  function TypeNumber(t: ProofType): (n: nat) {
    match t
    case MinaPickles => 1
    case NoirBarretenberg => 2
  }

  /** Conversion from the wire enum; anything else, the unspecified zero included, is refused. */
  function TypeFromNumber(n: int): (r: Option<ProofType>)
    ensures forall t :: r == Some(t) <==> TypeNumber(t) == n
  {
    if n == 1 then Some(MinaPickles) else if n == 2 then Some(NoirBarretenberg) else None
  }

  /** The ASCII bytes of "pulsar/verification/v1" and a final zero. */
  const DOMAIN: Bytes :=
    [112, 117, 108, 115, 97, 114, 47, 118, 101, 114, 105, 102, 105, 99, 97, 116, 105, 111, 110, 47, 118, 49, 0]

  function BigEndian32(n: nat): Bytes
    requires n <= U32_MAX
  {
    [n / 0x100_0000, n / 0x1_0000 % 0x100, n / 0x100 % 0x100, n % 0x100]
  }

  function Preimage(t: ProofType, proofHash: Digest, inputsHash: Digest, keyHash: Digest): Bytes {
    DOMAIN + BigEndian32(TypeNumber(t)) + proofHash + inputsHash + keyHash
  }

  function FromComponentHashes(sha: Sha256, t: ProofType, proofHash: Digest, inputsHash: Digest, keyHash: Digest)
    : VerificationId
  {
    VerificationId(sha(Preimage(t, proofHash, inputsHash, keyHash)))
  }

  function IdOf(sha: Sha256, p: Proof): VerificationId {
    FromComponentHashes(sha, p.proofType, sha(p.proof), sha(p.publicInputs), sha(p.verificationKey))
  }

  /** The hashed concatenation is unambiguous: each part sits at a fixed offset. */
  lemma PreimageInjective(t: ProofType, a: Digest, b: Digest, c: Digest, t': ProofType, a': Digest, b': Digest, c': Digest)
    requires Preimage(t, a, b, c) == Preimage(t', a', b', c')
    ensures t == t' && a == a' && b == b' && c == c'
  {
    var m, m' := Preimage(t, a, b, c), Preimage(t', a', b', c');
    assert m[26] == TypeNumber(t) && m'[26] == TypeNumber(t');
    assert m[27..59] == a && m'[27..59] == a';
    assert m[59..91] == b && m'[59..91] == b';
    assert m[91..123] == c && m'[91..123] == c';
  }

  /** What is hashed to identify a proof. */
  function IdPreimage(sha: Sha256, p: Proof): Bytes {
    Preimage(p.proofType, sha(p.proof), sha(p.publicInputs), sha(p.verificationKey))
  }

  /** The artifacts of the two proofs collide at some place. */
  predicate ArtifactsCollide(sha: Sha256, p: Proof, q: Proof) {
    || Collision(sha, p.proof, q.proof)
    || Collision(sha, p.publicInputs, q.publicInputs)
    || Collision(sha, p.verificationKey, q.verificationKey)
  }

  /** Two proofs share an identifier only when they agree in type, proof, statement and key, or when their
      identifier preimages, or two artifacts in the same place, are a SHA-256 collision. */
  lemma IdentityBindsEveryComponent(sha: Sha256, p: Proof, q: Proof)
    requires IdOf(sha, p) == IdOf(sha, q)
    ensures p == q || Collision(sha, IdPreimage(sha, p), IdPreimage(sha, q)) || ArtifactsCollide(sha, p, q)
  {
    if IdPreimage(sha, p) == IdPreimage(sha, q) {
      PreimageInjective(p.proofType, sha(p.proof), sha(p.publicInputs), sha(p.verificationKey),
                        q.proofType, sha(q.proof), sha(q.publicInputs), sha(q.verificationKey));
    }
  }
}
