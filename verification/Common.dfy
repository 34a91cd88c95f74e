/** Small vocabulary shared by every module. */
module Common {

  datatype Option<+T> = None | Some(value: T)

  datatype Result<+T, +E> = Ok(value: T) | Err(error: E)

  type byte = x: int | 0 <= x < 256

  type Bytes = seq<byte>

  /** Fixed 32-byte SHA-256 output. */
  type Digest = b: Bytes | |b| == 32 witness seq(32, _ => 0)

  /** SHA-256 is never opened: every result holds for any function of this type. */
  type Sha256 = Bytes -> Digest

  /** Two given inputs collide. Some pair always does, since inputs outnumber digests, so results that rest
      on collision resistance name the very inputs that would have to collide. */
  predicate Collision(sha: Sha256, a: Bytes, b: Bytes) { a != b && sha(a) == sha(b) }

  const U32_MAX: nat := 0xFFFF_FFFF
  const U64_MAX: nat := 0xFFFF_FFFF_FFFF_FFFF

  /** A usize on the 64-bit targets the sidecar ships for. */
  const USIZE_MAX: nat := U64_MAX

  ghost predicate NoDuplicates<T>(s: seq<T>) {
    forall i, j :: 0 <= i < j < |s| ==> s[i] != s[j]
  }

  function Elements<T(==)>(s: seq<T>): set<T> {
    set x | x in s
  }
}
