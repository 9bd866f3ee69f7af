/** Shared vocabulary of the airport node: bytes, fixed-width identifiers,
    digests, the hash function as a parameter, and failure wrappers. */
module Common {

  /** An octet, Go's `byte`. */
  type byte = x: int | 0 <= x < 0x100

  /** A SHA-256 digest, Go's `[32]byte`. */
  type Digest = s: seq<byte> | |s| == 32 witness seq(32, _ => 0)

  /** A 128-bit airport or destination identity, Go's `[16]byte`. */
  type Uuid = s: seq<byte> | |s| == 16 witness seq(16, _ => 0)

  /** An operator's ledger account, Go's `common.Address`. */
  type Address = s: seq<byte> | |s| == 20 witness seq(20, _ => 0)

  /** SHA-256 is not modelled: every operation that hashes takes the hash
      function as a parameter, so every property holds for any function
      from byte strings to 32-byte digests. */
  type Sha256 = seq<byte> -> Digest

  datatype Option<+T> = None | Some(value: T)

  /** The errors the core distinguishes. The messages are opaque. */
  datatype Error =
    | SyntaxFailure(message: string)     // the SQL parser rejected a statement
    | DecodeFailure(message: string)     // an event payload did not unpack
    | GatewayFailure(message: string)    // dispatcher, config, dial or log query failed
    | PermissionDenied                   // only produced by the corrected replay

  /** Splitting a concatenation at its first element. */
  lemma TailOfAppend<T>(a: seq<T>, b: seq<T>)
    requires a != []
    ensures (a + b)[0] == a[0]
    ensures (a + b)[1..] == a[1..] + b
  {
  }

  lemma TailOfPrefix<T>(s: seq<T>, n: nat)
    requires 0 < n <= |s|
    ensures s[..n][0] == s[0]
    ensures s[..n][1..] == s[1..][..n - 1]
  {
  }

  lemma AppendAssoc<T>(a: seq<T>, b: seq<T>, c: seq<T>)
    ensures a + (b + c) == (a + b) + c
  {
  }

  /** The result of unpacking one ledger log into an event record. */
  datatype Decoded<+T> = Decoded(event: T) | Undecodable(err: Error)
}
