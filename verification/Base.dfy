// Shared vocabulary: optional values, UUID texts and the two facts about
// concatenation that every unframed format in RainLogs depends on.
module Base {
  datatype Option<+T> = None | Some(value: T)

  datatype Result<+T> = Ok(value: T) | Err(message: string)

  // Instants are counted in nanoseconds.
  const SECOND: int := 1_000_000_000

  // Go strings and []byte values are both byte sequences; a char stands for one byte.
  type Bytes = string

  // The canonical text of a UUID.
  type Uuid = s: string | |s| == 36 witness "00000000-0000-0000-0000-000000000000"

  // What one call to a remote service can do: succeed, fail without effect, or
  // take effect although the caller sees an error (a lost reply).
  datatype Outcome = Success | Failure | LostReply

  /** Two concatenations whose first parts have the same length agree part by part. */
  lemma SplitFront<T>(a: seq<T>, b: seq<T>, c: seq<T>, d: seq<T>)
    requires |a| == |c| && a + b == c + d
    ensures a == c && b == d
  {
    assert a == (a + b)[..|a|] && b == (a + b)[|a|..];
    assert c == (c + d)[..|a|] && d == (c + d)[|a|..];
  }

  /** Two concatenations whose last parts have the same length agree part by part. */
  lemma SplitBack<T>(a: seq<T>, b: seq<T>, c: seq<T>, d: seq<T>)
    requires |b| == |d| && a + b == c + d
    ensures a == c && b == d
  {
    assert |a + b| == |c + d|;
    SplitFront(a, b, c, d);
  }
}
