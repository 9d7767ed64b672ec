/** The WORM hash chain: how one link is computed, and why a head hash pins the whole
    history behind it. SHA-256 (section 6.2 of FIPS 180-4) is an unknown function; every
    statement of integrity therefore hands over the collision that a forgery would need. */
module Worm {
  import opened Base

  const GENESIS: string := "0000000000000000000000000000000000000000000000000000000000000000"

  // A hash printed as 64 hexadecimal characters.
  type Digest = s: string | |s| == 64 witness GENESIS

  // An arbitrary hash function.
  type Sha256 = Bytes -> Digest

  function ChainHash(sha: Sha256, prev: string, objectHash: string, jobID: string): string {
    sha(prev + objectHash + jobID)
  }

  // One archived window: the raw NDJSON bytes and the job that archived them.
  datatype Record = Record(raw: Bytes, jobID: Uuid)

  // A chain starts at Genesis, or at the empty hash that an empty window leaves behind.
  predicate IsSeed(seed: string) {
    seed == GENESIS || seed == ""
  }

  function Message(sha: Sha256, prev: string, r: Record): Bytes {
    prev + sha(r.raw) + r.jobID
  }

  // The hash of the newest record of a history, oldest record first.
  function Head(sha: Sha256, seed: string, rs: seq<Record>): string {
    if rs == [] then seed
    else ChainHash(sha, Head(sha, seed, rs[..|rs| - 1]), sha(rs[|rs| - 1].raw), rs[|rs| - 1].jobID)
  }

  datatype Evidence = Nothing | Collision(x: Bytes, y: Bytes) | GenesisPreimage(x: Bytes)

  predicate Breaks(sha: Sha256, e: Evidence) {
    match e
    case Nothing => false
    case Collision(x, y) => x != y && sha(x) == sha(y)
    case GenesisPreimage(x) => sha(x) == GENESIS
  }

  // Walks two histories backwards from their heads and returns the first failure of
  // SHA-256 that their difference exhibits.
  function Extract(sha: Sha256, seedA: string, a: seq<Record>, seedB: string, b: seq<Record>): Evidence
    decreases |a|
  {
    if a == [] && b == [] then Nothing
    else if a == [] then GenesisPreimage(Message(sha, Head(sha, seedB, b[..|b| - 1]), b[|b| - 1]))
    else if b == [] then GenesisPreimage(Message(sha, Head(sha, seedA, a[..|a| - 1]), a[|a| - 1]))
    else
      var ra, rb := a[|a| - 1], b[|b| - 1];
      var ma := Message(sha, Head(sha, seedA, a[..|a| - 1]), ra);
      var mb := Message(sha, Head(sha, seedB, b[..|b| - 1]), rb);
      if ma != mb then Collision(ma, mb)
      else if ra.raw != rb.raw then Collision(ra.raw, rb.raw)
      else Extract(sha, seedA, a[..|a| - 1], seedB, b[..|b| - 1])
  }

  lemma HeadLength(sha: Sha256, seed: string, rs: seq<Record>)
    requires IsSeed(seed)
    ensures |Head(sha, seed, rs)| == if rs == [] then |seed| else 64
  {
  }

  /** The unframed text prev || objectHash || jobID decodes in one way only: prev has 0 or
      64 characters, the object hash 64 and the job id 36. */
  lemma MessageDecodes(sha: Sha256, p: string, r: Record, q: string, t: Record)
    requires |p| in {0, 64} && |q| in {0, 64}
    requires Message(sha, p, r) == Message(sha, q, t)
    ensures p == q && sha(r.raw) == sha(t.raw) && r.jobID == t.jobID
  {
    SplitBack(p + sha(r.raw), r.jobID, q + sha(t.raw), t.jobID);
    SplitBack(p, sha(r.raw), q, sha(t.raw));
  }

  lemma HeadIs(sha: Sha256, seed: string, rs: seq<Record>)
    requires rs != []
    ensures Head(sha, seed, rs) == sha(Message(sha, Head(sha, seed, rs[..|rs| - 1]), rs[|rs| - 1]))
  {
  }

  lemma EmptyHead(sha: Sha256, seed: string)
    ensures Head(sha, seed, []) == seed
  {
  }

  /** Two histories of any two lengths with the same head are equal record for record,
      or Extract returns two colliding inputs or a preimage of the Genesis constant. */
  lemma {:induction false} TamperEvident(sha: Sha256, seedA: string, a: seq<Record>, seedB: string, b: seq<Record>)
    requires IsSeed(seedA) && IsSeed(seedB)
    requires Head(sha, seedA, a) == Head(sha, seedB, b)
    ensures (seedA == seedB && a == b) || Breaks(sha, Extract(sha, seedA, a, seedB, b))
    decreases |a|
  {
    hide Head, Message;
    HeadLength(sha, seedA, a);
    HeadLength(sha, seedB, b);
    EmptyHead(sha, seedA);
    EmptyHead(sha, seedB);
    if a != [] {
      HeadIs(sha, seedA, a);
    }
    if b != [] {
      HeadIs(sha, seedB, b);
    }
    if a != [] && b != [] {
      var a', b' := a[..|a| - 1], b[..|b| - 1];
      var ra, rb := a[|a| - 1], b[|b| - 1];
      var pa, pb := Head(sha, seedA, a'), Head(sha, seedB, b');
      if Message(sha, pa, ra) == Message(sha, pb, rb) {
        HeadLength(sha, seedA, a');
        HeadLength(sha, seedB, b');
        MessageDecodes(sha, pa, ra, pb, rb);
        if ra.raw == rb.raw {
          TamperEvident(sha, seedA, a', seedB, b');
          assert a == a' + [ra] && b == b' + [rb];
        }
      }
    }
  }
}
