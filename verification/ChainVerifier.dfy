/** The rainlogs-verify command: one pass over the rows of a project, oldest first. */
module ChainVerifier {
  import opened Base
  import Worm

  datatype Row = Row(id: int, previousHash: string, payload: Bytes)

  datatype Report = Broken(id: int) | Intact(count: nat, lastID: int, finalHash: string)

  function RowHash(sha: Worm.Sha256, r: Row): string {
    sha(r.previousHash + r.payload)
  }

  // Row i does not carry the hash of the row before it.
  predicate BrokenAt(sha: Worm.Sha256, rows: seq<Row>, i: nat) {
    1 <= i < |rows| && rows[i].previousHash != RowHash(sha, rows[i - 1])
  }

  ghost predicate IntactHistory(sha: Worm.Sha256, rows: seq<Row>) {
    forall i: nat :: !BrokenAt(sha, rows, i)
  }

  /** The rows that rows.Next() delivers are a prefix of the table: the loop ends alike
      when the table is exhausted and when the connection fails. */
  method Verify(sha: Worm.Sha256, table: seq<Row>, delivered: nat) returns (report: Report)
    requires delivered <= |table|
    ensures report.Intact? <==> IntactHistory(sha, table[..delivered])
    ensures report.Intact? <==>
              forall i :: 1 <= i < delivered ==> table[i].previousHash == sha(table[i - 1].previousHash + table[i - 1].payload)
    ensures report.Broken? ==>
              exists i: nat :: BrokenAt(sha, table[..delivered], i) && report.id == table[i].id &&
                               forall k: nat :: k < i ==> !BrokenAt(sha, table[..delivered], k)
    ensures report.Intact? ==> report.count == delivered
    ensures report.Intact? && 0 < delivered ==>
              report.lastID == table[delivered - 1].id && report.finalHash == sha(table[delivered - 1].previousHash + table[delivered - 1].payload)
    ensures report.Intact? && delivered == 0 ==> report.finalHash == ""
  {
    var lastHash, lastID, count := "", 0, 0;
    ghost var rows := table[..delivered];
    while count < delivered
      invariant 0 <= count <= delivered
      invariant count == 0 ==> lastHash == ""
      invariant 0 < count ==> lastHash == RowHash(sha, rows[count - 1]) && lastID == rows[count - 1].id
      invariant forall k: nat :: k < count ==> !BrokenAt(sha, rows, k)
      invariant forall i :: 1 <= i < count ==> table[i].previousHash == sha(table[i - 1].previousHash + table[i - 1].payload)
    {
      var row := table[count];
      assert row == rows[count];
      if count > 0 && row.previousHash != lastHash {
        assert BrokenAt(sha, rows, count);
        return Broken(row.id);
      }
      lastHash := RowHash(sha, row);
      lastID := row.id;
      count := count + 1;
    }
    return Intact(count, lastID, lastHash);
  }

  // Rows that carry no hash at all.
  function Blanks(n: nat): (r: seq<Row>)
    ensures |r| == n && forall i :: 0 <= i < n ==> r[i] == Row(0, "", "")
  {
    if n == 0 then [] else [Row(0, "", "")] + Blanks(n - 1)
  }

  // The verdict on the delivered rows is right for the table that the missing rows complete.
  ghost predicate VerdictHolds(sha: Worm.Sha256, delivered: seq<Row>, missing: seq<Row>) {
    IntactHistory(sha, delivered) <==> IntactHistory(sha, delivered + missing)
  }

  lemma BreakStays(sha: Worm.Sha256, delivered: seq<Row>, missing: seq<Row>)
    requires !IntactHistory(sha, delivered)
    ensures !IntactHistory(sha, delivered + missing)
  {
    var i: nat :| BrokenAt(sha, delivered, i);
    assert BrokenAt(sha, delivered + missing, i);
  }

  // Where a row has a predecessor, a row without a hash breaks the chain.
  lemma BlanksBreak(sha: Worm.Sha256, delivered: seq<Row>, n: nat)
    requires n > 0 && |delivered| + n > 1
    ensures !IntactHistory(sha, delivered + Blanks(n))
  {
    var i := if delivered == [] then 1 else |delivered|;
    assert |RowHash(sha, (delivered + Blanks(n))[i - 1])| == 64;
    assert BrokenAt(sha, delivered + Blanks(n), i);
  }

  /** The loop does not ask why rows.Next() ended. When n rows are missing, its verdict is
      right whatever they hold exactly when it has found a break, when nothing is missing,
      or when the table is one single row. */
  lemma VerdictRightExactlyWhen(sha: Worm.Sha256, delivered: seq<Row>, n: nat)
    ensures (forall missing: seq<Row> :: |missing| == n ==> VerdictHolds(sha, delivered, missing)) <==>
            (exists i: nat :: BrokenAt(sha, delivered, i)) || n == 0 || |delivered| + n == 1
  {
    if !IntactHistory(sha, delivered) {
      forall missing: seq<Row> | |missing| == n ensures VerdictHolds(sha, delivered, missing) {
        BreakStays(sha, delivered, missing);
      }
    } else if n == 0 {
      assert forall missing: seq<Row> :: |missing| == n ==> delivered + missing == delivered;
    } else if |delivered| + n > 1 {
      BlanksBreak(sha, delivered, n);
      assert !VerdictHolds(sha, delivered, Blanks(n));
    }
  }

  // Row by row comparison of the shorter history with the end of the longer one.
  function Compare(sha: Worm.Sha256, a: seq<Row>, b: seq<Row>): Worm.Evidence
    requires |a| <= |b|
  {
    if a == [] then Worm.Nothing
    else
      var ra, rb := a[|a| - 1], b[|b| - 1];
      var ma, mb := ra.previousHash + ra.payload, rb.previousHash + rb.payload;
      if ma != mb then Worm.Collision(ma, mb)
      else Compare(sha, a[..|a| - 1], b[..|b| - 1])
  }

  predicate SameContent(a: Row, b: Row) {
    a.previousHash == b.previousHash && a.payload == b.payload
  }

  lemma IntactPrefix(sha: Worm.Sha256, rows: seq<Row>)
    requires rows != [] && IntactHistory(sha, rows)
    ensures IntactHistory(sha, rows[..|rows| - 1])
    ensures 1 < |rows| ==> rows[|rows| - 1].previousHash == RowHash(sha, rows[|rows| - 2])
  {
    var n := |rows| - 1;
    forall i: nat ensures !BrokenAt(sha, rows[..n], i) {
      assert !BrokenAt(sha, rows, i);
    }
    assert !BrokenAt(sha, rows, n);
  }

  /** Two intact histories that report the same final hash agree on every row that both
      have, counted from the newest, or they exhibit a SHA-256 collision. */
  lemma {:induction false} SameFinalHash(sha: Worm.Sha256, a: seq<Row>, b: seq<Row>)
    requires 0 < |a| <= |b|
    requires IntactHistory(sha, a) && IntactHistory(sha, b)
    requires |a[0].previousHash| == 64 && |b[0].previousHash| == 64
    requires RowHash(sha, a[|a| - 1]) == RowHash(sha, b[|b| - 1])
    ensures (forall k :: 0 <= k < |a| ==> SameContent(a[k], b[|b| - |a| + k])) || Worm.Breaks(sha, Compare(sha, a, b))
    decreases |a|
  {
    var n, m := |a| - 1, |b| - 1;
    var a', b' := a[..n], b[..m];
    IntactPrefix(sha, a);
    IntactPrefix(sha, b);
    var ma, mb := a[n].previousHash + a[n].payload, b[m].previousHash + b[m].payload;
    if ma == mb {
      SplitFront(a[n].previousHash, a[n].payload, b[m].previousHash, b[m].payload);
      if a' != [] {
        SameFinalHash(sha, a', b');
        if forall k :: 0 <= k < |a'| ==> SameContent(a'[k], b'[|b'| - |a'| + k]) {
          forall k | 0 <= k < |a| ensures SameContent(a[k], b[|b| - |a| + k]) {
            if k < n {
              assert SameContent(a'[k], b'[|b'| - |a'| + k]);
            }
          }
        }
      }
    }
  }

  /** Nothing anchors the first row: dropping the oldest rows of an intact history leaves
      an intact history with the same final hash, so the command cannot notice it. */
  lemma FrontTruncationUnseen(sha: Worm.Sha256, rows: seq<Row>, k: nat)
    requires IntactHistory(sha, rows) && k < |rows|
    ensures IntactHistory(sha, rows[k..])
    ensures RowHash(sha, rows[k..][|rows| - k - 1]) == RowHash(sha, rows[|rows| - 1])
  {
    forall i: nat ensures !BrokenAt(sha, rows[k..], i) {
      assert !BrokenAt(sha, rows, i + k);
    }
  }
}
