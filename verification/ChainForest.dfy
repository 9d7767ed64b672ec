/** The shape of the hash chain under concurrency: a forest whose edges point to rows
    that became done strictly earlier, and one path when the attempts of a zone do not
    overlap. */
module ChainForest {
  import opened Base
  import opened Calendar
  import opened Blob
  import opened ObjectStore
  import opened Pipeline
  import Lifecycle
  import Worm

  // A link computed for a job of the zone that becomes done at the given rank or later.
  predicate LinkOk(env: Env, rows: seq<Job>, j: Job, raw: Bytes, parent: Option<nat>, chain: string, rank: nat) {
    && (parent.Some? ==>
          && parent.value < |rows| && Settled(rows[parent.value])
          && rows[parent.value].window.zone == j.window.zone && rows[parent.value].doneAt < rank)
    && chain == Worm.ChainHash(env.codec.sha, ParentHash(rows, parent), env.codec.sha(raw), j.id)
  }

  predicate RowLinked(env: Env, rows: seq<Job>, j: Job, doneCount: nat) {
    Settled(j) ==> j.doneAt < doneCount && (j.key != "" ==> LinkOk(env, rows, j, j.raw, j.parent, j.chain, j.doneAt))
  }

  predicate StageLinked(env: Env, rows: seq<Job>, j: Job, a: Stage, doneCount: nat) {
    a.Linked? || a.Stored? ==> LinkOk(env, rows, j, a.raw, a.parent, a.chain, doneCount)
  }

  ghost predicate Forest(env: Env, s: System) {
    && |s.attempts| == |s.rows|
    && (forall i :: 0 <= i < |s.rows| ==> RowLinked(env, s.rows, s.rows[i], s.doneCount))
    && (forall i :: 0 <= i < |s.rows| ==> StageLinked(env, s.rows, s.rows[i], s.attempts[i], s.doneCount))
  }

  // A link stays what it is while rows follow their life cycle.
  lemma LinkStays(env: Env, a: seq<Job>, b: seq<Job>, j: Job, raw: Bytes, parent: Option<nat>, chain: string, rank: nat, rank': nat)
    requires RowsFollow(a, b) && LinkOk(env, a, j, raw, parent, chain, rank) && rank <= rank'
    ensures LinkOk(env, b, j, raw, parent, chain, rank')
  {
    if parent.Some? {
      assert Follows(a[parent.value], b[parent.value]);
    }
  }

  lemma RowStays(env: Env, a: seq<Job>, b: seq<Job>, i: nat, n: nat, m: nat)
    requires RowsFollow(a, b) && i < |a| && n <= m && Settled(a[i])
    requires RowLinked(env, a, a[i], n)
    ensures RowLinked(env, b, b[i], m)
  {
    assert Follows(a[i], b[i]);
    if b[i].key != "" {
      LinkStays(env, a, b, a[i], a[i].raw, a[i].parent, a[i].chain, a[i].doneAt, a[i].doneAt);
    }
  }

  lemma StageStays(env: Env, a: seq<Job>, b: seq<Job>, i: nat, x: Stage, n: nat, m: nat)
    requires RowsFollow(a, b) && i < |a| && n <= m
    requires StageLinked(env, a, a[i], x, n)
    ensures StageLinked(env, b, b[i], x, m)
  {
    assert Follows(a[i], b[i]);
    if x.Linked? || x.Stored? {
      LinkStays(env, a, b, a[i], x.raw, x.parent, x.chain, n, m);
    }
  }

  // The stage that the moved attempt reaches.
  lemma MovedStage(env: Env, s: System, e: Event, t: System)
    requires Inv(env, s) && Forest(env, s) && Step(env, s, e) == Some(t) && Moved(e).Some?
    ensures e.i < |s.rows| == |t.attempts| && s.doneCount <= t.doneCount
    ensures StageLinked(env, s.rows, s.rows[e.i], t.attempts[e.i], s.doneCount)
  {
    hide PrepareBlob, FourDigitYear, PutAll, Usage, MonthBegin, ListsOk, RowShape, StageShape;
    assert StageLinked(env, s.rows, s.rows[e.i], s.attempts[e.i], s.doneCount);
    if e.Link? {
      var r := LastDone(s.rows, s.rows[e.i].window.zone);
      if r.Some? {
        assert RowLinked(env, s.rows, s.rows[r.value], s.doneCount);
      }
    }
  }

  // The row that the closing write leaves behind, judged by the rows before the write.
  lemma ClosedRow(env: Env, s: System, e: Event, t: System)
    requires Inv(env, s) && Forest(env, s) && Step(env, s, e) == Some(t) && Lifecycle.Closes(e)
    ensures e.i < |s.rows| == |t.rows| && s.doneCount <= t.doneCount
    ensures RowLinked(env, s.rows, t.rows[e.i], t.doneCount)
  {
    hide PrepareBlob, FourDigitYear, PutAll, Usage, MonthBegin, ListsOk, LastDone;
    assert StageLinked(env, s.rows, s.rows[e.i], s.attempts[e.i], s.doneCount);
    assert RowShape(env, s.rows[e.i]) && StageShape(env, s.rows[e.i], s.attempts[e.i]);
  }

  lemma CountGrows(env: Env, s: System, e: Event, t: System)
    requires Step(env, s, e) == Some(t)
    ensures s.doneCount <= t.doneCount
  {
    hide PrepareBlob, FourDigitYear, PutAll, DeleteAll, GetFirst, LastDone, Usage, InFlight, MonthBegin, DueRows, NewestKeyed;
  }

  lemma RowAfter(env: Env, s: System, e: Event, t: System, i: nat)
    requires Inv(env, s) && Forest(env, s) && Step(env, s, e) == Some(t) && RowsFollow(s.rows, t.rows)
    requires i < |t.rows|
    ensures RowLinked(env, t.rows, t.rows[i], t.doneCount)
  {
    hide PrepareBlob, FourDigitYear, Step, ListsOk, RowShape, StageShape, LinkOk, RowsFollow;
    Lifecycle.Frame(env, s, e, t);
    CountGrows(env, s, e, t);
    if i < |s.rows| {
      assert RowLinked(env, s.rows, s.rows[i], s.doneCount);
      if Settled(s.rows[i]) {
        RowStays(env, s.rows, t.rows, i, s.doneCount, t.doneCount);
      } else if Written(s, e) == Some(i) {
        ClosedRow(env, s, e, t);
        if Settled(t.rows[i]) && t.rows[i].key != "" {
          var j := t.rows[i];
          LinkStays(env, s.rows, t.rows, j, j.raw, j.parent, j.chain, j.doneAt, j.doneAt);
        }
      }
    }
  }

  lemma StageAfter(env: Env, s: System, e: Event, t: System, i: nat)
    requires Inv(env, s) && Forest(env, s) && Step(env, s, e) == Some(t) && RowsFollow(s.rows, t.rows)
    requires i < |t.rows| == |t.attempts|
    ensures StageLinked(env, t.rows, t.rows[i], t.attempts[i], t.doneCount)
  {
    hide PrepareBlob, FourDigitYear, Step, ListsOk, RowShape, StageShape, LinkOk, RowsFollow;
    Lifecycle.Frame(env, s, e, t);
    CountGrows(env, s, e, t);
    if i < |s.rows| {
      if Moved(e) == Some(i) {
        MovedStage(env, s, e, t);
      } else {
        assert StageLinked(env, s.rows, s.rows[i], s.attempts[i], s.doneCount);
      }
      StageStays(env, s.rows, t.rows, i, t.attempts[i], s.doneCount, t.doneCount);
    }
  }

  lemma AttemptsMatch(env: Env, s: System)
    requires Inv(env, s)
    ensures |s.attempts| == |s.rows|
  {
    hide ListsOk, RowShape, StageShape;
  }

  lemma {:induction false} ForestKept(env: Env, s: System, es: seq<Event>, t: System)
    requires Inv(env, s) && Forest(env, s) && Runs(env, s, es, t)
    ensures Inv(env, t) && Forest(env, t)
    decreases |es|
  {
    hide Inv, RowsFollow, Step, RowLinked, StageLinked;
    if es != [] {
      var next := Step(env, s, es[0]).value;
      Lifecycle.StepKeeps(env, s, es[0], next);
      AttemptsMatch(env, next);
      forall i | 0 <= i < |next.rows| ensures RowLinked(env, next.rows, next.rows[i], next.doneCount) {
        RowAfter(env, s, es[0], next, i);
      }
      forall i | 0 <= i < |next.rows| ensures StageLinked(env, next.rows, next.rows[i], next.attempts[i], next.doneCount) {
        StageAfter(env, s, es[0], next, i);
      }
      ForestKept(env, next, es[1..], t);
    }
  }

  // ── Histories ──────────────────────────────────────────────────────────────────────

  predicate Archived(s: System, i: nat) {
    i < |s.rows| && Settled(s.rows[i]) && s.rows[i].key != ""
  }

  // The row that an archived row is linked to, when that row archived something too.
  function Predecessor(s: System, i: nat): Option<nat>
    requires Archived(s, i)
  {
    var p := s.rows[i].parent;
    if p.Some? && p.value < |s.rows| && Settled(s.rows[p.value]) && s.rows[p.value].key != ""
       && s.rows[p.value].doneAt < s.rows[i].doneAt
    then p else None
  }

  // Following the links from an archived row ends: every step goes to an earlier rank.
  function Ancestry(s: System, i: nat): seq<Worm.Record>
    requires Archived(s, i)
    decreases s.rows[i].doneAt
  {
    var p := Predecessor(s, i);
    (if p.Some? then Ancestry(s, p.value) else []) + [Worm.Record(s.rows[i].raw, s.rows[i].id)]
  }

  function Seed(s: System, i: nat): string
    requires Archived(s, i)
    decreases s.rows[i].doneAt
  {
    var p := Predecessor(s, i);
    if p.Some? then Seed(s, p.value) else if s.rows[i].parent.None? then Worm.GENESIS else ""
  }

  lemma {:induction false} ChainIsHead(env: Env, s: System, i: nat)
    requires Inv(env, s) && Forest(env, s) && Archived(s, i)
    ensures Worm.IsSeed(Seed(s, i))
    ensures s.rows[i].chain == Worm.Head(env.codec.sha, Seed(s, i), Ancestry(s, i))
    decreases s.rows[i].doneAt
  {
    hide PrepareBlob, FourDigitYear, ListsOk, StageShape;
    var j := s.rows[i];
    assert RowLinked(env, s.rows, j, s.doneCount);
    var p := Predecessor(s, i);
    var before := if p.Some? then Ancestry(s, p.value) else [];
    assert Ancestry(s, i)[..|Ancestry(s, i)| - 1] == before;
    if p.Some? {
      ChainIsHead(env, s, p.value);
    } else if j.parent.Some? {
      assert RowShape(env, s.rows[j.parent.value]);
    }
  }

  /** In every reachable state, the chain hash of an archived row pins all the bytes and job
      ids behind it: any other history that yields the hash hands over a SHA-256 collision
      or a preimage of the Genesis constant. */
  lemma StoredHashPinsHistory(env: Env, s: System, es: seq<Event>, t: System, i: nat, seed: string, claimed: seq<Worm.Record>)
    requires Initial(s) && Runs(env, s, es, t) && Archived(t, i)
    requires Worm.IsSeed(seed) && Worm.Head(env.codec.sha, seed, claimed) == t.rows[i].chain
    ensures (seed == Seed(t, i) && claimed == Ancestry(t, i)) ||
            Worm.Breaks(env.codec.sha, Worm.Extract(env.codec.sha, seed, claimed, Seed(t, i), Ancestry(t, i)))
  {
    hide Inv, Worm.Breaks, Worm.Extract;
    Lifecycle.InitialInv(env, s);
    ForestKept(env, s, es, t);
    ChainIsHead(env, t, i);
    Worm.TamperEvident(env.codec.sha, seed, claimed, Seed(t, i), Ancestry(t, i));
  }

  /** Every link of a reachable state: an archived row hashes Genesis, the empty hash of an
      empty window, or the hash of a row of its zone that became done strictly earlier. */
  lemma ReachableLink(env: Env, s: System, es: seq<Event>, t: System, i: nat)
    requires Initial(s) && Runs(env, s, es, t) && Archived(t, i)
    ensures var j, sha := t.rows[i], env.codec.sha;
            match j.parent
            case None => j.chain == sha(Worm.GENESIS + sha(j.raw) + j.id)
            case Some(k) =>
              && k < |t.rows| && Settled(t.rows[k]) && t.rows[k].window.zone == j.window.zone && t.rows[k].doneAt < j.doneAt
              && j.chain == sha(t.rows[k].chain + sha(j.raw) + j.id) && (t.rows[k].key == "" ==> t.rows[k].chain == "")
  {
    hide PrepareBlob, FourDigitYear, ListsOk, StageShape, Step;
    Lifecycle.InitialInv(env, s);
    ForestKept(env, s, es, t);
    var j := t.rows[i];
    assert RowLinked(env, t.rows, j, t.doneCount);
    if j.parent.Some? {
      assert RowShape(env, t.rows[j.parent.value]);
    }
  }
}
