/** What the object stores hold over every run, and what comes back from them. */
module Archive {
  import opened Base
  import opened Calendar
  import opened Blob
  import opened ObjectStore
  import opened Pipeline
  import Lifecycle
  import ChainForest
  import Uploads
  import Worm

  ghost predicate FromPut(env: Env, puts: seq<Put>, key: string, blob: Bytes) {
    exists x :: x in puts && x.key == key && blob == env.codec.gzip(x.raw)
  }

  // Every stored object was uploaded under its key by some put of the run.
  ghost predicate Sourced(env: Env, stores: seq<Objects>, puts: seq<Put>) {
    forall p, k :: 0 <= p < |stores| && k in stores[p] ==> FromPut(env, puts, k, stores[p][k])
  }

  predicate RowPut(puts: seq<Put>, j: Job, a: Stage) {
    && (j.key != "" ==> Put(j.key, j.raw) in puts)
    && (a.Stored? ==> Put(a.meta.key, a.raw) in puts)
  }

  ghost predicate Traced(env: Env, s: System) {
    && |s.attempts| == |s.rows|
    && Sourced(env, s.stores, s.puts)
    && forall i :: 0 <= i < |s.rows| ==> RowPut(s.puts, s.rows[i], s.attempts[i])
  }

  lemma PutSourced(env: Env, a: seq<Objects>, b: seq<Objects>, puts: seq<Put>, x: Put)
    requires Sourced(env, a, puts) && |b| == |a|
    requires forall p :: 0 <= p < |a| ==> b[p] == a[p] || b[p] == a[p][x.key := env.codec.gzip(x.raw)]
    ensures Sourced(env, b, puts + [x])
  {
    forall p, k | 0 <= p < |b| && k in b[p] ensures FromPut(env, puts + [x], k, b[p][k]) {
      if k == x.key && b[p][k] == env.codec.gzip(x.raw) {
        assert x in puts + [x];
      } else {
        assert FromPut(env, puts, k, a[p][k]);
        var y :| y in puts && y.key == k && a[p][k] == env.codec.gzip(y.raw);
        assert y in puts + [x];
      }
    }
  }

  lemma FewerSourced(env: Env, a: seq<Objects>, b: seq<Objects>, puts: seq<Put>, key: string)
    requires Sourced(env, a, puts) && |b| == |a|
    requires forall p :: 0 <= p < |a| ==> b[p] == a[p] || b[p] == a[p] - {key}
    ensures Sourced(env, b, puts)
  {
    forall p, k | 0 <= p < |b| && k in b[p] ensures FromPut(env, puts, k, b[p][k]) {
      assert FromPut(env, puts, k, a[p][k]);
    }
  }

  lemma StoresStep(env: Env, s: System, e: Event, t: System)
    requires Sourced(env, s.stores, s.puts) && Step(env, s, e) == Some(t)
    ensures Sourced(env, t.stores, t.puts)
  {
    hide Step, Sourced, PrepareBlob;
    if e.Store? || e.InstantPut? {
      var x := Uploads.UploadFrame(env, s, e, t);
      PutSourced(env, s.stores, t.stores, s.puts, x);
    } else if e.ExpireDelete? || e.EraseDelete? {
      var key := Lifecycle.DeleteFrame(env, s, e, t);
      FewerSourced(env, s.stores, t.stores, s.puts, key);
    } else {
      Lifecycle.StoresFrame(env, s, e, t);
      Uploads.PutsStep(env, s, e, t);
    }
  }

  lemma MovePut(env: Env, s: System, e: Event, t: System)
    requires Step(env, s, e) == Some(t) && Moved(e).Some? && At(s, e.i) && s.puts <= t.puts
    requires RowPut(s.puts, s.rows[e.i], s.attempts[e.i])
    ensures e.i < |t.rows| && e.i < |t.attempts| && RowPut(t.puts, t.rows[e.i], t.attempts[e.i])
  {
    hide PutAll, LastDone, Usage, MonthBegin, KeyTail, FourDigitYear, NewLines;
  }

  lemma RowPutStep(env: Env, s: System, e: Event, t: System, i: nat)
    requires Inv(env, s) && Traced(env, s) && Step(env, s, e) == Some(t) && RowsFollow(s.rows, t.rows)
    requires Lifecycle.Framed(s, e, t) && s.puts <= t.puts && i < |s.rows|
    ensures i < |t.rows| == |t.attempts| && RowPut(t.puts, t.rows[i], t.attempts[i])
  {
    hide PrepareBlob, FourDigitYear, StageShape, ListsOk, Sourced, Step;
    assert Follows(s.rows[i], t.rows[i]);
    assert RowPut(s.puts, s.rows[i], s.attempts[i]);
    assert RowShape(env, s.rows[i]);
    if Moved(e) == Some(i) {
      MovePut(env, s, e, t);
    } else if Written(s, e) == Some(i) {
      Lifecycle.Frame(env, s, e, t);
    }
  }

  lemma TracedStep(env: Env, s: System, e: Event, t: System)
    requires Inv(env, s) && Traced(env, s) && Step(env, s, e) == Some(t)
    ensures Traced(env, t)
  {
    hide PrepareBlob, FourDigitYear, Inv, Sourced, Step, RowsFollow;
    Lifecycle.StepKeeps(env, s, e, t);
    Lifecycle.Frame(env, s, e, t);
    Uploads.PutsStep(env, s, e, t);
    StoresStep(env, s, e, t);
    forall i | 0 <= i < |t.rows| ensures RowPut(t.puts, t.rows[i], t.attempts[i]) {
      if i < |s.rows| {
        RowPutStep(env, s, e, t, i);
      }
    }
  }

  lemma {:induction false} TracedRun(env: Env, s: System, es: seq<Event>, t: System)
    requires Inv(env, s) && Traced(env, s) && Runs(env, s, es, t)
    ensures Inv(env, t) && Traced(env, t)
    decreases |es|
  {
    hide Inv, Step, Traced;
    if es != [] {
      var next := Step(env, s, es[0]).value;
      Lifecycle.StepKeeps(env, s, es[0], next);
      TracedStep(env, s, es[0], next);
      TracedRun(env, next, es[1..], t);
    }
  }

  lemma InitialTraced(env: Env, s: System)
    requires Initial(s)
    ensures Inv(env, s) && Traced(env, s)
  {
    Lifecycle.InitialInv(env, s);
  }

  /** The columns of a reachable row that names an object say what that object is: hash and
      size of the compressed bytes, and the fields of its key at their places. */
  lemma ArchivedRowReads(env: Env, s: System, es: seq<Event>, t: System, i: nat)
    requires Initial(s) && Runs(env, s, es, t) && i < |t.rows| && t.rows[i].key != ""
    ensures var j := t.rows[i];
            && j.sha256 == env.codec.sha(env.codec.gzip(j.raw)) && j.bytes == |env.codec.gzip(j.raw)| && 138 <= |j.key|
            && j.key[..|j.key| - 138] == (if j.kind == Pull then "logs" else "security")
            && TailFields(j.key[|j.key| - 138..], j.window, j.sha256[..8])
  {
    hide PrepareBlob, FourDigitYear, ListsOk, StageShape, TailFields;
    Lifecycle.InitialInv(env, s);
    Lifecycle.RunKeeps(env, s, es, t);
    Lifecycle.RowShapeOf(env, t, i);
    PreparedObject(env.codec, t.rows[i].raw, t.rows[i].window, LogType(t.rows[i].kind));
  }

  /** An instant-log batch is stored under a key of its own kind. */
  lemma InstantKeyReads(env: Env, s: System, w: Window, raw: Bytes, faults: seq<Outcome>, t: System)
    requires Step(env, s, InstantPut(w, raw, faults)) == Some(t)
    ensures |t.puts| == |s.puts| + 1 && t.puts[|s.puts|].raw == raw
    ensures var key := t.puts[|s.puts|].key;
            138 <= |key| && key[..|key| - 138] == "instant" && TailFields(key[|key| - 138..], w, env.codec.sha(env.codec.gzip(raw))[..8])
  {
    hide PrepareBlob, FourDigitYear, PutAll, TailFields;
    PreparedObject(env.codec, raw, w, INSTANT);
  }

  // ── Downloads ──────────────────────────────────────────────────────────────────────

  /** Whatever fails, a download only ever returns bytes that were uploaded under the key. */
  lemma DownloadIsUpload(env: Env, s: System, es: seq<Event>, t: System, key: string, faults: seq<Outcome>)
    requires Lawful(env.codec) && Initial(s) && Runs(env, s, es, t) && |faults| == |t.stores|
    ensures var data := GetFirst(env.codec, t.stores, faults, key);
            data.Some? ==> Put(key, data.value) in t.puts
  {
    hide Inv, Step;
    InitialTraced(env, s);
    TracedRun(env, s, es, t);
    var data := GetFirst(env.codec, t.stores, faults, key);
    if data.Some? {
      GetFirstSource(env.codec, t.stores, faults, key);
      var i :| 0 <= i < |t.stores| && Readable(env.codec, t.stores[i], faults[i], key) &&
        env.codec.gunzip(t.stores[i][key]) == Some(data.value);
      assert FromPut(env, t.puts, key, t.stores[i][key]);
      var x :| x in t.puts && x.key == key && t.stores[i][key] == env.codec.gzip(x.raw);
      assert x == Put(key, data.value);
    }
  }

  // No two uploads of different bytes share a key. By Blob.KeyInjective the exception
  // needs one window, one log type and a clash of the first eight hash digits.
  ghost predicate NoClash(puts: seq<Put>) {
    forall x, y :: x in puts && y in puts && x.key == y.key ==> x.raw == y.raw
  }

  /** Without such a clash an archived job's download is the bytes it archived, and hashing
      them again with the parent's chain hash gives the job's chain hash. */
  lemma DownloadRecomputesLink(env: Env, s: System, es: seq<Event>, t: System, i: nat, faults: seq<Outcome>)
    requires Lawful(env.codec) && Initial(s) && Runs(env, s, es, t) && |faults| == |t.stores| && NoClash(t.puts)
    requires i < |t.rows| && t.rows[i].key != ""
    ensures var j, data := t.rows[i], GetFirst(env.codec, t.stores, faults, t.rows[i].key);
            data.Some? ==>
              && data.value == j.raw
              && (j.parent.Some? ==> j.parent.value < |t.rows|)
              && j.chain == Worm.ChainHash(env.codec.sha, ParentHash(t.rows, j.parent), env.codec.sha(data.value), j.id)
  {
    hide RowsOk, ListsOk, Step;
    InitialTraced(env, s);
    TracedRun(env, s, es, t);
    DownloadIsUpload(env, s, es, t, t.rows[i].key, faults);
    assert RowPut(t.puts, t.rows[i], t.attempts[i]);
    ChainForest.ForestKept(env, s, es, t);
    Lifecycle.KeyedSettled(env, t);
    assert ChainForest.RowLinked(env, t.rows, t.rows[i], t.doneCount);
  }

  /** The API guide recomputes a link from the sha256 column. The column holds the hash of
      the compressed bytes, so on an archived job the recipe gives the stored chain hash
      exactly when the two hashes are the same or it exhibits a SHA-256 collision. */
  lemma DocumentedRecipeHoldsExactlyWhen(env: Env, s: System, es: seq<Event>, t: System, i: nat)
    requires Initial(s) && Runs(env, s, es, t) && i < |t.rows| && t.rows[i].key != ""
    ensures var j, sha := t.rows[i], env.codec.sha;
            && (j.parent.Some? ==> j.parent.value < |t.rows|)
            && var prev := ParentHash(t.rows, j.parent);
               (j.chain == Worm.ChainHash(sha, prev, j.sha256, j.id) <==>
                sha(j.raw) == sha(env.codec.gzip(j.raw)) ||
                Worm.Breaks(sha, Worm.Collision(prev + sha(j.raw) + j.id, prev + j.sha256 + j.id)))
  {
    hide FourDigitYear, ListsOk, StageShape, KeyTail, Step;
    Lifecycle.InitialInv(env, s);
    ChainForest.ForestKept(env, s, es, t);
    Lifecycle.KeyedSettled(env, t);
    var j, sha := t.rows[i], env.codec.sha;
    assert RowShape(env, j) && ChainForest.RowLinked(env, t.rows, j, t.doneCount);
    var prev := ParentHash(t.rows, j.parent);
    if prev + sha(j.raw) + j.id == prev + j.sha256 + j.id {
      SplitBack(prev + sha(j.raw), j.id, prev + j.sha256, j.id);
      SplitFront(prev, sha(j.raw), prev, j.sha256);
    }
  }

  // ── The verify task ────────────────────────────────────────────────────────────────

  /** The verify task compares the hash of the decompressed bytes with a column that holds
      the hash of the compressed bytes. On an honest archive it passes exactly when the two
      hashes are the same, and the row's own data prove it. */
  lemma VerifyPassesExactlyWhen(env: Env, s: System, es: seq<Event>, t: System, i: nat, faults: seq<Outcome>)
    requires Lawful(env.codec) && Initial(s) && Runs(env, s, es, t) && |faults| == |t.stores| && NoClash(t.puts)
    requires i < |t.rows| && t.rows[i].key != ""
    ensures Step(env, t, Verify(i, faults)).Some? <==>
            GetFirst(env.codec, t.stores, faults, t.rows[i].key).Some? &&
            env.codec.sha(t.rows[i].raw) == env.codec.sha(env.codec.gzip(t.rows[i].raw))
  {
    hide FourDigitYear, ListsOk, StageShape, KeyTail, Usage, LastDone, PutAll, GetFirst;
    InitialTraced(env, s);
    TracedRun(env, s, es, t);
    DownloadRecomputesLink(env, s, es, t, i, faults);
    assert RowShape(env, t.rows[i]);
  }

  ghost predicate VerifiedAlike(env: Env, s: System) {
    forall i :: 0 <= i < |s.rows| && s.rows[i].verified ==>
      env.codec.sha(s.rows[i].raw) == env.codec.sha(env.codec.gzip(s.rows[i].raw))
  }

  lemma VerifyFaults(env: Env, s: System, e: Event, t: System)
    requires e.Verify? && Step(env, s, e) == Some(t)
    ensures |e.faults| == |s.stores| && e.i < |s.rows| && s.rows[e.i].key != "" && t.rows[e.i] == s.rows[e.i].(verified := true)
  {
    hide GetFirst;
  }

  lemma OnlyVerifyStamps(env: Env, s: System, e: Event, t: System, i: nat)
    requires Inv(env, s) && Step(env, s, e) == Some(t) && i < |s.rows| && i < |t.rows| && !s.rows[i].verified
    requires !(e.Verify? && e.i == i)
    ensures !t.rows[i].verified
  {
    hide PrepareBlob, FourDigitYear, RowShape, StageShape, DueSweep, EraseSweep, PutAll, DeleteAll, GetFirst, LastDone, Usage,
         InFlight, DueRows, NewestKeyed, MonthBegin;
  }

  lemma VerifiedStep(env: Env, s: System, es: seq<Event>, m: System, e: Event, t: System)
    requires Lawful(env.codec) && Initial(s) && Runs(env, s, es, m) && Step(env, m, e) == Some(t)
    requires NoClash(m.puts) && Inv(env, m) && VerifiedAlike(env, m)
    ensures VerifiedAlike(env, t)
  {
    hide PrepareBlob, FourDigitYear, ListsOk, StageShape, Step, GetFirst, VerifyStep;
    Lifecycle.StepKeeps(env, m, e, t);
    Lifecycle.Frame(env, m, e, t);
    forall i | 0 <= i < |t.rows| && t.rows[i].verified
      ensures env.codec.sha(t.rows[i].raw) == env.codec.sha(env.codec.gzip(t.rows[i].raw))
    {
      if i < |m.rows| {
        assert Follows(m.rows[i], t.rows[i]);
        assert RowShape(env, m.rows[i]) && RowShape(env, t.rows[i]);
        if e.Verify? && e.i == i {
          VerifyFaults(env, m, e, t);
          VerifyPassesExactlyWhen(env, s, es, m, i, e.faults);
        } else if !m.rows[i].verified {
          OnlyVerifyStamps(env, m, e, t, i);
        }
      }
    }
  }

  lemma ClashPrefix(a: seq<Put>, b: seq<Put>)
    requires a <= b && NoClash(b)
    ensures NoClash(a)
  {
  }

  lemma {:induction false} VerifiedRun(env: Env, s: System, es: seq<Event>, m: System, es': seq<Event>, t: System)
    requires Lawful(env.codec) && Initial(s) && Runs(env, s, es, m) && Runs(env, m, es', t) && NoClash(t.puts)
    requires Inv(env, m) && VerifiedAlike(env, m)
    ensures VerifiedAlike(env, t)
    decreases |es'|
  {
    hide Inv, Step, VerifiedAlike, Initial, Lawful, NoClash;
    if es' != [] {
      var next := Step(env, m, es'[0]).value;
      Uploads.PutsGrow(env, m, es', t);
      ClashPrefix(m.puts, t.puts);
      VerifiedStep(env, s, es, m, es'[0], next);
      Lifecycle.StepKeeps(env, m, es'[0], next);
      Append(env, s, es, m, es'[0], next);
      VerifiedRun(env, s, es + [es'[0]], next, es'[1..], t);
    }
  }

  /** Over every run without a key clash, a verification stamp on a job means that its bytes
      are their own compressed form or collide with it under SHA-256: no ordinary archive
      is ever stamped. */
  lemma StampMeansCollision(env: Env, s: System, es: seq<Event>, t: System, i: nat)
    requires Lawful(env.codec) && Initial(s) && Runs(env, s, es, t) && NoClash(t.puts)
    requires i < |t.rows| && t.rows[i].verified
    ensures var raw := t.rows[i].raw;
            raw == env.codec.gzip(raw) || Worm.Breaks(env.codec.sha, Worm.Collision(raw, env.codec.gzip(raw)))
  {
    hide Inv, Step;
    Lifecycle.InitialInv(env, s);
    VerifiedRun(env, s, [], s, es, t);
  }
}
