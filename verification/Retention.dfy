/** Which objects the retention worker and the erasure handler can ever delete, and what
    is left where. */
module Retention {
  import opened Base
  import opened Calendar
  import opened Blob
  import opened ObjectStore
  import opened Pipeline
  import Lifecycle
  import Uploads

  // Every cutoff lies a full retention period in the past.
  ghost predicate Cutoffs(s: System) {
    forall w :: 0 <= w < |s.expirers| ==>
      && s.expirers[w].customer in s.customers
      && s.expirers[w].cutoff <= s.now - s.customers[s.expirers[w].customer].retentionDays * DAY
  }

  lemma GlobalsGrow(env: Env, s: System, e: Event, t: System)
    requires Step(env, s, e) == Some(t)
    ensures s.now <= t.now && |t.stores| == |s.stores|
    ensures forall c :: c in s.customers ==>
              && c in t.customers && t.customers[c].retentionDays == s.customers[c].retentionDays
              && (s.customers[c].deleted ==> t.customers[c].deleted)
  {
    hide PrepareBlob, FourDigitYear, GetFirst, LastDone, Usage, InFlight, DueRows, NewestKeyed, MonthBegin;
  }

  lemma CutoffsStep(env: Env, s: System, e: Event, t: System)
    requires Cutoffs(s) && Step(env, s, e) == Some(t)
    ensures Cutoffs(t)
  {
    hide PrepareBlob, FourDigitYear, PutAll, DeleteAll, GetFirst, LastDone, Usage, InFlight, DueRows, NewestKeyed, MonthBegin;
    Lifecycle.ListFields(env, s, e, t);
    GlobalsGrow(env, s, e, t);
  }

  lemma {:induction false} CutoffsRun(env: Env, s: System, es: seq<Event>, t: System)
    requires Cutoffs(s) && Runs(env, s, es, t)
    ensures Cutoffs(t)
    decreases |es|
  {
    hide Step, Cutoffs;
    if es != [] {
      CutoffsStep(env, s, es[0], Step(env, s, es[0]).value);
      CutoffsRun(env, Step(env, s, es[0]).value, es[1..], t);
    }
  }

  /** Two rows that name one object agree on everything the key shows of them. */
  lemma SharedKey(env: Env, s: System, i: nat, j: nat)
    requires RowsOk(env, s) && i < |s.rows| && j < |s.rows| && s.rows[i].key == s.rows[j].key != ""
    ensures SameWindow(s.rows[i].window, s.rows[j].window) && s.rows[i].kind == s.rows[j].kind
  {
    hide FourDigitYear, StageShape, KeyTail;
    var a, b := s.rows[i], s.rows[j];
    assert RowShape(env, a) && RowShape(env, b);
    KeyInjective(LogType(a.kind), a.window, env.codec.sha(env.codec.gzip(a.raw))[..8],
                 LogType(b.kind), b.window, env.codec.sha(env.codec.gzip(b.raw))[..8]);
  }

  lemma HeadOfSweep(env: Env, s: System, w: nat, faults: seq<Outcome>)
    requires Inv(env, s) && Step(env, s, ExpireDelete(w, faults)).Some?
    ensures w < |s.expirers| && s.expirers[w].todo != []
    ensures var x, sweep := s.expirers[w].todo[0], s.expirers[w];
            TodoShape(s, sweep, x) && s.rows[x.0].window.end < sweep.cutoff
  {
    hide RowsOk, DeleteAll;
    assert DueSweep(s, s.expirers[w]);
  }

  /** The retention worker deletes a key only for a settled row of the customer that owns
      the key and whose period ended more than the retention time ago, and every other row
      with that key ended in the same second. No other key is touched. */
  lemma DeletesOnlyPastRetention(env: Env, s: System, es: seq<Event>, m: System, w: nat, faults: seq<Outcome>, t: System)
    requires Initial(s) && Runs(env, s, es, m) && Step(env, m, ExpireDelete(w, faults)) == Some(t)
    ensures w < |m.expirers| && m.expirers[w].todo != []
    ensures var (i, key) := m.expirers[w].todo[0];
            && i < |m.rows| && Settled(m.rows[i]) && m.rows[i].key == key
            && m.rows[i].window.customer == m.expirers[w].customer && m.expirers[w].customer in m.customers
            && m.rows[i].window.end < m.now - m.customers[m.expirers[w].customer].retentionDays * DAY
            && (key != "" ==> forall j :: 0 <= j < |m.rows| && m.rows[j].key == key ==>
                  m.rows[j].window.customer == m.rows[i].window.customer &&
                  UnixSecond(m.rows[j].window.end) == UnixSecond(m.rows[i].window.end))
            && (forall p, k :: 0 <= p < |m.stores| && (k != key || key == "") ==>
                  p < |t.stores| && (k in t.stores[p] <==> k in m.stores[p]))
  {
    hide RowsOk, ListsOk, FourDigitYear;
    Lifecycle.InitialInv(env, s);
    Lifecycle.RunKeeps(env, s, es, m);
    CutoffsRun(env, s, es, m);
    HeadOfSweep(env, m, w, faults);
    var (i, key) := m.expirers[w].todo[0];
    forall j | 0 <= j < |m.rows| && m.rows[j].key == key != "" ensures SameWindow(m.rows[i].window, m.rows[j].window) {
      SharedKey(env, m, i, j);
    }
  }

  // A delete is done when some provider confirmed it, and leaves the copies on providers
  // whose own delete failed. When every provider fails, the row is skipped unmarked.
  lemma DeleteStepResidue(env: Env, s: System, w: nat, faults: seq<Outcome>, t: System)
    requires Step(env, s, ExpireDelete(w, faults)) == Some(t) && s.expirers[w].todo[0].1 != ""
    ensures var key := s.expirers[w].todo[0].1;
            && w < |t.expirers| && |t.stores| == |s.stores| == |faults| && t.puts == s.puts
            && (forall p :: 0 <= p < |t.stores| ==> (key in t.stores[p] <==> key in s.stores[p] && faults[p] == Failure))
            && (t.expirers[w].handled <==> DeleteOk(faults))
            && (!t.expirers[w].handled ==> t.expirers[w].todo == s.expirers[w].todo[1..] && t.rows == s.rows)
  {
    DeleteResidue(s.stores, faults, s.expirers[w].todo[0].1);
  }

  // How the head of a sweep comes to be handled.
  lemma HandledStep(env: Env, s: System, e: Event, t: System, w: nat)
    requires Step(env, s, e) == Some(t) && w < |t.expirers| && t.expirers[w].handled
    ensures w < |s.expirers|
    ensures s.expirers[w] == t.expirers[w] ||
            (e.ExpireDelete? && e.w == w && s.expirers[w].todo == t.expirers[w].todo && !s.expirers[w].handled)
  {
    hide PrepareBlob, FourDigitYear, PutAll, DeleteAll, GetFirst, LastDone, Usage, InFlight, DueRows, NewestKeyed, MonthBegin;
  }

  // Over a run, either the head was handled from the start, or this step of the run did it.
  lemma {:induction false} HandledBy(env: Env, s: System, es: seq<Event>, t: System, w: nat)
    returns (found: bool, j: nat, b: System, d: System)
    requires Runs(env, s, es, t) && w < |t.expirers| && t.expirers[w].handled
    ensures !found ==> w < |s.expirers| && s.expirers[w] == t.expirers[w]
    ensures found ==>
              && j < |es| && Runs(env, s, es[..j], b) && Step(env, b, es[j]) == Some(d) && Runs(env, d, es[j + 1..], t)
              && es[j].ExpireDelete? && es[j].w == w && w < |b.expirers| && w < |d.expirers|
              && b.expirers[w].todo == d.expirers[w].todo == t.expirers[w].todo && d.expirers[w].handled
    decreases |es|
  {
    hide Step;
    j, b, d := 0, s, t;
    if es == [] {
      found := false;
    } else {
      var next := Step(env, s, es[0]).value;
      found, j, b, d := HandledBy(env, next, es[1..], t, w);
      if found {
        assert es[..j + 1][1..] == es[1..][..j] && es[j + 1 + 1..] == es[1..][j + 1..];
        j := j + 1;
      } else {
        HandledStep(env, s, es[0], next, w);
        if s.expirers[w] != next.expirers[w] {
          found, j, b, d := true, 0, s, next;
          assert es[..0] == [];
        }
      }
    }
  }

  // Some upload after the first list of uploads wrote the key.
  predicate PutSince(before: seq<Put>, after: seq<Put>, key: string) {
    exists q :: |before| <= q < |after| && after[q].key == key
  }

  lemma CopiesStep(env: Env, s: System, e: Event, t: System, p: nat, key: string)
    requires Step(env, s, e) == Some(t) && p < |t.stores| && key in t.stores[p]
    ensures p < |s.stores| && (key in s.stores[p] || PutSince(s.puts, t.puts, key))
  {
    hide Step;
    if e.Store? || e.InstantPut? {
      var x := Uploads.UploadFrame(env, s, e, t);
      assert t.puts[|s.puts|] == x;
    } else if e.ExpireDelete? || e.EraseDelete? {
      var gone := Lifecycle.DeleteFrame(env, s, e, t);
    } else {
      Lifecycle.StoresFrame(env, s, e, t);
    }
  }

  // A copy that is there after a run was there before it, or an upload of the run made it.
  lemma {:induction false} CopiesRun(env: Env, s: System, es: seq<Event>, t: System, p: nat, key: string)
    requires Runs(env, s, es, t) && p < |t.stores| && key in t.stores[p]
    ensures p < |s.stores| && (key in s.stores[p] || PutSince(s.puts, t.puts, key))
    decreases |es|
  {
    hide Step;
    if es != [] {
      var next := Step(env, s, es[0]).value;
      CopiesRun(env, next, es[1..], t, p, key);
      Uploads.PutsStep(env, s, es[0], next);
      Uploads.PutsGrow(env, next, es[1..], t);
      GlobalsGrow(env, s, es[0], next);
      if key in next.stores[p] {
        CopiesStep(env, s, es[0], next, p, key);
      }
    }
  }

  lemma {:induction false} SameStores(env: Env, s: System, es: seq<Event>, t: System)
    requires Runs(env, s, es, t)
    ensures |t.stores| == |s.stores|
    decreases |es|
  {
    hide Step;
    if es != [] {
      GlobalsGrow(env, s, es[0], Step(env, s, es[0]).value);
      SameStores(env, Step(env, s, es[0]).value, es[1..], t);
    }
  }

  /** Over every run: before a retention pass marks a row that names an object, the same
      pass has deleted that object in a call that some provider confirmed. A copy that is
      left when the row is marked lies on a provider whose delete failed in that very call,
      unless an upload has written the object again since. */
  lemma MarkMeansConfirmedDelete(env: Env, s: System, es: seq<Event>, m: System, w: nat, t: System)
    returns (j: nat, b: System, d: System)
    requires Initial(s) && Runs(env, s, es, m) && Step(env, m, ExpireMark(w, true)) == Some(t)
    requires m.expirers[w].todo[0].1 != ""
    ensures j < |es| && Runs(env, s, es[..j], b) && Step(env, b, es[j]) == Some(d) && Runs(env, d, es[j + 1..], m)
    ensures es[j].ExpireDelete? && es[j].w == w && w < |b.expirers| && b.expirers[w].todo == m.expirers[w].todo
    ensures |es[j].faults| == |m.stores| == |b.stores| && (m.stores != [] ==> Success in es[j].faults)
    ensures var key := m.expirers[w].todo[0].1;
            forall p :: 0 <= p < |m.stores| && key in m.stores[p] ==>
              (key in b.stores[p] && es[j].faults[p] == Failure) || PutSince(d.puts, m.puts, key)
  {
    hide PrepareBlob, FourDigitYear, DeleteAll, PutSince, Runs;
    var found;
    found, j, b, d := HandledBy(env, s, es, m, w);
    var key := m.expirers[w].todo[0].1;
    DeleteStepResidue(env, b, w, es[j].faults, d);
    SameStores(env, d, es[j + 1..], m);
    forall p | 0 <= p < |m.stores| && key in m.stores[p]
      ensures (key in b.stores[p] && es[j].faults[p] == Failure) || PutSince(d.puts, m.puts, key)
    {
      CopiesRun(env, d, es[j + 1..], m, p, key);
    }
  }

  lemma {:induction false} RetentionGrows(env: Env, s: System, es: seq<Event>, t: System, c: Uuid)
    requires Runs(env, s, es, t) && c in s.customers
    ensures s.now <= t.now && c in t.customers && t.customers[c].retentionDays == s.customers[c].retentionDays
    decreases |es|
  {
    hide Step;
    if es != [] {
      var next := Step(env, s, es[0]).value;
      GlobalsGrow(env, s, es[0], next);
      RetentionGrows(env, next, es[1..], t, c);
    }
  }

  /** A row that is still done is listed again by every later pass once its retention time
      is over, so a delete that failed is retried. */
  lemma SkippedRowListedAgain(env: Env, s: System, es: seq<Event>, m: System, c: Uuid, t: System, i: nat)
    requires Inv(env, s) && i < |s.rows| && s.rows[i].window.customer == c && c in s.customers
    requires s.rows[i].window.end < s.now - s.customers[c].retentionDays * DAY
    requires Runs(env, s, es, m) && i < |m.rows| && m.rows[i].status == Done
    requires Step(env, m, ExpireList(c)) == Some(t)
    ensures (i, m.rows[i].key) in t.expirers[|m.expirers|].todo
  {
    hide RowsOk, ListsOk, FourDigitYear, DueRows;
    Lifecycle.RunKeeps(env, s, es, m);
    assert Follows(s.rows[i], m.rows[i]);
    RetentionGrows(env, s, es, m, c);
    DueRowsAre(m.rows, c, m.now - m.customers[c].retentionDays * DAY);
  }

  // ── Objects that nothing deletes ───────────────────────────────────────────────────

  /** Only a settled row's key is ever deleted from a store. */
  lemma LossNeedsRow(env: Env, s: System, e: Event, t: System, p: nat, key: string)
    requires Inv(env, s) && Step(env, s, e) == Some(t)
    requires p < |s.stores| && key in s.stores[p] && (p < |t.stores| ==> key !in t.stores[p])
    ensures exists i :: 0 <= i < |s.rows| && Settled(s.rows[i]) && s.rows[i].key == key
  {
    hide RowsOk, Step;
    if e.Store? || e.InstantPut? {
      var x := Uploads.UploadFrame(env, s, e, t);
    } else if e.ExpireDelete? || e.EraseDelete? {
      var gone := Lifecycle.DeleteFrame(env, s, e, t);
      if e.ExpireDelete? {
        assert DueSweep(s, s.expirers[e.w]) && s.expirers[e.w].todo[0] in s.expirers[e.w].todo;
      } else {
        assert EraseSweep(s, s.erasers[e.w]) && s.erasers[e.w].todo[0] in s.erasers[e.w].todo;
      }
    } else {
      Lifecycle.StoresFrame(env, s, e, t);
    }
  }

  lemma InstantKeyHasNoRow(env: Env, s: System, w: Window, hash8: string, i: nat)
    requires RowsOk(env, s) && Printable(w) && |hash8| == 8 && i < |s.rows|
    ensures s.rows[i].key != ObjectKey(INSTANT, w, hash8)
  {
    hide FourDigitYear, StageShape, KeyTail;
    var j := s.rows[i];
    assert RowShape(env, j);
    KeyInjective(LogType(j.kind), j.window, env.codec.sha(env.codec.gzip(j.raw))[..8], INSTANT, w, hash8);
    if j.key == "" {
      assert |ObjectKey(INSTANT, w, hash8)| > 0;
    }
  }

  /** Archives of the instant-log stream have no job row: over every run, through any number
      of retention passes and account erasures, a stored one is never deleted. */
  lemma {:induction false} InstantArchivesAreKept(env: Env, s: System, es: seq<Event>, t: System, p: nat, w: Window, hash8: string)
    requires Inv(env, s) && Runs(env, s, es, t) && Printable(w) && |hash8| == 8
    requires p < |s.stores| && ObjectKey(INSTANT, w, hash8) in s.stores[p]
    ensures p < |t.stores| && ObjectKey(INSTANT, w, hash8) in t.stores[p]
    decreases |es|
  {
    hide RowsOk, ListsOk, Step, FourDigitYear, ObjectKey;
    if es != [] {
      var next := Step(env, s, es[0]).value;
      Lifecycle.StepKeeps(env, s, es[0], next);
      GlobalsGrow(env, s, es[0], next);
      if ObjectKey(INSTANT, w, hash8) !in next.stores[p] {
        LossNeedsRow(env, s, es[0], next, p, ObjectKey(INSTANT, w, hash8));
        var i :| 0 <= i < |s.rows| && Settled(s.rows[i]) && s.rows[i].key == ObjectKey(INSTANT, w, hash8);
        InstantKeyHasNoRow(env, s, w, hash8, i);
        assert false;
      }
      InstantArchivesAreKept(env, next, es[1..], t, p, w, hash8);
    }
  }
}
