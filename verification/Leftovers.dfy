/** A copy that a confirmed delete of the retention worker missed: its rows have expired, so
    no later pass lists it again. */
module Leftovers {
  import opened Base
  import opened Calendar
  import opened Blob
  import opened ObjectStore
  import opened Pipeline
  import Erasure
  import Lifecycle
  import Processors
  import Reach
  import Retention
  import Uploads

  predicate Holds(a: Stage, key: string) {
    a.Stored? && a.meta.key == key
  }

  // Every row that names the object is expired, no retention pass has it on its list, and
  // no running task is about to name it.
  ghost predicate Spent(s: System, key: string) {
    && Erasure.NotListed(s.expirers, key)
    && (forall i :: 0 <= i < |s.rows| && s.rows[i].key == key ==> s.rows[i].status == Expired)
    && forall i :: 0 <= i < |s.attempts| ==> !Holds(s.attempts[i], key)
  }

  lemma MoveSpent(env: Env, s: System, e: Event, t: System, key: string)
    requires Inv(env, s) && Step(env, s, e) == Some(t) && Moved(e).Some? && key != ""
    requires e.i < |s.attempts| ==> !Holds(s.attempts[e.i], key)
    ensures e.i < |t.rows| == |t.attempts| && t.rows[e.i].key != key
    ensures Holds(t.attempts[e.i], key) ==> Retention.PutSince(s.puts, t.puts, key)
  {
    hide PrepareBlob, FourDigitYear, ListsOk, PutAll, LastDone, Usage, MonthBegin, InFlight;
    assert RowShape(env, s.rows[e.i]) && StageShape(env, s.rows[e.i], s.attempts[e.i]);
    if e.Store? {
      Uploads.PutsStep(env, s, e, t);
      assert t.puts[|s.puts|] == Uploads.PutOf(env, s.attempts[e.i].raw, s.rows[e.i].window, LogType(s.rows[e.i].kind));
    }
  }

  lemma NothingHeld(key: string)
    ensures !Holds(Created, key)
  {
  }

  lemma SettledRow(a: Job, b: Job, key: string)
    requires Settled(a) && Follows(a, b) && (a.key == key ==> a.status == Expired)
    ensures b.key == key ==> b.status == Expired
  {
  }

  lemma SpentStep(env: Env, s: System, e: Event, t: System, key: string)
    requires Inv(env, s) && Spent(s, key) && key != "" && Step(env, s, e) == Some(t)
    ensures Spent(t, key) || Retention.PutSince(s.puts, t.puts, key)
  {
    hide Inv, Step, Erasure.NotListed, Retention.PutSince, Holds, Follows, Settled;
    Erasure.ListsStay(env, s, e, t, key);
    var k := Erasure.OneChange(env, s, e, t);
    NothingHeld(key);
    if Moved(e).Some? {
      MoveSpent(env, s, e, t, key);
    } else if !e.Create? && k.Some? {
      SettledRow(s.rows[k.value], t.rows[k.value], key);
    }
  }

  // No erasure request deletes anything.
  predicate NoErasure(es: seq<Event>) {
    forall j :: 0 <= j < |es| ==> !es[j].EraseDelete?
  }

  lemma SpentUnlisted(s: System, key: string)
    requires Spent(s, key)
    ensures Erasure.NotListed(s.expirers, key)
  {
  }

  /** Once every row that names an object is expired, no number of later retention passes
      deletes a copy that is left of it: the copy stays unless the object is uploaded again,
      or an erasure of the account reaches it. */
  lemma {:induction false} SpentCopyIsPermanent(env: Env, s: System, es: seq<Event>, t: System, p: nat, key: string)
    requires Inv(env, s) && Spent(s, key) && key != "" && p < |s.stores| && key in s.stores[p]
    requires Runs(env, s, es, t) && (env.apiProviders <= p || NoErasure(es))
    ensures (p < |t.stores| && key in t.stores[p]) || Retention.PutSince(s.puts, t.puts, key)
    decreases |es|
  {
    hide Inv, Step, Spent, Erasure.NotListed;
    if es != [] {
      var next := Step(env, s, es[0]).value;
      Lifecycle.StepKeeps(env, s, es[0], next);
      SpentStep(env, s, es[0], next, key);
      SpentUnlisted(s, key);
      Erasure.CopyStays(env, s, es[0], next, p, key);
      Uploads.PutsStep(env, s, es[0], next);
      Uploads.PutsGrow(env, next, es[1..], t);
      assert forall j :: 0 <= j < |es[1..]| ==> es[1..][j] == es[j + 1];
      if Spent(next, key) {
        SpentCopyIsPermanent(env, next, es[1..], t, p, key);
      }
    }
  }

  // ── Such a copy from an empty start ────────────────────────────────────────────────

  // A first archive whose upload to the first provider took effect although its reply was
  // lost, so that the second provider has a copy too.
  lemma TwoCopies(env: Env, s: System, id: Uuid, w: Window, raw: Bytes) returns (es: seq<Event>, t: System, key: string)
    requires Printable(w) && raw != "" && env.concurrency >= 1
    requires s == Processors.EmptyStart(s.now, w.customer, w.zone, [map[], map[]])
    ensures Runs(env, s, es, t) && key != "" && t.customers == s.customers && t.expirers == [] && t.attempts == [Over]
    ensures |t.rows| == 1 && t.rows[0].status == Done && t.rows[0].key == key && t.rows[0].window == w
    ensures |t.stores| == 2 && key in t.stores[0] && key in t.stores[1]
  {
    hide Step, Runs, Printable, PrepareBlob, Usage, MonthBegin, LastDone, ParentHash;
    assert InFlight([]) == 0;
    var a := Reach.NewTaskRun(env, s, id, w);
    t := Reach.ArchiveRun(env, a, 0, raw, true, [LostReply, Success]);
    es := Reach.Admitting(id, w, 0) + Reach.Archiving(0, raw, true, [LostReply, Success]);
    Join(env, s, Reach.Admitting(id, w, 0), a, Reach.Archiving(0, raw, true, [LostReply, Success]), t);
    key := PrepareBlob(env.codec, raw, w, "logs").1.key;
  }

  lemma OneDue(env: Env, s: System, c: Uuid, now: Time) returns (t: System)
    requires c in s.customers && |s.rows| == 1 && s.rows[0].window.customer == c && s.rows[0].status == Done && s.expirers == []
    requires s.now <= now && s.rows[0].window.end < now - s.customers[c].retentionDays * DAY
    ensures Runs(env, s, [Tick(now), ExpireList(c)], t)
    ensures t == s.(now := now, expirers := [Sweep(c, now - s.customers[c].retentionDays * DAY, [(0, s.rows[0].key)], false)])
  {
    var cutoff := now - s.customers[c].retentionDays * DAY;
    assert s.rows[..0] == [];
    assert DueRows(s.rows, c, cutoff) == [(0, s.rows[0].key)];
    t := s.(now := now, expirers := [Sweep(c, cutoff, [(0, s.rows[0].key)], false)]);
    assert s.expirers + [t.expirers[0]] == t.expirers;
    TwoSteps(env, s, Tick(now), s.(now := now), ExpireList(c), t);
  }

  // A pass over the one row: the first provider confirms, the second fails.
  lemma HalfDeleted(env: Env, s: System, key: string) returns (t: System)
    requires |s.rows| == 1 && s.rows[0].key == key != "" && |s.stores| == 2 && key in s.stores[1] && s.attempts == [Over]
    requires |s.expirers| == 1 && s.expirers[0].todo == [(0, key)] && !s.expirers[0].handled
    ensures Runs(env, s, [ExpireDelete(0, [Success, Failure]), ExpireMark(0, true)], t)
    ensures Spent(t, key) && |t.rows| == 1 && t.rows[0].key == key && t.rows[0].status == Expired
    ensures |t.stores| == 2 && key !in t.stores[0] && key in t.stores[1] && t.now == s.now && t.customers == s.customers
  {
    hide Step;
    Processors.ExpireDeleteIs(env, s, 0, [Success, Failure]);
    var m := Step(env, s, ExpireDelete(0, [Success, Failure])).value;
    Processors.ExpireMarkIs(env, m, 0, true);
    t := Step(env, m, ExpireMark(0, true)).value;
    TwoSteps(env, s, ExpireDelete(0, [Success, Failure]), m, ExpireMark(0, true), t);
  }

  /** From an empty start to a customer whose only archive is past retention, expired and
      confirmed deleted, with a copy on the second provider that no retention pass of any
      continuation deletes. */
  lemma RetentionLeavesCopy(codec: Codec, now: Time, id: Uuid, w: Window, raw: Bytes)
    returns (es: seq<Event>, t: System, key: string)
    requires Printable(w) && raw != ""
    ensures var env, s := Env(codec, 1, 2), Processors.EmptyStart(now, w.customer, w.zone, [map[], map[]]);
            && Initial(s) && Runs(env, s, es, t) && |t.rows| == 1 && t.rows[0].key == key && t.rows[0].status == Expired
            && t.customers == s.customers && w.end < t.now - s.customers[w.customer].retentionDays * DAY
            && |t.stores| == 2 && key in t.stores[1]
            && forall es', t' :: Runs(env, t, es', t') && NoErasure(es') ==>
                 (|t'.stores| == 2 && key in t'.stores[1]) || Retention.PutSince(t.puts, t'.puts, key)
  {
    hide Step, Runs, Printable, Inv, Spent, NoErasure, Retention.PutSince;
    var env, s := Env(codec, 1, 2), Processors.EmptyStart(now, w.customer, w.zone, [map[], map[]]);
    var first, a, b;
    first, a, key := TwoCopies(env, s, id, w, raw);
    var later := a.now + w.end + 396 * DAY;
    b := OneDue(env, a, w.customer, later);
    t := HalfDeleted(env, b, key);
    var second, third := [Tick(later), ExpireList(w.customer)], [ExpireDelete(0, [Success, Failure]), ExpireMark(0, true)];
    Join(env, s, first, a, second, b);
    Join(env, s, first + second, b, third, t);
    es := first + second + third;
    Lifecycle.InitialInv(env, s);
    Lifecycle.RunKeeps(env, s, es, t);
    forall es', t' | Runs(env, t, es', t') && NoErasure(es')
      ensures (|t'.stores| == 2 && key in t'.stores[1]) || Retention.PutSince(t.puts, t'.puts, key)
    {
      SpentCopyIsPermanent(env, t, es', t', 1, key);
      Retention.SameStores(env, t, es', t');
    }
  }
}
