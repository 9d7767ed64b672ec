/** An erasure request under interference: pulls run, new tasks start, retention passes and
    other requests go on between the listing of the jobs and the deletion of the customer
    record, and after it. */
module Requests {
  import opened Base
  import opened Calendar
  import opened Blob
  import opened ObjectStore
  import opened Pipeline
  import Erasure
  import Lifecycle
  import Quota
  import Retention
  import Sweeps
  import Uploads

  // ── What a request leaves of what it listed ────────────────────────────────────────

  // The sweep still has to delete the key.
  predicate ToDelete(w: Sweep, key: string) {
    exists k :: 0 <= k < |w.todo| && w.todo[k].1 == key && (k == 0 ==> !w.handled)
  }

  // No delete of the request fails on the provider.
  predicate WorksOn(es: seq<Event>, w: nat, p: nat) {
    forall j :: 0 <= j < |es| && es[j].EraseDelete? && es[j].w == w && p < |es[j].faults| ==> es[j].faults[p] != Failure
  }

  // A delete or a mark of the request itself.
  lemma OwnStep(env: Env, s: System, e: Event, t: System, p: nat, key: string)
    requires Step(env, s, e) == Some(t) && (e.EraseDelete? || e.EraseMark?) && e.w < |s.erasers| && ToDelete(s.erasers[e.w], key)
    requires p < env.apiProviders && p < |s.stores| && (e.EraseDelete? && p < |e.faults| ==> e.faults[p] != Failure)
    ensures e.w < |t.erasers| && (ToDelete(t.erasers[e.w], key) || (p < |t.stores| && key !in t.stores[p] && t.puts == s.puts))
  {
    var todo := s.erasers[e.w].todo;
    var k :| 0 <= k < |todo| && todo[k].1 == key && (k == 0 ==> !s.erasers[e.w].handled);
    if e.EraseMark? {
      assert todo[1..][k - 1].1 == key;
    }
  }

  lemma ToDeleteStep(env: Env, s: System, e: Event, t: System, w: nat, p: nat, key: string)
    requires Step(env, s, e) == Some(t) && w < |s.erasers| && ToDelete(s.erasers[w], key)
    requires p < env.apiProviders && p < |s.stores| && WorksOn([e], w, p)
    ensures w < |t.erasers| && (ToDelete(t.erasers[w], key) || (p < |t.stores| && key !in t.stores[p] && t.puts == s.puts))
  {
    hide Step, ToDelete;
    assert [e][0] == e;
    Lifecycle.ListFields(env, s, e, t);
    if (e.EraseDelete? || e.EraseMark?) && e.w == w {
      OwnStep(env, s, e, t, p, key);
    }
  }

  lemma Working(w: Sweep, key: string)
    ensures ToDelete(w, key) ==> w.todo != []
  {
  }

  lemma {:induction false} ToDeleteRun(env: Env, s: System, es: seq<Event>, t: System, w: nat, p: nat, key: string)
    requires Runs(env, s, es, t) && w < |s.erasers| && ToDelete(s.erasers[w], key)
    requires w < |t.erasers| && t.erasers[w].todo == []
    requires p < env.apiProviders && p < |s.stores| && WorksOn(es, w, p) && p < |t.stores| && key in t.stores[p]
    ensures Retention.PutSince(s.puts, t.puts, key)
    decreases |es|
  {
    hide Step, ToDelete;
    if es == [] {
      Working(s.erasers[w], key);
    } else {
      var next := Step(env, s, es[0]).value;
      assert WorksOn([es[0]], w, p) && WorksOn(es[1..], w, p) by {
        assert forall j :: 0 <= j < |es[1..]| ==> es[1..][j] == es[j + 1];
      }
      ToDeleteStep(env, s, es[0], next, w, p, key);
      Retention.GlobalsGrow(env, s, es[0], next);
      Uploads.PutsStep(env, s, es[0], next);
      Uploads.PutsGrow(env, next, es[1..], t);
      if ToDelete(next.erasers[w], key) {
        ToDeleteRun(env, next, es[1..], t, w, p, key);
      } else {
        Retention.CopiesRun(env, next, es[1..], t, p, key);
      }
    }
  }

  /** Whatever else runs between the listing and the end of the sweep: an object that is left
      on a provider where no delete of the request failed is on a provider that the API does
      not know, was named by none of the newest 9999 rows at the listing, or has been
      uploaded since. */
  lemma RequestResidue(env: Env, s: System, c: Uuid, m: System, es: seq<Event>, t: System, p: nat, key: string)
    requires Step(env, s, EraseList(c, true)) == Some(m) && Runs(env, m, es, t)
    requires |s.erasers| < |t.erasers| && t.erasers[|s.erasers|].todo == [] && WorksOn(es, |s.erasers|, p)
    requires p < |t.stores| && key in t.stores[p] && key != ""
    ensures env.apiProviders <= p || !Sweeps.Named(s, c, key) || Retention.PutSince(m.puts, t.puts, key)
  {
    hide NewestKeyed, Erasure.NewerRows, Runs;
    Retention.CopiesRun(env, m, es, t, p, key);
    if p < env.apiProviders && Sweeps.Named(s, c, key) {
      var i :| 0 <= i < |s.rows| && s.rows[i].window.customer == c && s.rows[i].key == key && Erasure.NewerRows(s.rows, c, i) < 9999;
      Erasure.ListedExactly(s.rows, c, ERASE_LIMIT, i);
      var w := m.erasers[|s.erasers|];
      var k :| 0 <= k < |w.todo| && w.todo[k] == (i, key);
      assert ToDelete(w, key);
      ToDeleteRun(env, m, es, t, |s.erasers|, p, key);
    }
  }

  // ── Whether a pull can still upload ────────────────────────────────────────────────

  predicate Admits(quota: int) {
    quota == -1 || quota >= 1
  }

  predicate LiveZone(s: System, z: Uuid) {
    z in s.zones && !s.zones[z].deleted
  }

  // A running task of the customer that no check will stop.
  predicate CanSend(s: System, i: nat, c: Uuid) {
    && At(s, i) && s.rows[i].window.customer == c
    && match s.attempts[i]
       case Admitted => true
       case Linked(_, _, _) => true
       case HasZone(quota) => Admits(quota)
       case HasCustomer(quota) => Admits(quota) && LiveZone(s, s.rows[i].window.zone)
       case _ => false
  }

  // A task that starts now would pass the checks.
  predicate MayStart(env: Env, s: System, c: Uuid) {
    env.concurrency >= 1 && c in s.customers && !s.customers[c].deleted && Admits(s.customers[c].quota)
  }

  predicate MayUpload(env: Env, s: System, c: Uuid) {
    s.stores != [] && (MayStart(env, s, c) || exists i :: 0 <= i < |s.rows| && CanSend(s, i, c))
  }

  // Facts of reachable states: the workers' slots are counted, and rows belong to zones.
  ghost predicate Grounded(env: Env, s: System) {
    && |s.attempts| == |s.rows| && InFlight(s.attempts) <= env.concurrency
    && forall i :: 0 <= i < |s.rows| ==> s.rows[i].window.zone in s.zones
  }

  lemma ZonesKept(env: Env, s: System, e: Event, t: System)
    requires Step(env, s, e) == Some(t) && e.EraseCustomer?
    ensures forall z :: z in s.zones ==> z in t.zones && t.zones[z].customer == s.zones[z].customer && (s.zones[z].deleted ==> t.zones[z].deleted)
    ensures t.customers.Keys == s.customers.Keys
    ensures forall c :: c in s.customers ==> t.customers[c].quota == s.customers[c].quota && (s.customers[c].deleted ==> t.customers[c].deleted)
  {
  }

  lemma CustomersGrow(env: Env, s: System, e: Event, t: System)
    requires Step(env, s, e) == Some(t) && !e.EraseCustomer?
    ensures forall c :: c in t.customers ==>
              if c in s.customers then t.customers[c].quota == s.customers[c].quota && (s.customers[c].deleted ==> t.customers[c].deleted)
              else t.customers[c].quota == 0
  {
    hide PrepareBlob, FourDigitYear, PutAll, DeleteAll, GetFirst, LastDone, Usage, InFlight, DueRows, NewestKeyed, MonthBegin, EraseCustomerStep;
  }

  lemma OtherZones(env: Env, s: System, e: Event, t: System)
    requires Step(env, s, e) == Some(t) && !e.EraseCustomer?
    ensures forall z :: z in s.zones ==> z in t.zones && t.zones[z].customer == s.zones[z].customer && (s.zones[z].deleted ==> t.zones[z].deleted)
    ensures e.Create? ==> e.window.zone in s.zones
  {
    hide PrepareBlob, FourDigitYear, PutAll, DeleteAll, GetFirst, LastDone, Usage, InFlight, DueRows, NewestKeyed, MonthBegin, EraseCustomerStep;
  }

  lemma ZonesGrow(env: Env, s: System, e: Event, t: System)
    requires Step(env, s, e) == Some(t)
    ensures forall z :: z in s.zones ==> z in t.zones && t.zones[z].customer == s.zones[z].customer && (s.zones[z].deleted ==> t.zones[z].deleted)
    ensures e.Create? ==> e.window.zone in s.zones
    ensures forall c :: c in t.customers ==>
              if c in s.customers then t.customers[c].quota == s.customers[c].quota && (s.customers[c].deleted ==> t.customers[c].deleted)
              else t.customers[c].quota == 0
  {
    hide Step;
    if e.EraseCustomer? {
      ZonesKept(env, s, e, t);
    } else {
      OtherZones(env, s, e, t);
      CustomersGrow(env, s, e, t);
    }
  }

  lemma RowWindow(a: seq<Job>, b: seq<Job>, i: nat)
    requires RowsFollow(a, b) && i < |a|
    ensures i < |b| && b[i].window == a[i].window
  {
    assert Follows(a[i], b[i]);
  }

  lemma GroundedStep(env: Env, s: System, e: Event, t: System)
    requires Inv(env, s) && Grounded(env, s) && Step(env, s, e) == Some(t)
    ensures Grounded(env, t)
  {
    hide Inv, Step, InFlight, RowsFollow;
    Lifecycle.Frame(env, s, e, t);
    Lifecycle.StepKeeps(env, s, e, t);
    Quota.FlightStep(env, s, e, t);
    ZonesGrow(env, s, e, t);
    forall i | 0 <= i < |t.rows| ensures t.rows[i].window.zone in t.zones {
      if i < |s.rows| {
        RowWindow(s.rows, t.rows, i);
      }
    }
  }

  lemma {:induction false} SlotTaken(attempts: seq<Stage>, i: nat)
    requires i < |attempts| && !attempts[i].Over?
    ensures InFlight(attempts) >= 1
  {
    if i < |attempts| - 1 {
      SlotTaken(attempts[..|attempts| - 1], i);
    }
  }

  // The move of one attempt does not open what was closed.
  lemma MoveStaysClosed(env: Env, s: System, e: Event, t: System, c: Uuid)
    requires Grounded(env, s) && Step(env, s, e) == Some(t) && Moved(e).Some? && !MayUpload(env, s, c) && s.stores != []
    ensures e.i < |s.rows| && !CanSend(t, e.i, c) && (e.Store? ==> s.rows[e.i].window.customer != c)
  {
    hide PrepareBlob, FourDigitYear, PutAll, LastDone, MonthBegin, InFlight, Usage;
    assert !CanSend(s, e.i, c);
    if e.LoadCustomer? {
      SlotTaken(s.attempts, e.i);
    }
  }

  lemma StaysClosed(env: Env, s: System, e: Event, t: System, c: Uuid)
    requires Inv(env, s) && Grounded(env, s) && Step(env, s, e) == Some(t) && !MayUpload(env, s, c) && s.stores != []
    ensures t.stores != [] && !MayUpload(env, t, c)
  {
    hide Inv, Step, InFlight, RowsFollow;
    Lifecycle.Frame(env, s, e, t);
    Lifecycle.StepKeeps(env, s, e, t);
    Retention.GlobalsGrow(env, s, e, t);
    ZonesGrow(env, s, e, t);
    forall i | 0 <= i < |t.rows| ensures !CanSend(t, i, c) {
      if i < |s.rows| {
        RowWindow(s.rows, t.rows, i);
        if Moved(e) == Some(i) {
          MoveStaysClosed(env, s, e, t, c);
        } else {
          assert !CanSend(s, i, c);
        }
      }
    }
  }

  predicate NoInstant(es: seq<Event>, c: Uuid) {
    forall j :: 0 <= j < |es| && es[j].InstantPut? ==> es[j].window.customer != c
  }

  // No upload after the first n belongs to the customer.
  ghost predicate NoneSince(puts: seq<Put>, n: nat, c: Uuid) {
    forall q :: n <= q < |puts| ==> !Uploads.Owned(puts[q].key, c)
  }

  lemma Printables(env: Env, s: System, i: nat)
    requires Inv(env, s) && i < |s.rows|
    ensures Printable(s.rows[i].window)
  {
    hide ListsOk, FourDigitYear;
    Lifecycle.RowShapeOf(env, s, i);
  }

  lemma ClosedPut(env: Env, s: System, e: Event, t: System, c: Uuid)
    requires Inv(env, s) && Grounded(env, s) && Step(env, s, e) == Some(t) && !MayUpload(env, s, c) && s.stores != []
    requires NoInstant([e], c)
    ensures NoneSince(t.puts, |s.puts|, c)
  {
    hide Inv, Step, Uploads.Owned, PrepareBlob, FourDigitYear, MayUpload, CanSend;
    assert [e][0] == e;
    Uploads.PutsStep(env, s, e, t);
    if e.Store? {
      MoveStaysClosed(env, s, e, t, c);
      Printables(env, s, e.i);
      Uploads.KeyOwner(env.codec, s.attempts[e.i].raw, s.rows[e.i].window, LogType(s.rows[e.i].kind), c);
    } else if e.InstantPut? {
      Uploads.KeyOwner(env.codec, e.raw, e.window, INSTANT, c);
    }
  }

  /** Once no check lets a pull of the customer through any more, none uploads in any
      continuation. */
  lemma {:induction false} ClosedForGood(env: Env, s: System, es: seq<Event>, t: System, c: Uuid)
    requires Inv(env, s) && Grounded(env, s) && Runs(env, s, es, t) && !MayUpload(env, s, c) && s.stores != []
    requires NoInstant(es, c)
    ensures !MayUpload(env, t, c) && s.puts <= t.puts && NoneSince(t.puts, |s.puts|, c)
    decreases |es|
  {
    hide Inv, Step, Grounded, MayUpload, Uploads.Owned;
    if es != [] {
      var next := Step(env, s, es[0]).value;
      assert NoInstant([es[0]], c) && NoInstant(es[1..], c) by {
        assert forall j :: 0 <= j < |es[1..]| ==> es[1..][j] == es[j + 1];
      }
      ClosedPut(env, s, es[0], next, c);
      StaysClosed(env, s, es[0], next, c);
      GroundedStep(env, s, es[0], next);
      Lifecycle.StepKeeps(env, s, es[0], next);
      Uploads.PutsStep(env, s, es[0], next);
      ClosedForGood(env, next, es[1..], t, c);
      assert forall q :: 0 <= q < |next.puts| ==> t.puts[q] == next.puts[q];
    }
  }

  /** In particular, when the record is deleted and no task that has read it is running. */
  lemma QuietIsClosed(env: Env, s: System, c: Uuid)
    requires Erasure.Erased(s, c) && Erasure.Quiet(s, c)
    ensures !MayUpload(env, s, c)
  {
  }

  // ── When a request surely leaves nothing ───────────────────────────────────────────

  predicate Answered(es: seq<Event>, w: nat) {
    forall j :: 0 <= j < |es| && es[j].EraseDelete? && es[j].w == w ==> Failure !in es[j].faults
  }

  // From s on: a request whose listing is answered and whose deletes all work, through to
  // the deletion of the record and any time after, while anything runs but the customer's
  // instant-log streams.
  ghost predicate Request(env: Env, s: System, c: Uuid, m: System, es: seq<Event>, t: System) {
    && Step(env, s, EraseList(c, true)) == Some(m) && Runs(env, m, es, t)
    && |s.erasers| < |t.erasers| && t.erasers[|s.erasers|].todo == [] && Erasure.Erased(t, c)
    && Answered(es, |s.erasers|) && NoInstant(es, c)
  }

  lemma AnsweredWorks(es: seq<Event>, w: nat, p: nat)
    requires Answered(es, w)
    ensures WorksOn(es, w, p)
  {
  }

  lemma ListingChanges(env: Env, s: System, c: Uuid, m: System)
    requires Step(env, s, EraseList(c, true)) == Some(m)
    ensures m == s.(erasers := s.erasers + [Sweep(c, 0, NewestKeyed(s.rows, c, ERASE_LIMIT), false)])
  {
    hide NewestKeyed;
  }

  lemma ClosedRequestErases(env: Env, s: System, c: Uuid, m: System, es: seq<Event>, t: System)
    requires Inv(env, s) && Grounded(env, s) && Sweeps.AllInReach(env, s, c) && !MayUpload(env, s, c)
    requires Request(env, s, c, m, es, t)
    ensures Sweeps.NothingLeft(t.stores, c)
  {
    hide Inv, Runs, MayUpload, Uploads.Owned, Sweeps.Named, NewestKeyed, Grounded;
    ListingChanges(env, s, c, m);
    Lifecycle.StepKeeps(env, s, EraseList(c, true), m);
    GroundedStep(env, s, EraseList(c, true), m);
    Retention.SameStores(env, m, es, t);
    if s.stores != [] {
      StaysClosed(env, s, EraseList(c, true), m, c);
      ClosedForGood(env, m, es, t, c);
      forall p, key | 0 <= p < |t.stores| && key in t.stores[p] ensures !Uploads.Owned(key, c) {
        if Uploads.Owned(key, c) {
          Retention.CopiesRun(env, m, es, t, p, key);
          AnsweredWorks(es, |s.erasers|, p);
          Uploads.OwnedNotEmpty(key, c);
          RequestResidue(env, s, c, m, es, t, p, key);
        }
      }
    }
  }
}
