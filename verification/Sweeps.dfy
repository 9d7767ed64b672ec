/** What a sweep over listed jobs leaves behind: which rows it marks, and for every provider
    and key whether the object is still there. When an erasure leaves nothing at all. */
module Sweeps {
  import opened Base
  import opened Calendar
  import opened Blob
  import opened ObjectStore
  import opened Pipeline
  import Erasure
  import Uploads

  // What the calls for one listed job answer: the delete per provider, and the row update.
  datatype Answer = Answer(faults: seq<Outcome>, marked: bool)

  predicate Distinct(todo: seq<(nat, string)>) {
    forall j, k :: 0 <= j < k < |todo| ==> todo[j].0 != todo[k].0
  }

  lemma {:induction false} DueRowsDistinct(rows: seq<Job>, customer: Uuid, cutoff: int)
    ensures Distinct(DueRows(rows, customer, cutoff))
  {
    if rows != [] {
      DueRowsDistinct(rows[..|rows| - 1], customer, cutoff);
      DueRowsAre(rows[..|rows| - 1], customer, cutoff);
    }
  }

  lemma {:induction false} NewestKeyedDistinct(rows: seq<Job>, customer: Uuid, limit: nat)
    ensures Distinct(NewestKeyed(rows, customer, limit))
  {
    if rows != [] && limit != 0 {
      var n := |rows| - 1;
      NewestKeyedDistinct(rows[..n], customer, limit);
      NewestKeyedDistinct(rows[..n], customer, limit - 1);
      NewestKeyedAre(rows[..n], customer, limit - 1);
      assert forall x :: x in NewestKeyed(rows[..n], customer, limit - 1) ==> x.0 < n;
    }
  }

  // ── Rows ───────────────────────────────────────────────────────────────────────────

  predicate Listed(todo: seq<(nat, string)>, i: nat) {
    exists k :: 0 <= k < |todo| && todo[k].0 == i
  }

  // The rows after a sweep that marked exactly the chosen jobs.
  ghost predicate MarkedRows(before: seq<Job>, after: seq<Job>, todo: seq<(nat, string)>, chosen: seq<bool>)
    requires |chosen| == |todo|
  {
    && |after| == |before|
    && (forall k :: 0 <= k < |todo| ==>
          todo[k].0 < |before| && after[todo[k].0] == if chosen[k] then before[todo[k].0].(status := Expired) else before[todo[k].0])
    && forall i :: 0 <= i < |before| && !Listed(todo, i) ==> after[i] == before[i]
  }

  lemma MarkedNext(before: seq<Job>, now: seq<Job>, after: seq<Job>, todo: seq<(nat, string)>, chosen: seq<bool>,
                   x: (nat, string), c: bool)
    requires |chosen| == |todo| && MarkedRows(before, now, todo, chosen) && Distinct(todo + [x]) && x.0 < |now|
    requires after == if c then now[x.0 := now[x.0].(status := Expired)] else now
    ensures MarkedRows(before, after, todo + [x], chosen + [c])
  {
    assert forall k :: 0 <= k < |todo| ==> (todo + [x])[k] == todo[k];
    assert (todo + [x])[|todo|] == x;
    assert !Listed(todo, x.0);
    forall i | 0 <= i < |before| && !Listed(todo + [x], i)
      ensures after[i] == before[i]
    {
      assert i != x.0;
      assert !Listed(todo, i);
    }
  }

  // ── Objects ────────────────────────────────────────────────────────────────────────

  // Every delete of the key failed on the provider.
  predicate Spared(todo: seq<(nat, string)>, answers: seq<Answer>, p: nat, key: string)
    requires |answers| == |todo|
  {
    forall k :: 0 <= k < |todo| && todo[k].1 == key && key != "" ==> p < |answers[k].faults| && answers[k].faults[p] == Failure
  }

  // The deletes went to the first n providers, and took effect exactly where they did not fail.
  ghost predicate Residue(before: seq<Objects>, after: seq<Objects>, n: nat, todo: seq<(nat, string)>, answers: seq<Answer>)
    requires |answers| == |todo|
  {
    && |after| == |before|
    && (forall p, key :: 0 <= p < |before| ==>
          (key in after[p] <==> key in before[p] && (p < n ==> Spared(todo, answers, p, key))))
    && forall p, key :: 0 <= p < |before| && key in after[p] ==> key in before[p] && after[p][key] == before[p][key]
  }

  // One more delete.
  predicate Deleted(now: seq<Objects>, after: seq<Objects>, n: nat, key: string, faults: seq<Outcome>) {
    && |faults| == n <= |now| == |after|
    && forall p :: 0 <= p < |now| ==> after[p] == if key != "" && p < n && faults[p] != Failure then now[p] - {key} else now[p]
  }

  lemma SparedNext(todo: seq<(nat, string)>, answers: seq<Answer>, x: (nat, string), a: Answer, p: nat, key: string)
    requires |answers| == |todo|
    ensures Spared(todo + [x], answers + [a], p, key) <==>
            Spared(todo, answers, p, key) && (x.1 == key && key != "" ==> p < |a.faults| && a.faults[p] == Failure)
  {
    var xs, ys := todo + [x], answers + [a];
    assert xs[|todo|] == x && ys[|todo|] == a;
    assert forall k :: 0 <= k < |todo| ==> xs[k] == todo[k] && ys[k] == answers[k];
  }

  lemma ResidueNext(before: seq<Objects>, now: seq<Objects>, after: seq<Objects>, n: nat,
                    todo: seq<(nat, string)>, answers: seq<Answer>, x: (nat, string), a: Answer)
    requires |answers| == |todo| && Residue(before, now, n, todo, answers) && Deleted(now, after, n, x.1, a.faults)
    ensures Residue(before, after, n, todo + [x], answers + [a])
  {
    hide Spared;
    forall p, key | 0 <= p < |before|
      ensures key in after[p] <==> key in before[p] && (p < n ==> Spared(todo + [x], answers + [a], p, key))
    {
      SparedNext(todo, answers, x, a, p, key);
    }
  }

  // ── Retention ──────────────────────────────────────────────────────────────────────

  // A retention sweep handles a job when it names no object or some provider deleted it.
  predicate Handled(key: string, a: Answer) {
    key == "" || DeleteOk(a.faults)
  }

  function Choices(todo: seq<(nat, string)>, answers: seq<Answer>): (r: seq<bool>)
    requires |answers| == |todo|
    ensures |r| == |todo|
  {
    seq(|todo|, k requires 0 <= k < |todo| => Handled(todo[k].1, answers[k]) && answers[k].marked)
  }

  // From s to t, a retention sweep has been through the given jobs.
  ghost predicate Swept(s: System, t: System, todo: seq<(nat, string)>, answers: seq<Answer>)
    requires |answers| == |todo|
  {
    MarkedRows(s.rows, t.rows, todo, Choices(todo, answers)) && Residue(s.stores, t.stores, |s.stores|, todo, answers)
  }

  lemma SweepStarts(s: System, t: System)
    requires t.rows == s.rows && t.stores == s.stores
    ensures Swept(s, t, [], [])
  {
  }

  lemma SweptNext(s: System, m: System, t: System, todo: seq<(nat, string)>, answers: seq<Answer>, x: (nat, string), a: Answer)
    requires |answers| == |todo| && Swept(s, m, todo, answers) && Distinct(todo + [x]) && x.0 < |m.rows|
    requires |a.faults| == |m.stores|
    requires t.rows == if Handled(x.1, a) && a.marked then m.rows[x.0 := m.rows[x.0].(status := Expired)] else m.rows
    requires t.stores == if x.1 == "" then m.stores else DeleteAll(m.stores, a.faults, x.1)
    ensures Swept(s, t, todo + [x], answers + [a]) && |t.stores| == |m.stores|
  {
    assert Deleted(m.stores, t.stores, |m.stores|, x.1, a.faults);
    hide MarkedRows, DeleteAll;
    var chosen := Handled(x.1, a) && a.marked;
    assert Choices(todo + [x], answers + [a]) == Choices(todo, answers) + [chosen];
    MarkedNext(s.rows, m.rows, t.rows, todo, Choices(todo, answers), x, chosen);
    ResidueNext(s.stores, m.stores, t.stores, |s.stores|, todo, answers, x, a);
  }

  /** A job that the sweep expired had its object deleted by a provider that confirmed it,
      and copies of it are left exactly where no delete of the key took effect. */
  lemma ExpiredMeansConfirmed(s: System, t: System, todo: seq<(nat, string)>, answers: seq<Answer>, k: nat)
    requires |answers| == |todo| && Swept(s, t, todo, answers) && k < |todo| && todo[k].1 != ""
    requires s.rows[todo[k].0].status == Done && t.rows[todo[k].0].status == Expired && |answers[k].faults| == |s.stores| > 0
    ensures exists p :: 0 <= p < |s.stores| && answers[k].faults[p] == Success && todo[k].1 !in t.stores[p]
    ensures forall p :: 0 <= p < |s.stores| ==>
              (todo[k].1 in t.stores[p] <==> todo[k].1 in s.stores[p] && Spared(todo, answers, p, todo[k].1))
  {
    var p :| 0 <= p < |answers[k].faults| && answers[k].faults[p] == Success;
    assert todo[k].1 !in t.stores[p];
  }

  // ── Erasure ────────────────────────────────────────────────────────────────────────

  function Marks(answers: seq<Answer>): (r: seq<bool>)
    ensures |r| == |answers|
  {
    seq(|answers|, k requires 0 <= k < |answers| => answers[k].marked)
  }

  function Listing(s: System, c: Uuid, listed: bool): seq<(nat, string)> {
    if listed then NewestKeyed(s.rows, c, ERASE_LIMIT) else []
  }

  // From s to t, an erasure has been through the given jobs: every delete went to the
  // handler's providers, and the row was marked whatever the delete reported.
  ghost predicate SweptForErasure(env: Env, s: System, t: System, todo: seq<(nat, string)>, answers: seq<Answer>)
    requires |answers| == |todo|
  {
    MarkedRows(s.rows, t.rows, todo, Marks(answers)) && Residue(s.stores, t.stores, env.apiProviders, todo, answers)
  }

  lemma EraseStarts(env: Env, s: System, t: System)
    requires t.rows == s.rows && t.stores == s.stores
    ensures SweptForErasure(env, s, t, [], [])
  {
  }

  lemma ErasedNext(env: Env, s: System, m: System, t: System, todo: seq<(nat, string)>, answers: seq<Answer>,
                   x: (nat, string), a: Answer)
    requires |answers| == |todo| && SweptForErasure(env, s, m, todo, answers) && Distinct(todo + [x]) && x.0 < |m.rows|
    requires |a.faults| == env.apiProviders <= |m.stores| && x.1 != ""
    requires t.rows == if a.marked then m.rows[x.0 := m.rows[x.0].(status := Expired)] else m.rows
    requires t.stores == DeletePrefix(m.stores, env.apiProviders, a.faults, x.1)
    ensures SweptForErasure(env, s, t, todo + [x], answers + [a]) && |t.stores| == |m.stores|
  {
    assert Deleted(m.stores, t.stores, env.apiProviders, x.1, a.faults);
    hide MarkedRows, Residue, DeletePrefix, Deleted;
    assert Marks(answers + [a]) == Marks(answers) + [a.marked];
    MarkedNext(s.rows, m.rows, t.rows, todo, Marks(answers), x, a.marked);
    ResidueNext(s.stores, m.stores, t.stores, env.apiProviders, todo, answers, x, a);
  }

  lemma ErasedSame(env: Env, s: System, m: System, t: System, todo: seq<(nat, string)>, answers: seq<Answer>)
    requires |answers| == |todo| && SweptForErasure(env, s, m, todo, answers) && t.rows == m.rows && t.stores == m.stores
    ensures SweptForErasure(env, s, t, todo, answers)
  {
  }

  // A sweep over nothing.
  lemma NothingSwept(env: Env, s: System, t: System)
    requires SweptForErasure(env, s, t, [], [])
    ensures t.rows == s.rows && t.stores == s.stores
  {
    forall p | 0 <= p < |s.stores| ensures t.stores[p] == s.stores[p] {
      assert forall key :: key in t.stores[p] <==> key in s.stores[p];
      assert t.stores[p].Keys == s.stores[p].Keys;
    }
    assert forall i :: 0 <= i < |s.rows| ==> !Listed([], i);
  }

  lemma ListingIs(s: System, c: Uuid, listed: bool)
    ensures Distinct(Listing(s, c, listed)) && forall x :: x in Listing(s, c, listed) ==> x.1 != ""
  {
    NewestKeyedDistinct(s.rows, c, ERASE_LIMIT);
    NewestKeyedAre(s.rows, c, ERASE_LIMIT);
  }

  // ── When an erasure leaves nothing ─────────────────────────────────────────────────

  ghost predicate NothingLeft(stores: seq<Objects>, c: Uuid) {
    forall p, key :: 0 <= p < |stores| && key in stores[p] ==> !Uploads.Owned(key, c)
  }

  // A delete of the listed key takes effect on the provider.
  predicate Deletes(todo: seq<(nat, string)>, answers: seq<Answer>, p: nat, key: string)
    requires |answers| == |todo|
  {
    exists k :: 0 <= k < |todo| && todo[k].1 == key && p < |answers[k].faults| && answers[k].faults[p] != Failure
  }

  // Each object of the customer lies where a delete of it takes effect.
  ghost predicate AllDeleted(env: Env, stores: seq<Objects>, c: Uuid, todo: seq<(nat, string)>, answers: seq<Answer>)
    requires |answers| == |todo|
  {
    forall p, key :: 0 <= p < |stores| && key in stores[p] && Uploads.Owned(key, c) ==>
      p < env.apiProviders && Deletes(todo, answers, p, key)
  }

  /** A request leaves no object of the customer exactly when each one lies on a provider
      that the API knows and a delete of it, for a listed row, takes effect there. */
  lemma ErasesAllExactlyWhen(env: Env, s: System, t: System, c: Uuid, todo: seq<(nat, string)>, answers: seq<Answer>)
    requires |answers| == |todo| && SweptForErasure(env, s, t, todo, answers)
    requires forall a :: a in answers ==> |a.faults| == env.apiProviders
    ensures NothingLeft(t.stores, c) <==> AllDeleted(env, s.stores, c, todo, answers)
  {
    hide MarkedRows, Uploads.Owned;
    forall p: nat, key | p < env.apiProviders && Uploads.Owned(key, c)
      ensures Spared(todo, answers, p, key) <==> !Deletes(todo, answers, p, key)
    {
      Uploads.OwnedNotEmpty(key, c);
    }
  }

  // One of the customer's newest rows names the object.
  predicate Named(s: System, c: Uuid, key: string) {
    exists i :: 0 <= i < |s.rows| && s.rows[i].window.customer == c && s.rows[i].key == key && Erasure.NewerRows(s.rows, c, i) < 9999
  }

  // Every object of the customer is on a provider that the API knows, and one of the
  // newest rows names it.
  ghost predicate AllInReach(env: Env, s: System, c: Uuid) {
    forall p, key :: 0 <= p < |s.stores| && key in s.stores[p] && Uploads.Owned(key, c) ==>
      p < env.apiProviders && Named(s, c, key)
  }

  lemma ListedIsNamed(s: System, c: Uuid, k: nat)
    requires k < |Listing(s, c, true)|
    ensures Named(s, c, Listing(s, c, true)[k].1)
  {
    hide NewestKeyed, Erasure.NewerRows;
    var todo := Listing(s, c, true);
    NewestKeyedAre(s.rows, c, ERASE_LIMIT);
    assert todo[k] in todo;
    Erasure.ListedExactly(s.rows, c, ERASE_LIMIT, todo[k].0);
  }

  lemma NamedIsListed(env: Env, s: System, c: Uuid, answers: seq<Answer>, p: nat, key: string)
    requires |answers| == |Listing(s, c, true)| && p < env.apiProviders && key != ""
    requires forall a :: a in answers ==> |a.faults| == env.apiProviders && Failure !in a.faults
    ensures Deletes(Listing(s, c, true), answers, p, key) <==> Named(s, c, key)
  {
    hide NewestKeyed, Erasure.NewerRows;
    var todo := Listing(s, c, true);
    if Deletes(todo, answers, p, key) {
      var k :| 0 <= k < |todo| && todo[k].1 == key && p < |answers[k].faults| && answers[k].faults[p] != Failure;
      ListedIsNamed(s, c, k);
    }
    if Named(s, c, key) {
      var i :| 0 <= i < |s.rows| && s.rows[i].window.customer == c && s.rows[i].key == key && Erasure.NewerRows(s.rows, c, i) < 9999;
      Erasure.ListedExactly(s.rows, c, ERASE_LIMIT, i);
      var k :| 0 <= k < |todo| && todo[k] == (i, key);
      assert answers[k] in answers && answers[k].faults[p] in answers[k].faults;
    }
  }

  /** When the listing is answered and no delete fails, that means: each object of the
      customer lies on a provider that the API knows and is named by one of the customer's
      newest 9999 rows. An upload that no row names is enough to leave something. */
  lemma AnsweredErasesAllExactlyWhen(env: Env, s: System, t: System, c: Uuid, answers: seq<Answer>)
    requires |answers| == |Listing(s, c, true)| && SweptForErasure(env, s, t, Listing(s, c, true), answers)
    requires forall a :: a in answers ==> |a.faults| == env.apiProviders && Failure !in a.faults
    ensures NothingLeft(t.stores, c) <==> AllInReach(env, s, c)
  {
    hide SweptForErasure, Uploads.Owned, NewestKeyed, NothingLeft;
    var todo := Listing(s, c, true);
    ErasesAllExactlyWhen(env, s, t, c, todo, answers);
    forall p: nat, key | p < env.apiProviders && Uploads.Owned(key, c)
      ensures Deletes(todo, answers, p, key) <==> Named(s, c, key)
    {
      Uploads.OwnedNotEmpty(key, c);
      NamedIsListed(env, s, c, answers, p, key);
    }
  }
}
