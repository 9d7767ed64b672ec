/** What the tables' constraints keep, whoever writes: job ids are unique, a job belongs to a
    zone of its own customer, and no more tasks run than there are workers. */
module Tables {
  import opened Base
  import opened Calendar
  import opened Blob
  import opened Pipeline
  import Erasure
  import Lifecycle
  import Quota
  import Requests

  predicate OwnZone(s: System, w: Window) {
    w.zone in s.zones && s.zones[w.zone].customer == w.customer
  }

  ghost predicate Constrained(env: Env, s: System) {
    && |s.attempts| == |s.rows| && InFlight(s.attempts) <= env.concurrency
    && (forall i :: 0 <= i < |s.rows| ==> OwnZone(s, s.rows[i].window))
    && forall i, j :: 0 <= i < j < |s.rows| ==> s.rows[i].id != s.rows[j].id
  }

  /** A job is inserted exactly when a worker is free, its id is new, its window can be
      printed, and its zone belongs to its customer; it starts out blank. */
  lemma InsertedExactlyWhen(env: Env, s: System, kind: Kind, id: Uuid, w: Window)
    ensures Step(env, s, Create(kind, id, w)).Some? <==>
            && InFlight(s.attempts) < env.concurrency && Printable(w) && OwnZone(s, w)
            && forall k :: 0 <= k < |s.rows| ==> s.rows[k].id != id
    ensures Step(env, s, Create(kind, id, w)).Some? ==>
              Step(env, s, Create(kind, id, w)).value ==
                s.(rows := s.rows + [Job(id, kind, w, s.now, Pending, "", "", "", 0, 0, false, "", None, 0)],
                   attempts := s.attempts + [Created])
  {
    hide InFlight, FourDigitYear;
  }

  lemma SameIdentity(a: Job, b: Job)
    requires Follows(a, b)
    ensures b.id == a.id && b.window == a.window
  {
  }

  lemma ConstrainedStep(env: Env, s: System, e: Event, t: System)
    requires Inv(env, s) && Constrained(env, s) && Step(env, s, e) == Some(t)
    ensures Constrained(env, t)
  {
    hide Inv, Step, InFlight, Follows, Settled, Printable;
    var k := Erasure.OneChange(env, s, e, t);
    Quota.FlightStep(env, s, e, t);
    Requests.ZonesGrow(env, s, e, t);
    if e.Create? {
      InsertedExactlyWhen(env, s, e.kind, e.id, e.window);
    } else if k.Some? {
      SameIdentity(s.rows[k.value], t.rows[k.value]);
    }
  }

  lemma InitialConstrained(env: Env, s: System)
    requires Initial(s)
    ensures Constrained(env, s)
  {
  }

  lemma {:induction false} ConstrainedRun(env: Env, s: System, es: seq<Event>, t: System)
    requires Inv(env, s) && Constrained(env, s) && Runs(env, s, es, t)
    ensures Constrained(env, t)
    decreases |es|
  {
    hide Inv, Step, Constrained;
    if es != [] {
      var next := Step(env, s, es[0]).value;
      Lifecycle.StepKeeps(env, s, es[0], next);
      ConstrainedStep(env, s, es[0], next);
      ConstrainedRun(env, next, es[1..], t);
    }
  }

  /** So in every reachable state. */
  lemma ConstraintsHold(env: Env, s: System, es: seq<Event>, t: System)
    requires Initial(s) && Runs(env, s, es, t)
    ensures |t.attempts| == |t.rows| && InFlight(t.attempts) <= env.concurrency
    ensures forall i :: 0 <= i < |t.rows| ==>
              t.rows[i].window.zone in t.zones && t.zones[t.rows[i].window.zone].customer == t.rows[i].window.customer
    ensures forall i, j :: 0 <= i < j < |t.rows| ==> t.rows[i].id != t.rows[j].id
  {
    Lifecycle.InitialInv(env, s);
    InitialConstrained(env, s);
    ConstrainedRun(env, s, es, t);
    hide Inv, Runs, InFlight;
  }
}
