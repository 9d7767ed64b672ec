/** What every interleaving keeps about single rows: their shape, and the only ways in
    which a row may change. */
module Lifecycle {
  import opened Base
  import opened Calendar
  import opened Blob
  import opened ObjectStore
  import opened Pipeline

  lemma KeyNotEmpty(c: Codec, raw: Bytes, w: Window, logType: string)
    ensures PrepareBlob(c, raw, w, logType).1.key != ""
  {
    var key := PrepareBlob(c, raw, w, logType).1.key;
    assert |key| == |TypeName(logType)| + |KeyTail(w, c.sha(c.gzip(raw))[..8])|;
  }

  // The closing write of an attempt turns its blank row into a done or a failed one.
  lemma ClosingKeeps(env: Env, s: System, i: nat, written: bool, j: Job)
    requires RowsOk(env, s) && At(s, i) && !s.attempts[i].Over?
    requires RowShape(env, j) && Follows(s.rows[i], j)
    ensures var t := Closing(s, i, written, j); RowsOk(env, t) && RowsFollow(s.rows, t.rows)
  {
    hide PrepareBlob, FourDigitYear;
  }

  lemma FinishKeeps(env: Env, s: System, i: nat, written: bool)
    requires RowsOk(env, s) && Step(env, s, Finish(i, written)).Some?
    ensures var t := Step(env, s, Finish(i, written)).value; RowsOk(env, t) && RowsFollow(s.rows, t.rows)
  {
    hide PrepareBlob, FourDigitYear;
    var j := DoneJob(s.rows[i], s.attempts[i], s.doneCount);
    KeyNotEmpty(env.codec, s.attempts[i].raw, s.rows[i].window, LogType(s.rows[i].kind));
    assert Describes(env, j);
    ClosingKeeps(env, s, i, written, j);
  }

  // An attempt moves on without writing its row.
  lemma StageKeeps(env: Env, s: System, i: nat, stage: Stage, t: System)
    requires RowsOk(env, s) && At(s, i) && !s.attempts[i].Over?
    requires t.rows == s.rows && t.attempts == s.attempts[i := stage]
    requires StageShape(env, s.rows[i], stage)
    ensures RowsOk(env, t) && RowsFollow(s.rows, t.rows)
  {
    hide PrepareBlob, FourDigitYear, RowShape, StageShape;
  }

  // A row changes although no attempt moves.
  lemma RowKeeps(env: Env, s: System, i: nat, j: Job, t: System)
    requires RowsOk(env, s) && i < |s.rows|
    requires t.attempts == s.attempts && t.rows == s.rows[i := j]
    requires RowShape(env, j) && Follows(s.rows[i], j) && (j.status == s.rows[i].status || Settled(s.rows[i]))
    ensures RowsOk(env, t) && RowsFollow(s.rows, t.rows)
  {
    hide PrepareBlob, FourDigitYear, RowShape;
  }

  lemma CreateKeeps(env: Env, s: System, j: Job, t: System)
    requires RowsOk(env, s) && IsBlank(j) && Printable(j.window)
    requires t.attempts == s.attempts + [Created] && t.rows == s.rows + [j]
    ensures RowsOk(env, t) && RowsFollow(s.rows, t.rows)
  {
    hide PrepareBlob, FourDigitYear;
  }

  lemma VerifyKeeps(env: Env, s: System, i: nat, faults: seq<Outcome>)
    requires RowsOk(env, s) && Step(env, s, Verify(i, faults)).Some?
    ensures var t := Step(env, s, Verify(i, faults)).value; RowsOk(env, t) && RowsFollow(s.rows, t.rows)
  {
    hide PrepareBlob, FourDigitYear, GetFirst;
    RowKeeps(env, s, i, s.rows[i].(verified := true), Step(env, s, Verify(i, faults)).value);
  }

  lemma SameRowsKeep(env: Env, s: System, t: System)
    requires RowsOk(env, s) && t.rows == s.rows && t.attempts == s.attempts
    ensures RowsOk(env, t) && RowsFollow(s.rows, t.rows)
  {
    hide PrepareBlob, FourDigitYear, RowShape, StageShape;
  }

  predicate Closes(e: Event) {
    e.Finish? || e.FinishEmpty? || e.Fail?
  }

  lemma MoveKeeps(env: Env, s: System, e: Event, t: System)
    requires RowsOk(env, s) && Step(env, s, e) == Some(t) && Moved(e).Some? && !Closes(e)
    ensures RowsOk(env, t) && RowsFollow(s.rows, t.rows)
  {
    hide PrepareBlob, FourDigitYear, PutAll, LastDone, Usage, RowShape, RowsFollow;
    assert e.i < |s.attempts| && !s.attempts[e.i].Over?;
    assert t.attempts == s.attempts[e.i := t.attempts[e.i]];
    StageKeeps(env, s, e.i, t.attempts[e.i], t);
  }

  lemma CloseKeeps(env: Env, s: System, e: Event, t: System)
    requires RowsOk(env, s) && Step(env, s, e) == Some(t)
    requires Closes(e)
    ensures RowsOk(env, t) && RowsFollow(s.rows, t.rows)
  {
    hide PrepareBlob, FourDigitYear, RowsFollow;
    match e
    case Finish(i, written) => FinishKeeps(env, s, i, written);
    case FinishEmpty(i, written) =>
      assert RowShape(env, s.rows[i]) && StageShape(env, s.rows[i], s.attempts[i]);
      ClosingKeeps(env, s, i, written, s.rows[i].(status := Done, doneAt := s.doneCount));
    case Fail(i, written) =>
      assert RowShape(env, s.rows[i]) && StageShape(env, s.rows[i], s.attempts[i]);
      ClosingKeeps(env, s, i, written, s.rows[i].(status := Failed, attempts := s.rows[i].attempts + 1));
  }

  lemma RowsKept(env: Env, s: System, e: Event, t: System)
    requires RowsOk(env, s) && Step(env, s, e) == Some(t)
    requires !e.ExpireMark? && !e.EraseMark?
    ensures RowsOk(env, t) && RowsFollow(s.rows, t.rows)
  {
    hide PrepareBlob, FourDigitYear, PutAll, DeleteAll, GetFirst, LastDone, Usage, InFlight, DueRows, NewestKeyed;
    hide RowsOk, RowsFollow, MonthBegin;
    if Closes(e) {
      CloseKeeps(env, s, e, t);
    } else if Moved(e).Some? {
      MoveKeeps(env, s, e, t);
    } else {
      match e
      case Create(kind, id, w) => CreateKeeps(env, s, BlankJob(id, kind, w, s.now), t);
      case Verify(i, faults) => VerifyKeeps(env, s, i, faults);
      case _ => SameRowsKeep(env, s, t);
    }
  }

  lemma RowShapeOf(env: Env, s: System, i: nat)
    requires RowsOk(env, s) && i < |s.rows|
    ensures RowShape(env, s.rows[i]) && Printable(s.rows[i].window)
  {
  }

  // The head of a sweep's list names a settled row, which may become expired.
  lemma MarkKeeps(env: Env, s: System, w: Sweep, written: bool, t: System)
    requires RowsOk(env, s) && w.todo != [] && TodoShape(s, w, w.todo[0])
    requires t.rows == MarkExpired(s, w.todo[0].0, written).rows && t.attempts == s.attempts
    ensures RowsOk(env, t) && RowsFollow(s.rows, t.rows)
  {
    hide PrepareBlob, FourDigitYear, RowsOk, RowsFollow;
    if written {
      var i := w.todo[0].0;
      assert RowShape(env, s.rows[i]) by { RowShapeOf(env, s, i); }
      RowKeeps(env, s, i, s.rows[i].(status := Expired), t);
    } else {
      SameRowsKeep(env, s, t);
    }
  }

  lemma KeyedSettled(env: Env, s: System)
    requires RowsOk(env, s)
    ensures forall i :: 0 <= i < |s.rows| && s.rows[i].key != "" ==> Settled(s.rows[i])
  {
    hide PrepareBlob, FourDigitYear, StageShape;
  }

  lemma TodoFollows(s: System, t: System, w: Sweep, x: (nat, string))
    requires TodoShape(s, w, x) && RowsFollow(s.rows, t.rows)
    ensures TodoShape(t, w, x) && t.rows[x.0].window == s.rows[x.0].window
  {
    assert Follows(s.rows[x.0], t.rows[x.0]);
  }

  predicate Shrinks(a: Sweep, b: Sweep) {
    b.customer == a.customer && b.cutoff == a.cutoff && forall x :: x in b.todo ==> x in a.todo
  }

  lemma SweepFollows(s: System, t: System, a: Sweep, b: Sweep)
    requires RowsFollow(s.rows, t.rows) && Shrinks(a, b)
    ensures DueSweep(s, a) ==> DueSweep(t, b)
    ensures EraseSweep(s, a) ==> EraseSweep(t, b)
  {
    hide RowsFollow, Settled;
    forall x | x in b.todo && TodoShape(s, a, x)
      ensures TodoShape(t, b, x) && t.rows[x.0].window == s.rows[x.0].window
    {
      TodoFollows(s, t, a, x);
    }
  }

  // Lists survive every change of the rows, the removal of their heads and new lists.
  lemma ListsFollow(s: System, t: System)
    requires ListsOk(s) && RowsFollow(s.rows, t.rows)
    requires |s.expirers| <= |t.expirers| && |s.erasers| <= |t.erasers|
    requires forall w :: 0 <= w < |s.expirers| ==> Shrinks(s.expirers[w], t.expirers[w])
    requires forall w :: 0 <= w < |s.erasers| ==> Shrinks(s.erasers[w], t.erasers[w])
    requires forall w :: |s.expirers| <= w < |t.expirers| ==> DueSweep(t, t.expirers[w])
    requires forall w :: |s.erasers| <= w < |t.erasers| ==> EraseSweep(t, t.erasers[w])
    ensures ListsOk(t)
  {
    hide RowsFollow, DueSweep, EraseSweep, Shrinks;
    forall w | 0 <= w < |s.expirers| ensures DueSweep(t, t.expirers[w]) {
      SweepFollows(s, t, s.expirers[w], t.expirers[w]);
    }
    forall w | 0 <= w < |s.erasers| ensures EraseSweep(t, t.erasers[w]) {
      SweepFollows(s, t, s.erasers[w], t.erasers[w]);
    }
  }

  lemma NewListsKept(env: Env, s: System, e: Event, t: System)
    requires RowsOk(env, s) && ListsOk(s) && RowsFollow(s.rows, t.rows) && Step(env, s, e) == Some(t)
    requires e.ExpireList? || e.EraseList?
    ensures ListsOk(t)
  {
    hide PrepareBlob, FourDigitYear, DueRows, NewestKeyed, RowsOk, RowsFollow, ListsOk;
    if e.ExpireList? {
      DueRowsAre(s.rows, e.customer, s.now - s.customers[e.customer].retentionDays * DAY);
    } else {
      NewestKeyedAre(s.rows, e.customer, ERASE_LIMIT);
      KeyedSettled(env, s);
    }
    ListsFollow(s, t);
  }

  // Which steps touch the work lists, and how.
  lemma ListFields(env: Env, s: System, e: Event, t: System)
    requires Step(env, s, e) == Some(t)
    ensures !e.ExpireList? && !e.ExpireDelete? && !e.ExpireMark? ==> t.expirers == s.expirers
    ensures !e.EraseList? && !e.EraseDelete? && !e.EraseMark? ==> t.erasers == s.erasers
    ensures e.ExpireList? ==> |t.expirers| == |s.expirers| + 1 && t.expirers == s.expirers + [t.expirers[|s.expirers|]]
    ensures e.EraseList? ==> |t.erasers| == |s.erasers| + 1 && t.erasers == s.erasers + [t.erasers[|s.erasers|]]
    ensures e.ExpireDelete? || e.ExpireMark? ==>
              e.w < |s.expirers| == |t.expirers| && Shrinks(s.expirers[e.w], t.expirers[e.w]) &&
              t.expirers == s.expirers[e.w := t.expirers[e.w]]
    ensures e.EraseDelete? || e.EraseMark? ==>
              e.w < |s.erasers| == |t.erasers| && Shrinks(s.erasers[e.w], t.erasers[e.w]) &&
              t.erasers == s.erasers[e.w := t.erasers[e.w]]
  {
    hide PrepareBlob, FourDigitYear, PutAll, DeleteAll, GetFirst, LastDone, Usage, InFlight, MonthBegin, DueRows, NewestKeyed;
  }

  lemma ListsKept(env: Env, s: System, e: Event, t: System)
    requires RowsOk(env, s) && ListsOk(s) && RowsFollow(s.rows, t.rows) && Step(env, s, e) == Some(t)
    ensures ListsOk(t)
  {
    hide PrepareBlob, FourDigitYear, Step, RowsOk, RowsFollow, ListsOk, DueSweep, EraseSweep;
    if e.ExpireList? || e.EraseList? {
      NewListsKept(env, s, e, t);
    } else {
      ListFields(env, s, e, t);
      ListsFollow(s, t);
    }
  }

  /** Which steps touch the stores at all. */
  lemma StoresFrame(env: Env, s: System, e: Event, t: System)
    requires Step(env, s, e) == Some(t) && !e.Store? && !e.InstantPut? && !e.ExpireDelete? && !e.EraseDelete?
    ensures t.stores == s.stores
  {
    hide PrepareBlob, FourDigitYear, PutAll, DeleteAll, GetFirst, LastDone, Usage, InFlight, MonthBegin, DueRows, NewestKeyed;
  }

  predicate InSweep(sweeps: seq<Sweep>, w: nat, key: string) {
    w < |sweeps| && sweeps[w].todo != [] && sweeps[w].todo[0].1 == key
  }

  // A delete takes its sweep's key, and nothing else, from some of the providers it knows.
  lemma DeleteFrame(env: Env, s: System, e: Event, t: System) returns (key: string)
    requires Step(env, s, e) == Some(t) && (e.ExpireDelete? || e.EraseDelete?)
    ensures t.rows == s.rows && t.puts == s.puts && |t.stores| == |s.stores|
    ensures forall p :: 0 <= p < |s.stores| ==> t.stores[p] == s.stores[p] || t.stores[p] == s.stores[p] - {key}
    ensures e.ExpireDelete? ==> InSweep(s.expirers, e.w, key)
    ensures e.EraseDelete? ==> InSweep(s.erasers, e.w, key) && forall p :: env.apiProviders <= p < |s.stores| ==> t.stores[p] == s.stores[p]
  {
    key := if e.ExpireDelete? then s.expirers[e.w].todo[0].1 else s.erasers[e.w].todo[0].1;
  }

  lemma HeadShape(s: System, w: nat)
    requires ListsOk(s)
    ensures w < |s.expirers| && s.expirers[w].todo != [] ==> TodoShape(s, s.expirers[w], s.expirers[w].todo[0])
    ensures w < |s.erasers| && s.erasers[w].todo != [] ==> TodoShape(s, s.erasers[w], s.erasers[w].todo[0])
  {
  }

  ghost predicate Framed(s: System, e: Event, t: System) {
    && |s.attempts| == |s.rows| && |t.rows| == |t.attempts| == |s.rows| + (if e.Create? then 1 else 0)
    && (forall k :: 0 <= k < |s.rows| && Written(s, e) != Some(k) ==> t.rows[k] == s.rows[k])
    && (forall k :: 0 <= k < |s.rows| && Moved(e) != Some(k) ==> t.attempts[k] == s.attempts[k])
  }

  lemma MoveFrame(env: Env, s: System, e: Event, t: System)
    requires |s.attempts| == |s.rows| && Step(env, s, e) == Some(t) && Moved(e).Some?
    ensures Framed(s, e, t) && e.i < |s.rows| && !s.attempts[e.i].Over?
  {
    hide PrepareBlob, FourDigitYear, PutAll, LastDone, Usage, MonthBegin;
  }

  lemma OtherFrame(env: Env, s: System, e: Event, t: System)
    requires |s.attempts| == |s.rows| && Step(env, s, e) == Some(t) && Moved(e).None?
    ensures Framed(s, e, t)
    ensures e.Create? ==> t.rows[|s.rows|] == BlankJob(e.id, e.kind, e.window, s.now) && t.attempts[|s.rows|] == Created
    ensures e.Verify? ==> e.i < |s.rows| && s.rows[e.i].key != ""
  {
    hide PrepareBlob, FourDigitYear, PutAll, DeleteAll, GetFirst, DueRows, NewestKeyed, InFlight;
  }

  lemma HeadShapes(s: System, e: Event)
    requires ListsOk(s)
    ensures e.ExpireMark? && Written(s, e).Some? ==> Written(s, e).value < |s.rows| && Settled(s.rows[Written(s, e).value])
    ensures e.EraseMark? && Written(s, e).Some? ==> Written(s, e).value < |s.rows| && Settled(s.rows[Written(s, e).value])
  {
    if e.ExpireMark? || e.EraseMark? {
      HeadShape(s, e.w);
    }
  }

  /** What a step leaves alone: every row but the one it writes, and every attempt but the
      one it moves, which is still running. A row written by another actor is settled. */
  lemma Frame(env: Env, s: System, e: Event, t: System)
    requires Inv(env, s) && Step(env, s, e) == Some(t)
    ensures Framed(s, e, t)
    ensures Moved(e).Some? ==> Moved(e).value < |s.rows| && !s.attempts[Moved(e).value].Over?
    ensures Written(s, e).Some? ==> Written(s, e).value < |s.rows|
    ensures Written(s, e).Some? && Moved(e).None? ==> Settled(s.rows[Written(s, e).value])
    ensures e.Create? ==> t.rows[|s.rows|] == BlankJob(e.id, e.kind, e.window, s.now) && t.attempts[|s.rows|] == Created
  {
    hide PrepareBlob, FourDigitYear, Step, RowShape, StageShape, ListsOk, Framed;
    if Moved(e).Some? {
      MoveFrame(env, s, e, t);
    } else {
      OtherFrame(env, s, e, t);
      HeadShapes(s, e);
      KeyedSettled(env, s);
    }
  }

  /** Every step of every actor keeps the shape of all rows, running attempts and work
      lists, and lets each row change only along its life cycle. */
  lemma StepKeeps(env: Env, s: System, e: Event, t: System)
    requires Inv(env, s) && Step(env, s, e) == Some(t)
    ensures Inv(env, t) && RowsFollow(s.rows, t.rows)
  {
    hide RowsOk, RowsFollow, ListsOk, TodoShape, CreateStep, LinkStep, StoreStep, VerifyStep, ExpireDeleteStep,
         EraseDeleteStep, EraseCustomerStep;
    match e {
      case ExpireMark(w, written) =>
        HeadShape(s, w);
        MarkKeeps(env, s, s.expirers[w], written, t);
      case EraseMark(w, written) =>
        HeadShape(s, w);
        MarkKeeps(env, s, s.erasers[w], written, t);
      case _ => RowsKept(env, s, e, t);
    }
    ListsKept(env, s, e, t);
  }

  lemma RowsFollowChain(a: seq<Job>, b: seq<Job>, c: seq<Job>)
    requires RowsFollow(a, b) && RowsFollow(b, c)
    ensures RowsFollow(a, c)
  {
    forall i | 0 <= i < |a| ensures Follows(a[i], c[i]) {
      assert Follows(a[i], b[i]) && Follows(b[i], c[i]);
    }
  }

  lemma FollowsItself(rows: seq<Job>)
    ensures RowsFollow(rows, rows)
  {
  }

  /** Over every run a row only moves pending to done or failed and done to expired, keeps
      its contents once it is settled, and never loses its verification stamp. */
  lemma {:induction false} RunKeeps(env: Env, s: System, es: seq<Event>, t: System)
    requires Inv(env, s) && Runs(env, s, es, t)
    ensures Inv(env, t) && RowsFollow(s.rows, t.rows)
    decreases |es|
  {
    hide Inv, RowsFollow, Step;
    if es == [] {
      FollowsItself(s.rows);
    } else {
      var next := Step(env, s, es[0]).value;
      StepKeeps(env, s, es[0], next);
      RunKeeps(env, next, es[1..], t);
      RowsFollowChain(s.rows, next.rows, t.rows);
    }
  }

  lemma InitialInv(env: Env, s: System)
    requires Initial(s)
    ensures Inv(env, s)
  {
  }

  /** What the columns of any reachable row say: a key comes with both hashes and only on
      done or expired rows, a failed row was attempted once and names no object, and a
      verification stamp comes with a key. */
  lemma ReachableRow(env: Env, s: System, es: seq<Event>, t: System, i: nat)
    requires Initial(s) && Runs(env, s, es, t) && i < |t.rows|
    ensures var j := t.rows[i];
            && (j.key != "" ==> Settled(j) && |j.sha256| == |j.chain| == 64)
            && (j.key == "" && Settled(j) ==> j.sha256 == j.chain == "" && j.bytes == 0)
            && (j.status == Failed ==> j.attempts == 1 && j.key == j.chain == "")
            && (j.status == Pending ==> IsBlank(j))
            && (j.verified ==> j.key != "")
  {
    InitialInv(env, s);
    RunKeeps(env, s, es, t);
    hide PrepareBlob, FourDigitYear, ListsOk;
    RowShapeOf(env, t, i);
  }

  lemma AbandonedStep(env: Env, s: System, e: Event, t: System, i: nat)
    requires Inv(env, s) && Step(env, s, e) == Some(t)
    requires i < |s.rows| && s.attempts[i].Over? && s.rows[i].status == Pending
    ensures i < |t.rows| == |t.attempts| && t.attempts[i].Over? && t.rows[i] == s.rows[i]
  {
    hide RowsFollow, PrepareBlob, FourDigitYear, ListsOk, Step;
    RowShapeOf(env, s, i);
    Frame(env, s, e, t);
  }

  /** An attempt that stops without its closing write, as after a rate limit or a crash,
      leaves its row pending for ever: a retry makes a row of its own. */
  lemma {:induction false} AbandonedStaysPending(env: Env, s: System, es: seq<Event>, t: System, i: nat)
    requires Inv(env, s) && Runs(env, s, es, t)
    requires i < |s.rows| && s.attempts[i].Over? && s.rows[i].status == Pending
    ensures i < |t.rows| && t.rows[i] == s.rows[i]
    decreases |es|
  {
    hide RowsOk, RowsFollow, ListsOk, PrepareBlob, FourDigitYear, LastDone, Usage, InFlight, DueRows, NewestKeyed;
    if es != [] {
      var next := Step(env, s, es[0]).value;
      StepKeeps(env, s, es[0], next);
      AbandonedStep(env, s, es[0], next, i);
      AbandonedStaysPending(env, next, es[1..], t, i);
    }
  }
}
