/** The code of one task or request, as the programs run it: each method executes one
    processor from beginning to end, and its ghost result lists the protocol steps it took. */
module Processors {
  import opened Base
  import opened Calendar
  import opened Blob
  import opened ObjectStore
  import opened Pipeline
  import opened Sweeps
  import Lifecycle
  import Quota
  import Uploads
  import Worm

  // What the calls of one pull task answer, the insert of its row first. Only the log API reports its rate limit.
  datatype Fetch = Empty | Got(raw: Bytes) | Limited | Forbidden | Broken

  datatype Replies = Replies(
    insert: Outcome, customer: bool, zone: bool, usage: bool, decrypted: bool, waited: bool,
    fetch: Fetch, lastJob: bool, faults: seq<Outcome>, updated: bool)

  // How a pull task ends.
  datatype Verdict = NotCreated | LeftPending | FailedJob | UploadFailed | EmptyWindow | Archived

  predicate CustomerLoads(s: System, w: Window, x: Replies) {
    x.customer && w.customer in s.customers && !s.customers[w.customer].deleted
  }

  predicate ZoneLoads(s: System, w: Window, x: Replies) {
    x.zone && w.zone in s.zones && !s.zones[w.zone].deleted
  }

  predicate UnderQuota(s: System, w: Window, x: Replies)
    requires w.customer in s.customers
  {
    var quota := s.customers[w.customer].quota;
    quota == -1 || (x.usage && Usage(s.rows, w.customer, MonthBegin(s.now)) < quota)
  }

  predicate Passes(s: System, w: Window, x: Replies) {
    CustomerLoads(s, w, x) && ZoneLoads(s, w, x) && UnderQuota(s, w, x)
  }

  predicate NoLogs(kind: Kind, fetch: Fetch) {
    fetch == Empty || (kind == Pull && fetch == Got(""))
  }

  // A task that stops before its fetch has answered.
  predicate Stopped(kind: Kind, x: Replies) {
    kind == Pull && x.decrypted && (!x.waited || x.fetch == Limited)
  }

  // How a task ends once its row exists; the order of checks decides.
  function Ending(kind: Kind, passed: bool, x: Replies): Verdict {
    if !passed then FailedJob
    else if Stopped(kind, x) then LeftPending
    else if !x.decrypted || !x.waited then FailedJob
    else if NoLogs(kind, x.fetch) then EmptyWindow
    else if !x.fetch.Got? then FailedJob
    else if Success in x.faults then Archived
    else UploadFailed
  }

  function Judge(env: Env, s: System, kind: Kind, id: Uuid, w: Window, x: Replies): Verdict {
    if CreateStep(env, s, kind, id, w).None? || x.insert == Failure then NotCreated
    else if x.insert == LostReply then LeftPending
    else Ending(kind, Passes(s, w, x), x)
  }

  // A nil error: the job was stored, or the log API is closed to the zone and not asked again.
  predicate NoRetry(kind: Kind, passed: bool, x: Replies, v: Verdict) {
    || ((v == EmptyWindow || v == Archived) && x.updated)
    || (v == FailedJob && kind == Pull && passed && x.decrypted && x.waited && x.fetch == Forbidden)
  }

  predicate ReachesStores(v: Verdict) {
    v == Archived || v == UploadFailed
  }

  // The job that the last write of the task sends to the table.
  function LastWrite(env: Env, s: System, job: Job, x: Replies, v: Verdict): Job {
    match v
    case NotCreated | LeftPending => job
    case FailedJob | UploadFailed => job.(status := Failed, attempts := job.attempts + 1)
    case EmptyWindow => job.(status := Done, doneAt := s.doneCount)
    case Archived =>
      var raw := if x.fetch.Got? then x.fetch.raw else "";
      var parent := if x.lastJob then LastDone(s.rows, job.window.zone) else None;
      var meta := PrepareBlob(env.codec, raw, job.window, LogType(job.kind)).1;
      job.(status := Done, key := meta.key, sha256 := meta.sha256, bytes := meta.size,
           chain := Worm.ChainHash(env.codec.sha, ParentHash(s.rows, parent), env.codec.sha(raw), job.id),
           raw := raw, parent := parent, doneAt := s.doneCount)
  }

  lemma LastWrites(env: Env, s: System, j: Job, x: Replies, raw: Bytes)
    requires x.fetch == Got(raw)
    ensures LastWrite(env, s, j, x, UploadFailed) == j.(status := Failed, attempts := j.attempts + 1)
    ensures var parent := if x.lastJob then LastDone(s.rows, j.window.zone) else None;
            var chain := Worm.ChainHash(env.codec.sha, ParentHash(s.rows, parent), env.codec.sha(raw), j.id);
            var meta := PrepareBlob(env.codec, raw, j.window, LogType(j.kind)).1;
            LastWrite(env, s, j, x, Archived) == DoneJob(j, Stored(raw, parent, chain, meta), s.doneCount)
  {
    hide PrepareBlob, LastDone, Worm.ChainHash;
  }

  lemma RunsNothing(env: Env, s: System)
    ensures Runs(env, s, [], s)
  {
    hide Step;
  }

  lemma SameLength(env: Env, s: System)
    requires Inv(env, s)
    ensures |s.attempts| == |s.rows|
  {
    hide ListsOk, RowShape, StageShape, Printable;
  }

  lemma HeadInRange(env: Env, s: System, w: nat)
    requires Inv(env, s)
    ensures w < |s.expirers| && s.expirers[w].todo != [] ==> s.expirers[w].todo[0].0 < |s.rows|
    ensures w < |s.erasers| && s.erasers[w].todo != [] ==> s.erasers[w].todo[0].0 < |s.rows|
  {
    hide RowsOk;
    Lifecycle.HeadShape(s, w);
  }

  lemma ExpireDeleteIs(env: Env, s: System, w: nat, faults: seq<Outcome>)
    requires w < |s.expirers| && s.expirers[w].todo != [] && !s.expirers[w].handled && |faults| == |s.stores|
    ensures var sweep := s.expirers[w];
            var key := sweep.todo[0].1;
            Step(env, s, ExpireDelete(w, faults)) ==
              Some(s.(stores := if key == "" then s.stores else DeleteAll(s.stores, faults, key),
                      expirers := s.expirers[w := if key == "" || DeleteOk(faults) then sweep.(handled := true) else Next(sweep)]))
  {
    hide DeleteAll;
  }

  lemma ExpireMarkIs(env: Env, s: System, w: nat, marked: bool)
    requires w < |s.expirers| && s.expirers[w].todo != [] && s.expirers[w].handled && s.expirers[w].todo[0].0 < |s.rows|
    ensures var i := s.expirers[w].todo[0].0;
            Step(env, s, ExpireMark(w, marked)) ==
              Some(s.(rows := if marked then s.rows[i := s.rows[i].(status := Expired)] else s.rows,
                      expirers := s.expirers[w := Next(s.expirers[w])]))
  {
  }

  lemma EraseDeleteIs(env: Env, s: System, w: nat, faults: seq<Outcome>)
    requires w < |s.erasers| && s.erasers[w].todo != [] && !s.erasers[w].handled && |faults| == env.apiProviders <= |s.stores|
    ensures Step(env, s, EraseDelete(w, faults)) ==
              Some(s.(stores := DeletePrefix(s.stores, env.apiProviders, faults, s.erasers[w].todo[0].1),
                      erasers := s.erasers[w := s.erasers[w].(handled := true)]))
  {
    hide DeletePrefix;
  }

  lemma EraseMarkIs(env: Env, s: System, w: nat, marked: bool)
    requires w < |s.erasers| && s.erasers[w].todo != [] && s.erasers[w].handled && s.erasers[w].todo[0].0 < |s.rows|
    ensures var i := s.erasers[w].todo[0].0;
            Step(env, s, EraseMark(w, marked)) ==
              Some(s.(rows := if marked then s.rows[i := s.rows[i].(status := Expired)] else s.rows,
                      erasers := s.erasers[w := Next(s.erasers[w])]))
  {
  }

  lemma EraseCustomerIs(env: Env, s: System, w: nat)
    requires w < |s.erasers| && s.erasers[w].todo == [] && s.erasers[w].customer in s.customers
    ensures var c := s.erasers[w].customer;
            Step(env, s, EraseCustomer(w, false)) == Some(s.(customers := s.customers[c := s.customers[c].(deleted := true)]))
  {
    assert EraseCustomerStep(s, w, false).value.zones == s.zones;
  }

  lemma LoadCustomerStep(env: Env, s: System, i: nat)
    requires At(s, i) && s.attempts[i] == Created
    requires s.rows[i].window.customer in s.customers && !s.customers[s.rows[i].window.customer].deleted
    ensures Step(env, s, LoadCustomer(i)) == Some(WithStage(s, i, HasCustomer(s.customers[s.rows[i].window.customer].quota)))
  {
  }

  lemma LoadZoneStep(env: Env, s: System, i: nat)
    requires At(s, i) && s.attempts[i].HasCustomer?
    requires s.rows[i].window.zone in s.zones && !s.zones[s.rows[i].window.zone].deleted
    ensures Step(env, s, LoadZone(i)) == Some(WithStage(s, i, HasZone(s.attempts[i].quota)))
  {
  }

  lemma CheckQuotaStep(env: Env, s: System, i: nat)
    requires At(s, i) && s.attempts[i].HasZone?
    requires s.attempts[i].quota == -1 || Usage(s.rows, s.rows[i].window.customer, MonthBegin(s.now)) < s.attempts[i].quota
    ensures Step(env, s, CheckQuota(i)) == Some(WithStage(s, i, Admitted))
  {
    hide Usage, MonthBegin;
  }

  lemma LinkIs(env: Env, s: System, i: nat, raw: Bytes, answered: bool)
    requires At(s, i) && s.attempts[i] == Admitted && (s.rows[i].kind == Security || raw != "")
    ensures var parent := if answered then LastDone(s.rows, s.rows[i].window.zone) else None;
            var chain := Worm.ChainHash(env.codec.sha, ParentHash(s.rows, parent), env.codec.sha(raw), s.rows[i].id);
            Step(env, s, Link(i, raw, answered)) == Some(WithStage(s, i, Linked(raw, parent, chain)))
  {
    hide LastDone;
  }

  function AfterStore(a: Stage, meta: Metadata, ok: bool): Stage
    requires a.Linked?
  {
    if ok then Stored(a.raw, a.parent, a.chain, meta) else Refused
  }

  lemma StoreIs(env: Env, s: System, i: nat, faults: seq<Outcome>)
    requires At(s, i) && s.attempts[i].Linked? && |faults| == |s.stores|
    ensures var a, w, logType := s.attempts[i], s.rows[i].window, LogType(s.rows[i].kind);
            var meta := PrepareBlob(env.codec, a.raw, w, logType).1;
            Step(env, s, Store(i, faults)) ==
              Some(WithStage(Upload(env, s, w, a.raw, logType, faults), i, AfterStore(a, meta, Success in faults)))
  {
    hide PrepareBlob, PutAll;
  }

  lemma FinishIs(env: Env, s: System, i: nat, written: bool)
    requires At(s, i) && s.attempts[i].Stored?
    ensures Step(env, s, Finish(i, written)) == Some(Closing(s, i, written, DoneJob(s.rows[i], s.attempts[i], s.doneCount)))
  {
  }

  // The task's own pending row changes neither the checks nor the link.
  lemma BlankRowUnseen(env: Env, s: System, t: System, job: Job, w: Window, x: Replies)
    requires t == s.(rows := t.rows, attempts := t.attempts) && t.rows == s.rows + [job] && job.status == Pending
    ensures Passes(t, w, x) == Passes(s, w, x)
    ensures forall v: Verdict :: LastWrite(env, t, job, x, v) == LastWrite(env, s, job, x, v)
  {
    hide PrepareBlob, MonthBegin, Worm.ChainHash;
    if w.customer in s.customers {
      Quota.UsageAppend(s.rows, job, w.customer, MonthBegin(s.now));
    }
    assert t.rows[..|s.rows|] == s.rows;
    assert LastDone(t.rows, job.window.zone) == LastDone(s.rows, job.window.zone);
  }

  // One row has been added, which is in this state now.
  predicate Ends(before: seq<Job>, after: seq<Job>, status: Status) {
    |after| == |before| + 1 && after[..|before|] == before && after[|before|].status == status
  }

  // What the verdict means for the row, the stores and the task's reply.
  lemma RepliesDecide(env: Env, s: System, kind: Kind, id: Uuid, w: Window, x: Replies, t: System)
    requires |x.faults| == |s.stores|
    requires var v := Judge(env, s, kind, id, w, x);
             && (v == NotCreated ==> t == s)
             && (v != NotCreated ==>
                   var blank := BlankJob(id, kind, w, s.now);
                   t.rows == s.rows + [if x.updated then LastWrite(env, s, blank, x, v) else blank])
             && (!ReachesStores(v) ==> t.stores == s.stores)
             && (ReachesStores(v) ==> x.fetch.Got? && t.stores == Upload(env, s, w, x.fetch.raw, LogType(kind), x.faults).stores)
    ensures var v, ok := Judge(env, s, kind, id, w, x), NoRetry(kind, Passes(s, w, x), x, Judge(env, s, kind, id, w, x));
            var created := CreateStep(env, s, kind, id, w).Some? && x.insert == Success;
            var fetching := created && Passes(s, w, x) && x.decrypted && x.waited;
            var stored := x.fetch == Empty || (x.fetch.Got? && (Success in x.faults || (kind == Pull && x.fetch.raw == "")));
            && (ok <==> fetching && ((stored && x.updated) || (kind == Pull && x.fetch == Forbidden)))
            && (Ends(s.rows, t.rows, Done) <==> fetching && stored && x.updated)
            && (Ends(s.rows, t.rows, Failed) <==>
                  && created && x.updated
                  && (|| !Passes(s, w, x) || !x.decrypted || (kind == Security && !x.waited)
                      || (x.waited && !stored && !(kind == Pull && x.fetch == Limited))))
            && t.stores == if fetching && x.fetch.Got? && !(kind == Pull && x.fetch.raw == "")
                           then Upload(env, s, w, x.fetch.raw, LogType(kind), x.faults).stores else s.stores
    ensures Ends(s.rows, t.rows, Pending) <==>
            && CreateStep(env, s, kind, id, w).Some? && x.insert != Failure
            && (|| x.insert == LostReply || !x.updated
                || (Passes(s, w, x) && x.decrypted && kind == Pull && (!x.waited || x.fetch == Limited)))
  {
    hide CreateStep, Passes, PrepareBlob, PutAll, LastDone, Worm.ChainHash, Upload;
  }

  class Service {
    const env: Env
    var now: Time
    var customers: map<Uuid, Customer>
    var zones: map<Uuid, Zone>
    var rows: seq<Job>
    var attempts: seq<Stage>
    var stores: seq<Objects>
    var expirers: seq<Sweep>
    var erasers: seq<Sweep>
    var doneCount: nat
    var puts: seq<Put>

    function View(): System
      reads this
    {
      System(now, customers, zones, rows, attempts, stores, expirers, erasers, doneCount, puts)
    }

    constructor (env: Env, s: System)
      ensures this.env == env && View() == s
    {
      this.env := env;
      now, customers, zones, rows, attempts := s.now, s.customers, s.zones, s.rows, s.attempts;
      stores, expirers, erasers, doneCount, puts := s.stores, s.expirers, s.erasers, s.doneCount, s.puts;
    }

    // The state reached is one protocol step after the state at.
    ghost method Extend(start: System, at: System, es: seq<Event>, e: Event) returns (fs: seq<Event>)
      requires Inv(env, at) && Runs(env, start, es, at) && Step(env, at, e) == Some(View())
      ensures Inv(env, View()) && Runs(env, start, fs, View())
    {
      hide Step, Inv;
      Lifecycle.StepKeeps(env, at, e, View());
      Append(env, start, es, at, e, View());
      fs := es + [e];
    }

    method Advance(i: nat, stage: Stage, e: Event, ghost start: System, ghost before: seq<Event>) returns (ghost es: seq<Event>)
      requires Inv(env, View()) && Runs(env, start, before, View())
      requires At(View(), i) && Step(env, View(), e) == Some(WithStage(View(), i, stage))
      modifies this`attempts
      ensures Inv(env, View()) && Runs(env, start, es, View())
      ensures attempts == old(attempts)[i := stage]
    {
      hide Step, Inv, Runs;
      ghost var at := View();
      attempts := attempts[i := stage];
      es := Extend(start, at, before, e);
    }

    // The update of the job's row, which the table may not receive.
    method Update(i: nat, job: Job, written: bool, e: Event, ghost start: System, ghost before: seq<Event>)
      returns (ghost es: seq<Event>)
      requires Inv(env, View()) && Runs(env, start, before, View())
      requires At(View(), i) && Step(env, View(), e) == Some(Closing(View(), i, written, job))
      modifies this`attempts, this`rows, this`doneCount
      ensures Inv(env, View()) && Runs(env, start, es, View())
      ensures View() == Closing(old(View()), i, written, job)
    {
      hide Step, Inv, Runs;
      ghost var at := View();
      attempts := attempts[i := Over];
      if written {
        rows := rows[i := job];
        doneCount := doneCount + if job.status == Done then 1 else 0;
      }
      es := Extend(start, at, before, e);
    }

    method FailJob(i: nat, j: Job, updated: bool, ghost start: System, ghost before: seq<Event>) returns (ghost es: seq<Event>)
      requires Inv(env, View()) && Runs(env, start, before, View())
      requires At(View(), i) && rows[i] == j && !attempts[i].Over? && !attempts[i].Stored?
      modifies this`attempts, this`rows, this`doneCount
      ensures Inv(env, View()) && Runs(env, start, es, View())
      ensures View() == Closing(old(View()), i, updated, j.(status := Failed, attempts := j.attempts + 1))
    {
      hide Inv, Runs;
      var job := j;
      job := job.(attempts := job.attempts + 1);
      job := job.(status := Failed);
      es := Update(i, job, updated, Fail(i, updated), start, before);
    }

    // The task returns without touching its row again.
    method GiveUp(i: nat, ghost start: System, ghost before: seq<Event>) returns (ghost es: seq<Event>)
      requires Inv(env, View()) && Runs(env, start, before, View()) && At(View(), i) && !attempts[i].Over?
      modifies this`attempts
      ensures Inv(env, View()) && Runs(env, start, es, View()) && attempts == old(attempts)[i := Over]
    {
      hide Inv, Runs;
      es := Advance(i, Over, Abandon(i), start, before);
    }

    // An empty window is done without an object and without a chain hash.
    method FinishNothing(i: nat, j: Job, updated: bool, ghost start: System, ghost before: seq<Event>) returns (ghost es: seq<Event>)
      requires Inv(env, View()) && Runs(env, start, before, View())
      requires At(View(), i) && rows[i] == j && attempts[i] == Admitted
      modifies this`attempts, this`rows, this`doneCount
      ensures Inv(env, View()) && Runs(env, start, es, View())
      ensures View() == Closing(old(View()), i, updated, j.(status := Done, doneAt := old(doneCount)))
    {
      hide Inv, Runs;
      var job := j;
      job := job.(status := Done, doneAt := doneCount);
      es := Update(i, job, updated, FinishEmpty(i, updated), start, before);
    }

    method LoadOwners(i: nat, x: Replies, ghost start: System, ghost before: seq<Event>) returns (ok: bool, ghost es: seq<Event>)
      requires Inv(env, View()) && Runs(env, start, before, View())
      requires At(View(), i) && attempts[i] == Created
      modifies this`attempts
      ensures Inv(env, View()) && Runs(env, start, es, View()) && attempts == old(attempts)[i := attempts[i]]
      ensures ok <==> CustomerLoads(old(View()), rows[i].window, x) && ZoneLoads(old(View()), rows[i].window, x)
      ensures ok ==> attempts[i] == HasZone(customers[rows[i].window.customer].quota)
      ensures !attempts[i].Over? && !attempts[i].Stored?
    {
      hide Inv, Runs, Step;
      es := before;
      var w := rows[i].window;
      if !x.customer || w.customer !in customers || customers[w.customer].deleted {
        return false, es;
      }
      var quota := customers[w.customer].quota;
      LoadCustomerStep(env, View(), i);
      es := Advance(i, HasCustomer(quota), LoadCustomer(i), start, es);
      if !x.zone || w.zone !in zones || zones[w.zone].deleted {
        return false, es;
      }
      LoadZoneStep(env, View(), i);
      es := Advance(i, HasZone(quota), LoadZone(i), start, es);
      ok := true;
    }

    // Loads the customer and the zone and checks the quota.
    method PassChecks(i: nat, x: Replies, ghost start: System, ghost before: seq<Event>) returns (ok: bool, ghost es: seq<Event>)
      requires Inv(env, View()) && Runs(env, start, before, View())
      requires At(View(), i) && attempts[i] == Created
      modifies this`attempts
      ensures Inv(env, View()) && Runs(env, start, es, View()) && attempts == old(attempts)[i := attempts[i]]
      ensures ok == Passes(old(View()), rows[i].window, x)
      ensures !attempts[i].Over? && !attempts[i].Stored? && (ok ==> attempts[i] == Admitted)
      ensures var w := rows[i].window;
              ok <==> && x.customer && w.customer in customers && !customers[w.customer].deleted
                      && x.zone && w.zone in zones && !zones[w.zone].deleted
                      && (customers[w.customer].quota == -1 ||
                          (x.usage && Usage(rows, w.customer, MonthBegin(now)) < customers[w.customer].quota))
    {
      hide Inv, Runs, Step, Usage, MonthBegin;
      ok, es := LoadOwners(i, x, start, before);
      if !ok {
        return;
      }
      var quota := attempts[i].quota;
      if quota != -1 {
        if !x.usage {
          return false, es;
        }
        var usage := Usage(rows, rows[i].window.customer, MonthBegin(now));
        if usage >= quota {
          return false, es;
        }
      }
      CheckQuotaStep(env, View(), i);
      es := Advance(i, Admitted, CheckQuota(i), start, es);
    }

    // Links the bytes to the newest done job of the zone.
    method LinkLogs(i: nat, raw: Bytes, answered: bool, ghost start: System, ghost before: seq<Event>)
      returns (parent: Option<nat>, chain: string, ghost es: seq<Event>)
      requires Inv(env, View()) && Runs(env, start, before, View())
      requires At(View(), i) && attempts[i] == Admitted && (rows[i].kind == Security || raw != "")
      modifies this`attempts
      ensures Inv(env, View()) && Runs(env, start, es, View())
      ensures attempts == old(attempts)[i := Linked(raw, parent, chain)]
      ensures parent == if answered then LastDone(rows, rows[i].window.zone) else None
      ensures chain == Worm.ChainHash(env.codec.sha, ParentHash(rows, parent), env.codec.sha(raw), rows[i].id)
    {
      hide Inv, Runs, Step, PrepareBlob, LastDone, Worm.ChainHash;
      var hash := env.codec.sha(raw);
      parent := if answered then LastDone(rows, rows[i].window.zone) else None;
      var prevChainHash := Worm.GENESIS;
      if parent.Some? {
        prevChainHash := rows[parent.value].chain;
      }
      chain := Worm.ChainHash(env.codec.sha, prevChainHash, hash, rows[i].id);
      LinkIs(env, View(), i, raw, answered);
      es := Advance(i, Linked(raw, parent, chain), Link(i, raw, answered), start, before);
    }

    method UploadLogs(i: nat, faults: seq<Outcome>, ghost start: System, ghost before: seq<Event>)
      returns (stage: Stage, ghost es: seq<Event>)
      requires Inv(env, View()) && Runs(env, start, before, View())
      requires At(View(), i) && attempts[i].Linked? && |faults| == |stores|
      modifies this`attempts, this`stores, this`puts
      ensures Inv(env, View()) && Runs(env, start, es, View())
      ensures attempts == old(attempts)[i := stage]
      ensures var a := old(attempts[i]);
              var (blob, meta) := PrepareBlob(env.codec, a.raw, rows[i].window, LogType(rows[i].kind));
              && stage == AfterStore(a, meta, Success in faults)
              && stores == PutAll(old(stores), faults, meta.key, blob)
    {
      hide Inv, Runs, Step, PrepareBlob;
      StoreIs(env, View(), i, faults);
      ghost var at := View();
      var raw := attempts[i].raw;
      var (blob, meta) := PrepareBlob(env.codec, raw, rows[i].window, LogType(rows[i].kind));
      stores := PutAll(stores, faults, meta.key, blob);
      puts := puts + [Put(meta.key, raw)];
      stage := AfterStore(attempts[i], meta, Success in faults);
      attempts := attempts[i := stage];
      es := Extend(start, at, before, Store(i, faults));
    }

    // The job row of a new task.
    method CreateJob(kind: Kind, id: Uuid, w: Window) returns (i: nat, ghost es: seq<Event>)
      requires Inv(env, View()) && CreateStep(env, View(), kind, id, w).Some?
      modifies this`attempts, this`rows
      ensures Inv(env, View()) && Runs(env, old(View()), es, View())
      ensures i == |old(rows)| == |old(attempts)| && rows == old(rows) + [BlankJob(id, kind, w, now)]
      ensures attempts == old(attempts) + [Created]
    {
      hide Inv, Runs;
      ghost var at := View();
      RunsNothing(env, at);
      SameLength(env, at);
      i := |rows|;
      rows := rows + [BlankJob(id, kind, w, now)];
      attempts := attempts + [Created];
      es := Extend(at, at, [], Create(kind, id, w));
    }

    // Fills in the job from the upload and writes it.
    method FinishArchive(i: nat, j: Job, updated: bool, ghost start: System, ghost before: seq<Event>) returns (ghost es: seq<Event>)
      requires Inv(env, View()) && Runs(env, start, before, View())
      requires At(View(), i) && rows[i] == j && attempts[i].Stored?
      modifies this`attempts, this`rows, this`doneCount
      ensures Inv(env, View()) && Runs(env, start, es, View())
      ensures View() == Closing(old(View()), i, updated, DoneJob(j, old(attempts[i]), old(doneCount)))
    {
      hide Inv, Runs, Step;
      var job, stage := j, attempts[i];
      job := job.(status := Done, raw := stage.raw, parent := stage.parent, doneAt := doneCount);
      job := job.(key := stage.meta.key);
      job := job.(sha256 := stage.meta.sha256);
      job := job.(chain := stage.chain);
      job := job.(bytes := stage.meta.size);
      FinishIs(env, View(), i, updated);
      es := Update(i, job, updated, Finish(i, updated), start, before);
    }

    // From the fetched bytes to the last write of the job.
    method ArchiveLogs(i: nat, j: Job, raw: Bytes, x: Replies, ghost start: System, ghost before: seq<Event>)
      returns (v: Verdict, ghost es: seq<Event>)
      requires Inv(env, View()) && Runs(env, start, before, View()) && x.fetch == Got(raw) && |x.faults| == |stores|
      requires At(View(), i) && rows[i] == j && attempts[i] == Admitted && (j.kind == Security || raw != "")
      modifies this`attempts, this`rows, this`doneCount, this`stores, this`puts
      ensures Inv(env, View()) && Runs(env, start, es, View())
      ensures v == if Success in x.faults then Archived else UploadFailed
      ensures attempts == old(attempts)[i := Over]
      ensures rows == if x.updated then old(rows)[i := LastWrite(env, old(View()), j, x, v)] else old(rows)
      ensures var (blob, meta) := PrepareBlob(env.codec, raw, j.window, LogType(j.kind));
              stores == PutAll(old(stores), x.faults, meta.key, blob)
    {
      hide Inv, Runs, Step, PrepareBlob, LastDone, Worm.ChainHash, PutAll, LastWrite;
      LastWrites(env, View(), j, x, raw);
      var parent, chain;
      parent, chain, es := LinkLogs(i, raw, x.lastJob, start, before);
      var stage;
      stage, es := UploadLogs(i, x.faults, start, es);
      if stage == Refused {
        v := UploadFailed;
        es := FailJob(i, j, x.updated, start, es);
        return;
      }
      v := Archived;
      es := FinishArchive(i, j, x.updated, start, es);
    }

    // Everything after the checks.
    method AfterChecks(i: nat, j: Job, passed: bool, x: Replies, ghost start: System, ghost before: seq<Event>)
      returns (ok: bool, v: Verdict, ghost es: seq<Event>)
      requires Inv(env, View()) && Runs(env, start, before, View()) && |x.faults| == |stores|
      requires At(View(), i) && rows[i] == j && !attempts[i].Over? && !attempts[i].Stored? && (passed ==> attempts[i] == Admitted)
      modifies this`attempts, this`rows, this`doneCount, this`stores, this`puts
      ensures Inv(env, View()) && Runs(env, start, es, View())
      ensures v == Ending(j.kind, passed, x) && ok == NoRetry(j.kind, passed, x, v)
      ensures rows == if x.updated then old(rows)[i := LastWrite(env, old(View()), j, x, v)] else old(rows)
      ensures !ReachesStores(v) ==> stores == old(stores)
      ensures ReachesStores(v) ==> x.fetch.Got?
      ensures ReachesStores(v) ==> stores == Upload(env, old(View()), j.window, x.fetch.raw, LogType(j.kind), x.faults).stores
    {
      hide Inv, Runs, Step, PrepareBlob, LastDone, PutAll, Worm.ChainHash, ParentHash;
      var job := j;
      if passed && Stopped(j.kind, x) {
        ok, v := false, LeftPending;
        es := GiveUp(i, start, before);
      } else if !passed || !x.decrypted || !x.waited || (!NoLogs(j.kind, x.fetch) && !x.fetch.Got?) {
        ok, v := j.kind == Pull && passed && x.decrypted && x.waited && x.fetch == Forbidden, FailedJob;
        es := FailJob(i, job, x.updated, start, before);
      } else if NoLogs(j.kind, x.fetch) {
        ok, v := x.updated, EmptyWindow;
        es := FinishNothing(i, job, x.updated, start, before);
      } else {
        v, es := ArchiveLogs(i, job, x.fetch.raw, x, start, before);
        ok := v == Archived && x.updated;
      }
    }

    // Everything after the job row exists.
    method RunJob(i: nat, j: Job, x: Replies, ghost start: System, ghost before: seq<Event>)
      returns (ok: bool, v: Verdict, ghost es: seq<Event>)
      requires Inv(env, View()) && Runs(env, start, before, View()) && |x.faults| == |stores|
      requires At(View(), i) && rows[i] == j && attempts[i] == Created
      modifies this`attempts, this`rows, this`doneCount, this`stores, this`puts
      ensures Inv(env, View()) && Runs(env, start, es, View())
      ensures v == Ending(j.kind, Passes(old(View()), j.window, x), x)
      ensures ok == NoRetry(j.kind, Passes(old(View()), j.window, x), x, v)
      ensures rows == if x.updated then old(rows)[i := LastWrite(env, old(View()), j, x, v)] else old(rows)
      ensures !ReachesStores(v) ==> stores == old(stores)
      ensures ReachesStores(v) ==> x.fetch.Got?
      ensures ReachesStores(v) ==> stores == Upload(env, old(View()), j.window, x.fetch.raw, LogType(j.kind), x.faults).stores
    {
      hide Inv, Runs, Step, PrepareBlob, LastDone, PutAll, Passes, Worm.ChainHash, Usage, MonthBegin, ParentHash, Ending, NoRetry;
      var passed;
      passed, es := PassChecks(i, x, start, before);
      ok, v, es := AfterChecks(i, j, passed, x, start, es);
    }

    // The task's calls in order.
    method RunTask(kind: Kind, id: Uuid, w: Window, x: Replies) returns (ok: bool, v: Verdict, ghost es: seq<Event>)
      requires Inv(env, View()) && |x.faults| == |stores|
      modifies this`attempts, this`rows, this`doneCount, this`stores, this`puts
      ensures Inv(env, View()) && Runs(env, old(View()), es, View())
      ensures v == Judge(env, old(View()), kind, id, w, x) && ok == NoRetry(kind, Passes(old(View()), w, x), x, v)
      ensures v == NotCreated ==> View() == old(View())
      ensures v != NotCreated ==>
                var blank := BlankJob(id, kind, w, now);
                rows == old(rows) + [if x.updated then LastWrite(env, old(View()), blank, x, v) else blank]
      ensures !ReachesStores(v) ==> stores == old(stores)
      ensures ReachesStores(v) ==> x.fetch.Got?
      ensures ReachesStores(v) ==> stores == Upload(env, old(View()), w, x.fetch.raw, LogType(kind), x.faults).stores
    {
      hide Inv, Runs, Step, CreateStep, PrepareBlob, LastDone, PutAll, Passes, Worm.ChainHash;
      ghost var start := View();
      RunsNothing(env, start);
      if CreateStep(env, View(), kind, id, w).None? || x.insert == Failure {
        return false, NotCreated, [];
      }
      var i;
      i, es := CreateJob(kind, id, w);
      if x.insert == LostReply {
        es := GiveUp(i, start, es);
        return false, LeftPending, es;
      }
      BlankRowUnseen(env, start, View(), rows[i], w, x);
      ok, v, es := RunJob(i, rows[i], x, start, es);
    }

    /** One pull task from beginning to end is a run of the protocol that adds one row. The
        row ends done, failed or pending, the stores change, and the task reports success
        exactly for these replies. The row is what the task last wrote, or blank if that write
        was lost. */
    method ProcessTask(kind: Kind, id: Uuid, w: Window, x: Replies) returns (ok: bool, v: Verdict, ghost es: seq<Event>)
      requires Inv(env, View()) && |x.faults| == |stores|
      modifies this`attempts, this`rows, this`doneCount, this`stores, this`puts
      ensures Inv(env, View()) && Runs(env, old(View()), es, View())
      ensures var created := CreateStep(env, old(View()), kind, id, w).Some? && x.insert == Success;
              var fetching := created && Passes(old(View()), w, x) && x.decrypted && x.waited;
              var stored := x.fetch == Empty || (x.fetch.Got? && (Success in x.faults || (kind == Pull && x.fetch.raw == "")));
              && (ok <==> fetching && ((stored && x.updated) || (kind == Pull && x.fetch == Forbidden)))
              && (Ends(old(rows), rows, Done) <==> fetching && stored && x.updated)
              && (Ends(old(rows), rows, Failed) <==>
                    && created && x.updated
                    && (|| !Passes(old(View()), w, x) || !x.decrypted || (kind == Security && !x.waited)
                        || (x.waited && !stored && !(kind == Pull && x.fetch == Limited))))
              && stores == if fetching && x.fetch.Got? && !(kind == Pull && x.fetch.raw == "")
                           then Upload(env, old(View()), w, x.fetch.raw, LogType(kind), x.faults).stores else old(stores)
      ensures Ends(old(rows), rows, Pending) <==>
              && CreateStep(env, old(View()), kind, id, w).Some? && x.insert != Failure
              && (|| x.insert == LostReply || !x.updated
                  || (Passes(old(View()), w, x) && x.decrypted && kind == Pull && (!x.waited || x.fetch == Limited)))
      ensures v == Judge(env, old(View()), kind, id, w, x) && ok == NoRetry(kind, Passes(old(View()), w, x), x, v)
      ensures v == NotCreated ==> View() == old(View())
      ensures v != NotCreated ==>
                var blank := BlankJob(id, kind, w, now);
                rows == old(rows) + [if x.updated then LastWrite(env, old(View()), blank, x, v) else blank]
      ensures !ReachesStores(v) ==> stores == old(stores)
      ensures ReachesStores(v) ==> x.fetch.Got?
      ensures ReachesStores(v) ==> stores == Upload(env, old(View()), w, x.fetch.raw, LogType(kind), x.faults).stores
    {
      hide Inv, Runs, CreateStep, PrepareBlob, LastDone, PutAll, Passes, Judge, NoRetry, LastWrite;
      ghost var start := View();
      ok, v, es := RunTask(kind, id, w, x);
      RepliesDecide(env, start, kind, id, w, x, View());
    }

    // ── Retention ──────────────────────────────────────────────────────────────────────

    method MarkOne(w: nat, marked: bool, ghost start: System, ghost before: seq<Event>) returns (ghost es: seq<Event>)
      requires Inv(env, View()) && Runs(env, start, before, View())
      requires w < |expirers| && expirers[w].todo != [] && expirers[w].handled && expirers[w].todo[0].0 < |rows|
      modifies this`rows, this`expirers
      ensures Inv(env, View()) && Runs(env, start, es, View())
      ensures expirers == old(expirers)[w := Next(old(expirers[w]))]
      ensures var i := old(expirers[w]).todo[0].0;
              rows == if marked then old(rows)[i := old(rows)[i].(status := Expired)] else old(rows)
    {
      hide Inv, Runs, Step;
      var i := expirers[w].todo[0].0;
      ExpireMarkIs(env, View(), w, marked);
      ghost var at := View();
      if marked {
        rows := rows[i := rows[i].(status := Expired)];
      }
      expirers := expirers[w := Next(expirers[w])];
      es := Extend(start, at, before, ExpireMark(w, marked));
    }

    // One listed job of a retention sweep: the object first, then the row.
    method ExpireOne(w: nat, a: Answer, ghost start: System, ghost before: seq<Event>) returns (ghost es: seq<Event>)
      requires Inv(env, View()) && Runs(env, start, before, View()) && |a.faults| == |stores|
      requires w < |expirers| && expirers[w].todo != [] && !expirers[w].handled
      modifies this`rows, this`stores, this`expirers
      ensures Inv(env, View()) && Runs(env, start, es, View())
      ensures expirers == old(expirers)[w := Next(old(expirers[w]))]
      ensures var (i, key) := old(expirers[w]).todo[0];
              && i < |old(rows)|
              && rows == (if Handled(key, a) && a.marked then old(rows)[i := old(rows)[i].(status := Expired)] else old(rows))
              && stores == if key == "" then old(stores) else DeleteAll(old(stores), a.faults, key)
    {
      hide Inv, Runs, Step, DeleteAll;
      var (i, key) := expirers[w].todo[0];
      HeadInRange(env, View(), w);
      ExpireDeleteIs(env, View(), w, a.faults);
      ghost var at := View();
      if key != "" {
        stores := DeleteAll(stores, a.faults, key);
        if !DeleteOk(a.faults) {
          expirers := expirers[w := Next(expirers[w])];
          es := Extend(start, at, before, ExpireDelete(w, a.faults));
          return;
        }
      }
      expirers := expirers[w := expirers[w].(handled := true)];
      es := Extend(start, at, before, ExpireDelete(w, a.faults));
      es := MarkOne(w, a.marked, start, es);
    }

    function Cutoff(c: Uuid): int
      requires c in customers
      reads this`now, this`customers
    {
      now - customers[c].retentionDays * DAY
    }

    // Reads the list of a retention sweep.
    method ListExpired(c: Uuid) returns (jobs: seq<(nat, string)>, ghost es: seq<Event>)
      requires Inv(env, View()) && c in customers
      modifies this`expirers
      ensures Inv(env, View()) && Runs(env, old(View()), es, View())
      ensures jobs == DueRows(rows, c, Cutoff(c)) && expirers == old(expirers) + [Sweep(c, Cutoff(c), jobs, false)]
    {
      hide Inv, Runs, DueRows;
      ghost var at := View();
      RunsNothing(env, at);
      jobs := DueRows(rows, c, Cutoff(c));
      expirers := expirers + [Sweep(c, Cutoff(c), jobs, false)];
      es := Extend(at, at, [], ExpireList(c));
    }

    /** One retention task: exactly the listed jobs whose object some provider deleted, or
        that name none, and whose update was written become expired; nothing else in the
        table changes; and an object stays exactly where every delete of its key failed. */
    method ExpireTask(c: Uuid, listed: bool, answers: seq<Answer>) returns (ok: bool, ghost es: seq<Event>)
      requires Inv(env, View()) && c in customers && |answers| == |DueRows(rows, c, Cutoff(c))|
      requires forall a :: a in answers ==> |a.faults| == |stores|
      modifies this`rows, this`stores, this`expirers
      ensures Inv(env, View()) && Runs(env, old(View()), es, View())
      ensures ok == listed && (!listed ==> View() == old(View()))
      ensures listed ==> Swept(old(View()), View(), DueRows(old(rows), c, Cutoff(c)), answers)
    {
      hide Inv, Runs, DueRows, Swept, DeleteAll;
      ghost var start := View();
      ok := listed;
      if !listed {
        RunsNothing(env, start);
        return ok, [];
      }
      var w, jobs := |expirers|, [];
      jobs, es := ListExpired(c);
      DueRowsDistinct(rows, c, Cutoff(c));
      SweepStarts(start, View());
      for k := 0 to |jobs|
        invariant Inv(env, View()) && Runs(env, start, es, View())
        invariant expirers == old(expirers) + [Sweep(c, Cutoff(c), jobs[k..], false)]
        invariant Swept(start, View(), jobs[..k], answers[..k]) && |stores| == |old(stores)|
      {
        ghost var before := View();
        assert jobs[k..][0] == jobs[k] && jobs[k..][1..] == jobs[k + 1..] && jobs[..k + 1] == jobs[..k] + [jobs[k]];
        assert answers[..k + 1] == answers[..k] + [answers[k]];
        HeadInRange(env, View(), w);
        es := ExpireOne(w, answers[k], start, es);
        SweptNext(start, before, View(), jobs[..k], answers[..k], jobs[k], answers[k]);
      }
      assert jobs[..|jobs|] == jobs && answers[..|jobs|] == answers;
    }

    // ── Erasure ────────────────────────────────────────────────────────────────────────

    method ListForErasure(c: Uuid, listed: bool) returns (jobs: seq<(nat, string)>, ghost es: seq<Event>)
      requires Inv(env, View())
      modifies this`erasers
      ensures Inv(env, View()) && Runs(env, old(View()), es, View())
      ensures jobs == Listing(old(View()), c, listed) && erasers == old(erasers) + [Sweep(c, 0, jobs, false)]
    {
      hide Inv, Runs, NewestKeyed;
      ghost var at := View();
      RunsNothing(env, at);
      jobs := [];
      if listed {
        jobs := NewestKeyed(rows, c, ERASE_LIMIT);
      }
      erasers := erasers + [Sweep(c, 0, jobs, false)];
      es := Extend(at, at, [], EraseList(c, listed));
    }

    // One listed job of an erasure: the object, best effort, and then the row.
    method EraseOne(w: nat, a: Answer, ghost start: System, ghost before: seq<Event>) returns (ghost es: seq<Event>)
      requires Inv(env, View()) && Runs(env, start, before, View()) && |a.faults| == env.apiProviders <= |stores|
      requires w < |erasers| && erasers[w].todo != [] && !erasers[w].handled
      modifies this`rows, this`stores, this`erasers
      ensures Inv(env, View()) && Runs(env, start, es, View())
      ensures erasers == old(erasers)[w := Next(old(erasers[w]))]
      ensures var (i, key) := old(erasers[w]).todo[0];
              && i < |old(rows)|
              && rows == (if a.marked then old(rows)[i := old(rows)[i].(status := Expired)] else old(rows))
              && stores == DeletePrefix(old(stores), env.apiProviders, a.faults, key)
    {
      hide Inv, Runs, Step, DeletePrefix;
      var (i, key) := erasers[w].todo[0];
      HeadInRange(env, View(), w);
      EraseDeleteIs(env, View(), w, a.faults);
      ghost var at := View();
      stores := DeletePrefix(stores, env.apiProviders, a.faults, key);
      erasers := erasers[w := erasers[w].(handled := true)];
      es := Extend(start, at, before, EraseDelete(w, a.faults));

      EraseMarkIs(env, View(), w, a.marked);
      at := View();
      if a.marked {
        rows := rows[i := rows[i].(status := Expired)];
      }
      erasers := erasers[w := Next(erasers[w])];
      es := Extend(start, at, es, EraseMark(w, a.marked));
    }

    // One statement in the database; the protocol deletes its zones one after another.
    method DropZones(c: Uuid, ghost start: System, ghost before: seq<Event>) returns (ghost es: seq<Event>)
      requires Inv(env, View()) && Runs(env, start, before, View())
      modifies this`zones
      ensures Inv(env, View()) && Runs(env, start, es, View()) && zones.Keys == old(zones).Keys
      ensures forall z :: z in zones ==> zones[z] == if old(zones)[z].customer == c then old(zones)[z].(deleted := true) else old(zones)[z]
    {
      hide Inv, Runs;
      es := before;
      var todo := set z | z in zones && zones[z].customer == c;
      while todo != {}
        invariant Inv(env, View()) && Runs(env, start, es, View())
        invariant todo <= zones.Keys == old(zones).Keys
        invariant forall z :: z in zones ==>
                    zones[z] == if old(zones)[z].customer == c && z !in todo then old(zones)[z].(deleted := true) else old(zones)[z]
        decreases todo
      {
        var z :| z in todo;
        ghost var at := View();
        zones := zones[z := zones[z].(deleted := true)];
        es := Extend(start, at, es, DropZone(z));
        todo := todo - {z};
      }
    }

    // Goes through the listed jobs.
    method EraseObjects(c: Uuid, listed: bool, answers: seq<Answer>) returns (w: nat, ghost es: seq<Event>)
      requires Inv(env, View()) && env.apiProviders <= |stores|
      requires |answers| == |Listing(View(), c, listed)| && forall a :: a in answers ==> |a.faults| == env.apiProviders
      modifies this`rows, this`stores, this`erasers
      ensures Inv(env, View()) && Runs(env, old(View()), es, View())
      ensures SweptForErasure(env, old(View()), View(), Listing(old(View()), c, listed), answers)
      ensures w < |erasers| && erasers[w].todo == [] && erasers[w].customer == c
    {
      hide Inv, Runs, Step, NewestKeyed, SweptForErasure, DeletePrefix;
      ghost var start := View();
      var jobs;
      w := |erasers|;
      jobs, es := ListForErasure(c, listed);
      ListingIs(start, c, listed);
      EraseStarts(env, start, View());
      for k := 0 to |jobs|
        invariant Inv(env, View()) && Runs(env, start, es, View())
        invariant erasers == old(erasers) + [Sweep(c, 0, jobs[k..], false)]
        invariant SweptForErasure(env, start, View(), jobs[..k], answers[..k]) && |stores| == |old(stores)|
      {
        ghost var before := View();
        assert jobs[k..][0] == jobs[k] && jobs[k..][1..] == jobs[k + 1..] && jobs[..k + 1] == jobs[..k] + [jobs[k]];
        assert answers[..k + 1] == answers[..k] + [answers[k]];
        assert jobs[k] in jobs;
        es := EraseOne(w, answers[k], start, es);
        ErasedNext(env, start, before, View(), jobs[..k], answers[..k], jobs[k], answers[k]);
      }
      assert jobs[..|jobs|] == jobs && answers[..|jobs|] == answers;
    }

    /** One erasure request: every listed job whose update was written is expired even if no
        provider deleted its object; an object stays exactly where the API does not know the
        provider or every delete of its key failed; the request succeeds exactly when the
        customer was soft-deleted; and nothing of the customer is left exactly when each of
        its objects is listed and deleted wherever it lies. */
    method DeleteCustomer(c: Uuid, listed: bool, answers: seq<Answer>, zonesWritten: bool, customerWritten: bool)
      returns (status: nat, ghost es: seq<Event>)
      requires Inv(env, View()) && c in customers && env.apiProviders <= |stores|
      requires |answers| == |Listing(View(), c, listed)| && forall a :: a in answers ==> |a.faults| == env.apiProviders
      modifies this`rows, this`stores, this`erasers, this`zones, this`customers
      ensures Inv(env, View()) && Runs(env, old(View()), es, View())
      ensures SweptForErasure(env, old(View()), View(), Listing(old(View()), c, listed), answers)
      ensures zones.Keys == old(zones).Keys
      ensures forall z :: z in zones ==>
                zones[z] == if zonesWritten && old(zones)[z].customer == c then old(zones)[z].(deleted := true) else old(zones)[z]
      ensures customers == if customerWritten then old(customers)[c := old(customers)[c].(deleted := true)] else old(customers)
      ensures status == if customerWritten then 204 else 500
      ensures !listed ==> rows == old(rows) && stores == old(stores)
      ensures NothingLeft(stores, c) <==> AllDeleted(env, old(stores), c, Listing(old(View()), c, listed), answers)
    {
      hide Inv, Runs, Step, NewestKeyed, SweptForErasure, NothingLeft, AllDeleted;
      ghost var start := View();
      ghost var jobs := Listing(start, c, listed);
      var w;
      w, es := EraseObjects(c, listed, answers);
      ghost var swept := View();
      if zonesWritten {
        es := DropZones(c, start, es);
      }
      status := 500;
      if customerWritten {
        status := 204;
        EraseCustomerIs(env, View(), w);
        ghost var at := View();
        customers := customers[c := customers[c].(deleted := true)];
        es := Extend(start, at, es, EraseCustomer(w, false));
      }
      ErasedSame(env, start, swept, View(), jobs, answers);
      if !listed {
        NothingSwept(env, start, View());
      }
      ErasesAllExactlyWhen(env, start, View(), c, jobs, answers);
    }

    // ── Verification ───────────────────────────────────────────────────────────────────

    /** The verify task of row i: it succeeds exactly when the object can be downloaded and
        the hash of its decompressed bytes is the stored hash; only then is the row stamped,
        unless the stamp is lost, and nothing else changes. */
    method VerifyTask(i: nat, faults: seq<Outcome>, stamped: bool) returns (ok: bool, ghost es: seq<Event>)
      requires Inv(env, View()) && |faults| == |stores|
      modifies this`rows
      ensures Inv(env, View()) && Runs(env, old(View()), es, View())
      ensures ok <==> && i < |rows| && old(rows)[i].key != "" && old(rows)[i].sha256 != ""
                      && var data := GetFirst(env.codec, stores, faults, old(rows)[i].key);
                         data.Some? && env.codec.sha(data.value) == old(rows)[i].sha256
      ensures rows == if ok && stamped then old(rows)[i := old(rows)[i].(verified := true)] else old(rows)
    {
      hide Inv, Runs, GetFirst;
      ghost var at := View();
      RunsNothing(env, at);
      ok, es := false, [];
      if i >= |rows| {
        return;
      }
      var job := rows[i];
      if job.key == "" || job.sha256 == "" {
        return;
      }
      var data := GetFirst(env.codec, stores, faults, job.key);
      if data.None? {
        return;
      }
      var hash := env.codec.sha(data.value);
      if hash != job.sha256 {
        return;
      }
      ok := true;
      if stamped {
        rows := rows[i := job.(verified := true)];
        es := Extend(at, at, [], Verify(i, faults));
      }
    }
  }

  // ── What an erasure misses ─────────────────────────────────────────────────────────

  // One customer without a quota, one of its zones, and empty providers.
  function EmptyStart(now: Time, c: Uuid, z: Uuid, stores: seq<Objects>): System {
    System(now, map[c := Customer(-1, 395, false)], map[z := Zone(c, false)], [], [], stores, [], [], 0, [])
  }

  function AllAnswer(raw: Bytes, faults: seq<Outcome>, updated: bool): Replies {
    Replies(Success, true, true, true, true, true, Got(raw), true, faults, updated)
  }

  lemma WillUpload(env: Env, now: Time, id: Uuid, w: Window, raw: Bytes, stores: seq<Objects>, faults: seq<Outcome>, updated: bool)
    requires env.concurrency == 1 && Printable(w) && raw != ""
    ensures Judge(env, EmptyStart(now, w.customer, w.zone, stores), Pull, id, w, AllAnswer(raw, faults, updated)) ==
            if Success in faults then Archived else UploadFailed
  {
    hide Printable;
  }

  lemma ListsOne(j: Job, c: Uuid)
    requires j.window.customer == c && j.key != ""
    ensures NewestKeyed([j], c, ERASE_LIMIT) == [(0, j.key)]
  {
    assert [j][..0] == [];
    assert NewestKeyed([], c, ERASE_LIMIT - 1) == [];
  }

  lemma ListsNone(j: Job, c: Uuid)
    requires j.key == ""
    ensures NewestKeyed([j], c, ERASE_LIMIT) == []
  {
    assert [j][..0] == [];
    assert NewestKeyed([], c, ERASE_LIMIT - 1) == NewestKeyed([], c, ERASE_LIMIT) == [];
  }

  lemma MarkedOne(env: Env, s: System, t: System, key: string)
    requires env.apiProviders == 1 && |s.rows| == 1 && |s.stores| == 2
    requires SweptForErasure(env, s, t, [(0, key)], [Answer([Success], true)])
    ensures t.rows == [s.rows[0].(status := Expired)]
    ensures |t.stores| == 2 && (key in s.stores[1] ==> key in t.stores[1])
  {
    assert [(0, key)][0].0 == 0 && Marks([Answer([Success], true)]) == [true];
    assert t.rows[0] == s.rows[0].(status := Expired);
  }

  lemma MarkedNone(env: Env, s: System, t: System)
    requires SweptForErasure(env, s, t, [], [])
    ensures |t.stores| == |s.stores| && forall p, key :: 0 <= p < |s.stores| && key in s.stores[p] ==> key in t.stores[p]
    ensures |t.rows| == |s.rows| && forall i :: 0 <= i < |s.rows| ==> t.rows[i] == s.rows[i]
  {
  }

  // A first task against empty providers: whatever took effect is stored.
  method FirstTask(service: Service, now: Time, id: Uuid, w: Window, raw: Bytes, faults: seq<Outcome>, updated: bool)
    returns (ghost key: string, ghost es: seq<Event>)
    requires service.env.concurrency == 1 && Inv(service.env, service.View()) && Printable(w) && raw != ""
    requires service.View() == EmptyStart(now, w.customer, w.zone, service.stores) && |faults| == |service.stores|
    modifies service
    ensures Inv(service.env, service.View()) && Runs(service.env, old(service.View()), es, service.View())
    ensures key == PrepareBlob(service.env.codec, raw, w, "logs").1.key && key != ""
    ensures service.stores == PutAll(old(service.stores), faults, key, service.env.codec.gzip(raw))
    ensures |service.rows| == 1 && service.rows == [service.rows[0]] && service.rows[0].window == w
    ensures service.rows[0].key == if updated && Success in faults then key else ""
    ensures service.customers == old(service.customers) && service.zones == old(service.zones)
  {
    hide Runs, Inv, KeyTail, NewLines, Printable, Judge, PutAll, Usage, LastDone;
    var x := AllAnswer(raw, faults, updated);
    WillUpload(service.env, now, id, w, raw, service.stores, faults, updated);
    var ok, v;
    ok, v, es := service.ProcessTask(Pull, id, w, x);
    key := PrepareBlob(service.env.codec, raw, w, "logs").1.key;
    Lifecycle.KeyNotEmpty(service.env.codec, raw, w, "logs");
  }

  /** An archive that failed over to the worker's second provider is still there after the
      request has succeeded, with every call of the request answered, and its row says
      expired. */
  method FailoverCopySurvivesErasure(codec: Codec, now: Time, id: Uuid, w: Window, raw: Bytes)
    returns (start: System, service: Service, ghost key: string, ghost es: seq<Event>)
    requires Printable(w) && raw != ""
    ensures Initial(start) && Runs(service.env, start, es, service.View())
    ensures w.customer in service.customers && service.customers[w.customer].deleted
    ensures |service.rows| == 1 && service.rows[0].status == Expired && service.rows[0].key == key
    ensures |service.stores| == 2 && key in service.stores[1]
  {
    hide Runs, Inv, PrepareBlob, Printable, Judge, SweptForErasure, NewestKeyed, NothingLeft, AllDeleted;
    var env := Env(codec, 1, 1);
    start := EmptyStart(now, w.customer, w.zone, [map[], map[]]);
    Lifecycle.InitialInv(env, start);
    service := new Service(env, start);
    key, es := FirstTask(service, now, id, w, raw, [Failure, Success], true);
    ghost var archived := service.View();
    ListsOne(service.rows[0], w.customer);
    var status;
    ghost var fs;
    status, fs := service.DeleteCustomer(w.customer, true, [Answer([Success], true)], true, true);
    MarkedOne(env, archived, service.View(), key);
    Join(env, start, es, archived, fs, service.View());
    es := es + fs;
  }

  /** One provider that the API knows is no help either: an upload whose reply was lost, or
      whose row was not updated, is an object that no row names, and the request, with every
      call answered, leaves it where it is. */
  method OrphanSurvivesErasure(codec: Codec, now: Time, id: Uuid, w: Window, raw: Bytes, replied: bool)
    returns (start: System, service: Service, ghost key: string, ghost es: seq<Event>)
    requires Printable(w) && raw != ""
    ensures Initial(start) && Runs(service.env, start, es, service.View()) && service.env.apiProviders == |service.stores| == 1
    ensures w.customer in service.customers && service.customers[w.customer].deleted
    ensures |service.rows| == 1 && service.rows[0].key == ""
    ensures key in service.stores[0] && Uploads.Owned(key, w.customer) && !NothingLeft(service.stores, w.customer)
  {
    hide Runs, Inv, PrepareBlob, Printable, Judge, SweptForErasure, NewestKeyed, AllDeleted, Uploads.Owned;
    var env := Env(codec, 1, 1);
    start := EmptyStart(now, w.customer, w.zone, [map[]]);
    Lifecycle.InitialInv(env, start);
    service := new Service(env, start);
    key, es := FirstTask(service, now, id, w, raw, [if replied then Success else LostReply], !replied);
    ghost var uploaded := service.View();
    ListsNone(service.rows[0], w.customer);
    var status;
    ghost var fs;
    status, fs := service.DeleteCustomer(w.customer, true, [], true, true);
    MarkedNone(env, uploaded, service.View());
    Uploads.OwnKey(codec, raw, w, "logs");
    Join(env, start, es, uploaded, fs, service.View());
    es := es + fs;
  }
}
