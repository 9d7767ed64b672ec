/** The worker side as one state machine: the job table, the attempts that the two pull
    processors make, the object stores, the retention worker and the erasure handler.
    Every external call is its own step, any step of any actor may come next, and any
    call may fail, or take effect and lose its reply. */
module Pipeline {
  import opened Base
  import opened Calendar
  import opened Blob
  import opened ObjectStore
  import Worm

  // The queue concurrency of all workers together and the number of providers, primary
  // first, that the API process was started with; workers use every provider.
  datatype Env = Env(codec: Codec, concurrency: nat, apiProviders: nat)

  datatype Kind = Pull | Security

  function LogType(k: Kind): string {
    if k == Pull then "logs" else "security"
  }

  const INSTANT := "instant"

  datatype Status = Pending | Done | Failed | Expired

  // One row of log_jobs. The last three fields are history, not columns: the bytes that
  // were archived, the row the chain hash was linked to, and the rank at which the row
  // became done.
  datatype Job = Job(
    id: Uuid, kind: Kind, window: Window, createdAt: Time, status: Status,
    key: string, sha256: string, chain: string, bytes: nat, attempts: nat, verified: bool,
    raw: Bytes, parent: Option<nat>, doneAt: nat)

  function BlankJob(id: Uuid, kind: Kind, w: Window, now: Time): Job {
    Job(id, kind, w, now, Pending, "", "", "", 0, 0, false, "", None, 0)
  }

  // How far one execution of ProcessTask has come. Attempt i owns row i.
  datatype Stage =
    | Created
    | HasCustomer(quota: int)
    | HasZone(quota: int)
    | Admitted
    | Linked(raw: Bytes, parent: Option<nat>, chain: string)
    | Stored(raw: Bytes, parent: Option<nat>, chain: string, meta: Metadata)
    | Refused
    | Over

  datatype Customer = Customer(quota: int, retentionDays: nat, deleted: bool)

  datatype Zone = Zone(customer: Uuid, deleted: bool)

  // A worker or handler that goes through a list of (row, key) pairs read earlier. For
  // the head of the list, handled says that its object has been dealt with.
  datatype Sweep = Sweep(customer: Uuid, cutoff: int, todo: seq<(nat, string)>, handled: bool)

  datatype Put = Put(key: string, raw: Bytes)

  datatype System = System(
    now: Time,
    customers: map<Uuid, Customer>,
    zones: map<Uuid, Zone>,
    rows: seq<Job>,
    attempts: seq<Stage>,
    stores: seq<Objects>,
    expirers: seq<Sweep>,
    erasers: seq<Sweep>,
    doneCount: nat,
    puts: seq<Put>)

  datatype Event =
    | Tick(now: Time)
    | Register(customer: Uuid, retentionDays: nat)
    | AddZone(zone: Uuid, customer: Uuid)
    | DropZone(zone: Uuid)
    | Create(kind: Kind, id: Uuid, window: Window)
    | LoadCustomer(i: nat)
    | LoadZone(i: nat)
    | CheckQuota(i: nat)
    | Link(i: nat, raw: Bytes, answered: bool)
    | Store(i: nat, faults: seq<Outcome>)
    | Finish(i: nat, written: bool)
    | FinishEmpty(i: nat, written: bool)
    | Fail(i: nat, written: bool)
    | Abandon(i: nat)
    | Verify(i: nat, faults: seq<Outcome>)
    | InstantPut(window: Window, raw: Bytes, faults: seq<Outcome>)
    | ExpireList(customer: Uuid)
    | ExpireDelete(w: nat, faults: seq<Outcome>)
    | ExpireMark(w: nat, written: bool)
    | EraseList(customer: Uuid, answered: bool)
    | EraseDelete(w: nat, faults: seq<Outcome>)
    | EraseMark(w: nat, written: bool)
    | EraseCustomer(w: nat, zonesWritten: bool)

  // ── Queries ────────────────────────────────────────────────────────────────────────

  predicate IdLess(a: string, b: string) {
    b != [] && (a == [] || a[0] < b[0] || (a[0] == b[0] && IdLess(a[1..], b[1..])))
  }

  // ORDER BY created_at DESC, id DESC
  predicate Newer(a: Job, b: Job) {
    a.createdAt > b.createdAt || (a.createdAt == b.createdAt && IdLess(b.id, a.id))
  }

  predicate DoneIn(j: Job, zone: Uuid) {
    j.status == Done && j.window.zone == zone
  }

  // GetLastJob: the newest done row of the zone.
  function LastDone(rows: seq<Job>, zone: Uuid): (r: Option<nat>)
    ensures r.Some? ==> r.value < |rows| && DoneIn(rows[r.value], zone)
    ensures r.None? ==> forall k :: 0 <= k < |rows| ==> !DoneIn(rows[k], zone)
  {
    if rows == [] then None
    else
      var n := |rows| - 1;
      var best := LastDone(rows[..n], zone);
      if DoneIn(rows[n], zone) && (best.None? || Newer(rows[n], rows[best.value])) then Some(n) else best
  }

  function Counted(j: Job, customer: Uuid, since: int): nat {
    if j.window.customer == customer && j.status == Done && since <= j.createdAt then j.bytes else 0
  }

  // GetCurrentUsage: bytes of the customer's done rows created since the given instant.
  function Usage(rows: seq<Job>, customer: Uuid, since: int): nat {
    if rows == [] then 0
    else Usage(rows[..|rows| - 1], customer, since) + Counted(rows[|rows| - 1], customer, since)
  }

  function MonthBegin(now: Time): int {
    MonthStart(UnixSecond(now) / DAY_SECONDS) * DAY
  }

  // ListExpired: done rows whose period ended before the cutoff.
  function DueRows(rows: seq<Job>, customer: Uuid, cutoff: int): seq<(nat, string)> {
    if rows == [] then []
    else
      var n := |rows| - 1;
      DueRows(rows[..n], customer, cutoff) +
      if rows[n].window.customer == customer && rows[n].status == Done && rows[n].window.end < cutoff
      then [(n, rows[n].key)] else []
  }

  // ListByCustomer: the newest rows first, at most limit of them; of these the erasure
  // handler keeps the rows that name an object.
  function NewestKeyed(rows: seq<Job>, customer: Uuid, limit: nat): seq<(nat, string)> {
    if rows == [] || limit == 0 then []
    else
      var n := |rows| - 1;
      if rows[n].window.customer != customer then NewestKeyed(rows[..n], customer, limit)
      else (if rows[n].key != "" then [(n, rows[n].key)] else []) + NewestKeyed(rows[..n], customer, limit - 1)
  }

  const ERASE_LIMIT := 9999

  function ParentHash(rows: seq<Job>, parent: Option<nat>): string
    requires parent.Some? ==> parent.value < |rows|
  {
    if parent.None? then Worm.GENESIS else rows[parent.value].chain
  }

  function InFlight(attempts: seq<Stage>): nat {
    if attempts == [] then 0
    else InFlight(attempts[..|attempts| - 1]) + if attempts[|attempts| - 1].Over? then 0 else 1
  }

  function DeletePrefix(stores: seq<Objects>, n: nat, faults: seq<Outcome>, key: string): seq<Objects>
    requires n <= |stores| && |faults| == n
  {
    DeleteAll(stores[..n], faults, key) + stores[n..]
  }

  // ── Steps ──────────────────────────────────────────────────────────────────────────

  predicate At(s: System, i: nat) {
    i < |s.attempts| && i < |s.rows|
  }

  function WithStage(s: System, i: nat, stage: Stage): System
    requires At(s, i)
  {
    s.(attempts := s.attempts[i := stage])
  }

  // The last write of an attempt: with or without its row update reaching the table.
  function Closing(s: System, i: nat, written: bool, j: Job): System
    requires At(s, i)
  {
    s.(attempts := s.attempts[i := Over], rows := if written then s.rows[i := j] else s.rows,
       doneCount := s.doneCount + if written && j.status == Done then 1 else 0)
  }

  // The insert fails for an id or a window that the table's constraints reject.
  function CreateStep(env: Env, s: System, kind: Kind, id: Uuid, w: Window): Option<System> {
    if InFlight(s.attempts) >= env.concurrency || !Printable(w)
       || w.zone !in s.zones || s.zones[w.zone].customer != w.customer
       || exists k :: 0 <= k < |s.rows| && s.rows[k].id == id
    then None
    else Some(s.(rows := s.rows + [BlankJob(id, kind, w, s.now)], attempts := s.attempts + [Created]))
  }

  // The bytes have arrived and the previous job is looked up; no answer means Genesis.
  function LinkStep(env: Env, s: System, i: nat, raw: Bytes, answered: bool): Option<System> {
    if !At(s, i) || !s.attempts[i].Admitted? || (s.rows[i].kind == Pull && raw == "") then None
    else
      var parent := if answered then LastDone(s.rows, s.rows[i].window.zone) else None;
      var chain := Worm.ChainHash(env.codec.sha, ParentHash(s.rows, parent), env.codec.sha(raw), s.rows[i].id);
      Some(WithStage(s, i, Linked(raw, parent, chain)))
  }

  function Upload(env: Env, s: System, w: Window, raw: Bytes, logType: string, faults: seq<Outcome>): System
    requires |faults| == |s.stores|
  {
    var (blob, meta) := PrepareBlob(env.codec, raw, w, logType);
    s.(stores := PutAll(s.stores, faults, meta.key, blob), puts := s.puts + [Put(meta.key, raw)])
  }

  function StoreStep(env: Env, s: System, i: nat, faults: seq<Outcome>): Option<System> {
    if !At(s, i) || !s.attempts[i].Linked? || |faults| != |s.stores| then None
    else
      var a, w, logType := s.attempts[i], s.rows[i].window, LogType(s.rows[i].kind);
      var meta := PrepareBlob(env.codec, a.raw, w, logType).1;
      var stage := if Success in faults then Stored(a.raw, a.parent, a.chain, meta) else Refused;
      Some(WithStage(Upload(env, s, w, a.raw, logType, faults), i, stage))
  }

  function DoneJob(j: Job, a: Stage, rank: nat): Job
    requires a.Stored?
  {
    j.(status := Done, key := a.meta.key, sha256 := a.meta.sha256, chain := a.chain, bytes := a.meta.size,
       raw := a.raw, parent := a.parent, doneAt := rank)
  }

  // The verify task hashes the decompressed bytes and compares with the sha256 column.
  function VerifyStep(env: Env, s: System, i: nat, faults: seq<Outcome>): Option<System> {
    if i >= |s.rows| || |faults| != |s.stores| || s.rows[i].key == "" || s.rows[i].sha256 == "" then None
    else
      var data := GetFirst(env.codec, s.stores, faults, s.rows[i].key);
      if data.None? || env.codec.sha(data.value) != s.rows[i].sha256 then None
      else Some(s.(rows := s.rows[i := s.rows[i].(verified := true)]))
  }

  function Next(w: Sweep): Sweep
    requires w.todo != []
  {
    w.(todo := w.todo[1..], handled := false)
  }

  function MarkExpired(s: System, i: nat, written: bool): System {
    if written && i < |s.rows| then s.(rows := s.rows[i := s.rows[i].(status := Expired)]) else s
  }

  // A failed delete skips the row; it stays done.
  function ExpireDeleteStep(s: System, w: nat, faults: seq<Outcome>): Option<System> {
    if w >= |s.expirers| || s.expirers[w].todo == [] || s.expirers[w].handled || |faults| != |s.stores| then None
    else
      var sweep := s.expirers[w];
      var key := sweep.todo[0].1;
      if key == "" then Some(s.(expirers := s.expirers[w := sweep.(handled := true)]))
      else
        var sweep' := if DeleteOk(faults) then sweep.(handled := true) else Next(sweep);
        Some(s.(stores := DeleteAll(s.stores, faults, key), expirers := s.expirers[w := sweep']))
  }

  // The erasure handler goes on to mark the row whatever the delete reported.
  function EraseDeleteStep(env: Env, s: System, w: nat, faults: seq<Outcome>): Option<System> {
    if w >= |s.erasers| || s.erasers[w].todo == [] || s.erasers[w].handled
       || env.apiProviders > |s.stores| || |faults| != env.apiProviders
    then None
    else
      var sweep := s.erasers[w];
      Some(s.(stores := DeletePrefix(s.stores, env.apiProviders, faults, sweep.todo[0].1),
              erasers := s.erasers[w := sweep.(handled := true)]))
  }

  function EraseCustomerStep(s: System, w: nat, zonesWritten: bool): Option<System> {
    if w >= |s.erasers| || s.erasers[w].todo != [] || s.erasers[w].customer !in s.customers then None
    else
      var c := s.erasers[w].customer;
      var zones := map z | z in s.zones ::
        if zonesWritten && s.zones[z].customer == c then s.zones[z].(deleted := true) else s.zones[z];
      Some(s.(customers := s.customers[c := s.customers[c].(deleted := true)], zones := zones))
  }

  function Step(env: Env, s: System, e: Event): Option<System> {
    match e
    case Tick(now) => if s.now <= now then Some(s.(now := now)) else None
    case Register(c, days) =>
      // A new customer is written with the zero quota of the Go struct.
      if c in s.customers || days < 1 then None
      else Some(s.(customers := s.customers[c := Customer(0, days, false)]))
    case AddZone(z, c) => if z in s.zones || c !in s.customers then None else Some(s.(zones := s.zones[z := Zone(c, false)]))
    case DropZone(z) =>
      if z !in s.zones then None else Some(s.(zones := s.zones[z := s.zones[z].(deleted := true)]))
    case Create(kind, id, w) => CreateStep(env, s, kind, id, w)
    case LoadCustomer(i) =>
      if !At(s, i) || !s.attempts[i].Created? then None
      else
        var c := s.rows[i].window.customer;
        if c !in s.customers || s.customers[c].deleted then None
        else Some(WithStage(s, i, HasCustomer(s.customers[c].quota)))
    case LoadZone(i) =>
      if !At(s, i) || !s.attempts[i].HasCustomer? then None
      else
        var z := s.rows[i].window.zone;
        if z !in s.zones || s.zones[z].deleted then None else Some(WithStage(s, i, HasZone(s.attempts[i].quota)))
    case CheckQuota(i) =>
      if !At(s, i) || !s.attempts[i].HasZone? then None
      else
        var quota := s.attempts[i].quota;
        if quota == -1 || Usage(s.rows, s.rows[i].window.customer, MonthBegin(s.now)) < quota
        then Some(WithStage(s, i, Admitted)) else None
    case Link(i, raw, answered) => LinkStep(env, s, i, raw, answered)
    case Store(i, faults) => StoreStep(env, s, i, faults)
    case Finish(i, written) =>
      if !At(s, i) || !s.attempts[i].Stored? then None
      else Some(Closing(s, i, written, DoneJob(s.rows[i], s.attempts[i], s.doneCount)))
    case FinishEmpty(i, written) =>
      if !At(s, i) || !s.attempts[i].Admitted? then None
      else Some(Closing(s, i, written, s.rows[i].(status := Done, doneAt := s.doneCount)))
    case Fail(i, written) =>
      if !At(s, i) || s.attempts[i].Over? || s.attempts[i].Stored? then None
      else Some(Closing(s, i, written, s.rows[i].(status := Failed, attempts := s.rows[i].attempts + 1)))
    case Abandon(i) => if !At(s, i) || s.attempts[i].Over? then None else Some(WithStage(s, i, Over))
    case Verify(i, faults) => VerifyStep(env, s, i, faults)
    case InstantPut(w, raw, faults) =>
      if |faults| != |s.stores| || !Printable(w) then None
      else Some(Upload(env, s, w, raw, INSTANT, faults))
    case ExpireList(c) =>
      if c !in s.customers then None
      else
        var cutoff := s.now - s.customers[c].retentionDays * DAY;
        Some(s.(expirers := s.expirers + [Sweep(c, cutoff, DueRows(s.rows, c, cutoff), false)]))
    case ExpireDelete(w, faults) => ExpireDeleteStep(s, w, faults)
    case ExpireMark(w, written) =>
      if w >= |s.expirers| || s.expirers[w].todo == [] || !s.expirers[w].handled then None
      else Some(MarkExpired(s, s.expirers[w].todo[0].0, written).(expirers := s.expirers[w := Next(s.expirers[w])]))
    case EraseList(c, answered) =>
      var todo := if answered then NewestKeyed(s.rows, c, ERASE_LIMIT) else [];
      Some(s.(erasers := s.erasers + [Sweep(c, 0, todo, false)]))
    case EraseDelete(w, faults) => EraseDeleteStep(env, s, w, faults)
    case EraseMark(w, written) =>
      if w >= |s.erasers| || s.erasers[w].todo == [] || !s.erasers[w].handled then None
      else Some(MarkExpired(s, s.erasers[w].todo[0].0, written).(erasers := s.erasers[w := Next(s.erasers[w])]))
    case EraseCustomer(w, zonesWritten) => EraseCustomerStep(s, w, zonesWritten)
  }

  // ── Runs ───────────────────────────────────────────────────────────────────────────

  predicate Runs(env: Env, s: System, es: seq<Event>, t: System)
    decreases |es|
  {
    if es == [] then s == t
    else
      var next := Step(env, s, es[0]);
      next.Some? && Runs(env, next.value, es[1..], t)
  }

  lemma {:induction false} Join(env: Env, s: System, es: seq<Event>, m: System, es': seq<Event>, t: System)
    requires Runs(env, s, es, m) && Runs(env, m, es', t)
    ensures Runs(env, s, es + es', t)
    decreases |es|
  {
    hide Step;
    if es == [] {
      assert es + es' == es';
    } else {
      assert (es + es')[1..] == es[1..] + es';
      Join(env, Step(env, s, es[0]).value, es[1..], m, es', t);
    }
  }

  lemma TwoSteps(env: Env, s: System, a: Event, m: System, b: Event, t: System)
    requires Step(env, s, a) == Some(m) && Step(env, m, b) == Some(t)
    ensures Runs(env, s, [a, b], t)
  {
    hide Step;
    assert [a, b][1..] == [b] && [b][1..] == [];
    assert Runs(env, m, [b], t);
  }

  lemma Append(env: Env, s: System, es: seq<Event>, m: System, e: Event, t: System)
    requires Runs(env, s, es, m) && Step(env, m, e) == Some(t)
    ensures Runs(env, s, es + [e], t)
  {
    hide Step;
    assert [e][1..] == [];
    assert Runs(env, m, [e], t);
    Join(env, s, es, m, [e], t);
  }

  // Nothing has been pulled yet; customers and zones may be registered already.
  predicate Initial(s: System) {
    && (forall z :: z in s.zones ==> s.zones[z].customer in s.customers)
    && s.rows == [] && s.attempts == [] && s.expirers == [] && s.erasers == [] && s.puts == [] && s.doneCount == 0
    && forall p :: 0 <= p < |s.stores| ==> s.stores[p] == map[]
  }

  // ── What every step keeps ──────────────────────────────────────────────────────────

  predicate IsBlank(j: Job) {
    && j.status == Pending && j.key == "" && j.sha256 == "" && j.chain == "" && j.bytes == 0
    && j.attempts == 0 && !j.verified
  }

  // The columns of a row that names an object describe that object.
  predicate Describes(env: Env, j: Job) {
    var (blob, meta) := PrepareBlob(env.codec, j.raw, j.window, LogType(j.kind));
    j.key == meta.key && j.sha256 == meta.sha256 && j.bytes == meta.size && |j.chain| == 64
  }

  predicate RowShape(env: Env, j: Job) {
    match j.status
    case Pending => IsBlank(j)
    case Failed => j.attempts == 1 && IsBlank(j.(status := Pending, attempts := 0))
    case _ => j.attempts == 0 && if j.key == "" then IsBlank(j.(status := Pending)) else Describes(env, j)
  }

  predicate Settled(j: Job) {
    j.status == Done || j.status == Expired
  }

  // An attempt that still runs owns a blank row, and holds what it will write there.
  predicate StageShape(env: Env, j: Job, a: Stage) {
    && (!a.Over? ==> j.status == Pending)
    && (a.Linked? ==> |a.chain| == 64)
    && (a.Stored? ==> |a.chain| == 64 && a.meta == PrepareBlob(env.codec, a.raw, j.window, LogType(j.kind)).1)
  }

  predicate TodoShape(s: System, w: Sweep, x: (nat, string)) {
    && x.0 < |s.rows| && Settled(s.rows[x.0]) && s.rows[x.0].key == x.1
    && s.rows[x.0].window.customer == w.customer
  }

  ghost predicate RowsOk(env: Env, s: System) {
    && |s.attempts| == |s.rows|
    && forall i :: 0 <= i < |s.rows| ==>
         RowShape(env, s.rows[i]) && Printable(s.rows[i].window) && StageShape(env, s.rows[i], s.attempts[i])
  }

  predicate DueSweep(s: System, w: Sweep) {
    forall x :: x in w.todo ==> TodoShape(s, w, x) && s.rows[x.0].window.end < w.cutoff
  }

  predicate EraseSweep(s: System, w: Sweep) {
    forall x :: x in w.todo ==> TodoShape(s, w, x) && x.1 != ""
  }

  predicate ListsOk(s: System) {
    && (forall w :: 0 <= w < |s.expirers| ==> DueSweep(s, s.expirers[w]))
    && (forall w :: 0 <= w < |s.erasers| ==> EraseSweep(s, s.erasers[w]))
  }

  ghost predicate Inv(env: Env, s: System) {
    RowsOk(env, s) && ListsOk(s)
  }

  // The row that a step writes, if any.
  function Written(s: System, e: Event): Option<nat> {
    match e
    case Finish(i, written) => if written then Some(i) else None
    case FinishEmpty(i, written) => if written then Some(i) else None
    case Fail(i, written) => if written then Some(i) else None
    case Verify(i, _) => Some(i)
    case ExpireMark(w, written) =>
      if written && w < |s.expirers| && s.expirers[w].todo != [] then Some(s.expirers[w].todo[0].0) else None
    case EraseMark(w, written) =>
      if written && w < |s.erasers| && s.erasers[w].todo != [] then Some(s.erasers[w].todo[0].0) else None
    case _ => None
  }

  // The attempt that a step moves, if any.
  function Moved(e: Event): Option<nat> {
    if e.LoadCustomer? || e.LoadZone? || e.CheckQuota? || e.Link? || e.Store? || e.Abandon?
       || e.Finish? || e.FinishEmpty? || e.Fail?
    then Some(e.i) else None
  }

  // How a row may look later: identity and settled contents never change, and the status
  // only moves pending to done or failed and done to expired.
  predicate Follows(a: Job, b: Job) {
    && b.id == a.id && b.kind == a.kind && b.window == a.window && b.createdAt == a.createdAt
    && match a.status
       case Pending => true
       case Failed => b == a
       case _ => Settled(b) && (a.status == Expired ==> b.status == Expired) &&
                 b == a.(status := b.status, verified := b.verified) && (a.verified ==> b.verified)
  }

  ghost predicate RowsFollow(a: seq<Job>, b: seq<Job>) {
    |a| <= |b| && forall i :: 0 <= i < |a| ==> Follows(a[i], b[i])
  }

  lemma {:induction false} IdLessTransitive(a: string, b: string, c: string)
    requires IdLess(a, b) && IdLess(b, c)
    ensures IdLess(a, c)
  {
    if a != [] && a[0] == b[0] == c[0] {
      IdLessTransitive(a[1..], b[1..], c[1..]);
    }
  }

  // Texts are compared at the first character in which they differ.
  lemma {:induction false} IdLessAt(a: string, b: string, k: nat)
    requires k < |a| && k < |b| && a[..k] == b[..k] && a[k] != b[k]
    ensures IdLess(a, b) <==> a[k] < b[k]
  {
    if k != 0 {
      assert a[1..][..k - 1] == a[..k][1..] && b[1..][..k - 1] == b[..k][1..];
      assert a[0] == a[..k][0] && b[0] == b[..k][0];
      IdLessAt(a[1..], b[1..], k - 1);
    }
  }

  lemma {:induction false} IdNotLess(a: string)
    ensures !IdLess(a, a)
  {
    if a != [] {
      IdNotLess(a[1..]);
    }
  }

  /** No done row of the zone is newer than the one that GetLastJob returns. */
  lemma {:induction false} LastDoneIsNewest(rows: seq<Job>, zone: Uuid, k: nat)
    requires k < |rows| && DoneIn(rows[k], zone)
    ensures LastDone(rows, zone).Some? && !Newer(rows[k], rows[LastDone(rows, zone).value])
  {
    hide IdLess;
    var n := |rows| - 1;
    var before, last := LastDone(rows[..n], zone), LastDone(rows, zone);
    if k < n {
      LastDoneIsNewest(rows[..n], zone, k);
      var best := rows[before.value];
      if Newer(rows[k], rows[n]) && Newer(rows[n], best) {
        if IdLess(rows[n].id, rows[k].id) && IdLess(best.id, rows[n].id) {
          IdLessTransitive(best.id, rows[n].id, rows[k].id);
        }
        assert false;
      }
    } else {
      IdNotLess(rows[n].id);
    }
  }

  lemma {:induction false} DueRowsAre(rows: seq<Job>, customer: Uuid, cutoff: int)
    ensures forall x :: x in DueRows(rows, customer, cutoff) <==>
              x.0 < |rows| && rows[x.0].window.customer == customer && rows[x.0].status == Done &&
              rows[x.0].window.end < cutoff && x.1 == rows[x.0].key
  {
    if rows != [] {
      DueRowsAre(rows[..|rows| - 1], customer, cutoff);
    }
  }

  lemma {:induction false} NewestKeyedAre(rows: seq<Job>, customer: Uuid, limit: nat)
    ensures forall x :: x in NewestKeyed(rows, customer, limit) ==>
              x.0 < |rows| && rows[x.0].window.customer == customer && x.1 == rows[x.0].key && x.1 != ""
  {
    if rows != [] && limit != 0 {
      NewestKeyedAre(rows[..|rows| - 1], customer, limit);
      NewestKeyedAre(rows[..|rows| - 1], customer, limit - 1);
    }
  }
}
