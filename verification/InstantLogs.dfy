/** One instant-log stream: the producer goroutine that reads the WebSocket, the channel of
    capacity 100, and the session loop that batches messages and uploads the batches. */
module InstantLogs {
  import opened Base

  type Time = int

  const CHANNEL_CAPACITY := 100
  const BATCH_SIZE := 2000

  datatype Arrival = Arrival(msg: Bytes, at: Time)

  datatype Batch = Batch(start: Time, end: Time, arrivals: seq<Arrival>, raw: Bytes, stored: bool)

  // The session's variables, and as history when it began and what it handed to storage.
  datatype Session = Session(began: Time, buffer: seq<Arrival>, lastUpload: Time, batches: seq<Batch>)

  // ── Newline framing ────────────────────────────────────────────────────────────────

  function Messages(arrivals: seq<Arrival>): seq<Bytes> {
    if arrivals == [] then [] else Messages(arrivals[..|arrivals| - 1]) + [arrivals[|arrivals| - 1].msg]
  }

  function Frame(msgs: seq<Bytes>): Bytes {
    if msgs == [] then "" else msgs[0] + ("\n" + Frame(msgs[1..]))
  }

  lemma {:induction false} FrameAppend(msgs: seq<Bytes>, m: Bytes)
    ensures Frame(msgs + [m]) == Frame(msgs) + m + "\n"
  {
    if msgs != [] {
      assert (msgs + [m])[1..] == msgs[1..] + [m];
      FrameAppend(msgs[1..], m);
    }
  }

  // The length of the first line.
  function LineEnd(raw: Bytes): (n: nat)
    ensures n <= |raw| && '\n' !in raw[..n] && (n < |raw| ==> raw[n] == '\n')
  {
    if raw == "" || raw[0] == '\n' then 0 else 1 + LineEnd(raw[1..])
  }

  function Lines(raw: Bytes): seq<Bytes>
    decreases |raw|
  {
    if raw == "" then []
    else if LineEnd(raw) == |raw| then [raw]
    else [raw[..LineEnd(raw)]] + Lines(raw[LineEnd(raw) + 1..])
  }

  lemma {:induction false} FirstLine(line: Bytes, rest: Bytes)
    requires '\n' !in line
    ensures LineEnd(line + ("\n" + rest)) == |line|
  {
    var raw := line + ("\n" + rest);
    if line != "" {
      assert raw[0] == line[0] && raw[1..] == line[1..] + ("\n" + rest);
      FirstLine(line[1..], rest);
    }
  }

  lemma {:induction false} LinesAreClean(raw: Bytes)
    ensures forall i :: 0 <= i < |Lines(raw)| ==> '\n' !in Lines(raw)[i]
    decreases |raw|
  {
    if raw != "" && LineEnd(raw) < |raw| {
      LinesAreClean(raw[LineEnd(raw) + 1..]);
    }
  }

  lemma {:induction false} CleanDecodes(msgs: seq<Bytes>)
    requires forall i :: 0 <= i < |msgs| ==> '\n' !in msgs[i]
    ensures Lines(Frame(msgs)) == msgs
  {
    if msgs != [] {
      var raw := Frame(msgs);
      FirstLine(msgs[0], Frame(msgs[1..]));
      assert raw[..|msgs[0]|] == msgs[0] && raw[|msgs[0]| + 1..] == Frame(msgs[1..]);
      CleanDecodes(msgs[1..]);
    }
  }

  /** Reading an upload line by line gives the messages back exactly when no message
      contains a newline. */
  lemma FramingDecodes(msgs: seq<Bytes>)
    ensures Lines(Frame(msgs)) == msgs <==> forall i :: 0 <= i < |msgs| ==> '\n' !in msgs[i]
  {
    LinesAreClean(Frame(msgs));
    if forall i :: 0 <= i < |msgs| ==> '\n' !in msgs[i] {
      CleanDecodes(msgs);
    }
  }

  // ── The session ────────────────────────────────────────────────────────────────────

  // upload(): nothing for an empty buffer; otherwise the buffer is emptied whether or not
  // the store took the batch.
  function AfterUpload(s: Session, now: Time, stored: bool): Session {
    if s.buffer == [] then s
    else Session(s.began, [], now, s.batches + [Batch(s.lastUpload, now, s.buffer, Frame(Messages(s.buffer)), stored)])
  }

  function Receive(s: Session, msg: Bytes, at: Time, now: Time, stored: bool): Session {
    var s' := s.(buffer := s.buffer + [Arrival(msg, at)]);
    if |s'.buffer| >= BATCH_SIZE then AfterUpload(s', now, stored) else s'
  }

  // What wakes the select loop. Each wakeup says when it came, when an upload it causes
  // ends, and whether the store takes it.
  datatype Wakeup =
    | Cancelled(now: Time, stored: bool)
    | Ticked(now: Time, stored: bool)
    | Got(msg: Bytes, at: Time, now: Time, stored: bool)
    | ChannelClosed(now: Time, stored: bool)

  datatype Ending = Running | CleanExit | ClosedByRemote

  function Wake(s: Session, w: Wakeup): (Session, Ending) {
    match w
    case Cancelled(now, stored) => (AfterUpload(s, now, stored), CleanExit)
    case Ticked(now, stored) => (AfterUpload(s, now, stored), Running)
    case Got(msg, at, now, stored) => (Receive(s, msg, at, now, stored), Running)
    case ChannelClosed(now, stored) => (AfterUpload(s, now, stored), ClosedByRemote)
  }

  function WakeAll(s: Session, ws: seq<Wakeup>): (Session, Ending)
    decreases |ws|
  {
    if ws == [] then (s, Running)
    else
      var (s', e) := Wake(s, ws[0]);
      if e != Running then (s', e) else WakeAll(s', ws[1..])
  }

  // The buffer went to storage as one framed batch that ends now, or there was none.
  predicate HandedOver(s: Session, buffer: seq<Arrival>, now: Time, stored: bool, t: Session) {
    && t.began == s.began && t.buffer == []
    && if buffer == [] then t.lastUpload == s.lastUpload && t.batches == s.batches
       else t.lastUpload == now &&
            t.batches == s.batches + [Batch(s.lastUpload, now, buffer, Frame(Messages(buffer)), stored)]
  }

  class StreamSession {
    const began: Time
    var buffer: seq<Arrival>
    var lastUpload: Time
    var batches: seq<Batch>

    function View(): Session
      reads this
    {
      Session(began, buffer, lastUpload, batches)
    }

    constructor (now: Time)
      ensures View() == Session(now, [], now, [])
    {
      began, buffer, lastUpload, batches := now, [], now, [];
    }

    method Upload(now: Time, stored: bool)
      modifies this
      ensures View() == AfterUpload(old(View()), now, stored)
      ensures HandedOver(old(View()), old(buffer), now, stored, View())
    {
      if |buffer| == 0 {
        return;
      }
      var raw, lines := "", buffer;
      for i := 0 to |lines|
        invariant raw == Frame(Messages(lines[..i])) && View() == old(View())
      {
        assert lines[..i + 1][..i] == lines[..i];
        FrameAppend(Messages(lines[..i]), lines[i].msg);
        raw := raw + lines[i].msg;
        raw := raw + "\n";
      }
      assert lines[..|lines|] == lines;
      batches := batches + [Batch(lastUpload, now, buffer, raw, stored)];
      buffer := [];
      lastUpload := now;
    }

    method Loop(ws: seq<Wakeup>) returns (ending: Ending)
      modifies this
      ensures (View(), ending) == WakeAll(old(View()), ws)
    {
      var i := 0;
      while i < |ws|
        invariant 0 <= i <= |ws|
        invariant WakeAll(old(View()), ws) == WakeAll(View(), ws[i..])
      {
        assert ws[i..][1..] == ws[i + 1..];
        match ws[i] {
          case Cancelled(now, stored) =>
            Upload(now, stored);
            return CleanExit;
          case Ticked(now, stored) =>
            Upload(now, stored);
          case Got(msg, at, now, stored) =>
            buffer := buffer + [Arrival(msg, at)];
            if |buffer| >= BATCH_SIZE {
              Upload(now, stored);
            }
          case ChannelClosed(now, stored) =>
            Upload(now, stored);
            return ClosedByRemote;
        }
        i := i + 1;
      }
      return Running;
    }
  }

  // ── Producer, channel and session together ─────────────────────────────────────────

  datatype Producer = AtTop | InRead | Holding(msg: Bytes) | Exited

  // Everything the producer ever read is history.
  datatype Stream = Stream(
    clock: Time, cancelled: bool, read: seq<Bytes>, producer: Producer, queue: seq<Bytes>,
    session: Session, ending: Ending)

  datatype Event =
    | Cancel
    | CheckContext
    | ReadMessage(msg: Bytes)
    | ReadError
    | Push
    | Wakes(w: Wakeup)

  predicate InOrder(s: Stream, w: Wakeup) {
    s.clock <= w.now && (w.Got? ==> s.clock <= w.at <= w.now)
  }

  // Which wakeups the select may choose: every ready one.
  predicate Ready(s: Stream, w: Wakeup) {
    match w
    case Cancelled(_, _) => s.cancelled
    case Ticked(_, _) => true
    case Got(msg, _, _, _) => s.queue != [] && msg == s.queue[0]
    case ChannelClosed(_, _) => s.queue == [] && s.producer.Exited?
  }

  function Step(s: Stream, e: Event): Option<Stream> {
    match e
    case Cancel => Some(s.(cancelled := true))
    case CheckContext =>
      if !s.producer.AtTop? then None
      else Some(s.(producer := if s.cancelled then Exited else InRead))
    case ReadMessage(msg) =>
      if !s.producer.InRead? then None else Some(s.(producer := Holding(msg), read := s.read + [msg]))
    case ReadError => if !s.producer.InRead? then None else Some(s.(producer := Exited))
    case Push =>
      // The send waits for room; it does not watch the context.
      if !s.producer.Holding? || |s.queue| >= CHANNEL_CAPACITY then None
      else Some(s.(producer := AtTop, queue := s.queue + [s.producer.msg]))
    case Wakes(w) =>
      if s.ending != Running || !Ready(s, w) || !InOrder(s, w) then None
      else
        var (session, ending) := Wake(s.session, w);
        Some(s.(clock := w.now, session := session, ending := ending, queue := if w.Got? then s.queue[1..] else s.queue))
  }

  predicate Runs(s: Stream, es: seq<Event>, t: Stream)
    decreases |es|
  {
    if es == [] then s == t
    else
      var next := Step(s, es[0]);
      next.Some? && Runs(next.value, es[1..], t)
  }

  predicate Initial(s: Stream) {
    && s.read == [] && s.producer == AtTop && s.queue == [] && s.ending == Running
    && s.session == Session(s.clock, [], s.clock, [])
  }

  // The messages of the batches, stored or failed, in order.
  function Uploaded(batches: seq<Batch>): seq<Bytes> {
    if batches == [] then [] else Uploaded(batches[..|batches| - 1]) + Messages(batches[|batches| - 1].arrivals)
  }

  function Received(s: Session): seq<Bytes> {
    Uploaded(s.batches) + Messages(s.buffer)
  }

  function InHand(p: Producer): seq<Bytes> {
    if p.Holding? then [p.msg] else []
  }

  predicate Within(arrivals: seq<Arrival>, start: Time, end: Time) {
    forall i :: 0 <= i < |arrivals| ==> start <= arrivals[i].at <= end
  }

  function StartOf(began: Time, batches: seq<Batch>, i: nat): Time
    requires i <= |batches|
  {
    if i == 0 then began else batches[i - 1].end
  }

  predicate BatchOk(began: Time, batches: seq<Batch>, i: nat)
    requires i < |batches|
  {
    var b := batches[i];
    && 1 <= |b.arrivals| <= BATCH_SIZE && b.raw == Frame(Messages(b.arrivals))
    && b.start == StartOf(began, batches, i) <= b.end && Within(b.arrivals, b.start, b.end)
  }

  // Batches hold 1 to 2000 messages each, and their windows tile the time since the
  // session began and contain their messages' arrivals.
  predicate Tiled(s: Session, clock: Time) {
    && (forall i :: 0 <= i < |s.batches| ==> BatchOk(s.began, s.batches, i))
    && s.lastUpload == StartOf(s.began, s.batches, |s.batches|)
    && s.lastUpload <= clock && Within(s.buffer, s.lastUpload, clock)
    && |s.buffer| < BATCH_SIZE
  }

  predicate Inv(s: Stream) {
    && Tiled(s.session, s.clock)
    && |s.queue| <= CHANNEL_CAPACITY
    && s.read == Received(s.session) + s.queue + InHand(s.producer)
    && (s.ending != Running ==> s.session.buffer == [])
    && (s.ending == CleanExit ==> s.cancelled)
    && (s.ending == ClosedByRemote ==> s.queue == [] && s.producer.Exited?)
  }

  lemma MessagesAppend(arrivals: seq<Arrival>, a: Arrival)
    ensures Messages(arrivals + [a]) == Messages(arrivals) + [a.msg]
  {
    assert (arrivals + [a])[..|arrivals|] == arrivals;
  }

  lemma UploadReceived(s: Session, now: Time, stored: bool)
    ensures Received(AfterUpload(s, now, stored)) == Received(s)
  {
    var t := AfterUpload(s, now, stored);
    if s.buffer != [] {
      assert t.batches[..|s.batches|] == s.batches;
    }
  }

  // A full buffer is the only one that may hold BATCH_SIZE messages, and only until the
  // upload that follows at once.
  lemma UploadTiled(s: Session, clock: Time, now: Time, stored: bool)
    requires Tiled(s.(buffer := []), clock) && clock <= now
    requires |s.buffer| <= BATCH_SIZE && Within(s.buffer, s.lastUpload, now)
    ensures Tiled(AfterUpload(s, now, stored), now) && AfterUpload(s, now, stored).buffer == []
  {
    var t := AfterUpload(s, now, stored);
    forall i | 0 <= i < |t.batches| ensures BatchOk(t.began, t.batches, i) {
      if i < |s.batches| {
        assert BatchOk(s.began, s.batches, i);
      }
    }
  }

  lemma ReceivedAppend(s: Session, a: Arrival)
    ensures Received(s.(buffer := s.buffer + [a])) == Received(s) + [a.msg]
  {
    MessagesAppend(s.buffer, a);
  }

  lemma WakeTiled(s: Session, clock: Time, w: Wakeup)
    requires Tiled(s, clock) && clock <= w.now && (w.Got? ==> clock <= w.at <= w.now)
    ensures Tiled(Wake(s, w).0, w.now)
    ensures Wake(s, w).1 != Running ==> Wake(s, w).0.buffer == []
    ensures Received(Wake(s, w).0) == Received(s) + if w.Got? then [w.msg] else []
  {
    hide Received;
    if w.Got? {
      var s' := s.(buffer := s.buffer + [Arrival(w.msg, w.at)]);
      ReceivedAppend(s, Arrival(w.msg, w.at));
      UploadReceived(s', w.now, w.stored);
      UploadTiled(s', clock, w.now, w.stored);
    } else {
      UploadReceived(s, w.now, w.stored);
      UploadTiled(s, clock, w.now, w.stored);
    }
  }

  /** A tick, a cancel and the end of the channel hand over the whole buffer, and only the
      last two end the session. A message is kept until it is the 2000th, which hands over
      the whole buffer too. */
  lemma WakeIs(s: Session, w: Wakeup)
    ensures w.Ticked? ==> HandedOver(s, s.buffer, w.now, w.stored, Wake(s, w).0) && Wake(s, w).1 == Running
    ensures w.Cancelled? ==> HandedOver(s, s.buffer, w.now, w.stored, Wake(s, w).0) && Wake(s, w).1 == CleanExit
    ensures w.ChannelClosed? ==> HandedOver(s, s.buffer, w.now, w.stored, Wake(s, w).0) && Wake(s, w).1 == ClosedByRemote
    ensures w.Got? ==> Wake(s, w).1 == Running
    ensures w.Got? && |s.buffer| + 1 < 2000 ==> Wake(s, w).0 == s.(buffer := s.buffer + [Arrival(w.msg, w.at)])
    ensures w.Got? && |s.buffer| + 1 >= 2000 ==>
              HandedOver(s, s.buffer + [Arrival(w.msg, w.at)], w.now, w.stored, Wake(s, w).0)
  {
  }

  lemma WakeEnds(s: Session, w: Wakeup)
    ensures Wake(s, w).1 == ClosedByRemote <==> w.ChannelClosed?
    ensures Wake(s, w).1 == CleanExit <==> w.Cancelled?
  {
  }

  lemma StepKeeps(s: Stream, e: Event, t: Stream)
    requires Inv(s) && Step(s, e) == Some(t)
    ensures Inv(t)
  {
    hide Tiled, Received, Wake;
    if e.Wakes? {
      WakeTiled(s.session, s.clock, e.w);
      if e.w.Got? {
        assert s.queue == [s.queue[0]] + s.queue[1..];
      }
      WakeEnds(s.session, e.w);
    }
  }

  lemma {:induction false} RunKeeps(s: Stream, es: seq<Event>, t: Stream)
    requires Inv(s) && Runs(s, es, t)
    ensures Inv(t)
    decreases |es|
  {
    hide Inv, Step;
    if es != [] {
      StepKeeps(s, es[0], Step(s, es[0]).value);
      RunKeeps(Step(s, es[0]).value, es[1..], t);
    }
  }

  lemma InitialTiled(s: Stream)
    requires Initial(s)
    ensures Tiled(s.session, s.clock)
  {
  }

  /** A running session can always be woken by a tick, which leaves no message in its buffer;
      by a message when one is in the channel, by the end of an empty channel when the
      producer is gone, and by a cancel once there was one, and by nothing else. */
  lemma WakesExactlyWhen(s: Stream, w: Wakeup)
    requires w.Got? ==> w.at == w.now
    ensures Step(s, Wakes(w)).Some? <==>
            && s.ending == Running && s.clock <= w.now
            && (w.Got? ==> s.queue != [] && s.queue[0] == w.msg) && (w.Cancelled? ==> s.cancelled)
            && (w.ChannelClosed? ==> s.queue == [] && s.producer.Exited?)
    ensures Step(s, Wakes(w)).Some? && !w.Got? ==> Step(s, Wakes(w)).value.session.buffer == []
  {
  }

  /** At every moment the messages read are, in order, those of all batches handed to
      storage, the buffer, the channel and the producer's hand; batches have the promised
      size, windows and framing; a remote close leaves nothing unread, and a cancelled
      session at most a full channel and one message more. */
  lemma StreamConserves(s: Stream, es: seq<Event>, t: Stream)
    requires Initial(s) && Runs(s, es, t)
    ensures t.read == Uploaded(t.session.batches) + Messages(t.session.buffer) + t.queue + InHand(t.producer)
    ensures Tiled(t.session, t.clock)
    ensures t.ending == ClosedByRemote ==> t.read == Uploaded(t.session.batches)
    ensures t.ending == CleanExit ==> t.cancelled && |t.read| <= |Uploaded(t.session.batches)| + 101
  {
    hide Tiled;
    assert Inv(s) by {
      InitialTiled(s);
    }
    RunKeeps(s, es, t);
  }

  // ── The producer after the session has ended ───────────────────────────────────────

  // The producer waits to send into a full channel that nobody reads any more.
  predicate Leaked(s: Stream) {
    s.ending != Running && s.producer.Holding? && |s.queue| == CHANNEL_CAPACITY
  }

  lemma {:induction false} LeakIsForever(s: Stream, es: seq<Event>, t: Stream)
    requires Leaked(s) && Runs(s, es, t)
    ensures Leaked(t) && t.producer == s.producer
    decreases |es|
  {
    if es != [] {
      LeakIsForever(Step(s, es[0]).value, es[1..], t);
    }
  }

  predicate CanExit(s: Stream, es: seq<Event>, t: Stream) {
    Runs(s, es, t) && t.producer.Exited?
  }

  lemma OneStep(s: Stream, e: Event)
    requires Step(s, e).Some? && Step(s, e).value.producer.Exited?
    ensures exists es, t :: CanExit(s, es, t)
  {
    var es := [e];
    assert es[1..] == [];
    assert CanExit(s, es, Step(s, e).value);
  }

  /** After a cancelled session has returned, the producer goroutine can still end exactly
      when it is not waiting with a message in front of a full channel: the send ignores
      the context, so in that one case the goroutine and its connection stay for good. */
  lemma ProducerEndsExactlyWhen(s: Stream)
    requires s.cancelled && s.ending != Running && |s.queue| <= CHANNEL_CAPACITY
    ensures (exists es, t :: CanExit(s, es, t)) <==> !Leaked(s)
  {
    if Leaked(s) {
      forall es, t | CanExit(s, es, t) ensures false {
        LeakIsForever(s, es, t);
      }
    } else {
      match s.producer
      case AtTop => OneStep(s, CheckContext);
      case InRead => OneStep(s, ReadError);
      case Holding(_) =>
        var m := Step(s, Push).value;
        var t := Step(m, CheckContext).value;
        var es := [Push, CheckContext];
        assert es[1..] == [CheckContext] && es[1..][1..] == [];
        assert Runs(m, es[1..], t);
        assert CanExit(s, es, t);
      case Exited => assert CanExit(s, [], s);
    }
  }

  lemma {:induction false} Join(s: Stream, es: seq<Event>, m: Stream, fs: seq<Event>, t: Stream)
    requires Runs(s, es, m) && Runs(m, fs, t)
    ensures Runs(s, es + fs, t)
    decreases |es|
  {
    hide Step;
    if es == [] {
      assert es + fs == fs;
    } else {
      assert (es + fs)[1..] == es[1..] + fs;
      Join(Step(s, es[0]).value, es[1..], m, fs, t);
    }
  }

  // The producer reads one message and waits to send it.
  lemma ReadOne(s: Stream, msg: Bytes) returns (es: seq<Event>)
    requires s.producer == AtTop && !s.cancelled
    ensures Runs(s, es, s.(producer := Holding(msg), read := s.read + [msg]))
  {
    es := [CheckContext, ReadMessage(msg)];
    var m := Step(s, CheckContext).value;
    var t := Step(m, ReadMessage(msg)).value;
    assert es[1..] == [ReadMessage(msg)] && es[1..][1..] == [];
    assert Runs(m, es[1..], t);
  }

  // While the session is busy uploading, the producer fills the channel.
  lemma {:induction false} Fill(s: Stream, msg: Bytes) returns (es: seq<Event>, t: Stream)
    requires s.producer == AtTop && !s.cancelled && |s.queue| <= CHANNEL_CAPACITY
    ensures Runs(s, es, t) && |t.queue| == CHANNEL_CAPACITY && t.producer == AtTop
    ensures !t.cancelled && t.session == s.session && t.ending == s.ending && t.clock == s.clock
    decreases CHANNEL_CAPACITY - |s.queue|
  {
    if |s.queue| == CHANNEL_CAPACITY {
      es, t := [], s;
    } else {
      var first := ReadOne(s, msg);
      var held := s.(producer := Holding(msg), read := s.read + [msg]);
      var pushed := Step(held, Push).value;
      assert [Push][1..] == [] && Runs(held, [Push], pushed);
      Join(s, first, held, [Push], pushed);
      var rest;
      rest, t := Fill(pushed, msg);
      Join(s, first + [Push], pushed, rest, t);
      es := first + [Push] + rest;
    }
  }

  /** Every session can end in that position: 101 messages arrive while it does not read,
      and a cancel comes before it reads again. */
  lemma LeakHappens(s: Stream, msg: Bytes) returns (es: seq<Event>, t: Stream)
    requires Initial(s) && !s.cancelled
    ensures Runs(s, es, t) && Leaked(t) && t.cancelled && |t.queue| == 100
  {
    var full;
    es, full := Fill(s, msg);
    var last := ReadOne(full, msg);
    var held := full.(producer := Holding(msg), read := full.read + [msg]);
    Join(s, es, full, last, held);
    es := es + last;
    var wake := Cancelled(held.clock, true);
    var fs := [Cancel, Wakes(wake)];
    var m := Step(held, Cancel).value;
    t := Step(m, Wakes(wake)).value;
    assert fs[1..] == [Wakes(wake)] && fs[1..][1..] == [];
    assert Runs(m, fs[1..], t);
    Join(s, es, held, fs, t);
    es := es + fs;
  }
}
