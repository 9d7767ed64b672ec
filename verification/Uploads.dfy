/** Whose object an upload is: the key says which customer a pull was made for, whether or
    not a row ever names it. */
module Uploads {
  import opened Base
  import opened Calendar
  import opened Blob
  import opened ObjectStore
  import opened Pipeline
  import Lifecycle

  ghost predicate PullKeyOf(key: string, c: Uuid, kind: Kind, w: Window, hash8: string) {
    w.customer == c && Printable(w) && |hash8| == 8 && key == ObjectKey(LogType(kind), w, hash8)
  }

  // A key that a pull of the customer prints.
  ghost predicate PullKey(key: string, c: Uuid) {
    exists kind, w, hash8 :: PullKeyOf(key, c, kind, w, hash8)
  }

  ghost predicate OwnedAs(key: string, c: Uuid, logType: string, w: Window, hash8: string) {
    w.customer == c && Printable(w) && |hash8| == 8 && key == ObjectKey(logType, w, hash8)
  }

  // A key that any upload for the customer prints, an instant-log batch included.
  ghost predicate Owned(key: string, c: Uuid) {
    exists logType, w, hash8 :: OwnedAs(key, c, logType, w, hash8)
  }

  lemma OwnKey(codec: Codec, raw: Bytes, w: Window, logType: string)
    requires Printable(w)
    ensures Owned(PrepareBlob(codec, raw, w, logType).1.key, w.customer)
  {
    hide FourDigitYear;
    assert OwnedAs(PrepareBlob(codec, raw, w, logType).1.key, w.customer, logType, w, codec.sha(codec.gzip(raw))[..8]);
  }

  lemma KeyOwner(codec: Codec, raw: Bytes, w: Window, logType: string, c: Uuid)
    requires Printable(w)
    ensures Owned(PrepareBlob(codec, raw, w, logType).1.key, c) <==> w.customer == c
  {
    hide FourDigitYear, KeyTail;
    var key, hash8 := PrepareBlob(codec, raw, w, logType).1.key, codec.sha(codec.gzip(raw))[..8];
    if w.customer == c {
      OwnKey(codec, raw, w, logType);
    }
    forall logType', w', hash8' | OwnedAs(key, c, logType', w', hash8') ensures w.customer == c {
      KeyInjective(logType, w, hash8, logType', w', hash8');
    }
  }

  lemma OwnedNotEmpty(key: string, c: Uuid)
    requires Owned(key, c)
    ensures key != ""
  {
    hide FourDigitYear;
    var logType, w, hash8 :| OwnedAs(key, c, logType, w, hash8);
    TailInjective(w, hash8, w, hash8);
    assert |key| == |TypeName(logType)| + |KeyTail(w, hash8)|;
  }

  lemma PullKeyNotEmpty(key: string, c: Uuid)
    requires PullKey(key, c)
    ensures key != ""
  {
    hide FourDigitYear;
    var kind, w, hash8 :| PullKeyOf(key, c, kind, w, hash8);
    assert OwnedAs(key, c, LogType(kind), w, hash8);
    OwnedNotEmpty(key, c);
  }

  // The uploads that pulls of the customer have made.
  ghost function Pulls(puts: seq<Put>, c: Uuid): nat {
    if puts == [] then 0
    else
      var n := |puts| - 1;
      Pulls(puts[..n], c) + if PullKey(puts[n].key, c) then 1 else 0
  }

  lemma PullsAppend(puts: seq<Put>, x: Put, c: Uuid)
    ensures Pulls(puts + [x], c) == Pulls(puts, c) + if PullKey(x.key, c) then 1 else 0
  {
    hide PullKey;
    assert (puts + [x])[..|puts|] == puts;
  }

  lemma KeyOfPull(codec: Codec, raw: Bytes, w: Window, kind: Kind, c: Uuid)
    requires Printable(w)
    ensures PullKey(PrepareBlob(codec, raw, w, LogType(kind)).1.key, c) <==> w.customer == c
  {
    hide FourDigitYear, KeyTail;
    var key, hash8 := PrepareBlob(codec, raw, w, LogType(kind)).1.key, codec.sha(codec.gzip(raw))[..8];
    if w.customer == c {
      assert PullKeyOf(key, c, kind, w, hash8);
    }
    forall kind', w', hash8' | PullKeyOf(key, c, kind', w', hash8') ensures w.customer == c {
      KeyInjective(LogType(kind), w, hash8, LogType(kind'), w', hash8');
    }
  }

  lemma KeyOfInstant(codec: Codec, raw: Bytes, w: Window, c: Uuid)
    requires Printable(w)
    ensures !PullKey(PrepareBlob(codec, raw, w, INSTANT).1.key, c)
  {
    hide FourDigitYear, KeyTail;
    var key, hash8 := PrepareBlob(codec, raw, w, INSTANT).1.key, codec.sha(codec.gzip(raw))[..8];
    forall kind', w', hash8' | PullKeyOf(key, c, kind', w', hash8') ensures false {
      KeyInjective(INSTANT, w, hash8, LogType(kind'), w', hash8');
    }
  }

  function PutOf(env: Env, raw: Bytes, w: Window, logType: string): Put {
    Put(PrepareBlob(env.codec, raw, w, logType).1.key, raw)
  }

  // Uploads are only ever added.
  lemma PutsStep(env: Env, s: System, e: Event, t: System)
    requires Step(env, s, e) == Some(t)
    ensures s.puts <= t.puts
    ensures !e.Store? && !e.InstantPut? ==> t.puts == s.puts
    ensures e.Store? ==> At(s, e.i) && s.attempts[e.i].Linked?
    ensures e.Store? ==> t.puts == s.puts + [PutOf(env, s.attempts[e.i].raw, s.rows[e.i].window, LogType(s.rows[e.i].kind))]
    ensures e.InstantPut? ==> Printable(e.window) && t.puts == s.puts + [PutOf(env, e.raw, e.window, INSTANT)]
  {
    hide PrepareBlob, FourDigitYear, PutAll, DeleteAll, GetFirst, LastDone, Usage, InFlight, DueRows, NewestKeyed, MonthBegin;
  }

  // An upload writes its key, and nothing else, on some of the providers.
  lemma UploadFrame(env: Env, s: System, e: Event, t: System) returns (x: Put)
    requires Step(env, s, e) == Some(t) && (e.Store? || e.InstantPut?)
    ensures t.puts == s.puts + [x] && |t.stores| == |s.stores|
    ensures forall p :: 0 <= p < |s.stores| ==>
              t.stores[p] == s.stores[p] || t.stores[p] == s.stores[p][x.key := env.codec.gzip(x.raw)]
  {
    hide ObjectKey, NewLines, FourDigitYear;
    x := if e.Store? then PutOf(env, s.attempts[e.i].raw, s.rows[e.i].window, LogType(s.rows[e.i].kind)) else PutOf(env, e.raw, e.window, INSTANT);
  }

  lemma {:induction false} PutsGrow(env: Env, s: System, es: seq<Event>, t: System)
    requires Runs(env, s, es, t)
    ensures s.puts <= t.puts
    decreases |es|
  {
    hide Step;
    if es != [] {
      var next := Step(env, s, es[0]).value;
      PutsStep(env, s, es[0], next);
      PutsGrow(env, next, es[1..], t);
    }
  }

  /** A step adds an upload of the customer's pulls exactly when it is the upload of an
      attempt for the customer. */
  lemma PullsStep(env: Env, s: System, e: Event, t: System, c: Uuid)
    requires Inv(env, s) && Step(env, s, e) == Some(t)
    ensures Pulls(t.puts, c) == Pulls(s.puts, c) + if e.Store? && e.i < |s.rows| && s.rows[e.i].window.customer == c then 1 else 0
  {
    hide RowsOk, ListsOk, Step, PullKey, Pulls, PrepareBlob, FourDigitYear;
    PutsStep(env, s, e, t);
    if e.Store? {
      var w, kind, raw := s.rows[e.i].window, s.rows[e.i].kind, s.attempts[e.i].raw;
      Lifecycle.RowShapeOf(env, s, e.i);
      KeyOfPull(env.codec, raw, w, kind, c);
      PullsAppend(s.puts, t.puts[|s.puts|], c);
    } else if e.InstantPut? {
      KeyOfInstant(env.codec, e.raw, e.window, c);
      PullsAppend(s.puts, t.puts[|s.puts|], c);
    }
  }
}
