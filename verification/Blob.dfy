/** Preparing one archive object: compression, hashing, line counting and the object key. */
module Blob {
  import opened Base
  import opened Calendar
  import Worm

  // gzip (RFC 1952) and its inverse are unknown functions; gunzip fails on other bytes.
  datatype Codec = Codec(sha: Worm.Sha256, gzip: Bytes -> Bytes, gunzip: Bytes -> Option<Bytes>)

  ghost predicate Lawful(c: Codec) {
    forall raw :: c.gunzip(c.gzip(raw)) == Some(raw)
  }

  // What an object key is printed from.
  datatype Window = Window(customer: Uuid, zone: Uuid, start: Time, end: Time)

  datatype Metadata = Metadata(key: string, sha256: Worm.Digest, size: nat, lines: nat)

  function NewLines(b: Bytes): nat {
    if b == [] then 0 else NewLines(b[..|b| - 1]) + if b[|b| - 1] == '\n' then 1 else 0
  }

  lemma {:induction false} NewLinesCount(b: Bytes)
    ensures NewLines(b) == multiset(b)['\n']
  {
    if b != [] {
      NewLinesCount(b[..|b| - 1]);
      assert b == b[..|b| - 1] + [b[|b| - 1]];
    }
  }

  method CountLines(b: Bytes) returns (count: nat)
    ensures count == NewLines(b) == multiset(b)['\n']
  {
    count := 0;
    for i := 0 to |b|
      invariant count == NewLines(b[..i])
    {
      assert b[..i + 1][..i] == b[..i];
      if b[i] == '\n' {
        count := count + 1;
      }
    }
    assert b[..|b|] == b;
    NewLinesCount(b);
  }

  function TypeName(logType: string): string {
    if logType == "" then "logs" else logType
  }

  function KeyTail(w: Window, hash8: string): string {
    "/" + (w.customer + ("/" + (w.zone + ("/" + (DayPath(w.start) + ("/" +
    (Stamp(w.start) + ("_" + (Stamp(w.end) + ("_" + (hash8 + ".ndjson.gz")))))))))))
  }

  function ObjectKey(logType: string, w: Window, hash8: string): string {
    TypeName(logType) + KeyTail(w, hash8)
  }

  function PrepareBlob(c: Codec, raw: Bytes, w: Window, logType: string): (Bytes, Metadata) {
    var compressed := c.gzip(raw);
    var hex := c.sha(compressed);
    (compressed, Metadata(ObjectKey(logType, w, hex[..8]), hex, |compressed|, NewLines(raw)))
  }

  predicate Printable(w: Window) {
    FourDigitYear(w.start) && FourDigitYear(w.end)
  }

  // Two windows that agree on everything a key shows of them.
  predicate SameWindow(v: Window, w: Window) {
    && v.customer == w.customer && v.zone == w.zone
    && UnixSecond(v.start) == UnixSecond(w.start) && UnixSecond(v.end) == UnixSecond(w.end)
  }

  lemma TailInjective(v: Window, hv: string, w: Window, hw: string)
    requires Printable(v) && Printable(w) && |hv| == |hw| == 8
    ensures |KeyTail(v, hv)| == |KeyTail(w, hw)| == 138
    ensures KeyTail(v, hv) == KeyTail(w, hw) ==> SameWindow(v, w) && hv == hw
  {
    Widths(v.start);
    Widths(v.end);
    Widths(w.start);
    Widths(w.end);
    if KeyTail(v, hv) == KeyTail(w, hw) {
      var v6, w6 := hv + ".ndjson.gz", hw + ".ndjson.gz";
      var v5, w5 := Stamp(v.end) + ("_" + v6), Stamp(w.end) + ("_" + w6);
      var v4, w4 := Stamp(v.start) + ("_" + v5), Stamp(w.start) + ("_" + w5);
      var v3, w3 := DayPath(v.start) + ("/" + v4), DayPath(w.start) + ("/" + w4);
      var v2, w2 := v.zone + ("/" + v3), w.zone + ("/" + w3);
      var v1, w1 := v.customer + ("/" + v2), w.customer + ("/" + w2);
      SplitFront("/", v1, "/", w1);
      SplitFront(v.customer, "/" + v2, w.customer, "/" + w2);
      SplitFront("/", v2, "/", w2);
      SplitFront(v.zone, "/" + v3, w.zone, "/" + w3);
      SplitFront("/", v3, "/", w3);
      SplitFront(DayPath(v.start), "/" + v4, DayPath(w.start), "/" + w4);
      SplitFront("/", v4, "/", w4);
      SplitFront(Stamp(v.start), "_" + v5, Stamp(w.start), "_" + w5);
      SplitFront("_", v5, "_", w5);
      SplitFront(Stamp(v.end), "_" + v6, Stamp(w.end), "_" + w6);
      SplitFront("_", v6, "_", w6);
      SplitFront(hv, ".ndjson.gz", hw, ".ndjson.gz");
      StampInjective(v.start, w.start);
      StampInjective(v.end, w.end);
    }
  }

  /** An object key determines the log type, the customer, the zone, both window ends to
      the second and the hash prefix, whatever characters the log type holds. */
  lemma KeyInjective(tv: string, v: Window, hv: string, tw: string, w: Window, hw: string)
    requires Printable(v) && Printable(w) && |hv| == |hw| == 8
    ensures ObjectKey(tv, v, hv) == ObjectKey(tw, w, hw) <==>
            TypeName(tv) == TypeName(tw) && hv == hw && SameWindow(v, w)
  {
    TailInjective(v, hv, w, hw);
    if ObjectKey(tv, v, hv) == ObjectKey(tw, w, hw) {
      SplitBack(TypeName(tv), KeyTail(v, hv), TypeName(tw), KeyTail(w, hw));
    }
  }

  // The fields of a key's last 138 characters, at their places.
  predicate TailFields(tail: string, w: Window, hash8: string) {
    && |tail| == 138
    && tail[0] == '/' && tail[1..37] == w.customer && tail[37] == '/' && tail[38..74] == w.zone
    && tail[74] == '/' && tail[75..85] == DayPath(w.start) && tail[85] == '/' && tail[86..102] == Stamp(w.start)
    && tail[102] == '_' && tail[103..119] == Stamp(w.end) && tail[119] == '_' && tail[120..128] == hash8
    && tail[128..] == ".ndjson.gz"
  }

  // The two stamps and the hash digits.
  function KeyBack(w: Window, hash8: string): string {
    Stamp(w.start) + ("_" + (Stamp(w.end) + ("_" + (hash8 + ".ndjson.gz"))))
  }

  // The next part of a text that is read up to here.
  lemma Part(text: string, at: nat, part: string, rest: string)
    requires at <= |text| && text[at..] == part + rest
    ensures at + |part| <= |text| && text[at..at + |part|] == part && text[at + |part|..] == rest
  {
    assert |text| - at == |part| + |rest|;
    assert text[at..at + |part|] == text[at..][..|part|] && text[at + |part|..] == text[at..][|part|..];
  }

  lemma Mark(text: string, at: nat, mark: string, rest: string)
    requires at <= |text| && text[at..] == mark + rest && |mark| == 1
    ensures at < |text| && text[at] == mark[0] && text[at + 1..] == rest
  {
    Part(text, at, mark, rest);
    assert text[at] == text[at..at + 1][0];
  }

  lemma BackReads(w: Window, hash8: string)
    requires Printable(w) && |hash8| == 8
    ensures var back := KeyBack(w, hash8);
            && |back| == 52 && back[..16] == Stamp(w.start) && back[16] == '_' && back[17..33] == Stamp(w.end) && back[33] == '_'
            && back[34..42] == hash8 && back[42..] == ".ndjson.gz"
  {
    Widths(w.start);
    Widths(w.end);
    hide Stamp, DayPath, FourDigitYear;
    var back := KeyBack(w, hash8);
    var last := "_" + (hash8 + ".ndjson.gz");
    assert back[0..] == back == Stamp(w.start) + ("_" + (Stamp(w.end) + last));
    hide KeyBack;
    Part(back, 0, Stamp(w.start), "_" + (Stamp(w.end) + last));
    Mark(back, 16, "_", Stamp(w.end) + last);
    Part(back, 17, Stamp(w.end), last);
    Mark(back, 33, "_", hash8 + ".ndjson.gz");
    Part(back, 34, hash8, ".ndjson.gz");
  }

  lemma FrontReads(w: Window, back: string)
    requires Printable(w)
    ensures var tail := "/" + (w.customer + ("/" + (w.zone + ("/" + (DayPath(w.start) + ("/" + back))))));
            && |tail| == 86 + |back| && tail[0] == '/' && tail[1..37] == w.customer && tail[37] == '/' && tail[38..74] == w.zone
            && tail[74] == '/' && tail[75..85] == DayPath(w.start) && tail[85] == '/' && tail[86..] == back
  {
    Widths(w.start);
    hide Stamp, DayPath, FourDigitYear;
    var a := DayPath(w.start) + ("/" + back);
    var b := w.zone + ("/" + a);
    var c := w.customer + ("/" + b);
    var tail := "/" + c;
    assert tail[0..] == tail;
    Mark(tail, 0, "/", c);
    Part(tail, 1, w.customer, "/" + b);
    Mark(tail, 37, "/", b);
    Part(tail, 38, w.zone, "/" + a);
    Mark(tail, 74, "/", a);
    Part(tail, 75, DayPath(w.start), "/" + back);
    Mark(tail, 85, "/", back);
  }

  lemma TailReads(w: Window, hash8: string)
    requires Printable(w) && |hash8| == 8
    ensures TailFields(KeyTail(w, hash8), w, hash8)
  {
    hide Stamp, DayPath, FourDigitYear;
    var tail, back := KeyTail(w, hash8), KeyBack(w, hash8);
    BackReads(w, hash8);
    FrontReads(w, back);
    assert tail == "/" + (w.customer + ("/" + (w.zone + ("/" + (DayPath(w.start) + ("/" + back))))));
    hide KeyTail, KeyBack;
    assert tail[86..102] == back[..16] && tail[103..119] == back[17..33] && tail[120..128] == back[34..42] && tail[128..] == back[42..];
  }

  /** What a prepared object is: its bytes are the compressed ones, hash, size and the eight
      digits in its key are those of these bytes, and its key shows the log type, the owner,
      and both ends of the window at fixed places. */
  lemma PreparedObject(c: Codec, raw: Bytes, w: Window, logType: string)
    requires Printable(w)
    ensures var (blob, meta) := PrepareBlob(c, raw, w, logType);
            && blob == c.gzip(raw) && meta.sha256 == c.sha(blob) && meta.size == |blob| && meta.lines == multiset(raw)['\n']
            && 138 <= |meta.key|
            && meta.key[..|meta.key| - 138] == (if logType == "" then "logs" else logType)
            && TailFields(meta.key[|meta.key| - 138..], w, meta.sha256[..8])
  {
    var key, hash8 := PrepareBlob(c, raw, w, logType).1.key, c.sha(c.gzip(raw))[..8];
    TailReads(w, hash8);
    NewLinesCount(raw);
    hide KeyTail, TailFields;
    assert |KeyTail(w, hash8)| == 138 by { TailInjective(w, hash8, w, hash8); }
    assert key[..|key| - 138] == TypeName(logType) && key[|key| - 138..] == KeyTail(w, hash8);
  }
}
