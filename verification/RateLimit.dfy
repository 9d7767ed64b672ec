/** The per-client rate limiter: a map of token buckets from which a background loop evicts
    the clients it has not seen for ten minutes. Tokens and instants are real numbers of
    tokens and seconds, so rounding is not modelled. */
module RateLimit {
  import opened Base

  // Tokens per second and bucket capacity. A rate that is not positive adds no tokens.
  datatype Limit = Limit(rate: real, burst: int)

  datatype Bucket = Bucket(tokens: real, last: real)

  datatype Entry = Entry(bucket: Bucket, lastSeen: real)

  type Entries = map<string, Entry>

  const TTL := 600.0
  const ZERO_TIME := 0.0

  function Gain(l: Limit, seconds: real): real {
    if l.rate <= 0.0 then 0.0 else l.rate * seconds
  }

  // advance: the tokens at instant t. A bucket ahead of the clock gains nothing.
  function Available(l: Limit, b: Bucket, t: real): (r: real)
    ensures r <= l.burst as real
  {
    var tokens := b.tokens + Gain(l, if t < b.last then 0.0 else t - b.last);
    if tokens > l.burst as real then l.burst as real else tokens
  }

  // A refused request leaves the bucket as it was.
  function Allow(l: Limit, b: Bucket, t: real): (Bucket, bool) {
    var left := Available(l, b, t) - 1.0;
    if left >= 0.0 then (Bucket(left, t), true) else (b, false)
  }

  function NewBucket(l: Limit): Bucket {
    Bucket(l.burst as real, ZERO_TIME)
  }

  function BucketOf(l: Limit, m: Entries, key: string): Bucket {
    if key in m then m[key].bucket else NewBucket(l)
  }

  // get and Allow for one request.
  function Admit(l: Limit, m: Entries, key: string, now: real): (Entries, bool) {
    var (b, ok) := Allow(l, BucketOf(l, m, key), now);
    (m[key := Entry(b, now)], ok)
  }

  function Stale(e: Entry, read: real): bool {
    e.lastSeen < read - TTL
  }

  function Evicted(m: Entries, read: real): Entries {
    map k | k in m && !Stale(m[k], read) :: m[k]
  }

  lemma OneChanged(m: Entries, n: Entries, key: string)
    requires n.Keys == m.Keys + {key}
    requires forall k :: k in m && k != key ==> n[k] == m[k]
    ensures n == m[key := n[key]]
  {
  }

  // ── The limiter itself ─────────────────────────────────────────────────────────────

  class TokenBucket {
    ghost const client: string
    const limit: Limit
    var tokens: real
    var last: real

    function View(): Bucket
      reads this
    {
      Bucket(tokens, last)
    }

    constructor (ghost client: string, l: Limit)
      ensures this.client == client && limit == l && View() == NewBucket(l)
    {
      this.client, limit, tokens, last := client, l, l.burst as real, ZERO_TIME;
    }

    method Take(t: real) returns (ok: bool)
      modifies this
      ensures (View(), ok) == Allow(limit, old(View()), t)
      ensures var gained := if limit.rate > 0.0 && t > old(last) then limit.rate * (t - old(last)) else 0.0;
              var held := if old(tokens) + gained > limit.burst as real then limit.burst as real else old(tokens) + gained;
              && (ok <==> held >= 1.0)
              && (if ok then tokens == held - 1.0 && last == t else tokens == old(tokens) && last == old(last))
    {
      var left := Available(limit, View(), t) - 1.0;
      ok := left >= 0.0;
      if ok {
        tokens, last := left, t;
      }
    }
  }

  class IpEntry {
    const lim: TokenBucket
    var lastSeen: real

    constructor (lim: TokenBucket, now: real)
      ensures this.lim == lim && lastSeen == now
    {
      this.lim, lastSeen := lim, now;
    }
  }

  class IpLimiter {
    const limit: Limit
    var entries: map<string, IpEntry>

    ghost function Repr(): set<object>
      reads this, entries.Values
    {
      {this} + (set k | k in entries :: entries[k]) + set k | k in entries :: entries[k].lim
    }

    // Every client has its own bucket, so no two clients share an entry or a bucket.
    ghost predicate Valid()
      reads this
    {
      forall k :: k in entries ==> entries[k].lim.limit == limit && entries[k].lim.client == k
    }

    ghost function View(): Entries
      reads Repr()
    {
      map k | k in entries :: Entry(entries[k].lim.View(), entries[k].lastSeen)
    }

    constructor (l: Limit)
      ensures Valid() && limit == l && View() == map[] && fresh(Repr())
    {
      limit, entries := l, map[];
    }

    // The client's own entry and bucket, if it has them.
    ghost function Owned(key: string): set<object>
      reads this
    {
      if key in entries then {entries[key], entries[key].lim} else {}
    }

    method Get(key: string, now: real) returns (lim: TokenBucket)
      requires Valid()
      modifies this, Owned(key)
      ensures Valid() && entries.Keys == old(entries).Keys + {key}
      ensures forall k :: k in old(entries) ==> entries[k] == old(entries[k])
      ensures key !in old(entries) ==> fresh(entries[key]) && fresh(lim)
      ensures lim == entries[key].lim && lim.View() == BucketOf(limit, old(View()), key) && entries[key].lastSeen == now
    {
      if key in entries {
        entries[key].lastSeen := now;
      } else {
        var bucket := new TokenBucket(key, limit);
        var e := new IpEntry(bucket, now);
        entries := entries[key := e];
      }
      lim := entries[key].lim;
    }

    method Request(key: string, now: real) returns (ok: bool)
      requires Valid()
      modifies this, Owned(key)
      ensures Valid() && fresh(Owned(key) - old(Owned(key)))
      ensures entries.Keys == old(entries).Keys + {key} && forall k :: k in old(entries) ==> entries[k] == old(entries[k])
      ensures (View(), ok) == Admit(limit, old(View()), key, now) && entries[key].lastSeen == now
    {
      hide BucketOf, Allow;
      ghost var before := View();
      var lim := Get(key, now);
      ok := lim.Take(now);
      OneChanged(before, View(), key);
      assert View()[key] == Entry(lim.View(), now);
    }

    method Evict(read: real)
      requires Valid()
      modifies this
      ensures Valid() && Repr() <= old(Repr())
      ensures View() == Evicted(old(View()), read)
      ensures forall k :: k in entries <==> k in old(entries) && read - 600.0 <= old(entries[k].lastSeen)
      ensures forall k :: k in entries ==> entries[k] == old(entries[k])
    {
      var todo := entries.Keys;
      while todo != {}
        invariant Valid() && todo <= old(entries).Keys && entries.Keys <= old(entries).Keys
        invariant forall k :: k in entries ==> entries[k] == old(entries[k])
        invariant forall k :: k in old(entries) ==> (k in entries <==> k in todo || !Stale(old(View())[k], read))
        decreases todo
      {
        var k :| k in todo;
        if entries[k].lastSeen < read - TTL {
          entries := entries - {k};
        }
        todo := todo - {k};
      }
    }
  }

  // ── Runs, with and without eviction ────────────────────────────────────────────────

  // The eviction loop reads the clock before it takes the mutex.
  datatype Event = Request(key: string, now: real) | Evict(read: real, now: real)

  function Next(l: Limit, evicts: bool, m: Entries, e: Event): Entries {
    match e
    case Request(key, now) => Admit(l, m, key, now).0
    case Evict(read, _) => if evicts then Evicted(m, read) else m
  }

  function After(l: Limit, evicts: bool, m: Entries, es: seq<Event>): Entries
    decreases |es|
  {
    if es == [] then m else After(l, evicts, Next(l, evicts, m, es[0]), es[1..])
  }

  function Answer(l: Limit, m: Entries, e: Event): seq<(string, bool)> {
    match e
    case Request(key, now) => [(key, Admit(l, m, key, now).1)]
    case Evict(_, _) => []
  }

  // Who asked and was admitted, in order.
  function Trace(l: Limit, evicts: bool, m: Entries, es: seq<Event>): seq<(string, bool)>
    decreases |es|
  {
    if es == [] then [] else Answer(l, m, es[0]) + Trace(l, evicts, Next(l, evicts, m, es[0]), es[1..])
  }

  // The clock never runs backwards, and an eviction uses a reading that may be old.
  predicate Ordered(clock: real, es: seq<Event>)
    decreases |es|
  {
    es == [] || (clock <= es[0].now && (es[0].Evict? ==> es[0].read <= es[0].now) && Ordered(es[0].now, es[1..]))
  }

  // ── Eviction is not noticed ────────────────────────────────────────────────────────

  // Ten minutes are enough to fill a bucket, or no request is ever admitted.
  predicate Suits(l: Limit) {
    l.burst < 1 || (l.rate > 0.0 && l.burst as real <= l.rate * 600.0)
  }

  predicate Full(l: Limit, b: Bucket, t: real) {
    Available(l, b, t) == l.burst as real
  }

  function Floor(l: Limit): real {
    if l.burst < 0 then l.burst as real else 0.0
  }

  predicate Sound(l: Limit, e: Entry) {
    Floor(l) <= e.bucket.tokens && (e.bucket.last <= e.lastSeen || e.bucket.tokens >= l.burst as real)
  }

  predicate Same(l: Limit, a: Bucket, b: Bucket, clock: real) {
    a == b || (Full(l, a, clock) && Full(l, b, clock))
  }

  // The evicting table m against the table n that never forgets.
  predicate KnownAlike(l: Limit, m: Entries, n: Entries, clock: real, key: string) {
    if key in m then
      key in n && m[key].lastSeen <= clock && Sound(l, m[key]) && Same(l, m[key].bucket, n[key].bucket, clock)
    else key in n ==> Full(l, n[key].bucket, clock)
  }

  ghost predicate Alike(l: Limit, m: Entries, n: Entries, clock: real) {
    forall key: string :: KnownAlike(l, m, n, clock, key)
  }

  lemma GainGrows(l: Limit, a: real, b: real)
    requires 0.0 <= a <= b
    ensures 0.0 <= Gain(l, a) <= Gain(l, b)
  {
    if l.rate > 0.0 {
      assert l.rate * b == l.rate * a + l.rate * (b - a);
    }
  }

  lemma GainIs(l: Limit, seconds: real)
    ensures Gain(l, seconds) == if l.rate > 0.0 then l.rate * seconds else 0.0
  {
  }

  lemma SuitsIs(l: Limit)
    ensures Suits(l) <==> l.burst < 1 || l.burst as real <= Gain(l, TTL)
  {
  }

  lemma GainAdds(l: Limit, a: real, b: real)
    ensures Gain(l, a) + Gain(l, b) == Gain(l, a + b)
  {
  }

  lemma StaysFull(l: Limit, b: Bucket, t: real, u: real)
    requires Full(l, b, t) && t <= u
    ensures Full(l, b, u)
  {
    hide Gain;
    GainGrows(l, 0.0, 0.0);
    GainGrows(l, if t < b.last then 0.0 else t - b.last, if u < b.last then 0.0 else u - b.last);
  }

  lemma StaleIsFull(l: Limit, e: Entry, read: real, clock: real)
    requires Suits(l) && Sound(l, e) && Stale(e, read) && read <= clock
    ensures Full(l, e.bucket, clock)
  {
    SuitsIs(l);
    hide Gain, Suits;
    var waited := if clock < e.bucket.last then 0.0 else clock - e.bucket.last;
    GainGrows(l, 0.0, waited);
    if e.bucket.tokens < l.burst as real {
      GainGrows(l, TTL, waited);
    }
  }

  lemma NewIsFull(l: Limit, t: real)
    ensures Full(l, NewBucket(l), t) && Sound(l, Entry(NewBucket(l), t))
  {
    hide Gain;
    GainGrows(l, 0.0, if t < ZERO_TIME then 0.0 else t - ZERO_TIME);
  }

  lemma SameLater(l: Limit, a: Bucket, b: Bucket, t: real, u: real)
    requires Same(l, a, b, t) && t <= u
    ensures Same(l, a, b, u)
  {
    if a != b {
      StaysFull(l, a, t, u);
      StaysFull(l, b, t, u);
    }
  }

  lemma AllowSame(l: Limit, a: Bucket, b: Bucket, t: real)
    requires Same(l, a, b, t)
    ensures Allow(l, a, t).1 == Allow(l, b, t).1 && Same(l, Allow(l, a, t).0, Allow(l, b, t).0, t)
  {
    hide Gain;
  }

  lemma AllowSound(l: Limit, e: Entry, t: real)
    requires Sound(l, e) && e.lastSeen <= t
    ensures Sound(l, Entry(e.bucket, t)) && Sound(l, Entry(Allow(l, e.bucket, t).0, t))
  {
    hide Gain, Available;
  }

  lemma KnownLater(l: Limit, m: Entries, n: Entries, clock: real, now: real, key: string)
    requires Alike(l, m, n, clock) && clock <= now
    ensures KnownAlike(l, m, n, now, key)
  {
    hide Full, Sound;
    assert KnownAlike(l, m, n, clock, key);
    if key in m {
      SameLater(l, m[key].bucket, n[key].bucket, clock, now);
    } else if key in n {
      StaysFull(l, n[key].bucket, clock, now);
    }
  }

  lemma AdmitAlike(l: Limit, m: Entries, n: Entries, clock: real, key: string, now: real)
    requires Alike(l, m, n, clock) && clock <= now
    ensures Admit(l, m, key, now).1 == Admit(l, n, key, now).1
    ensures Alike(l, Admit(l, m, key, now).0, Admit(l, n, key, now).0, now)
  {
    hide Full, Sound, Allow, NewBucket;
    NewIsFull(l, now);
    KnownLater(l, m, n, clock, now, key);
    AllowSame(l, BucketOf(l, m, key), BucketOf(l, n, key), now);
    AllowSound(l, if key in m then m[key] else Entry(NewBucket(l), now), now);
    forall k: string
      ensures KnownAlike(l, Admit(l, m, key, now).0, Admit(l, n, key, now).0, now, k)
    {
      KnownLater(l, m, n, clock, now, k);
    }
  }

  lemma EvictAlike(l: Limit, m: Entries, n: Entries, clock: real, read: real, now: real)
    requires Suits(l) && Alike(l, m, n, clock) && clock <= now && read <= now
    ensures Alike(l, Evicted(m, read), n, now)
  {
    hide Full, Sound, Suits;
    forall k: string
      ensures KnownAlike(l, Evicted(m, read), n, now, k)
    {
      KnownLater(l, m, n, clock, now, k);
      if k in m && Stale(m[k], read) {
        StaleIsFull(l, m[k], read, now);
      }
    }
  }

  lemma {:induction false} TracesAlike(l: Limit, m: Entries, n: Entries, clock: real, es: seq<Event>)
    requires Suits(l) && Alike(l, m, n, clock) && Ordered(clock, es)
    ensures Trace(l, true, m, es) == Trace(l, false, n, es)
    decreases |es|
  {
    hide Alike, Admit, Suits;
    if es != [] {
      match es[0] {
        case Request(key, now) => AdmitAlike(l, m, n, clock, key, now);
        case Evict(read, now) => EvictAlike(l, m, n, clock, read, now);
      }
      TracesAlike(l, Next(l, true, m, es[0]), Next(l, false, n, es[0]), es[0].now, es[1..]);
    }
  }

  lemma {:induction false} RunSplits(l: Limit, evicts: bool, m: Entries, es: seq<Event>, fs: seq<Event>)
    ensures After(l, evicts, m, es + fs) == After(l, evicts, After(l, evicts, m, es), fs)
    ensures Trace(l, evicts, m, es + fs) == Trace(l, evicts, m, es) + Trace(l, evicts, After(l, evicts, m, es), fs)
    decreases |es|
  {
    hide Next, Answer;
    if es == [] {
      assert es + fs == fs;
    } else {
      assert (es + fs)[1..] == es[1..] + fs;
      RunSplits(l, evicts, Next(l, evicts, m, es[0]), es[1..], fs);
    }
  }

  // ── What an eviction can give away ─────────────────────────────────────────────────

  function Repeat<T>(x: T, n: nat): seq<T> {
    if n == 0 then [] else [x] + Repeat(x, n - 1)
  }

  function TokensOf(l: Limit, m: Entries, key: string, t: real): real {
    Available(l, BucketOf(l, m, key), t)
  }

  lemma AdmitOne(l: Limit, m: Entries, key: string, t: real)
    ensures Admit(l, m, key, t).1 <==> TokensOf(l, m, key, t) >= 1.0
    ensures Admit(l, m, key, t).1 ==> TokensOf(l, Admit(l, m, key, t).0, key, t) == TokensOf(l, m, key, t) - 1.0
    ensures !Admit(l, m, key, t).1 ==> TokensOf(l, Admit(l, m, key, t).0, key, t) == TokensOf(l, m, key, t)
  {
  }

  lemma ConsEqual<T>(x: T, xs: seq<T>, y: T, ys: seq<T>)
    ensures [x] + xs == [y] + ys <==> x == y && xs == ys
  {
    if [x] + xs == [y] + ys {
      assert ([x] + xs)[1..] == xs && ([y] + ys)[1..] == ys;
      assert ([x] + xs)[0] == x && ([y] + ys)[0] == y;
    }
  }

  // n requests of one client at one instant are all admitted exactly when its bucket holds n tokens.
  lemma {:induction false} Drain(l: Limit, evicts: bool, m: Entries, key: string, t: real, n: nat)
    ensures Trace(l, evicts, m, Repeat(Request(key, t), n)) == Repeat((key, true), n) <==>
            n == 0 || n as real <= TokensOf(l, m, key, t)
    ensures n as real <= TokensOf(l, m, key, t) ==>
            TokensOf(l, After(l, evicts, m, Repeat(Request(key, t), n)), key, t) == TokensOf(l, m, key, t) - n as real
    decreases n
  {
    hide TokensOf, Admit;
    if n != 0 {
      var m' := Admit(l, m, key, t).0;
      AdmitOne(l, m, key, t);
      assert Repeat(Request(key, t), n)[1..] == Repeat(Request(key, t), n - 1);
      Drain(l, evicts, m', key, t, n - 1);
      assert Repeat((key, true), n)[1..] == Repeat((key, true), n - 1);
      ConsEqual((key, Admit(l, m, key, t).1), Trace(l, evicts, m', Repeat(Request(key, t), n - 1)),
                (key, true), Repeat((key, true), n - 1));
    }
  }

  lemma AvailableGrows(l: Limit, b: Bucket, t: real, u: real)
    requires t <= u
    ensures Available(l, b, u) <= Available(l, b, t) + Gain(l, u - t)
  {
    hide Gain;
    var x, y := if t < b.last then 0.0 else t - b.last, if u < b.last then 0.0 else u - b.last;
    GainGrows(l, y - x, u - t);
    GainAdds(l, x, y - x);
  }

  lemma HalfWay(rate: real, burst: real)
    requires rate > 0.0 && rate * 600.0 < burst
    ensures var t := (600.0 + burst / rate) / 2.0; 600.0 < t && rate * t < burst
  {
    var fill := burst / rate;
    assert rate * fill == burst;
    assert rate * (fill - 600.0) > 0.0;
    assert rate * (fill + 600.0) == burst + rate * 600.0;
  }

  // An absence that is long enough to be forgotten but too short to fill the bucket.
  function Absence(l: Limit): (t: real)
    requires !Suits(l)
    ensures TTL < t && Gain(l, t) < l.burst as real
  {
    if l.rate <= 0.0 then TTL + 1.0
    else
      HalfWay(l.rate, l.burst as real);
      (600.0 + l.burst as real / l.rate) / 2.0
  }

  function Spend(l: Limit, key: string, t: real): seq<Event>
    requires !Suits(l)
  {
    Repeat(Request(key, t), l.burst)
  }

  // A client spends its burst, stays away until it is forgotten, and spends another.
  function ComeBack(l: Limit, key: string): seq<Event>
    requires !Suits(l)
  {
    Spend(l, key, ZERO_TIME) + ([Evict(Absence(l), Absence(l))] + Spend(l, key, Absence(l)))
  }

  lemma {:induction false} SpendKeepsTime(l: Limit, m: Entries, key: string, t: real, n: nat)
    requires forall k :: k in m ==> m[k].lastSeen <= t
    ensures forall k :: k in After(l, true, m, Repeat(Request(key, t), n)) ==>
              After(l, true, m, Repeat(Request(key, t), n))[k].lastSeen <= t
    decreases n
  {
    hide Allow;
    if n != 0 {
      assert Repeat(Request(key, t), n)[1..] == Repeat(Request(key, t), n - 1);
      SpendKeepsTime(l, Admit(l, m, key, t).0, key, t, n - 1);
    }
  }

  lemma {:induction false} SpendOrdered(key: string, t: real, n: nat, rest: seq<Event>)
    requires Ordered(t, rest)
    ensures Ordered(t, Repeat(Request(key, t), n) + rest)
    decreases n
  {
    var es := Repeat(Request(key, t), n) + rest;
    if n == 0 {
      assert es == rest;
    } else {
      assert es[1..] == Repeat(Request(key, t), n - 1) + rest;
      SpendOrdered(key, t, n - 1, rest);
    }
  }

  lemma ComeBackOrdered(l: Limit, key: string)
    requires !Suits(l)
    ensures Ordered(ZERO_TIME, ComeBack(l, key))
  {
    var t := Absence(l);
    SpendOrdered(key, t, l.burst, []);
    assert Spend(l, key, t) + [] == Spend(l, key, t);
    var rest := [Evict(t, t)] + Spend(l, key, t);
    assert rest[1..] == Spend(l, key, t);
    SpendOrdered(key, ZERO_TIME, l.burst, rest);
  }

  function Granted(l: Limit, key: string): seq<(string, bool)>
    requires !Suits(l)
  {
    Repeat((key, true), l.burst)
  }

  lemma FirstVisit(l: Limit, evicts: bool, key: string)
    requires !Suits(l)
    ensures TokensOf(l, After(l, evicts, map[], Spend(l, key, ZERO_TIME)), key, ZERO_TIME) == 0.0
    ensures var m := Next(l, evicts, After(l, evicts, map[], Spend(l, key, ZERO_TIME)), Evict(Absence(l), Absence(l)));
            Trace(l, evicts, map[], ComeBack(l, key)) == Granted(l, key) + Trace(l, evicts, m, Spend(l, key, Absence(l)))
  {
    hide Available, Next;
    var t := Absence(l);
    NewIsFull(l, ZERO_TIME);
    Drain(l, evicts, map[], key, ZERO_TIME, l.burst);
    RunSplits(l, evicts, map[], Spend(l, key, ZERO_TIME), [Evict(t, t)] + Spend(l, key, t));
    assert ([Evict(t, t)] + Spend(l, key, t))[1..] == Spend(l, key, t);
  }

  lemma ComeBackForgotten(l: Limit, key: string)
    requires !Suits(l)
    ensures Trace(l, true, map[], ComeBack(l, key)) == Granted(l, key) + Granted(l, key)
  {
    hide Available, Absence;
    var t := Absence(l);
    FirstVisit(l, true, key);
    SpendKeepsTime(l, map[], key, ZERO_TIME, l.burst);
    assert Evicted(After(l, true, map[], Spend(l, key, ZERO_TIME)), t) == map[];
    NewIsFull(l, t);
    Drain(l, true, map[], key, t, l.burst);
  }

  lemma ComeBackRemembered(l: Limit, key: string)
    requires !Suits(l)
    ensures Trace(l, false, map[], ComeBack(l, key)) != Granted(l, key) + Granted(l, key)
  {
    hide Available, Absence;
    var t := Absence(l);
    FirstVisit(l, false, key);
    var kept := After(l, false, map[], Spend(l, key, ZERO_TIME));
    AvailableGrows(l, BucketOf(l, kept, key), ZERO_TIME, t);
    Drain(l, false, kept, key, t, l.burst);
    if Trace(l, false, map[], ComeBack(l, key)) == Granted(l, key) + Granted(l, key) {
      SplitFront(Granted(l, key), Trace(l, false, kept, Spend(l, key, t)), Granted(l, key), Granted(l, key));
    }
  }

  /** Eviction changes no answer, whatever clients ask and whenever it runs, exactly when the
      time to live fills a bucket. */
  lemma EvictionUnseenExactlyWhen(l: Limit)
    ensures (forall es :: Ordered(ZERO_TIME, es) ==> Trace(l, true, map[], es) == Trace(l, false, map[], es)) <==> Suits(l)
  {
    if Suits(l) {
      forall es | Ordered(ZERO_TIME, es)
        ensures Trace(l, true, map[], es) == Trace(l, false, map[], es)
      {
        TracesAlike(l, map[], map[], ZERO_TIME, es);
      }
    } else {
      ComeBackOrdered(l, "");
      ComeBackForgotten(l, "");
      ComeBackRemembered(l, "");
    }
  }

  // ── The admission bound ────────────────────────────────────────────────────────────

  function Admitted(trace: seq<(string, bool)>, key: string): nat {
    multiset(trace)[(key, true)]
  }

  predicate Within(es: seq<Event>, t: real) {
    forall e :: e in es ==> e.now <= t
  }

  lemma AdmittedAdds(a: seq<(string, bool)>, b: seq<(string, bool)>, key: string)
    ensures Admitted(a + b, key) == Admitted(a, key) + Admitted(b, key)
  {
  }

  // The tokens cover one event and what can be bought after it.
  lemma OneEventPays(l: Limit, m: Entries, e: Event, key: string, t0: real, t1: real)
    requires t0 <= e.now <= t1
    ensures var m', n := Next(l, false, m, e), Admitted(Answer(l, m, e), key);
            && n as real + TokensOf(l, m', key, e.now) + Gain(l, t1 - e.now) <= TokensOf(l, m, key, t0) + Gain(l, t1 - t0)
            && (n == 0 || n as real <= TokensOf(l, m, key, t0) + Gain(l, t1 - t0))
  {
    hide Available, Gain, Allow;
    AvailableGrows(l, BucketOf(l, m, key), t0, e.now);
    GainAdds(l, e.now - t0, t1 - e.now);
    GainGrows(l, 0.0, t1 - e.now);
    if e.Request? && e.key == key {
      AdmitOne(l, m, key, e.now);
    }
  }

  lemma EmptyTrace(key: string)
    ensures Admitted([], key) == 0
  {
  }

  lemma {:induction false} TokensPay(l: Limit, m: Entries, es: seq<Event>, key: string, t0: real, t1: real)
    requires Ordered(t0, es) && Within(es, t1) && t0 <= t1
    ensures var n := Admitted(Trace(l, false, m, es), key);
            n == 0 || n as real <= TokensOf(l, m, key, t0) + Gain(l, t1 - t0)
    decreases |es|
  {
    hide TokensOf, Gain, Next, Answer, Admitted;
    if es == [] {
      assert Admitted([], key) == 0 by { EmptyTrace(key); }
    } else {
      var m' := Next(l, false, m, es[0]);
      TokensPay(l, m', es[1..], key, es[0].now, t1);
      AdmittedAdds(Answer(l, m, es[0]), Trace(l, false, m', es[1..]), key);
      OneEventPays(l, m, es[0], key, t0, t1);
    }
  }

  /** A never-evicting limiter pays for every admission from the client's tokens and what the
      rate adds over the span. */
  lemma BucketPays(l: Limit, m: Entries, es: seq<Event>, key: string, t0: real, t1: real)
    requires Ordered(t0, es) && Within(es, t1) && t0 <= t1
    ensures var n := Admitted(Trace(l, false, m, es), key);
            n == 0 || n as real <= TokensOf(l, m, key, t0) + if l.rate > 0.0 then l.rate * (t1 - t0) else 0.0
  {
    hide Gain, TokensOf, Trace, Admitted, Ordered, Within;
    TokensPay(l, m, es, key, t0, t1);
    var span := t1 - t0;
    GainIs(l, span);
  }

  lemma {:induction false} NobodyAdmitted(l: Limit, m: Entries, es: seq<Event>, key: string)
    ensures l.burst < 1 ==> Admitted(Trace(l, false, m, es), key) == 0
    decreases |es|
  {
    if es != [] {
      NobodyAdmitted(l, Next(l, false, m, es[0]), es[1..], key);
      AdmittedAdds(Answer(l, m, es[0]), Trace(l, false, Next(l, false, m, es[0]), es[1..]), key);
    }
  }

  // A span from t0 to t1, after any history.
  predicate Span(before: seq<Event>, es: seq<Event>, t0: real, t1: real) {
    Ordered(ZERO_TIME, before + es) && Within(before, t0) && Ordered(t0, es) && Within(es, t1) && t0 <= t1
  }

  function AdmittedIn(l: Limit, before: seq<Event>, es: seq<Event>, key: string): nat {
    Admitted(Trace(l, true, After(l, true, map[], before), es), key)
  }

  // In every span of every history a client is admitted at most so many times.
  ghost predicate SpanBounded(l: Limit, burst: real, rate: real) {
    forall before, es, key, t0, t1 :: Span(before, es, t0, t1) ==> AdmittedIn(l, before, es, key) as real <= burst + rate * (t1 - t0)
  }

  // The burst and the rate of admissions; a bucket without room admits nothing.
  function Burst(l: Limit): real {
    if l.burst < 1 then 0.0 else l.burst as real
  }

  function Rate(l: Limit): real {
    if l.burst < 1 || l.rate <= 0.0 then 0.0 else l.rate
  }

  lemma CapIs(l: Limit, seconds: real)
    ensures l.burst >= 1 ==> l.burst as real + Gain(l, seconds) == Burst(l) + Rate(l) * seconds
    ensures l.burst < 1 ==> Burst(l) + Rate(l) * seconds == 0.0
  {
  }

  lemma {:induction false} AdmittedRepeat(key: string, n: nat)
    ensures Admitted(Repeat((key, true), n), key) == n
  {
    if n != 0 {
      AdmittedRepeat(key, n - 1);
      AdmittedAdds([(key, true)], Repeat((key, true), n - 1), key);
    }
  }

  lemma {:induction false} OrderedPrefix(clock: real, es: seq<Event>, fs: seq<Event>)
    requires Ordered(clock, es + fs)
    ensures Ordered(clock, es)
    decreases |es|
  {
    if es != [] {
      assert (es + fs)[1..] == es[1..] + fs;
      OrderedPrefix(es[0].now, es[1..], fs);
    }
  }

  // After any history, the evicting limiter answers as the one that remembers everything.
  lemma SuffixAlike(l: Limit, before: seq<Event>, es: seq<Event>)
    requires Suits(l) && Ordered(ZERO_TIME, before + es)
    ensures Trace(l, true, After(l, true, map[], before), es) == Trace(l, false, After(l, false, map[], before), es)
  {
    hide Suits;
    TracesAlike(l, map[], map[], ZERO_TIME, before + es);
    OrderedPrefix(ZERO_TIME, before, es);
    TracesAlike(l, map[], map[], ZERO_TIME, before);
    RunSplits(l, true, map[], before, es);
    RunSplits(l, false, map[], before, es);
    SplitFront(Trace(l, true, map[], before), Trace(l, true, After(l, true, map[], before), es),
               Trace(l, false, map[], before), Trace(l, false, After(l, false, map[], before), es));
  }

  lemma SpanPays(l: Limit, before: seq<Event>, es: seq<Event>, key: string, t0: real, t1: real)
    requires Suits(l) && Span(before, es, t0, t1)
    ensures AdmittedIn(l, before, es, key) as real <= Burst(l) + Rate(l) * (t1 - t0)
  {
    hide Suits, Available, Trace, After, Ordered, Admitted, Gain, Burst, Rate;
    SuffixAlike(l, before, es);
    TokensPay(l, After(l, false, map[], before), es, key, t0, t1);
    GainGrows(l, 0.0, t1 - t0);
    NobodyAdmitted(l, After(l, false, map[], before), es, key);
    CapIs(l, t1 - t0);
    if l.burst >= 1 {
      assert AdmittedIn(l, before, es, key) as real <= l.burst as real + Gain(l, t1 - t0);
    }
  }

  lemma {:induction false} SpendAt(key: string, t: real, n: nat)
    ensures forall e :: e in Repeat(Request(key, t), n) ==> e.now == t
  {
    if n != 0 {
      SpendAt(key, t, n - 1);
    }
  }

  lemma ComeBackWithin(l: Limit, key: string)
    requires !Suits(l)
    ensures Within(ComeBack(l, key), Absence(l))
  {
    SpendAt(key, ZERO_TIME, l.burst);
    SpendAt(key, Absence(l), l.burst);
  }

  lemma ComeBackOverdraws(l: Limit, key: string)
    requires !Suits(l)
    ensures Span([], ComeBack(l, key), ZERO_TIME, Absence(l))
    ensures AdmittedIn(l, [], ComeBack(l, key), key) as real > Burst(l) + Rate(l) * (Absence(l) - ZERO_TIME)
  {
    hide Trace, Admitted, Spend, Absence, Gain, Burst, Rate;
    ComeBackOrdered(l, key);
    ComeBackForgotten(l, key);
    AdmittedAdds(Granted(l, key), Granted(l, key), key);
    AdmittedRepeat(key, l.burst);
    ComeBackWithin(l, key);
    assert [] + ComeBack(l, key) == ComeBack(l, key) && After(l, true, map[], []) == map[];
    CapIs(l, Absence(l));
    assert Absence(l) - ZERO_TIME == Absence(l);
  }

  /** Across evictions, a client is admitted at most its burst plus the rate times the span,
      in every span of every history, exactly when the time to live fills a bucket. */
  lemma SpanBoundedExactlyWhen(l: Limit)
    ensures SpanBounded(l, Burst(l), Rate(l)) <==> Suits(l)
  {
    hide Suits, Span, AdmittedIn, Burst, Rate;
    if Suits(l) {
      forall before, es, key, t0, t1 | Span(before, es, t0, t1)
        ensures AdmittedIn(l, before, es, key) as real <= Burst(l) + Rate(l) * (t1 - t0)
      {
        SpanPays(l, before, es, key, t0, t1);
      }
    } else {
      ComeBackOverdraws(l, "");
    }
  }

  /** The documented limit per address, 60 requests a second with a burst of 120, holds. */
  lemma AddressLimitBounded()
    ensures forall before, es, key, t0, t1 :: Span(before, es, t0, t1) ==>
              AdmittedIn(Limit(60.0, 120), before, es, key) as real <= 120.0 + 60.0 * (t1 - t0)
  {
    hide Span, AdmittedIn;
    SpanBoundedExactlyWhen(Limit(60.0, 120));
  }

  /** So does the limit per customer, 30 requests a second with a burst of 60. */
  lemma CustomerLimitBounded()
    ensures forall before, es, key, t0, t1 :: Span(before, es, t0, t1) ==>
              AdmittedIn(Limit(30.0, 60), before, es, key) as real <= 60.0 + 30.0 * (t1 - t0)
  {
    hide Span, AdmittedIn;
    SpanBoundedExactlyWhen(Limit(30.0, 60));
  }

  // ── What a client is sure to get ───────────────────────────────────────────────────

  // Admitted requests of one instant leave the bucket at that instant.
  lemma {:induction false} DrainLeaves(l: Limit, evicts: bool, m: Entries, key: string, t: real, n: nat)
    requires 1 <= n && n as real <= TokensOf(l, m, key, t)
    ensures var b := BucketOf(l, After(l, evicts, m, Repeat(Request(key, t), n)), key);
            b.last == t && b.tokens == TokensOf(l, m, key, t) - n as real
    decreases n
  {
    hide Available, Gain;
    var m' := Admit(l, m, key, t).0;
    AdmitOne(l, m, key, t);
    assert Repeat(Request(key, t), n)[1..] == Repeat(Request(key, t), n - 1);
    if n > 1 {
      DrainLeaves(l, evicts, m', key, t, n - 1);
    } else {
      assert Repeat(Request(key, t), 0) == [];
    }
  }

  lemma {:induction false} RepeatLength<T>(x: T, n: nat)
    ensures |Repeat(x, n)| == n
  {
    if n != 0 {
      RepeatLength(x, n - 1);
    }
  }

  lemma {:induction false} RepeatAdds<T>(x: T, m: nat, n: nat)
    ensures Repeat(x, m + n) == Repeat(x, m) + Repeat(x, n)
  {
    if m != 0 {
      RepeatAdds(x, m - 1, n);
    }
  }

  // A client spends its burst at one instant and asks n times at a later one.
  function SpendThenAsk(key: string, burst: nat, t0: real, t1: real, n: nat): seq<Event> {
    Repeat(Request(key, t0), burst) + Repeat(Request(key, t1), n)
  }

  lemma EmptyBucket(l: Limit, b: Bucket, t0: real, t1: real)
    requires b == Bucket(0.0, t0) && t0 <= t1 && 1 <= l.burst
    ensures var gained := if l.rate > 0.0 then l.rate * (t1 - t0) else 0.0;
            Available(l, b, t1) == if gained > l.burst as real then l.burst as real else gained
  {
  }

  /** A new client is admitted its whole burst at once; of n requests at a later instant all
      are admitted exactly when they are no more than the burst and than the rate times the
      time in between: the bucket refills at the rate, no faster and no slower. */
  lemma RefillExactly(l: Limit, key: string, t0: real, t1: real, n: nat)
    requires 1 <= l.burst && ZERO_TIME <= t0 <= t1
    ensures Trace(l, true, map[], SpendThenAsk(key, l.burst, t0, t1, n)) == Repeat((key, true), l.burst + n) <==>
            n == 0 || (n <= l.burst && l.rate > 0.0 && n as real <= l.rate * (t1 - t0))
  {
    hide Available, Admit, Trace, After;
    var first, second := Repeat(Request(key, t0), l.burst), Repeat(Request(key, t1), n);
    NewIsFull(l, t0);
    Drain(l, true, map[], key, t0, l.burst);
    DrainLeaves(l, true, map[], key, t0, l.burst);
    RunSplits(l, true, map[], first, second);
    var m := After(l, true, map[], first);
    Drain(l, true, m, key, t1, n);
    EmptyBucket(l, BucketOf(l, m, key), t0, t1);
    RepeatAdds((key, true), l.burst, n);
    if Trace(l, true, map[], first + second) == Repeat((key, true), l.burst + n) {
      SplitFront(Repeat((key, true), l.burst), Trace(l, true, m, second), Repeat((key, true), l.burst), Repeat((key, true), n));
    }
  }
}
