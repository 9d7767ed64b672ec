/** Object storage with failover: one call on a list of providers, any of which may fail,
    or take effect and still report an error. */
module ObjectStore {
  import opened Base
  import opened Blob

  type Objects = map<string, Bytes>

  // The first provider that answers; |faults| when none does.
  function FirstSuccess(faults: seq<Outcome>): (i: nat)
    ensures i <= |faults|
    ensures i < |faults| ==> faults[i] == Success
    ensures forall k :: 0 <= k < i ==> faults[k] != Success
  {
    if faults == [] || faults[0] == Success then 0 else 1 + FirstSuccess(faults[1..])
  }

  // No provider before this one has answered.
  predicate TriedAt(faults: seq<Outcome>, p: nat)
    requires p < |faults|
  {
    forall k :: 0 <= k < p ==> faults[k] != Success
  }

  // The providers up to and including the first success are tried, no other.
  function PutAll(stores: seq<Objects>, faults: seq<Outcome>, key: string, blob: Bytes): seq<Objects>
    requires |faults| == |stores|
  {
    seq(|stores|, i requires 0 <= i < |stores| =>
      if i <= FirstSuccess(faults) && faults[i] != Failure then stores[i][key := blob] else stores[i])
  }

  // Every provider is tried.
  function DeleteAll(stores: seq<Objects>, faults: seq<Outcome>, key: string): seq<Objects>
    requires |faults| == |stores|
  {
    seq(|stores|, i requires 0 <= i < |stores| => if faults[i] != Failure then stores[i] - {key} else stores[i])
  }

  // DeleteObject reports an error only when there are providers and all of them failed.
  predicate DeleteOk(faults: seq<Outcome>) {
    faults == [] || Success in faults
  }

  predicate Readable(c: Codec, objects: Objects, fault: Outcome, key: string) {
    fault == Success && key in objects && c.gunzip(objects[key]).Some?
  }

  // The bytes of the first provider that can deliver the object.
  function GetFirst(c: Codec, stores: seq<Objects>, faults: seq<Outcome>, key: string): Option<Bytes>
    requires |faults| == |stores|
  {
    if stores == [] then None
    else if Readable(c, stores[0], faults[0], key) then c.gunzip(stores[0][key])
    else GetFirst(c, stores[1..], faults[1..], key)
  }

  // Provider i delivers the object, and none before it does.
  predicate FirstReadable(c: Codec, stores: seq<Objects>, faults: seq<Outcome>, key: string, i: nat)
    requires |faults| == |stores|
  {
    i < |stores| && Readable(c, stores[i], faults[i], key) && forall k :: 0 <= k < i ==> !Readable(c, stores[k], faults[k], key)
  }

  lemma {:induction false} GetFirstSource(c: Codec, stores: seq<Objects>, faults: seq<Outcome>, key: string)
    requires |faults| == |stores|
    ensures match GetFirst(c, stores, faults, key)
            case None => forall i :: 0 <= i < |stores| ==> !Readable(c, stores[i], faults[i], key)
            case Some(data) => exists i: nat :: FirstReadable(c, stores, faults, key, i) && c.gunzip(stores[i][key]) == Some(data)
  {
    if stores != [] && Readable(c, stores[0], faults[0], key) {
      assert FirstReadable(c, stores, faults, key, 0);
    }
    if stores != [] && !Readable(c, stores[0], faults[0], key) {
      GetFirstSource(c, stores[1..], faults[1..], key);
      if GetFirst(c, stores, faults, key).None? {
        forall i | 0 <= i < |stores| ensures !Readable(c, stores[i], faults[i], key) {
          if i != 0 {
            assert !Readable(c, stores[1..][i - 1], faults[1..][i - 1], key);
          }
        }
      } else {
        var i: nat :| FirstReadable(c, stores[1..], faults[1..], key, i) && c.gunzip(stores[1..][i][key]) == GetFirst(c, stores, faults, key);
        forall k | 0 <= k < i + 1 ensures !Readable(c, stores[k], faults[k], key) {
          if k != 0 {
            assert !Readable(c, stores[1..][k - 1], faults[1..][k - 1], key);
          }
        }
        assert FirstReadable(c, stores, faults, key, i + 1);
      }
    }
  }

  lemma PutAllAt(stores: seq<Objects>, faults: seq<Outcome>, key: string, blob: Bytes)
    requires |faults| == |stores|
    ensures var after := PutAll(stores, faults, key, blob);
            && |after| == |stores|
            && (forall p :: 0 <= p < |stores| ==>
                  after[p] == if p <= FirstSuccess(faults) && faults[p] != Failure then stores[p][key := blob] else stores[p])
            && (forall p :: 0 <= p < |stores| ==>
                  after[p] == if TriedAt(faults, p) && faults[p] != Failure then stores[p][key := blob] else stores[p])
  {
    forall p | 0 <= p < |stores| ensures TriedAt(faults, p) <==> p <= FirstSuccess(faults) {
      if TriedAt(faults, p) && FirstSuccess(faults) < p {
        assert faults[FirstSuccess(faults)] == Success;
      }
    }
  }

  // One provider's bucket or directory, seen through the interface that MultiStore calls.
  class Backend {
    const provider: string
    var objects: Objects

    constructor (provider: string)
      ensures objects == map[] && this.provider == provider
    {
      this.provider := provider;
      objects := map[];
    }

    method PutLogs(c: Codec, w: Window, raw: Bytes, logType: string, fault: Outcome) returns (r: Result<Metadata>)
      modifies this
      ensures var (blob, meta) := PrepareBlob(c, raw, w, logType);
              && objects == (if fault == Failure then old(objects) else old(objects)[meta.key := blob])
              && r == (if fault == Success then Ok(meta) else Err("storage: put object"))
    {
      var (blob, meta) := PrepareBlob(c, raw, w, logType);
      if fault == Failure {
        return Err("storage: put object");
      }
      objects := objects[meta.key := blob];
      r := if fault == Success then Ok(meta) else Err("storage: put object");
    }

    method GetLogs(c: Codec, key: string, fault: Outcome) returns (r: Result<Bytes>)
      ensures r.Ok? <==> fault == Success && key in objects && c.gunzip(objects[key]).Some?
      ensures r.Ok? ==> c.gunzip(objects[key]) == Some(r.value)
    {
      if fault != Success {
        return Err("storage: get object");
      }
      if key !in objects {
        return Err("storage: key not found: " + key);
      }
      match c.gunzip(objects[key])
      case None => r := Err("storage: gzip reader");
      case Some(data) => r := Ok(data);
    }

    method DeleteObject(key: string, fault: Outcome) returns (ok: bool)
      modifies this
      ensures objects == if fault == Failure then old(objects) else old(objects) - {key}
      ensures ok <==> fault == Success
    {
      if fault != Failure {
        objects := objects - {key};
      }
      ok := fault == Success;
    }
  }

  // The providers are tried in order, primary first.
  class MultiStore {
    const providers: seq<Backend>

    ghost predicate Valid()
    {
      forall i, j :: 0 <= i < j < |providers| ==> providers[i] != providers[j]
    }

    ghost function View(): (v: seq<Objects>)
      reads providers
      ensures |v| == |providers|
      ensures forall i :: 0 <= i < |v| ==> v[i] == providers[i].objects
    {
      seq(|providers|, i requires 0 <= i < |providers| reads providers => providers[i].objects)
    }

    constructor (providers: seq<Backend>)
      requires forall i, j :: 0 <= i < j < |providers| ==> providers[i] != providers[j]
      ensures Valid() && this.providers == providers
    {
      this.providers := providers;
    }

    method PutLogs(c: Codec, w: Window, raw: Bytes, logType: string, faults: seq<Outcome>)
      returns (r: Result<(Metadata, string)>)
      requires Valid() && |faults| == |providers|
      modifies providers
      ensures var (blob, meta) := PrepareBlob(c, raw, w, logType);
              && View() == PutAll(old(View()), faults, meta.key, blob)
              && (r.Ok? <==> Success in faults)
              && (r.Ok? ==> r.value == (meta, providers[FirstSuccess(faults)].provider))
              && forall p :: 0 <= p < |providers| ==>
                   providers[p].objects == if TriedAt(faults, p) && faults[p] != Failure then old(View())[p][meta.key := blob] else old(View())[p]
    {
      hide PrepareBlob, PutAll, TriedAt;
      ghost var (blob, meta) := PrepareBlob(c, raw, w, logType);
      PutAllAt(View(), faults, meta.key, blob);
      ghost var target := PutAll(View(), faults, meta.key, blob);
      for i := 0 to |providers|
        invariant i <= FirstSuccess(faults)
        invariant forall k :: 0 <= k < i ==> providers[k].objects == target[k]
        invariant forall k :: i <= k < |providers| ==> providers[k].objects == old(View())[k]
      {
        var put := providers[i].PutLogs(c, w, raw, logType, faults[i]);
        if put.Ok? {
          assert View() == target;
          return Ok((put.value, providers[i].provider));
        }
      }
      assert View() == target;
      r := Err("storage: all providers failed");
    }

    method GetLogs(c: Codec, key: string, faults: seq<Outcome>) returns (r: Result<Bytes>)
      requires |faults| == |providers|
      ensures match r
              case Ok(data) => GetFirst(c, View(), faults, key) == Some(data) && exists i: nat :: FirstReadable(c, View(), faults, key, i) && c.gunzip(View()[i][key]) == Some(data)
              case Err(_) => GetFirst(c, View(), faults, key) == None && forall i :: 0 <= i < |providers| ==> !Readable(c, View()[i], faults[i], key)
    {
      ghost var v := View();
      for i := 0 to |providers|
        invariant GetFirst(c, v, faults, key) == GetFirst(c, v[i..], faults[i..], key)
      {
        var got := providers[i].GetLogs(c, key, faults[i]);
        if got.Ok? {
          GetFirstSource(c, v, faults, key);
          return got;
        }
        assert v[i..][1..] == v[i + 1..] && faults[i..][1..] == faults[i + 1..];
      }
      GetFirstSource(c, v, faults, key);
      r := Err("storage: all providers failed or object not found");
    }

    method DeleteObject(key: string, faults: seq<Outcome>) returns (ok: bool)
      requires Valid() && |faults| == |providers|
      modifies providers
      ensures View() == DeleteAll(old(View()), faults, key)
      ensures forall p :: 0 <= p < |providers| ==>
                providers[p].objects == if faults[p] == Failure then old(View())[p] else old(View())[p] - {key}
      ensures ok <==> providers == [] || exists p :: 0 <= p < |providers| && faults[p] == Success
    {
      var successCount := 0;
      ghost var target := DeleteAll(View(), faults, key);
      for i := 0 to |providers|
        invariant 0 <= successCount
        invariant 0 < successCount <==> Success in faults[..i]
        invariant forall k :: 0 <= k < i ==> providers[k].objects == target[k]
        invariant forall k :: i <= k < |providers| ==> providers[k].objects == old(View())[k]
      {
        var deleted := providers[i].DeleteObject(key, faults[i]);
        if deleted {
          successCount := successCount + 1;
        }
        assert faults[..i + 1] == faults[..i] + [faults[i]];
      }
      assert faults[..|providers|] == faults && View() == target;
      ok := !(successCount == 0 && |providers| > 0);
    }
  }

  /** A confirmed put is readable at once from the provider that confirmed it, and the put
      touches no other key on any provider. */
  lemma PutThenGet(c: Codec, stores: seq<Objects>, faults: seq<Outcome>, key: string, raw: Bytes)
    requires Lawful(c) && |faults| == |stores| && Success in faults
    ensures var after, winner := PutAll(stores, faults, key, c.gzip(raw)), FirstSuccess(faults);
            && winner < |after|
            && c.gunzip(after[winner][key]) == Some(raw)
            && forall i, k :: 0 <= i < |after| && k != key ==>
                 (k in after[i] <==> k in stores[i]) && (k in after[i] ==> after[i][k] == stores[i][k])
  {
    var j :| 0 <= j < |faults| && faults[j] == Success;
    assert FirstSuccess(faults) <= j;
  }

  /** Putting the same object again changes nothing on the provider that held it and adds
      at most that one key anywhere: no fault pattern duplicates an object on a provider. */
  lemma PutIdempotent(stores: seq<Objects>, f: seq<Outcome>, g: seq<Outcome>, key: string, blob: Bytes)
    requires |f| == |g| == |stores|
    ensures var once := PutAll(stores, f, key, blob);
            var twice := PutAll(once, g, key, blob);
            forall i :: 0 <= i < |stores| ==>
              && twice[i].Keys <= stores[i].Keys + {key}
              && (twice[i] == stores[i] || twice[i] == stores[i][key := blob])
              && (once[i] == stores[i][key := blob] ==> twice[i] == once[i])
  {
  }

  /** After a confirmed delete some provider no longer holds the object, and every copy
      left lies on a provider whose own delete failed in this call. */
  lemma DeleteResidue(stores: seq<Objects>, faults: seq<Outcome>, key: string)
    requires |faults| == |stores|
    ensures forall i :: 0 <= i < |stores| ==>
              (key in DeleteAll(stores, faults, key)[i] <==> key in stores[i] && faults[i] == Failure)
    ensures DeleteOk(faults) <==> stores == [] || exists i :: 0 <= i < |stores| && faults[i] == Success
    ensures forall i, k :: 0 <= i < |stores| && k != key ==>
              (k in DeleteAll(stores, faults, key)[i] <==> k in stores[i])
  {
  }
}
