/** The key ring that encrypts Cloudflare tokens at rest: the tagged text format, its parser
    and the untagged legacy format, under any rotation of keys. AES-256-GCM is a seal/open
    pair with the law that opening a sealed text gives the plaintext back. */
module Kms {
  import opened Base

  type Octets = s: string | forall c :: c in s ==> c < 256 as char

  datatype Aead = Aead(seal: (Octets, Octets, Octets) -> Octets, open: (Octets, Octets, Octets) -> Option<Octets>)

  const KEY_SIZE := 32
  const NONCE_SIZE := 12

  ghost predicate Lawful(a: Aead) {
    forall key: Octets, nonce: Octets, text: Octets :: |key| == KEY_SIZE && |nonce| == NONCE_SIZE ==>
      a.open(key, nonce, a.seal(key, nonce, text)) == Some(text)
  }

  // ── Hexadecimal text (section 8 of RFC 4648) ───────────────────────────────────────

  const DIGITS := "0123456789abcdef"
  const CAPITALS := "0123456789ABCDEF"

  function Digit(c: char): (r: Option<nat>)
    ensures r.Some? ==> r.value < 16
  {
    if '0' <= c <= '9' then Some((c - '0') as nat)
    else if 'a' <= c <= 'f' then Some((c - 'a') as nat + 10)
    else if 'A' <= c <= 'F' then Some((c - 'A') as nat + 10)
    else None
  }

  function Hex(data: Octets): string {
    if data == [] then []
    else [DIGITS[data[0] as nat / 16], DIGITS[data[0] as nat % 16]] + Hex(data[1..])
  }

  // Upper and lower case digits in pairs; anything else is an error.
  function Unhex(text: string): Option<Octets> {
    if text == [] then Some([])
    else if |text| == 1 || Digit(text[0]).None? || Digit(text[1]).None? then None
    else
      var rest := Unhex(text[2..]);
      if rest.None? then None
      else Some([(Digit(text[0]).value * 16 + Digit(text[1]).value) as char] + rest.value)
  }

  lemma DigitOf(n: nat)
    requires n < 16
    ensures Digit(DIGITS[n]) == Some(n)
  {
  }

  lemma PairOf(c: char)
    requires c < 256 as char
    ensures var n := c as nat; n < 256 && Unhex([DIGITS[n / 16], DIGITS[n % 16]]) == Some([c])
  {
    DigitOf(c as nat / 16);
    DigitOf(c as nat % 16);
    var pair := [DIGITS[c as nat / 16], DIGITS[c as nat % 16]];
    assert pair[2..] == [] && Unhex(pair[2..]) == Some([]);
    assert Digit(pair[0]).value * 16 + Digit(pair[1]).value == c as nat;
    assert [c as nat as char] + [] == [c];
  }

  lemma UnhexPair(pair: string, rest: string)
    requires |pair| == 2 && Unhex(pair).Some? && Unhex(rest).Some?
    ensures Unhex(pair + rest) == Some(Unhex(pair).value + Unhex(rest).value)
  {
    hide Digit;
    assert (pair + rest)[2..] == rest && pair[2..] == [] && Unhex(pair[2..]) == Some([]);
    assert (pair + rest)[0] == pair[0] && (pair + rest)[1] == pair[1];
    var c := (Digit(pair[0]).value * 16 + Digit(pair[1]).value) as char;
    assert Unhex(pair) == Some([c] + []) && [c] + [] == [c];
  }

  lemma {:induction false} HexRoundTrip(data: Octets)
    ensures Unhex(Hex(data)) == Some(data)
  {
    if data != [] {
      var n := data[0] as nat;
      PairOf(data[0]);
      HexRoundTrip(data[1..]);
      UnhexPair([DIGITS[n / 16], DIGITS[n % 16]], Hex(data[1..]));
      assert data == [data[0]] + data[1..];
    }
  }

  // The value of a digit is its place.
  lemma DigitIs(c: char, n: nat)
    ensures Digit(c) == Some(n) <==> n < 16 && (DIGITS[n] == c || CAPITALS[n] == c)
  {
  }

  predicate IsHex(text: string) {
    |text| % 2 == 0 && forall i :: 0 <= i < |text| ==> text[i] in DIGITS || text[i] in CAPITALS
  }

  lemma IsDigit(c: char)
    ensures Digit(c).Some? <==> c in DIGITS || c in CAPITALS
  {
    if Digit(c).Some? {
      DigitIs(c, Digit(c).value);
    } else {
      if c in DIGITS {
        var n :| 0 <= n < 16 && DIGITS[n] == c;
        DigitIs(c, n);
      }
      if c in CAPITALS {
        var n :| 0 <= n < 16 && CAPITALS[n] == c;
        DigitIs(c, n);
      }
    }
  }

  lemma UnhexStep(text: string)
    requires 2 <= |text|
    ensures Unhex(text).Some? <==> Digit(text[0]).Some? && Digit(text[1]).Some? && Unhex(text[2..]).Some?
    ensures Unhex(text).Some? ==>
              Unhex(text).value == [(Digit(text[0]).value * 16 + Digit(text[1]).value) as char] + Unhex(text[2..]).value
  {
    hide Digit;
  }

  lemma HexTail(text: string)
    requires 2 <= |text|
    ensures IsHex(text) <==> Digit(text[0]).Some? && Digit(text[1]).Some? && IsHex(text[2..])
  {
    hide Digit;
    IsDigit(text[0]);
    IsDigit(text[1]);
    assert forall i :: 0 <= i < |text| - 2 ==> text[2..][i] == text[i + 2];
    if IsHex(text[2..]) && Digit(text[0]).Some? && Digit(text[1]).Some? {
      forall i | 0 <= i < |text| ensures text[i] in DIGITS || text[i] in CAPITALS {
        if 2 <= i {
          assert text[i] == text[2..][i - 2];
        }
      }
    }
  }

  /** Text is read as bytes exactly when it consists of pairs of digits. */
  lemma {:induction false} UnhexExactlyWhen(text: string)
    ensures Unhex(text).Some? <==> IsHex(text)
    ensures Unhex(text).Some? ==> |Unhex(text).value| * 2 == |text|
    decreases |text|
  {
    hide Digit;
    if |text| >= 2 {
      UnhexStep(text);
      HexTail(text);
      hide Unhex, IsHex;
      UnhexExactlyWhen(text[2..]);
    }
  }

  /** Each pair is one byte, the high digit first. */
  lemma {:induction false} UnhexByte(text: string, k: nat)
    requires Unhex(text).Some? && 2 * k + 1 < |text|
    ensures k < |Unhex(text).value| && Digit(text[2 * k]).Some? && Digit(text[2 * k + 1]).Some?
    ensures Unhex(text).value[k] as nat == 16 * Digit(text[2 * k]).value + Digit(text[2 * k + 1]).value
    decreases |text|
  {
    UnhexStep(text);
    hide Unhex, Digit;
    if k != 0 {
      UnhexByte(text[2..], k - 1);
    }
  }

  lemma {:induction false} HexHasNoColon(text: string)
    requires Unhex(text).Some?
    ensures ':' !in text
  {
    if text != [] {
      HexHasNoColon(text[2..]);
      assert text == text[..2] + text[2..];
    }
  }

  // ── The ring ───────────────────────────────────────────────────────────────────────

  datatype Keys = Keys(keys: map<string, Octets>, active: string)

  predicate WellFormed(r: Keys) {
    r.active in r.keys && forall id :: id in r.keys ==> |r.keys[id]| == KEY_SIZE
  }

  type Ring = r: Keys | WellFormed(r) witness Keys(map["v1" := "00000000000000000000000000000000"], "v1")

  datatype Fault =
    | KeyNotHex(id: string) | KeyWrongSize(id: string) | ActiveMissing
    | NoEntropy | UnknownKey(id: string) | NotHex | TooShort | NotAuthentic

  datatype Answer<+T> = Good(value: T) | Bad(fault: Fault)

  function DecodeKey(id: string, text: string): (r: Answer<Octets>)
    ensures r.Good? <==> Unhex(text).Some? && |Unhex(text).value| == KEY_SIZE
    ensures r.Good? ==> Unhex(text) == Some(r.value)
  {
    var key := Unhex(text);
    if key.None? then Bad(KeyNotHex(id))
    else if |key.value| != KEY_SIZE then Bad(KeyWrongSize(id))
    else Good(key.value)
  }

  /** A ring is built exactly when every configured key is 32 bytes of hex text and the active
      id is configured; otherwise the fault is that of some key, and a missing active id is
      reported only when no key is at fault. */
  method NewKeyRing(keys: map<string, string>, active: string) returns (r: Answer<Ring>)
    ensures r.Good? <==> active in keys && forall id :: id in keys ==> DecodeKey(id, keys[id]).Good?
    ensures r.Good? ==> r.value.active == active && r.value.keys.Keys == keys.Keys
    ensures r.Good? ==> forall id :: id in keys ==> Unhex(keys[id]) == Some(r.value.keys[id])
    ensures r.Bad? && r.fault != ActiveMissing ==> exists id :: id in keys && DecodeKey(id, keys[id]) == Bad(r.fault)
    ensures r == Bad(ActiveMissing) ==> active !in keys && forall id :: id in keys ==> DecodeKey(id, keys[id]).Good?
  {
    var decoded: map<string, Octets> := map[];
    var todo := keys.Keys;
    while todo != {}
      invariant todo <= keys.Keys && decoded.Keys == keys.Keys - todo
      invariant forall id :: id in decoded ==> DecodeKey(id, keys[id]) == Good(decoded[id])
      decreases todo
    {
      var id :| id in todo;
      var key := DecodeKey(id, keys[id]);
      if key.Bad? {
        return Bad(key.fault);
      }
      decoded := decoded[id := key.value];
      todo := todo - {id};
    }
    if active !in decoded {
      return Bad(ActiveMissing);
    }
    return Good(Keys(decoded, active));
  }

  // One key under the id v1.
  function New(text: string): Answer<Ring> {
    var key := DecodeKey("v1", text);
    if key.Bad? then Bad(key.fault) else Good(Keys(map["v1" := key.value], "v1"))
  }

  // The random source may fail to give a nonce.
  function Encrypt(a: Aead, r: Ring, text: Octets, nonce: Option<Octets>): Answer<string>
    requires nonce.Some? ==> |nonce.value| == NONCE_SIZE
  {
    if nonce.None? then Bad(NoEntropy)
    else Good(r.active + ":" + Hex(nonce.value + a.seal(r.keys[r.active], nonce.value, text)))
  }

  function SplitAtColon(input: string): (r: (string, string))
    requires ':' in input
    ensures ':' !in r.0 && input == r.0 + ":" + r.1
  {
    if input[0] == ':' then ("", input[1..])
    else
      var rest := SplitAtColon(input[1..]);
      ([input[0]] + rest.0, rest.1)
  }

  // The part before the first colon names the key; without a colon the key is v1.
  function Tag(input: string): (string, string) {
    if ':' !in input then ("v1", input) else SplitAtColon(input)
  }

  function Open(a: Aead, r: Ring, id: string, hex: string): Answer<Octets> {
    if id !in r.keys then Bad(UnknownKey(id))
    else
      var data := Unhex(hex);
      if data.None? then Bad(NotHex)
      else if |data.value| < NONCE_SIZE then Bad(TooShort)
      else
        var text := a.open(r.keys[id], data.value[..NONCE_SIZE], data.value[NONCE_SIZE..]);
        if text.None? then Bad(NotAuthentic) else Good(text.value)
  }

  function Decrypted(a: Aead, r: Ring, input: string): Answer<Octets> {
    Open(a, r, Tag(input).0, Tag(input).1)
  }

  // A text has one first colon.
  lemma FirstColon(id: string, hex: string, id': string, hex': string)
    requires ':' !in id && ':' !in id' && id + ":" + hex == id' + ":" + hex'
    ensures id == id' && hex == hex'
  {
    var input, n, m := id + ":" + hex, |id|, |id'|;
    assert input == id' + (":" + hex');
    assert input[n] == ':' && input[m] == ':';
    assert id == input[..n] && id' == input[..m];
    SplitFront(id, ":" + hex, id', ":" + hex');
    SplitFront(":", hex, ":", hex');
  }

  lemma TagIs(input: string, id: string, hex: string)
    requires ':' !in id && input == id + ":" + hex
    ensures Tag(input) == (id, hex)
  {
    assert input[|id|] == ':';
    var t := SplitAtColon(input);
    FirstColon(id, hex, t.0, t.1);
  }

  // How a stored text divides: at its first colon, or into the id v1 and all of it.
  predicate Parts(input: string, id: string, hex: string) {
    if ':' in input then ':' !in id && input == id + ":" + hex else id == "v1" && hex == input
  }

  // The cipher accepts the text under the key.
  predicate Opens(a: Aead, r: Ring, id: string, hex: string, text: Octets) {
    && id in r.keys && Unhex(hex).Some? && 12 <= |Unhex(hex).value|
    && a.open(r.keys[id], Unhex(hex).value[..12], Unhex(hex).value[12..]) == Some(text)
  }

  /** A text decrypts to something exactly when the key that it names is in the ring, the
      rest is hex of at least a nonce, and the cipher accepts it; then to what the cipher
      says. So a text that does not authenticate is refused. */
  lemma DecryptsExactlyWhen(a: Aead, r: Ring, input: string, id: string, hex: string)
    requires Parts(input, id, hex)
    ensures forall text: Octets :: Decrypted(a, r, input) == Good(text) <==> Opens(a, r, id, hex, text)
    ensures id !in r.keys ==> Decrypted(a, r, input) == Bad(UnknownKey(id))
    ensures id in r.keys && !IsHex(hex) ==> Decrypted(a, r, input) == Bad(NotHex)
    ensures id in r.keys && IsHex(hex) && |hex| < 24 ==> Decrypted(a, r, input) == Bad(TooShort)
    ensures id in r.keys && IsHex(hex) && 24 <= |hex| && (forall text: Octets :: !Opens(a, r, id, hex, text)) ==>
              Decrypted(a, r, input) == Bad(NotAuthentic)
  {
    hide Unhex, SplitAtColon;
    UnhexExactlyWhen(hex);
    if ':' in input {
      TagIs(input, id, hex);
    }
    hide Tag;
    var out := Decrypted(a, r, input);
    if out.Good? {
      assert Opens(a, r, id, hex, out.value);
    }
  }

  /** The scan for the first colon computes the tag of the format; the answer is good exactly
      when the cipher accepts the text. */
  method Decrypt(a: Aead, r: Ring, input: string) returns (text: Answer<Octets>)
    ensures text == Decrypted(a, r, input)
    ensures forall id, hex, plain: Octets :: Parts(input, id, hex) ==> (text == Good(plain) <==> Opens(a, r, id, hex, plain))
  {
    var hasColon, id, hex := false, "", "";
    var i := 0;
    while i < |input|
      invariant 0 <= i <= |input| && !hasColon && ':' !in input[..i]
    {
      if input[i] == ':' {
        hasColon, id, hex := true, input[..i], input[i + 1..];
        TagIs(input, id, hex);
        break;
      }
      i := i + 1;
    }
    if !hasColon {
      assert input[..|input|] == input;
      id, hex := "v1", input;
    }
    text := Open(a, r, id, hex);
    forall id, hex | Parts(input, id, hex)
      ensures forall plain: Octets :: text == Good(plain) <==> Opens(a, r, id, hex, plain)
    {
      DecryptsExactlyWhen(a, r, input, id, hex);
    }
  }

  // ── The format ─────────────────────────────────────────────────────────────────────

  lemma SealedOpens(a: Aead, r: Ring, id: string, nonce: Octets, text: Octets)
    requires Lawful(a) && id in r.keys && |nonce| == NONCE_SIZE
    ensures Open(a, r, id, Hex(nonce + a.seal(r.keys[id], nonce, text))) == Good(text)
  {
    var sealed := a.seal(r.keys[id], nonce, text);
    var data: Octets := nonce + sealed;
    HexRoundTrip(data);
    assert data[..NONCE_SIZE] == nonce && data[NONCE_SIZE..] == sealed;
  }

  // The tag ends at the first colon of the id, so what is read as hex text holds a colon.
  lemma ColonBreaksTag(a: Aead, r: Ring, id: string, hex: string)
    requires ':' in id
    ensures Decrypted(a, r, id + ":" + hex).Bad?
  {
    hide Lawful, Unhex, Hex, Tag, SplitAtColon;
    var t := SplitAtColon(id);
    var rest := t.1 + ":" + hex;
    assert id + ":" + hex == t.0 + ":" + rest;
    TagIs(id + ":" + hex, t.0, rest);
    assert rest[|t.1|] == ':';
    if Unhex(rest).Some? {
      HexHasNoColon(rest);
    }
  }

  /** The stored text names the active key and holds the nonce, and the cipher text that the
      active key gives under this nonce. */
  lemma EncryptedText(a: Aead, r: Ring, text: Octets, nonce: Octets)
    requires |nonce| == NONCE_SIZE
    ensures Encrypt(a, r, text, None) == Bad(NoEntropy)
    ensures var out := Encrypt(a, r, text, Some(nonce));
            && out.Good? && |r.active| < |out.value| && out.value[..|r.active|] == r.active && out.value[|r.active|] == ':'
            && var data := Unhex(out.value[|r.active| + 1..]);
               data.Some? && |data.value| >= 12 && data.value[..12] == nonce && data.value[12..] == a.seal(r.keys[r.active], nonce, text)
  {
    hide Hex, Unhex;
    var sealed := a.seal(r.keys[r.active], nonce, text);
    var data: Octets := nonce + sealed;
    HexRoundTrip(data);
    var out := r.active + ":" + Hex(data);
    assert out[|r.active| + 1..] == Hex(data) && out[..|r.active|] == r.active;
    assert data[..12] == nonce && data[12..] == sealed;
  }

  /** A single-key ring is built exactly from 32 bytes of hex text, and its key is v1. */
  lemma NewIs(text: string)
    ensures New(text).Good? <==> IsHex(text) && |text| == 64
    ensures New(text).Good? ==> New(text).value.active == "v1" && New(text).value.keys == map["v1" := Unhex(text).value]
  {
    hide Unhex;
    UnhexExactlyWhen(text);
  }

  /** Text encrypted under a ring decrypts to the original under every later ring that still
      holds the key, exactly when the id of that key has no colon. */
  lemma RoundTripExactlyWhen(a: Aead, r: Ring, later: Ring, text: Octets, nonce: Octets)
    requires Lawful(a) && |nonce| == NONCE_SIZE
    requires r.active in later.keys && later.keys[r.active] == r.keys[r.active]
    ensures Decrypted(a, later, Encrypt(a, r, text, Some(nonce)).value) == Good(text) <==> ':' !in r.active
  {
    hide Lawful, Hex, Unhex, Tag, Open;
    var hex := Hex(nonce + a.seal(r.keys[r.active], nonce, text));
    var input := r.active + ":" + hex;
    if ':' !in r.active {
      TagIs(input, r.active, hex);
      SealedOpens(a, later, r.active, nonce, text);
    } else {
      ColonBreaksTag(a, later, r.active, hex);
    }
  }

  /** The legacy format is hex text alone. It is never taken for tagged text: it is opened
      with the key v1, as the same text tagged v1 would be, and with no other key. */
  lemma LegacySelectsV1(a: Aead, r: Ring, input: string)
    requires Unhex(input).Some?
    ensures Decrypted(a, r, input) == Decrypted(a, r, "v1:" + input) == Open(a, r, "v1", input)
    ensures Decrypted(a, r, input).Good? ==> "v1" in r.keys
  {
    HexHasNoColon(input);
    assert "v1:" + input == "v1" + ":" + input;
    TagIs("v1:" + input, "v1", input);
  }

  /** What the single-key encryptor wrote, tagged or in the legacy format, decrypts under
      every ring that keeps its key as v1; a ring without v1 refuses both unseen. */
  lemma SingleKeyRoundTrip(a: Aead, keyText: string, single: Ring, r: Ring, text: Octets, nonce: Octets)
    requires Lawful(a) && |nonce| == NONCE_SIZE && New(keyText) == Good(single)
    ensures var legacy := Hex(nonce + a.seal(single.keys["v1"], nonce, text));
            var tagged := Encrypt(a, single, text, Some(nonce)).value;
            && Decrypted(a, r, tagged) == Decrypted(a, r, legacy)
            && ("v1" in r.keys && r.keys["v1"] == single.keys["v1"] ==> Decrypted(a, r, legacy) == Good(text))
            && ("v1" !in r.keys ==> Decrypted(a, r, legacy) == Bad(UnknownKey("v1")))
  {
    hide Hex, Unhex, Tag, Lawful;
    var data: Octets := nonce + a.seal(single.keys["v1"], nonce, text);
    HexRoundTrip(data);
    LegacySelectsV1(a, r, Hex(data));
    assert "v1" + ":" + Hex(data) == "v1:" + Hex(data);
    if "v1" in r.keys && r.keys["v1"] == single.keys["v1"] {
      SealedOpens(a, r, "v1", nonce, text);
    }
  }
}
