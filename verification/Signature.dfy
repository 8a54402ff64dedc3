/** Lower-case hexadecimal of byte strings (apps/api/src/commerce.rs). */
module Hexadecimal {
  import opened Common

  type Nibble = n: int | 0 <= n < 16
  type Byte = b: int | 0 <= b < 256

  /** A byte cut in two. */
  datatype Halves = Halves(high: Nibble, low: Nibble)

  /** `b >> 4` and `b & 0x0f`. */
  function HalvesOf(b: Byte): Halves { Halves(b / 16, b % 16) }

  /** `high << 4 | low`: the two share no bit. */
  function Value(h: Halves): Byte { 16 * h.high + h.low }

  lemma ValueOfHalves(b: Byte)
    ensures Value(HalvesOf(b)) == b
  {
  }

  lemma HalvesOfValue(h: Halves)
    ensures HalvesOf(Value(h)) == h
  {
  }

  function AllHalves(bytes: seq<Byte>): seq<Halves> {
    if bytes == [] then [] else AllHalves(bytes[..|bytes| - 1]) + [HalvesOf(bytes[|bytes| - 1])]
  }

  function AllValues(halves: seq<Halves>): seq<Byte> {
    if halves == [] then [] else AllValues(halves[..|halves| - 1]) + [Value(halves[|halves| - 1])]
  }

  lemma AllHalvesAppend(bytes: seq<Byte>, b: Byte)
    ensures AllHalves(bytes + [b]) == AllHalves(bytes) + [HalvesOf(b)]
  {
    assert (bytes + [b])[..|bytes|] == bytes;
  }

  lemma AllValuesAppend(halves: seq<Halves>, h: Halves)
    ensures AllValues(halves + [h]) == AllValues(halves) + [Value(h)]
  {
    assert (halves + [h])[..|halves|] == halves;
  }

  lemma {:induction false} AllValuesOfHalves(bytes: seq<Byte>)
    ensures AllValues(AllHalves(bytes)) == bytes && |AllHalves(bytes)| == |bytes|
  {
    if bytes == [] {
    } else {
      var n := |bytes| - 1;
      AllValuesOfHalves(bytes[..n]);
      AllValuesAppend(AllHalves(bytes[..n]), HalvesOf(bytes[n]));
      ValueOfHalves(bytes[n]);
      assert bytes == bytes[..n] + [bytes[n]];
    }
  }

  lemma {:induction false} AllHalvesOfValues(halves: seq<Halves>)
    ensures AllHalves(AllValues(halves)) == halves
  {
    if halves == [] {
    } else {
      var n := |halves| - 1;
      AllHalvesOfValues(halves[..n]);
      AllHalvesAppend(AllValues(halves[..n]), Value(halves[n]));
      HalvesOfValue(halves[n]);
      assert halves == halves[..n] + [halves[n]];
    }
  }

  function HexDigit(c: char): Option<Nibble> {
    if '0' <= c <= '9' then Some(c as int - '0' as int)
    else if 'a' <= c <= 'f' then Some(c as int - 'a' as int + 10)
    else if 'A' <= c <= 'F' then Some(c as int - 'A' as int + 10)
    else None
  }

  function Digit(value: Nibble): char {
    if value < 10 then ('0' as int + value) as char else ('a' as int + value - 10) as char
  }

  /** The two digits of a byte. */
  function Pair(h: Halves): string { [Digit(h.high), Digit(h.low)] }

  function Digits(halves: seq<Halves>): string {
    if halves == [] then "" else Digits(halves[..|halves| - 1]) + Pair(halves[|halves| - 1])
  }

  /** Two digits a byte, high digit first; none if any character is not a digit. */
  function Read(text: string): Option<seq<Halves>> {
    if text == "" then Some([])
    else if |text| == 1 then None
    else
      var n := |text| - 2;
      var front, high, low := Read(text[..n]), HexDigit(text[n]), HexDigit(text[n + 1]);
      if front.None? || high.None? || low.None? then None else Some(front.value + [Halves(high.value, low.value)])
  }

  function Encoded(bytes: seq<Byte>): string { Digits(AllHalves(bytes)) }

  function Decoded(text: string): Option<seq<Byte>> {
    var halves := Read(text);
    if halves.None? then None else Some(AllValues(halves.value))
  }

  function DecodeHex32(text: string): Option<seq<Byte>> { if |text| != 64 then None else Decoded(text) }

  method EncodeHex(bytes: seq<Byte>) returns (text: string)
    ensures text == Encoded(bytes)
  {
    text := "";
    for i := 0 to |bytes|
      invariant text == Encoded(bytes[..i])
    {
      EncodedAppend(bytes[..i], bytes[i]);
      assert bytes[..i + 1] == bytes[..i] + [bytes[i]];
      text := text + [Digit(bytes[i] / 16)];
      text := text + [Digit(bytes[i] % 16)];
    }
    assert bytes[..|bytes|] == bytes;
  }

  /** Fills a 32-byte buffer pair by pair. */
  method DecodeInto(text: string, decoded: array<Byte>) returns (ok: bool)
    requires decoded.Length == 32
    modifies decoded
    ensures ok <==> DecodeHex32(text).Some?
    ensures ok ==> DecodeHex32(text) == Some(decoded[..])
  {
    if |text| != 64 {
      return false;
    }
    for index := 0 to 32
      invariant Decoded(text[..2 * index]) == Some(decoded[..index])
    {
      var high, low := HexDigit(text[2 * index]), HexDigit(text[2 * index + 1]);
      DecodedPair(text, index, high, low);
      if high.None? || low.None? {
        ReadPrefix(text, index + 1);
        return false;
      }
      ghost var before := decoded[..index];
      decoded[index] := Value(Halves(high.value, low.value));
      assert decoded[..index + 1] == before + [decoded[index]];
    }
    assert text[..64] == text && decoded[..32] == decoded[..];
    return true;
  }

  lemma EncodedAppend(bytes: seq<Byte>, b: Byte)
    ensures Encoded(bytes + [b]) == Encoded(bytes) + [Digit(b / 16)] + [Digit(b % 16)]
  {
    AllHalvesAppend(bytes, b);
    DigitsAppend(AllHalves(bytes), HalvesOf(b));
  }

  lemma DecodedPair(text: string, index: nat, high: Option<Nibble>, low: Option<Nibble>)
    requires 2 * index + 2 <= |text| && Decoded(text[..2 * index]).Some?
    requires high == HexDigit(text[2 * index]) && low == HexDigit(text[2 * index + 1])
    ensures Decoded(text[..2 * (index + 1)])
      == if high.None? || low.None? then None
         else Some(Decoded(text[..2 * index]).value + [Value(Halves(high.value, low.value))])
  {
    ReadPair(text, index);
    if high.Some? && low.Some? {
      AllValuesAppend(Read(text[..2 * index]).value, Halves(high.value, low.value));
    }
  }

  /** One more pair of digits. */
  lemma ReadPair(text: string, index: nat)
    requires 2 * index + 2 <= |text|
    ensures var front, high, low := Read(text[..2 * index]), HexDigit(text[2 * index]), HexDigit(text[2 * index + 1]);
      Read(text[..2 * (index + 1)])
      == if front.None? || high.None? || low.None? then None else Some(front.value + [Halves(high.value, low.value)])
  {
    assert text[..2 * index + 2][..2 * index] == text[..2 * index];
  }

  /** A bad pair anywhere spoils the whole text. */
  lemma {:induction false} ReadPrefix(text: string, pairs: nat)
    requires |text| % 2 == 0 && 2 * pairs <= |text| && Read(text[..2 * pairs]).None?
    ensures Read(text).None?
  {
    if 2 * pairs == |text| {
      assert text[..2 * pairs] == text;
    } else {
      var shorter := text[..|text| - 2];
      assert shorter[..2 * pairs] == text[..2 * pairs];
      ReadPrefix(shorter, pairs);
    }
  }

  /** A byte's own digits decode to it. */
  lemma PairDecodes(h: Halves)
    ensures |Pair(h)| == 2
    ensures HexDigit(Pair(h)[0]) == Some(h.high) && HexDigit(Pair(h)[1]) == Some(h.low)
  {
  }

  lemma ReadAppend(text: string, pair: string)
    requires |pair| == 2 && Read(text).Some? && HexDigit(pair[0]).Some? && HexDigit(pair[1]).Some?
    ensures Read(text + pair) == Some(Read(text).value + [Halves(HexDigit(pair[0]).value, HexDigit(pair[1]).value)])
  {
    var longer := text + pair;
    assert longer[..|longer| - 2] == text;
    assert longer[|longer| - 2] == pair[0] && longer[|longer| - 1] == pair[1];
  }

  lemma ReadHalves(text: string, front: seq<Halves>, h: Halves)
    requires Read(text) == Some(front)
    ensures Read(text + Pair(h)) == Some(front + [h])
  {
    PairDecodes(h);
    ReadAppend(text, Pair(h));
  }

  lemma DigitsAppend(halves: seq<Halves>, h: Halves)
    ensures Digits(halves + [h]) == Digits(halves) + Pair(h)
  {
    assert (halves + [h])[..|halves|] == halves;
  }

  lemma {:induction false} ReadDigits(halves: seq<Halves>)
    ensures |Digits(halves)| == 2 * |halves|
    ensures Read(Digits(halves)) == Some(halves)
  {
    if halves == [] {
    } else {
      var n := |halves| - 1;
      ReadDigits(halves[..n]);
      DigitsAppend(halves[..n], halves[n]);
      ReadHalves(Digits(halves[..n]), halves[..n], halves[n]);
      assert halves == halves[..n] + [halves[n]];
    }
  }

  /** Decoding undoes encoding, for any number of bytes. */
  lemma DecodeEncoded(bytes: seq<Byte>)
    ensures |Encoded(bytes)| == 2 * |bytes|
    ensures Decoded(Encoded(bytes)) == Some(bytes)
  {
    ReadDigits(AllHalves(bytes));
    AllValuesOfHalves(bytes);
  }

  function Lower(c: char): char { if 'A' <= c <= 'Z' then (c as int + 32) as char else c }

  lemma DigitOf(c: char)
    requires HexDigit(c).Some?
    ensures Digit(HexDigit(c).value) == Lower(c)
  {
  }

  function Lowercase(text: string): (r: string)
    ensures |r| == |text|
  {
    if text == "" then "" else Lowercase(text[..|text| - 1]) + [Lower(text[|text| - 1])]
  }

  lemma LowercaseTwo(front: string, c: char, d: char)
    ensures Lowercase(front + [c, d]) == Lowercase(front) + [Lower(c), Lower(d)]
  {
    assert (front + [c, d])[..|front| + 1] == front + [c] && (front + [c])[..|front|] == front;
  }

  lemma ReadTwo(text: string)
    requires text != "" && Read(text).Some?
    ensures 2 <= |text|
    ensures var n := |text| - 2;
      && Read(text[..n]).Some? && HexDigit(text[n]).Some? && HexDigit(text[n + 1]).Some?
      && Read(text).value == Read(text[..n]).value + [Halves(HexDigit(text[n]).value, HexDigit(text[n + 1]).value)]
  {
  }

  lemma DigitsPair(front: seq<Halves>, c: char, d: char)
    requires HexDigit(c).Some? && HexDigit(d).Some?
    ensures Digits(front + [Halves(HexDigit(c).value, HexDigit(d).value)]) == Digits(front) + [Lower(c), Lower(d)]
  {
    DigitOf(c);
    DigitOf(d);
    DigitsAppend(front, Halves(HexDigit(c).value, HexDigit(d).value));
  }

  lemma {:induction false} DigitsOfRead(text: string)
    requires Read(text).Some?
    ensures Digits(Read(text).value) == Lowercase(text)
  {
    if text == "" {
    } else {
      ReadTwo(text);
      var n := |text| - 2;
      DigitsOfRead(text[..n]);
      DigitsPair(Read(text[..n]).value, text[n], text[n + 1]);
      LowercaseTwo(text[..n], text[n], text[n + 1]);
      assert text == text[..n] + [text[n], text[n + 1]];
    }
  }

  /** Encoding undoes decoding up to letter case. */
  lemma EncodeDecoded(text: string)
    requires Decoded(text).Some?
    ensures Encoded(Decoded(text).value) == Lowercase(text)
  {
    DigitsOfRead(text);
    AllHalvesOfValues(Read(text).value);
  }
}

/** The webhook signature header (apps/api/src/commerce.rs). The header is ASCII text; whether one
    decoded signature fits the payload at a timestamp is a parameter. */
module Signature {
  import opened Common
  import opened Text
  import opened Sequences
  import opened Hexadecimal

  const MAX_HEADER: nat := 4096
  const TOLERANCE_SECONDS: int := 300

  // ---------------------------------------------------------------- components of the header

  /** The pieces between commas; an empty text is one empty piece. */
  function Split(s: string): seq<string>
    decreases |s|
  {
    var i := Find(s, ',');
    if i == |s| then [s] else [s[..i]] + Split(s[i + 1..])
  }

  function Decimal(digits: string): Option<int> {
    if digits == "" then Some(0)
    else
      var n := |digits| - 1;
      var front := Decimal(digits[..n]);
      if front.None? || !('0' <= digits[n] <= '9') then None
      else Some(front.value * 10 + (digits[n] as int - '0' as int))
  }

  /** A signed 64-bit decimal with an optional sign. */
  function ParseI64(text: string): Option<int> {
    var signed := text != "" && (text[0] == '-' || text[0] == '+');
    var digits := if signed then text[1..] else text;
    var magnitude := if digits == "" then None else Decimal(digits);
    if magnitude.None? then None
    else
      var value := if signed && text[0] == '-' then -magnitude.value else magnitude.value;
      if I64_MIN <= value <= I64_MAX then Some(value) else None
  }

  datatype Part = NoEquals | Timestamp(seconds: Option<int>) | V1(signature: Option<seq<Byte>>) | OtherScheme

  function PartOf(component: string): Part {
    var text := Trim(component);
    var i := Find(text, '=');
    if i == |text| then NoEquals
    else
      var name, value := text[..i], text[i + 1..];
      if name == "t" then Timestamp(ParseI64(value))
      else if name == "v1" then V1(DecodeHex32(value))
      else OtherScheme
  }

  function Parts(components: seq<string>): seq<Part> { Mapped(components, PartOf) }

  // ---------------------------------------------------------------- the verdict

  /** Addition that stops at the bounds of a 64-bit integer. */
  function Saturated(value: int): int { Max(I64_MIN, Min(I64_MAX, value)) }

  ghost predicate Fresh(t: int, now: int) {
    Saturated(now - TOLERANCE_SECONDS) <= t <= Saturated(now + TOLERANCE_SECONDS)
  }

  ghost predicate WellFormed(parts: multiset<Part>) {
    NoEquals !in parts && Timestamp(None) !in parts && V1(None) !in parts
  }

  /** `t` is the one timestamp. */
  ghost predicate OnlyTimestamp(parts: multiset<Part>, t: int) {
    parts[Timestamp(Some(t))] == 1 && forall u :: u != t ==> Timestamp(Some(u)) !in parts
  }

  /** What a header must hold, whatever the order of its components: all of them well-formed, exactly
      one timestamp, within tolerance, and a signature that fits it. */
  ghost predicate Signed(parts: multiset<Part>, now: int, fits: (int, seq<Byte>) -> bool) {
    && WellFormed(parts)
    && exists t, signature ::
         OnlyTimestamp(parts, t) && Fresh(t, now) && V1(Some(signature)) in parts && fits(t, signature)
  }

  ghost predicate Accepts(secret: string, header: string, now: int, fits: (int, seq<Byte>) -> bool) {
    |header| <= MAX_HEADER && secret != "" && Signed(multiset(Parts(Split(header))), now, fits)
  }

  /** The signatures and the timestamp collected from a prefix of the components. */
  ghost predicate Collected(parts: multiset<Part>, timestamp: Option<int>, signatures: seq<seq<Byte>>) {
    && WellFormed(parts)
    && (timestamp.Some? ==> OnlyTimestamp(parts, timestamp.value))
    && (timestamp.None? ==> forall t :: Timestamp(Some(t)) !in parts)
    && (forall signature :: signature in signatures <==> V1(Some(signature)) in parts)
  }

  lemma PartsAppend(components: seq<string>, c: string)
    ensures multiset(Parts(components + [c])) == multiset(Parts(components)) + multiset{PartOf(c)}
  {
    MappedSnoc(components, c, PartOf);
  }

  lemma PartsPrefix(a: seq<string>, b: seq<string>)
    ensures multiset(Parts(a)) <= multiset(Parts(a + b))
  {
    PartsConcat(a, b);
    MultisetGrows(Parts(a), Parts(b));
  }

  lemma MultisetGrows(a: seq<Part>, b: seq<Part>)
    ensures multiset(a) <= multiset(a + b)
  {
    assert multiset(a + b) == multiset(a) + multiset(b);
  }

  lemma CollectedMore(parts: multiset<Part>, part: Part, timestamp: Option<int>, signatures: seq<seq<Byte>>)
    requires Collected(parts, timestamp, signatures) && part !in {NoEquals, Timestamp(None), V1(None)}
    requires part.Timestamp? ==> timestamp.None?
    ensures Collected(parts + multiset{part}, if part.Timestamp? then part.seconds else timestamp,
                      if part.V1? then signatures + [part.signature.value] else signatures)
  {
    var more := parts + multiset{part};
    assert forall x :: x in more <==> x in parts || x == part;
    var signed := if part.V1? then signatures + [part.signature.value] else signatures;
    assert forall x :: x in signed <==> x in signatures || V1(Some(x)) == part;
    if timestamp.Some? { assert OnlyTimestamp(more, timestamp.value); }
    if part.Timestamp? { assert OnlyTimestamp(more, part.seconds.value); }
  }

  /** Not acceptable at any time with any key. */
  ghost predicate Hopeless(parts: multiset<Part>) { !WellFormed(parts) || forall t :: !OnlyTimestamp(parts, t) }

  /** The parsing loop: it gives up only on components that no time and no key could make acceptable. */
  method Collect(components: seq<string>) returns (ok: bool, timestamp: Option<int>, signatures: seq<seq<Byte>>)
    ensures ok ==> Collected(multiset(Parts(components)), timestamp, signatures)
    ensures !ok ==> Hopeless(multiset(Parts(components)))
  {
    timestamp, signatures := None, [];
    for i := 0 to |components|
      invariant Collected(multiset(Parts(components[..i])), timestamp, signatures)
    {
      ghost var before := multiset(Parts(components[..i]));
      var part := PartOf(components[i]);
      assert components[..i + 1] == components[..i] + [components[i]];
      assert components == components[..i + 1] + components[i + 1..];
      PartsAppend(components[..i], components[i]);
      PartsPrefix(components[..i + 1], components[i + 1..]);
      assert part in multiset(Parts(components[..i + 1]));
      if part == NoEquals || part == Timestamp(None) || part == V1(None) {
        return false, None, [];
      }
      if part.Timestamp? && timestamp.Some? {
        TwoTimestamps(before, timestamp.value, part.seconds.value, multiset(Parts(components)));
        return false, None, [];
      }
      CollectedMore(before, part, timestamp, signatures);
      if part.Timestamp? {
        timestamp := part.seconds;
      } else if part.V1? {
        signatures := signatures + [part.signature.value];
      }
    }
    assert components[..|components|] == components;
    ok := true;
  }

  method AnyFits(t: int, signatures: seq<seq<Byte>>, fits: (int, seq<Byte>) -> bool) returns (found: bool)
    ensures found <==> exists signature :: signature in signatures && fits(t, signature)
  {
    for i := 0 to |signatures|
      invariant forall j :: 0 <= j < i ==> !fits(t, signatures[j])
    {
      if fits(t, signatures[i]) {
        return true;
      }
    }
    return false;
  }

  /** The verdict on a header. */
  method Verify(secret: string, header: string, now: int, fits: (int, seq<Byte>) -> bool) returns (accepted: bool)
    requires I64_MIN <= now <= I64_MAX
    ensures accepted <==> Accepts(secret, header, now, fits)
  {
    if MAX_HEADER < |header| || secret == "" {
      return false;
    }
    var ok, timestamp, signatures := Collect(Split(header));
    ghost var parts := multiset(Parts(Split(header)));
    if !ok || timestamp.None? {
      return false;
    }
    var t := timestamp.value;
    assert forall u :: OnlyTimestamp(parts, u) <==> u == t;
    if Saturated(now + TOLERANCE_SECONDS) < t || t < Saturated(now - TOLERANCE_SECONDS) || |signatures| == 0 {
      return false;
    }
    accepted := AnyFits(t, signatures, fits);
  }

  lemma TwoTimestamps(before: multiset<Part>, t: int, u: int, all: multiset<Part>)
    requires OnlyTimestamp(before, t) && before + multiset{Timestamp(Some(u))} <= all
    ensures forall x :: !OnlyTimestamp(all, x)
  {
    forall x ensures !OnlyTimestamp(all, x) {
      assert t == u ==> all[Timestamp(Some(t))] >= 2;
      assert Timestamp(Some(t)) in all && Timestamp(Some(u)) in all;
    }
  }

  // ---------------------------------------------------------------- order and additions

  lemma PartsConcat(a: seq<string>, b: seq<string>)
    ensures Parts(a + b) == Parts(a) + Parts(b)
  {
    MappedConcat(a, b, PartOf);
  }

  lemma PartsAround(front: seq<string>, c: string, back: seq<string>)
    ensures multiset(Parts((front + [c]) + back)) == multiset(Parts(front + back)) + multiset{PartOf(c)}
  {
    PartsConcat(front, back);
    PartsConcat(front + [c], back);
    PartsAppend(front, c);
  }

  /** A sequence put together around one of its elements. */
  lemma PartsRebuilt(b: seq<string>, i: nat, front: seq<string>, back: seq<string>)
    requires i < |b| && front == b[..i] && back == b[i + 1..]
    ensures multiset(Parts(b)) == multiset(Parts(front + back)) + multiset{PartOf(b[i])}
  {
    PartsAround(front, b[i], back);
    assert b == (front + [b[i]]) + back;
  }

  lemma PartsLast(a: seq<string>)
    requires a != []
    ensures multiset(Parts(a)) == multiset(Parts(a[..|a| - 1])) + multiset{PartOf(a[|a| - 1])}
  {
    PartsAppend(a[..|a| - 1], a[|a| - 1]);
    assert a == a[..|a| - 1] + [a[|a| - 1]];
  }

  /** The parts depend only on which components there are and how often. */
  lemma {:induction false} PartsPermuted(a: seq<string>, b: seq<string>)
    requires multiset(a) == multiset(b)
    ensures multiset(Parts(a)) == multiset(Parts(b))
  {
    if a == [] {
      assert |multiset(b)| == 0;
    } else {
      var i := TakeOut(a, b);
      PartsPermuted(a[..|a| - 1], b[..i] + b[i + 1..]);
      PartsRebuilt(b, i, b[..i], b[i + 1..]);
      PartsLast(a);
    }
  }

  function Length(components: seq<string>): nat {
    if components == [] then 0 else Length(components[..|components| - 1]) + |components[|components| - 1]| + 1
  }

  lemma {:induction false} LengthConcat(a: seq<string>, b: seq<string>)
    ensures Length(a + b) == Length(a) + Length(b)
  {
    if b == [] {
      assert a + b == a;
    } else {
      LengthConcat(a, b[..|b| - 1]);
      assert (a + b)[..|a + b| - 1] == a + b[..|b| - 1];
    }
  }

  lemma LengthCons(piece: string, rest: seq<string>)
    ensures Length([piece] + rest) == |piece| + 1 + Length(rest)
  {
    LengthConcat([piece], rest);
    LengthOne(piece);
  }

  lemma SplitStep(s: string, i: nat)
    requires i == Find(s, ',')
    ensures Split(s) == if i == |s| then [s] else [s[..i]] + Split(s[i + 1..])
  {
  }

  lemma LengthOne(piece: string)
    ensures Length([piece]) == |piece| + 1
  {
    assert [piece][..0] == [];
  }

  lemma {:induction false} SplitLength(s: string)
    ensures Length(Split(s)) == |s| + 1
    decreases |s|
  {
    var i := Find(s, ',');
    SplitStep(s, i);
    if i < |s| {
      SplitLength(s[i + 1..]);
      LengthCons(s[..i], Split(s[i + 1..]));
    } else {
      LengthOne(s);
    }
  }

  lemma LengthAround(front: seq<string>, c: string, back: seq<string>)
    ensures Length((front + [c]) + back) == Length(front + back) + |c| + 1
  {
    LengthConcat(front, back);
    LengthConcat(front + [c], back);
    assert (front + [c])[..|front|] == front;
  }

  lemma {:induction false} LengthPermuted(a: seq<string>, b: seq<string>)
    requires multiset(a) == multiset(b)
    ensures Length(a) == Length(b)
  {
    if a == [] {
      assert |multiset(b)| == 0;
    } else {
      var i := TakeOut(a, b);
      LengthPermuted(a[..|a| - 1], b[..i] + b[i + 1..]);
      LengthAround(b[..i], b[i], b[i + 1..]);
    }
  }

  /** Reordering the components never changes the verdict. */
  lemma OrderIsIrrelevant(secret: string, one: string, two: string, now: int, fits: (int, seq<Byte>) -> bool)
    requires multiset(Split(one)) == multiset(Split(two))
    ensures Accepts(secret, one, now, fits) <==> Accepts(secret, two, now, fits)
  {
    PartsPermuted(Split(one), Split(two));
    LengthPermuted(Split(one), Split(two));
    SplitLength(one);
    SplitLength(two);
  }

  /** Adding a well-formed signature, anywhere in a header that stays within the limit, keeps an accepted
      header accepted; adding another scheme's component changes nothing at all. */
  lemma AdditionsAreHarmless(secret: string, header: string, longer: string, extra: string, now: int,
                             fits: (int, seq<Byte>) -> bool)
    requires multiset(Split(longer)) == multiset(Split(header)) + multiset{extra} && |longer| <= MAX_HEADER
    requires |header| <= MAX_HEADER
    ensures PartOf(extra).V1? && PartOf(extra).signature.Some? && Accepts(secret, header, now, fits) ==>
      Accepts(secret, longer, now, fits)
    ensures PartOf(extra).OtherScheme? ==> (Accepts(secret, header, now, fits) <==> Accepts(secret, longer, now, fits))
  {
    var parts := multiset(Parts(Split(header)));
    PartsPermuted(Split(longer), Split(header) + [extra]);
    PartsConcat(Split(header), [extra]);
    assert Parts([extra]) == [PartOf(extra)];
    assert multiset(Parts(Split(longer))) == parts + multiset{PartOf(extra)};
    SignedWithMore(parts, PartOf(extra), now, fits);
  }

  lemma SignedWithMore(parts: multiset<Part>, part: Part, now: int, fits: (int, seq<Byte>) -> bool)
    ensures part.V1? && part.signature.Some? && Signed(parts, now, fits) ==> Signed(parts + multiset{part}, now, fits)
    ensures part.OtherScheme? ==> (Signed(parts, now, fits) <==> Signed(parts + multiset{part}, now, fits))
  {
    var more := parts + multiset{part};
    if !part.Timestamp? { assert forall t :: OnlyTimestamp(parts, t) <==> OnlyTimestamp(more, t); }
  }

  /** A comma-free piece before a comma splits off. */
  lemma SplitPiece(piece: string, rest: string)
    requires ',' !in piece
    ensures Split(piece + "," + rest) == [piece] + Split(rest)
  {
    var s := piece + "," + rest;
    assert s[|piece|] == ',' && forall j :: 0 <= j < |piece| ==> s[j] == piece[j];
    FindFirst(s, |piece|, ',');
    assert s[..|piece|] == piece && s[|piece| + 1..] == rest;
  }

  lemma SplitLast(piece: string)
    requires ',' !in piece
    ensures Split(piece) == [piece]
  {
    FindFirst(piece, |piece|, ',');
  }

  lemma Cut(header: string, i: nat)
    requires i == Find(header, ',') && i < |header|
    ensures header == header[..i] + "," + header[i + 1..] && ',' !in header[..i]
  {
    Rejoined(header, i);
    assert [header[i]] == ",";
  }

  lemma Regroup(piece: string, rest: string, extra: string)
    ensures (piece + "," + rest) + "," + extra == piece + "," + (rest + "," + extra)
  {
  }

  /** Appending one more comma-free component appends one piece. */
  lemma {:induction false} SplitAppend(header: string, extra: string)
    requires ',' !in extra
    ensures Split(header + "," + extra) == Split(header) + [extra]
    decreases |header|
  {
    var i := Find(header, ',');
    if i < |header| {
      Cut(header, i);
      SplitAppend(header[i + 1..], extra);
      SplitBoth(header[..i], header[i + 1..], extra);
    } else {
      SplitPiece(header, extra);
      SplitLast(header);
      SplitLast(extra);
    }
  }

  lemma SplitBoth(piece: string, rest: string, extra: string)
    requires ',' !in piece && Split(rest + "," + extra) == Split(rest) + [extra]
    ensures Split((piece + "," + rest) + "," + extra) == Split(piece + "," + rest) + [extra]
  {
    Regroup(piece, rest, extra);
    SplitPiece(piece, rest + "," + extra);
    SplitPiece(piece, rest);
  }
}
