/** The header a provider sends, from the numbers it means to the verdict on it. */
module SignedHeaders {
  import opened Common
  import opened Text
  import opened Sequences
  import opened Hexadecimal
  import opened Signature

  // ---------------------------------------------------------------- decimal numbers

  function DigitsOf(n: nat): (s: string)
    ensures s != "" && forall i :: 0 <= i < |s| ==> '0' <= s[i] <= '9'
  {
    if n < 10 then [('0' as int + n) as char] else DigitsOf(n / 10) + [('0' as int + n % 10) as char]
  }

  function Written(n: int): string { if n < 0 then "-" + DigitsOf(-n) else DigitsOf(n) }

  /** One more digit. */
  lemma DecimalLast(digits: string, c: char, longer: string)
    requires '0' <= c <= '9' && longer == digits + [c] && Decimal(digits).Some?
    ensures Decimal(longer) == Some(Decimal(digits).value * 10 + (c as int - '0' as int))
  {
    assert longer[..|longer| - 1] == digits;
  }

  lemma DigitsMore(n: nat)
    requires 10 <= n
    ensures DigitsOf(n) == DigitsOf(n / 10) + [('0' as int + n % 10) as char]
  {
  }

  lemma DigitsOne(n: nat)
    requires n < 10
    ensures DigitsOf(n) == "" + [('0' as int + n) as char] && Decimal("") == Some(0)
  {
  }

  lemma {:induction false} DecimalDigits(n: nat)
    ensures Decimal(DigitsOf(n)) == Some(n)
  {
    if n < 10 {
      DigitsOne(n);
      DecimalLast("", ('0' as int + n) as char, DigitsOf(n));
    } else {
      var q, d := n / 10, n % 10;
      DecimalDigits(q);
      DigitsMore(n);
      DecimalLast(DigitsOf(q), ('0' as int + d) as char, DigitsOf(n));
    }
  }

  lemma ParsePlain(digits: string, v: int)
    requires digits != "" && '0' <= digits[0] <= '9' && Decimal(digits) == Some(v) && 0 <= v <= I64_MAX
    ensures ParseI64(digits) == Some(v)
  {
  }

  lemma ParseMinus(text: string, digits: string, v: int)
    requires digits != "" && Decimal(digits) == Some(v) && 0 <= v <= -I64_MIN
    requires |text| == |digits| + 1 && text[0] == '-' && text[1..] == digits
    ensures ParseI64(text) == Some(-v)
  {
  }

  /** A number of 64 bits is read back from what is written for it. */
  lemma ParseWritten(n: int)
    requires I64_MIN <= n <= I64_MAX
    ensures ParseI64(Written(n)) == Some(n)
  {
    if n < 0 {
      DecimalDigits(-n);
      ParseMinus(Written(n), DigitsOf(-n), -n);
    } else {
      DecimalDigits(n);
      ParsePlain(DigitsOf(n), n);
    }
  }

  // ---------------------------------------------------------------- components

  /** Neither blank nor a separator. */
  predicate Solid(s: string) { forall i :: 0 <= i < |s| ==> !Blank(s[i]) && s[i] != ',' && s[i] != '=' }

  lemma TrimSolid(s: string)
    requires s != "" && !Blank(s[0]) && !Blank(s[|s| - 1])
    ensures Trim(s) == s
  {
    assert TrimStart(s) == s && TrimEnd(s) == s;
  }

  /** What a component with a name and a value is. */
  lemma PartIs(name: string, value: string)
    requires name != "" && Solid(name) && value != "" && Solid(value)
    ensures PartOf(name + "=" + value)
         == if name == "t" then Timestamp(ParseI64(value))
            else if name == "v1" then V1(DecodeHex32(value)) else OtherScheme
  {
    var text, i := name + "=" + value, |name|;
    assert text[0] == name[0] && text[|text| - 1] == value[|value| - 1];
    TrimSolid(text);
    assert text[i] == '=' && forall j :: 0 <= j < i ==> text[j] == name[j];
    FindFirst(text, i, '=');
    assert text[..i] == name && text[i + 1..] == value;
  }

  lemma WrittenSolid(n: int)
    ensures Written(n) != "" && Solid(Written(n))
  {
  }

  lemma DigitSolid(n: Nibble)
    ensures !Blank(Digit(n)) && Digit(n) != ',' && Digit(n) != '='
  {
  }

  lemma {:induction false} DigitsSolid(halves: seq<Halves>)
    ensures Solid(Digits(halves))
  {
    if halves == [] {
    } else {
      var n := |halves| - 1;
      DigitsSolid(halves[..n]);
      DigitSolid(halves[n].high);
      DigitSolid(halves[n].low);
      var front, pair := Digits(halves[..n]), Pair(halves[n]);
      forall i | 0 <= i < |front + pair| ensures !Blank((front + pair)[i]) && (front + pair)[i] !in {',', '='} {
        if i < |front| { assert (front + pair)[i] == front[i]; } else { assert (front + pair)[i] == pair[i - |front|]; }
      }
    }
  }

  // ---------------------------------------------------------------- the header

  function Header(t: int, signature: seq<Byte>): string {
    ("t" + "=" + Written(t)) + "," + ("v1" + "=" + Encoded(signature))
  }

  lemma Comma(name: string, value: string)
    requires Solid(name) && Solid(value)
    ensures ',' !in name + "=" + value
  {
  }

  lemma TwoComponents(stamp: string, proof: string)
    requires ',' !in stamp && ',' !in proof
    ensures multiset(Parts(Split(stamp + "," + proof))) == multiset{PartOf(stamp), PartOf(proof)}
  {
    SplitPiece(stamp, proof);
    SplitLast(proof);
    PartsAppend([stamp], proof);
    PartsAppend([], stamp);
    assert [] + [stamp] == [stamp] && Parts([]) == [];
  }

  lemma SignatureSolid(signature: seq<Byte>)
    requires |signature| == 32
    ensures Encoded(signature) != "" && Solid(Encoded(signature)) && DecodeHex32(Encoded(signature)) == Some(signature)
  {
    DigitsSolid(AllHalves(signature));
    DecodeEncoded(signature);
  }

  lemma HeaderParts(t: int, signature: seq<Byte>)
    requires I64_MIN <= t <= I64_MAX && |signature| == 32
    ensures multiset(Parts(Split(Header(t, signature)))) == multiset{Timestamp(Some(t)), V1(Some(signature))}
  {
    WrittenSolid(t);
    SignatureSolid(signature);
    ParseWritten(t);
    NamedParts(Written(t), Encoded(signature));
  }

  /** A timestamp and a signature, whatever they say. */
  lemma NamedParts(time: string, proof: string)
    requires time != "" && Solid(time) && proof != "" && Solid(proof)
    ensures multiset(Parts(Split(("t" + "=" + time) + "," + ("v1" + "=" + proof))))
         == multiset{Timestamp(ParseI64(time)), V1(DecodeHex32(proof))}
  {
    Comma("t", time);
    Comma("v1", proof);
    TwoComponents("t" + "=" + time, "v1" + "=" + proof);
    PartIs("t", time);
    PartIs("v1", proof);
  }

  lemma {:induction false} DigitsShort(n: nat, k: nat)
    requires n < Power(k) && 0 < k
    ensures |DigitsOf(n)| <= k
  {
    if n < 10 {
    } else {
      DigitsShort(n / 10, k - 1);
    }
  }

  function Power(k: nat): nat { if k == 0 then 1 else 10 * Power(k - 1) }

  lemma WrittenShort(t: int)
    requires I64_MIN <= t <= I64_MAX
    ensures |Written(t)| <= 21
  {
    assert Power(5) == 100_000;
    assert Power(10) == 100_000 * Power(5);
    assert Power(15) == 100_000 * Power(10);
    assert Power(20) == 100_000 * Power(15);
    DigitsShort(if t < 0 then -t else t, 20);
  }

  lemma HeaderShort(t: int, signature: seq<Byte>)
    requires I64_MIN <= t <= I64_MAX && |signature| == 32
    ensures |Header(t, signature)| <= 4096
  {
    WrittenShort(t);
    DecodeEncoded(signature);
  }

  /** Times of 64 bits: the bounds saturate only where every time is within them. */
  lemma FreshIs(t: int, now: int)
    requires I64_MIN <= t <= I64_MAX && I64_MIN <= now <= I64_MAX
    ensures Fresh(t, now) <==> now - 300 <= t <= now + 300
  {
  }

  lemma SignedTwo(parts: multiset<Part>, t: int, signature: seq<Byte>, now: int, fits: (int, seq<Byte>) -> bool)
    requires parts == multiset{Timestamp(Some(t)), V1(Some(signature))}
    ensures Signed(parts, now, fits) <==> Fresh(t, now) && fits(t, signature)
  {
    assert WellFormed(parts) && OnlyTimestamp(parts, t) && V1(Some(signature)) in parts;
    assert forall u :: OnlyTimestamp(parts, u) ==> u == t;
    assert forall x :: V1(Some(x)) in parts ==> x == signature;
  }

  /** A header with one timestamp and one signature of 32 bytes is accepted exactly if there is a secret, the
      timestamp is within five minutes of now, and the signature is the one for it. */
  lemma SignedHeaderVerifies(secret: string, t: int, signature: seq<Byte>, now: int, fits: (int, seq<Byte>) -> bool)
    requires I64_MIN <= t <= I64_MAX && I64_MIN <= now <= I64_MAX && |signature| == 32
    ensures Accepts(secret, Header(t, signature), now, fits)
        <==> secret != "" && now - 300 <= t <= now + 300 && fits(t, signature)
  {
    HeaderParts(t, signature);
    HeaderShort(t, signature);
    FreshIs(t, now);
    SignedTwo(multiset(Parts(Split(Header(t, signature)))), t, signature, now, fits);
  }

  /** Nothing longer than 4096 characters is accepted, whatever it says. */
  lemma LongHeadersAreRefused(secret: string, header: string, now: int, fits: (int, seq<Byte>) -> bool)
    requires 4096 < |header|
    ensures !Accepts(secret, header, now, fits)
  {
  }

  /** A component without an equals sign, with a timestamp that is no number or with a signature that is not 64
      hexadecimal digits spoils the whole header, and so does a second timestamp. */
  lemma MalformedHeadersAreRefused(secret: string, header: string, now: int, fits: (int, seq<Byte>) -> bool, i: nat,
                                   j: nat)
    requires i < |Split(header)| && j < |Split(header)|
    requires var c, d := PartOf(Split(header)[i]), PartOf(Split(header)[j]);
      || '=' !in Trim(Split(header)[i]) || c == Timestamp(None) || c == V1(None)
      || (i != j && c.Timestamp? && d.Timestamp?)
    ensures !Accepts(secret, header, now, fits)
  {
    var components := Split(header);
    MappedAt(components, PartOf);
    var parts := Parts(components);
    assert parts[i] in multiset(parts) && parts[j] in multiset(parts);
    if '=' !in Trim(components[i]) {
      FindFirst(Trim(components[i]), |Trim(components[i])|, '=');
    } else if i != j && parts[i].Timestamp? && parts[j].Timestamp? {
      TwoStamps(parts, i, j);
    }
  }

  lemma Twice(parts: seq<Part>, a: nat, b: nat)
    requires a < b < |parts| && parts[a] == parts[b]
    ensures multiset(parts)[parts[a]] >= 2
  {
    assert parts == parts[..b] + [parts[b]] + parts[b + 1..];
    assert parts[..b][a] == parts[a] && parts[a] in multiset(parts[..b]);
    assert multiset(parts) == multiset(parts[..b]) + multiset{parts[b]} + multiset(parts[b + 1..]);
  }

  lemma TwoStamps(parts: seq<Part>, i: nat, j: nat)
    requires i < |parts| && j < |parts| && i != j && parts[i].Timestamp? && parts[j].Timestamp?
    ensures !WellFormed(multiset(parts)) || forall t :: !OnlyTimestamp(multiset(parts), t)
  {
    assert parts[i] in multiset(parts) && parts[j] in multiset(parts);
    if parts[i] == parts[j] { Twice(parts, if i < j then i else j, if i < j then j else i); }
    if parts[i].seconds.Some? && parts[j].seconds.Some? {
      var one, two := parts[i].seconds.value, parts[j].seconds.value;
      assert Timestamp(Some(one)) in multiset(parts) && Timestamp(Some(two)) in multiset(parts);
    }
  }
}
