// Page tokens: "prefix:number" in unpadded base64url. Go strings are byte strings, so
// tokens and prefixes are sequences of bytes here.
module Base64Url {
  import opened Outcomes

  type Byte = x: int | 0 <= x < 256
  type Bytes = seq<Byte>
  type Sextet = x: int | 0 <= x < 64

  // The URL and filename safe alphabet, section 5 of RFC 4648.
  function Digit(v: Sextet): Byte {
    if v < 26 then 65 + v            // A-Z
    else if v < 52 then 97 + v - 26  // a-z
    else if v < 62 then 48 + v - 52  // 0-9
    else if v == 62 then 45          // -
    else 95                          // _
  }

  function Value(c: Byte): (v: int)
    ensures -1 <= v < 64
  {
    if 65 <= c <= 90 then c - 65
    else if 97 <= c <= 122 then c - 97 + 26
    else if 48 <= c <= 57 then c - 48 + 52
    else if c == 45 then 62
    else if c == 95 then 63
    else -1
  }

  lemma ValueOfDigit(v: Sextet)
    ensures Value(Digit(v)) == v
  {
  }

  // The sextets of a full group.
  function Sextets(a: Byte, b: Byte, c: Byte): (Sextet, Sextet, Sextet, Sextet) {
    (a / 4, a % 4 * 16 + b / 16, b % 16 * 4 + c / 64, c % 64)
  }

  function Digits(q: (Sextet, Sextet, Sextet, Sextet)): Bytes {
    [Digit(q.0), Digit(q.1), Digit(q.2), Digit(q.3)]
  }

  // EncodeToString without padding, section 3.2 of RFC 4648.
  function Encode(d: Bytes): Bytes {
    if |d| == 0 then []
    else if |d| == 1 then [Digit(d[0] / 4), Digit(d[0] % 4 * 16)]
    else if |d| == 2 then [Digit(d[0] / 4), Digit(d[0] % 4 * 16 + d[1] / 16), Digit(d[1] % 16 * 4)]
    else Digits(Sextets(d[0], d[1], d[2])) + Encode(d[3..])
  }

  // The decoder skips carriage returns and line feeds anywhere.
  function StripNewlines(s: Bytes): (r: Bytes)
    ensures |r| <= |s|
  {
    if s == [] then [] else
    if s[0] == 13 || s[0] == 10 then StripNewlines(s[1..]) else [s[0]] + StripNewlines(s[1..])
  }

  // The bytes that up to four sextets stand for.
  function Join(w: Sextet, x: Sextet): Byte { w * 4 + x / 16 }
  function JoinNext(x: Sextet, y: Sextet): Byte { x % 16 * 16 + y / 4 }
  function JoinLast(y: Sextet, z: Sextet): Byte { y % 4 * 64 + z }

  // Quanta of the decoder; left-over low bits of the last one are not checked.
  function DecodeQuanta(s: Bytes): Option<Bytes> {
    if |s| == 0 then Some([])
    else if |s| == 1 then None
    else if Value(s[0]) < 0 || Value(s[1]) < 0 then None
    else if |s| == 2 then Some([Join(Value(s[0]), Value(s[1]))])
    else if Value(s[2]) < 0 then None
    else if |s| == 3 then Some([Join(Value(s[0]), Value(s[1])), JoinNext(Value(s[1]), Value(s[2]))])
    else if Value(s[3]) < 0 then None
    else match DecodeQuanta(s[4..])
      case None => None
      case Some(rest) =>
        Some([Join(Value(s[0]), Value(s[1])), JoinNext(Value(s[1]), Value(s[2])), JoinLast(Value(s[2]), Value(s[3]))]
             + rest)
  }

  function Decode(s: Bytes): Option<Bytes> {
    DecodeQuanta(StripNewlines(s))
  }

  // Every encoded byte is a digit of the alphabet.
  predicate IsDigit(c: Byte) {
    Value(c) >= 0
  }

  lemma {:induction false} EncodeUsesAlphabet(d: Bytes)
    ensures forall c :: c in Encode(d) ==> IsDigit(c)
  {
    if |d| >= 3 {
      EncodeUsesAlphabet(d[3..]);
    }
  }

  lemma {:induction false} NothingToStrip(s: Bytes)
    requires forall c :: c in s ==> IsDigit(c)
    ensures StripNewlines(s) == s
  {
    if s != [] {
      assert s[0] in s;
      NothingToStrip(s[1..]);
    }
  }

  lemma GroupRoundTrip(a: Byte, b: Byte, c: Byte)
    ensures Join(a / 4, a % 4 * 16 + b / 16) == a
    ensures JoinNext(a % 4 * 16 + b / 16, b % 16 * 4 + c / 64) == b
    ensures JoinLast(b % 16 * 4 + c / 64, c % 64) == c
  {
  }

  lemma DecodeOne(w: Sextet, x: Sextet)
    ensures DecodeQuanta([Digit(w), Digit(x)]) == Some([Join(w, x)])
  {
    ValueOfDigit(w);
    ValueOfDigit(x);
  }

  lemma DecodeTwo(w: Sextet, x: Sextet, y: Sextet)
    ensures DecodeQuanta([Digit(w), Digit(x), Digit(y)]) == Some([Join(w, x), JoinNext(x, y)])
  {
    ValueOfDigit(w);
    ValueOfDigit(x);
    ValueOfDigit(y);
  }

  lemma DecodeFull(w: Sextet, x: Sextet, y: Sextet, z: Sextet, rest: Bytes)
    requires DecodeQuanta(rest).Some?
    ensures DecodeQuanta([Digit(w), Digit(x), Digit(y), Digit(z)] + rest)
            == Some([Join(w, x), JoinNext(x, y), JoinLast(y, z)] + DecodeQuanta(rest).value)
  {
    ValueOfDigit(w);
    ValueOfDigit(x);
    ValueOfDigit(y);
    ValueOfDigit(z);
    assert ([Digit(w), Digit(x), Digit(y), Digit(z)] + rest)[4..] == rest;
  }

  lemma RoundTripOne(a: Byte)
    ensures DecodeQuanta(Encode([a])) == Some([a])
  {
    GroupRoundTrip(a, 0, 0);
    DecodeOne(a / 4, a % 4 * 16);
  }

  lemma RoundTripTwo(a: Byte, b: Byte)
    ensures DecodeQuanta(Encode([a, b])) == Some([a, b])
  {
    GroupRoundTrip(a, b, 0);
    DecodeTwo(a / 4, a % 4 * 16 + b / 16, b % 16 * 4);
  }

  function Joined(q: (Sextet, Sextet, Sextet, Sextet)): Bytes {
    [Join(q.0, q.1), JoinNext(q.1, q.2), JoinLast(q.2, q.3)]
  }

  lemma SextetsJoin(a: Byte, b: Byte, c: Byte)
    ensures Joined(Sextets(a, b, c)) == [a, b, c]
  {
    GroupRoundTrip(a, b, c);
  }

  lemma DecodeGroup(e: Bytes, q: (Sextet, Sextet, Sextet, Sextet), tail: Bytes, rest: Bytes)
    requires e == Digits(q) + tail && DecodeQuanta(tail) == Some(rest)
    ensures DecodeQuanta(e) == Some(Joined(q) + rest)
  {
    DecodeFull(q.0, q.1, q.2, q.3, tail);
  }

  lemma {:induction false} DecodeQuantaEncode(d: Bytes)
    ensures DecodeQuanta(Encode(d)) == Some(d)
  {
    if |d| == 1 {
      assert d == [d[0]];
      RoundTripOne(d[0]);
    } else if |d| == 2 {
      assert d == [d[0], d[1]];
      RoundTripTwo(d[0], d[1]);
    } else if |d| >= 3 {
      DecodeQuantaEncode(d[3..]);
      DecodeGroup(Encode(d), Sextets(d[0], d[1], d[2]), Encode(d[3..]), d[3..]);
      SextetsJoin(d[0], d[1], d[2]);
      assert d == [d[0], d[1], d[2]] + d[3..];
    }
  }

  lemma RoundTrip(d: Bytes)
    ensures Decode(Encode(d)) == Some(d)
  {
    EncodeUsesAlphabet(d);
    NothingToStrip(Encode(d));
    DecodeQuantaEncode(d);
  }
}

module PageToken {
  import opened Outcomes
  import opened Base64Url

  const DEFAULT_PAGE_SIZE: nat := 50
  const MAX_PAGE_SIZE: nat := 200

  // pageSize; 0 also stands for a missing page request.
  function PageSize(requested: nat): (size: nat)
    ensures 1 <= size <= MAX_PAGE_SIZE
    ensures 1 <= requested <= MAX_PAGE_SIZE ==> size == requested
    ensures requested == 0 ==> size == DEFAULT_PAGE_SIZE
    ensures requested > MAX_PAGE_SIZE ==> size == MAX_PAGE_SIZE
  {
    if requested == 0 then DEFAULT_PAGE_SIZE
    else if requested > MAX_PAGE_SIZE then MAX_PAGE_SIZE
    else requested
  }

  const COLON: Byte := 58
  const PLUS: Byte := 43
  const MINUS: Byte := 45
  const TWO_63 := 0x8000_0000_0000_0000
  const TWO_64 := 0x1_0000_0000_0000_0000

  type Int64 = n: int | -TWO_63 <= n < TWO_63
  type Uint64 = n: int | 0 <= n < TWO_64

  // fmt's %d of a non-negative number.
  function Decimal(n: nat): (r: Bytes)
    ensures r != []
  {
    if n < 10 then [48 + n] else Decimal(n / 10) + [48 + n % 10]
  }

  predicate IsDecimalDigit(c: Byte) {
    48 <= c <= 57
  }

  // The digits of a number, most significant first; None unless all are digits.
  function ParseDigits(s: Bytes): Option<nat> {
    if s == [] then Some(0) else
    var last := s[|s| - 1];
    match ParseDigits(s[..|s| - 1])
    case None => None
    case Some(v) => if IsDecimalDigit(last) then Some(v * 10 + (last - 48)) else None
  }

  // strconv.Atoi for a 64-bit int.
  function Atoi(s: Bytes): Result<Int64> {
    var negative := s != [] && s[0] == MINUS;
    var digits := if s != [] && (s[0] == MINUS || s[0] == PLUS) then s[1..] else s;
    if digits == [] then Err else
    match ParseDigits(digits)
    case None => Err
    case Some(v) =>
      if negative then (if v <= TWO_63 then var w: int := v; Ok(-w) else Err)
      else if v < TWO_63 then Ok(v) else Err
  }

  // strconv.ParseUint in base 10 with 64 bits.
  function ParseUint(s: Bytes): Result<Uint64> {
    if s == [] then Err else
    match ParseDigits(s)
    case None => Err
    case Some(v) => if v < TWO_64 then Ok(v) else Err
  }

  // Index of the first colon, or the length.
  function FirstColon(s: Bytes): (i: nat)
    ensures i <= |s| && (i < |s| ==> s[i] == COLON)
    ensures forall k :: 0 <= k < i ==> s[k] != COLON
  {
    if s == [] || s[0] == COLON then 0 else 1 + FirstColon(s[1..])
  }

  // strings.TrimSpace(token) == "" on UTF-8: the token is a run of encoded white space.
  predicate Blank(s: Bytes) {
    if s == [] then true
    else if 9 <= s[0] <= 13 || s[0] == 32 then Blank(s[1..])
    else if |s| >= 2 && s[0] == 0xC2 && (s[1] == 0x85 || s[1] == 0xA0) then Blank(s[2..])
    else if |s| >= 3 && IsWideSpace(s[0], s[1], s[2]) then Blank(s[3..])
    else false
  }

  // U+1680, U+2000 to U+200A, U+2028, U+2029, U+202F, U+205F and U+3000.
  predicate IsWideSpace(a: Byte, b: Byte, c: Byte) {
    || (a == 0xE1 && b == 0x9A && c == 0x80)
    || (a == 0xE2 && b == 0x80 && (0x80 <= c <= 0x8A || c == 0xA8 || c == 0xA9 || c == 0xAF))
    || (a == 0xE2 && b == 0x81 && c == 0x9F)
    || (a == 0xE3 && b == 0x80 && c == 0x80)
  }

  function Raw(prefix: Bytes, n: nat): Bytes {
    prefix + [COLON] + Decimal(n)
  }

  // offsetToken.
  function OffsetToken(prefix: Bytes, offset: Int64): Bytes {
    if offset <= 0 then [] else Encode(Raw(prefix, offset))
  }

  // sequenceToken.
  function SequenceToken(prefix: Bytes, sequence: Uint64): Bytes {
    if sequence == 0 then [] else Encode(Raw(prefix, sequence))
  }

  // The shared front of both decoders: the text behind the expected prefix.
  function TokenNumber(token: Bytes, prefix: Bytes): Result<Bytes> {
    match Decode(token)
    case None => Err
    case Some(raw) =>
      var i := FirstColon(raw);
      if i == |raw| || raw[..i] != prefix then Err else Ok(raw[i + 1..])
  }

  // decodeOffset.
  function DecodeOffset(token: Bytes, prefix: Bytes): Result<nat> {
    if Blank(token) then Ok(0) else
    match TokenNumber(token, prefix)
    case Err => Err
    case Ok(number) =>
      match Atoi(number)
      case Err => Err
      case Ok(offset) => if offset < 0 then Err else Ok(offset)
  }

  // decodeSequence.
  function DecodeSequence(token: Bytes, prefix: Bytes): Result<nat> {
    if Blank(token) then Ok(0) else
    match TokenNumber(token, prefix)
    case Err => Err
    case Ok(number) =>
      match ParseUint(number)
      case Err => Err
      case Ok(sequence) => Ok(sequence)
  }

  lemma {:induction false} ParseDecimal(n: nat)
    ensures ParseDigits(Decimal(n)) == Some(n)
    ensures IsDecimalDigit(Decimal(n)[0])
  {
    if n < 10 {
      assert [48 + n][..0] == [];
      assert ParseDigits([]) == Some(0);
    } else {
      ParseDecimal(n / 10);
      assert Decimal(n)[..|Decimal(n)| - 1] == Decimal(n / 10);
    }
  }

  lemma {:induction false} ColonAfterPrefix(prefix: Bytes, rest: Bytes)
    requires COLON !in prefix
    ensures FirstColon(prefix + [COLON] + rest) == |prefix|
  {
    if prefix != [] {
      assert (prefix + [COLON] + rest)[1..] == prefix[1..] + [COLON] + rest;
      ColonAfterPrefix(prefix[1..], rest);
    }
  }

  lemma MintedIsNotBlank(prefix: Bytes, n: nat)
    ensures !Blank(Encode(Raw(prefix, n)))
  {
    var raw := Raw(prefix, n);
    var token := Encode(raw);
    EncodeUsesAlphabet(raw);
    assert |raw| >= 2;
    assert token[0] in token && IsDigit(token[0]);
  }

  // A minted token decodes under the prefix it was minted with, exactly when that prefix
  // is colon-free, and under no other prefix.
  lemma NumberOfMinted(prefix: Bytes, n: nat, other: Bytes)
    ensures COLON !in prefix ==> TokenNumber(Encode(Raw(prefix, n)), prefix) == Ok(Decimal(n))
    ensures COLON in prefix ==> TokenNumber(Encode(Raw(prefix, n)), prefix) == Err
    ensures COLON !in prefix && other != prefix ==> TokenNumber(Encode(Raw(prefix, n)), other) == Err
  {
    var raw := Raw(prefix, n);
    RoundTrip(raw);
    if COLON in prefix {
      var k :| 0 <= k < |prefix| && prefix[k] == COLON;
      assert raw[k] == COLON;
      assert FirstColon(raw) <= k;
    } else {
      ColonAfterPrefix(prefix, Decimal(n));
      assert raw[..|prefix|] == prefix;
      assert raw[|prefix| + 1..] == Decimal(n);
    }
  }

  lemma OffsetRoundTrip(prefix: Bytes, offset: Int64)
    ensures COLON !in prefix || offset <= 0 ==>
              DecodeOffset(OffsetToken(prefix, offset), prefix) == Ok(if offset <= 0 then 0 else offset)
    ensures COLON in prefix && offset > 0 ==> DecodeOffset(OffsetToken(prefix, offset), prefix) == Err
  {
    if offset > 0 {
      MintedIsNotBlank(prefix, offset);
      NumberOfMinted(prefix, offset, prefix);
      ParseDecimal(offset);
    }
  }

  lemma OffsetWrongPrefix(prefix: Bytes, offset: Int64, other: Bytes)
    requires COLON !in prefix && other != prefix
    ensures DecodeOffset(OffsetToken(prefix, offset), other) == if offset <= 0 then Ok(0) else Err
  {
    if offset > 0 {
      MintedIsNotBlank(prefix, offset);
      NumberOfMinted(prefix, offset, other);
    }
  }

  lemma SequenceRoundTrip(prefix: Bytes, sequence: Uint64)
    ensures COLON !in prefix || sequence == 0 ==>
              DecodeSequence(SequenceToken(prefix, sequence), prefix) == Ok(sequence)
    ensures COLON in prefix && sequence > 0 ==> DecodeSequence(SequenceToken(prefix, sequence), prefix) == Err
  {
    if sequence > 0 {
      MintedIsNotBlank(prefix, sequence);
      NumberOfMinted(prefix, sequence, prefix);
      ParseDecimal(sequence);
    }
  }

  lemma SequenceWrongPrefix(prefix: Bytes, sequence: Uint64, other: Bytes)
    requires COLON !in prefix && other != prefix
    ensures DecodeSequence(SequenceToken(prefix, sequence), other) == if sequence == 0 then Ok(0) else Err
  {
    if sequence > 0 {
      MintedIsNotBlank(prefix, sequence);
      NumberOfMinted(prefix, sequence, other);
    }
  }
}
