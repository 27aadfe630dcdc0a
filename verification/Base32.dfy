/**
 * base32Encode and base32Decode of packages/auth/src/index.ts, with the accumulator that is never masked
 * and wraps at 32 bits; the alphabet and grouping are those of RFC 4648 section 6, without padding.
 */
module Base32 {
  import opened Wrappers

  type Byte = b: nat | b < 256
  type Quintet = q: nat | q < 32
  type Bit = b: nat | b < 2

  const WORD: nat := 0x1_0000_0000
  const MIN_LENGTH: nat := 16

  // ----- bits --------------------------------------------------------------------------------

  function Pow2(k: nat): (p: nat)
    ensures p > 0
  {
    if k == 0 then 1 else 2 * Pow2(k - 1)
  }

  lemma QuotientNatural(v: nat, d: nat)
    requires d > 0
    ensures v / d >= 0
  {
  }

  /** The unsigned right shift. */
  function ShiftRight(v: nat, b: nat): nat {
    QuotientNatural(v, Pow2(b));
    v / Pow2(b)
  }

  /** The low k bits of a number, most significant first. */
  function ToBits(v: nat, k: nat): (bits: seq<Bit>)
    ensures |bits| == k
  {
    if k == 0 then [] else ToBits(v / 2, k - 1) + [v % 2]
  }

  function Zeros(k: nat): (bits: seq<Bit>)
    ensures |bits| == k
  {
    if k == 0 then [] else Zeros(k - 1) + [0]
  }

  function BytesBits(bytes: seq<Byte>): (bits: seq<Bit>)
    ensures |bits| == 8 * |bytes|
  {
    if bytes == [] then [] else BytesBits(bytes[..|bytes| - 1]) + ToBits(bytes[|bytes| - 1], 8)
  }

  function QuintetsBits(quintets: seq<Quintet>): (bits: seq<Bit>)
    ensures |bits| == 5 * |quintets|
  {
    if quintets == [] then [] else QuintetsBits(quintets[..|quintets| - 1]) + ToBits(quintets[|quintets| - 1], 5)
  }

  lemma HalveTwice(v: nat, b: nat)
    ensures v / 2 / Pow2(b) == v / Pow2(b + 1)
  {
    DivideTwice(v, 2, Pow2(b));
  }

  lemma DivideTwice(v: nat, a: nat, b: nat)
    requires a > 0 && b > 0
    ensures a * b > 0 && v / a / b == v / (a * b)
  {
    var q := v / a / b;
    assert v / a == b * q + v / a % b;
    assert v == a * (v / a) + v % a;
    var r := a * (v / a % b) + v % a;
    assert v == a * b * q + r by {
      assert a * (b * q + v / a % b) == a * b * q + a * (v / a % b)
             by { Distributes(a, b * q, v / a % b); Regroups(a, b, q); }
    }
    assert 0 <= r < a * b by {
      assert v / a % b <= b - 1;
      Monotone(a, v / a % b, b - 1);
      Distributes(a, b, -1);
    }
    QuotientUnique(v, a * b, q, r);
  }

  lemma Distributes(a: int, b: int, c: int)
    ensures a * (b + c) == a * b + a * c
  {
  }

  lemma Regroups(a: int, b: int, c: int)
    ensures a * (b * c) == a * b * c
  {
  }

  lemma Monotone(a: nat, b: int, c: int)
    requires b <= c
    ensures a * b <= a * c
  {
  }

  lemma QuotientUnique(v: int, d: int, q: int, r: int)
    requires d > 0 && v == d * q + r && 0 <= r < d
    ensures v / d == q
  {
    var p, s := v / d, v % d;
    assert d * (q - p) == s - r;
    assert q - p >= 1 ==> d * (q - p) >= d;
    assert q - p <= -1 ==> d * (q - p) <= -d;
  }

  /** High bits and low bits. */
  lemma {:induction false} SplitBits(v: nat, a: nat, b: nat)
    ensures ToBits(v, a + b) == ToBits(ShiftRight(v, b), a) + ToBits(v, b)
  {
    if b == 0 {
      assert ToBits(v, 0) == [];
      assert v / 1 == v;
    } else {
      SplitBits(v / 2, a, b - 1);
      HalveTwice(v, b - 1);
      assert ShiftRight(v / 2, b - 1) == ShiftRight(v, b);
    }
  }

  /** Only the low bits matter. */
  lemma {:induction false} LowBits(v: nat, w: nat, k: nat)
    requires v % Pow2(k) == w % Pow2(k)
    ensures ToBits(v, k) == ToBits(w, k)
  {
    if k > 0 {
      HalvesAgree(v, w, Pow2(k - 1));
      LowBits(v / 2, w / 2, k - 1);
    }
  }

  lemma HalvesAgree(v: nat, w: nat, p: nat)
    requires p > 0 && v % (2 * p) == w % (2 * p)
    ensures v % 2 == w % 2 && v / 2 % p == w / 2 % p
  {
    Halves(v, p);
    Halves(w, p);
  }

  lemma Halves(v: nat, p: nat)
    requires p > 0
    ensures v % 2 == v % (2 * p) % 2 && v / 2 % p == v % (2 * p) / 2
  {
    var q, r := v / (2 * p), v % (2 * p);
    assert v == 2 * (p * q) + r by { Regroups(2, p, q); }
    assert v / 2 == p * q + r / 2;
    QuotientUnique(v / 2, p, q, r / 2);
    assert v / 2 % p == v / 2 - p * (v / 2 / p);
  }

  lemma WordBits(v: nat, k: nat)
    requires k <= 32
    ensures ToBits(v % WORD, k) == ToBits(v, k)
  {
    PowersDivide(k);
    var d := Pow2(32 - k);
    assert WORD == Pow2(k) * d;
    WrapsAround(v, Pow2(k), d);
    LowBits(v % WORD, v, k);
  }

  lemma PowersDivide(k: nat)
    requires k <= 32
    ensures Pow2(k) * Pow2(32 - k) == WORD
    decreases 32 - k
  {
    if k == 32 {
      PowerOfWord();
    } else {
      PowersDivide(k + 1);
      Regroups(Pow2(k), 2, Pow2(31 - k));
      assert Pow2(k) * 2 * Pow2(31 - k) == Pow2(k + 1) * Pow2(32 - (k + 1));
    }
  }

  lemma PowerOfWord()
    ensures Pow2(32) == WORD
  {
    assert Pow2(4) == 16;
    assert Pow2(8) == 256;
    assert Pow2(12) == 4096;
    assert Pow2(16) == 65536;
    assert Pow2(20) == 1048576;
    assert Pow2(24) == 16777216;
    assert Pow2(28) == 268435456;
  }

  lemma WrapsAround(v: nat, p: nat, d: nat)
    requires p > 0 && d > 0
    ensures p * d > 0 && v % (p * d) % p == v % p
  {
    var q, r := v / (p * d), v % (p * d);
    assert v == p * (d * q) + r by { Regroups(p, d, q); }
    var t := r / p;
    assert v == p * (d * q + t) + r % p by { Distributes(p, d * q, t); }
    QuotientUnique(v, p, d * q + t, r % p);
  }

  lemma Joined(acc: nat, value: nat, p: nat)
    requires p > 0 && value < p
    ensures (acc * p + value) / p == acc && (acc * p + value) % p == value && value % p == value
  {
    var v := acc * p + value;
    assert v == p * acc + value;
    RemainderOf(v, p, acc, value);
    RemainderOf(value, p, 0, value);
  }

  /** Shifting a value in appends its bits; p is the weight of the shift. */
  lemma ShiftIn(acc: nat, bits: nat, value: nat, width: nat, p: nat)
    requires bits + width <= 32 && p == Pow2(width) && value < p
    ensures ToBits((acc * p + value) % WORD, bits + width) == ToBits(acc, bits) + ToBits(value, width)
  {
    hide ToBits, Pow2;
    var v := acc * p + value;
    Joined(acc, value, p);
    WordBits(v, bits + width);
    SplitBits(v, bits, width);
    assert ShiftRight(v, width) == acc;
    LowBits(v, value, width);
  }

  lemma RemainderOf(v: int, d: int, q: int, r: int)
    requires d > 0 && v == d * q + r && 0 <= r < d
    ensures v % d == r
  {
    QuotientUnique(v, d, q, r);
  }

  lemma {:induction false} ZerosShifted(v: nat, k: nat, z: nat)
    ensures ToBits(v * Pow2(z), k + z) == ToBits(v, k) + Zeros(z)
  {
    if z == 0 {
      assert v * 1 == v;
      assert ToBits(v, k) + [] == ToBits(v, k);
    } else {
      ZerosShifted(v, k, z - 1);
      assert v * Pow2(z) == 2 * (v * Pow2(z - 1));
      assert ToBits(v, k) + Zeros(z) == ToBits(v, k) + Zeros(z - 1) + [0];
    }
  }

  lemma FiveBits()
    ensures Pow2(5) == 32
  {
    assert Pow2(2) == 4;
  }

  lemma EightBits()
    ensures Pow2(8) == 256
  {
    assert Pow2(4) == 16;
  }

  lemma Regroup(a: seq<Bit>, b: seq<Bit>, c: seq<Bit>)
    ensures a + (b + c) == a + b + c
  {
  }

  // ----- alphabet ----------------------------------------------------------------------------

  const ALPHABET: string := "ABCDEFGHIJKLMNOPQRSTUVWXYZ234567"

  function ValueOf(c: char): Option<Quintet> {
    if 'A' <= c <= 'Z' then Some((c - 'A') as int) else if '2' <= c <= '7' then Some((c - '2') as int + 26) else None
  }

  lemma Symbols(q: Quintet)
    ensures |ALPHABET| == 32 && ValueOf(ALPHABET[q]) == Some(q)
    ensures ALPHABET[q] != '=' && Upper(ALPHABET[q]) == [ALPHABET[q]]
  {
  }

  /**
   * The upper case of one character. Besides the letters of ASCII only ten characters have an upper case in them; that
   * of any other character, represented by itself, is no symbol of the alphabet either.
   */
  function Upper(c: char): string {
    if 'a' <= c <= 'z' then [c - 'a' + 'A']
    else if c == '\U{131}' then "I"
    else if c == '\U{17F}' then "S"
    else if c == '\U{DF}' then "SS"
    else if c == '\U{FB00}' then "FF"
    else if c == '\U{FB01}' then "FI"
    else if c == '\U{FB02}' then "FL"
    else if c == '\U{FB03}' then "FFI"
    else if c == '\U{FB04}' then "FFL"
    else if c == '\U{FB05}' || c == '\U{FB06}' then "ST"
    else [c]
  }

  function UpperText(text: string): string {
    if text == [] then [] else UpperText(text[..|text| - 1]) + Upper(text[|text| - 1])
  }

  predicate Readable(text: string) {
    forall i :: 0 <= i < |text| ==> ValueOf(text[i]).Some?
  }

  function Quintets(text: string): (quintets: seq<Quintet>)
    requires Readable(text)
    ensures |quintets| == |text|
  {
    seq(|text|, i requires 0 <= i < |text| => ValueOf(text[i]).value)
  }

  /** Trailing padding is dropped. */
  function Unpadded(text: string): string {
    if text != [] && text[|text| - 1] == '=' then Unpadded(text[..|text| - 1]) else text
  }

  function Normalized(text: string): string {
    UpperText(Unpadded(text))
  }

  // ----- encoding and decoding ---------------------------------------------------------------

  /** A text that spells the bits of some bytes, padded with less than one symbol of zeros. */
  ghost predicate Encodes(text: string, bytes: seq<Byte>) {
    && Readable(text)
    && (forall i :: 0 <= i < |text| ==> Upper(text[i]) == [text[i]] && text[i] != '=')
    && 8 * |bytes| <= 5 * |text| < 8 * |bytes| + 5
    && QuintetsBits(Quintets(text)) == BytesBits(bytes) + Zeros(5 * |text| - 8 * |bytes|)
  }

  /** The bytes that a text spells, its incomplete last byte dropped. */
  ghost predicate Decodes(text: string, bytes: seq<Byte>) {
    && Readable(text)
    && 8 * |bytes| <= 5 * |text| < 8 * |bytes| + 8
    && BytesBits(bytes) == QuintetsBits(Quintets(text))[..8 * |bytes|]
  }

  lemma {:induction false} BitsDetermine(v: nat, w: nat, k: nat)
    requires v < Pow2(k) && w < Pow2(k) && ToBits(v, k) == ToBits(w, k)
    ensures v == w
  {
    if k > 0 {
      var a, b := ToBits(v, k), ToBits(w, k);
      assert a[..k - 1] == ToBits(v / 2, k - 1) && b[..k - 1] == ToBits(w / 2, k - 1);
      assert a[k - 1] == v % 2 && b[k - 1] == w % 2;
      BitsDetermine(v / 2, w / 2, k - 1);
    }
  }

  /** Bits determine bytes. */
  lemma {:induction false} BytesDetermined(a: seq<Byte>, b: seq<Byte>)
    requires BytesBits(a) == BytesBits(b)
    ensures a == b
  {
    if a != [] {
      var n := |a| - 1;
      var x, y := BytesBits(a), BytesBits(b);
      assert x[..8 * n] == BytesBits(a[..n]) && y[..8 * n] == BytesBits(b[..n]);
      assert x[8 * n..] == ToBits(a[n], 8) && y[8 * n..] == ToBits(b[n], 8);
      EightBits();
      BitsDetermine(a[n], b[n], 8);
      BytesDetermined(a[..n], b[..n]);
      assert a == a[..n] + [a[n]] && b == b[..n] + [b[n]];
    }
  }

  /** Whatever text encodes some bytes decodes to exactly those bytes. */
  lemma DecodesWhatEncodes(text: string, bytes: seq<Byte>, decoded: seq<Byte>)
    requires Encodes(text, bytes) && Decodes(text, decoded)
    ensures decoded == bytes
  {
    assert |decoded| == |bytes|;
    BytesDetermined(decoded, bytes);
  }

  /** An encoding reaches the decoder's minimum exactly from ten bytes on. */
  lemma LongEnough(text: string, bytes: seq<Byte>)
    requires Encodes(text, bytes)
    ensures |text| >= MIN_LENGTH <==> |bytes| >= 10
  {
  }

  lemma {:induction false} UpperSame(text: string)
    requires forall i :: 0 <= i < |text| ==> Upper(text[i]) == [text[i]]
    ensures UpperText(text) == text
  {
    if text != [] {
      UpperSame(text[..|text| - 1]);
      assert text == text[..|text| - 1] + [text[|text| - 1]];
    }
  }

  lemma UnpaddedSame(text: string)
    requires forall i :: 0 <= i < |text| ==> Upper(text[i]) == [text[i]] && text[i] != '='
    ensures Normalized(text) == text
  {
    UpperSame(text);
  }

  /** Emitting the top five pending bits. */
  lemma Emit(acc: nat, bits: nat, quintets: seq<Quintet>)
    requires bits >= 5
    ensures QuintetsBits(quintets + [ShiftRight(acc, bits - 5) % 32]) + ToBits(acc, bits - 5) ==
            QuintetsBits(quintets) + ToBits(acc, bits)
  {
    var q: Quintet := ShiftRight(acc, bits - 5) % 32;
    assert (quintets + [q])[..|quintets|] == quintets;
    SplitBits(acc, 5, bits - 5);
    FiveBits();
    LowBits(ShiftRight(acc, bits - 5), q, 5);
  }

  /** What has been written so far spells the bits taken from the input, the pending ones in the accumulator. */
  ghost predicate Spelling(output: string, quintets: seq<Quintet>, accumulator: nat, bits: nat, taken: seq<Bit>) {
    && |quintets| == |output|
    && (forall j :: 0 <= j < |output| ==> output[j] == ALPHABET[quintets[j]])
    && QuintetsBits(quintets) + ToBits(accumulator, bits) == taken
  }

  method EmitSymbols(output: string, ghost quintets: seq<Quintet>, accumulator: nat, bits: nat, ghost taken: seq<Bit>)
    returns (longer: string, left: nat, ghost more: seq<Quintet>)
    requires Spelling(output, quintets, accumulator, bits, taken)
    ensures left < 5 && Spelling(longer, more, accumulator, left, taken)
  {
    hide ToBits, QuintetsBits, ShiftRight;
    longer, left, more := output, bits, quintets;
    while left >= 5
      invariant Spelling(longer, more, accumulator, left, taken)
    {
      var symbol: Quintet := ShiftRight(accumulator, left - 5) % 32;
      Emit(accumulator, left, more);
      longer := longer + [ALPHABET[symbol]];
      more := more + [symbol];
      left := left - 5;
    }
  }

  method Base32Encode(input: seq<Byte>) returns (output: string)
    ensures Encodes(output, input)
  {
    hide ToBits, BytesBits, QuintetsBits, Encodes, Pow2;
    var bits: nat, accumulator: nat := 0, 0;
    ghost var quintets: seq<Quintet> := [];
    output := "";
    NothingSpelled(input);
    for i := 0 to |input|
      invariant bits < 5 && Spelling(output, quintets, accumulator, bits, BytesBits(input[..i]))
    {
      AppendByte(accumulator, bits, (accumulator * 256 + input[i]) % WORD, quintets, input, i);
      accumulator := (accumulator * 256 + input[i]) % WORD;
      output, bits, quintets := EmitSymbols(output, quintets, accumulator, bits + 8, BytesBits(input[..i + 1]));
    }
    assert input[..|input|] == input;
    SpelledLength(quintets, accumulator, bits, input);
    if bits > 0 {
      var symbol: Quintet := (accumulator * Pow2(5 - bits)) % WORD % 32;
      LastSymbol(accumulator, bits, quintets);
      output := output + [ALPHABET[symbol]];
      quintets := quintets + [symbol];
      Spelled(output, quintets, input, 5 - bits);
    } else {
      Complete(quintets, accumulator, input);
      Spelled(output, quintets, input, 0);
    }
  }

  lemma NothingSpelled(input: seq<Byte>)
    ensures Spelling("", [], 0, 0, BytesBits(input[..0]))
  {
    assert input[..0] == [];
  }

  lemma SpelledLength(quintets: seq<Quintet>, accumulator: nat, bits: nat, input: seq<Byte>)
    requires QuintetsBits(quintets) + ToBits(accumulator, bits) == BytesBits(input)
    ensures 5 * |quintets| + bits == 8 * |input|
  {
    hide ToBits, BytesBits, QuintetsBits;
    assert |QuintetsBits(quintets) + ToBits(accumulator, bits)| ==
           |QuintetsBits(quintets)| + |ToBits(accumulator, bits)|;
  }

  lemma Complete(quintets: seq<Quintet>, accumulator: nat, input: seq<Byte>)
    requires QuintetsBits(quintets) + ToBits(accumulator, 0) == BytesBits(input)
    ensures QuintetsBits(quintets) == BytesBits(input) + Zeros(0)
  {
    hide QuintetsBits, BytesBits;
    assert ToBits(accumulator, 0) == [] && Zeros(0) == [];
    assert QuintetsBits(quintets) + [] == QuintetsBits(quintets) && BytesBits(input) + [] == BytesBits(input);
  }

  lemma AppendByte(before: nat, bits: nat, accumulator: nat, quintets: seq<Quintet>, input: seq<Byte>, i: nat)
    requires bits < 5 && i < |input| && accumulator == (before * 256 + input[i]) % WORD
    requires QuintetsBits(quintets) + ToBits(before, bits) == BytesBits(input[..i])
    ensures QuintetsBits(quintets) + ToBits(accumulator, bits + 8) == BytesBits(input[..i + 1])
  {
    hide ToBits, QuintetsBits;
    EightBits();
    ShiftIn(before, bits, input[i], 8, 256);
    assert input[..i + 1][..i] == input[..i];
    Regroup(QuintetsBits(quintets), ToBits(before, bits), ToBits(input[i], 8));
  }

  lemma LastSymbol(accumulator: nat, bits: nat, quintets: seq<Quintet>)
    requires 0 < bits < 5
    ensures QuintetsBits(quintets + [(accumulator * Pow2(5 - bits)) % WORD % 32])
            == QuintetsBits(quintets) + ToBits(accumulator, bits) + Zeros(5 - bits)
  {
    var shifted := accumulator * Pow2(5 - bits);
    var q: Quintet := shifted % WORD % 32;
    assert (quintets + [q])[..|quintets|] == quintets;
    WordBits(shifted, 5);
    FiveBits();
    LowBits(shifted % WORD, q, 5);
    ZerosShifted(accumulator, bits, 5 - bits);
  }

  lemma Spelled(output: string, quintets: seq<Quintet>, input: seq<Byte>, padding: nat)
    requires |quintets| == |output| && padding < 5 && 5 * |quintets| == 8 * |input| + padding
    requires forall j :: 0 <= j < |output| ==> output[j] == ALPHABET[quintets[j]]
    requires QuintetsBits(quintets) == BytesBits(input) + Zeros(padding)
    ensures Encodes(output, input)
  {
    forall j | 0 <= j < |output|
      ensures ValueOf(output[j]) == Some(quintets[j]) && Upper(output[j]) == [output[j]] && output[j] != '='
    {
      Symbols(quintets[j]);
    }
    assert Quintets(output) == quintets;
  }

  method Base32Decode(input: string) returns (output: Result<seq<Byte>>)
    ensures output.Ok? <==> |Normalized(input)| >= MIN_LENGTH && Readable(Normalized(input))
    ensures output.Err? ==> output.error == VALIDATION_ERROR
    ensures output.Ok? ==> Decodes(Normalized(input), output.value)
  {
    var normalized := Normalized(input);
    if |normalized| < MIN_LENGTH || !Readable(normalized) {
      return Err(VALIDATION_ERROR);
    }
    var bytes := DecodeQuintets(Quintets(normalized));
    return Ok(bytes);
  }

  method DecodeQuintets(quintets: seq<Quintet>) returns (bytes: seq<Byte>)
    ensures 8 * |bytes| <= 5 * |quintets| < 8 * |bytes| + 8
    ensures BytesBits(bytes) == QuintetsBits(quintets)[..8 * |bytes|]
  {
    hide ToBits, BytesBits, QuintetsBits, ShiftRight;
    var bits: nat, accumulator: nat := 0, 0;
    bytes := [];
    NothingRead(quintets);
    for i := 0 to |quintets|
      invariant bits < 8 && 8 * |bytes| + bits == 5 * i
      invariant BytesBits(bytes) + ToBits(accumulator, bits) == QuintetsBits(quintets[..i])
    {
      AppendQuintet(accumulator, bits, (accumulator * 32 + quintets[i]) % WORD, bytes, quintets, i);
      accumulator := (accumulator * 32 + quintets[i]) % WORD;
      bits := bits + 5;
      if bits >= 8 {
        EmitByte(accumulator, bits, bytes);
        bits := bits - 8;
        bytes := bytes + [ShiftRight(accumulator, bits) % 256];
      }
    }
    assert quintets[..|quintets|] == quintets;
    assert BytesBits(bytes) == (BytesBits(bytes) + ToBits(accumulator, bits))[..8 * |bytes|];
  }

  lemma NothingRead(quintets: seq<Quintet>)
    ensures BytesBits([]) + ToBits(0, 0) == QuintetsBits(quintets[..0])
  {
    assert quintets[..0] == [];
  }

  lemma AppendQuintet(before: nat, bits: nat, accumulator: nat, bytes: seq<Byte>, quintets: seq<Quintet>, i: nat)
    requires bits < 8 && i < |quintets| && accumulator == (before * 32 + quintets[i]) % WORD
    requires BytesBits(bytes) + ToBits(before, bits) == QuintetsBits(quintets[..i])
    ensures BytesBits(bytes) + ToBits(accumulator, bits + 5) == QuintetsBits(quintets[..i + 1])
  {
    hide ToBits, BytesBits;
    FiveBits();
    ShiftIn(before, bits, quintets[i], 5, 32);
    assert quintets[..i + 1][..i] == quintets[..i];
    Regroup(BytesBits(bytes), ToBits(before, bits), ToBits(quintets[i], 5));
  }

  lemma EmitByte(acc: nat, bits: nat, bytes: seq<Byte>)
    requires bits >= 8
    ensures BytesBits(bytes + [ShiftRight(acc, bits - 8) % 256]) + ToBits(acc, bits - 8) ==
            BytesBits(bytes) + ToBits(acc, bits)
  {
    var b: Byte := ShiftRight(acc, bits - 8) % 256;
    assert (bytes + [b])[..|bytes|] == bytes;
    SplitBits(acc, 8, bits - 8);
    EightBits();
    LowBits(ShiftRight(acc, bits - 8), b, 8);
  }

  /** The round trip: every secret of ten bytes or more comes back, every shorter one is refused. */
  method EncodeThenDecode(secret: seq<Byte>) returns (restored: Result<seq<Byte>>)
    ensures restored == if |secret| >= 10 then Ok(secret) else Err(VALIDATION_ERROR)
  {
    var text := Base32Encode(secret);
    UnpaddedSame(text);
    LongEnough(text, secret);
    restored := Base32Decode(text);
    if restored.Ok? {
      DecodesWhatEncodes(text, secret, restored.value);
    }
  }
}
