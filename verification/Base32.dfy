/**
 * Base32 as the authenticator secrets use it (totp.ts, base32Encode and base32Decode; section 6
 * of RFC 4648, without padding characters). The accumulator is a 32-bit integer that is never
 * masked: it overflows on every long input, and only its low bits are ever read.
 */
module Base32 {
  import opened Base

  const ALPHABET: string := "ABCDEFGHIJKLMNOPQRSTUVWXYZ234567"

  // ---------------------------------------------------------------- bits of a 32-bit integer

  /** Bit `i` of a word. */
  predicate Bit(v: bv32, i: nat)
    requires i < 12
  {
    match i
    case 0 => v & 0x1 != 0
    case 1 => v & 0x2 != 0
    case 2 => v & 0x4 != 0
    case 3 => v & 0x8 != 0
    case 4 => v & 0x10 != 0
    case 5 => v & 0x20 != 0
    case 6 => v & 0x40 != 0
    case 7 => v & 0x80 != 0
    case 8 => v & 0x100 != 0
    case 9 => v & 0x200 != 0
    case 10 => v & 0x400 != 0
    case 11 => v & 0x800 != 0
  }

  /** The bits of a word by position. */
  function Bits(v: bv32): int -> bool {
    i => 0 <= i < 12 && Bit(v, i)
  }

  /** The first `k` of some bits, the most significant first. */
  function Listed(bits: int -> bool, k: nat): (r: seq<bool>)
    ensures |r| == k
  {
    seq(k, j requires 0 <= j < k => bits(k - 1 - j))
  }

  /** The `k` low bits of a word, the most significant first. */
  function LowBits(v: bv32, k: nat): (r: seq<bool>)
    requires k <= 12
    ensures |r| == k
  {
    Listed(Bits(v), k)
  }

  /** JavaScript's >>> by a small amount. */
  function ShiftRight(v: bv32, n: nat): bv32
    requires n <= 7
  {
    match n
    case 0 => v
    case 1 => v >> 1
    case 2 => v >> 2
    case 3 => v >> 3
    case 4 => v >> 4
    case 5 => v >> 5
    case 6 => v >> 6
    case 7 => v >> 7
  }

  /** JavaScript's << by a small amount: what leaves the word is lost. */
  function ShiftLeft(v: bv32, n: nat): bv32
    requires n <= 4
  {
    match n
    case 0 => v
    case 1 => v << 1
    case 2 => v << 2
    case 3 => v << 3
    case 4 => v << 4
  }

  lemma ByteBit(v: bv32, b: bv32, i: nat)
    requires i < 12 && b < 256
    ensures Bit((v << 8) | b, i) == if i < 8 then Bit(b, i) else Bit(v, i - 8)
  {
    match i {
      case 0 => case 1 => case 2 => case 3 => case 4 => case 5 =>
      case 6 => case 7 => case 8 => case 9 => case 10 => case 11 =>
    }
  }

  lemma DigitBit(v: bv32, d: bv32, i: nat)
    requires i < 12 && d < 32
    ensures Bit((v << 5) | d, i) == if i < 5 then Bit(d, i) else Bit(v, i - 5)
  {
    match i {
      case 0 => case 1 => case 2 => case 3 => case 4 => case 5 =>
      case 6 => case 7 => case 8 => case 9 => case 10 => case 11 =>
    }
  }

  lemma TakenBit(v: bv32, n: nat, i: nat)
    requires n <= 7 && i < 5
    ensures Bit(ShiftRight(v, n) & 31, i) == Bit(v, n + i)
  {
    match n { case 0 => case 1 => case 2 => case 3 => case 4 => case 5 => case 6 => case 7 => }
  }

  lemma TakenByteBit(v: bv32, n: nat, i: nat)
    requires n <= 4 && i < 8
    ensures Bit(ShiftRight(v, n) & 0xff, i) == Bit(v, n + i)
  {
    match i { case 0 => case 1 => case 2 => case 3 => case 4 => case 5 => case 6 => case 7 => }
  }

  lemma PaddedBit(v: bv32, n: nat, i: nat)
    requires n <= 4 && i < 5
    ensures Bit(ShiftLeft(v, n) & 31, i) == (i >= n && Bit(v, i - n))
  {
    match n { case 0 => case 1 => case 2 => case 3 => case 4 => }
  }

  // ---------------------------------------------------------------- what the accumulator holds

  /** The bits `w` are the bits `v` moved up by `n`, with `d` below. */
  ghost predicate Joined(w: int -> bool, v: int -> bool, d: int -> bool, n: nat) {
    forall i: nat :: i < 12 ==> w(i) == if i < n then d(i) else v(i - n)
  }

  lemma JoinedByte(v: bv32, b: bv32)
    requires b < 256
    ensures Joined(Bits((v << 8) | b), Bits(v), Bits(b), 8)
  {
    forall i: nat | i < 12 ensures Bits((v << 8) | b)(i) == if i < 8 then Bits(b)(i) else Bits(v)(i - 8) {
      ByteBit(v, b, i);
    }
  }

  lemma JoinedDigit(v: bv32, d: bv32)
    requires d < 32
    ensures Joined(Bits((v << 5) | d), Bits(v), Bits(d), 5)
  {
    forall i: nat | i < 12 ensures Bits((v << 5) | d)(i) == if i < 5 then Bits(d)(i) else Bits(v)(i - 5) {
      DigitBit(v, d, i);
    }
  }

  lemma JoinBits(w: int -> bool, v: int -> bool, d: int -> bool, n: nat, k: nat)
    requires n + k <= 12 && Joined(w, v, d, n)
    ensures Listed(w, k + n) == Listed(v, k) + Listed(d, n)
  {
  }

  /** Pushing a byte keeps the pending low bits, whatever overflows at the top. */
  lemma PushByte(v: bv32, b: bv8, k: nat)
    requires k <= 4
    ensures LowBits((v << 8) | (b as bv32), k + 8) == LowBits(v, k) + ByteBits(b)
  {
    JoinedByte(v, b as bv32);
    JoinBits(Bits((v << 8) | (b as bv32)), Bits(v), Bits(b as bv32), 8, k);
  }

  lemma PushDigit(v: bv32, d: bv32, k: nat)
    requires k <= 7 && d < 32
    ensures LowBits((v << 5) | d, k + 5) == LowBits(v, k) + LowBits(d, 5)
  {
    JoinedDigit(v, d);
    JoinBits(Bits((v << 5) | d), Bits(v), Bits(d), 5, k);
  }

  /** The first `m` of the bits `d` are the bits `v` from `n` on. */
  ghost predicate Taken(d: int -> bool, v: int -> bool, n: nat, m: nat) {
    forall i: nat :: i < m ==> d(i) == v(n + i)
  }

  /** (value >>> n) & 31 */
  method FiveFrom(v: bv32, n: nat) returns (d: bv32)
    requires n <= 7
    ensures d < 32 && Taken(Bits(d), Bits(v), n, 5)
  {
    d := ShiftRight(v, n) & 31;
    forall i: nat | i < 5 ensures Bit(d, i) == Bit(v, n + i) {
      TakenBit(v, n, i);
    }
  }

  /** (value >>> n) & 0xff */
  method EightFrom(v: bv32, n: nat) returns (d: bv32)
    requires n <= 4
    ensures d < 256 && Taken(Bits(d), Bits(v), n, 8)
  {
    d := ShiftRight(v, n) & 0xff;
    forall i: nat | i < 8 ensures Bit(d, i) == Bit(v, n + i) {
      TakenByteBit(v, n, i);
    }
  }

  /** The bits `d` are `n` zeros and above them the bits `v`. */
  ghost predicate Filled(d: int -> bool, v: int -> bool, n: nat) {
    forall i: nat :: i < 5 ==> d(i) == (i >= n && v(i - n))
  }

  lemma FilledBits(d: int -> bool, v: int -> bool, k: nat)
    requires 0 < k < 5 && Filled(d, v, 5 - k)
    ensures Listed(d, 5) == Listed(v, k) + Zeros(5 - k)
  {
    forall j | 0 <= j < 5 ensures Listed(d, 5)[j] == (Listed(v, k) + Zeros(5 - k))[j] {
      assert d(4 - j) == (4 - j >= 5 - k && v(4 - j - (5 - k)));
    }
  }

  /** (value << n) & 31 */
  method FilledUp(v: bv32, n: nat) returns (d: bv32)
    requires n <= 4
    ensures d < 32 && Filled(Bits(d), Bits(v), n)
  {
    d := ShiftLeft(v, n) & 31;
    forall i: nat | i < 5 ensures Bit(d, i) == (i >= n && Bit(v, i - n)) {
      PaddedBit(v, n, i);
    }
  }

  lemma SplitBits(d: int -> bool, v: int -> bool, k: nat, m: nat)
    requires m <= k <= 12 && Taken(d, v, k - m, m)
    ensures Listed(v, k) == Listed(d, m) + Listed(v, k - m)
  {
    forall j | 0 <= j < m ensures Listed(v, k)[j] == Listed(d, m)[j] {
      assert d(m - 1 - j) == v(k - m + (m - 1 - j));
    }
  }

  /** The next character's number is taken off the pending bits. */
  method TopDigit(v: bv32, k: nat) returns (n: nat)
    requires 5 <= k <= 12
    ensures n < 32 && LowBits(v, k) == DigitBits(n) + LowBits(v, k - 5)
  {
    var d := FiveFrom(v, k - 5);
    SplitBits(Bits(d), Bits(v), k, 5);
    WordValue(d);
    ValueSpelled(LowBits(d, 5));
    n := d as int;
  }

  /** The last, incomplete group gets zeros. */
  method LastDigit(v: bv32, k: nat) returns (n: nat)
    requires 0 < k < 5
    ensures n < 32 && LowBits(v, k) + Zeros(5 - k) == DigitBits(n)
  {
    var d := FilledUp(v, 5 - k);
    FilledBits(Bits(d), Bits(v), k);
    WordValue(d);
    ValueSpelled(LowBits(d, 5));
    n := d as int;
  }

  /** The next byte is taken off the pending bits. */
  method TopByte(v: bv32, k: nat) returns (b: bv8)
    requires 8 <= k <= 12
    ensures LowBits(v, k) == ByteBits(b) + LowBits(v, k - 8)
  {
    var d := EightFrom(v, k - 8);
    SplitBits(Bits(d), Bits(v), k, 8);
    b := d as bv8;
    assert b as bv32 == d;
  }

  // ---------------------------------------------------------------- the encoding as a regrouping of bits

  function Zeros(n: nat): (r: seq<bool>)
    ensures |r| == n
  {
    seq(n, _ => false)
  }

  function ByteBits(b: bv8): (r: seq<bool>)
    ensures |r| == 8
  {
    LowBits(b as bv32, 8)
  }

  /** The bits of a buffer in transmission order. */
  function BytesBits(buf: seq<bv8>): (r: seq<bool>)
    ensures |r| == 8 * |buf|
  {
    if buf == [] then [] else ByteBits(buf[0]) + BytesBits(buf[1..])
  }

  function Weight(b: bool, w: nat): nat {
    if b then w else 0
  }

  /** The number five bits spell. */
  function Value(five: seq<bool>): (n: nat)
    requires |five| == 5
    ensures n < 32
  {
    Weight(five[0], 16) + Weight(five[1], 8) + Weight(five[2], 4) + Weight(five[3], 2) + Weight(five[4], 1)
  }

  function DigitBits(n: nat): (r: seq<bool>)
    requires n < 32
    ensures |r| == 5
  {
    [n / 16 == 1, n / 8 % 2 == 1, n / 4 % 2 == 1, n / 2 % 2 == 1, n % 2 == 1]
  }

  lemma BinaryDigits(a: nat, b: nat, c: nat, d: nat, e: nat)
    requires a <= 1 && b <= 1 && c <= 1 && d <= 1 && e <= 1
    ensures var n := 16 * a + 8 * b + 4 * c + 2 * d + e;
      n / 16 == a && n / 8 % 2 == b && n / 4 % 2 == c && n / 2 % 2 == d && n % 2 == e
  {
    var n := 16 * a + 8 * b + 4 * c + 2 * d + e;
    assert n / 8 == 2 * a + b;
    assert n / 4 == 4 * a + 2 * b + c;
    assert n / 2 == 8 * a + 4 * b + 2 * c + d;
  }

  lemma DigitBitsSpell(n: nat)
    requires n < 32
    ensures Value(DigitBits(n)) == n
  {
  }

  lemma ValueSpelled(five: seq<bool>)
    requires |five| == 5
    ensures DigitBits(Value(five)) == five
  {
    BinaryDigits(Weight(five[0], 1), Weight(five[1], 1), Weight(five[2], 1), Weight(five[3], 1), Weight(five[4], 1));
  }

  /** A five-bit word read as a number. */
  lemma WordValue(x: bv32)
    requires x < 32
    ensures Value(LowBits(x, 5)) == x as int
  {
  }

  /** A digit's number as a 32-bit integer, by way of a byte. */
  function Word(n: nat): bv32
    requires n < 32
  {
    (n as bv8) as bv32
  }

  lemma SmallWord(n: nat)
    requires n < 32
    ensures Word(n) < 32 && Word(n) as int == n
  {
  }

  lemma WordBits(n: nat)
    requires n < 32
    ensures Word(n) < 32 && LowBits(Word(n), 5) == DigitBits(n)
  {
    SmallWord(n);
    WordValue(Word(n));
    ValueSpelled(LowBits(Word(n), 5));
  }

  /** Groups of five bits, the last one filled with zeros (section 6 of RFC 4648). */
  function EncodeBits(bits: seq<bool>): string {
    if bits == [] then ""
    else if |bits| < 5 then [ALPHABET[Value(bits + Zeros(5 - |bits|))]]
    else [ALPHABET[Value(bits[..5])]] + EncodeBits(bits[5..])
  }

  function Encode(buf: seq<bv8>): string {
    EncodeBits(BytesBits(buf))
  }

  /** The byte eight bits spell. */
  function ByteOf(eight: seq<bool>): bv8
    requires |eight| == 8
  {
    (if eight[0] then 0x80 else 0) | (if eight[1] then 0x40 else 0)
    | (if eight[2] then 0x20 else 0) | (if eight[3] then 0x10 else 0)
    | (if eight[4] then 0x8 else 0) | (if eight[5] then 0x4 else 0)
    | (if eight[6] then 0x2 else 0) | (if eight[7] then 0x1 else 0)
  }

  /** Groups of eight bits; an incomplete last group is dropped. */
  function DecodeBits(bits: seq<bool>): (r: seq<bv8>)
    ensures |r| == |bits| / 8
  {
    if |bits| < 8 then [] else [ByteOf(bits[..8])] + DecodeBits(bits[8..])
  }

  /** The alphabet's indexOf. */
  function IndexOf(ch: char): (r: Option<nat>)
    ensures r.Some? ==> r.value < 32
  {
    if 'A' <= ch <= 'Z' then Some(ch as int - 'A' as int)
    else if '2' <= ch <= '7' then Some(ch as int - '2' as int + 26)
    else None
  }

  lemma IndexOfDigit(n: nat)
    requires n < 32
    ensures IndexOf(ALPHABET[n]) == Some(n)
  {
  }

  /** The alphabet of table 3 of RFC 4648: A to Z count from 0, and 2 to 7 from 26. */
  lemma AlphabetIs(n: nat)
    requires n < 32
    ensures |ALPHABET| == 32 && ALPHABET[n] as int == if n < 26 then 65 + n else 24 + n
  {
  }

  /** IndexOf is the position in the alphabet. */
  lemma IndexOfFinds(ch: char, n: nat)
    requires n < 32
    ensures IndexOf(ch) == Some(n) <==> ALPHABET[n] == ch
  {
    IndexOfDigit(n);
  }

  function Clean(s: string): string {
    if s == "" then ""
    else if IsSpace(s[0]) || s[0] == '=' then Clean(s[1..])
    else [Upper(s[0])] + Clean(s[1..])
  }

  predicate AllDigits(s: string) {
    forall i :: 0 <= i < |s| ==> IndexOf(s[i]).Some?
  }

  function CharBits(s: string): (r: seq<bool>)
    requires AllDigits(s)
    ensures |r| == 5 * |s|
  {
    if s == "" then [] else DigitBits(IndexOf(s[0]).value) + CharBits(s[1..])
  }

  function Decode(encoded: string): Result<seq<bv8>> {
    var clean := Clean(encoded);
    if AllDigits(clean) then Ok(DecodeBits(CharBits(clean))) else Err("invalid base32 character")
  }

  // ---------------------------------------------------------------- the loops

  lemma EncodeGroup(bits: seq<bool>, rest: seq<bool>)
    requires |bits| >= 5
    ensures EncodeBits(bits + rest) == [ALPHABET[Value(bits[..5])]] + EncodeBits(bits[5..] + rest)
  {
    assert (bits + rest)[..5] == bits[..5] && (bits + rest)[5..] == bits[5..] + rest;
  }

  /** What is written, plus what the accumulator and the remaining bits will write, is the goal. */
  ghost predicate Encoding(out: string, v: bv32, k: nat, rest: seq<bool>, goal: string)
    requires k <= 12
  {
    out + EncodeBits(LowBits(v, k) + rest) == goal
  }

  lemma EncodingByte(out: string, v: bv32, k: nat, buf: seq<bv8>, goal: string)
    requires k <= 4 && buf != [] && Encoding(out, v, k, BytesBits(buf), goal)
    ensures Encoding(out, (v << 8) | (buf[0] as bv32), k + 8, BytesBits(buf[1..]), goal)
  {
    PushByte(v, buf[0], k);
    Reassociated(LowBits(v, k), ByteBits(buf[0]), BytesBits(buf[1..]));
  }

  lemma Reassociated(a: seq<bool>, b: seq<bool>, c: seq<bool>)
    ensures a + (b + c) == a + b + c
  {
  }

  lemma EncodingDigit(out: string, v: bv32, k: nat, rest: seq<bool>, goal: string, n: nat)
    requires 5 <= k <= 12 && Encoding(out, v, k, rest, goal)
    requires n < 32 && LowBits(v, k) == DigitBits(n) + LowBits(v, k - 5)
    ensures Encoding(out + [ALPHABET[n]], v, k - 5, rest, goal)
  {
    var pending := LowBits(v, k);
    EncodeGroup(pending, rest);
    assert pending[..5] == DigitBits(n) && pending[5..] == LowBits(v, k - 5);
    DigitBitsSpell(n);
  }

  lemma EncodingStart(buf: seq<bv8>)
    ensures Encoding("", 0, 0, BytesBits(buf), Encode(buf))
  {
    assert LowBits(0, 0) + BytesBits(buf) == BytesBits(buf);
  }

  lemma EncodingEnd(out: string, v: bv32, k: nat, goal: string)
    requires k < 5 && Encoding(out, v, k, BytesBits([]), goal)
    ensures k == 0 ==> out == goal
    ensures k > 0 ==> out + [ALPHABET[Value(LowBits(v, k) + Zeros(5 - k))]] == goal
  {
    assert LowBits(v, k) + BytesBits([]) == LowBits(v, k);
  }

  /** The service's encoder: the overflowing accumulator computes the regrouping of bits. */
  method Base32Encode(buf: seq<bv8>) returns (out: string)
    ensures out == Encode(buf)
  {
    var bits, value: bv32 := 0, 0;
    out := "";
    EncodingStart(buf);
    assert buf[0..] == buf;
    for i := 0 to |buf|
      invariant 0 <= bits < 5
      invariant Encoding(out, value, bits, BytesBits(buf[i..]), Encode(buf))
    {
      EncodingByte(out, value, bits, buf[i..], Encode(buf));
      assert buf[i..][0] == buf[i] && buf[i..][1..] == buf[i + 1..];
      value := (value << 8) | (buf[i] as bv32);
      bits := bits + 8;
      while bits >= 5
        invariant 0 <= bits <= 12
        invariant Encoding(out, value, bits, BytesBits(buf[i + 1..]), Encode(buf))
      {
        var digit := TopDigit(value, bits);
        EncodingDigit(out, value, bits, BytesBits(buf[i + 1..]), Encode(buf), digit);
        out := out + [ALPHABET[digit]];
        bits := bits - 5;
      }
    }
    EncodingEnd(out, value, bits, Encode(buf));
    if bits > 0 {
      var digit := LastDigit(value, bits);
      DigitBitsSpell(digit);
      out := out + [ALPHABET[digit]];
    }
  }

  lemma ByteSpelled(b: bv8)
    ensures ByteOf(ByteBits(b)) == b
  {
  }

  lemma DecodeFirst(out: seq<bv8>, eight: seq<bool>, low: seq<bool>, rest: seq<bool>)
    requires |eight| == 8
    ensures out + DecodeBits(eight + low + rest) == out + [ByteOf(eight)] + DecodeBits(low + rest)
  {
    var all := eight + low + rest;
    assert all[..8] == eight && all[8..] == low + rest;
  }

  /** replace(/[\s=]/g, "") after toUpperCase. */
  method Cleaned(s: string) returns (out: string)
    ensures out == Clean(s)
  {
    out := "";
    for i := 0 to |s|
      invariant out + Clean(s[i..]) == Clean(s)
    {
      assert s[i..][1..] == s[i + 1..];
      if !IsSpace(s[i]) && s[i] != '=' {
        out := out + [Upper(s[i])];
      }
    }
  }

  /** As for the encoder, with `i` characters read; a text with an invalid character has no goal. */
  ghost predicate Decoding(clean: string, i: nat, out: seq<bv8>, v: bv32, k: nat)
    requires i <= |clean| && k <= 12
  {
    && AllDigits(clean[..i])
    && (AllDigits(clean) ==> out + DecodeBits(LowBits(v, k) + CharBits(clean[i..])) == DecodeBits(CharBits(clean)))
  }

  lemma BitsOfRest(clean: string, i: nat)
    requires i < |clean| && AllDigits(clean)
    ensures CharBits(clean[i..]) == DigitBits(IndexOf(clean[i]).value) + CharBits(clean[i + 1..])
  {
    assert clean[i..][1..] == clean[i + 1..];
  }

  lemma DecodingDigit(clean: string, i: nat, out: seq<bv8>, v: bv32, k: nat)
    requires i < |clean| && k <= 7 && Decoding(clean, i, out, v, k)
    ensures IndexOf(clean[i]).None? ==> !AllDigits(clean)
    ensures IndexOf(clean[i]).Some? ==> Decoding(clean, i + 1, out, (v << 5) | Word(IndexOf(clean[i]).value), k + 5)
  {
    assert clean[..i + 1] == clean[..i] + [clean[i]];
    if IndexOf(clean[i]).Some? {
      var n := IndexOf(clean[i]).value;
      PushIndex(v, n, k);
      if AllDigits(clean) {
        BitsOfRest(clean, i);
        Regroup(LowBits(v, k), DigitBits(n), CharBits(clean[i + 1..]));
      }
    }
  }

  lemma PushIndex(v: bv32, n: nat, k: nat)
    requires k <= 7 && n < 32
    ensures LowBits((v << 5) | Word(n), k + 5) == LowBits(v, k) + DigitBits(n)
  {
    WordBits(n);
    PushDigit(v, Word(n), k);
  }

  lemma Regroup(low: seq<bool>, digit: seq<bool>, rest: seq<bool>)
    ensures low + (digit + rest) == low + digit + rest
  {
  }

  lemma DecodingByte(clean: string, i: nat, out: seq<bv8>, v: bv32, k: nat, b: bv8)
    requires i <= |clean| && 8 <= k <= 12 && Decoding(clean, i, out, v, k)
    requires LowBits(v, k) == ByteBits(b) + LowBits(v, k - 8)
    ensures Decoding(clean, i, out + [b], v, k - 8)
  {
    if AllDigits(clean) {
      ByteSpelled(b);
      DecodeFirst(out, ByteBits(b), LowBits(v, k - 8), CharBits(clean[i..]));
    }
  }

  lemma DecodingStart(clean: string)
    ensures Decoding(clean, 0, [], 0, 0)
  {
    assert clean[0..] == clean;
    if AllDigits(clean) { assert LowBits(0, 0) + CharBits(clean) == CharBits(clean); }
  }

  lemma DecodingEnd(clean: string, out: seq<bv8>, v: bv32, k: nat)
    requires k < 8 && Decoding(clean, |clean|, out, v, k)
    ensures AllDigits(clean) && out == DecodeBits(CharBits(clean))
  {
    assert clean[..|clean|] == clean;
  }

  /** The next character goes into the accumulator, unless it is foreign. */
  method ReadChar(clean: string, i: nat, ghost out: seq<bv8>, v: bv32, k: nat) returns (valid: bool, v': bv32)
    requires i < |clean| && k <= 7 && Decoding(clean, i, out, v, k)
    ensures valid ==> Decoding(clean, i + 1, out, v', k + 5)
    ensures !valid ==> !AllDigits(clean)
  {
    DecodingDigit(clean, i, out, v, k);
    var index := IndexOf(clean[i]);
    if index.None? {
      return false, v;
    }
    return true, (v << 5) | Word(index.value);
  }

  /** A complete byte is written out. */
  method WriteByte(clean: string, ghost i: nat, out: seq<bv8>, v: bv32, k: nat) returns (out': seq<bv8>)
    requires i <= |clean| && 8 <= k <= 12 && Decoding(clean, i, out, v, k)
    ensures Decoding(clean, i, out', v, k - 8)
  {
    var byte := TopByte(v, k);
    DecodingByte(clean, i, out, v, k, byte);
    out' := out + [byte];
  }

  method DecodeChars(clean: string) returns (r: Result<seq<bv8>>)
    ensures AllDigits(clean) ==> r == Ok(DecodeBits(CharBits(clean)))
    ensures !AllDigits(clean) ==> r == Err("invalid base32 character")
  {
    var bits, value: bv32 := 0, 0;
    var out: seq<bv8> := [];
    DecodingStart(clean);
    for i := 0 to |clean|
      invariant 0 <= bits < 8
      invariant Decoding(clean, i, out, value, bits)
    {
      var valid;
      valid, value := ReadChar(clean, i, out, value, bits);
      if !valid {
        return Err("invalid base32 character");
      }
      bits := bits + 5;
      if bits >= 8 {
        out := WriteByte(clean, i + 1, out, value, bits);
        bits := bits - 8;
      }
    }
    DecodingEnd(clean, out, value, bits);
    r := Ok(out);
  }

  /** The service's decoder, character by character. */
  method Base32Decode(encoded: string) returns (r: Result<seq<bv8>>)
    ensures r == Decode(encoded)
  {
    var clean := Cleaned(encoded);
    r := DecodeChars(clean);
  }

  // ---------------------------------------------------------------- round trips

  /** Zero bits that fill the last character. */
  function Padding(n: nat): nat {
    (5 - n % 5) % 5
  }

  lemma {:induction false} EncodeLength(bits: seq<bool>)
    ensures |EncodeBits(bits)| == (|bits| + 4) / 5
  {
    if |bits| >= 5 { EncodeLength(bits[5..]); }
  }

  /** The length is the number of bits over five, rounded up. */
  lemma EncodedLength(buf: seq<bv8>)
    ensures |Encode(buf)| == (8 * |buf| + 4) / 5
  {
    EncodeLength(BytesBits(buf));
  }

  /** A digit read back. */
  lemma ReadBack(five: seq<bool>, rest: string)
    requires |five| == 5 && AllDigits(rest)
    ensures var s := [ALPHABET[Value(five)]] + rest; AllDigits(s) && CharBits(s) == five + CharBits(rest)
  {
    IndexOfDigit(Value(five));
    ValueSpelled(five);
    var s := [ALPHABET[Value(five)]] + rest;
    assert s[1..] == rest;
  }

  lemma ReadBackLast(bits: seq<bool>)
    requires 0 < |bits| < 5
    ensures AllDigits(EncodeBits(bits)) && CharBits(EncodeBits(bits)) == bits + Zeros(5 - |bits|)
  {
    var five := bits + Zeros(5 - |bits|);
    ReadBack(five, "");
    assert [ALPHABET[Value(five)]] + "" == EncodeBits(bits);
    assert five + CharBits("") == five;
  }

  lemma FirstDigit(first: seq<bool>, rest: seq<bool>)
    requires |first| == 5 && AllDigits(EncodeBits(rest))
    ensures AllDigits(EncodeBits(first + rest))
        && CharBits(EncodeBits(first + rest)) == first + CharBits(EncodeBits(rest))
  {
    EncodeGroup(first, rest);
    assert first[..5] == first && first[5..] + rest == rest;
    ReadBack(first, EncodeBits(rest));
  }

  function Padded(bits: seq<bool>): seq<bool> {
    bits + Zeros(Padding(|bits|))
  }

  lemma PaddedGroup(first: seq<bool>, rest: seq<bool>)
    requires |first| == 5
    ensures first + Padded(rest) == Padded(first + rest)
  {
    assert Padding(|rest| + 5) == Padding(|rest|);
    assert first + (rest + Zeros(Padding(|rest|))) == first + rest + Zeros(Padding(|rest|));
  }

  /** The characters of an encoding spell its bits, filled up with zeros. */
  lemma {:induction false} EncodedDigits(bits: seq<bool>)
    ensures AllDigits(EncodeBits(bits))
    ensures CharBits(EncodeBits(bits)) == Padded(bits)
  {
    if bits == [] {
    } else if |bits| < 5 {
      ReadBackLast(bits);
    } else {
      var first, rest := bits[..5], bits[5..];
      EncodedDigits(rest);
      FirstDigit(first, rest);
      PaddedGroup(first, rest);
      assert first + rest == bits;
    }
  }

  lemma {:induction false} DecodeBytes(buf: seq<bv8>, pad: seq<bool>)
    requires |pad| < 8
    ensures DecodeBits(BytesBits(buf) + pad) == buf
  {
    if buf != [] {
      var bits := BytesBits(buf) + pad;
      assert bits[..8] == ByteBits(buf[0]) && bits[8..] == BytesBits(buf[1..]) + pad;
      ByteSpelled(buf[0]);
      DecodeBytes(buf[1..], pad);
    }
  }

  lemma {:induction false} CleanDigits(s: string)
    requires AllDigits(s)
    ensures Clean(s) == s
  {
    if s != "" {
      assert IndexOf(s[0]).Some?;
      assert AllDigits(s[1..]);
      CleanDigits(s[1..]);
    }
  }

  /** Decoding gives back every byte buffer, for every text that reads as its encoding once cleaned. */
  lemma RoundTrip(buf: seq<bv8>, text: string)
    requires Clean(text) == Encode(buf)
    ensures Decode(text) == Ok(buf)
  {
    EncodedDigits(BytesBits(buf));
    DecodeBytes(buf, Zeros(Padding(8 * |buf|)));
  }

  lemma DecodeAfterEncode(buf: seq<bv8>)
    ensures Decode(Encode(buf)) == Ok(buf)
  {
    EncodedDigits(BytesBits(buf));
    CleanDigits(Encode(buf));
    RoundTrip(buf, Encode(buf));
  }

  lemma {:induction false} CleanConcat(a: string, b: string)
    ensures Clean(a + b) == Clean(a) + Clean(b)
  {
    if a == "" {
      assert a + b == b;
    } else {
      assert (a + b)[1..] == a[1..] + b;
      CleanConcat(a[1..], b);
    }
  }

  lemma {:induction false} CleanLowered(s: string)
    ensures Clean(Lowered(s)) == Clean(s)
  {
    if s != "" {
      assert Lowered(s)[1..] == Lowered(s[1..]);
      CleanLowered(s[1..]);
    }
  }

  /** Case, white space and '=' anywhere make no difference. */
  lemma DecorationIgnored(a: string, b: string, ch: char)
    requires IsSpace(ch) || ch == '='
    ensures Decode(a + [ch] + b) == Decode(a + b)
    ensures Decode(Lowered(a)) == Decode(a)
  {
    assert [ch][1..] == "" && Clean([ch]) == "";
    assert Clean(a) + "" == Clean(a);
    CleanConcat(a + [ch], b);
    CleanConcat(a, [ch]);
    CleanConcat(a, b);
    CleanLowered(a);
  }

  lemma {:induction false} BitsOfDecoded(bits: seq<bool>)
    ensures BytesBits(DecodeBits(bits)) == bits[..8 * (|bits| / 8)]
  {
    if |bits| >= 8 {
      BitsOfDecoded(bits[8..]);
      SpelledByte(bits[..8]);
      var r := DecodeBits(bits);
      assert r[1..] == DecodeBits(bits[8..]);
      assert bits[..8 * (|bits| / 8)] == bits[..8] + bits[8..][..8 * (|bits[8..]| / 8)];
    }
  }

  ghost predicate Spells(w: bv32, eight: seq<bool>)
    requires |eight| == 8
  {
    forall i: nat :: i < 8 ==> Bit(w, i) == eight[7 - i]
  }

  lemma ByteOfSpells(a: bool, b: bool, c: bool, d: bool, e: bool, f: bool, g: bool, h: bool)
    ensures Spells(ByteOf([a, b, c, d, e, f, g, h]) as bv32, [a, b, c, d, e, f, g, h])
  {
    var eight := [a, b, c, d, e, f, g, h];
    var w := ByteOf(eight) as bv32;
    assert Bit(w, 7) == a && Bit(w, 6) == b && Bit(w, 5) == c && Bit(w, 4) == d;
    assert Bit(w, 3) == e && Bit(w, 2) == f && Bit(w, 1) == g && Bit(w, 0) == h;
  }

  lemma SpelledBits(w: bv32, eight: seq<bool>)
    requires |eight| == 8 && Spells(w, eight)
    ensures LowBits(w, 8) == eight
  {
    forall j | 0 <= j < 8 ensures LowBits(w, 8)[j] == eight[j] {
      assert Bit(w, 7 - j) == eight[7 - (7 - j)];
    }
  }

  lemma SpelledByte(eight: seq<bool>)
    requires |eight| == 8
    ensures ByteBits(ByteOf(eight)) == eight
  {
    assert eight == [eight[0], eight[1], eight[2], eight[3], eight[4], eight[5], eight[6], eight[7]];
    ByteOfSpells(eight[0], eight[1], eight[2], eight[3], eight[4], eight[5], eight[6], eight[7]);
    SpelledBits(ByteOf(eight) as bv32, eight);
  }

  lemma {:induction false} SameBitsSameText(s: string, t: string)
    requires AllDigits(s) && AllDigits(t) && CharBits(s) == CharBits(t)
    ensures s == t
  {
    if s != "" {
      assert |s| == |t|;
      var a, b := IndexOf(s[0]).value, IndexOf(t[0]).value;
      assert DigitBits(a) == CharBits(s)[..5] == CharBits(t)[..5] == DigitBits(b);
      DigitBitsSpell(a);
      DigitBitsSpell(b);
      assert CharBits(s[1..]) == CharBits(s)[5..] == CharBits(t)[5..] == CharBits(t[1..]);
      SameBitsSameText(s[1..], t[1..]);
    }
  }

  lemma KeptBits(text: string)
    requires Decode(text).Ok?
    ensures var bits := CharBits(Clean(text)); var again := Encode(Decode(text).value);
      AllDigits(again) && CharBits(again) == Padded(bits[..8 * (|bits| / 8)])
  {
    var bits := CharBits(Clean(text));
    BitsOfDecoded(bits);
    EncodedDigits(bits[..8 * (|bits| / 8)]);
  }

  lemma SameWhenPadded(again: string, clean: string, kept: seq<bool>, tail: seq<bool>)
    requires AllDigits(again) && AllDigits(clean)
    requires CharBits(clean) == kept + tail && CharBits(again) == Padded(kept)
    requires |tail| < 5 <==> Padding(|kept|) == |tail|
    ensures again == clean <==> |tail| < 5 && tail == Zeros(|tail|)
  {
    if |tail| < 5 && tail == Zeros(|tail|) {
      SameBitsSameText(again, clean);
    }
    if again == clean {
      assert |kept + tail| == |Padded(kept)|;
      assert tail == (kept + tail)[|kept|..] == Padded(kept)[|kept|..];
    }
  }

  lemma PaddingOfShort(b: nat)
    requires b < 8
    ensures 5 * b % 8 < 5 <==> Padding(8 * (5 * b / 8)) == 5 * b % 8
  {
  }

  lemma PaddingOfKept(m: nat)
    ensures var kept := 8 * (5 * m / 8); 5 * m % 8 < 5 <==> Padding(kept) == 5 * m % 8
  {
    var a, b := m / 8, m % 8;
    assert 5 * m == 8 * (5 * a) + 5 * b;
    EightsOut(5 * a, 5 * b);
    FivesOut(8 * a, 8 * (5 * b / 8));
    assert 8 * (5 * a + 5 * b / 8) == 5 * (8 * a) + 8 * (5 * b / 8);
    PaddingOfShort(b);
  }

  lemma EightsOut(a: nat, b: nat)
    ensures (8 * a + b) / 8 == a + b / 8 && (8 * a + b) % 8 == b % 8
  {
  }

  lemma FivesOut(a: nat, b: nat)
    ensures (5 * a + b) % 5 == b % 5
  {
  }

  lemma TailOf(clean: string)
    requires AllDigits(clean)
    ensures var bits := CharBits(clean); var n := 8 * (|bits| / 8);
      && bits == bits[..n] + bits[n..] && |bits[n..]| == |bits| % 8
      && (|bits[n..]| < 5 <==> Padding(n) == |bits[n..]|)
  {
    PaddingOfKept(|clean|);
  }

  lemma CanonicalWhenPadded(again: string, clean: string)
    requires AllDigits(again) && AllDigits(clean)
    requires var bits := CharBits(clean); CharBits(again) == Padded(bits[..8 * (|bits| / 8)])
    ensures var bits := CharBits(clean); var dropped := |bits| % 8;
      again == clean <==> dropped < 5 && bits[8 * (|bits| / 8)..] == Zeros(dropped)
  {
    var bits := CharBits(clean);
    var n := 8 * (|bits| / 8);
    TailOf(clean);
    SameWhenPadded(again, clean, bits[..n], bits[n..]);
  }

  /**
   * Which texts are canonical: encoding what was decoded gives the cleaned text back exactly when
   * fewer than five bits were dropped at its end and they are all zero.
   */
  lemma EncodeAfterDecode(text: string)
    requires Decode(text).Ok?
    ensures var clean := Clean(text); var bits := CharBits(clean); var dropped := |bits| % 8;
      Encode(Decode(text).value) == clean <==> dropped < 5 && bits[8 * (|bits| / 8)..] == Zeros(dropped)
  {
    KeptBits(text);
    CanonicalWhenPadded(Encode(Decode(text).value), Clean(text));
  }

  // ---------------------------------------------------------------- the number a text spells

  function Pow2(n: nat): (p: nat)
    ensures p >= 1
  {
    if n == 0 then 1 else 2 * Pow2(n - 1)
  }

  lemma {:induction false} Pow2Sum(a: nat, b: nat)
    ensures Pow2(a + b) == Pow2(a) * Pow2(b)
    decreases a
  {
    if a > 0 {
      Pow2Sum(a - 1, b);
      assert 2 * (Pow2(a - 1) * Pow2(b)) == (2 * Pow2(a - 1)) * Pow2(b);
    }
  }

  /** The number that bits spell, the most significant first. */
  function BitsNumber(bits: seq<bool>): nat {
    if bits == [] then 0 else 2 * BitsNumber(bits[..|bits| - 1]) + if bits[|bits| - 1] then 1 else 0
  }

  /** The number that bytes spell in base 256, the most significant first. */
  function BytesNumber(buf: seq<bv8>): nat {
    if buf == [] then 0 else buf[0] as nat * Pow2(8 * (|buf| - 1)) + BytesNumber(buf[1..])
  }

  /** The number that a text of the alphabet spells in base 32, the most significant digit first. */
  function TextNumber(s: string): nat {
    if s == "" then 0 else IndexOf(s[0]).GetOr(0) * Pow2(5 * (|s| - 1)) + TextNumber(s[1..])
  }

  lemma JoinedStep(a: nat, p: nat, rest: nat, bit: nat)
    ensures 2 * (a * p + rest) + bit == a * (2 * p) + (2 * rest + bit)
  {
  }

  lemma {:induction false} BitsNumberJoined(a: seq<bool>, b: seq<bool>)
    ensures BitsNumber(a + b) == BitsNumber(a) * Pow2(|b|) + BitsNumber(b)
    decreases |b|
  {
    if b == [] {
      assert a + b == a;
    } else {
      var n := |b| - 1;
      var all, bit := a + b, if b[n] then 1 else 0;
      assert all[..|all| - 1] == a + b[..n] && all[|all| - 1] == b[n];
      BitsNumberJoined(a, b[..n]);
      JoinedStep(BitsNumber(a), Pow2(n), BitsNumber(b[..n]), bit);
    }
  }

  lemma FiveBitsNumber(five: seq<bool>)
    requires |five| == 5
    ensures BitsNumber(five) == Value(five)
  {
    var four, three, two, one := five[..4], five[..3], five[..2], five[..1];
    assert five[..4] == four && four[..3] == three && three[..2] == two && two[..1] == one && one[..0] == [];
    assert BitsNumber(one) == Weight(five[0], 1);
    assert BitsNumber(two) == 2 * BitsNumber(one) + Weight(five[1], 1);
    assert BitsNumber(three) == 2 * BitsNumber(two) + Weight(five[2], 1);
    assert BitsNumber(four) == 2 * BitsNumber(three) + Weight(five[3], 1);
  }

  lemma {:induction false} ZerosNumber(bits: seq<bool>, n: nat)
    ensures BitsNumber(bits + Zeros(n)) == BitsNumber(bits) * Pow2(n)
    decreases n
  {
    BitsNumberJoined(bits, Zeros(n));
    OnlyZeros(n);
  }

  lemma {:induction false} OnlyZeros(n: nat)
    ensures BitsNumber(Zeros(n)) == 0
    decreases n
  {
    if n > 0 {
      assert Zeros(n)[..n - 1] == Zeros(n - 1);
      OnlyZeros(n - 1);
    }
  }

  lemma FirstDigitCounts(ch: char, tail: string)
    ensures TextNumber([ch] + tail) == IndexOf(ch).GetOr(0) * Pow2(5 * |tail|) + TextNumber(tail)
  {
    assert ([ch] + tail)[1..] == tail;
  }

  lemma DigitNumber(five: seq<bool>)
    requires |five| == 5
    ensures IndexOf(ALPHABET[Value(five)]).GetOr(0) == BitsNumber(five)
  {
    FiveBitsNumber(five);
    IndexOfDigit(Value(five));
  }

  /** The text spells the number of the bits, moved up by the zeros that fill the last digit. */
  predicate SpellsBits(text: string, bits: seq<bool>) {
    5 * |text| >= |bits| && TextNumber(text) == BitsNumber(bits) * Pow2(5 * |text| - |bits|)
  }

  lemma OneDigit(five: seq<bool>)
    requires |five| == 5
    ensures TextNumber([ALPHABET[Value(five)]]) == BitsNumber(five)
  {
    var digit := ALPHABET[Value(five)];
    DigitNumber(five);
    FirstDigitCounts(digit, "");
    assert [digit] + "" == [digit] && Pow2(0) == 1;
  }

  lemma ShortNumber(bits: seq<bool>)
    requires 0 < |bits| < 5
    ensures SpellsBits(EncodeBits(bits), bits)
  {
    var five := bits + Zeros(5 - |bits|);
    OneDigit(five);
    ZerosNumber(bits, 5 - |bits|);
    assert EncodeBits(bits) == [ALPHABET[Value(five)]];
  }

  lemma GroupSpells(first: seq<bool>, rest: seq<bool>, tail: string)
    requires |first| == 5 && SpellsBits(tail, rest)
    ensures SpellsBits([ALPHABET[Value(first)]] + tail, first + rest)
  {
    FirstDigitCounts(ALPHABET[Value(first)], tail);
    DigitNumber(first);
    BitsNumberJoined(first, rest);
    FirstGroup(BitsNumber(first), BitsNumber(rest), |rest|, |tail|);
  }

  lemma {:induction false} EncodedBitsNumber(bits: seq<bool>)
    ensures SpellsBits(EncodeBits(bits), bits)
    decreases |bits|
  {
    if bits == [] {
    } else if |bits| < 5 {
      ShortNumber(bits);
    } else {
      EncodedBitsNumber(bits[5..]);
      GroupSpells(bits[..5], bits[5..], EncodeBits(bits[5..]));
      assert bits == bits[..5] + bits[5..];
    }
  }

  lemma FirstGroup(first: nat, rest: nat, bits: nat, digits: nat)
    requires 5 * digits >= bits
    ensures first * Pow2(5 * digits) + rest * Pow2(5 * digits - bits)
         == (first * Pow2(bits) + rest) * Pow2(5 * digits - bits)
  {
    Pow2Sum(bits, 5 * digits - bits);
    Distributed(first, Pow2(bits), rest, Pow2(5 * digits - bits));
  }

  lemma Distributed(a: nat, p: nat, b: nat, q: nat)
    ensures a * (p * q) + b * q == (a * p + b) * q
  {
  }

  lemma ByteNumber(b: bv8)
    ensures BitsNumber(ByteBits(b)) == b as nat
  {
    EightBitsNumber(ByteBits(b));
    ByteWeights(b);
  }

  lemma EightBitsNumber(e: seq<bool>)
    requires |e| == 8
    ensures BitsNumber(e) == Weight(e[0], 128) + Weight(e[1], 64) + Weight(e[2], 32) + Weight(e[3], 16)
      + Weight(e[4], 8) + Weight(e[5], 4) + Weight(e[6], 2) + Weight(e[7], 1)
  {
    var high, low := e[..3], e[3..];
    assert e == high + low;
    BitsNumberJoined(high, low);
    FiveBitsNumber(low);
    ThreeBitsNumber(high);
    assert Pow2(5) == 32;
  }

  lemma ThreeBitsNumber(three: seq<bool>)
    requires |three| == 3
    ensures BitsNumber(three) == Weight(three[0], 4) + Weight(three[1], 2) + Weight(three[2], 1)
  {
    var two, one := three[..2], three[..1];
    assert two[..1] == one && one[..0] == [];
    assert BitsNumber(one) == Weight(three[0], 1) && BitsNumber(two) == 2 * BitsNumber(one) + Weight(three[1], 1);
  }

  lemma ByteWeights(b: bv8)
    ensures var e := ByteBits(b);
      b as nat == Weight(e[0], 128) + Weight(e[1], 64) + Weight(e[2], 32) + Weight(e[3], 16) + Weight(e[4], 8)
        + Weight(e[5], 4) + Weight(e[6], 2) + Weight(e[7], 1)
  {
  }

  lemma {:induction false} BytesBitsNumber(buf: seq<bv8>)
    ensures BitsNumber(BytesBits(buf)) == BytesNumber(buf)
    decreases |buf|
  {
    if buf != [] {
      BytesBitsNumber(buf[1..]);
      BitsNumberJoined(ByteBits(buf[0]), BytesBits(buf[1..]));
      ByteNumber(buf[0]);
    }
  }

  /**
   * Encoding changes the base of a number: the text spells in base 32 what the bytes spell in base
   * 256, moved up by the zero bits that fill the last digit.
   */
  lemma EncodingSpells(buf: seq<bv8>)
    ensures 5 * |Encode(buf)| >= 8 * |buf|
    ensures TextNumber(Encode(buf)) == BytesNumber(buf) * Pow2(5 * |Encode(buf)| - 8 * |buf|)
  {
    EncodedBitsNumber(BytesBits(buf));
    BytesBitsNumber(buf);
  }
}
