/**
 * One-time codes (totp.ts): HOTP with dynamic truncation (section 5.3 of RFC 4226), the 30-second
 * step of TOTP (section 5.2 of RFC 6238) with a window, and recovery codes. HMAC-SHA1 is a
 * parameter: any function from a key and a message to 20 bytes.
 */
module Totp {
  import opened Base
  import opened Base32

  type Digest = d: seq<bv8> | |d| == 20 witness seq(20, _ => 0)

  type Hmac = (seq<bv8>, seq<bv8>) -> Digest

  const STEP_MS := 30000
  const COUNTER_LIMIT := 0x1_0000_0000_0000_0000

  // ---------------------------------------------------------------- HOTP

  /** The `n` low bytes of a number, the most significant first. */
  function BigEndian(c: nat, n: nat): (r: seq<bv8>)
    ensures |r| == n
  {
    if n == 0 then [] else BigEndian(c / 256, n - 1) + [(c % 256) as bv8]
  }

  /** Dynamic truncation: four bytes from the offset in the last nibble, without the sign bit. */
  function Truncated(d: Digest): bv32 {
    var at := (d[19] & 0x0f) as int;
    FourJoined(d[at], d[at + 1], d[at + 2], d[at + 3])
  }

  function FourJoined(a: bv8, b: bv8, c: bv8, d: bv8): bv32 {
    ((a & 0x7f) as bv32 << 24) | (b as bv32 << 16) | (c as bv32 << 8) | d as bv32
  }

  /** The JavaScript result is a 32-bit signed integer; clearing the top bit keeps it non-negative. */
  lemma TruncatedIs31Bits(d: Digest)
    ensures Truncated(d) < 0x8000_0000
  {
  }

  function Pow10(n: nat): (p: nat)
    ensures p >= 1
  {
    if n == 0 then 1 else 10 * Pow10(n - 1)
  }

  predicate IsDigit(ch: char) {
    '0' <= ch <= '9'
  }

  predicate AllDecimal(s: string) {
    forall i :: 0 <= i < |s| ==> IsDigit(s[i])
  }

  function DigitChar(n: nat): (c: char)
    requires n < 10
    ensures IsDigit(c)
  {
    (n + '0' as int) as char
  }

  /** String(n) */
  function Decimal(n: nat): string {
    if n < 10 then [DigitChar(n)] else Decimal(n / 10) + [DigitChar(n % 10)]
  }

  /** s.padStart(width, "0") */
  function PadStart(s: string, width: nat): string {
    if |s| >= width then s else seq(width - |s|, _ => '0') + s
  }

  /** The number a decimal text spells. */
  function Spelled(s: string): nat
    requires AllDecimal(s)
  {
    if s == "" then 0 else 10 * Spelled(s[..|s| - 1]) + (s[|s| - 1] as int - '0' as int)
  }

  function CodeOf(binary: nat, digits: nat): string {
    PadStart(Decimal(binary % Pow10(digits)), digits)
  }

  lemma {:induction false} DecimalSpells(n: nat)
    ensures AllDecimal(Decimal(n)) && Spelled(Decimal(n)) == n
  {
    if n >= 10 {
      DecimalSpells(n / 10);
      assert Decimal(n)[..|Decimal(n)| - 1] == Decimal(n / 10);
    } else {
      assert [DigitChar(n)][..0] == "";
    }
  }

  lemma {:induction false} DecimalFits(n: nat, digits: nat)
    requires n < Pow10(digits)
    ensures |Decimal(n)| <= Max(1, digits)
  {
    if n >= 10 {
      DecimalFits(n / 10, digits - 1);
    }
  }

  lemma {:induction false} LeadingZeros(s: string, z: nat)
    requires AllDecimal(s)
    ensures AllDecimal(seq(z, _ => '0') + s) && Spelled(seq(z, _ => '0') + s) == Spelled(s)
    decreases |s|, z
  {
    var zeros := seq(z, _ => '0');
    var all := zeros + s;
    if s != "" {
      assert all[..|all| - 1] == zeros + s[..|s| - 1];
      LeadingZeros(s[..|s| - 1], z);
    } else if z > 0 {
      assert all[..|all| - 1] == seq(z - 1, _ => '0') + s;
      LeadingZeros(s, z - 1);
    }
  }

  /** A code has exactly the asked number of digits, at least one, and spells the truncated value modulo their power. */
  lemma CodeHasItsDigits(binary: nat, digits: nat)
    ensures var code := CodeOf(binary, digits);
      |code| == Max(1, digits) && AllDecimal(code) && Spelled(code) == binary % Pow10(digits)
  {
    var n := binary % Pow10(digits);
    DecimalSpells(n);
    DecimalFits(n, digits);
    if |Decimal(n)| < digits { LeadingZeros(Decimal(n), digits - |Decimal(n)|); }
  }

  /** Equal codes are equal values: nothing is lost beyond the modulus. */
  lemma CodesAreInjective(a: nat, b: nat, digits: nat)
    ensures CodeOf(a, digits) == CodeOf(b, digits) <==> a % Pow10(digits) == b % Pow10(digits)
  {
    CodeHasItsDigits(a, digits);
    CodeHasItsDigits(b, digits);
  }

  /** The counter must fit an unsigned 64-bit integer and the secret must be base32; otherwise the call throws. */
  function HotpCode(hmac: Hmac, secret: string, counter: int, digits: nat): Result<string> {
    if !(0 <= counter < COUNTER_LIMIT) then Err("counter out of range")
    else match Decode(secret)
      case Err(e) => Err(e)
      case Ok(key) => Ok(CodeOf(Truncated(hmac(key, BigEndian(counter, 8))) as int, digits))
  }

  // ---------------------------------------------------------------- the code of a counter

  function Values(bytes: seq<bv8>): (r: seq<nat>)
    ensures |r| == |bytes| && forall i :: 0 <= i < |r| ==> r[i] == bytes[i] as nat < 256
  {
    seq(|bytes|, i requires 0 <= i < |bytes| => bytes[i] as nat)
  }

  /** The number that digits of base 256 spell: the one at `i` counts 256 to the power of how many come after it. */
  function Positional(digits: seq<nat>): nat {
    if digits == [] then 0 else digits[0] * Pow256(|digits| - 1) + Positional(digits[1..])
  }

  function Pow256(n: nat): (p: nat)
    ensures p >= 1
  {
    if n == 0 then 1 else 256 * Pow256(n - 1)
  }

  lemma {:induction false} PositionalAppend(digits: seq<nat>, d: nat)
    ensures Positional(digits + [d]) == 256 * Positional(digits) + d
  {
    if digits == [] {
      assert [] + [d] == [d] && [d][1..] == [];
    } else {
      assert (digits + [d])[1..] == digits[1..] + [d];
      PositionalAppend(digits[1..], d);
      assert Pow256(|digits|) == 256 * Pow256(|digits| - 1);
    }
  }

  lemma {:induction false} PositionalBelow(digits: seq<nat>)
    requires forall i :: 0 <= i < |digits| ==> digits[i] < 256
    ensures Positional(digits) < Pow256(|digits|)
  {
    if digits != [] {
      PositionalBelow(digits[1..]);
      MulMonotone(digits[0], 255, Pow256(|digits| - 1));
    }
  }

  lemma SameFirst(a: nat, b: nat, p: nat, x: nat, y: nat)
    requires a * p + x == b * p + y && x < p && y < p
    ensures a == b && x == y
  {
    if a < b { MulMonotone(a + 1, b, p); }
    if b < a { MulMonotone(b + 1, a, p); }
  }

  /** As many digits that spell the same number are the same. */
  lemma {:induction false} PositionalInjective(a: seq<nat>, b: seq<nat>)
    requires |a| == |b| && Positional(a) == Positional(b)
    requires forall i :: 0 <= i < |a| ==> a[i] < 256 && b[i] < 256
    ensures a == b
    decreases |a|
  {
    if a != [] {
      PositionalBelow(a[1..]);
      PositionalBelow(b[1..]);
      SameFirst(a[0], b[0], Pow256(|a| - 1), Positional(a[1..]), Positional(b[1..]));
      PositionalInjective(a[1..], b[1..]);
      assert a == [a[0]] + a[1..] && b == [b[0]] + b[1..];
    }
  }

  lemma ByteOfItsValue(a: bv8, b: bv8)
    requires a as nat == b as nat
    ensures a == b
  {
  }

  lemma SameValues(a: seq<bv8>, b: seq<bv8>)
    requires Values(a) == Values(b)
    ensures a == b
  {
    assert |a| == |Values(a)| == |b|;
    forall i | 0 <= i < |a| ensures a[i] == b[i] {
      assert Values(a)[i] == Values(b)[i];
      ByteOfItsValue(a[i], b[i]);
    }
  }

  lemma SmallByte(n: nat)
    requires n < 32
    ensures (n as bv8) < 32 && (n as bv8) as nat == n
  {
  }

  lemma ByteFromHalves(q: bv8, r: bv8)
    requires q < 8 && r < 32
    ensures ((q << 5) | r) as nat == q as nat * 32 + r as nat
  {
  }

  lemma ByteFromValue(b: bv8)
    ensures (b as nat) as bv8 == b
  {
  }

  lemma ValueOfByte(b: bv8, n: nat)
    requires b as nat == n < 256
    ensures (n as bv8) as nat == n
  {
    ByteFromValue(b);
  }

  lemma LastByte(n: nat)
    requires n < 256
    ensures (n as bv8) as nat == n
  {
    SmallByte(n / 32);
    SmallByte(n % 32);
    ByteFromHalves((n / 32) as bv8, (n % 32) as bv8);
    ValueOfByte((((n / 32) as bv8) << 5) | ((n % 32) as bv8), n);
  }

  lemma {:induction false} BigEndianSpells(c: nat, n: nat)
    requires c < Pow256(n)
    ensures Positional(Values(BigEndian(c, n))) == c
    decreases n
  {
    if n > 0 {
      var rest, last := BigEndian(c / 256, n - 1), (c % 256) as bv8;
      BigEndianSpells(c / 256, n - 1);
      PositionalAppend(Values(rest), c % 256);
      LastByte(c % 256);
      assert Values(rest + [last]) == Values(rest) + [c % 256];
    }
  }

  lemma SixtyFourBits()
    ensures Pow256(8) == COUNTER_LIMIT == 18446744073709551616
  {
    assert Pow256(1) == 256 * Pow256(0) == 256;
    assert Pow256(2) == 256 * Pow256(1) == 65536;
    assert Pow256(3) == 256 * Pow256(2) == 16777216;
    assert Pow256(4) == 256 * Pow256(3) == 4294967296;
    assert Pow256(5) == 256 * Pow256(4) == 1099511627776;
    assert Pow256(6) == 256 * Pow256(5) == 281474976710656;
    assert Pow256(7) == 256 * Pow256(6) == 72057594037927936;
  }

  /** The message of a counter is the one message of eight bytes that spells it, so counters differ in messages. */
  lemma MessageOfCounter(counter: nat, message: seq<bv8>)
    requires counter < COUNTER_LIMIT && |message| == 8
    ensures BigEndian(counter, 8) == message <==> Positional(Values(message)) == counter
  {
    SixtyFourBits();
    BigEndianSpells(counter, 8);
    if Positional(Values(message)) == counter {
      PositionalInjective(Values(BigEndian(counter, 8)), Values(message));
      SameValues(BigEndian(counter, 8), message);
    }
  }

  /** The number of section 5.3 of RFC 4226: four bytes at the offset of the last nibble, without the sign bit. */
  function Number(d: Digest): nat {
    var at := d[19] as nat % 16;
    Positional([d[at] as nat % 128, d[at + 1] as nat, d[at + 2] as nat, d[at + 3] as nat])
  }

  lemma FourDigits(a: nat, b: nat, c: nat, d: nat)
    ensures Positional([a, b, c, d]) == a * 16777216 + b * 65536 + c * 256 + d
  {
    var four, three, two, one := [a, b, c, d], [b, c, d], [c, d], [d];
    assert four[1..] == three && three[1..] == two && two[1..] == one && one[1..] == [];
    assert Pow256(1) == 256 * Pow256(0) == 256;
    assert Pow256(2) == 256 * Pow256(1) == 65536;
    assert Pow256(3) == 256 * Pow256(2) == 16777216;
    assert Positional(one) == d * Pow256(0) + Positional(one[1..]) == d;
    assert Positional(two) == c * Pow256(1) + Positional(two[1..]);
    assert Positional(three) == b * Pow256(2) + Positional(three[1..]);
    assert Positional(four) == a * Pow256(3) + Positional(four[1..]);
  }

  lemma LowNibble(b: bv8)
    ensures (b & 0x0f) as nat == b as nat % 16
  {
  }

  lemma WithoutSign(b: bv8)
    ensures (b & 0x7f) as nat == b as nat % 128 && (b & 0x7f) < 0x80
  {
  }

  lemma FourBytes(a: bv8, b: bv8, c: bv8, d: bv8)
    requires a < 0x80
    ensures ((a as bv32 << 24) | (b as bv32 << 16) | (c as bv32 << 8) | d as bv32) as nat
         == a as nat * 16777216 + b as nat * 65536 + c as nat * 256 + d as nat
  {
  }

  lemma JoinedFour(a: bv8, b: bv8, c: bv8, d: bv8)
    ensures FourJoined(a, b, c, d) as nat == Positional([a as nat % 128, b as nat, c as nat, d as nat])
  {
    WithoutSign(a);
    FourBytes(a & 0x7f, b, c, d);
    FourDigits(a as nat % 128, b as nat, c as nat, d as nat);
  }

  lemma TruncatedIsNumber(d: Digest)
    ensures Truncated(d) as nat == Number(d)
  {
    LowNibble(d[19]);
    var at := (d[19] & 0x0f) as int;
    JoinedFour(d[at], d[at + 1], d[at + 2], d[at + 3]);
  }

  /**
   * The code of a counter: with the key that the secret encodes and the one message of eight bytes
   * that spells the counter, the number of the digest modulo the power of ten, in as many digits.
   */
  lemma CodeOfCounter(hmac: Hmac, secret: string, counter: nat, digits: nat, message: seq<bv8>)
    requires Decode(secret).Ok? && counter < 18446744073709551616
    requires |message| == 8 && Positional(Values(message)) == counter
    ensures var code := HotpCode(hmac, secret, counter, digits);
      && code.Ok? && |code.value| == Max(1, digits) && AllDecimal(code.value)
      && Spelled(code.value) == Number(hmac(Decode(secret).value, message)) % Pow10(digits)
  {
    MessageOfCounter(counter, message);
    var d := hmac(Decode(secret).value, message);
    TruncatedIsNumber(d);
    CodeHasItsDigits(Truncated(d) as int, digits);
  }

  /** A digest whose number is 1 for one message, and 0 for all others. */
  function Marking(message: seq<bv8>, m: seq<bv8>): Digest {
    if m == message then seq(20, i => if i == 3 then 1 else 0) else seq(20, _ => 0)
  }

  lemma MarkingNumbers(message: seq<bv8>, m: seq<bv8>)
    ensures Number(Marking(message, m)) == if m == message then 1 else 0
  {
    var d := Marking(message, m);
    assert d[19] as nat % 16 == 0;
    FourDigits(d[0] as nat % 128, d[1] as nat, d[2] as nat, d[3] as nat);
  }

  function MarkingHmac(message: seq<bv8>): Hmac {
    (key, m) => Marking(message, m)
  }

  lemma SmallRemainder(n: nat, digits: nat)
    requires n <= 1 && digits >= 1
    ensures n % Pow10(digits) == n
  {
    var p := Pow10(digits);
    assert p == 10 * Pow10(digits - 1);
    SmallModulo(n, p);
  }

  lemma SmallModulo(n: nat, p: nat)
    requires n < p
    ensures n % p == n
  {
  }

  lemma MarkedCode(secret: string, message: seq<bv8>, counter: nat, digits: nat)
    requires Decode(secret).Ok? && counter < COUNTER_LIMIT && digits >= 1
    ensures var code := HotpCode(MarkingHmac(message), secret, counter, digits);
      && code.Ok? && AllDecimal(code.value)
      && Spelled(code.value) == if BigEndian(counter, 8) == message then 1 else 0
  {
    var m, hmac := BigEndian(counter, 8), MarkingHmac(message);
    MessageOfCounter(counter, m);
    CodeOfCounter(hmac, secret, counter, digits, m);
    MarkingNumbers(message, m);
    SmallRemainder(Number(hmac(Decode(secret).value, m)), digits);
  }

  /** Different counters have different codes, for some keyed hash: nothing of the counter is lost. */
  lemma CodesTellCounters(secret: string, a: nat, b: nat, digits: nat)
    requires Decode(secret).Ok? && a < COUNTER_LIMIT && b < COUNTER_LIMIT && digits >= 1
    ensures a != b <==>
      exists hmac: Hmac :: HotpCode(hmac, secret, a, digits) != HotpCode(hmac, secret, b, digits)
  {
    if a != b {
      var ma := BigEndian(a, 8);
      MessageOfCounter(a, ma);
      MessageOfCounter(b, ma);
      MarkedCode(secret, ma, a, digits);
      MarkedCode(secret, ma, b, digits);
      assert HotpCode(MarkingHmac(ma), secret, a, digits) != HotpCode(MarkingHmac(ma), secret, b, digits);
    }
  }

  /** Math.floor(timeMs / 1000 / 30) */
  function Counter(timeMs: int): int {
    timeMs / STEP_MS
  }

  function TotpCode(hmac: Hmac, secret: string, timeMs: int): Result<string> {
    HotpCode(hmac, secret, Counter(timeMs), 6)
  }

  // ---------------------------------------------------------------- verification

  function WithoutSpace(s: string): string {
    if s == "" then "" else if IsSpace(s[0]) then WithoutSpace(s[1..]) else [s[0]] + WithoutSpace(s[1..])
  }

  predicate SixDigits(s: string) {
    |s| == 6 && AllDecimal(s)
  }

  /** The counter can be turned into a code. */
  predicate Computes(secret: string, counter: int) {
    Decode(secret).Ok? && 0 <= counter < COUNTER_LIMIT
  }

  /** Every counter of the window can. */
  predicate Computable(secret: string, counter: int, window: int) {
    Computes(secret, counter - window) && Computes(secret, counter + window)
  }

  predicate Matches(hmac: Hmac, secret: string, code: string, counter: int) {
    HotpCode(hmac, secret, counter, 6) == Ok(WithoutSpace(code))
  }

  /** Some counter from `first` up to but not including `end` produces the code. */
  predicate MatchesIn(hmac: Hmac, secret: string, code: string, first: int, end: int) {
    exists c :: first <= c < end && Matches(hmac, secret, code, c)
  }

  /** What verifyTotp answers: some step of the window produces the code. */
  predicate Accepts(hmac: Hmac, secret: string, code: string, counter: int, window: int) {
    MatchesIn(hmac, secret, code, counter - window, counter + window + 1)
  }

  lemma HotpHasSixDigits(hmac: Hmac, secret: string, counter: int)
    ensures HotpCode(hmac, secret, counter, 6).Ok? <==> Computes(secret, counter)
    ensures HotpCode(hmac, secret, counter, 6).Ok? ==> SixDigits(HotpCode(hmac, secret, counter, 6).value)
  {
    match Decode(secret)
    case Err(_) =>
    case Ok(key) =>
      if 0 <= counter < COUNTER_LIMIT {
        CodeHasItsDigits(Truncated(hmac(key, BigEndian(counter, 8))) as int, 6);
      }
  }

  /** crypto.timingSafeEqual, which throws on buffers of different lengths. */
  method TimingSafeEqual(a: string, b: string) returns (r: Result<bool>)
    ensures r.Ok? <==> |a| == |b|
    ensures r.Ok? ==> (r.value <==> a == b)
  {
    if |a| != |b| {
      return Err("buffers must have the same length");
    }
    r := Ok(a == b);
  }

  /** One turn: the comparison never throws, because every code has six digits. */
  method TryStep(hmac: Hmac, secret: string, normalized: string, counter: int) returns (r: Result<bool>)
    requires SixDigits(normalized)
    ensures r.Ok? <==> Computes(secret, counter)
    ensures r.Ok? ==> (r.value <==> HotpCode(hmac, secret, counter, 6) == Ok(normalized))
  {
    HotpHasSixDigits(hmac, secret, counter);
    var expected := HotpCode(hmac, secret, counter, 6);
    if expected.Err? {
      return Err(expected.error);
    }
    r := TimingSafeEqual(expected.value, normalized);
  }

  lemma OneMoreStep(hmac: Hmac, secret: string, code: string, first: int, end: int)
    requires first <= end
    ensures MatchesIn(hmac, secret, code, first, end + 1) <==>
        MatchesIn(hmac, secret, code, first, end) || Matches(hmac, secret, code, end)
  {
    if MatchesIn(hmac, secret, code, first, end) {
      var c :| first <= c < end && Matches(hmac, secret, code, c);
      assert first <= c < end + 1 && Matches(hmac, secret, code, c);
    }
  }

  /**
   * Some message of eight bytes spells a 30-second step that is at most `window` steps from the time,
   * and the digits typed, white space aside, are those of its number modulo a million.
   */
  ghost predicate AcceptedAt(hmac: Hmac, key: seq<bv8>, code: string, timeMs: int, window: int)
    requires AllDecimal(WithoutSpace(code))
  {
    exists m: seq<bv8> ::
      && |m| == 8
      && 30000 * (Positional(Values(m)) - window) <= timeMs < 30000 * (Positional(Values(m)) + window + 1)
      && Spelled(WithoutSpace(code)) == Number(hmac(key, m)) % 1000000
  }

  /** The secret is base32, and every step of the window is a 64-bit number. */
  predicate InRange(secret: string, timeMs: int, window: int) {
    Decode(secret).Ok? && 30000 * window <= timeMs < 30000 * (18446744073709551616 - window)
  }

  lemma RangeOfCounters(secret: string, timeMs: int, window: int)
    ensures window >= 0 ==> (Computable(secret, Counter(timeMs), window) <==> InRange(secret, timeMs, window))
  {
  }

  lemma {:induction false} SameSpelling(a: string, b: string)
    requires AllDecimal(a) && AllDecimal(b) && |a| == |b| && Spelled(a) == Spelled(b)
    ensures a == b
    decreases |a|
  {
    if a != "" {
      var n := |a| - 1;
      assert IsDigit(a[n]) && IsDigit(b[n]);
      SameSpelling(a[..n], b[..n]);
      assert a == a[..n] + [a[n]] && b == b[..n] + [b[n]];
    }
  }

  lemma Million()
    ensures Pow10(6) == 1000000
  {
    assert Pow10(3) == 1000 && Pow10(6) == 1000 * Pow10(3);
  }

  lemma MatchMeans(hmac: Hmac, secret: string, code: string, counter: nat, m: seq<bv8>)
    requires Decode(secret).Ok? && counter < COUNTER_LIMIT && SixDigits(WithoutSpace(code))
    requires |m| == 8 && Positional(Values(m)) == counter
    ensures Matches(hmac, secret, code, counter) <==>
      Spelled(WithoutSpace(code)) == Number(hmac(Decode(secret).value, m)) % 1000000
  {
    CodeOfCounter(hmac, secret, counter, 6, m);
    Million();
    var right := HotpCode(hmac, secret, counter, 6).value;
    if Spelled(right) == Spelled(WithoutSpace(code)) { SameSpelling(right, WithoutSpace(code)); }
  }

  lemma AcceptsMeans(hmac: Hmac, secret: string, code: string, timeMs: int, window: nat)
    requires SixDigits(WithoutSpace(code)) && Computable(secret, Counter(timeMs), window)
    ensures Accepts(hmac, secret, code, Counter(timeMs), window) <==>
      AcceptedAt(hmac, Decode(secret).value, code, timeMs, window)
  {
    var now := Counter(timeMs);
    if Accepts(hmac, secret, code, now, window) {
      var c :| now - window <= c < now + window + 1 && Matches(hmac, secret, code, c);
      var m := BigEndian(c, 8);
      MessageOfCounter(c, m);
      MatchMeans(hmac, secret, code, c, m);
    }
    if AcceptedAt(hmac, Decode(secret).value, code, timeMs, window) {
      var m: seq<bv8> :| |m| == 8
          && 30000 * (Positional(Values(m)) - window) <= timeMs < 30000 * (Positional(Values(m)) + window + 1)
          && Spelled(WithoutSpace(code)) == Number(hmac(Decode(secret).value, m)) % 1000000;
      MatchMeans(hmac, secret, code, Positional(Values(m)), m);
      assert now - window <= Positional(Values(m)) < now + window + 1;
    }
  }

  /**
   * The loop runs over the whole window without stopping at a match; a counter below zero or an
   * invalid secret throws. The answer is that of the definition in every other case.
   */
  method VerifyTotp(hmac: Hmac, secret: string, code: string, timeMs: int, window: int) returns (r: Result<bool>)
    ensures !SixDigits(WithoutSpace(code)) || window < 0 ==> r == Ok(false)
    ensures SixDigits(WithoutSpace(code)) && window >= 0 ==>
      (if Computable(secret, Counter(timeMs), window) then r
          == Ok(Accepts(hmac, secret, code, Counter(timeMs), window)) else r.Err?)
    ensures r.Ok? && r.value ==>
      SixDigits(WithoutSpace(code)) && AcceptedAt(hmac, Decode(secret).value, code, timeMs, window)
    ensures r.Ok? && SixDigits(WithoutSpace(code)) && window >= 0 ==>
      (r.value <==> AcceptedAt(hmac, Decode(secret).value, code, timeMs, window))
    ensures SixDigits(WithoutSpace(code)) && window >= 0 ==> (r.Err? <==> !InRange(secret, timeMs, window))
  {
    var normalized := WithoutSpace(code);
    if !SixDigits(normalized) {
      return Ok(false);
    }
    var counter := Counter(timeMs);
    var ok := false;
    var offset := -window;
    while offset <= window
      invariant window >= 0 ==> -window <= offset <= window + 1
      invariant window < 0 ==> offset == -window && !ok
      invariant offset > -window ==> Computes(secret, counter - window) && Computes(secret, counter + offset - 1)
      invariant window >= 0 ==> (ok <==> MatchesIn(hmac, secret, code, counter - window, counter + offset))
    {
      OneMoreStep(hmac, secret, code, counter - window, counter + offset);
      var same := TryStep(hmac, secret, normalized, counter + offset);
      if same.Err? {
        RangeOfCounters(secret, timeMs, window);
        return Err(same.error);
      }
      if same.value {
        ok := true;
      }
      offset := offset + 1;
    }
    RangeOfCounters(secret, timeMs, window);
    if window >= 0 { AcceptsMeans(hmac, secret, code, timeMs, window); }
    r := Ok(ok);
  }

  lemma {:induction false} SpaceIgnored(a: string, b: string)
    ensures WithoutSpace(a + b) == WithoutSpace(a) + WithoutSpace(b)
  {
    if a == "" {
      assert a + b == b;
    } else {
      assert (a + b)[1..] == a[1..] + b;
      SpaceIgnored(a[1..], b);
    }
  }

  /** Only white space goes: every other character of a text stays, in its place. */
  lemma OnlySpaceGoes(a: string, b: string, ch: char)
    requires !IsSpace(ch)
    ensures WithoutSpace(a + [ch] + b) == WithoutSpace(a) + [ch] + WithoutSpace(b)
  {
    SpaceIgnored(a + [ch], b);
    SpaceIgnored(a, [ch]);
    assert [ch][1..] == "" && WithoutSpace([ch]) == [ch];
  }

  lemma {:induction false} DigitsHaveNoSpace(s: string)
    requires AllDecimal(s)
    ensures WithoutSpace(s) == s
  {
    if s != "" {
      assert IsDigit(s[0]);
      DigitsHaveNoSpace(s[1..]);
    }
  }

  /** White space typed anywhere in a code leaves the code. */
  lemma SpacedCode(a: string, b: string, ch: char)
    requires AllDecimal(a) && AllDecimal(b) && IsSpace(ch)
    ensures WithoutSpace(a + [ch] + b) == a + b
  {
    SpaceIgnored(a + [ch], b);
    SpaceIgnored(a, [ch]);
    DigitsHaveNoSpace(a);
    DigitsHaveNoSpace(b);
    assert [ch][1..] == "" && WithoutSpace([ch]) == "";
  }

  /** Clocks that differ by at most `window` steps' time are at most `window` counters apart. */
  lemma NearbyCounters(here: int, there: int, window: nat)
    requires here - window * STEP_MS <= there <= here + window * STEP_MS
    ensures Counter(here) - window <= Counter(there) <= Counter(here) + window
  {
    assert there / STEP_MS <= (here + window * STEP_MS) / STEP_MS by {
      DivMonotone(there, here + window * STEP_MS, STEP_MS);
    }
    assert here / STEP_MS <= (there + window * STEP_MS) / STEP_MS by {
      DivMonotone(here, there + window * STEP_MS, STEP_MS);
    }
  }

  /** The code a drifting authenticator shows is accepted, with white space typed anywhere in it. */
  lemma DriftingCodeAccepted(hmac: Hmac, secret: string, here: int, there: int, window: nat, typed: string)
    requires Computable(secret, Counter(here), window)
    requires here - window * STEP_MS <= there <= here + window * STEP_MS
    requires TotpCode(hmac, secret, there) == Ok(WithoutSpace(typed))
    ensures SixDigits(WithoutSpace(typed)) && Accepts(hmac, secret, typed, Counter(here), window)
  {
    NearbyCounters(here, there, window);
    HotpHasSixDigits(hmac, secret, Counter(there));
    assert Matches(hmac, secret, typed, Counter(there));
  }

  /** With a window of one step the call throws exactly in the first 30 seconds after the epoch and before it. */
  lemma FailsOnlyNearTheEpoch(secret: string, timeMs: int)
    requires Decode(secret).Ok? && timeMs < (COUNTER_LIMIT - 1) * STEP_MS
    ensures Computable(secret, Counter(timeMs), 1) <==> timeMs >= STEP_MS
  {
  }

  // ---------------------------------------------------------------- recovery codes

  /** Ten base32 characters of seven random bytes, in two groups. */
  function GenerateRecoveryCode(random: seq<bv8>): string
    requires |random| == 7
  {
    EncodedLength(random);
    var raw := Encode(random)[..10];
    raw[..5] + "-" + raw[5..]
  }

  function Normalize(s: string): string {
    if s == "" then ""
    else if IsSpace(s[0]) || s[0] == '-' then Normalize(s[1..])
    else [Upper(s[0])] + Normalize(s[1..])
  }

  lemma {:induction false} NormalizeConcat(a: string, b: string)
    ensures Normalize(a + b) == Normalize(a) + Normalize(b)
  {
    if a == "" {
      assert a + b == b;
    } else {
      assert (a + b)[1..] == a[1..] + b;
      NormalizeConcat(a[1..], b);
    }
  }

  lemma {:induction false} DigitsAreNormal(s: string)
    requires AllDigits(s)
    ensures Normalize(s) == s
  {
    if s != "" {
      assert IndexOf(s[0]).Some?;
      assert AllDigits(s[1..]);
      DigitsAreNormal(s[1..]);
    }
  }

  /** What is compared at login is the ten characters, which pass the length test of the second factor. */
  lemma RecoveryCodeNormalizes(random: seq<bv8>)
    requires |random| == 7
    ensures |Encode(random)| == 12 && Normalize(GenerateRecoveryCode(random)) == Encode(random)[..10]
    ensures |Normalize(GenerateRecoveryCode(random))| >= 10
    ensures |GenerateRecoveryCode(random)| == 11 && GenerateRecoveryCode(random)[5] == '-'
  {
    EncodedLength(random);
    EncodedDigits(BytesBits(random));
    var raw := Encode(random)[..10];
    assert raw == raw[..5] + raw[5..];
    assert AllDigits(raw);
    DigitsAreNormal(raw[..5]);
    DigitsAreNormal(raw[5..]);
    NormalizeConcat(raw[..5] + "-", raw[5..]);
    NormalizeConcat(raw[..5], "-");
    assert "-"[1..] == "" && Normalize("-") == "";
  }

  lemma {:induction false} BitsOfStart(s: string, n: nat)
    requires AllDigits(s) && n <= |s|
    ensures CharBits(s[..n]) == CharBits(s)[..5 * n]
  {
    if n > 0 {
      assert s[..n][0] == s[0] && s[..n][1..] == s[1..][..n - 1];
      BitsOfStart(s[1..], n - 1);
      var first := DigitBits(IndexOf(s[0]).value);
      assert CharBits(s)[..5 * n] == first + CharBits(s[1..])[..5 * (n - 1)];
    }
  }

  lemma RecoveryBits(random: seq<bv8>)
    requires |random| == 7
    ensures |Encode(random)| == 12 && AllDigits(Encode(random)[..10])
    ensures CharBits(Encode(random)[..10]) == BytesBits(random)[..50]
  {
    EncodedLength(random);
    EncodedDigits(BytesBits(random));
    BitsOfStart(Encode(random), 10);
    assert Padded(BytesBits(random))[..50] == BytesBits(random)[..50];
  }

  /** Two recovery codes are the same code exactly when the first 50 of their 56 random bits agree. */
  lemma RecoveryCodesHaveFiftyBits(a: seq<bv8>, b: seq<bv8>)
    requires |a| == |b| == 7
    ensures Normalize(GenerateRecoveryCode(a)) == Normalize(GenerateRecoveryCode(b)) <==>
        BytesBits(a)[..50] == BytesBits(b)[..50]
  {
    RecoveryCodeNormalizes(a);
    RecoveryCodeNormalizes(b);
    RecoveryBits(a);
    RecoveryBits(b);
    if BytesBits(a)[..50] == BytesBits(b)[..50] {
      SameBitsSameText(Encode(a)[..10], Encode(b)[..10]);
    }
  }
}
