/** Datatypes shared by every module of the model. */
module Base {

  /** A nullable column, an absent lookup, an optional input. */
  datatype Option<+T> = None | Some(value: T) {
    function GetOr(default: T): T {
      match this
      case Some(v) => v
      case None => default
    }
  }

  /** A call that either returns a value or throws. */
  datatype Result<+T> = Ok(value: T) | Err(error: string)

  /** Why a running scan is interrupted: process shutdown, its own timeout, or the user. */
  datatype AbortReason = ByShutdown | ByTimeout | ByUser

  datatype Severity = Critical | High | Medium | Low | Info

  /** Record<FindingSeverity, number>. */
  datatype SeverityCounts = SeverityCounts(critical: int, high: int, medium: int, low: int, info: int) {
    function Of(s: Severity): int {
      match s
      case Critical => critical
      case High => high
      case Medium => medium
      case Low => low
      case Info => info
    }

    /** One more of severity `s`. */
    function Plus(s: Severity): (r: SeverityCounts)
      ensures forall t :: r.Of(t) == Of(t) + if t == s then 1 else 0
    {
      match s
      case Critical => this.(critical := critical + 1)
      case High => this.(high := high + 1)
      case Medium => this.(medium := medium + 1)
      case Low => this.(low := low + 1)
      case Info => this.(info := info + 1)
    }
  }

  const NO_COUNTS := SeverityCounts(0, 0, 0, 0, 0)

  const HOUR_MS := 60 * 60 * 1000
  const DAY_MS := 24 * HOUR_MS

  /** How grave a severity is; the reverse of its place in SEVERITY_ORDER. */
  function Gravity(s: Severity): int {
    match s
    case Critical => 4
    case High => 3
    case Medium => 2
    case Low => 1
    case Info => 0
  }

  /** White space of JavaScript's \s. */
  predicate IsSpace(ch: char) {
    var c := ch as int;
    || 9 <= c <= 13 || c == 32 || c == 0xA0 || c == 0x1680 || 0x2000 <= c <= 0x200A
    || c == 0x2028 || c == 0x2029 || c == 0x202F || c == 0x205F || c == 0x3000 || c == 0xFEFF
  }

  /** toUpperCase and toLowerCase on ASCII. */
  function Upper(ch: char): char {
    if 'a' <= ch <= 'z' then (ch as int - 32) as char else ch
  }

  function Lower(ch: char): char {
    if 'A' <= ch <= 'Z' then (ch as int + 32) as char else ch
  }

  function Lowered(s: string): (r: string)
    ensures |r| == |s|
  {
    seq(|s|, i requires 0 <= i < |s| => Lower(s[i]))
  }

  /** Math.round of a quotient: halves go up. */
  function Rounded(a: int, b: int): int
    requires b > 0
  {
    (2 * a + b) / (2 * b)
  }

  /** Math.ceil of a quotient. */
  function CeilDiv(a: int, b: int): int
    requires b > 0
  {
    (a + b - 1) / b
  }

  /** JavaScript's Math.max on integers. */
  function Max(a: int, b: int): int {
    if a < b then b else a
  }

  /** JavaScript's Math.min on integers. */
  function Min(a: int, b: int): int {
    if a < b then a else b
  }

  /** Multiplication by a non-negative number is monotone. */
  lemma MulMonotone(x: int, y: int, d: int)
    requires x <= y && d >= 0
    ensures d * x <= d * y
  {
  }

  /** Division by a positive number is monotone. */
  lemma DivMonotone(a: int, b: int, d: int)
    requires a <= b && d > 0
    ensures a / d <= b / d
  {
    var q, r := a / d, b / d;
    assert d * q <= a && b < d * r + d;
    if r + 1 <= q { MulMonotone(r + 1, q, d); }
  }

  /** Taking one position out of a sequence takes one occurrence out of its multiset. */
  lemma MultisetWithout<T>(s: seq<T>, i: nat)
    requires i < |s|
    ensures multiset(s[..i] + s[i + 1..]) == multiset(s) - multiset{s[i]}
  {
    assert s == s[..i] + ([s[i]] + s[i + 1..]);
  }

  /** What is left of a permutation when both sides lose the same element. */
  lemma RestsAgree<T>(a: seq<T>, b: seq<T>, i: nat)
    requires multiset(a) == multiset(b) && a != [] && i < |b| && b[i] == a[0]
    ensures multiset(a[1..]) == multiset(b[..i] + b[i + 1..])
  {
    MultisetWithout(a, 0);
    MultisetWithout(b, i);
    assert a[..0] + a[1..] == a[1..];
  }

  /** Where an element of a permutation is. */
  lemma FindIn<T>(a: seq<T>, b: seq<T>) returns (i: nat)
    requires multiset(a) == multiset(b) && a != []
    ensures i < |b| && b[i] == a[0]
  {
    assert a[0] in multiset(b);
    i :| 0 <= i < |b| && b[i] == a[0];
  }
}
