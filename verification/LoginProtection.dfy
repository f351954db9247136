/**
 * Brute-force protection per account (login-protection.service.ts) as the two login steps use it
 * (auth.service.ts, mfa.service.ts), and the purge of its rows (retention.service.ts). Times are
 * milliseconds; one attempt (check, verification, record) is one step.
 */
module LoginProtection {
  import opened Base

  datatype FailureState = FailureState(failures: nat, lockedUntil: Option<int>)

  datatype Row = Row(state: FailureState, updatedAt: int)

  datatype Config = Config(maxFailures: nat, lockoutMs: nat)

  const PURGE_AGE_MS := 7 * DAY_MS

  /** The validated configuration: 3 to 50 failures, 1 to 1440 minutes. */
  predicate Validated(c: Config) {
    3 <= c.maxFailures <= 50 && 60 * 1000 <= c.lockoutMs <= 1440 * 60 * 1000
  }

  function NextFailureState(previous: Option<Row>, now: int, c: Config): FailureState {
    var expiredLock := previous.Some? && previous.value.state.lockedUntil.Some?
        && previous.value.state.lockedUntil.value <= now;
    var stale := previous.Some? && previous.value.state.lockedUntil.None?
        && now - previous.value.updatedAt > c.lockoutMs;
    var failures := if previous.None? || expiredLock || stale then 1 else previous.value.state.failures + 1;
    FailureState(failures, if failures >= c.maxFailures then Some(now + c.lockoutMs) else None)
  }

  /** There is no row, its lock has ended, or it has no lock and is older than a lockout. */
  predicate CountsAnew(previous: Option<Row>, now: int, c: Config) {
    previous == None || match previous.value.state.lockedUntil
      case Some(until) => until <= now
      case None => previous.value.updatedAt + c.lockoutMs < now
  }

  /**
   * A failure counts on from the row, unless there is none, its lock has ended, or it has no lock and
   * is older than a lockout; from the limit on the account is locked for a lockout.
   */
  lemma NextFailureIs(previous: Option<Row>, now: int, c: Config)
    ensures var next := NextFailureState(previous, now, c);
      && next.failures == (if CountsAnew(previous, now, c) then 1 else previous.value.state.failures + 1)
      && next.lockedUntil == (if next.failures >= c.maxFailures then Some(now + c.lockoutMs) else None)
  {
  }

  predicate Locked(row: Option<Row>, now: int) {
    row.Some? && row.value.state.lockedUntil.Some? && row.value.state.lockedUntil.value > now
  }

  /**
   * A login request: the password step, or the second factor that completes it. `usable` says that
   * user and organization are active and the address is verified where that is required.
   */
  datatype Attempt =
    | Password(at: int, correct: bool, usable: bool, mfa: bool)
    | SecondFactor(at: int, correct: bool)

  datatype Outcome = Blocked | Failed | Refused | Challenge | LoggedIn

  function OutcomeOf(row: Option<Row>, a: Attempt): Outcome {
    if Locked(row, a.at) then Blocked
    else if !a.correct then Failed
    else if a.Password? && !a.usable then Refused
    else if a.Password? && a.mfa then Challenge
    else LoggedIn
  }

  /** The account's row after an attempt; a refusal or a challenge neither counts nor resets. */
  function Step(row: Option<Row>, a: Attempt, c: Config): Option<Row> {
    match OutcomeOf(row, a)
    case Blocked => row
    case Failed => Some(Row(NextFailureState(row, a.at, c), a.at))
    case Refused => row
    case Challenge => row
    case LoggedIn => None
  }

  function Outcomes(row: Option<Row>, attempts: seq<Attempt>, c: Config): (r: seq<Outcome>)
    ensures |r| == |attempts|
    decreases |attempts|
  {
    if attempts == [] then [] else [OutcomeOf(row, attempts[0])] + Outcomes(Step(row, attempts[0], c), attempts[1..], c)
  }

  function Failures(outcomes: seq<Outcome>): nat {
    if outcomes == [] then 0 else (if outcomes[0].Failed? then 1 else 0) + Failures(outcomes[1..])
  }

  predicate InOrder(attempts: seq<Attempt>) {
    forall i, j :: 0 <= i <= j < |attempts| ==> attempts[i].at <= attempts[j].at
  }

  /** The row has a lock that ends after `at`. */
  predicate LockedPast(row: Row, at: int) {
    match row.state.lockedUntil
    case Some(until) => at < until
    case None => false
  }

  // ---------------------------------------------------------------- two-step verification

  /** Attempts on an account with two-step verification. */
  predicate TwoStep(attempts: seq<Attempt>) {
    forall i :: 0 <= i < |attempts| && attempts[i].Password? ==> attempts[i].mfa
  }

  predicate IsRightSecondFactor(a: Attempt) {
    a.SecondFactor? && a.correct
  }

  /** The row before attempt `i`. */
  function RowBefore(row: Option<Row>, attempts: seq<Attempt>, c: Config, i: nat): Option<Row>
    requires i <= |attempts|
    decreases i
  {
    if i == 0 then row else Step(RowBefore(row, attempts, c, i - 1), attempts[i - 1], c)
  }

  lemma {:induction false} OutcomeAt(row: Option<Row>, attempts: seq<Attempt>, c: Config, i: nat)
    requires i < |attempts|
    ensures Outcomes(row, attempts, c)[i] == OutcomeOf(RowBefore(row, attempts, c, i), attempts[i])
    decreases |attempts|
  {
    if i > 0 {
      OutcomeAt(Step(row, attempts[0], c), attempts[1..], c, i - 1);
      RowBeforeTail(row, attempts, c, i);
      assert Outcomes(row, attempts, c)[i] == Outcomes(Step(row, attempts[0], c), attempts[1..], c)[i - 1];
    }
  }

  lemma {:induction false} RowBeforeTail(row: Option<Row>, attempts: seq<Attempt>, c: Config, i: nat)
    requires 0 < i <= |attempts|
    ensures RowBefore(row, attempts, c, i) == RowBefore(Step(row, attempts[0], c), attempts[1..], c, i - 1)
    decreases i
  {
    if i > 1 { RowBeforeTail(row, attempts, c, i - 1); }
  }

  /**
   * Over every run from any row, an account with two-step verification is logged in by an attempt if
   * and only if that is a right second factor while no lock is running. A right password of it, or
   * one that comes while it is locked, changes nothing in the row.
   */
  lemma TwoStepNeedsTheSecond(row: Option<Row>, attempts: seq<Attempt>, c: Config, i: nat)
    requires TwoStep(attempts) && i < |attempts|
    ensures var before, after := RowBefore(row, attempts, c, i), RowBefore(row, attempts, c, i + 1);
      var free := before.Some? ==> !LockedPast(before.value, attempts[i].at);
      && (Outcomes(row, attempts, c)[i] == LoggedIn <==> attempts[i].SecondFactor? && attempts[i].correct && free)
      && (attempts[i].Password? && attempts[i].correct ==> after == before)
      && (!free ==> after == before)
      && (Outcomes(row, attempts, c)[i] == LoggedIn ==> after == None)
  {
    OutcomeAt(row, attempts, c, i);
  }

  /** Without two-step verification, a right password of a usable account logs in, and nothing else of it does. */
  lemma OneStepLogsIn(row: Option<Row>, at: int, correct: bool, usable: bool)
    ensures OutcomeOf(row, Password(at, correct, usable, false)) == LoggedIn <==>
      correct && usable && (row.Some? ==> !LockedPast(row.value, at))
  {
  }

  // ---------------------------------------------------------------- the bound on guesses

  /** What a run from an empty row leaves: a lock runs `lockoutMs` from the failure that set it. */
  predicate Regular(row: Row, c: Config) {
    && 1 <= row.state.failures <= c.maxFailures
    && row.state.lockedUntil == if row.state.failures == c.maxFailures then Some(row.updatedAt + c.lockoutMs) else None
  }

  function LastAt(attempts: seq<Attempt>, default: int): int {
    if attempts == [] then default else attempts[|attempts| - 1].at
  }

  /** The guesses allowed from `start` until `at`. */
  function Allowance(start: int, at: int, c: Config): int
    requires c.lockoutMs >= 1
  {
    c.maxFailures * ((at - start) / c.lockoutMs + 1)
  }

  lemma AllowanceGrows(start: int, at: int, later: int, c: Config)
    requires c.lockoutMs >= 1 && at <= later
    ensures Allowance(start, at, c) <= Allowance(start, later, c)
  {
    DivMonotone(at - start, later - start, c.lockoutMs);
    MulMonotone((at - start) / c.lockoutMs + 1, (later - start) / c.lockoutMs + 1, c.maxFailures);
  }

  lemma NextQuotient(x: int, d: int)
    requires d >= 1
    ensures (x + d) / d == x / d + 1
  {
    var p, q := (x + d) / d, x / d;
    if p < q + 1 {
      MulMonotone(p + 1, q + 1, d);
    } else if p > q + 1 {
      MulMonotone(q + 2, p, d);
    }
  }

  lemma AllowancePerLockout(start: int, at: int, later: int, c: Config)
    requires c.lockoutMs >= 1 && at + c.lockoutMs <= later
    ensures Allowance(start, at, c) + c.maxFailures <= Allowance(start, later, c)
  {
    AllowanceGrows(start, at + c.lockoutMs, later, c);
    var q := (at - start) / c.lockoutMs;
    NextQuotient(at - start, c.lockoutMs);
    assert (at + c.lockoutMs - start) == at - start + c.lockoutMs;
    assert c.maxFailures * (q + 2) == c.maxFailures * (q + 1) + c.maxFailures;
  }

  /** What one evaluated guess does to a regular row: it counts on, or a lockout time has gone by. */
  lemma FailureStep(row: Row, at: int, c: Config)
    requires c.maxFailures >= 1 && Regular(row, c) && row.updatedAt <= at && !Locked(Some(row), at)
    ensures var next := Row(NextFailureState(Some(row), at, c), at);
      && Regular(next, c)
      && (next.state.failures == row.state.failures + 1
           || (next.state.failures == 1 && row.updatedAt + c.lockoutMs <= at))
  {
  }

  /** `spent` guesses were evaluated before the row's count began. */
  lemma {:induction false} GuessesLeft(row: Row, attempts: seq<Attempt>, c: Config, start: int, spent: nat)
    requires c.maxFailures >= 1 && c.lockoutMs >= 1 && Regular(row, c)
    requires InOrder(attempts) && (attempts != [] ==> row.updatedAt <= attempts[0].at)
    requires spent + c.maxFailures <= Allowance(start, row.updatedAt, c)
    requires LoggedIn !in Outcomes(Some(row), attempts, c)
    ensures spent + row.state.failures
        + Failures(Outcomes(Some(row), attempts, c)) <= Allowance(start, LastAt(attempts, row.updatedAt), c)
    decreases |attempts|
  {
    if attempts != [] {
      var a, rest := attempts[0], attempts[1..];
      var next := Step(Some(row), a, c);
      assert LastAt(attempts, row.updatedAt) == LastAt(rest, a.at);
      assert OutcomeOf(Some(row), a) == Outcomes(Some(row), attempts, c)[0];
      assert Outcomes(next, rest, c) == Outcomes(Some(row), attempts, c)[1..];
      AllowanceGrows(start, row.updatedAt, a.at, c);
      if !OutcomeOf(Some(row), a).Failed? {
        GuessesLeft(row, rest, c, start, spent);
      } else {
        FailureStep(row, a.at, c);
        if next.value.state.failures == row.state.failures + 1 {
          GuessesLeft(next.value, rest, c, start, spent);
        } else {
          AllowancePerLockout(start, row.updatedAt, a.at, c);
          GuessesLeft(next.value, rest, c, start, spent + row.state.failures);
        }
      }
    }
  }

  /**
   * However wrong passwords, wrong second factors and right passwords that do not complete a login
   * are timed and mixed, as long as each request ends before the next begins: while no login
   * completes, the guesses evaluated within a time T number at most
   * maxFailures * (T / lockoutMs + 1). OverlappingLogins has the bound for overlapping requests.
   */
  lemma {:induction false} BruteForceBound(attempts: seq<Attempt>, c: Config)
    requires c.maxFailures >= 1 && c.lockoutMs >= 1
    requires attempts != [] && InOrder(attempts) && LoggedIn !in Outcomes(None, attempts, c)
    ensures Failures(Outcomes(None, attempts, c))
      <= c.maxFailures * ((attempts[|attempts| - 1].at - attempts[0].at) / c.lockoutMs + 1)
  {
    GuessesFromEmpty(attempts, c, attempts[0].at);
  }

  lemma {:induction false} GuessesFromEmpty(attempts: seq<Attempt>, c: Config, start: int)
    requires c.maxFailures >= 1 && c.lockoutMs >= 1
    requires InOrder(attempts) && (attempts != [] ==> start <= attempts[0].at)
    requires LoggedIn !in Outcomes(None, attempts, c)
    ensures Failures(Outcomes(None, attempts, c)) <= Allowance(start, LastAt(attempts, start), c)
    decreases |attempts|
  {
    assert Allowance(start, start, c) == c.maxFailures;
    if attempts != [] {
      var a, rest := attempts[0], attempts[1..];
      assert OutcomeOf(None, a) == Outcomes(None, attempts, c)[0];
      var next := Step(None, a, c);
      assert Outcomes(next, rest, c) == Outcomes(None, attempts, c)[1..];
      AllowanceGrows(start, start, a.at, c);
      if a.correct {
        GuessesFromEmpty(rest, c, start);
      } else {
        assert LastAt(attempts, start) == LastAt(rest, a.at);
        GuessesLeft(next.value, rest, c, start, 0);
      }
    }
  }

  /**
   * Whoever has not the second factor of an account with two-step verification never logs in, and
   * guesses within the bound, right passwords included: these neither count nor reset the count.
   */
  lemma TwoStepBound(attempts: seq<Attempt>, c: Config)
    requires c.maxFailures >= 1 && c.lockoutMs >= 1 && attempts != [] && InOrder(attempts) && TwoStep(attempts)
    requires forall i :: 0 <= i < |attempts| ==> !IsRightSecondFactor(attempts[i])
    ensures LoggedIn !in Outcomes(None, attempts, c)
    ensures Failures(Outcomes(None, attempts, c))
      <= c.maxFailures * ((attempts[|attempts| - 1].at - attempts[0].at) / c.lockoutMs + 1)
  {
    forall i | 0 <= i < |attempts| ensures Outcomes(None, attempts, c)[i] != LoggedIn {
      TwoStepNeedsTheSecond(None, attempts, c, i);
      assert !IsRightSecondFactor(attempts[i]);
    }
    BruteForceBound(attempts, c);
  }

  /** `m` wrong passwords at one instant. */
  function Burst(at: int, m: nat): (r: seq<Attempt>)
    ensures |r| == m
  {
    seq(m, _ => Password(at, false, true, false))
  }

  function Bursts(at: int, n: nat, c: Config): seq<Attempt>
    decreases n
  {
    Burst(at, c.maxFailures) + if n == 0 then [] else Bursts(at + c.lockoutMs, n - 1, c)
  }

  lemma {:induction false} BurstFails(row: Option<Row>, at: int, m: nat, rest: seq<Attempt>, c: Config)
    requires c.maxFailures >= 1 && m <= c.maxFailures
    requires if m == c.maxFailures then row.None? || row.value.state.lockedUntil == Some(at)
             else row == Some(Row(FailureState(c.maxFailures - m, if m == 0 then Some(at + c.lockoutMs) else None), at))
    ensures Failures(Outcomes(row, Burst(at, m) + rest, c)) ==
      m + Failures(Outcomes(if m == 0 then row
          else Some(Row(FailureState(c.maxFailures, Some(at + c.lockoutMs)), at)), rest, c))
    decreases m
  {
    var all := Burst(at, m) + rest;
    if m == 0 {
      assert all == rest;
    } else {
      assert all[1..] == Burst(at, m - 1) + rest;
      BurstFails(Step(row, all[0], c), at, m - 1, rest, c);
    }
  }

  lemma {:induction false} BurstsAllFail(row: Option<Row>, at: int, n: nat, c: Config)
    requires c.maxFailures >= 1 && (row.None? || row.value.state.lockedUntil == Some(at))
    ensures Failures(Outcomes(row, Bursts(at, n, c), c)) == c.maxFailures * (n + 1)
    decreases n
  {
    var rest := if n == 0 then [] else Bursts(at + c.lockoutMs, n - 1, c);
    BurstFails(row, at, c.maxFailures, rest, c);
    if n > 0 {
      BurstsAllFail(Some(Row(FailureState(c.maxFailures, Some(at + c.lockoutMs)), at)), at + c.lockoutMs, n - 1, c);
      assert c.maxFailures + c.maxFailures * n == c.maxFailures * (n + 1);
    }
  }

  lemma BurstThen(at: int, m: nat, rest: seq<Attempt>)
    requires InOrder(rest) && (rest != [] ==> at <= rest[0].at)
    ensures InOrder(Burst(at, m) + rest)
    ensures m > 0 ==> (Burst(at, m) + rest)[0].at == at && LastAt(Burst(at, m) + rest, at) == LastAt(rest, at)
  {
    var all := Burst(at, m) + rest;
    forall i, j | 0 <= i <= j < |all| ensures all[i].at <= all[j].at {
      if j >= m {
        assert all[j] == rest[j - m];
        assert rest[0].at <= rest[j - m].at;
        if i >= m { assert all[i] == rest[i - m]; }
      }
    }
  }

  lemma OneMore(n: nat, d: int)
    requires n >= 1
    ensures n * d == d + (n - 1) * d
  {
  }

  function LastTime(at: int, n: nat, c: Config): int
    decreases n
  {
    if n == 0 then at else LastTime(at + c.lockoutMs, n - 1, c)
  }

  lemma {:induction false} BurstsInOrder(at: int, n: nat, c: Config)
    requires c.maxFailures >= 1
    ensures var b := Bursts(at, n, c); b != [] && InOrder(b) && b[0].at == at && LastAt(b, at) == LastTime(at, n, c)
    decreases n
  {
    if n == 0 {
      assert Bursts(at, 0, c) == Burst(at, c.maxFailures) + [];
      BurstThen(at, c.maxFailures, []);
    } else {
      BurstsInOrder(at + c.lockoutMs, n - 1, c);
      BurstThen(at, c.maxFailures, Bursts(at + c.lockoutMs, n - 1, c));
    }
  }

  lemma {:induction false} LastTimeIs(at: int, n: nat, c: Config)
    ensures LastTime(at, n, c) == at + n * c.lockoutMs
    decreases n
  {
    if n > 0 {
      LastTimeIs(at + c.lockoutMs, n - 1, c);
      OneMore(n, c.lockoutMs);
    }
  }

  /** The bound is reached: a burst whenever a lock ends, for any number of locks. */
  lemma BruteForceBoundIsReached(at: int, n: nat, c: Config)
    requires c.maxFailures >= 1
    ensures var b := Bursts(at, n, c);
      && b != [] && InOrder(b) && b[|b| - 1].at - b[0].at == n * c.lockoutMs
      && Failures(Outcomes(None, b, c)) == c.maxFailures * (n + 1)
  {
    BurstsInOrder(at, n, c);
    LastTimeIs(at, n, c);
    BurstsAllFail(None, at, n, c);
  }

  // ---------------------------------------------------------------- the purge of old rows

  /** The rows the daily retention run deletes. */
  predicate Purgeable(row: Row, at: int) {
    row.updatedAt < at - PURGE_AGE_MS && (row.state.lockedUntil.None? || row.state.lockedUntil.value < at)
  }

  /** From `now` on the row answers like a missing one. */
  predicate Spent(row: Row, now: int, c: Config) {
    if row.state.lockedUntil.Some? then row.state.lockedUntil.value <= now else now - row.updatedAt > c.lockoutMs
  }

  lemma SpentMeansMissing(row: Row, now: int, later: int, c: Config)
    requires Spent(row, now, c) && now <= later
    ensures !Locked(Some(row), later) && NextFailureState(Some(row), later, c) == NextFailureState(None, later, c)
    ensures Spent(row, later, c)
  {
  }

  /** Nobody can tell whether the rows deleted at `at` are still there. */
  ghost predicate PurgeUnobservable(c: Config) {
    forall row: Row, at: int, later: int :: Purgeable(row, at) && at <= later ==>
      (Locked(Some(row), later) == Locked(None, later)
          && NextFailureState(Some(row), later, c) == NextFailureState(None, later, c))
  }

  /** The purge is unobservable exactly for lockouts of at most its seven days. */
  lemma PurgeNeedsShortLockouts(c: Config)
    ensures PurgeUnobservable(c) <==> c.lockoutMs <= PURGE_AGE_MS
  {
    if c.lockoutMs <= PURGE_AGE_MS {
      forall row: Row, at: int, later: int | Purgeable(row, at) && at <= later
        ensures Locked(Some(row), later) == Locked(None, later)
            && NextFailureState(Some(row), later, c) == NextFailureState(None, later, c)
      {
        SpentMeansMissing(row, at, later, c);
      }
    } else {
      var row := Row(FailureState(1, None), -PURGE_AGE_MS - 1);
      assert Purgeable(row, 0);
      assert NextFailureState(Some(row), 0, c).failures == 2 && NextFailureState(None, 0, c).failures == 1;
    }
  }

  /** The validated configuration is on the safe side. */
  lemma ValidatedPurgeIsUnobservable(c: Config)
    requires Validated(c)
    ensures PurgeUnobservable(c)
  {
    PurgeNeedsShortLockouts(c);
  }

  datatype Event = Try(attempt: Attempt) | Purge(at: int)

  function At(e: Event): int {
    match e
    case Try(a) => a.at
    case Purge(at) => at
  }

  function Purged(row: Option<Row>, at: int): Option<Row> {
    if row.Some? && Purgeable(row.value, at) then None else row
  }

  /** What the user sees of a run with purges in between. */
  function Seen(row: Option<Row>, events: seq<Event>, c: Config): seq<Outcome>
    decreases |events|
  {
    if events == [] then []
    else match events[0]
      case Try(a) => [OutcomeOf(row, a)] + Seen(Step(row, a, c), events[1..], c)
      case Purge(at) => Seen(Purged(row, at), events[1..], c)
  }

  function Tries(events: seq<Event>): seq<Attempt> {
    if events == [] then []
    else if events[0].Try? then [events[0].attempt] + Tries(events[1..])
    else Tries(events[1..])
  }

  predicate Chronological(events: seq<Event>, from: int) {
    events != [] ==> from <= At(events[0]) && Chronological(events[1..], At(events[0]))
  }

  /** Same row, or a deleted one that would have been spent. */
  predicate Alike(purged: Option<Row>, kept: Option<Row>, now: int, c: Config) {
    purged == kept || (purged.None? && kept.Some? && Spent(kept.value, now, c))
  }

  lemma AlikeStep(purged: Option<Row>, kept: Option<Row>, now: int, a: Attempt, c: Config)
    requires Alike(purged, kept, now, c) && now <= a.at
    ensures OutcomeOf(purged, a) == OutcomeOf(kept, a)
    ensures Alike(Step(purged, a, c), Step(kept, a, c), a.at, c)
  {
    if purged != kept {
      SpentMeansMissing(kept.value, now, a.at, c);
    }
  }

  lemma AlikePurge(purged: Option<Row>, kept: Option<Row>, now: int, at: int, c: Config)
    requires Alike(purged, kept, now, c) && now <= at && c.lockoutMs <= PURGE_AGE_MS
    ensures Alike(Purged(purged, at), kept, at, c)
  {
    if purged != kept {
      SpentMeansMissing(kept.value, now, at, c);
    }
  }

  /** Purges at any moments of any run change no outcome of any attempt. */
  lemma {:induction false} PurgesChangeNoOutcome(purged: Option<Row>, kept: Option<Row>, events: seq<Event>,
      now: int, c: Config)
    requires Alike(purged, kept, now, c) && Chronological(events, now) && c.lockoutMs <= PURGE_AGE_MS
    ensures Seen(purged, events, c) == Outcomes(kept, Tries(events), c)
    decreases |events|
  {
    if events != [] {
      match events[0]
      case Try(a) =>
        AlikeStep(purged, kept, now, a, c);
        PurgesChangeNoOutcome(Step(purged, a, c), Step(kept, a, c), events[1..], a.at, c);
        assert Tries(events)[0] == a && Tries(events)[1..] == Tries(events[1..]);
      case Purge(at) =>
        AlikePurge(purged, kept, now, at, c);
        PurgesChangeNoOutcome(Purged(purged, at), kept, events[1..], at, c);
    }
  }

  // ---------------------------------------------------------------- the service in place

  class LoginAttempts {
    var rows: map<string, Row>
    const config: Config

    constructor (config: Config)
      ensures rows == map[] && this.config == config
    {
      this.config := config;
      rows := map[];
    }

    function RowOf(key: string): Option<Row>
      reads this
    {
      if key in rows then Some(rows[key]) else None
    }

    /** A locked account is told how long to wait: after that many seconds the check passes, and not one earlier. */
    method AssertNotLocked(key: string, now: int) returns (r: Result<()>, retryAfterSeconds: int)
      ensures r.Err? <==> key in rows && LockedPast(rows[key], now)
      ensures r.Err? ==> retryAfterSeconds >= 1 && !Locked(RowOf(key), now + 1000 * retryAfterSeconds)
                         && Locked(RowOf(key), now + 1000 * (retryAfterSeconds - 1))
    {
      if key in rows && rows[key].state.lockedUntil.Some? && rows[key].state.lockedUntil.value > now {
        retryAfterSeconds := CeilDiv(rows[key].state.lockedUntil.value - now, 1000);
        return Err("too many failed attempts"), retryAfterSeconds;
      }
      return Ok(()), 0;
    }

    method RecordFailure(key: string, now: int) returns (next: FailureState)
      modifies this
      ensures next == NextFailureState(old(RowOf(key)), now, config)
      ensures rows == old(rows)[key := Row(next, now)]
      ensures next.failures ==
        if CountsAnew(old(RowOf(key)), now, config) then 1 else old(rows)[key].state.failures + 1
      ensures next.lockedUntil == if next.failures >= config.maxFailures then Some(now + config.lockoutMs) else None
    {
      var failures := 1;
      if key in rows {
        var previous := rows[key];
        var until := previous.state.lockedUntil;
        var expiredLock := until.Some? && until.value <= now;
        var stale := until.None? && now - previous.updatedAt > config.lockoutMs;
        if !expiredLock && !stale {
          failures := previous.state.failures + 1;
        }
      }
      next := FailureState(failures, if failures >= config.maxFailures then Some(now + config.lockoutMs) else None);
      rows := rows[key := Row(next, now)];
    }

    method Reset(key: string)
      modifies this
      ensures rows == old(rows) - {key}
    {
      rows := rows - {key};
    }

    /**
     * One request of either login step, on the account's own row only. A running lock stops it; a
     * wrong secret is counted; a right password of a usable account with two-step verification is
     * answered with a challenge; and only a completed login removes the row.
     */
    method Handle(key: string, a: Attempt) returns (outcome: Outcome)
      modifies this
      ensures outcome == OutcomeOf(old(RowOf(key)), a) && RowOf(key) == Step(old(RowOf(key)), a, config)
      ensures outcome == Blocked <==> key in old(rows) && LockedPast(old(rows)[key], a.at)
      ensures outcome == Failed <==> outcome != Blocked && !a.correct
      ensures outcome == Refused <==> outcome != Blocked && a.correct && a.Password? && !a.usable
      ensures outcome == Challenge <==> outcome != Blocked && a.correct && a.Password? && a.usable && a.mfa
      ensures outcome == LoggedIn <==>
        outcome != Blocked && a.correct && (a.SecondFactor? || (a.usable && !a.mfa))
      ensures outcome in {Blocked, Refused, Challenge} ==> rows == old(rows)
      ensures outcome == LoggedIn ==> rows == old(rows) - {key}
      ensures outcome == Failed ==> key in rows && rows == old(rows)[key := rows[key]] && rows[key].updatedAt == a.at
      ensures rows - {key} == old(rows) - {key}
    {
      var free, _ := AssertNotLocked(key, a.at);
      if free.Err? {
        return Blocked;
      }
      if !a.correct {
        var _ := RecordFailure(key, a.at);
        return Failed;
      }
      if a.Password? && !a.usable {
        return Refused;
      }
      if a.Password? && a.mfa {
        return Challenge;
      }
      Reset(key);
      return LoggedIn;
    }

    /** The retention run's deleteMany. */
    method PurgeOld(now: int) returns (count: nat)
      modifies this
      ensures forall key :: RowOf(key) == Purged(old(RowOf(key)), now)
      ensures forall key :: key in rows ==> key in old(rows) && rows[key] == old(rows)[key]
      ensures forall key | key in old(rows) :: key in rows <==>
        now - 604800000 <= old(rows)[key].updatedAt || LockedPast(old(rows)[key], now - 1)
      ensures count == |old(rows)| - |rows|
    {
      var old_keys := set key | key in rows && Purgeable(rows[key], now);
      var left := rows - old_keys;
      assert left.Keys == rows.Keys - old_keys;
      count := |old_keys|;
      rows := left;
    }
  }
}
