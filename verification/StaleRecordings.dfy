/**
 * What overlapping login requests can do when their recordings may be stale: recordFailure reads
 * the row and writes it later without a transaction (login-protection.service.ts), so a recording
 * can overwrite what others wrote since it began, even a lock. Within less than a lockout time the
 * guesses are then bounded by a binomial coefficient, and that many can be made.
 */
module StaleRecordings {
  import opened Base
  import opened OverlappingLogins
  import L = LoginProtection

  /** The binomial coefficient (m + n choose m): the paths through a grid of m by n. */
  function Ways(m: nat, n: nat): (r: nat)
    ensures r >= 1
    decreases m + n
  {
    if m == 0 || n == 0 then 1 else Ways(m - 1, n) + Ways(m, n - 1)
  }

  lemma {:induction false} OneColumn(n: nat)
    ensures Ways(1, n) == n + 1 && Ways(n, 1) == n + 1
    decreases n
  {
    if n > 0 { OneColumn(n - 1); }
  }

  lemma {:induction false} WaysGrow(a: nat, b: nat, n: nat)
    requires a <= b
    ensures Ways(a, n) <= Ways(b, n)
    decreases b
  {
    if a < b && n > 0 { WaysGrow(a, b - 1, n); }
  }

  // ---------------------------------------------------------------- the measure

  /**
   * How far a run has come is told by k(x), the number of the w requests that can only write a count
   * above x: those that have read a count of at least x, and all that are still to read the row if it
   * counts at least x. At x they have used up Share(k(x), max - x + 1) of the guesses.
   */
  function Share(k: nat, n: nat): nat {
    if k == 0 then 0 else Ways(k - 1, n)
  }

  /** The guesses used up, added up over the counts from x to the limit. */
  function Behind(k: nat -> nat, x: nat, max: nat): nat
    decreases max - x
  {
    if x >= max then 0 else Share(k(x), max - x + 1) + Behind(k, x + 1, max)
  }

  lemma ShareGrows(a: nat, b: nat, n: nat)
    requires a <= b
    ensures Share(a, n) <= Share(b, n)
  {
    if a > 0 { WaysGrow(a - 1, b - 1, n); }
  }

  lemma {:induction false} BehindGrows(k: nat -> nat, k': nat -> nat, x: nat, max: nat)
    requires forall y: nat :: x <= y < max ==> k(y) <= k'(y)
    ensures Behind(k, x, max) <= Behind(k', x, max)
    decreases max - x
  {
    if x < max {
      ShareGrows(k(x), k'(x), max - x + 1);
      BehindGrows(k, k', x + 1, max);
    }
  }

  lemma {:induction false} BehindAtMost(k: nat -> nat, x: nat, max: nat, most: nat)
    requires x <= max && forall y: nat :: x <= y < max ==> k(y) <= most
    ensures Behind(k, x, max) + 1 + most <= Ways(most, max - x + 1)
    decreases max - x
  {
    if x == max {
      OneColumn(most);
    } else {
      ShareGrows(k(x), most, max - x + 1);
      BehindAtMost(k, x + 1, max, most);
    }
  }

  ghost predicate Bounded(k: nat -> nat, most: nat) {
    forall y: nat :: k(y) <= most
  }

  lemma BehindBounded(k: nat -> nat, max: nat, most: nat)
    requires max >= 1 && Bounded(k, most)
    ensures Behind(k, 1, max) + 1 + most <= Ways(most, max)
  {
    BehindAtMost(k, 1, max, most);
  }

  /** Raising k at one place by one outweighs whatever is lost above it. */
  lemma WriteGains(k: nat -> nat, k': nat -> nat, x: nat, max: nat)
    requires x < max && k'(x) >= k(x) + 1
    requires forall y: nat :: x <= y < max ==> k(y) <= k(x)
    ensures Behind(k', x, max) >= Behind(k, x, max) + k(x) + 1
  {
    var n := max - x + 1;
    ShareGrows(k(x) + 1, k'(x), n);
    BehindAtMost(k, x + 1, max, k(x));
    assert Share(k(x) + 1, n) == Ways(k(x), n);
  }

  lemma {:induction false} WriteGainsBelow(k: nat -> nat, k': nat -> nat, from: nat, x: nat, max: nat)
    requires from <= x < max && k'(x) >= k(x) + 1
    requires forall y: nat :: from <= y < x ==> k(y) <= k'(y)
    requires forall y: nat :: x <= y < max ==> k(y) <= k(x)
    ensures Behind(k', from, max) >= Behind(k, from, max) + k(x) + 1
    decreases x - from
  {
    if from == x {
      WriteGains(k, k', x, max);
    } else {
      ShareGrows(k(from), k'(from), max - from + 1);
      WriteGainsBelow(k, k', from + 1, x, max);
    }
  }

  // ---------------------------------------------------------------- a window shorter than a lockout

  /** Written in a window that begins at `start`, by a recording that began in it. */
  predicate Recent(row: L.Row, c: L.Config, start: int) {
    var failures, until := row.state.failures, row.state.lockedUntil;
    && failures >= 1 && start <= row.updatedAt && (until.Some? <==> failures >= c.maxFailures)
    && (until.Some? ==> until.value >= start + c.lockoutMs)
  }

  /** What the row is sure to count for recordings of the window: older rows may turn out as spent. */
  function Count(row: Option<L.Row>, c: L.Config, start: int): nat {
    if row.Some? && Recent(row.value, c, start) then row.value.state.failures else 0
  }

  predicate IsRecording(p: Phase) {
    p.Started? || p.HasRead?
  }

  /** The recordings that began before the window. */
  function Old(s: State, start: int): set<nat> {
    set id | id in s.inFlight && IsRecording(s.inFlight[id]) && s.inFlight[id].now < start
  }

  ghost predicate Before(s: State, limit: int) {
    forall id :: id in s.inFlight && IsRecording(s.inFlight[id]) ==> s.inFlight[id].now < limit
  }

  lemma BeforeStep(s: State, e: Event, c: L.Config, limit: int)
    requires Before(s, limit) && e.at < limit
    ensures Before(Step(s, e, c), limit)
  {
  }

  predicate OldWrite(s: State, e: Event, start: int) {
    e.Write? && Can(s, e) && s.inFlight[e.id].now < start
  }

  predicate NewWrite(s: State, e: Event, c: L.Config, start: int) {
    start <= e.at && e.Write? && Can(s, e) && start <= s.inFlight[e.id].now < start + c.lockoutMs
  }

  lemma OldStep(s: State, e: Event, c: L.Config, start: int)
    requires start <= e.at
    ensures |Old(Step(s, e, c), start)| <= |Old(s, start)| - if OldWrite(s, e, start) then 1 else 0
  {
    var t := Step(s, e, c);
    if OldWrite(s, e, start) {
      assert Old(t, start) == Old(s, start) - {e.id};
    } else {
      Subset(Old(t, start), Old(s, start));
    }
  }

  /** The requests that have read a count of at least `x`. */
  function Fixed(s: State, c: L.Config, start: int, x: nat): set<nat> {
    set id | id in s.inFlight && s.inFlight[id].HasRead? && Count(s.inFlight[id].seen, c, start) >= x
  }

  /** k(x) of the measure. */
  function Pace(s: State, c: L.Config, w: nat, start: int, x: nat): nat {
    var read := |Fixed(s, c, start, 0)|;
    |Fixed(s, c, start, x)| + if Count(s.row, c, start) >= x && read <= w then w - read else 0
  }

  function PaceOf(s: State, c: L.Config, w: nat, start: int): nat -> nat {
    x => Pace(s, c, w, start, x)
  }

  function Progress(s: State, c: L.Config, w: nat, start: int): nat {
    Behind(PaceOf(s, c, w, start), 1, c.maxFailures)
  }

  /** While the row is locked, those of the w requests that are not let through any more. */
  function Idle(s: State, c: L.Config, w: nat, start: int): int {
    if Count(s.row, c, start) >= c.maxFailures then w - |Hot(s, start + c.lockoutMs)| else 0
  }

  function Measure(s: State, c: L.Config, w: nat, start: int): int {
    Progress(s, c, w, start) + Idle(s, c, w, start)
  }

  lemma FixedShrinks(s: State, c: L.Config, start: int, x: nat, y: nat)
    requires x <= y
    ensures |Fixed(s, c, start, y)| <= |Fixed(s, c, start, x)| <= |s.inFlight|
  {
    Subset(Fixed(s, c, start, y), Fixed(s, c, start, x));
    Subset(Fixed(s, c, start, x), s.inFlight.Keys);
  }

  /** A request that has read nothing yet goes on, or ends, without reading. */
  lemma SamePace(s: State, id: nat, t: State, c: L.Config, w: nat, start: int)
    requires t.row == s.row && t.inFlight - {id} == s.inFlight - {id}
    requires id in s.inFlight ==> !s.inFlight[id].HasRead?
    requires id in t.inFlight ==> !t.inFlight[id].HasRead?
    ensures Progress(s, c, w, start) <= Progress(t, c, w, start)
  {
    forall x: nat ensures Fixed(s, c, start, x) == Fixed(t, c, start, x) {
      forall j ensures j in Fixed(s, c, start, x) <==> j in Fixed(t, c, start, x) {
        assert j != id && j in s.inFlight ==> j in s.inFlight - {id};
        assert j != id && j in t.inFlight ==> j in t.inFlight - {id};
        assert j != id && j in s.inFlight ==> s.inFlight[j] == (s.inFlight - {id})[j] == t.inFlight[j];
      }
    }
    BehindGrows(PaceOf(s, c, w, start), PaceOf(t, c, w, start), 1, c.maxFailures);
  }

  lemma UnreadPace(s: State, e: Event, c: L.Config, w: nat, start: int)
    requires Can(s, e) && !e.Read? && !e.Write? && !e.LogIn?
    ensures Step(s, e, c).row == s.row
    ensures Progress(s, c, w, start) <= Progress(Step(s, e, c), c, w, start)
  {
    var t := Step(s, e, c);
    assert t.inFlight - {e.id} == s.inFlight - {e.id};
    SamePace(s, e.id, t, c, w, start);
  }

  /** No step before a write lets more requests through than may already go on. */
  lemma LookHot(s: State, e: Event, c: L.Config, start: int)
    requires e.Look? && Can(s, e) && Count(s.row, c, start) >= c.maxFailures >= 1
    ensures |Hot(Step(s, e, c), start + c.lockoutMs)| <= |Hot(s, start + c.lockoutMs)|
  {
    HotSame(s, e.id, Looked(s.row), start + c.lockoutMs);
  }

  lemma CheckHot(s: State, e: Event, c: L.Config, start: int)
    requires e.Check? && Can(s, e) && e.at < start + c.lockoutMs
    ensures |Hot(Step(s, e, c), start + c.lockoutMs)| <= |Hot(s, start + c.lockoutMs)|
  {
    if L.Locked(s.inFlight[e.id].seen, e.at) {
      HotFewer(s, e.id, start + c.lockoutMs);
    } else {
      HotSame(s, e.id, Passed, start + c.lockoutMs);
    }
  }

  lemma OtherHot(s: State, e: Event, c: L.Config, limit: int)
    requires Can(s, e) && (e.Leave? || e.Start? || e.Read?)
    ensures |Hot(Step(s, e, c), limit)| <= |Hot(s, limit)|
  {
    if e.Leave? {
      HotFewer(s, e.id, limit);
    } else {
      HotSame(s, e.id, Step(s, e, c).inFlight[e.id], limit);
    }
  }

  lemma UnwrittenIdle(s: State, e: Event, c: L.Config, w: nat, start: int)
    requires Can(s, e) && !e.Write? && !e.LogIn? && e.at < start + c.lockoutMs
    requires c.maxFailures >= 1
    ensures Idle(s, c, w, start) <= Idle(Step(s, e, c), c, w, start)
  {
    if e.Look? {
      if Count(s.row, c, start) >= c.maxFailures { LookHot(s, e, c, start); }
    } else if e.Check? {
      CheckHot(s, e, c, start);
    } else {
      OtherHot(s, e, c, start + c.lockoutMs);
    }
  }

  lemma FixedWith(s: State, e: Event, c: L.Config, start: int, x: nat)
    requires e.Read? && Can(s, e)
    ensures |Fixed(Step(s, e, c), c, start, x)| == |Fixed(s, c, start, x)|
        + if Count(s.row, c, start) >= x then 1 else 0
  {
    var t := Step(s, e, c);
    assert t.inFlight == s.inFlight[e.id := t.inFlight[e.id]] && t.inFlight[e.id].HasRead?;
    assert e.id !in Fixed(s, c, start, x);
    assert Fixed(t, c, start, x) == Fixed(s, c, start, x) + if Count(s.row, c, start) >= x then {e.id} else {};
  }

  lemma ReadFits(s: State, e: Event, c: L.Config, w: nat, start: int)
    requires e.Read? && Can(s, e) && |s.inFlight| <= w
    ensures |Fixed(Step(s, e, c), c, start, 0)| <= w
  {
    assert Step(s, e, c).inFlight.Keys == s.inFlight.Keys;
    FixedShrinks(Step(s, e, c), c, start, 0, 0);
  }

  lemma ReadPace(s: State, e: Event, c: L.Config, w: nat, start: int, x: nat)
    requires e.Read? && Can(s, e) && |s.inFlight| <= w
    ensures Pace(s, c, w, start, x) <= Pace(Step(s, e, c), c, w, start, x)
  {
    FixedWith(s, e, c, start, 0);
    FixedWith(s, e, c, start, x);
    ReadFits(s, e, c, w, start);
  }

  lemma ReadBehind(s: State, e: Event, c: L.Config, w: nat, start: int)
    requires e.Read? && Can(s, e) && |s.inFlight| <= w
    ensures Progress(s, c, w, start) <= Progress(Step(s, e, c), c, w, start)
  {
    forall x: nat ensures Pace(s, c, w, start, x) <= Pace(Step(s, e, c), c, w, start, x) {
      ReadPace(s, e, c, w, start, x);
    }
    BehindGrows(PaceOf(s, c, w, start), PaceOf(Step(s, e, c), c, w, start), 1, c.maxFailures);
  }

  /** The count a recording has read. */
  function SeenBy(s: State, c: L.Config, start: int, id: nat): nat {
    if id in s.inFlight && s.inFlight[id].HasRead? then Count(s.inFlight[id].seen, c, start) else 0
  }

  lemma WrittenRow(s: State, e: Event, c: L.Config, start: int)
    requires NewWrite(s, e, c, start)
    ensures Count(Step(s, e, c).row, c, start) >= SeenBy(s, c, start, e.id) + 1
    ensures Step(s, e, c).inFlight == s.inFlight - {e.id}
  {
  }

  lemma FixedWithout(s: State, t: State, c: L.Config, start: int, id: nat, x: nat)
    requires t.inFlight == s.inFlight - {id} && id in s.inFlight && s.inFlight[id].HasRead?
    ensures |Fixed(t, c, start, x)| == |Fixed(s, c, start, x)| - if x <= SeenBy(s, c, start, id) then 1 else 0
  {
    assert Fixed(t, c, start, x) == Fixed(s, c, start, x) - {id};
    assert id in Fixed(s, c, start, x) <==> x <= SeenBy(s, c, start, id);
  }

  /** A write takes its request from the count it has read to one more, and the free ones with it. */
  lemma WritePace(s: State, e: Event, c: L.Config, w: nat, start: int, x: nat)
    requires NewWrite(s, e, c, start) && |s.inFlight| <= w
    ensures var read, t := SeenBy(s, c, start, e.id), Step(s, e, c);
      && (x <= read ==> Pace(s, c, w, start, x) <= Pace(t, c, w, start, x))
      && (x == read + 1 ==> Pace(s, c, w, start, x) + 1 <= Pace(t, c, w, start, x))
  {
    var t := Step(s, e, c);
    WrittenRow(s, e, c, start);
    FixedWithout(s, t, c, start, e.id, 0);
    FixedWithout(s, t, c, start, e.id, x);
    FixedShrinks(s, c, start, 0, x);
  }

  lemma PaceShrinks(s: State, c: L.Config, w: nat, start: int, x: nat, y: nat)
    requires x <= y
    ensures Pace(s, c, w, start, y) <= Pace(s, c, w, start, x)
  {
    FixedShrinks(s, c, start, x, y);
  }

  /** A write that leaves the row unlocked. */
  lemma LowWrite(s: State, e: Event, c: L.Config, w: nat, start: int)
    requires NewWrite(s, e, c, start) && |s.inFlight| <= w
    requires SeenBy(s, c, start, e.id) + 1 < c.maxFailures
    ensures Progress(s, c, w, start) + Pace(s, c, w, start, SeenBy(s, c, start, e.id) + 1) + 1
         <= Progress(Step(s, e, c), c, w, start)
  {
    var x, t := SeenBy(s, c, start, e.id) + 1, Step(s, e, c);
    forall y: nat | y <= x
      ensures y < x ==> Pace(s, c, w, start, y) <= Pace(t, c, w, start, y)
      ensures y == x ==> Pace(s, c, w, start, y) + 1 <= Pace(t, c, w, start, y)
    {
      WritePace(s, e, c, w, start, y);
    }
    forall y: nat | x <= y ensures Pace(s, c, w, start, y) <= Pace(s, c, w, start, x) {
      PaceShrinks(s, c, w, start, x, y);
    }
    WriteGainsBelow(PaceOf(s, c, w, start), PaceOf(t, c, w, start), 1, x, c.maxFailures);
  }

  /** A write that locks the row or finds it locked. */
  lemma HighWrite(s: State, e: Event, c: L.Config, w: nat, start: int)
    requires NewWrite(s, e, c, start) && |s.inFlight| <= w
    requires SeenBy(s, c, start, e.id) + 1 >= c.maxFailures
    ensures Progress(s, c, w, start) <= Progress(Step(s, e, c), c, w, start)
  {
    forall y: nat | y < c.maxFailures ensures Pace(s, c, w, start, y) <= Pace(Step(s, e, c), c, w, start, y) {
      WritePace(s, e, c, w, start, y);
    }
    BehindGrows(PaceOf(s, c, w, start), PaceOf(Step(s, e, c), c, w, start), 1, c.maxFailures);
  }

  lemma HighWriteIdles(s: State, e: Event, c: L.Config, w: nat, start: int)
    requires NewWrite(s, e, c, start) && |s.inFlight| <= w
    requires SeenBy(s, c, start, e.id) + 1 >= c.maxFailures
    ensures Idle(s, c, w, start) + 1 <= Idle(Step(s, e, c), c, w, start)
  {
    WrittenRow(s, e, c, start);
    var limit := start + c.lockoutMs;
    HotFewer(s, e.id, limit);
    assert Hot(Step(s, e, c), limit) == Hot(Ended(s, e.id), limit);
  }

  lemma WriteEnds(s: State, e: Event, c: L.Config)
    requires e.Write? && Can(s, e)
    ensures |Step(s, e, c).inFlight| <= |s.inFlight|
  {
    Subset(Step(s, e, c).inFlight.Keys, s.inFlight.Keys);
  }

  lemma IdleIsNatural(s: State, c: L.Config, w: nat, start: int)
    requires |s.inFlight| <= w
    ensures Idle(s, c, w, start) >= 0
  {
    Subset(Hot(s, start + c.lockoutMs), s.inFlight.Keys);
  }

  lemma IdleAfterWrite(s: State, e: Event, c: L.Config, w: nat, start: int)
    requires e.Write? && Can(s, e) && |s.inFlight| <= w
    ensures Idle(Step(s, e, c), c, w, start) >= 0
  {
    WriteEnds(s, e, c);
    IdleIsNatural(Step(s, e, c), c, w, start);
  }

  lemma WriteMeasured(s: State, e: Event, c: L.Config, w: nat, start: int)
    requires NewWrite(s, e, c, start)
    requires |s.inFlight| <= w
    ensures Measure(s, c, w, start) + 1 <= Measure(Step(s, e, c), c, w, start)
  {
    var x := SeenBy(s, c, start, e.id) + 1;
    if x >= c.maxFailures {
      HighWrite(s, e, c, w, start);
      HighWriteIdles(s, e, c, w, start);
    } else {
      LowWrite(s, e, c, w, start);
      IdleAfterWrite(s, e, c, w, start);
      IdleIsFree(s, c, w, start, x);
    }
  }

  /** Those who are shut out have not read the row. */
  lemma IdleIsFree(s: State, c: L.Config, w: nat, start: int, x: nat)
    requires |s.inFlight| <= w && x <= c.maxFailures
    ensures Idle(s, c, w, start) <= Pace(s, c, w, start, x)
  {
    FixedShrinks(s, c, start, 0, 0);
    Subset(Fixed(s, c, start, 0), Hot(s, start + c.lockoutMs));
  }

  lemma PaceIsShared(s: State, c: L.Config, w: nat, start: int, x: nat)
    requires |s.inFlight| <= w
    ensures PaceOf(s, c, w, start)(x) <= w
  {
    FixedShrinks(s, c, start, 0, x);
  }

  lemma PaceBounded(s: State, c: L.Config, w: nat, start: int)
    requires |s.inFlight| <= w
    ensures Bounded(PaceOf(s, c, w, start), w)
  {
    var k := PaceOf(s, c, w, start);
    forall x: nat ensures k(x) <= w {
      PaceIsShared(s, c, w, start, x);
    }
  }

  lemma PaceAtMost(s: State, c: L.Config, w: nat, start: int)
    requires c.maxFailures >= 1 && |s.inFlight| <= w
    ensures Progress(s, c, w, start) + 1 + w <= Ways(w, c.maxFailures)
  {
    PaceBounded(s, c, w, start);
    BehindBounded(PaceOf(s, c, w, start), c.maxFailures, w);
  }

  lemma IdleAtMost(s: State, c: L.Config, w: nat, start: int)
    requires |s.inFlight| <= w
    ensures Idle(s, c, w, start) + |Recording(s)| <= w
  {
    Subset(Recording(s), Hot(s, start + c.lockoutMs));
    Subset(Hot(s, start + c.lockoutMs), s.inFlight.Keys);
  }

  /** Whatever is under way still fits below the bound. */
  lemma MeasureAtMost(s: State, c: L.Config, w: nat, start: int)
    requires c.maxFailures >= 1 && |s.inFlight| <= w
    ensures Measure(s, c, w, start) + |Recording(s)| <= Ways(w, c.maxFailures) - 1
  {
    PaceAtMost(s, c, w, start);
    IdleAtMost(s, c, w, start);
  }

  /** Only a recording from before the window can set the measure back. */
  lemma MeasureStep(s: State, e: Event, c: L.Config, w: nat, start: int)
    requires c.maxFailures >= 1 && |s.inFlight| <= w && Before(s, start + c.lockoutMs)
    requires start <= e.at < start + c.lockoutMs && !e.LogIn? && !OldWrite(s, e, start)
    ensures Measure(s, c, w, start) + (if e.Write? && Can(s, e) then 1 else 0) <= Measure(Step(s, e, c), c, w, start)
  {
    if Can(s, e) {
      if e.Write? {
        WriteMeasured(s, e, c, w, start);
      } else {
        UnwrittenIdle(s, e, c, w, start);
        if e.Read? { ReadBehind(s, e, c, w, start); } else { UnreadPace(s, e, c, w, start); }
      }
    }
  }

  /** The guesses of a window and of those after it, with at most `w` requests at once. */
  function Per(c: L.Config, w: nat): nat {
    (w + 1) * Ways(w, c.maxFailures) - 1
  }

  function Later(c: L.Config, w: nat, start: int, end: int): int
    requires c.lockoutMs >= 1
  {
    Per(c, w) * ((end - start) / c.lockoutMs)
  }

  lemma OneWindowLess(c: L.Config, w: nat, start: int, next: int, end: int)
    requires c.lockoutMs >= 1 && start + c.lockoutMs <= next
    ensures Later(c, w, next, end) + Per(c, w) <= Later(c, w, start, end)
  {
    var q := (end - next) / c.lockoutMs;
    L.NextQuotient(end - next, c.lockoutMs);
    DivMonotone(end - next + c.lockoutMs, end - start, c.lockoutMs);
    MulMonotone(q + 1, (end - start) / c.lockoutMs, Per(c, w));
  }

  lemma NoneLeft(c: L.Config, w: nat, start: int, end: int)
    requires c.lockoutMs >= 1 && start <= end
    ensures Later(c, w, start, end) >= 0
  {
    DivMonotone(0, end - start, c.lockoutMs);
    MulMonotone(0, (end - start) / c.lockoutMs, Per(c, w));
  }

  /** What the guesses of the present window and of those after it must not exceed. */
  function Budget(s: State, c: L.Config, w: nat, start: int, end: int): int
    requires c.lockoutMs >= 1
  {
    Ways(w, c.maxFailures) - 1 + |Old(s, start)| * Ways(w, c.maxFailures) + Later(c, w, start, end)
  }

  /** The guesses of a run, and those behind it or under way in its window. */
  function Spent(s: State, es: seq<Event>, c: L.Config, w: nat, start: int): int {
    Measure(s, c, w, start) + |Recording(s)| + Guesses(s, es, c)
  }

  lemma BudgetSuffices(s: State, c: L.Config, w: nat, start: int, end: int)
    requires c.maxFailures >= 1 && c.lockoutMs >= 1 && |s.inFlight| <= w && start <= end
    ensures Spent(s, [], c, w, start) <= Budget(s, c, w, start, end)
  {
    MeasureAtMost(s, c, w, start);
    NoneLeft(c, w, start, end);
    MulMonotone(0, |Old(s, start)|, Ways(w, c.maxFailures));
  }

  lemma BudgetStep(s: State, es: seq<Event>, c: L.Config, w: nat, start: int, end: int)
    requires c.maxFailures >= 1 && c.lockoutMs >= 1 && Before(s, start + c.lockoutMs)
    requires es != [] && start <= es[0].at < start + c.lockoutMs && !es[0].LogIn? && !OldWrite(s, es[0], start)
    requires |s.inFlight| <= w
    requires Spent(Step(s, es[0], c), es[1..], c, w, start) <= Budget(Step(s, es[0], c), c, w, start, end)
    ensures Spent(s, es, c, w, start) <= Budget(s, c, w, start, end)
  {
    OldStep(s, es[0], c, start);
    RecordingStep(s, es[0], c);
    MeasureStep(s, es[0], c, w, start);
    MulMonotone(|Old(Step(s, es[0], c), start)|, |Old(s, start)|, Ways(w, c.maxFailures));
  }

  lemma SetBack(left: nat, before: nat, ways: nat)
    requires left + 1 <= before
    ensures left * ways + ways <= before * ways
  {
    MulMonotone(left + 1, before, ways);
  }

  lemma BudgetOldWrite(s: State, es: seq<Event>, c: L.Config, w: nat, start: int, end: int)
    requires c.maxFailures >= 1 && c.lockoutMs >= 1 && |s.inFlight| <= w
    requires es != [] && start <= es[0].at && OldWrite(s, es[0], start)
    requires Spent(Step(s, es[0], c), es[1..], c, w, start) <= Budget(Step(s, es[0], c), c, w, start, end)
    ensures Spent(s, es, c, w, start) <= Budget(s, c, w, start, end)
  {
    var t := Step(s, es[0], c);
    OldStep(s, es[0], c, start);
    RecordingStep(s, es[0], c);
    MeasureAtMost(s, c, w, start);
    IdleAfterWrite(s, es[0], c, w, start);
    SetBack(|Old(t, start)|, |Old(s, start)|, Ways(w, c.maxFailures));
  }

  lemma BudgetOfNext(s: State, es: seq<Event>, c: L.Config, w: nat, start: int, next: int, end: int)
    requires c.maxFailures >= 1 && c.lockoutMs >= 1 && |s.inFlight| <= w && start + c.lockoutMs <= next
    requires Spent(s, es, c, w, next) <= Budget(s, c, w, next, end)
    ensures Spent(s, es, c, w, start) <= Budget(s, c, w, start, end)
  {
    var ways := Ways(w, c.maxFailures);
    IdleIsNatural(s, c, w, next);
    MeasureAtMost(s, c, w, start);
    Subset(Old(s, next), s.inFlight.Keys);
    MulMonotone(|Old(s, next)|, w, ways);
    MulMonotone(0, |Old(s, start)|, ways);
    OneWindowLess(c, w, start, next, end);
  }

  /** `start` is the beginning of the window that `now` falls in. */
  lemma {:induction false} GuessesBelow(s: State, es: seq<Event>, c: L.Config, w: nat, start: int, now: int, end: int)
    requires c.maxFailures >= 1 && c.lockoutMs >= 1 && start <= now && Before(s, start + c.lockoutMs)
    requires AtMost(s, es, c, w) && Ordered(es, now, end) && NoLogIn(es)
    ensures Spent(s, es, c, w, start) <= Budget(s, c, w, start, end)
    decreases |es|, 1
  {
    if es == [] {
      BudgetSuffices(s, c, w, start, end);
    } else if es[0].at >= start + c.lockoutMs {
      var next := es[0].at;
      assert Ordered(es, next, end);
      GuessesInWindow(s, es, c, w, next, next, end);
      BudgetOfNext(s, es, c, w, start, next, end);
    } else {
      GuessesInWindow(s, es, c, w, start, now, end);
    }
  }

  lemma {:induction false} GuessesInWindow(s: State, es: seq<Event>, c: L.Config, w: nat,
      start: int, now: int, end: int)
    requires c.maxFailures >= 1 && c.lockoutMs >= 1 && start <= now && Before(s, start + c.lockoutMs)
    requires AtMost(s, es, c, w) && Ordered(es, now, end) && NoLogIn(es)
    requires es != [] && es[0].at < start + c.lockoutMs
    ensures Spent(s, es, c, w, start) <= Budget(s, c, w, start, end)
    decreases |es|, 0
  {
    assert !es[0].LogIn? && NoLogIn(es[1..]);
    BeforeStep(s, es[0], c, start + c.lockoutMs);
    GuessesBelow(Step(s, es[0], c), es[1..], c, w, start, es[0].at, end);
    if OldWrite(s, es[0], start) {
      BudgetOldWrite(s, es, c, w, start, end);
    } else {
      BudgetStep(s, es, c, w, start, end);
    }
  }

  /**
   * However the steps of the requests interleave, stale recordings and overwritten locks included:
   * with at most `w` requests at once, fewer than (maxFailures + w choose w) guesses are evaluated
   * within less than a lockout time.
   */
  lemma StaleBound(es: seq<Event>, c: L.Config, w: nat, start: int, end: int)
    requires c.maxFailures >= 1 && end - start < c.lockoutMs
    requires AtMost(START, es, c, w) && Ordered(es, start, end) && NoLogIn(es)
    ensures Guesses(START, es, c) <= Ways(w, c.maxFailures) - 1
  {
    StaleBoundOverTime(es, c, w, start, end);
    assert (end - start) / c.lockoutMs == 0;
  }

  /** Within any time T: (w + 1) * (maxFailures + w choose w) - 1 more for each further lockout. */
  lemma StaleBoundOverTime(es: seq<Event>, c: L.Config, w: nat, start: int, end: int)
    requires c.maxFailures >= 1 && c.lockoutMs >= 1
    requires AtMost(START, es, c, w) && Ordered(es, start, end) && NoLogIn(es)
    ensures Guesses(START, es, c)
         <= Ways(w, c.maxFailures) - 1 + ((w + 1) * Ways(w, c.maxFailures) - 1) * ((end - start) / c.lockoutMs)
  {
    var s := OverlappingLogins.START;
    assert Recording(s) == {} && Old(s, start) == {};
    IdleIsNatural(s, c, w, start);
    GuessesBelow(s, es, c, w, start, start, end);
  }

  // ---------------------------------------------------------------- the bound is met

  /** A request up to the moment it has read the row. */
  function Reach(id: nat, at: int): seq<Event> {
    Enter(id, at) + ([Start(id, at)] + [Read(id, at)])
  }

  /** The first `m` requests all read the row. */
  function Gather(m: nat, at: int): seq<Event> {
    if m == 0 then [] else Gather(m - 1, at) + Reach(m - 1, at)
  }

  /**
   * The best `m` requests can do with `n` failures left until the lock: all read the row, and then
   * they write one by one; before each further write, those that have written do the same again
   * with one failure less left. The next write takes the count back to where it was.
   */
  function Storm(m: nat, n: nat, at: int): seq<Event>
    decreases n, 1, m
  {
    if n == 0 then [] else Gather(m, at) + Waves(m, n, at)
  }

  function Waves(m: nat, n: nat, at: int): seq<Event>
    requires n >= 1
    decreases n, 0, m
  {
    if m == 0 then [] else Waves(m - 1, n, at) + ([Write(m - 1, at)] + Storm(m, n - 1, at))
  }

  /** All requests have numbers below `w`. */
  predicate Numbered(s: State, w: nat) {
    forall id :: id in s.inFlight ==> id < w
  }

  lemma {:induction false} BelowSize(ids: set<nat>, w: nat)
    requires forall id :: id in ids ==> id < w
    ensures |ids| <= w
    decreases w
  {
    if w > 0 {
      BelowSize(ids - {w - 1}, w - 1);
      if w - 1 in ids { assert ids == (ids - {w - 1}) + {w - 1}; } else { assert ids == ids - {w - 1}; }
    } else {
      assert ids == {};
    }
  }

  lemma NumberedSize(s: State, w: nat)
    requires Numbered(s, w)
    ensures |s.inFlight| <= w
  {
    BelowSize(s.inFlight.Keys, w);
  }

  /** The recording's first two moments. */
  lemma ReadLeads(s: State, id: nat, at: int, c: L.Config, w: nat)
    requires id in s.inFlight && s.inFlight[id].Passed? && |s.inFlight| <= w
    ensures Leads(s, [Start(id, at)] + [Read(id, at)], Moved(s, id, HasRead(at, s.version, s.row)), 1, c, w)
  {
    var s1, t := Moved(s, id, Started(at, s.version)), Moved(s, id, HasRead(at, s.version, s.row));
    assert s1.inFlight.Keys == s.inFlight.Keys == t.inFlight.Keys;
    assert s1.inFlight[id := HasRead(at, s.version, s.row)] == t.inFlight;
    LeadsOne(s, Start(id, at), c, w);
    LeadsOne(s1, Read(id, at), c, w);
    LeadsOn(s, [Start(id, at)], s1, 1, [Read(id, at)], t, 0, c, w);
  }

  lemma ReachLeads(s: State, id: nat, at: int, c: L.Config, w: nat)
    requires id !in s.inFlight && |s.inFlight| < w && !L.Locked(s.row, at)
    ensures Leads(s, Reach(id, at), Moved(s, id, HasRead(at, s.version, s.row)), 1, c, w)
  {
    var s0, t := Moved(s, id, Passed), Moved(s, id, HasRead(at, s.version, s.row));
    assert s0.inFlight.Keys == s.inFlight.Keys + {id};
    EnterLeads(s, id, at, c, w);
    ReadLeads(s0, id, at, c, w);
    assert s0.inFlight[id := HasRead(at, s.version, s.row)] == t.inFlight;
    LeadsOn(s, Enter(id, at), s0, 0, [Start(id, at)] + [Read(id, at)], t, 1, c, w);
  }

  /** The state after the first `m` requests have read the row of `s`. */
  function Gathered(s: State, m: nat, at: int): State {
    if m == 0 then s else Moved(Gathered(s, m - 1, at), m - 1, HasRead(at, s.version, s.row))
  }

  lemma {:induction false} GatheredIs(s: State, m: nat, at: int)
    ensures Gathered(s, m, at).row == s.row && Gathered(s, m, at).version == s.version
    ensures forall id :: id in Gathered(s, m, at).inFlight <==> id in s.inFlight || 0 <= id < m
    ensures forall id :: id in Gathered(s, m, at).inFlight ==>
      Gathered(s, m, at).inFlight[id] == if id < m then HasRead(at, s.version, s.row) else s.inFlight[id]
    decreases m
  {
    if m > 0 { GatheredIs(s, m - 1, at); }
  }

  lemma RoomLeft(s: State, id: nat, w: nat)
    requires Numbered(s, w) && id !in s.inFlight && id < w
    ensures |s.inFlight| < w
  {
    BelowSize(s.inFlight.Keys + {id}, w);
  }

  lemma GatherOne(s: State, m: nat, at: int, c: L.Config, w: nat)
    requires m < w && Numbered(s, w) && !L.Locked(s.row, at) && forall id :: id in s.inFlight ==> id > m
    ensures Leads(Gathered(s, m, at), Reach(m, at), Gathered(s, m + 1, at), 1, c, w)
  {
    GatheredIs(s, m, at);
    RoomLeft(Gathered(s, m, at), m, w);
    ReachLeads(Gathered(s, m, at), m, at, c, w);
  }

  lemma {:induction false} GatherLeads(s: State, m: nat, at: int, c: L.Config, w: nat)
    requires m <= w && Numbered(s, w) && !L.Locked(s.row, at)
    requires forall id :: id in s.inFlight ==> id >= m
    ensures Leads(s, Gather(m, at), Gathered(s, m, at), m, c, w)
    decreases m
  {
    NumberedSize(s, w);
    if m > 0 {
      GatherLeads(s, m - 1, at, c, w);
      GatherOne(s, m - 1, at, c, w);
      LeadsOn(s, Gather(m - 1, at), Gathered(s, m - 1, at), m - 1, Reach(m - 1, at), Gathered(s, m, at), 1, c, w);
    }
  }

  /** Afterwards the first `m` requests have ended, and the others are where they were. */
  ghost predicate Cleared(s: State, t: State, m: nat) {
    && (forall id :: id in t.inFlight <==> id in s.inFlight && id >= m)
    && (forall id :: id in t.inFlight ==> t.inFlight[id] == s.inFlight[id])
  }

  /** The row when the lock has just been set. */
  function AtLimit(at: int, c: L.Config): Option<L.Row> {
    Some(L.Row(L.FailureState(c.maxFailures, Some(at + c.lockoutMs)), at))
  }

  lemma {:induction false} StormLeads(s: State, m: nat, n: nat, at: int, c: L.Config, w: nat)
    requires c.lockoutMs >= 1 && m <= w && Numbered(s, w) && n <= c.maxFailures
    requires n > 0 ==> s.row == Counted(at, c.maxFailures - n)
    requires forall id :: id in s.inFlight ==> id >= m
    ensures var t := Run(s, Storm(m, n, at), c);
      Leads(s, Storm(m, n, at), t, Ways(m, n) - 1, c, w) && Cleared(s, t, m)
          && (m > 0 && n > 0 ==> t.row == AtLimit(at, c))
    decreases n, 1, m
  {
    NumberedSize(s, w);
    if n > 0 {
      var g := Gathered(s, m, at);
      GatherLeads(s, m, at, c, w);
      GatheredIs(s, m, at);
      WavesLead(g, m, n, at, c, w);
      var t := Run(g, Waves(m, n, at), c);
      LeadsOn(s, Gather(m, at), g, m, Waves(m, n, at), t, Ways(m, n) - 1 - m, c, w);
    }
  }

  /** The first `m` requests have read a row with `n` failures left until the lock. */
  ghost predicate HaveRead(s: State, m: nat, n: nat, at: int, c: L.Config)
    requires 1 <= n <= c.maxFailures
  {
    forall id :: 0 <= id < m ==> id in s.inFlight && s.inFlight[id].HasRead? && s.inFlight[id].now == at
                                 && s.inFlight[id].seen == Counted(at, c.maxFailures - n)
  }

  lemma {:induction false} WavesLead(s: State, m: nat, n: nat, at: int, c: L.Config, w: nat)
    requires c.lockoutMs >= 1 && m <= w && Numbered(s, w) && 1 <= n <= c.maxFailures && HaveRead(s, m, n, at, c)
    ensures Ways(m, n) - 1 - m >= 0
    ensures var t := Run(s, Waves(m, n, at), c);
      Leads(s, Waves(m, n, at), t, Ways(m, n) - 1 - m, c, w) && Cleared(s, t, m)
          && (m > 0 ==> t.row == AtLimit(at, c))
    decreases n, 0, m
  {
    NumberedSize(s, w);
    if m > 0 {
      WavesLead(s, m - 1, n, at, c, w);
      var t := Run(s, Waves(m - 1, n, at), c);
      OneWave(s, t, m, n, at, c, w);
      NextWave(s, t, m, n, at, c, w);
    }
  }

  lemma NextWave(s: State, t: State, m: nat, n: nat, at: int, c: L.Config, w: nat)
    requires m >= 1 && n >= 1 && Ways(m - 1, n) - m >= 0
    requires Leads(s, Waves(m - 1, n, at), t, Ways(m - 1, n) - m, c, w)
    requires var es := [Write(m - 1, at)] + Storm(m, n - 1, at); Leads(t, es, Run(t, es, c), Ways(m, n - 1) - 1, c, w)
    ensures Ways(m, n) - 1 - m >= 0
    ensures Leads(s, Waves(m, n, at), Run(s, Waves(m, n, at), c), Ways(m, n) - 1 - m, c, w)
    ensures Run(s, Waves(m, n, at), c) == Run(t, [Write(m - 1, at)] + Storm(m, n - 1, at), c)
  {
    var es := [Write(m - 1, at)] + Storm(m, n - 1, at);
    LeadsOn(s, Waves(m - 1, n, at), t, Ways(m - 1, n) - m, es, Run(t, es, c), Ways(m, n - 1) - 1, c, w);
  }

  lemma {:induction false} OneWave(s: State, t: State, m: nat, n: nat, at: int, c: L.Config, w: nat)
    requires c.lockoutMs >= 1 && 0 < m <= w && Numbered(s, w) && 1 <= n <= c.maxFailures && HaveRead(s, m, n, at, c)
    requires Cleared(s, t, m - 1)
    ensures var es := [Write(m - 1, at)] + Storm(m, n - 1, at); var v := Run(t, es, c);
      Leads(t, es, v, Ways(m, n - 1) - 1, c, w) && Cleared(s, v, m) && v.row == AtLimit(at, c)
    decreases n - 1, 2, m
  {
    var u := Step(t, Write(m - 1, at), c);
    OneWrite(t, m, n, at, c, w);
    StormLeads(u, m, n - 1, at, c, w);
    var v := Run(u, Storm(m, n - 1, at), c);
    ClearedOn(s, t, u, v, m);
    LeadsOn(t, [Write(m - 1, at)], u, 0, Storm(m, n - 1, at), v, Ways(m, n - 1) - 1, c, w);
  }

  lemma ClearedOn(s: State, t: State, u: State, v: State, m: nat)
    requires m >= 1 && Cleared(s, t, m - 1) && u.inFlight == t.inFlight - {m - 1} && Cleared(u, v, m)
    ensures Cleared(s, v, m)
  {
  }

  lemma OneWrite(t: State, m: nat, n: nat, at: int, c: L.Config, w: nat)
    requires c.lockoutMs >= 1 && 0 < m <= w && Numbered(t, w) && 1 <= n <= c.maxFailures
    requires m - 1 in t.inFlight && t.inFlight[m - 1].HasRead? && t.inFlight[m - 1].now == at
    requires t.inFlight[m - 1].seen == Counted(at, c.maxFailures - n)
    ensures var u := Step(t, Write(m - 1, at), c);
      && Leads(t, [Write(m - 1, at)], u, 0, c, w) && u.inFlight == t.inFlight - {m - 1}
      && u.row == if n > 1 then Counted(at, c.maxFailures - (n - 1)) else AtLimit(at, c)
  {
    var u := Step(t, Write(m - 1, at), c);
    NumberedSize(t, w);
    NumberedSize(u, w);
    LeadsOne(t, Write(m - 1, at), c, w);
  }

  /** The bound is met at a single instant, for every number of requests and every limit. */
  lemma StaleBoundIsReached(at: int, c: L.Config, w: nat)
    requires c.maxFailures >= 1 && c.lockoutMs >= 1
    ensures AtMost(START, Storm(w, c.maxFailures, at), c, w) && AtOnce(Storm(w, c.maxFailures, at), at)
    ensures Guesses(START, Storm(w, c.maxFailures, at), c) == Ways(w, c.maxFailures) - 1
  {
    StormLeads(OverlappingLogins.START, w, c.maxFailures, at, c, w);
    StormAtOnce(w, c.maxFailures, at);
  }

  lemma {:induction false} GatherAtOnce(m: nat, at: int)
    ensures AtOnce(Gather(m, at), at)
    decreases m
  {
    if m > 0 {
      GatherAtOnce(m - 1, at);
      EnterAtOnce(m - 1, at);
      AtOnceAdd(Enter(m - 1, at), [Start(m - 1, at)] + [Read(m - 1, at)], at);
      AtOnceAdd(Gather(m - 1, at), Reach(m - 1, at), at);
    }
  }

  lemma {:induction false} StormAtOnce(m: nat, n: nat, at: int)
    ensures AtOnce(Storm(m, n, at), at)
    decreases n, 1, m
  {
    if n > 0 {
      GatherAtOnce(m, at);
      WavesAtOnce(m, n, at);
      AtOnceAdd(Gather(m, at), Waves(m, n, at), at);
    }
  }

  lemma {:induction false} WavesAtOnce(m: nat, n: nat, at: int)
    requires n >= 1
    ensures AtOnce(Waves(m, n, at), at)
    decreases n, 0, m
  {
    if m > 0 {
      WavesAtOnce(m - 1, n, at);
      StormAtOnce(m, n - 1, at);
      AtOnceAdd([Write(m - 1, at)], Storm(m, n - 1, at), at);
      AtOnceAdd(Waves(m - 1, n, at), [Write(m - 1, at)] + Storm(m, n - 1, at), at);
    }
  }

  lemma {:induction false} WaysExceed(m: nat, n: nat)
    requires m >= 2 && n >= 2
    ensures Ways(m, n) > m + n
    decreases n
  {
    if n == 2 {
      OneColumn(m);
      OneColumn(2);
      WaysGrow(1, m - 1, 2);
    } else {
      WaysExceed(m, n - 1);
    }
  }

  /** Stale recordings exceed the bound of undisturbed ones exactly if requests overlap and one failure is no lock. */
  lemma StaleExceedsTheBound(at: int, c: L.Config, w: nat)
    requires c.maxFailures >= 1 && c.lockoutMs >= 1 && w >= 1
    ensures Guesses(START, Storm(w, c.maxFailures, at), c) > c.maxFailures + w - 1 <==> w >= 2 && c.maxFailures >= 2
  {
    StaleBoundIsReached(at, c, w);
    if w >= 2 && c.maxFailures >= 2 {
      WaysExceed(w, c.maxFailures);
    } else {
      OneColumn(w);
      OneColumn(c.maxFailures);
    }
  }

  lemma {:induction false} WaysOfTwo(n: nat)
    ensures 2 * (Ways(2, n) - 1) == n * (n + 3)
    decreases n
  {
    if n > 0 {
      WaysOfTwo(n - 1);
      OneColumn(n);
    }
  }

  /** Two requests at a time: 20 guesses within less than a lockout with the default limit of 5, and never more. */
  lemma TwoAtOnce(es: seq<Event>, c: L.Config, start: int, end: int)
    requires c.maxFailures >= 1 && c.lockoutMs >= 1 && end - start < c.lockoutMs
    requires AtMost(START, es, c, 2) && Ordered(es, start, end) && NoLogIn(es)
    ensures Guesses(START, es, c) <= c.maxFailures * (c.maxFailures + 3) / 2
    ensures AtMost(START, Storm(2, c.maxFailures, start), c, 2)
    ensures Guesses(START, Storm(2, c.maxFailures, start), c) == c.maxFailures * (c.maxFailures + 3) / 2
  {
    StaleBound(es, c, 2, start, end);
    StaleBoundIsReached(start, c, 2);
    WaysOfTwo(c.maxFailures);
  }

  /** A recording that read no row writes a first failure, whatever the row is by then. */
  lemma LastWrite(t: State, at: int, c: L.Config)
    requires c.maxFailures >= 2 && Numbered(t, 2)
    requires 1 in t.inFlight && t.inFlight[1].HasRead? && t.inFlight[1].now == at && t.inFlight[1].seen.None?
    ensures Leads(t, [Write(1, at)], Step(t, Write(1, at), c), 0, c, 2)
    ensures Step(t, Write(1, at), c).row == Counted(at, 1)
  {
    var u := Step(t, Write(1, at), c);
    NumberedSize(t, 2);
    NumberedSize(u, 2);
    LeadsOne(t, Write(1, at), c, 2);
  }

  /** A recording that has read no row yet overwrites a lock that is running. */
  lemma StaleWriteClearsTheLock(at: int, c: L.Config)
    requires c.maxFailures >= 2 && c.lockoutMs >= 1
    ensures var es := Gather(2, at) + Waves(1, c.maxFailures, at);
      && AtMost(START, es + [Write(1, at)], c, 2)
      && L.Locked(Run(START, es, c).row, at) && Run(START, es + [Write(1, at)], c).row == Counted(at, 1)
  {
    var s, max := OverlappingLogins.START, c.maxFailures;
    var g := Gathered(s, 2, at);
    GatherLeads(s, 2, at, c, 2);
    GatheredIs(s, 2, at);
    WavesLead(g, 1, max, at, c, 2);
    var t := Run(g, Waves(1, max, at), c);
    LeadsOn(s, Gather(2, at), g, 2, Waves(1, max, at), t, Ways(1, max) - 2, c, 2);
    LastWrite(t, at, c);
    LeadsOn(s, Gather(2, at) + Waves(1, max, at), t, 2 + (Ways(1, max) - 2), [Write(1, at)],
        Step(t, Write(1, at), c), 0, c, 2);
  }
}
