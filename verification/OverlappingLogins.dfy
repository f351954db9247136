/**
 * Login requests that overlap (auth.service.ts, mfa.service.ts, login-protection.service.ts). A
 * request reads the account's row, then compares the lock with the clock, verifies its secret, and
 * records a wrong one in three more moments: recordFailure takes the time, reads the row, and writes
 * it. Requests of any number of processes interleave between any two of these moments.
 */
module OverlappingLogins {
  import opened Base
  import L = LoginProtection

  /** A request is let through or refused at its Check; one let through is recorded, leaves or logs in. */
  datatype Event =
    | Look(id: nat, at: int)
    | Check(id: nat, at: int)
    | Leave(id: nat, at: int)
    | LogIn(id: nat, at: int)
    | Start(id: nat, at: int)
    | Read(id: nat, at: int)
    | Write(id: nat, at: int)

  /** `version` is that of the row when the recording began. */
  datatype Phase =
    | Looked(seen: Option<L.Row>)
    | Passed
    | Started(now: int, version: nat)
    | HasRead(now: int, version: nat, seen: Option<L.Row>)

  /** `version` counts the writes of the row. */
  datatype State = State(row: Option<L.Row>, version: nat, inFlight: map<nat, Phase>)

  const START := State(None, 0, map[])

  predicate Can(s: State, e: Event) {
    if e.Look? then e.id !in s.inFlight
    else e.id in s.inFlight && match e
      case Check(id, _) => s.inFlight[id].Looked?
      case Read(id, _) => s.inFlight[id].Started?
      case Write(id, _) => s.inFlight[id].HasRead?
      case _ => s.inFlight[e.id].Passed?
  }

  function Moved(s: State, id: nat, to: Phase): State {
    s.(inFlight := s.inFlight[id := to])
  }

  function Ended(s: State, id: nat): State {
    s.(inFlight := s.inFlight - {id})
  }

  function Written(s: State, row: Option<L.Row>): State {
    s.(row := row, version := s.version + 1)
  }

  function Step(s: State, e: Event, c: L.Config): State {
    if !Can(s, e) then s
    else match e
      case Look(id, _) => Moved(s, id, Looked(s.row))
      case Check(id, at) => if L.Locked(s.inFlight[id].seen, at) then Ended(s, id) else Moved(s, id, Passed)
      case Leave(id, _) => Ended(s, id)
      case LogIn(id, _) => Written(Ended(s, id), None)
      case Start(id, at) => Moved(s, id, Started(at, s.version))
      case Read(id, _) => Moved(s, id, HasRead(s.inFlight[id].now, s.inFlight[id].version, s.row))
      case Write(id, at) =>
        var p := s.inFlight[id];
        Written(Ended(s, id), Some(L.Row(L.NextFailureState(p.seen, p.now, c), at)))
  }

  function Run(s: State, es: seq<Event>, c: L.Config): State
    decreases |es|
  {
    if es == [] then s else Run(Step(s, es[0], c), es[1..], c)
  }

  predicate IsGuess(s: State, e: Event) {
    e.Start? && Can(s, e)
  }

  /** The guesses that were evaluated and found wrong, whether their recording has ended or not. */
  function Guesses(s: State, es: seq<Event>, c: L.Config): nat
    decreases |es|
  {
    if es == [] then 0 else (if IsGuess(s, es[0]) then 1 else 0) + Guesses(Step(s, es[0], c), es[1..], c)
  }

  /** Never more than `w` requests are between their look at the row and their end. */
  predicate AtMost(s: State, es: seq<Event>, c: L.Config, w: nat)
    decreases |es|
  {
    |s.inFlight| <= w && (es != [] ==> AtMost(Step(s, es[0], c), es[1..], c, w))
  }

  predicate Ordered(es: seq<Event>, from: int, end: int)
    decreases |es|
  {
    from <= end && (es != [] ==> from <= es[0].at && Ordered(es[1..], es[0].at, end))
  }

  predicate NoLogIn(es: seq<Event>) {
    forall i :: 0 <= i < |es| ==> !es[i].LogIn?
  }

  /** The row has been written since this recording began. */
  predicate Stale(s: State, e: Event) {
    e.Write? && Can(s, e) && s.inFlight[e.id].version != s.version
  }

  /** No recording writes over a row that was written since it began. */
  predicate Undisturbed(s: State, es: seq<Event>, c: L.Config)
    decreases |es|
  {
    es != [] ==> !Stale(s, es[0]) && Undisturbed(Step(s, es[0], c), es[1..], c)
  }

  // ---------------------------------------------------------------- the bound

  /** The most failures that belong together: those up to the lock, and the others in flight when it was set. */
  function Cap(c: L.Config, w: nat): int {
    c.maxFailures + w - 1
  }

  /** The recordings whose time is less than a lockout after that of the first of them. */
  datatype Group = Group(since: int, count: nat, spent: nat)

  function LimitOf(g: Group, c: L.Config): int {
    g.since + c.lockoutMs
  }

  function NextGroup(g: Group, now: int, c: L.Config): Group {
    if now < LimitOf(g, c) then g.(count := g.count + 1) else Group(now, 1, g.spent + g.count)
  }

  /** The request has seen a lock that lasts until `limit`: it cannot be let through before. */
  predicate Held(p: Phase, limit: int) {
    p.Looked? && p.seen.Some? && p.seen.value.state.lockedUntil.Some? && p.seen.value.state.lockedUntil.value >= limit
  }

  function Hot(s: State, limit: int): set<nat> {
    set id | id in s.inFlight && !Held(s.inFlight[id], limit)
  }

  /** The guesses that are being recorded. */
  function Recording(s: State): set<nat> {
    set id | id in s.inFlight && (s.inFlight[id].Started? || s.inFlight[id].HasRead?)
  }

  predicate RowFits(row: L.Row, c: L.Config, g: Group) {
    var failures, until := row.state.failures, row.state.lockedUntil;
    && 1 <= g.count <= failures && (until.Some? <==> failures >= c.maxFailures)
    && (until.Some? ==> until.value >= LimitOf(g, c)) && g.since <= row.updatedAt
  }

  predicate PhaseFits(p: Phase, row: L.Row, version: nat, c: L.Config, w: nat, g: Group) {
    p.Started? || p.HasRead? ==>
      && p.version <= version
      && (p.version == version ==>
            && row.updatedAt <= p.now && (p.HasRead? ==> p.seen == Some(row))
            && (p.now < LimitOf(g, c) && g.count >= c.maxFailures ==> g.count < Cap(c, w)))
  }

  ghost predicate Counting(s: State, c: L.Config, w: nat, g: Group, now: int) {
    && s.row.Some? && RowFits(s.row.value, c, g) && s.row.value.updatedAt <= now && g.count <= Cap(c, w)
    && (g.count >= c.maxFailures && now < LimitOf(g, c) ==> g.count + |Hot(s, LimitOf(g, c))| <= Cap(c, w))
    && forall id :: id in s.inFlight ==> PhaseFits(s.inFlight[id], s.row.value, s.version, c, w, g)
  }

  lemma HotFewer(s: State, id: nat, limit: int)
    requires id in s.inFlight
    ensures |Hot(Ended(s, id), limit)| <= |Hot(s, limit)|
    ensures !Held(s.inFlight[id], limit) ==> |Hot(Ended(s, id), limit)| == |Hot(s, limit)| - 1
    ensures |Hot(s, limit)| <= |s.inFlight| && |Ended(s, id).inFlight| == |s.inFlight| - 1
  {
    assert Hot(Ended(s, id), limit) == Hot(s, limit) - {id};
    assert (s.inFlight - {id}).Keys == s.inFlight.Keys - {id};
    Subset(Hot(s, limit), s.inFlight.Keys);
  }

  lemma Subset<T>(a: set<T>, b: set<T>)
    requires a <= b
    ensures |a| <= |b|
  {
    assert b == a + (b - a);
  }

  lemma HotSame(s: State, id: nat, to: Phase, limit: int)
    requires id in s.inFlight || Held(to, limit)
    requires Held(to, limit) || !Held(s.inFlight[id], limit)
    ensures |Hot(Moved(s, id, to), limit)| <= |Hot(s, limit)|
  {
    Subset(Hot(Moved(s, id, to), limit), Hot(s, limit));
  }

  /** A new look at the row finds the lock while it runs. */
  lemma LookStep(s: State, c: L.Config, w: nat, g: Group, now: int, e: Event)
    requires Counting(s, c, w, g, now) && now <= e.at && e.Look? && Can(s, e)
    ensures Counting(Step(s, e, c), c, w, g, e.at)
  {
    if g.count >= c.maxFailures { HotSame(s, e.id, Looked(s.row), LimitOf(g, c)); }
  }

  lemma CheckStep(s: State, c: L.Config, w: nat, g: Group, now: int, e: Event)
    requires Counting(s, c, w, g, now) && now <= e.at && e.Check? && Can(s, e)
    ensures Counting(Step(s, e, c), c, w, g, e.at)
  {
    HotFewer(s, e.id, LimitOf(g, c));
    if e.at < LimitOf(g, c) && !L.Locked(s.inFlight[e.id].seen, e.at) {
      HotSame(s, e.id, Passed, LimitOf(g, c));
    }
  }

  lemma LeaveStep(s: State, c: L.Config, w: nat, g: Group, now: int, e: Event)
    requires Counting(s, c, w, g, now) && now <= e.at && e.Leave? && Can(s, e)
    ensures Counting(Step(s, e, c), c, w, g, e.at)
  {
    HotFewer(s, e.id, LimitOf(g, c));
  }

  lemma StartStep(s: State, c: L.Config, w: nat, g: Group, now: int, e: Event)
    requires Counting(s, c, w, g, now) && now <= e.at && e.Start? && Can(s, e)
    ensures Counting(Step(s, e, c), c, w, g, e.at)
  {
    HotSame(s, e.id, Started(e.at, s.version), LimitOf(g, c));
    HotFewer(s, e.id, LimitOf(g, c));
  }

  lemma ReadStep(s: State, c: L.Config, w: nat, g: Group, now: int, e: Event)
    requires Counting(s, c, w, g, now) && now <= e.at && e.Read? && Can(s, e)
    ensures Counting(Step(s, e, c), c, w, g, e.at)
  {
    HotSame(s, e.id, HasRead(s.inFlight[e.id].now, s.inFlight[e.id].version, s.row), LimitOf(g, c));
  }

  /** An undisturbed recording goes on with the count, or its time is a lockout after the first of its group. */
  lemma WriteStep(s: State, c: L.Config, w: nat, g: Group, now: int, e: Event)
    requires c.maxFailures >= 1 && c.lockoutMs >= 1 && |s.inFlight| <= w
    requires Counting(s, c, w, g, now) && now <= e.at && e.Write? && Can(s, e) && !Stale(s, e)
    requires s.inFlight[e.id].now <= now
    ensures Counting(Step(s, e, c), c, w, NextGroup(g, s.inFlight[e.id].now, c), e.at)
  {
    HotFewer(s, e.id, LimitOf(g, c));
    HotFewer(s, e.id, LimitOf(NextGroup(g, s.inFlight[e.id].now, c), c));
  }

  lemma IdleStep(s: State, c: L.Config, w: nat, g: Group, now: int, e: Event)
    requires Counting(s, c, w, g, now) && now <= e.at && !Can(s, e)
    ensures Counting(Step(s, e, c), c, w, g, e.at)
  {
  }

  /** The times of recordings are times of the past. */
  ghost predicate Timed(s: State, start: int, now: int) {
    forall id :: id in s.inFlight && (s.inFlight[id].Started? || s.inFlight[id].HasRead?) ==>
      start <= s.inFlight[id].now <= now
  }

  lemma TimedStep(s: State, e: Event, c: L.Config, start: int, now: int)
    requires Timed(s, start, now) && start <= now <= e.at
    ensures Timed(Step(s, e, c), start, e.at)
  {
  }

  lemma RecordingGrows(s: State, e: Event, c: L.Config)
    requires IsGuess(s, e)
    ensures |Recording(Step(s, e, c))| == |Recording(s)| + 1
  {
    assert Recording(Step(s, e, c)) == Recording(s) + {e.id};
  }

  lemma RecordingShrinks(s: State, e: Event, c: L.Config)
    requires e.Write? && Can(s, e)
    ensures |Recording(Step(s, e, c))| == |Recording(s)| - 1
  {
    assert Recording(Step(s, e, c)) == Recording(s) - {e.id};
  }

  lemma RecordingStep(s: State, e: Event, c: L.Config)
    ensures |Recording(Step(s, e, c))| == |Recording(s)| + (if IsGuess(s, e) then 1 else 0)
        - (if e.Write? && Can(s, e) then 1 else 0)
  {
    if IsGuess(s, e) {
      RecordingGrows(s, e, c);
    } else if e.Write? && Can(s, e) {
      RecordingShrinks(s, e, c);
    } else {
      assert Recording(Step(s, e, c)) == Recording(s);
    }
  }

  /** The guesses allowed between two moments when at most `w` requests overlap. */
  function Allowance(start: int, at: int, c: L.Config, w: nat): int
    requires c.lockoutMs >= 1 && Cap(c, w) >= 0
  {
    L.Allowance(start, at, c.(maxFailures := Cap(c, w)))
  }

  /** What may still be being recorded fits into the allowance, too. */
  lemma EnoughLeft(s: State, c: L.Config, w: nat, g: Group, start: int, now: int)
    requires c.maxFailures >= 1 && c.lockoutMs >= 1 && |s.inFlight| <= w && Counting(s, c, w, g, now)
    requires g.spent + Cap(c, w) <= Allowance(start, g.since, c, w)
    ensures g.spent + g.count + |Recording(s)| <= Allowance(start, now, c, w)
  {
    var cap := c.(maxFailures := Cap(c, w));
    Subset(Recording(s), Hot(s, LimitOf(g, c)));
    Subset(Hot(s, LimitOf(g, c)), s.inFlight.Keys);
    if now < LimitOf(g, c) {
      L.AllowanceGrows(start, g.since, now, cap);
    } else {
      L.AllowancePerLockout(start, g.since, now, cap);
    }
  }

  lemma NextGroupFits(g: Group, at: int, c: L.Config, w: nat, start: int)
    requires c.maxFailures >= 1 && c.lockoutMs >= 1 && g.count <= Cap(c, w)
    requires g.spent + Cap(c, w) <= Allowance(start, g.since, c, w)
    ensures var h := NextGroup(g, at, c);
      && h.spent + Cap(c, w) <= Allowance(start, h.since, c, w)
      && h.spent + h.count == g.spent + g.count + 1
  {
    if at >= LimitOf(g, c) { L.AllowancePerLockout(start, g.since, at, c.(maxFailures := Cap(c, w))); }
  }

  function GroupAfter(s: State, g: Group, e: Event, c: L.Config): Group {
    if e.Write? && Can(s, e) then NextGroup(g, s.inFlight[e.id].now, c) else g
  }

  lemma CountingStep(s: State, c: L.Config, w: nat, g: Group, start: int, now: int, e: Event)
    requires c.maxFailures >= 1 && c.lockoutMs >= 1 && |s.inFlight| <= w && start <= now <= e.at
    requires Counting(s, c, w, g, now) && Timed(s, start, now) && !e.LogIn? && !Stale(s, e)
    ensures Counting(Step(s, e, c), c, w, GroupAfter(s, g, e, c), e.at)
  {
    if !Can(s, e) {
      IdleStep(s, c, w, g, now, e);
    } else {
      match e {
        case Look(_, _) => LookStep(s, c, w, g, now, e);
        case Check(_, _) => CheckStep(s, c, w, g, now, e);
        case Leave(_, _) => LeaveStep(s, c, w, g, now, e);
        case Start(_, _) => StartStep(s, c, w, g, now, e);
        case Read(_, _) => ReadStep(s, c, w, g, now, e);
        case Write(_, _) => WriteStep(s, c, w, g, now, e);
      }
    }
  }

  lemma {:induction false} GuessesLeft(s: State, es: seq<Event>, c: L.Config, w: nat, g: Group,
      start: int, now: int, end: int)
    requires c.maxFailures >= 1 && c.lockoutMs >= 1 && start <= now
    requires Counting(s, c, w, g, now) && Timed(s, start, now)
    requires AtMost(s, es, c, w) && Ordered(es, now, end) && NoLogIn(es) && Undisturbed(s, es, c)
    requires g.spent + Cap(c, w) <= Allowance(start, g.since, c, w)
    ensures g.spent + g.count + |Recording(s)| + Guesses(s, es, c) <= Allowance(start, end, c, w)
    decreases |es|
  {
    EnoughLeft(s, c, w, g, start, now);
    L.AllowanceGrows(start, now, end, c.(maxFailures := Cap(c, w)));
    if es != [] {
      var e, rest := es[0], es[1..];
      assert !e.LogIn? && NoLogIn(rest);
      CountingStep(s, c, w, g, start, now, e);
      TimedStep(s, e, c, start, now);
      RecordingStep(s, e, c);
      if e.Write? && Can(s, e) { NextGroupFits(g, s.inFlight[e.id].now, c, w, start); }
      GuessesLeft(Step(s, e, c), rest, c, w, GroupAfter(s, g, e, c), start, e.at, end);
    }
  }

  /** Before the first write nobody has seen a row. */
  ghost predicate Unwritten(s: State) {
    && s.row.None?
    && forall id :: id in s.inFlight ==> match s.inFlight[id]
         case Looked(seen) => seen.None?
         case Passed => true
         case Started(_, version) => version <= s.version
         case HasRead(_, version, seen) => version <= s.version && seen.None?
  }

  lemma UnwrittenStep(s: State, e: Event, c: L.Config)
    requires Unwritten(s) && !e.LogIn? && !(e.Write? && Can(s, e))
    ensures Unwritten(Step(s, e, c))
  {
  }

  lemma FirstWrite(s: State, c: L.Config, w: nat, start: int, now: int, e: Event)
    requires c.maxFailures >= 1 && c.lockoutMs >= 1 && |s.inFlight| <= w && start <= now <= e.at
    requires Unwritten(s) && Timed(s, start, now) && e.Write? && Can(s, e)
    ensures Counting(Step(s, e, c), c, w, Group(s.inFlight[e.id].now, 1, 0), e.at)
  {
    HotFewer(s, e.id, s.inFlight[e.id].now + c.lockoutMs);
  }

  lemma {:induction false} GuessesFromEmpty(s: State, es: seq<Event>, c: L.Config, w: nat,
      start: int, now: int, end: int)
    requires c.maxFailures >= 1 && c.lockoutMs >= 1 && w >= 1 && start <= now
    requires Unwritten(s) && Timed(s, start, now)
    requires AtMost(s, es, c, w) && Ordered(es, now, end) && NoLogIn(es) && Undisturbed(s, es, c)
    ensures |Recording(s)| + Guesses(s, es, c) <= Allowance(start, end, c, w)
    decreases |es|
  {
    var cap := c.(maxFailures := Cap(c, w));
    assert Allowance(start, start, c, w) == Cap(c, w);
    if es == [] {
      L.AllowanceGrows(start, start, end, cap);
      Subset(Recording(s), s.inFlight.Keys);
    } else {
      var e, rest := es[0], es[1..];
      assert !e.LogIn? && NoLogIn(rest);
      TimedStep(s, e, c, start, now);
      RecordingStep(s, e, c);
      if e.Write? && Can(s, e) {
        var since := s.inFlight[e.id].now;
        FirstWrite(s, c, w, start, now, e);
        L.AllowanceGrows(start, start, since, cap);
        GuessesLeft(Step(s, e, c), rest, c, w, Group(since, 1, 0), start, e.at, end);
      } else {
        UnwrittenStep(s, e, c);
        GuessesFromEmpty(Step(s, e, c), rest, c, w, start, e.at, end);
      }
    }
  }

  /**
   * When at most `w` requests overlap and no recording writes over a row that changed since it
   * began, the guesses evaluated within a time T, while no login completes, number at most
   * (maxFailures + w - 1) * (T / lockoutMs + 1).
   */
  lemma OverlapBound(es: seq<Event>, c: L.Config, w: nat, start: int, end: int)
    requires c.maxFailures >= 1 && c.lockoutMs >= 1 && w >= 1
    requires AtMost(START, es, c, w) && Ordered(es, start, end) && NoLogIn(es) && Undisturbed(START, es, c)
    ensures Guesses(START, es, c) <= (c.maxFailures + w - 1) * ((end - start) / c.lockoutMs + 1)
  {
    GuessesFromEmpty(START, es, c, w, start, start, end);
  }

  /** Every recording under way began at the present version of the row. */
  ghost predicate AllCurrent(s: State) {
    forall id :: id in s.inFlight && (s.inFlight[id].Started? || s.inFlight[id].HasRead?) ==>
      s.inFlight[id].version == s.version
  }

  lemma OnlyOne<K, V>(m: map<K, V>, a: K, b: K)
    requires |m| <= 1 && a in m && b in m
    ensures a == b
  {
    if a != b {
      Subset({a, b}, m.Keys);
    }
  }

  lemma AloneStep(s: State, e: Event, c: L.Config)
    requires |s.inFlight| <= 1 && AllCurrent(s)
    ensures !Stale(s, e) && AllCurrent(Step(s, e, c))
  {
    if Can(s, e) && (e.Write? || e.LogIn?) {
      forall id | id in s.inFlight ensures id == e.id { OnlyOne(s.inFlight, id, e.id); }
    }
  }

  lemma {:induction false} AloneIsUndisturbed(s: State, es: seq<Event>, c: L.Config)
    requires AtMost(s, es, c, 1) && AllCurrent(s)
    ensures Undisturbed(s, es, c)
    decreases |es|
  {
    if es != [] {
      AloneStep(s, es[0], c);
      AloneIsUndisturbed(Step(s, es[0], c), es[1..], c);
    }
  }

  /** For requests that do not overlap, nothing is asked of the recordings: the bound is that of LoginProtection. */
  lemma OneAtATimeBound(es: seq<Event>, c: L.Config, start: int, end: int)
    requires c.maxFailures >= 1 && c.lockoutMs >= 1
    requires AtMost(START, es, c, 1) && Ordered(es, start, end) && NoLogIn(es)
    ensures Guesses(START, es, c) <= c.maxFailures * ((end - start) / c.lockoutMs + 1)
  {
    AloneIsUndisturbed(START, es, c);
    OverlapBound(es, c, 1, start, end);
  }

  // ---------------------------------------------------------------- the bound is met

  /** The events lead from `s` to `t` and evaluate `guesses` on the way. */
  ghost predicate Leads(s: State, es: seq<Event>, t: State, guesses: nat, c: L.Config, w: nat) {
    Run(s, es, c) == t && Guesses(s, es, c) == guesses && AtMost(s, es, c, w)
  }

  lemma LeadsOne(s: State, e: Event, c: L.Config, w: nat)
    requires |s.inFlight| <= w && |Step(s, e, c).inFlight| <= w
    ensures Leads(s, [e], Step(s, e, c), if IsGuess(s, e) then 1 else 0, c, w)
    ensures Undisturbed(s, [e], c) <==> !Stale(s, e)
  {
    assert [e][1..] == [];
  }

  lemma {:induction false} LeadsOn(s: State, a: seq<Event>, m: State, g: nat, b: seq<Event>, t: State, h: nat,
      c: L.Config, w: nat)
    requires Leads(s, a, m, g, c, w) && Leads(m, b, t, h, c, w)
    ensures Leads(s, a + b, t, g + h, c, w)
    ensures Undisturbed(s, a, c) && Undisturbed(m, b, c) ==> Undisturbed(s, a + b, c)
    decreases |a|
  {
    if a == [] {
      assert a + b == b;
    } else {
      assert (a + b)[1..] == a[1..] + b;
      LeadsOn(Step(s, a[0], c), a[1..], m, Guesses(Step(s, a[0], c), a[1..], c), b, t, h, c, w);
    }
  }

  /** A request from its look at the row until it is let through. */
  function Enter(id: nat, at: int): seq<Event> {
    [Look(id, at)] + [Check(id, at)]
  }

  /** A recording without interruption. */
  function Record(id: nat, at: int): seq<Event> {
    ([Start(id, at)] + [Read(id, at)]) + [Write(id, at)]
  }

  lemma EnterLeads(s: State, id: nat, at: int, c: L.Config, w: nat)
    requires id !in s.inFlight && |s.inFlight| < w && !L.Locked(s.row, at)
    ensures Leads(s, Enter(id, at), Moved(s, id, Passed), 0, c, w) && Undisturbed(s, Enter(id, at), c)
  {
    var s1 := Step(s, Look(id, at), c);
    assert s1.inFlight.Keys == s.inFlight.Keys + {id};
    assert s1.inFlight[id := Passed] == s.inFlight[id := Passed];
    assert s.inFlight[id := Passed].Keys == s.inFlight.Keys + {id};
    LeadsOne(s, Look(id, at), c, w);
    LeadsOne(s1, Check(id, at), c, w);
    LeadsOn(s, [Look(id, at)], s1, 0, [Check(id, at)], Moved(s, id, Passed), 0, c, w);
  }

  function AfterRecord(s: State, id: nat, at: int, c: L.Config): State {
    Written(Ended(s, id), Some(L.Row(L.NextFailureState(s.row, at, c), at)))
  }

  lemma RecordLeads(s: State, id: nat, at: int, c: L.Config, w: nat)
    requires id in s.inFlight && s.inFlight[id].Passed? && |s.inFlight| <= w
    ensures Leads(s, Record(id, at), AfterRecord(s, id, at, c), 1, c, w) && Undisturbed(s, Record(id, at), c)
  {
    var s1 := Moved(s, id, Started(at, s.version));
    var s2 := Moved(s1, id, HasRead(at, s.version, s.row));
    assert s1.inFlight.Keys == s.inFlight.Keys && s2.inFlight.Keys == s.inFlight.Keys;
    var s3 := Step(s2, Write(id, at), c);
    assert s3.inFlight == s.inFlight - {id};
    assert s3.inFlight.Keys == s.inFlight.Keys - {id};
    LeadsOne(s, Start(id, at), c, w);
    LeadsOne(s1, Read(id, at), c, w);
    LeadsOne(s2, Write(id, at), c, w);
    LeadsOn(s, [Start(id, at)], s1, 1, [Read(id, at)], s2, 0, c, w);
    LeadsOn(s, [Start(id, at)] + [Read(id, at)], s2, 1, [Write(id, at)], s3, 0, c, w);
  }

  /** The row after `n` failures at one instant, below the limit. */
  function Counted(at: int, n: nat): Option<L.Row> {
    if n == 0 then None else Some(L.Row(L.FailureState(n, None), at))
  }

  /** `n` requests one after the other. */
  function OneByOne(at: int, n: nat): seq<Event> {
    if n == 0 then [] else OneByOne(at, n - 1) + (Enter(0, at) + Record(0, at))
  }

  lemma OneMoreCounts(at: int, n: nat, c: L.Config, w: nat)
    requires n + 1 < c.maxFailures && w >= 1
    ensures var s, t := State(Counted(at, n), n, map[]), State(Counted(at, n + 1), n + 1, map[]);
      Leads(s, Enter(0, at) + Record(0, at), t, 1, c, w) && Undisturbed(s, Enter(0, at) + Record(0, at), c)
  {
    var s := State(Counted(at, n), n, map[]);
    var m := Moved(s, 0, Passed);
    EnterLeads(s, 0, at, c, w);
    RecordLeads(m, 0, at, c, w);
    assert m.inFlight - {0} == map[];
    LeadsOn(s, Enter(0, at), m, 0, Record(0, at), AfterRecord(m, 0, at, c), 1, c, w);
  }

  lemma {:induction false} OneByOneCounts(at: int, n: nat, c: L.Config, w: nat)
    requires n < c.maxFailures && w >= 1
    ensures var s := State(Counted(at, n), n, map[]);
      Leads(START, OneByOne(at, n), s, n, c, w) && Undisturbed(START, OneByOne(at, n), c)
    decreases n
  {
    if n > 0 {
      OneByOneCounts(at, n - 1, c, w);
      OneMoreCounts(at, n - 1, c, w);
      var s, t := State(Counted(at, n - 1), n - 1, map[]), State(Counted(at, n), n, map[]);
      LeadsOn(START, OneByOne(at, n - 1), s, n - 1, Enter(0, at) + Record(0, at), t, 1, c, w);
    }
  }

  function AllPassed(n: nat): (m: map<nat, Phase>)
    ensures |m| == n && forall id :: id in m <==> 0 <= id < n
  {
    if n == 0 then map[]
    else
      var m := AllPassed(n - 1);
      assert m[n - 1 := Passed].Keys == m.Keys + {n - 1};
      m[n - 1 := Passed]
  }

  function AllEnter(at: int, n: nat): seq<Event> {
    if n == 0 then [] else AllEnter(at, n - 1) + Enter(n - 1, at)
  }

  function AllRecord(at: int, n: nat): seq<Event> {
    if n == 0 then [] else Record(n - 1, at) + AllRecord(at, n - 1)
  }

  lemma {:induction false} AllEnterLeads(s: State, at: int, n: nat, c: L.Config, w: nat)
    requires !L.Locked(s.row, at) && s.inFlight == map[] && n <= w
    ensures Leads(s, AllEnter(at, n), s.(inFlight := AllPassed(n)), 0, c, w) && Undisturbed(s, AllEnter(at, n), c)
    decreases n
  {
    if n > 0 {
      AllEnterLeads(s, at, n - 1, c, w);
      var m := s.(inFlight := AllPassed(n - 1));
      EnterLeads(m, n - 1, at, c, w);
      LeadsOn(s, AllEnter(at, n - 1), m, 0, Enter(n - 1, at), s.(inFlight := AllPassed(n)), 0, c, w);
    }
  }

  lemma LastRecordLeads(s: State, at: int, n: nat, c: L.Config, w: nat)
    requires s.inFlight == AllPassed(n) && 1 <= n <= w
    ensures Leads(s, Record(n - 1, at), AfterRecord(s, n - 1, at, c), 1, c, w)
    ensures Undisturbed(s, Record(n - 1, at), c)
    ensures AfterRecord(s, n - 1, at, c).inFlight == AllPassed(n - 1)
  {
    RecordLeads(s, n - 1, at, c, w);
    assert AllPassed(n) - {n - 1} == AllPassed(n - 1);
  }

  lemma {:induction false} AllRecordLeads(s: State, at: int, n: nat, c: L.Config, w: nat)
    requires s.inFlight == AllPassed(n) && n <= w
    ensures Leads(s, AllRecord(at, n), Run(s, AllRecord(at, n), c), n, c, w) && Undisturbed(s, AllRecord(at, n), c)
    decreases n
  {
    if n > 0 {
      LastRecordLeads(s, at, n, c, w);
      var m := AfterRecord(s, n - 1, at, c);
      AllRecordLeads(m, at, n - 1, c, w);
      LeadsOn(s, Record(n - 1, at), m, 1, AllRecord(at, n - 1), Run(m, AllRecord(at, n - 1), c), n - 1, c, w);
    }
  }

  /** All failures but one in sequence, and then `w` requests that are let through together. */
  function Rush(at: int, c: L.Config, w: nat): seq<Event>
    requires c.maxFailures >= 1
  {
    OneByOne(at, c.maxFailures - 1) + (AllEnter(at, w) + AllRecord(at, w))
  }

  /** All at one instant. */
  predicate AtOnce(es: seq<Event>, at: int)
    decreases |es|
  {
    es != [] ==> es[0].at == at && AtOnce(es[1..], at)
  }

  lemma {:induction false} AtOnceAdd(a: seq<Event>, b: seq<Event>, at: int)
    requires AtOnce(a, at) && AtOnce(b, at)
    ensures AtOnce(a + b, at)
    decreases |a|
  {
    if a == [] {
      assert a + b == b;
    } else {
      assert (a + b)[1..] == a[1..] + b;
      AtOnceAdd(a[1..], b, at);
    }
  }

  lemma EnterAtOnce(id: nat, at: int)
    ensures AtOnce(Enter(id, at), at) && AtOnce([Start(id, at)] + [Read(id, at)], at) && AtOnce(Record(id, at), at)
  {
    AtOnceAdd([Look(id, at)], [Check(id, at)], at);
    AtOnceAdd([Start(id, at)], [Read(id, at)], at);
    AtOnceAdd([Start(id, at)] + [Read(id, at)], [Write(id, at)], at);
  }

  lemma {:induction false} OneByOneAtOnce(at: int, n: nat)
    ensures AtOnce(OneByOne(at, n), at)
    decreases n
  {
    if n > 0 {
      OneByOneAtOnce(at, n - 1);
      EnterAtOnce(0, at);
      AtOnceAdd(Enter(0, at), Record(0, at), at);
      AtOnceAdd(OneByOne(at, n - 1), Enter(0, at) + Record(0, at), at);
    }
  }

  lemma {:induction false} AllAtOnce(at: int, n: nat)
    ensures AtOnce(AllEnter(at, n), at) && AtOnce(AllRecord(at, n), at)
    decreases n
  {
    if n > 0 {
      AllAtOnce(at, n - 1);
      EnterAtOnce(n - 1, at);
      AtOnceAdd(AllEnter(at, n - 1), Enter(n - 1, at), at);
      AtOnceAdd(Record(n - 1, at), AllRecord(at, n - 1), at);
    }
  }

  lemma RushLeads(at: int, c: L.Config, w: nat)
    requires c.maxFailures >= 1 && w >= 1
    ensures Leads(START, Rush(at, c, w), Run(START, Rush(at, c, w), c), c.maxFailures + w - 1, c, w)
    ensures Undisturbed(START, Rush(at, c, w), c)
  {
    var n := c.maxFailures - 1;
    var s := State(Counted(at, n), n, map[]);
    TogetherLeads(s, at, c, w);
    var t := Run(s, AllEnter(at, w) + AllRecord(at, w), c);
    OneByOneCounts(at, n, c, w);
    LeadsOn(START, OneByOne(at, n), s, n, AllEnter(at, w) + AllRecord(at, w), t, w, c, w);
  }

  lemma TogetherLeads(s: State, at: int, c: L.Config, w: nat)
    requires !L.Locked(s.row, at) && s.inFlight == map[]
    ensures var es := AllEnter(at, w) + AllRecord(at, w); Leads(s, es, Run(s, es, c), w, c, w) && Undisturbed(s, es, c)
  {
    var m := s.(inFlight := AllPassed(w));
    var t := Run(m, AllRecord(at, w), c);
    AllEnterLeads(s, at, w, c, w);
    AllRecordLeads(m, at, w, c, w);
    LeadsOn(s, AllEnter(at, w), m, 0, AllRecord(at, w), t, w, c, w);
  }

  /** The bound is met at a single instant, so without a limit on overlapping requests there is none on guesses. */
  lemma OverlapBoundIsReached(at: int, c: L.Config, w: nat)
    requires c.maxFailures >= 1 && w >= 1
    ensures AtOnce(Rush(at, c, w), at) && AtMost(START, Rush(at, c, w), c, w)
    ensures Undisturbed(START, Rush(at, c, w), c)
    ensures Guesses(START, Rush(at, c, w), c) == c.maxFailures + w - 1
  {
    RushLeads(at, c, w);
    OneByOneAtOnce(at, c.maxFailures - 1);
    AllAtOnce(at, w);
    AtOnceAdd(AllEnter(at, w), AllRecord(at, w), at);
    AtOnceAdd(OneByOne(at, c.maxFailures - 1), AllEnter(at, w) + AllRecord(at, w), at);
  }
}
