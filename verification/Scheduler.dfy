/**
 * Continuous monitoring (monitoring.scheduler.ts): several scheduler instances, each with its own
 * clock, claim due assets with a conditional update of `lastScheduledScanAt`.
 */
module Scheduler {
  import opened Base

  datatype Frequency = Off | Daily | Weekly

  /** `eligible` stands for the conditions on the asset and its organization other than the frequency. */
  datatype Asset = Asset(eligible: bool, frequency: Frequency, last: Option<int>, createdAt: int)

  type Table = map<nat, Asset>

  const SLACK_MS := 10 * 60 * 1000

  function Period(f: Frequency): int
    requires !f.Off?
  {
    if f.Daily? then 24 * HOUR_MS else 7 * 24 * HOUR_MS
  }

  function NextRunAt(last: Option<int>, f: Frequency, now: int): Option<int> {
    if f.Off? then None
    else match last
      case None => Some(now)
      case Some(t) => Some(t + Period(f) - SLACK_MS)
  }

  /** The where clause of both the query and the claim. */
  predicate Due(a: Asset, f: Frequency, now: int)
    requires !f.Off?
  {
    a.eligible && a.frequency == f && match a.last case None => true case Some(t) => t < now - Period(f) + SLACK_MS
  }

  /** A scheduled asset is due as soon as the announced time has passed, and a new one at once. */
  lemma DueAfterNextRun(a: Asset, now: int)
    requires a.eligible && !a.frequency.Off?
    ensures Due(a, a.frequency, now) <==> a.last.None? || NextRunAt(a.last, a.frequency, now).value < now
  {
  }

  /**
   * A daily asset is due when more than 23 hours and 50 minutes have passed since it was scheduled, a
   * weekly one after six days, 23 hours and 50 minutes, and a new one at once.
   */
  lemma DueMeans(a: Asset, f: Frequency, now: int)
    requires !f.Off?
    ensures Due(a, f, now) <==> a.eligible && a.frequency == f && match a.last
      case None => true
      case Some(t) => now - t > if f == Daily then 85800000 else 604200000
  {
  }

  // ---------------------------------------------------------------- every instance, every interleaving

  /** A claim by any instance, carrying the time its pass began; or a change of settings. */
  datatype Event =
    | Claim(id: nat, f: Frequency, now: int)
    | Configure(id: nat, eligible: bool, frequency: Frequency)

  predicate Wins(t: Table, e: Event) {
    e.Claim? && !e.f.Off? && e.id in t && Due(t[e.id], e.f, e.now)
  }

  function Step(t: Table, e: Event): Table {
    match e
    case Claim(id, f, now) => if Wins(t, e) then t[id := t[id].(last := Some(now))] else t
    case Configure(id, eligible,
        frequency) => if id in t then t[id := t[id].(eligible := eligible, frequency := frequency)] else t
  }

  function Run(t: Table, events: seq<Event>): Table
    decreases |events|
  {
    if events == [] then t else Run(Step(t, events[0]), events[1..])
  }

  /** One successful claim: its time and the frequency in force. */
  datatype Claimed = Claimed(at: int, f: Frequency)

  /** The successful claims of one asset, in the order they happened. */
  function ClaimsOf(t: Table, events: seq<Event>, id: nat): seq<Claimed>
    decreases |events|
  {
    if events == [] then []
    else (if Wins(t, events[0]) && events[0].id == id then [Claimed(events[0].now, events[0].f)] else [])
         + ClaimsOf(Step(t, events[0]), events[1..], id)
  }

  /** Each claim is more than a period less the slack after the one before it. */
  ghost predicate Spaced(claims: seq<Claimed>, before: Option<int>) {
    && (forall i :: 0 <= i < |claims| ==> !claims[i].f.Off?)
    && (claims != [] && before.Some? ==> claims[0].at - before.value > Period(claims[0].f) - SLACK_MS)
    && (forall i :: 0 < i < |claims| ==> claims[i].at - claims[i - 1].at > Period(claims[i].f) - SLACK_MS)
  }

  function LastOf(t: Table, id: nat): Option<int> {
    if id in t then t[id].last else None
  }

  /**
   * Whatever the instances, their clocks, the interleaving and the changes of frequency: two
   * successive claims of an asset are more than the period less the slack of the frequency in
   * force at the second one apart.
   */
  lemma {:induction false} ClaimsAreSpaced(t: Table, events: seq<Event>, id: nat)
    ensures Spaced(ClaimsOf(t, events, id), LastOf(t, id))
    decreases |events|
  {
    if events != [] {
      var t' := Step(t, events[0]);
      ClaimsAreSpaced(t', events[1..], id);
      var rest := ClaimsOf(t', events[1..], id);
      if Wins(t, events[0]) && events[0].id == id {
        var c := Claimed(events[0].now, events[0].f);
        assert LastOf(t', id) == Some(c.at);
        var claims := [c] + rest;
        forall i | 0 < i < |claims| ensures claims[i].at - claims[i - 1].at > Period(claims[i].f) - SLACK_MS {
          assert claims[i] == rest[i - 1];
          if i > 1 { assert claims[i - 1] == rest[i - 2]; }
        }
      } else {
        assert LastOf(t', id) == LastOf(t, id);
        assert ClaimsOf(t, events, id) == [] + rest;
      }
    }
  }

  /** In milliseconds: successive claims of a daily asset, or of a weekly one. */
  lemma ClaimsApart(t: Table, events: seq<Event>, id: nat, i: nat)
    requires 0 < i < |ClaimsOf(t, events, id)|
    ensures var claims := ClaimsOf(t, events, id);
      && (claims[i].f == Daily ==> claims[i].at - claims[i - 1].at > 85800000)
      && (claims[i].f == Weekly ==> claims[i].at - claims[i - 1].at > 604200000)
  {
    ClaimsAreSpaced(t, events, id);
  }

  const GAP_MS := 24 * HOUR_MS - SLACK_MS

  lemma {:induction false} SpacedSpan(claims: seq<Claimed>, before: Option<int>)
    requires Spaced(claims, before) && claims != []
    ensures claims[|claims| - 1].at - claims[0].at >= (|claims| - 1) * GAP_MS
  {
    var n := |claims|;
    if n > 1 {
      var earlier := claims[..n - 1];
      SpacedSpan(earlier, before);
      assert claims[n - 1].at - claims[n - 2].at > GAP_MS;
    }
  }

  lemma SpacedWindow(claims: seq<Claimed>, before: Option<int>, i: nat, j: nat)
    requires Spaced(claims, before) && i <= j < |claims|
    ensures (j - i) * GAP_MS <= claims[j].at - claims[i].at
  {
    var part := claims[i..j + 1];
    assert Spaced(part, None);
    SpacedSpan(part, None);
  }

  /** Claims `i` to `j` that fall into a window of length T number at most T / (23 h 50 min) + 1. */
  lemma ClaimsPerWindow(t: Table, events: seq<Event>, id: nat, i: nat, j: nat, window: nat)
    requires var claims := ClaimsOf(t, events, id); i <= j < |claims| && claims[j].at - claims[i].at <= window
    ensures j - i + 1 <= window / GAP_MS + 1
  {
    ClaimsAreSpaced(t, events, id);
    SpacedWindow(ClaimsOf(t, events, id), LastOf(t, id), i, j);
  }

  // ---------------------------------------------------------------- one pass

  datatype RunResult = RunResult(dueAssets: nat, claimed: nat, queuedScans: nat, errors: nat)

  /** Longest waiting first: never scheduled, then the oldest schedule, then the oldest asset. */
  predicate Ahead(a: Asset, b: Asset) {
    match (a.last, b.last)
    case (None, Some(_)) => true
    case (Some(_), None) => false
    case (None, None) => a.createdAt <= b.createdAt
    case (Some(x), Some(y)) => x < y || (x == y && a.createdAt <= b.createdAt)
  }

  ghost predicate IsFirst(t: Table, ids: set<nat>, first: nat)
    requires forall id :: id in ids ==> id in t
  {
    first in ids && forall id :: id in ids ==> Ahead(t[first], t[id])
  }

  lemma {:induction false} SomeFirst(t: Table, ids: set<nat>) returns (first: nat)
    requires ids != {} && forall id :: id in ids ==> id in t
    ensures IsFirst(t, ids, first)
    decreases |ids|
  {
    var any :| any in ids;
    first := any;
    if ids != {any} {
      var other := SomeFirst(t, ids - {any});
      if !Ahead(t[any], t[other]) { first := other; }
    }
  }

  /** What the query returns: due assets, longest waiting first, all of them unless there are `take`. */
  ghost predicate IsQueue(t: Table, f: Frequency, now: int, take: int, due: seq<nat>)
    requires !f.Off?
  {
    && (forall i :: 0 <= i < |due| ==> due[i] in t && Due(t[due[i]], f, now))
    && (forall i, j :: 0 <= i < j < |due| ==> due[i] != due[j])
    && (forall i, j :: 0 <= i < j < |due| ==> Ahead(t[due[i]], t[due[j]]))
    && |due| <= Max(0, take)
    && (|due| < take ==> forall id :: id in t && Due(t[id], f, now) ==> id in due)
    && (forall id, i :: id in t && Due(t[id], f, now) && id !in due && 0 <= i < |due| ==> Ahead(t[due[i]], t[id]))
  }

  /**
   * Of two due assets the one that comes first, or that is taken while the other is left out, has never
   * been scheduled, or was scheduled no later than the other; between equals the older asset comes first.
   */
  lemma LongestWaitingFirst(t: Table, f: Frequency, now: int, take: int, due: seq<nat>, i: nat, other: nat)
    requires !f.Off? && IsQueue(t, f, now, take, due) && i < |due|
    requires other in t && Due(t[other], f, now) && forall j :: 0 <= j <= i ==> due[j] != other
    ensures var a, b := t[due[i]], t[other];
      && (a.last.Some? ==> b.last.Some? && a.last.value <= b.last.value)
      && (a.last == b.last ==> a.createdAt <= b.createdAt)
  {
    if other in due {
      var j :| 0 <= j < |due| && due[j] == other;
      assert j > i && Ahead(t[due[i]], t[due[j]]);
    } else {
      assert Ahead(t[due[i]], t[other]);
    }
  }

  /** What other instances and users do while a pass is running, before each of its claims. */
  type Interference = (Frequency, nat) -> seq<Event>

  /** What a pass over some due assets amounts to. */
  datatype Pass = Pass(trace: seq<Event>, claimed: nat, queued: nat, errors: nat)

  /** Asset by asset: the others' steps, then the claim, and a request for scans if it succeeds. */
  function PassOver(t: Table, due: seq<nat>, f: Frequency, now: int, others: Interference,
      enqueue: nat -> Option<nat>): (p: Pass)
    ensures p.claimed <= |due| && p.errors <= p.claimed
  {
    if due == [] then Pass([], 0, 0, 0)
    else
      var last := |due| - 1;
      var p := PassOver(t, due[..last], f, now, others, enqueue);
      var before, claim := p.trace + others(f, last), Claim(due[last], f, now);
      if !Wins(Run(t, before), claim) then p.(trace := before + [claim])
      else if enqueue(due[last]).Some? then Pass(before + [claim], p.claimed + 1, p.queued
          + enqueue(due[last]).value, p.errors)
      else Pass(before + [claim], p.claimed + 1, p.queued, p.errors + 1)
  }

  /** The claim of one asset after the others' steps: it counts, and scans are requested, only if it succeeds. */
  function PassNext(p: Pass, id: nat, f: Frequency, now: int, steps: seq<Event>, wins: bool,
      requested: Option<nat>): Pass {
    Pass(p.trace + steps + [Claim(id, f, now)], p.claimed + (if wins then 1 else 0),
         p.queued + (if wins then requested.GetOr(0) else 0),
         p.errors + (if wins && requested == None then 1 else 0))
  }

  /** An asset is won if and only if it still exists and is still due at that moment. */
  lemma WinsMeans(t: Table, id: nat, f: Frequency, now: int)
    ensures Wins(t, Claim(id, f, now)) <==> f != Off && id in t && Due(t[id], f, now)
  {
  }

  /** A pass takes its assets one after the other, each with the others' steps before it. */
  lemma EachInTurn(t: Table, due: seq<nat>, f: Frequency, now: int, others: Interference, enqueue: nat -> Option<nat>)
    ensures due == [] ==> PassOver(t, due, f, now, others, enqueue) == Pass([], 0, 0, 0)
    ensures due != [] ==>
      var last := |due| - 1;
      var p, steps := PassOver(t, due[..last], f, now, others, enqueue), others(f, last);
      var wins := Wins(Run(t, p.trace + steps), Claim(due[last], f, now));
      PassOver(t, due, f, now, others, enqueue) == PassNext(p, due[last], f, now, steps, wins, enqueue(due[last]))
  {
  }

  /** The turn of one frequency: what is queried, and what the claims make of it. */
  ghost predicate IsTurn(t: Table, t': Table, f: Frequency, now: int, take: int, others: Interference,
      enqueue: nat -> Option<nat>, due: seq<nat>, r: RunResult)
    requires !f.Off?
  {
    && IsQueue(t, f, now, take, due)
    && var p := PassOver(t, due, f, now, others, enqueue);
       t' == Run(t, p.trace) && r == RunResult(|due|, p.claimed, p.queued, p.errors)
  }

  const NO_TURN := RunResult(0, 0, 0, 0)

  function Plus(a: RunResult, b: RunResult): RunResult {
    RunResult(a.dueAssets + b.dueAssets, a.claimed + b.claimed, a.queuedScans + b.queuedScans, a.errors + b.errors)
  }

  /** What a run leaves for a reader to follow: the table in between, both lists and both counts. */
  datatype Trail = Trail(mid: Table, daily: seq<nat>, weekly: seq<nat>, first: RunResult, second: RunResult)

  /** A whole run: the daily assets within the batch, then the weekly ones within what is left of it. */
  ghost predicate IsRun(t: Table, t': Table, now: int, batchSize: int, others: Interference,
      enqueue: nat -> Option<nat>,
      trail: Trail, r: RunResult) {
    && IsTurn(t, trail.mid, Daily, now, batchSize, others, enqueue, trail.daily, trail.first)
    && IsTurn(trail.mid, t', Weekly, now, batchSize - trail.first.dueAssets, others, enqueue, trail.weekly,
         trail.second)
    && r == Plus(trail.first, trail.second)
  }

  lemma {:induction false} RunConcat(t: Table, a: seq<Event>, b: seq<Event>)
    ensures Run(t, a + b) == Run(Run(t, a), b)
    decreases |a|
  {
    if a == [] {
      assert a + b == b;
    } else {
      assert (a + b)[1..] == a[1..] + b;
      RunConcat(Step(t, a[0]), a[1..], b);
    }
  }

  ghost predicate Quiet(others: Interference) {
    forall f, i :: others(f, i) == []
  }

  /** The table with some assets marked as scheduled. */
  function Scheduled(t: Table, ids: seq<nat>, now: int): Table {
    map id | id in t :: if id in ids then t[id].(last := Some(now)) else t[id]
  }

  /** An asset that is not among the ones claimed so far is still due, and its claim marks it. */
  lemma NextIsStillDue(t: Table, earlier: seq<nat>, next: nat, f: Frequency, now: int)
    requires !f.Off? && next in t && Due(t[next], f, now) && next !in earlier
    ensures Wins(Scheduled(t, earlier, now), Claim(next, f, now))
    ensures Step(Scheduled(t, earlier, now), Claim(next, f, now)) == Scheduled(t, earlier + [next], now)
  {
  }

  lemma RunNext(t: Table, events: seq<Event>, e: Event)
    ensures Run(t, events + [e]) == Step(Run(t, events), e)
  {
    RunConcat(t, events, [e]);
    assert [e][1..] == [];
    assert Run(Run(t, events), [e]) == Step(Run(t, events), e);
  }

  /** Undisturbed, all are claimed, and nothing else changes. */
  lemma {:induction false} QuietClaims(t: Table, due: seq<nat>, f: Frequency, now: int, others: Interference,
      enqueue: nat -> Option<nat>)
    requires !f.Off? && Quiet(others)
    requires forall i :: 0 <= i < |due| ==> due[i] in t && Due(t[due[i]], f, now)
    requires forall i, j :: 0 <= i < j < |due| ==> due[i] != due[j]
    ensures PassOver(t, due, f, now, others, enqueue).claimed == |due|
    ensures Run(t, PassOver(t, due, f, now, others, enqueue).trace) == Scheduled(t, due, now)
    decreases |due|
  {
    if due != [] {
      var last := |due| - 1;
      var earlier := due[..last];
      QuietClaims(t, earlier, f, now, others, enqueue);
      var trace := PassOver(t, earlier, f, now, others, enqueue).trace;
      assert trace + others(f, last) == trace;
      assert due == earlier + [due[last]];
      NextIsStillDue(t, earlier, due[last], f, now);
      RunNext(t, trace, Claim(due[last], f, now));
    }
  }

  /** Nothing of this frequency is due any more. */
  ghost predicate NoneDue(t: Table, f: Frequency, now: int)
    requires !f.Off?
  {
    forall id :: id in t ==> !Due(t[id], f, now)
  }

  /** Each row is as before, or was due and is now marked as scheduled. */
  ghost predicate OnlyDueMarked(before: Table, after: Table, now: int) {
    && after.Keys == before.Keys
    && forall id :: id in before ==>
         (after[id] == before[id]
          || (!before[id].frequency.Off? && Due(before[id], before[id].frequency, now)
              && after[id] == before[id].(last := Some(now))))
  }

  lemma TurnStaysWithin(t: Table, t': Table, f: Frequency, now: int, take: int, others: Interference,
      enqueue: nat -> Option<nat>, due: seq<nat>, r: RunResult)
    requires !f.Off? && IsTurn(t, t', f, now, take, others, enqueue, due, r)
    ensures r.errors <= r.claimed <= r.dueAssets <= Max(0, take)
  {
  }

  lemma QuietTurnMarks(t: Table, t': Table, f: Frequency, now: int, take: int, others: Interference,
      enqueue: nat -> Option<nat>, due: seq<nat>, r: RunResult)
    requires !f.Off? && Quiet(others) && IsTurn(t, t', f, now, take, others, enqueue, due, r)
    ensures r.claimed == r.dueAssets && OnlyDueMarked(t, t', now)
  {
    QuietClaims(t, due, f, now, others, enqueue);
  }

  lemma QuietTurnLeaves(t: Table, t': Table, f: Frequency, now: int, take: int, others: Interference,
      enqueue: nat -> Option<nat>, due: seq<nat>, r: RunResult, g: Frequency)
    requires !f.Off? && !g.Off? && Quiet(others) && IsTurn(t, t', f, now, take, others, enqueue, due, r)
    ensures (g == f && r.dueAssets < take) || (g != f && NoneDue(t, g, now)) ==> NoneDue(t', g, now)
  {
    QuietClaims(t, due, f, now, others, enqueue);
  }

  lemma MarkedTwice(a: Table, b: Table, c: Table, now: int)
    requires OnlyDueMarked(a, b, now) && OnlyDueMarked(b, c, now)
    ensures OnlyDueMarked(a, c, now)
  {
  }

  class AssetTable {
    var rows: Table

    constructor (rows: Table)
      ensures this.rows == rows
    {
      this.rows := rows;
    }

    /** The atomic conditional update. */
    method TryClaim(id: nat, f: Frequency, now: int) returns (count: nat)
      requires !f.Off?
      modifies this
      ensures rows == Step(old(rows), Claim(id, f, now))
      ensures count == if Wins(old(rows), Claim(id, f, now)) then 1 else 0
    {
      count := 0;
      if id in rows {
        var a := rows[id];
        var cutoff := now - Period(f) + SLACK_MS;
        if a.eligible && a.frequency == f && (a.last.None? || a.last.value < cutoff) {
          rows := rows[id := a.(last := Some(now))];
          count := 1;
        }
      }
    }

    method FindDue(f: Frequency, now: int, take: int) returns (due: seq<nat>)
      requires !f.Off?
      ensures IsQueue(rows, f, now, take, due)
    {
      var left := set id | id in rows && Due(rows[id], f, now);
      due := [];
      while |due| < take && left != {}
        invariant |due| <= Max(0, take)
        invariant forall id :: id in rows && Due(rows[id], f, now) <==> id in left || id in due
        invariant forall i :: 0 <= i < |due| ==> due[i] !in left
        invariant forall i, j :: 0 <= i < j < |due| ==> due[i] != due[j] && Ahead(rows[due[i]], rows[due[j]])
        invariant forall id, i :: id in left && 0 <= i < |due| ==> Ahead(rows[due[i]], rows[id])
        decreases |left|
      {
        ghost var first := SomeFirst(rows, left);
        var next :| next in left && forall id :: id in left ==> Ahead(rows[next], rows[id]);
        due := due + [next];
        left := left - {next};
      }
    }

    /** The others' steps between two of ours. */
    method Interfere(events: seq<Event>)
      modifies this
      ensures rows == Run(old(rows), events)
    {
      for i := 0 to |events|
        invariant Run(old(rows), events) == Run(rows, events[i..])
      {
        assert events[i..][1..] == events[i + 1..];
        rows := Step(rows, events[i]);
      }
    }

    /** The inner loop. */
    method ClaimAll(due: seq<nat>, f: Frequency, now: int, others: Interference, enqueue: nat -> Option<nat>)
        returns (claimed: nat, queued: nat, errors: nat)
      requires !f.Off?
      modifies this
      ensures var p := PassOver(old(rows), due, f, now, others, enqueue);
        rows == Run(old(rows), p.trace) && claimed == p.claimed && queued == p.queued && errors == p.errors
    {
      claimed, queued, errors := 0, 0, 0;
      ghost var start := rows;
      for i := 0 to |due|
        invariant var p := PassOver(start, due[..i], f, now, others, enqueue);
          rows == Run(start, p.trace) && claimed == p.claimed && queued == p.queued && errors == p.errors
      {
        ghost var p := PassOver(start, due[..i], f, now, others, enqueue);
        ghost var claim := Claim(due[i], f, now);
        assert due[..i + 1][..i] == due[..i];
        Interfere(others(f, i));
        RunConcat(start, p.trace, others(f, i));
        RunConcat(start, p.trace + others(f, i), [claim]);
        assert Run(rows, [claim]) == Step(rows, claim) by { assert [claim][1..] == []; }
        var count := TryClaim(due[i], f, now);
        if count == 0 {
          continue;
        }
        claimed := claimed + 1;
        match enqueue(due[i])
        case Some(n) => queued := queued + n;
        case None => errors := errors + 1;
      }
      assert due[..|due|] == due;
    }

    /** The query and the claims of one frequency. */
    method TakeTurn(f: Frequency, now: int, take: int, others: Interference, enqueue: nat -> Option<nat>)
        returns (due: seq<nat>, r: RunResult)
      requires !f.Off?
      modifies this
      ensures IsTurn(old(rows), rows, f, now, take, others, enqueue, due, r)
    {
      due := FindDue(f, now, take);
      var claimed, queued, errors := ClaimAll(due, f, now, others, enqueue);
      r := RunResult(|due|, claimed, queued, errors);
    }

    /** One run over both frequencies, whatever the others do meanwhile. */
    method RunOnce(now: int, batchSize: int, others: Interference, enqueue: nat -> Option<nat>)
        returns (r: RunResult, ghost trail: Trail)
      modifies this
      ensures IsRun(old(rows), rows, now, batchSize, others, enqueue, trail, r)
    {
      r := NO_TURN;
      trail := Trail(rows, [], [], r, r);
      var remaining := batchSize;
      ghost var start := rows;
      var frequencies := [Daily, Weekly];
      for k := 0 to 2
        invariant RunState(start, rows, now, batchSize, others, enqueue, trail, r, remaining, k)
      {
        if remaining <= 0 {
          RunEndsEarly(start, rows, now, batchSize, others, enqueue, trail, r, remaining, k);
          return;
        }
        ghost var before := rows;
        var due, turn := TakeTurn(frequencies[k], now, remaining, others, enqueue);
        RunTurn(start, before, rows, now, batchSize, others, enqueue, trail, r, remaining, k, due, turn);
        trail := AfterTurn(trail, k, rows, due, turn);
        remaining := remaining - |due|;
        r := Plus(r, turn);
      }
    }
  }

  ghost function AfterTurn(trail: Trail, k: int, rows: Table, due: seq<nat>, turn: RunResult): Trail {
    if k == 0 then trail.(mid := rows, daily := due, first := turn) else trail.(weekly := due, second := turn)
  }

  /** Where a run stands after none, one or both of the frequencies. */
  ghost predicate RunState(t: Table, rows: Table, now: int, batchSize: int, others: Interference,
      enqueue: nat -> Option<nat>,
      trail: Trail, r: RunResult, remaining: int, k: int) {
    if k == 0 then rows == t && remaining == batchSize && r == NO_TURN && trail == Trail(t, [], [], NO_TURN, NO_TURN)
    else if k == 1 then
      && IsTurn(t, trail.mid, Daily, now, batchSize, others, enqueue, trail.daily, trail.first)
      && rows == trail.mid && remaining == batchSize - trail.first.dueAssets && r == trail.first
      && trail.weekly == [] && trail.second == NO_TURN
    else IsRun(t, rows, now, batchSize, others, enqueue, trail, r)
  }

  lemma RunTurn(t: Table, before: Table, rows: Table, now: int, batchSize: int, others: Interference,
      enqueue: nat -> Option<nat>, trail: Trail, r: RunResult, remaining: int, k: int, due: seq<nat>, turn: RunResult)
    requires 0 <= k < 2 && RunState(t, before, now, batchSize, others, enqueue, trail, r, remaining, k)
    requires IsTurn(before, rows, if k == 0 then Daily else Weekly, now, remaining, others, enqueue, due, turn)
    ensures RunState(t, rows, now, batchSize, others, enqueue, AfterTurn(trail, k, rows, due, turn), Plus(r, turn),
        remaining - |due|, k + 1)
  {
    if k == 0 {
      assert IsTurn(t, rows, Daily, now, batchSize, others, enqueue, due, turn);
    } else {
      assert IsTurn(trail.mid, rows, Weekly, now, remaining, others, enqueue, due, turn);
    }
  }

  /** Leaving the loop early is a run with nothing more in it. */
  lemma RunEndsEarly(t: Table, rows: Table, now: int, batchSize: int, others: Interference, enqueue: nat -> Option<nat>,
      trail: Trail, r: RunResult, remaining: int, k: int)
    requires 0 <= k < 2 && remaining <= 0 && RunState(t, rows, now, batchSize, others, enqueue, trail, r, remaining, k)
    ensures IsRun(t, rows, now, batchSize, others, enqueue, trail, r)
  {
    EmptyTurn(rows, Daily, now, remaining, others, enqueue);
    EmptyTurn(rows, Weekly, now, remaining, others, enqueue);
  }

  /** Without any batch left a turn does nothing. */
  lemma EmptyTurn(t: Table, f: Frequency, now: int, take: int, others: Interference, enqueue: nat -> Option<nat>)
    requires !f.Off? && take <= 0
    ensures IsTurn(t, t, f, now, take, others, enqueue, [], NO_TURN)
  {
  }

  /**
   * However much the others interfere, a run claims at most what it found due, and finds at most
   * the batch. Undisturbed, it claims all it found, changes nothing but their schedule, and unless
   * the batch is used up leaves nothing due.
   */
  lemma RunStaysWithinBatch(t: Table, t': Table, now: int, batchSize: int, others: Interference,
      enqueue: nat -> Option<nat>,
      trail: Trail, r: RunResult)
    requires IsRun(t, t', now, batchSize, others, enqueue, trail, r)
    ensures r.errors <= r.claimed <= r.dueAssets <= Max(0, batchSize)
    ensures Quiet(others) ==>
      && r.claimed == r.dueAssets && OnlyDueMarked(t, t', now)
      && (r.dueAssets < batchSize ==> NoneDue(t', Daily, now) && NoneDue(t', Weekly, now))
  {
    var mid, left := trail.mid, batchSize - trail.first.dueAssets;
    TurnStaysWithin(t, mid, Daily, now, batchSize, others, enqueue, trail.daily, trail.first);
    TurnStaysWithin(mid, t', Weekly, now, left, others, enqueue, trail.weekly, trail.second);
    if Quiet(others) {
      QuietTurnMarks(t, mid, Daily, now, batchSize, others, enqueue, trail.daily, trail.first);
      QuietTurnMarks(mid, t', Weekly, now, left, others, enqueue, trail.weekly, trail.second);
      MarkedTwice(t, mid, t', now);
      QuietTurnLeaves(t, mid, Daily, now, batchSize, others, enqueue, trail.daily, trail.first, Daily);
      QuietTurnLeaves(mid, t', Weekly, now, left, others, enqueue, trail.weekly, trail.second, Daily);
      QuietTurnLeaves(mid, t', Weekly, now, left, others, enqueue, trail.weekly, trail.second, Weekly);
    }
  }

  /** The claims of a run with the steps of the others in between. */
  function EventsOf(t: Table, now: int, others: Interference, enqueue: nat -> Option<nat>, trail: Trail): seq<Event> {
    PassOver(t, trail.daily, Daily, now, others, enqueue).trace
    + PassOver(trail.mid, trail.weekly, Weekly, now, others, enqueue).trace
  }

  /** The steps of a run and of its surroundings form a run of the system, for which the spacing holds. */
  lemma RunIsSpaced(t: Table, t': Table, now: int, batchSize: int, others: Interference, enqueue: nat -> Option<nat>,
      trail: Trail, r: RunResult, id: nat)
    requires IsRun(t, t', now, batchSize, others, enqueue, trail, r)
    ensures var events := EventsOf(t, now, others, enqueue, trail);
      Run(t, events) == t' && Spaced(ClaimsOf(t, events, id), LastOf(t, id))
  {
    var first := PassOver(t, trail.daily, Daily, now, others, enqueue).trace;
    var second := PassOver(trail.mid, trail.weekly, Weekly, now, others, enqueue).trace;
    RunConcat(t, first, second);
    ClaimsAreSpaced(t, first + second, id);
  }
}
