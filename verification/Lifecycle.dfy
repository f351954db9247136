/**
 * The life of a finding: perimeter syncs and cloud audits mixed with reviews and retests
 * (findings.service.ts, review, retest and computeSla). A review or a retest reads the row
 * first and writes it in a later transaction, so the status it read may be out of date.
 */
module Lifecycle {
  import opened Base
  import opened Findings
  import opened CloudAudit

  /** What a user may change: `due` is absent, cleared or set. */
  datatype ReviewDto = ReviewDto(status: Option<Status>, due: Option<Option<int>>)

  /** The statuses the request validation lets a user set. */
  predicate Reviewable(dto: ReviewDto) {
    dto.status.Some? ==> !dto.status.value.Resolved?
  }

  /** `read` is the status the request saw before its transaction. */
  datatype Event =
    | Sync(scan: SyncInput, at: int)
    | Audit(audit: AuditInput, at: int)
    | Review(key: Key, read: Status, dto: ReviewDto)
    | Retest(key: Key, read: Status, reproducible: bool, at: int)

  function Reviewed(f: Finding, read: Status, dto: ReviewDto): Finding {
    f.(status := dto.status.GetOr(f.status),
       resolvedAt := if dto.status.Some? && read.Resolved? then None else f.resolvedAt,
       dueDate := dto.due.GetOr(f.dueDate))
  }

  function Retested(f: Finding, read: Status, reproducible: bool, at: int): Finding {
    if !reproducible then f.(status := Resolved, resolvedAt := Some(at), lastSeen := at)
    else if read.Resolved? then f.(status := Open, resolvedAt := None, lastSeen := at)
    else f.(lastSeen := at)
  }

  /** A sync with an unknown rule and an update of a missing row throw, and change nothing. */
  function Step(cat: Catalog, t: Table, e: Event): Table {
    match e
    case Sync(scan, at) => if AllKnown(cat, scan.drafts) then Reconciled(scan, cat, t, at) else t
    case Audit(audit, at) => Audited(audit, cat, t, at)
    case Review(key, read, dto) => if key in t then t[key := Reviewed(t[key], read, dto)] else t
    case Retest(key, read, reproducible, at) => if key in t then t[key := Retested(t[key], read, reproducible, at)]
        else t
  }

  function Run(cat: Catalog, t: Table, events: seq<Event>): Table
    decreases |events|
  {
    if events == [] then t else Run(cat, Step(cat, t, events[0]), events[1..])
  }

  // ---------------------------------------------------------------- resolvedAt and RESOLVED

  /** A resolution date is only found on RESOLVED rows. */
  ghost predicate DatedOnlyIfResolved(t: Table) {
    forall k :: k in t && t[k].resolvedAt.Some? ==> t[k].status.Resolved?
  }

  /** Every RESOLVED row has a resolution date. */
  ghost predicate ResolvedIsDated(t: Table) {
    forall k :: k in t && t[k].status.Resolved? ==> t[k].resolvedAt.Some?
  }

  /** A review that read the row before somebody else resolved it: it reopens the row and leaves the date. */
  predicate Clashes(t: Table, e: Event) {
    && e.Review? && e.key in t && t[e.key].resolvedAt.Some?
    && e.dto.status.Some? && !e.dto.status.value.Resolved? && !e.read.Resolved?
  }

  /** A review that sets RESOLVED by hand on a row that ends up without a date. */
  predicate ResolvesByHand(t: Table, e: Event) {
    && e.Review? && e.key in t && e.dto.status == Some(Resolved)
    && (e.read.Resolved? || t[e.key].resolvedAt.None?)
  }

  lemma StepDatedOnlyIfResolved(cat: Catalog, t: Table, e: Event)
    requires DatedOnlyIfResolved(t)
    ensures DatedOnlyIfResolved(Step(cat, t, e)) <==> !Clashes(t, e)
  {
    var t' := Step(cat, t, e);
    if Clashes(t, e) {
      assert t'[e.key] == Reviewed(t[e.key], e.read, e.dto);
    }
  }

  lemma StepResolvedIsDated(cat: Catalog, t: Table, e: Event)
    requires ResolvedIsDated(t)
    ensures ResolvedIsDated(Step(cat, t, e)) <==> !ResolvesByHand(t, e)
  {
    var t' := Step(cat, t, e);
    if ResolvesByHand(t, e) {
      assert t'[e.key] == Reviewed(t[e.key], e.read, e.dto);
    }
  }

  predicate NoneClash(cat: Catalog, t: Table, events: seq<Event>)
    decreases |events|
  {
    events != [] ==> !Clashes(t, events[0]) && NoneClash(cat, Step(cat, t, events[0]), events[1..])
  }

  lemma RunOfPrefix(cat: Catalog, t: Table, events: seq<Event>, n: nat)
    requires 0 < n <= |events|
    ensures Run(cat, t, events[..n]) == Run(cat, Step(cat, t, events[0]), events[1..][..n - 1])
  {
    assert events[..n][1..] == events[1..][..n - 1];
  }

  /** Over a whole run, resolution dates stay on RESOLVED rows all along exactly when no review clashes. */
  lemma {:induction false} DatesStayOnResolvedRows(cat: Catalog, t: Table, events: seq<Event>)
    requires DatedOnlyIfResolved(t)
    ensures (forall n :: 0 <= n <= |events| ==> DatedOnlyIfResolved(Run(cat, t, events[..n]))) <==>
        NoneClash(cat, t, events)
    decreases |events|
  {
    if events != [] {
      var t' := Step(cat, t, events[0]);
      StepDatedOnlyIfResolved(cat, t, events[0]);
      forall n | 0 < n <= |events| ensures Run(cat, t, events[..n]) == Run(cat, t', events[1..][..n - 1]) {
        RunOfPrefix(cat, t, events, n);
      }
      if Clashes(t, events[0]) {
        assert events[..1] == [events[0]];
        assert Run(cat, t, events[..1]) == t';
      } else {
        DatesStayOnResolvedRows(cat, t', events[1..]);
        if NoneClash(cat, t, events) {
          forall n | 0 <= n <= |events| ensures DatedOnlyIfResolved(Run(cat, t, events[..n])) {
            if n > 0 { assert Run(cat, t, events[..n]) == Run(cat, t', events[1..][..n - 1]); }
          }
        } else {
          var m :| 0 <= m <= |events[1..]| && !DatedOnlyIfResolved(Run(cat, t', events[1..][..m]));
          assert Run(cat, t, events[..m + 1]) == Run(cat, t', events[1..][..m + 1 - 1]);
        }
      }
    }
  }

  /**
   * The lifecycle invariant: when no review clashes and users set only the statuses the validation
   * allows, a row has a resolution date if and only if it is RESOLVED, after any run of syncs,
   * audits, reviews and retests. Retests may act on outdated reads.
   */
  lemma {:induction false} ResolvedMeansDated(cat: Catalog, t: Table, events: seq<Event>)
    requires DatedOnlyIfResolved(t) && ResolvedIsDated(t)
    requires NoneClash(cat, t, events)
    requires forall i :: 0 <= i < |events| && events[i].Review? ==> Reviewable(events[i].dto)
    ensures DatedOnlyIfResolved(Run(cat, t, events)) && ResolvedIsDated(Run(cat, t, events))
    decreases |events|
  {
    if events != [] {
      StepDatedOnlyIfResolved(cat, t, events[0]);
      StepResolvedIsDated(cat, t, events[0]);
      ResolvedMeansDated(cat, Step(cat, t, events[0]), events[1..]);
    }
  }

  /**
   * The clash happens: a user opens a finding for review, a retest resolves it meanwhile, and the
   * review then marks it IN_PROGRESS. The row keeps the resolution date.
   */
  lemma ReviewCanLeaveADate(cat: Catalog, k: Key, f: Finding)
    requires f.status.Open? && f.resolvedAt.None?
    ensures var events := [Retest(k, Open, false, 7), Review(k, Open, ReviewDto(Some(InProgress), None))];
      var t := Run(cat, map[k := f], events);
      DatedOnlyIfResolved(map[k := f]) && k in t && t[k].status.InProgress? && t[k].resolvedAt == Some(7)
  {
    var t0 := map[k := f];
    var e0, e1 := Retest(k, Open, false, 7), Review(k, Open, ReviewDto(Some(InProgress), None));
    assert [e0, e1][1..] == [e1] && [e1][1..] == [];
    assert Run(cat, t0, [e0, e1]) == Run(cat, Step(cat, Step(cat, t0, e0), e1), []);
  }

  // ---------------------------------------------------------------- what the events keep

  /** The events that overturn a user's ACCEPTED or FALSE_POSITIVE on row `k`. */
  predicate Overturns(t: Table, e: Event, k: Key)
    requires k in t
  {
    match e
    case Sync(_, _) => false
    case Audit(_, _) => false
    case Review(key, _, dto) => key == k && dto.status.Some? && dto.status.value != t[k].status
    case Retest(key, read, reproducible, _) => key == k && (!reproducible || read.Resolved?)
  }

  /**
   * A decision survives a step exactly when the step is not a contrary review, a retest that
   * finds nothing, or a retest that read the row as RESOLVED before the decision was taken.
   */
  lemma DecisionSurvives(cat: Catalog, t: Table, e: Event, k: Key)
    requires k in t && (t[k].status.Accepted? || t[k].status.FalsePositive?)
    ensures k in Step(cat, t, e) && (Step(cat, t, e)[k].status == t[k].status <==> !Overturns(t, e, k))
  {
    match e {
      case Sync(scan, at) => if AllKnown(cat, scan.drafts) { DecisionsAndOtherAssetsStay(scan, cat, t, at, k); }
      case Audit(audit, at) => AuditKeepsDueDates(audit, cat, t, at, k);
      case Review(_, _, _) =>
      case Retest(_, _, _, _) =>
    }
  }

  predicate SetsDue(e: Event, k: Key) {
    e.Review? && e.key == k && e.dto.due.Some?
  }

  lemma StepKeepsRow(cat: Catalog, t: Table, e: Event, k: Key)
    requires k in t
    ensures k in Step(cat, t, e)
    ensures Step(cat, t, e)[k].firstSeen == t[k].firstSeen && Step(cat, t, e)[k].org == t[k].org
    ensures t[k].dueDate.Some? && !SetsDue(e, k) ==> Step(cat, t, e)[k].dueDate == t[k].dueDate
  {
    match e {
      case Sync(scan, at) => if AllKnown(cat, scan.drafts) { DecisionsAndOtherAssetsStay(scan, cat, t, at, k); }
      case Audit(audit, at) => AuditKeepsDueDates(audit, cat, t, at, k);
      case Review(_, _, _) =>
      case Retest(_, _, _, _) =>
    }
  }

  /**
   * Over any run no row disappears, moves to another organization or loses its first sighting,
   * and a due date that is set moves only if a user moves it.
   */
  lemma {:induction false} DueDatesStay(cat: Catalog, t: Table, events: seq<Event>, k: Key)
    requires k in t
    ensures k in Run(cat, t, events)
    ensures Run(cat, t, events)[k].firstSeen == t[k].firstSeen && Run(cat, t, events)[k].org == t[k].org
    ensures t[k].dueDate.Some? && (forall i :: 0 <= i < |events| ==> !SetsDue(events[i], k)) ==>
      Run(cat, t, events)[k].dueDate == t[k].dueDate
    decreases |events|
  {
    if events != [] {
      StepKeepsRow(cat, t, events[0], k);
      DueDatesStay(cat, Step(cat, t, events[0]), events[1..], k);
    }
  }

  // ---------------------------------------------------------------- the two requests in place

  class FindingDesk {
    var rows: Table

    constructor ()
      ensures rows == map[]
    {
      rows := map[];
    }

    /** The row as the request reads it; other organizations' findings do not exist for it. */
    method FindOne(org: nat, k: Key) returns (r: Result<Finding>)
      ensures r.Ok? <==> k in rows && rows[k].org == org
      ensures r.Ok? ==> r.value == rows[k]
    {
      if k in rows && rows[k].org == org {
        return Ok(rows[k]);
      }
      r := Err("finding not found");
    }

    /**
     * The review's check of the assignee and its transaction. `member` says that the assignee, if
     * one is given, belongs to the organization; `snapshot` that the score is taken again.
     */
    method Review(k: Key, existing: Finding, dto: ReviewDto, member: bool, ghost cat: Catalog)
        returns (r: Result<Finding>, snapshot: bool)
      modifies this
      ensures r.Ok? <==> member && k in old(rows)
      ensures r.Ok? ==> rows == Step(cat, old(rows), Event.Review(k, existing.status, dto)) && r.value == rows[k]
      ensures r.Ok? ==> (snapshot <==> dto.status.Some? && rows[k].status != existing.status)
      ensures r.Ok? && existing == old(rows)[k] ==> (snapshot <==> rows[k].status != old(rows)[k].status)
      ensures r.Err? ==> rows == old(rows) && !snapshot
      ensures r.Ok? ==>
        rows == old(rows)[k := old(rows)[k].(
          status := if dto.status.Some? then dto.status.value else old(rows)[k].status,
          dueDate := if dto.due.Some? then dto.due.value else old(rows)[k].dueDate,
          resolvedAt := if dto.status.Some? && existing.status == Resolved then None else old(rows)[k].resolvedAt)]
    {
      if !member {
        return Err("the assigned user does not belong to the organization"), false;
      }
      if k !in rows {
        return Err("record to update not found"), false;
      }
      var f := rows[k];
      if dto.status.Some? {
        f := f.(status := dto.status.value);
        if existing.status == Resolved {
          f := f.(resolvedAt := None);
        }
      }
      if dto.due.Some? {
        f := f.(dueDate := dto.due.value);
      }
      rows := rows[k := f];
      snapshot := dto.status.Some? && existing.status != dto.status.value;
      r := Ok(f);
    }

    /** The retest's transaction, after the probe has answered. */
    method Retest(k: Key, existing: Finding, stillReproducible: bool, now: int,
        ghost cat: Catalog) returns (r: Result<Finding>, snapshot: bool)
      modifies this
      ensures rows == Step(cat, old(rows), Event.Retest(k, existing.status, stillReproducible, now))
      ensures r.Ok? <==> k in old(rows)
      ensures r.Ok? ==> r.value == rows[k]
      ensures r.Ok? && existing == old(rows)[k] ==> (snapshot <==> rows[k].status != old(rows)[k].status)
      ensures r.Ok? ==> (snapshot <==> rows[k].status != existing.status)
      ensures r.Err? ==> !snapshot && rows == old(rows)
      ensures r.Ok? ==>
        rows == old(rows)[k := (if !stillReproducible then
           old(rows)[k].(lastSeen := now, status := Resolved, resolvedAt := Some(now))
         else if existing.status == Resolved then old(rows)[k].(lastSeen := now, status := Open, resolvedAt := None)
         else old(rows)[k].(lastSeen := now))]
    {
      if k !in rows {
        return Err("record to update not found"), false;
      }
      var f := rows[k].(lastSeen := now);
      if !stillReproducible {
        f := f.(status := Resolved, resolvedAt := Some(now));
      } else if existing.status == Resolved {
        f := f.(status := Open, resolvedAt := None);
      }
      rows := rows[k := f];
      snapshot := existing.status != f.status;
      r := Ok(f);
    }
  }

  // ---------------------------------------------------------------- service level of a finding

  datatype Sla = Closed | NoSla | Overdue(hours: int, days: int) | Approaching(hours: int)
      | OnTrack(hours: int, days: int)

  function ComputeSla(due: Option<int>, status: Status, now: int): Sla {
    if status.Resolved? || status.Accepted? || status.FalsePositive? then Closed
    else if due.None? then NoSla
    else
      var hours := Rounded(due.value - now, HOUR_MS);
      if hours < 0 then Overdue(hours, Max(1, CeilDiv(-hours, 24)))
      else if hours <= 48 then Approaching(hours)
      else OnTrack(hours, Max(1, CeilDiv(hours, 24)))
  }

  /**
   * In exact time: an active finding counts as overdue only once its due date is more than half an
   * hour past, and as approaching from 48.5 hours before it. The day counts are whole days rounded up.
   */
  lemma SlaByDistance(due: int, status: Status, now: int)
    requires Active(status)
    ensures var sla := ComputeSla(Some(due), status, now);
      && (sla.Overdue? <==> 2 * (now - due) > HOUR_MS)
      && (sla.OnTrack? <==> 2 * (due - now) >= 97 * HOUR_MS)
      && (sla.Approaching? <==> -HOUR_MS <= 2 * (due - now) < 97 * HOUR_MS)
      && (sla.Overdue? ==> 24 * (sla.days - 1) < -sla.hours <= 24 * sla.days)
      && (sla.OnTrack? ==> 24 * (sla.days - 1) < sla.hours <= 24 * sla.days && sla.days >= 3)
  {
  }

  /** Settled findings have no deadline any more, and active ones without a due date have none yet. */
  lemma SlaOfOthers(due: Option<int>, status: Status, now: int)
    ensures ComputeSla(due, status, now) == Closed <==> status in {Resolved, Accepted, FalsePositive}
    ensures ComputeSla(due, status, now) == NoSla <==> status in {Open, InProgress, Verifying} && due == None
  {
  }

  function Urgency(sla: Sla): int {
    match sla
    case Overdue(_, _) => 2
    case Approaching(_) => 1
    case OnTrack(_, _) => 0
    case Closed => -1
    case NoSla => -1
  }

  /** As time passes an active finding only becomes more urgent. */
  lemma SlaOnlyWorsens(due: int, status: Status, now: int, later: int)
    requires Active(status) && now <= later
    ensures Urgency(ComputeSla(Some(due), status, now)) <= Urgency(ComputeSla(Some(due), status, later))
  {
    SlaByDistance(due, status, now);
    SlaByDistance(due, status, later);
  }
}
