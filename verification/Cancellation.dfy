/**
 * The per-process registry of running scans (scan-cancellation.service.ts). Each registration
 * creates an AbortController, here a ticket, and arms a timeout; the map is keyed by scan.
 */
module Cancellation {
  import opened Base

  /**
   * `entries` is the map of the service, `armed` the timers still running, `reasons` the tickets
   * already aborted, and `owners` the executions that registered and have not released yet.
   */
  datatype Registry = Registry(
    entries: map<nat, nat>, armed: set<nat>, reasons: map<nat, AbortReason>, owners: map<nat, nat>)

  const EMPTY := Registry(map[], {}, map[], map[])

  datatype Event =
    | Register(scan: nat, ticket: nat)
    | Release(owner: nat)
    | Abort(target: nat, reason: AbortReason)
    | AbortAll(reason: AbortReason)
    | TimerFires(timer: nat)

  /** AbortController.abort: the first reason stays. */
  function Aborted(reasons: map<nat, AbortReason>, ticket: nat, reason: AbortReason): map<nat, AbortReason> {
    if ticket in reasons then reasons else reasons[ticket := reason]
  }

  function Released(r: Registry, scan: nat): Registry {
    if scan in r.entries then r.(armed := r.armed - {r.entries[scan]}, entries := r.entries - {scan}) else r
  }

  function AllAborted(r: Registry, reason: AbortReason): map<nat, AbortReason> {
    r.reasons + map t | t in r.entries.Values && t !in r.reasons :: reason
  }

  function Step(r: Registry, e: Event): Registry {
    match e
    case Register(scan, t) =>
      if t in r.owners || t in r.reasons || t in r.armed || t in r.entries.Values then r
      else Registry(r.entries[scan := t], r.armed + {t}, r.reasons, r.owners[t := scan])
    case Release(t) =>
      if t in r.owners then Released(r, r.owners[t]).(owners := r.owners - {t}) else r
    case Abort(scan, reason) =>
      if scan in r.entries then r.(reasons := Aborted(r.reasons, r.entries[scan], reason)) else r
    case AbortAll(reason) => r.(reasons := AllAborted(r, reason))
    case TimerFires(t) =>
      if t in r.armed then r.(armed := r.armed - {t}, reasons := Aborted(r.reasons, t, ByTimeout)) else r
  }

  function Run(r: Registry, es: seq<Event>): Registry {
    if es == [] then r else Step(Run(r, es[..|es| - 1]), es[|es| - 1])
  }

  // ---------------------------------------------------------------- the service

  class ScanCancellation {
    var entries: map<nat, nat>
    var armed: set<nat>
    var reasons: map<nat, AbortReason>
    ghost var owners: map<nat, nat>

    ghost function View(): Registry
      reads this
    {
      Registry(entries, armed, reasons, owners)
    }

    constructor ()
      ensures View() == EMPTY
    {
      entries, armed, reasons, owners := map[], {}, map[], map[];
    }

    method Register(scan: nat, ticket: nat)
      requires ticket !in owners && ticket !in reasons && ticket !in armed && ticket !in entries.Values
      modifies this
      ensures View() == Step(old(View()), Event.Register(scan, ticket))
    {
      armed := armed + {ticket};
      entries := entries[scan := ticket];
      owners := owners[ticket := scan];
    }

    /** `owner` is the execution that calls; the service itself only sees the scan. */
    method Release(scan: nat, ghost owner: nat)
      requires owner in owners && owners[owner] == scan
      modifies this
      ensures View() == Step(old(View()), Event.Release(owner))
    {
      owners := owners - {owner};
      if scan !in entries { return; }
      armed := armed - {entries[scan]};
      entries := entries - {scan};
    }

    method Abort(scan: nat, reason: AbortReason) returns (found: bool)
      modifies this
      ensures View() == Step(old(View()), Event.Abort(scan, reason))
      ensures found <==> scan in old(entries)
      ensures found ==> entries[scan] in reasons
      ensures found && entries[scan] !in old(reasons) ==> reasons[entries[scan]] == reason
    {
      if scan !in entries { return false; }
      if entries[scan] !in reasons {
        reasons := reasons[entries[scan] := reason];
      }
      return true;
    }

    method AbortAll(reason: AbortReason) returns (ids: set<nat>)
      modifies this
      ensures View() == Step(old(View()), Event.AbortAll(reason))
      ensures ids == entries.Keys
      ensures forall scan :: scan in entries ==> entries[scan] in reasons
      ensures forall t | t in reasons && t !in old(reasons) :: reasons[t] == reason && t in entries.Values
    {
      ids := entries.Keys;
      var rest := ids;
      while rest != {}
        invariant rest <= entries.Keys
        invariant entries == old(entries) && armed == old(armed) && owners == old(owners)
        invariant forall t :: t in reasons <==>
          t in old(reasons) || exists scan :: scan in entries.Keys - rest && entries[scan] == t
        invariant forall t :: t in reasons ==> reasons[t] == if t in old(reasons) then old(reasons)[t] else reason
      {
        var scan :| scan in rest;
        rest := rest - {scan};
        var found := Abort(scan, reason);
      }
      assert reasons == AllAborted(old(View()), reason);
    }
  }

  // ---------------------------------------------------------------- abort reasons

  lemma StepKeepsReason(r: Registry, e: Event, t: nat)
    requires t in r.reasons
    ensures t in Step(r, e).reasons && Step(r, e).reasons[t] == r.reasons[t]
  {
  }

  /** The reason that `execute` reads never changes once the signal has fired. */
  lemma {:induction false} FirstReasonWins(r: Registry, es: seq<Event>, t: nat)
    requires t in r.reasons
    ensures t in Run(r, es).reasons && Run(r, es).reasons[t] == r.reasons[t]
  {
    if es != [] {
      FirstReasonWins(r, es[..|es| - 1], t);
      StepKeepsReason(Run(r, es[..|es| - 1]), es[|es| - 1], t);
    }
  }

  /** An abort reaches the execution that holds the entry, and a timeout its own, unless aborted before. */
  lemma AbortReaches(r: Registry, scan: nat, reason: AbortReason, t: nat)
    ensures scan in r.entries && r.entries[scan] !in r.reasons ==>
      Step(r, Abort(scan, reason)).reasons == r.reasons[r.entries[scan] := reason]
    ensures t in r.armed && t !in r.reasons ==> Step(r, TimerFires(t)).reasons == r.reasons[t := ByTimeout]
    ensures t in r.entries.Values && t !in r.reasons ==>
      t in Step(r, AbortAll(reason)).reasons && Step(r, AbortAll(reason)).reasons[t] == reason
  {
  }

  // ---------------------------------------------------------------- can a running scan be aborted?

  /** The execution holding `t` is the one that abort(scan) reaches, and its timeout still counts. */
  predicate Reachable(r: Registry, t: nat)
    requires t in r.owners
  {
    && r.owners[t] in r.entries && r.entries[r.owners[t]] == t
    && (t in r.armed || t in r.reasons)
  }

  ghost predicate AllReachable(r: Registry) {
    && (forall t :: t in r.owners ==> Reachable(r, t))
    && (forall scan :: scan in r.entries ==> r.entries[scan] in r.owners && r.owners[r.entries[scan]] == scan)
  }

  predicate Fresh(r: Registry, t: nat) {
    t !in r.owners && t !in r.reasons && t !in r.armed && t !in r.entries.Values
  }

  /** Registering keeps every execution abortable exactly when no other execution still holds the scan. */
  lemma RegisterKeepsReachable(r: Registry, scan: nat, t: nat)
    requires AllReachable(r) && Fresh(r, t)
    ensures AllReachable(Step(r, Register(scan, t))) <==> scan !in r.owners.Values
  {
    var r' := Step(r, Register(scan, t));
    if scan in r.owners.Values {
      var other :| other in r.owners && r.owners[other] == scan;
      assert other in r'.owners && !Reachable(r', other);
    } else {
      forall u | u in r'.owners ensures Reachable(r', u) {
        if u in r.owners { assert Reachable(r, u) && r.owners[u] in r.owners.Values; }
      }
    }
  }

  lemma OthersKeepReachable(r: Registry, e: Event)
    requires AllReachable(r) && !e.Register?
    ensures AllReachable(Step(r, e))
  {
    var r' := Step(r, e);
    forall u | u in r'.owners ensures Reachable(r', u) {
      assert Reachable(r, u);
    }
  }

  /** Event `i` registers, under a new ticket, a scan that another execution has not released yet. */
  predicate OverlapsAt(es: seq<Event>, i: nat)
    requires i < |es|
  {
    var r := Run(EMPTY, es[..i]);
    es[i].Register? && Fresh(r, es[i].ticket) && es[i].scan in r.owners.Values
  }

  predicate NeverOverlaps(es: seq<Event>) {
    forall i :: 0 <= i < |es| ==> !OverlapsAt(es, i)
  }

  lemma RunNext(es: seq<Event>, i: nat)
    requires i < |es|
    ensures Run(EMPTY, es[..i + 1]) == Step(Run(EMPTY, es[..i]), es[i])
  {
    assert es[..i + 1][..i] == es[..i];
  }

  lemma {:induction false} ReachableUpTo(es: seq<Event>, n: nat)
    requires NeverOverlaps(es) && n <= |es|
    ensures AllReachable(Run(EMPTY, es[..n]))
  {
    if n > 0 {
      var r, e := Run(EMPTY, es[..n - 1]), es[n - 1];
      ReachableUpTo(es, n - 1);
      RunNext(es, n - 1);
      assert !OverlapsAt(es, n - 1);
      if e.Register? {
        if Fresh(r, e.ticket) { RegisterKeepsReachable(r, e.scan, e.ticket); }
      } else {
        OthersKeepReachable(r, e);
      }
    }
  }

  /**
   * Every running scan can be aborted at every moment of a run, by user, timeout or shutdown,
   * exactly when no execution registers a scan that another one still holds.
   */
  lemma RunsStayReachable(es: seq<Event>)
    ensures (forall n :: 0 <= n <= |es| ==> AllReachable(Run(EMPTY, es[..n]))) <==> NeverOverlaps(es)
  {
    if NeverOverlaps(es) {
      forall n | 0 <= n <= |es| ensures AllReachable(Run(EMPTY, es[..n])) {
        ReachableUpTo(es, n);
      }
    } else {
      var i :| 0 <= i < |es| && OverlapsAt(es, i);
      RunNext(es, i);
      if AllReachable(Run(EMPTY, es[..i])) {
        RegisterKeepsReachable(Run(EMPTY, es[..i]), es[i].scan, es[i].ticket);
        assert !AllReachable(Run(EMPTY, es[..i + 1]));
      }
    }
  }

  /**
   * When a requeued scan is picked up again before its first execution has released it, that
   * release removes the new entry: the second execution has neither timeout nor abort.
   */
  lemma OverlapLosesTheSecondExecution(r: Registry, scan: nat, t: nat, u: nat)
    requires Fresh(r, t) && Fresh(r, u) && t != u && scan !in r.entries
    ensures var r' := Run(r, [Register(scan, t), Register(scan, u), Release(t)]);
      && u in r'.owners && !Reachable(r', u) && u !in r'.armed
      && (forall reason :: Step(r', Abort(scan, reason)) == r')
      && t in r'.armed
  {
    var es := [Register(scan, t), Register(scan, u), Release(t)];
    var r1 := Step(r, es[0]);
    assert es[..1][..0] == [] && es[..2][..1] == es[..1];
    assert Run(r, es[..1]) == r1;
    assert r1.entries.Values <= r.entries.Values + {t};
    assert Fresh(r1, u);
    assert Run(r, es[..2]) == Step(r1, es[1]);
  }
}
