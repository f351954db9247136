/**
 * Retries of one alert that overlap (alerts.service.ts). A retry run reads the alert's list of
 * entries, sends for one entry after the other, changing its own copy, and at last writes the whole
 * copy back if it touched any. Periodic runs and runs on demand interleave at every point.
 */
module AlertRetries {
  import opened Base
  import A = Alerts

  /** A periodic run carries the time it began; one on demand may be meant for one channel. */
  datatype Kind = Periodic(now: int) | OnDemand(channel: Option<nat>)

  /** What a run meets at one entry: whether its channel still exists, and what the notifier answers. */
  datatype Turn = Turn(active: bool, answer: A.Answer)

  /** A run under way: the list it has read, and its turns so far. */
  datatype Retrying = Retrying(kind: Kind, read: seq<A.Delivery>, turns: seq<Turn>)

  /** The stored list, the sends of each entry by deliveries that have ended, and the runs under way. */
  datatype State = State(list: seq<A.Delivery>, sent: seq<nat>, runs: map<nat, Retrying>)

  /** A run that breaks ends by an exception or with its process, without writing. */
  datatype Event =
    | Begin(id: nat, kind: Kind)
    | Take(id: nat, turn: Turn)
    | Save(id: nat)
    | Break(id: nat)

  /** What the run does to the entry, in terms of the life of one entry. */
  function Meant(kind: Kind, item: A.Delivery, turn: Turn): Option<A.Event> {
    match kind
    case Periodic(now) => Some(A.AutoRun(now, turn.active, turn.answer))
    case OnDemand(channel) =>
      if channel.None? || channel.value == item.channel then Some(A.OnDemand(turn.active, turn.answer)) else None
  }

  predicate Touches(kind: Kind, item: A.Delivery, p: A.Policy) {
    match kind
    case Periodic(now) => A.Eligible(item, now, p)
    case OnDemand(channel) => A.Targeted(item, channel)
  }

  function After(kind: Kind, item: A.Delivery, turn: Turn, p: A.Policy): A.Delivery {
    var e := Meant(kind, item, turn);
    if e.None? then item else A.Step(item, e.value, p)
  }

  function SendsOf(kind: Kind, item: A.Delivery, turn: Turn, p: A.Policy): nat {
    var e := Meant(kind, item, turn);
    if e.Some? && A.Sends(item, e.value, p) then 1 else 0
  }

  /** The run's copy of entry `i`. */
  function CopyAt(r: Retrying, i: nat, p: A.Policy): A.Delivery
    requires i < |r.read|
  {
    if i < |r.turns| then After(r.kind, r.read[i], r.turns[i], p) else r.read[i]
  }

  function Copy(r: Retrying, p: A.Policy): seq<A.Delivery> {
    seq(|r.read|, i requires 0 <= i < |r.read| => CopyAt(r, i, p))
  }

  function MadeAt(r: Retrying, i: nat, p: A.Policy): nat {
    if i < |r.read| && i < |r.turns| then SendsOf(r.kind, r.read[i], r.turns[i], p) else 0
  }

  function Counted(sent: seq<nat>, r: Retrying, p: A.Policy): seq<nat> {
    seq(|sent|, i requires 0 <= i < |sent| => sent[i] + MadeAt(r, i, p))
  }

  predicate Touched(r: Retrying, p: A.Policy) {
    exists i :: 0 <= i < |r.read| && i < |r.turns| && Touches(r.kind, r.read[i], p)
  }

  predicate Can(s: State, e: Event) {
    match e
    case Begin(id, _) => id !in s.runs
    case Take(id, _) => id in s.runs && |s.runs[id].turns| < |s.runs[id].read|
    case Save(id) => id in s.runs && |s.runs[id].turns| == |s.runs[id].read|
    case Break(id) => id in s.runs
  }

  function Step(s: State, e: Event, p: A.Policy): State {
    if !Can(s, e) then s
    else match e
      case Begin(id, kind) => s.(runs := s.runs[id := Retrying(kind, s.list, [])])
      case Take(id, turn) => s.(runs := s.runs[id := s.runs[id].(turns := s.runs[id].turns + [turn])])
      case Save(id) =>
        var r := s.runs[id];
        State(if Touched(r, p) then Copy(r, p) else s.list, Counted(s.sent, r, p), s.runs - {id})
      case Break(id) => State(s.list, Counted(s.sent, s.runs[id], p), s.runs - {id})
  }

  function Run(s: State, es: seq<Event>, p: A.Policy): State
    decreases |es|
  {
    if es == [] then s else Run(Step(s, es[0], p), es[1..], p)
  }

  // ---------------------------------------------------------------- what a step keeps

  /** Every counter is the number of sends of its entry. */
  ghost predicate Balanced(s: State) {
    |s.sent| == |s.list| && forall i :: 0 <= i < |s.list| ==> s.list[i].attempts == Some(s.sent[i])
  }

  /** Entries that were sent or skipped are as before, and have not been sent again. */
  ghost predicate SettledKept(s: State, t: State) {
    |t.list| == |s.list| && |s.sent| == |s.list| && |t.sent| == |s.list|
    && forall i :: 0 <= i < |s.list| && !s.list[i].status.Failed? ==> t.list[i] == s.list[i] && t.sent[i] == s.sent[i]
  }

  /** The run works on an outdated entry, and would undo what others stored for it, or has sent for it. */
  predicate OutdatedAt(s: State, r: Retrying, i: nat, p: A.Policy)
    requires i < |r.read| && i < |s.list|
  {
    r.read[i] != s.list[i] && (CopyAt(r, i, p) != s.list[i] || MadeAt(r, i, p) > 0)
  }

  /** A run writes back outdated entries, or breaks after it has sent. */
  predicate Overtaken(s: State, e: Event, p: A.Policy) {
    Can(s, e) && match e
      case Save(id) =>
        var r := s.runs[id];
        Touched(r, p) && exists i :: 0 <= i < |r.read| && i < |s.list| && OutdatedAt(s, r, i, p)
      case Break(id) => exists i :: 0 <= i < |s.list| && MadeAt(s.runs[id], i, p) > 0
      case _ => false
  }

  /** How the stored entry may differ from what a run has read of it. */
  predicate GoneOn(read: A.Delivery, item: A.Delivery) {
    read == item
    || (read.attempts.Some? && item.attempts.Some? && read.attempts.value <= item.attempts.value
        && (item.status.Failed? ==> read.attempts.value < item.attempts.value))
  }

  ghost predicate AllGoneOn(read: seq<A.Delivery>, list: seq<A.Delivery>) {
    |read| == |list| && forall i :: 0 <= i < |list| ==> GoneOn(read[i], list[i])
  }

  ghost predicate Inv(s: State) {
    forall id :: id in s.runs ==> AllGoneOn(s.runs[id].read, s.list)
  }

  /** A turn leaves the entry as it is, settles it, or counts one send. */
  lemma TurnOf(kind: Kind, item: A.Delivery, turn: Turn, p: A.Policy)
    requires item.attempts.Some?
    ensures var after := After(kind, item, turn, p); var n := SendsOf(kind, item, turn, p);
      && after.attempts == Some(item.attempts.value + n)
      && (!Touches(kind, item, p) || !item.status.Failed? ==> after == item && n == 0)
      && (after == item || !after.status.Failed? || n == 1)
  {
  }

  lemma SaveKeeps(s: State, e: Event, p: A.Policy, i: nat)
    requires Inv(s) && Balanced(s) && e.Save? && Can(s, e) && i < |s.list|
    ensures var t := Step(s, e, p); var r := s.runs[e.id];
      Touched(r, p) && OutdatedAt(s, r, i, p) ==>
        t.list[i].attempts != Some(t.sent[i])
        || (!s.list[i].status.Failed? && (t.list[i] != s.list[i] || t.sent[i] != s.sent[i]))
    ensures var t := Step(s, e, p); var r := s.runs[e.id];
      !(Touched(r, p) && OutdatedAt(s, r, i, p)) ==>
        && t.list[i].attempts == Some(t.sent[i])
        && (!s.list[i].status.Failed? ==> t.list[i] == s.list[i] && t.sent[i] == s.sent[i])
        && GoneOn(s.list[i], t.list[i])
  {
    var r := s.runs[e.id];
    assert GoneOn(r.read[i], s.list[i]);
    if r.read[i].attempts.Some? { TurnOf(r.kind, r.read[i], r.turns[i], p); }
  }

  lemma GoneOnFurther(a: seq<A.Delivery>, b: seq<A.Delivery>, c: seq<A.Delivery>)
    requires AllGoneOn(a, b) && AllGoneOn(b, c)
    requires forall i :: 0 <= i < |b| && !b[i].status.Failed? ==> c[i] == b[i]
    ensures AllGoneOn(a, c)
  {
  }

  lemma GoodSave(s: State, e: Event, p: A.Policy)
    requires Inv(s) && Balanced(s) && e.Save? && Can(s, e) && !Overtaken(s, e, p)
    ensures var t := Step(s, e, p); Balanced(t) && SettledKept(s, t) && AllGoneOn(s.list, t.list)
  {
    forall i | 0 <= i < |s.list|
      ensures var t := Step(s, e, p); t.list[i].attempts == Some(t.sent[i]) && GoneOn(s.list[i], t.list[i])
      ensures var t := Step(s, e, p); !s.list[i].status.Failed? ==> t.list[i] == s.list[i] && t.sent[i] == s.sent[i]
    {
      SaveKeeps(s, e, p, i);
    }
  }

  lemma BadSave(s: State, e: Event, p: A.Policy)
    requires Inv(s) && Balanced(s) && e.Save? && Overtaken(s, e, p)
    ensures !(Balanced(Step(s, e, p)) && SettledKept(s, Step(s, e, p)))
  {
    var r := s.runs[e.id];
    var i :| 0 <= i < |r.read| && i < |s.list| && OutdatedAt(s, r, i, p);
    SaveKeeps(s, e, p, i);
  }

  lemma BreakKeeps(s: State, e: Event, p: A.Policy)
    requires Inv(s) && Balanced(s) && e.Break? && Can(s, e)
    ensures Balanced(Step(s, e, p)) && SettledKept(s, Step(s, e, p)) <==> !Overtaken(s, e, p)
  {
    var t := Step(s, e, p);
    if Overtaken(s, e, p) {
      var i :| 0 <= i < |s.list| && MadeAt(s.runs[e.id], i, p) > 0;
      assert t.list[i].attempts == Some(s.sent[i]) && t.sent[i] > s.sent[i];
    }
  }

  /**
   * A step keeps every counter equal to the sends of its entry, and every sent or skipped entry
   * untouched, if and only if it does not end a run that was overtaken.
   */
  lemma StepIsFaithful(s: State, e: Event, p: A.Policy)
    requires Inv(s) && Balanced(s)
    ensures Balanced(Step(s, e, p)) && SettledKept(s, Step(s, e, p)) <==> !Overtaken(s, e, p)
  {
    if e.Save? && Can(s, e) {
      if Overtaken(s, e, p) { BadSave(s, e, p); } else { GoodSave(s, e, p); }
    } else if e.Break? && Can(s, e) {
      BreakKeeps(s, e, p);
    }
  }

  lemma StepKeepsInv(s: State, e: Event, p: A.Policy)
    requires Inv(s) && Balanced(s) && !Overtaken(s, e, p)
    ensures Inv(Step(s, e, p))
  {
    var t := Step(s, e, p);
    if e.Save? && Can(s, e) {
      GoodSave(s, e, p);
      forall id | id in t.runs ensures AllGoneOn(t.runs[id].read, t.list) {
        GoneOnFurther(s.runs[id].read, s.list, t.list);
      }
    }
  }

  // ---------------------------------------------------------------- whole runs

  /** All along, counters are sends and settled entries stay. */
  ghost predicate Faithful(s: State, es: seq<Event>, p: A.Policy)
    decreases |es|
  {
    Balanced(s) && (es != [] ==> SettledKept(s, Step(s, es[0], p)) && Faithful(Step(s, es[0], p), es[1..], p))
  }

  predicate NoneOvertaken(s: State, es: seq<Event>, p: A.Policy)
    decreases |es|
  {
    es != [] ==> !Overtaken(s, es[0], p) && NoneOvertaken(Step(s, es[0], p), es[1..], p)
  }

  /**
   * However the runs of an alert interleave: the counters are the sends and no sent or skipped entry
   * is changed or sent again, all along, if and only if no run that ends has been overtaken.
   */
  lemma {:induction false} FaithfulIffNoneOvertaken(s: State, es: seq<Event>, p: A.Policy)
    requires Inv(s) && Balanced(s)
    ensures Faithful(s, es, p) <==> NoneOvertaken(s, es, p)
    decreases |es|
  {
    if es != [] {
      var t := Step(s, es[0], p);
      StepIsFaithful(s, es[0], p);
      if Overtaken(s, es[0], p) {
        assert Faithful(t, es[1..], p) ==> Balanced(t);
      } else {
        StepKeepsInv(s, es[0], p);
        FaithfulIffNoneOvertaken(t, es[1..], p);
      }
    }
  }

  /** The list that a run writes over is the one it has read, and no run breaks after a send. */
  predicate UpToDate(s: State, e: Event, p: A.Policy) {
    Can(s, e) ==> match e
      case Save(id) => Touched(s.runs[id], p) ==> s.runs[id].read == s.list
      case Break(id) => forall i :: 0 <= i < |s.list| ==> MadeAt(s.runs[id], i, p) == 0
      case _ => true
  }

  predicate AllUpToDate(s: State, es: seq<Event>, p: A.Policy)
    decreases |es|
  {
    es != [] ==> UpToDate(s, es[0], p) && AllUpToDate(Step(s, es[0], p), es[1..], p)
  }

  /** In particular when every list written back is the one that was read. */
  lemma {:induction false} UpToDateRunsAreFaithful(s: State, es: seq<Event>, p: A.Policy)
    requires Inv(s) && Balanced(s) && AllUpToDate(s, es, p)
    ensures Faithful(s, es, p)
    decreases |es|
  {
    if es != [] {
      assert !Overtaken(s, es[0], p);
      StepIsFaithful(s, es[0], p);
      StepKeepsInv(s, es[0], p);
      UpToDateRunsAreFaithful(Step(s, es[0], p), es[1..], p);
    }
  }

  /** What one step means in the life of entry `i`. */
  function LivedAt(s: State, e: Event, i: nat, p: A.Policy): Option<A.Event> {
    if !(e.Save? && Can(s, e) && i < |s.list| && i < |s.runs[e.id].read|) then None
    else
      var r := s.runs[e.id];
      if Touched(r, p) && r.read[i] == s.list[i] then Meant(r.kind, r.read[i], r.turns[i]) else None
  }

  /** The retries of entry `i`, one after the other. */
  function Life(s: State, es: seq<Event>, i: nat, p: A.Policy): seq<A.Event>
    decreases |es|
  {
    if es == [] then []
    else
      var later := Life(Step(s, es[0], p), es[1..], i, p);
      match LivedAt(s, es[0], i, p)
      case None => later
      case Some(e) => [e] + later
  }

  predicate Lived(s: State, t: State, i: nat, lived: A.Event, p: A.Policy)
    requires i < |s.list| && i < |s.sent| && i < |t.list| && i < |t.sent|
  {
    && t.list[i] == A.Step(s.list[i], lived, p)
    && t.sent[i] == s.sent[i] + if A.Sends(s.list[i], lived, p) then 1 else 0
  }

  lemma LivesStep(s: State, e: Event, i: nat, p: A.Policy)
    requires Inv(s) && Balanced(s) && !Overtaken(s, e, p) && i < |s.list|
    ensures var t := Step(s, e, p); |t.list| == |s.list| && |t.sent| == |s.list| && match LivedAt(s, e, i, p)
      case None => t.list[i] == s.list[i] && t.sent[i] == s.sent[i]
      case Some(lived) => Lived(s, t, i, lived, p)
  {
    if e.Save? && Can(s, e) {
      var r := s.runs[e.id];
      assert AllGoneOn(r.read, s.list);
      if r.read[i].attempts.Some? { TurnOf(r.kind, r.read[i], r.turns[i], p); }
      if Touched(r, p) { assert !OutdatedAt(s, r, i, p); }
    }
  }

  /** Then each entry lives as module Alerts says, one retry after the other. */
  lemma {:induction false} EntriesLive(s: State, es: seq<Event>, i: nat, p: A.Policy)
    requires Inv(s) && Balanced(s) && NoneOvertaken(s, es, p) && i < |s.list|
    ensures var t := Run(s, es, p);
      && |t.list| == |s.list| && |t.sent| == |s.list|
      && t.list[i] == A.Run(s.list[i], Life(s, es, i, p), p)
      && t.sent[i] == s.sent[i] + |A.SendTimes(s.list[i], Life(s, es, i, p), p)|
    decreases |es|
  {
    if es != [] {
      LivesStep(s, es[0], i, p);
      StepIsFaithful(s, es[0], p);
      StepKeepsInv(s, es[0], p);
      EntriesLive(Step(s, es[0], p), es[1..], i, p);
      var lived := LivedAt(s, es[0], i, p);
      if lived.Some? {
        var life := Life(s, es, i, p);
        assert life[0] == lived.value && life[1..] == Life(Step(s, es[0], p), es[1..], i, p);
      }
    }
  }

  /** So the limit holds, plus one for each retry on demand. */
  lemma RetriesWithinLimit(s: State, es: seq<Event>, i: nat, p: A.Policy)
    requires Inv(s) && Balanced(s) && NoneOvertaken(s, es, p) && i < |s.list|
    ensures var t := Run(s, es, p);
      && i < |t.list| && i < |t.sent| && t.list[i].attempts == Some(t.sent[i])
      && t.sent[i] <= Max(s.sent[i], p.maxRetries) + A.Demands(Life(s, es, i, p))
  {
    EntriesLive(s, es, i, p);
    A.AttemptsAreSends(s.list[i], Life(s, es, i, p), p);
    A.AutomaticStaysWithinLimit(s.list[i], Life(s, es, i, p), p);
  }

  // ---------------------------------------------------------------- a sent entry is sent again

  /** A user's retry, from its read of the list to its write. */
  function Demand(answer: A.Answer): seq<Event> {
    [Begin(1, OnDemand(None)), Take(1, Turn(true, answer)), Save(1)]
  }

  lemma RunOne(s: State, e: Event, es: seq<Event>, p: A.Policy)
    ensures Run(s, [e] + es, p) == Run(Step(s, e, p), es, p)
  {
    assert ([e] + es)[1..] == es;
  }

  lemma DemandRuns(item: A.Delivery, sent: nat, r: Retrying, es: seq<Event>, first: A.Answer, p: A.Policy)
    requires item.status.Failed? && item.attempts.Some?
    ensures var s := State([item], [sent], map[0 := r]);
      Run(s, Demand(first) + es, p)
        == Run(State([A.Manual(item, p, true, first)], [sent + 1], map[0 := r]), es, p)
  {
    var s, turn := State([item], [sent], map[0 := r]), Turn(true, first);
    var e0, e1, e2 := Begin(1, OnDemand(None)), Take(1, turn), Save(1);
    assert Demand(first) + es == [e0] + ([e1] + ([e2] + es));
    RunOne(s, e0, [e1] + ([e2] + es), p);
    var s1 := Step(s, e0, p);
    RunOne(s1, e1, [e2] + es, p);
    var s2 := Step(s1, e1, p);
    RunOne(s2, e2, es, p);
    var s3 := Step(s2, e2, p);
    var t := s2.runs[1];
    assert t == Retrying(OnDemand(None), [item], [] + [turn]) && Touches(t.kind, t.read[0], p);
    assert Copy(t, p) == [A.Manual(item, p, true, first)] && Counted([sent], t, p) == [sent + 1];
    assert s3.runs == map[0 := r];
  }

  /**
   * A periodic run has read the list when a user's retry of the same alert succeeds. The periodic
   * run sends the entry again and stores it as FAILED, one send short.
   */
  lemma SentAgain(item: A.Delivery, now: int, first: A.Answer, second: A.Answer, p: A.Policy)
    requires A.Eligible(item, now, p) && item.attempts.Some? && first.status.Sent? && !second.status.Sent?
    ensures var s := State([item], [item.attempts.value], map[]); var n := item.attempts.value;
      var middle := Run(s, [Begin(0, Periodic(now))] + Demand(first), p);
      var end := Run(s, [Begin(0, Periodic(now))] + (Demand(first) + [Take(0, Turn(true, second)), Save(0)]), p);
      && |middle.list| == 1 && middle.list[0].status.Sent? && middle.sent == [n + 1]
      && |end.list| == 1 && end.list[0].status.Failed? && end.list[0].attempts == Some(n + 1) && end.sent == [n + 2]
  {
    var n, turn := item.attempts.value, Turn(true, second);
    var s := State([item], [n], map[]);
    var r := Retrying(Periodic(now), [item], []);
    var s1 := Step(s, Begin(0, Periodic(now)), p);
    assert s1 == State([item], [n], map[0 := r]);
    RunOne(s, Begin(0, Periodic(now)), Demand(first), p);
    assert Demand(first) + [] == Demand(first);
    DemandRuns(item, n, r, [], first, p);
    var es := [Take(0, turn), Save(0)];
    RunOne(s, Begin(0, Periodic(now)), Demand(first) + es, p);
    DemandRuns(item, n, r, es, first, p);
    var s2 := State([A.Manual(item, p, true, first)], [n + 1], map[0 := r]);
    assert es == [Take(0, turn)] + [Save(0)] && [Save(0)] == [Save(0)] + [];
    RunOne(s2, Take(0, turn), [Save(0)], p);
    var s3 := Step(s2, Take(0, turn), p);
    RunOne(s3, Save(0), [], p);
    var t := s3.runs[0];
    assert t == Retrying(Periodic(now), [item], [] + [turn]) && Touches(t.kind, t.read[0], p);
    assert Copy(t, p) == [A.Auto(item, now, p, true, second)];
  }
}
