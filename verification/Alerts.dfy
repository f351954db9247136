/**
 * Delivery of alerts (alerts.service.ts): first attempt, automatic retries with exponential
 * backoff, and retries on demand. A delivery is an entry of the alert's list, updated in place.
 * The life of an entry is told here for retries that come one after the other; AlertRetries says
 * what becomes of it when retry runs of an alert overlap.
 */
module Alerts {
  import opened Base

  datatype Status = Sent | Failed | Skipped

  /** What the notifier answers. */
  datatype Answer = Answer(status: Status, at: int)

  datatype Delivery = Delivery(channel: nat, status: Status, attempts: Option<nat>, lastAttemptAt: Option<int>,
      nextRetryAt: Option<int>)

  datatype Policy = Policy(maxRetries: nat, baseMs: nat)

  function Pow2(n: nat): (p: nat)
    ensures p >= 1
  {
    if n == 0 then 1 else 2 * Pow2(n - 1)
  }

  function CalculateNextRetry(attempts: nat, p: Policy, now: int): Option<int>
    requires attempts >= 1
  {
    if attempts >= p.maxRetries then None else Some(now + p.baseMs * Pow2(attempts - 1))
  }

  /** The entry the first delivery writes. */
  function First(channel: nat, answer: Answer, p: Policy): Delivery {
    Delivery(channel, answer.status, Some(1), Some(answer.at),
             if answer.status.Failed? then CalculateNextRetry(1, p, answer.at) else None)
  }

  /** An entry after one more send; anything but SENT counts as FAILED. */
  function Resent(item: Delivery, attempts: nat, answer: Answer, p: Policy): Delivery
    requires attempts >= 1
  {
    item.(attempts := Some(attempts), lastAttemptAt := Some(answer.at),
          status := if answer.status.Sent? then Sent else Failed,
          nextRetryAt := if answer.status.Sent? then None else CalculateNextRetry(attempts, p, answer.at))
  }

  function Dropped(item: Delivery): Delivery {
    item.(status := Skipped, nextRetryAt := None)
  }

  /** The automatic run considers the entry. */
  predicate Eligible(item: Delivery, now: int, p: Policy) {
    && item.status.Failed? && item.attempts.GetOr(1) < p.maxRetries
    && (item.nextRetryAt.None? || item.nextRetryAt.value <= now)
  }

  /** The automatic retry of one entry; `active` tells whether its channel still exists. */
  function Auto(item: Delivery, now: int, p: Policy, active: bool, answer: Answer): Delivery {
    if !Eligible(item, now, p) then item
    else if !active then Dropped(item)
    else Resent(item, item.attempts.GetOr(1) + 1, answer, p)
  }

  /** The retry on demand of one entry: no limit and no waiting time. */
  function Manual(item: Delivery, p: Policy, active: bool, answer: Answer): Delivery {
    if !item.status.Failed? then item
    else if !active then Dropped(item)
    else Resent(item, item.attempts.GetOr(0) + 1, answer, p)
  }

  /**
   * An entry after its `attempts`-th send: SENT for good, or FAILED and to be tried again after
   * 2^(attempts - 1) base times, or never when the attempts are used up.
   */
  predicate SentAs(item: Delivery, after: Delivery, attempts: nat, answer: Answer, p: Policy)
    requires attempts >= 1
  {
    && after.channel == item.channel && after.attempts == Some(attempts) && after.lastAttemptAt == Some(answer.at)
    && if answer.status == Sent then after.status == Sent && after.nextRetryAt == None
       else
         && after.status == Failed
         && if attempts < p.maxRetries then after.nextRetryAt == Some(answer.at + p.baseMs * Pow2(attempts - 1))
            else after.nextRetryAt == None
  }

  /** The channel of the entry is gone. */
  predicate SkippedAs(item: Delivery, after: Delivery) {
    && after.status == Skipped && after.nextRetryAt == None && after.channel == item.channel
    && after.attempts == item.attempts && after.lastAttemptAt == item.lastAttemptAt
  }

  /** FAILED, with attempts left, and its time has come. */
  predicate IsDue(item: Delivery, now: int, p: Policy) {
    && item.status == Failed
    && (match item.attempts case Some(n) => n < p.maxRetries case None => 1 < p.maxRetries)
    && (match item.nextRetryAt case Some(at) => at <= now case None => true)
  }

  /** The automatic retry of one entry: sent if it is due and its channel exists, skipped if it is due and has none. */
  predicate AutomaticallyAs(item: Delivery, after: Delivery, now: int, p: Policy, active: bool, answer: Answer) {
    if !IsDue(item, now, p) then after == item
    else if !active then SkippedAs(item, after)
    else SentAs(item, after, match item.attempts case Some(n) => n + 1 case None => 2, answer, p)
  }

  /** The retry on demand: the same for every FAILED entry, due or not. */
  predicate OnDemandAs(item: Delivery, after: Delivery, p: Policy, active: bool, answer: Answer) {
    if item.status != Failed then after == item
    else if !active then SkippedAs(item, after)
    else SentAs(item, after, match item.attempts case Some(n) => n + 1 case None => 1, answer, p)
  }

  lemma RetriesAre(item: Delivery, now: int, p: Policy, active: bool, answer: Answer)
    ensures AutomaticallyAs(item, Auto(item, now, p, active, answer), now, p, active, answer)
    ensures OnDemandAs(item, Manual(item, p, active, answer), p, active, answer)
  {
  }

  // ---------------------------------------------------------------- the life of one entry

  datatype Event =
    | AutoRun(now: int, active: bool, answer: Answer)
    | OnDemand(active: bool, answer: Answer)

  function Step(item: Delivery, e: Event, p: Policy): Delivery {
    match e
    case AutoRun(now, active, answer) => Auto(item, now, p, active, answer)
    case OnDemand(active, answer) => Manual(item, p, active, answer)
  }

  predicate Sends(item: Delivery, e: Event, p: Policy) {
    e.active && match e
      case AutoRun(now, _, _) => Eligible(item, now, p)
      case OnDemand(_, _) => item.status.Failed?
  }

  function Run(item: Delivery, events: seq<Event>, p: Policy): Delivery
    decreases |events|
  {
    if events == [] then item else Run(Step(item, events[0], p), events[1..], p)
  }

  /** When the entry was sent again. */
  function SendTimes(item: Delivery, events: seq<Event>, p: Policy): seq<int>
    decreases |events|
  {
    if events == [] then []
    else
      var later := SendTimes(Step(item, events[0], p), events[1..], p);
      if Sends(item, events[0], p) then [events[0].answer.at] + later else later
  }

  function Demands(events: seq<Event>): nat {
    if events == [] then 0 else (if events[0].OnDemand? then 1 else 0) + Demands(events[1..])
  }

  /** Retries one after the other: a delivery that was sent or skipped is never touched again, not even on demand. */
  lemma {:induction false} SettledForever(item: Delivery, events: seq<Event>, p: Policy)
    requires !item.status.Failed?
    ensures Run(item, events, p) == item && SendTimes(item, events, p) == []
    decreases |events|
  {
    if events != [] { SettledForever(item, events[1..], p); }
  }

  /** Retries one after the other: the attempts counter is the number of sends. */
  lemma {:induction false} AttemptsAreSends(item: Delivery, events: seq<Event>, p: Policy)
    requires item.attempts.Some?
    ensures Run(item, events, p).attempts == Some(item.attempts.value + |SendTimes(item, events, p)|)
    decreases |events|
  {
    if events != [] { AttemptsAreSends(Step(item, events[0], p), events[1..], p); }
  }

  /** Automatic retries never push an entry past the limit; only retries on demand can, one each. */
  lemma {:induction false} AutomaticStaysWithinLimit(item: Delivery, events: seq<Event>, p: Policy)
    requires item.attempts.Some?
    ensures item.attempts.value + |SendTimes(item, events, p)| <= Max(item.attempts.value, p.maxRetries)
        + Demands(events)
    decreases |events|
  {
    if events != [] { AutomaticStaysWithinLimit(Step(item, events[0], p), events[1..], p); }
  }

  /** Once the attempts are used up, automatic runs leave the entry alone, whatever is retried on demand in between. */
  lemma {:induction false} ExhaustedStaysExhausted(item: Delivery, events: seq<Event>, p: Policy, last: Event)
    requires item.attempts.Some? && item.attempts.value >= p.maxRetries && last.AutoRun?
    ensures !Sends(Run(item, events, p), last, p) && Step(Run(item, events, p), last, p) == Run(item, events, p)
    decreases |events|
  {
    if events != [] { ExhaustedStaysExhausted(Step(item, events[0], p), events[1..], p, last); }
  }

  predicate Truthful(e: Event) {
    e.AutoRun? ==> e.now <= e.answer.at
  }

  /** `attempts` sends are behind, the last one failed, and the next may not happen before its time on the ladder. */
  predicate OnLadder(item: Delivery, p: Policy, first: int) {
    && item.attempts.Some? && item.attempts.value >= 1
    && (item.status.Failed? && item.attempts.value < p.maxRetries ==>
          item.nextRetryAt.Some? && item.nextRetryAt.value >= first + p.baseMs * (Pow2(item.attempts.value) - 1))
  }

  lemma LadderStep(item: Delivery, e: Event, p: Policy, first: int)
    requires OnLadder(item, p, first) && e.AutoRun? && Truthful(e) && Sends(item, e, p)
    ensures e.answer.at >= first + p.baseMs * (Pow2(item.attempts.value) - 1)
    ensures OnLadder(Step(item, e, p), p, first)
  {
    var n := item.attempts.value;
    var climbed, rung := p.baseMs * (Pow2(n) - 1), p.baseMs * Pow2(n);
    assert p.baseMs * (Pow2(n + 1) - 1) == climbed + rung;
  }

  /**
   * Exponential backoff: without retries on demand, the n-th attempt comes at least
   * base * (2^(n-1) - 1) after the first.
   */
  lemma {:induction false} BackoffLadder(item: Delivery, events: seq<Event>, p: Policy, first: int, k: nat)
    requires OnLadder(item, p, first)
    requires forall i :: 0 <= i < |events| ==> events[i].AutoRun? && Truthful(events[i])
    requires k < |SendTimes(item, events, p)|
    ensures SendTimes(item, events, p)[k] >= first + p.baseMs * (Pow2(item.attempts.value + k) - 1)
    decreases |events|
  {
    var next, rest := Step(item, events[0], p), events[1..];
    if Sends(item, events[0], p) {
      LadderStep(item, events[0], p, first);
      if k > 0 { BackoffLadder(next, rest, p, first, k - 1); }
    } else {
      BackoffLadder(next, rest, p, first, k);
    }
  }

  lemma FirstIsOnLadder(channel: nat, answer: Answer, p: Policy)
    ensures OnLadder(First(channel, answer, p), p, answer.at)
  {
    assert Pow2(1) == 2 * Pow2(0) == 2;
  }

  /** The whole promise, from the first delivery on. */
  lemma AutomaticDelivery(channel: nat, answer: Answer, events: seq<Event>, p: Policy)
    requires forall i :: 0 <= i < |events| ==> events[i].AutoRun? && Truthful(events[i])
    ensures var item := First(channel, answer, p); var times := SendTimes(item, events, p);
      && Run(item, events, p).attempts == Some(1 + |times|) && 1 + |times| <= Max(1, p.maxRetries)
      && forall k :: 0 <= k < |times| ==> times[k] >= answer.at + p.baseMs * (Pow2(1 + k) - 1)
  {
    var item := First(channel, answer, p);
    AttemptsAreSends(item, events, p);
    AutomaticStaysWithinLimit(item, events, p);
    NoDemands(events);
    FirstIsOnLadder(channel, answer, p);
    forall k | 0 <= k < |SendTimes(item, events, p)|
      ensures SendTimes(item, events, p)[k] >= answer.at + p.baseMs * (Pow2(1 + k) - 1)
    {
      BackoffLadder(item, events, p, answer.at, k);
    }
  }

  lemma {:induction false} NoDemands(events: seq<Event>)
    requires forall i :: 0 <= i < |events| ==> events[i].AutoRun?
    ensures Demands(events) == 0
  {
    if events != [] { NoDemands(events[1..]); }
  }

  function Repeat(e: Event, n: nat): seq<Event> {
    seq(n, _ => e)
  }

  /** On demand there is no limit: n failing retries leave n more attempts, for every n. */
  lemma {:induction false} DemandHasNoLimit(item: Delivery, n: nat, at: int, p: Policy)
    requires item.status.Failed? && item.attempts.Some?
    ensures Run(item, Repeat(OnDemand(true, Answer(Failed, at)), n), p).attempts == Some(item.attempts.value + n)
    decreases n
  {
    var e := OnDemand(true, Answer(Failed, at));
    if n > 0 {
      assert Repeat(e, n)[1..] == Repeat(e, n - 1);
      DemandHasNoLimit(Step(item, e, p), n - 1, at, p);
    }
  }

  /** An old entry without a counter stands for one attempt in automatic runs, and for none on demand. */
  lemma OldEntriesCountDifferently(item: Delivery, now: int, p: Policy, answer: Answer)
    requires item.attempts.None? && Eligible(item, now, p)
    ensures Auto(item, now, p, true, answer).attempts == Some(2)
    ensures Manual(item, p, true, answer).attempts == Some(1)
  {
  }

  // ---------------------------------------------------------------- the service in place

  datatype Channel = Channel(id: nat, minSeverity: Severity)

  predicate MeetsThreshold(s: Severity, min: Severity) {
    Gravity(s) >= Gravity(min)
  }

  /** The severities from the gravest to the mildest. */
  const GRAVEST_FIRST: seq<Severity> := [Critical, High, Medium, Low, Info]

  /** An alert meets a channel's threshold if its severity comes no later than that in the list. */
  lemma ThresholdIs(s: Severity, min: Severity, i: nat, j: nat)
    requires i < 5 && j < 5 && GRAVEST_FIRST[i] == s && GRAVEST_FIRST[j] == min
    ensures MeetsThreshold(s, min) <==> i <= j
  {
  }

  /** One channel on its own: its one send is its first attempt, or there is none. */
  lemma FirstDeliveryOfOne(c: Channel, s: Severity, send: nat -> Answer, p: Policy)
    ensures var answer := send(c.id);
      FirstDeliveries([c], s, send, p) ==
        if !MeetsThreshold(s, c.minSeverity) then []
        else [Delivery(c.id, answer.status, Some(1), Some(answer.at),
                if answer.status == Failed && p.maxRetries > 1 then Some(answer.at + p.baseMs) else None)]
  {
    assert [c][..0] == [] && Pow2(0) == 1;
  }

  /** The channels are served one after the other, each for itself. */
  lemma {:induction false} FirstDeliveriesInOrder(a: seq<Channel>, b: seq<Channel>, s: Severity, send: nat -> Answer,
      p: Policy)
    ensures FirstDeliveries(a + b, s, send, p) == FirstDeliveries(a, s, send, p) + FirstDeliveries(b, s, send, p)
    decreases |b|
  {
    if b == [] {
      assert a + b == a;
    } else {
      var front := b[..|b| - 1];
      assert (a + b)[..|a + b| - 1] == a + front;
      FirstDeliveriesInOrder(a, front, s, send, p);
    }
  }

  function FirstDeliveries(channels: seq<Channel>, s: Severity, send: nat -> Answer, p: Policy): seq<Delivery> {
    if channels == [] then []
    else var c := channels[|channels| - 1];
         FirstDeliveries(channels[..|channels| - 1], s, send, p)
             + if MeetsThreshold(s, c.minSeverity) then [First(c.id, send(c.id), p)] else []
  }

  /** The first delivery: every channel whose threshold the alert meets, once, in order. */
  method Deliver(channels: seq<Channel>, s: Severity, send: nat -> Answer, p: Policy) returns (results: seq<Delivery>)
    ensures results == FirstDeliveries(channels, s, send, p)
  {
    results := [];
    for i := 0 to |channels|
      invariant results == FirstDeliveries(channels[..i], s, send, p)
    {
      assert channels[..i + 1][..i] == channels[..i];
      if MeetsThreshold(s, channels[i].minSeverity) {
        var answer := send(channels[i].id);
        var next := if answer.status.Failed? then CalculateNextRetry(1, p, answer.at) else None;
        results := results + [Delivery(channels[i].id, answer.status, Some(1), Some(answer.at), next)];
      }
    }
    assert channels[..|channels|] == channels;
  }

  /** What the run does to a list of entries, entry by entry. */
  function AutoAll(items: seq<Delivery>, now: int, p: Policy, active: nat -> bool,
      answer: nat -> Answer): seq<Delivery> {
    seq(|items|, i requires 0 <= i < |items| => Auto(items[i], now, p, active(items[i].channel), answer(i)))
  }

  datatype Counts = Counts(retried: nat, succeeded: nat, failed: nat)

  function CountOne(c: Counts, item: Delivery, now: int, p: Policy, active: bool, answer: Answer): Counts {
    if !Eligible(item, now, p) || !active then c
    else if answer.status.Sent? then Counts(c.retried + 1, c.succeeded + 1, c.failed)
    else Counts(c.retried + 1, c.succeeded, c.failed + 1)
  }

  /** The sends of a run over a list, counted by their results. */
  function CountAll(items: seq<Delivery>, now: int, p: Policy, active: nat -> bool, answer: nat -> Answer): (c: Counts)
    ensures c.retried == c.succeeded + c.failed
  {
    if items == [] then Counts(0, 0, 0)
    else var last := |items| - 1;
         CountOne(CountAll(items[..last], now, p, active, answer), items[last], now, p, active(items[last].channel),
             answer(last))
  }

  /** The entries of a list that a run sends for, and those for which it succeeds. */
  function SentFor(items: seq<Delivery>, now: int, p: Policy, active: nat -> bool): set<int> {
    set i | 0 <= i < |items| && IsDue(items[i], now, p) && active(items[i].channel)
  }

  function Succeeded(sent: set<int>, answer: nat -> Answer): set<int> {
    set i | i in sent && i >= 0 && answer(i).status == Sent
  }

  lemma SentForNext(items: seq<Delivery>, now: int, p: Policy, active: nat -> bool)
    requires items != []
    ensures SentFor(items, now, p, active) == SentFor(items[..|items| - 1], now, p, active)
      + if IsDue(items[|items| - 1], now, p) && active(items[|items| - 1].channel) then {|items| - 1} else {}
  {
  }

  lemma SucceededNext(sent: set<int>, i: nat, answer: nat -> Answer)
    requires i !in sent
    ensures |Succeeded(sent + {i}, answer)| == |Succeeded(sent, answer)| + if answer(i).status == Sent then 1 else 0
  {
    if answer(i).status == Sent {
      assert Succeeded(sent + {i}, answer) == Succeeded(sent, answer) + {i};
    } else {
      assert Succeeded(sent + {i}, answer) == Succeeded(sent, answer);
    }
  }

  lemma CountOneIs(c: Counts, item: Delivery, now: int, p: Policy, active: bool, answer: Answer)
    ensures var c' := CountOne(c, item, now, p, active, answer); var sends := IsDue(item, now, p) && active;
      && c'.retried == c.retried + (if sends then 1 else 0)
      && c'.succeeded == c.succeeded + (if sends && answer.status == Sent then 1 else 0)
  {
  }

  /** The counters are the sends: one for each due entry whose channel exists, by result. */
  lemma {:induction false} CountsAreSends(items: seq<Delivery>, now: int, p: Policy, active: nat -> bool,
      answer: nat -> Answer)
    ensures CountAll(items, now, p, active, answer).retried == |SentFor(items, now, p, active)|
    ensures CountAll(items, now, p, active, answer).succeeded == |Succeeded(SentFor(items, now, p, active), answer)|
    decreases |items|
  {
    if items == [] {
      assert SentFor(items, now, p, active) == {} && Succeeded({}, answer) == {};
    } else {
      var n := |items| - 1;
      var front, item := items[..n], items[n];
      var rest := SentFor(front, now, p, active);
      CountsAreSends(front, now, p, active, answer);
      CountOneIs(CountAll(front, now, p, active, answer), item, now, p, active(item.channel), answer(n));
      SentForNext(items, now, p, active);
      if IsDue(item, now, p) && active(item.channel) {
        SucceededNext(rest, n, answer);
      } else {
        assert SentFor(items, now, p, active) == rest;
      }
    }
  }

  /** One turn of the loop; `touched` tells whether the list has to be written back. */
  method RetryItem(item: Delivery, now: int, p: Policy, active: bool, result: Answer, counts: Counts)
      returns (item': Delivery, counts': Counts, touched: bool)
    ensures item' == Auto(item, now, p, active, result) && AutomaticallyAs(item, item', now, p, active, result)
    ensures counts' == CountOne(counts, item, now, p, active, result)
    ensures !(IsDue(item, now, p) && active) ==> counts' == counts
    ensures IsDue(item, now, p) && active ==>
      counts' == if result.status == Sent then Counts(counts.retried + 1, counts.succeeded + 1, counts.failed)
          else Counts(counts.retried + 1, counts.succeeded, counts.failed + 1)
    ensures touched <==> item' != item
  {
    var attempts := item.attempts.GetOr(1);
    var isDue := item.nextRetryAt.None? || item.nextRetryAt.value <= now;
    if !item.status.Failed? || attempts >= p.maxRetries || !isDue {
      return item, counts, false;
    }
    if !active {
      return item.(status := Skipped, nextRetryAt := None), counts, true;
    }
    var sent := item.(attempts := Some(attempts + 1), lastAttemptAt := Some(result.at));
    if result.status.Sent? {
      return sent.(status := Sent, nextRetryAt := None),
          Counts(counts.retried + 1, counts.succeeded + 1, counts.failed), true;
    }
    var next := CalculateNextRetry(attempts + 1, p, result.at);
    return sent.(status := Failed, nextRetryAt := next),
        Counts(counts.retried + 1, counts.succeeded, counts.failed + 1), true;
  }

  /** The inner loop over one alert's entries. */
  method RetryAlert(items: array<Delivery>, now: int, p: Policy, active: nat -> bool, answer: nat -> Answer)
      returns (counts: Counts, updated: bool)
    modifies items
    ensures items[..] == AutoAll(old(items[..]), now, p, active, answer)
    ensures counts == CountAll(old(items[..]), now, p, active, answer)
    ensures updated <==> items[..] != old(items[..])
  {
    counts, updated := Counts(0, 0, 0), false;
    ghost var start := items[..];
    for i := 0 to items.Length
      invariant forall j :: 0 <= j < i ==> items[j] == Auto(start[j], now, p, active(start[j].channel), answer(j))
      invariant forall j :: i <= j < items.Length ==> items[j] == start[j]
      invariant counts == CountAll(start[..i], now, p, active, answer)
      invariant updated <==> items[..] != start
    {
      assert start[..i + 1][..i] == start[..i];
      var item, touched;
      item, counts, touched := RetryItem(items[i], now, p, active(items[i].channel), answer(i), counts);
      items[i] := item;
      updated := updated || touched;
    }
    assert start[..items.Length] == start;
  }

  predicate Targeted(item: Delivery, channel: Option<nat>) {
    item.status.Failed? && (channel.None? || channel.value == item.channel)
  }

  /** A FAILED entry, of the channel that is asked for if one is. */
  predicate IsMeant(item: Delivery, channel: Option<nat>) {
    item.status == Failed && channel in {None, Some(item.channel)}
  }

  /** The retry on demand: an error unless some failed entry is meant; the other entries stay. */
  method Retry(items: array<Delivery>, channel: Option<nat>, p: Policy, active: nat -> bool, answer: nat -> Answer)
      returns (r: Result<nat>)
    modifies items
    ensures r.Ok? <==> exists i :: 0 <= i < items.Length && Targeted(old(items[i]), channel)
    ensures forall i :: 0 <= i < items.Length ==>
      items[i] == if Targeted(old(items[i]), channel)
                  then Manual(old(items[i]), p, active(old(items[i]).channel), answer(i))
                  else old(items[i])
    ensures forall i :: 0 <= i < items.Length ==>
      (if IsMeant(old(items[i]), channel)
       then OnDemandAs(old(items[i]), items[i], p, active(old(items[i]).channel), answer(i))
       else items[i] == old(items[i]))
    ensures r.Ok? <==> exists i :: 0 <= i < items.Length && IsMeant(old(items[i]), channel)
  {
    var targets := 0;
    for i := 0 to items.Length
      invariant targets > 0 <==> exists j :: 0 <= j < i && Targeted(items[j], channel)
    {
      if Targeted(items[i], channel) {
        targets := targets + 1;
      }
    }
    if targets == 0 {
      return Err("no failed deliveries");
    }
    for i := 0 to items.Length
      invariant forall j :: i <= j < items.Length ==> items[j] == old(items[j])
      invariant forall j :: 0 <= j < i ==>
        items[j] == if Targeted(old(items[j]), channel)
                    then Manual(old(items[j]), p, active(old(items[j]).channel), answer(j))
                    else old(items[j])
    {
      var item := items[i];
      if !Targeted(item, channel) {
        continue;
      }
      if !active(item.channel) {
        items[i] := item.(status := Skipped, nextRetryAt := None);
        continue;
      }
      var nextAttempts := item.attempts.GetOr(0) + 1;
      var result := answer(i);
      var sent := item.(attempts := Some(nextAttempts), lastAttemptAt := Some(result.at));
      items[i] := if result.status.Sent? then sent.(status := Sent, nextRetryAt := None)
                  else sent.(status := Failed, nextRetryAt := CalculateNextRetry(nextAttempts, p, result.at));
    }
    r := Ok(targets);
  }

  // ---------------------------------------------------------------- the periodic run over all alerts

  /** `deliveries` is absent until an alert has been delivered; `orgActive` is its organization's flag. */
  datatype Alert = Alert(createdAt: int, orgActive: bool, deliveries: Option<seq<Delivery>>)

  /** Delivered, of an active organization, and created in the last 48 hours. */
  predicate IsRecent(a: Alert, now: int) {
    a.deliveries.Some? && a.orgActive && now - a.createdAt <= 172800000
  }

  const RETRY_WINDOW_MS := 48 * HOUR_MS
  const RETRY_BATCH := 50

  /** The where clause of the periodic run: the last 48 hours, delivered, of an active organization. */
  predicate Retryable(a: Alert, now: int) {
    a.createdAt >= now - RETRY_WINDOW_MS && a.deliveries.Some? && a.orgActive
  }

  /** What the query returns: retryable alerts, newest first, all of them unless there are 50. */
  ghost predicate IsSelection(alerts: map<nat, Alert>, now: int, ids: seq<nat>) {
    && (forall i :: 0 <= i < |ids| ==> ids[i] in alerts && Retryable(alerts[ids[i]], now))
    && (forall i, j :: 0 <= i < j < |ids| ==> ids[i] != ids[j] && alerts[ids[i]].createdAt >= alerts[ids[j]].createdAt)
    && |ids| <= RETRY_BATCH
    && (|ids| < RETRY_BATCH ==> forall id :: id in alerts && Retryable(alerts[id], now) ==> id in ids)
    && (forall id, i :: id in alerts && Retryable(alerts[id], now) && id !in ids && 0 <= i < |ids| ==>
          alerts[id].createdAt <= alerts[ids[i]].createdAt)
  }

  lemma {:induction false} SomeNewest(alerts: map<nat, Alert>, ids: set<nat>) returns (newest: nat)
    requires ids != {} && ids <= alerts.Keys
    ensures newest in ids && forall id :: id in ids ==> alerts[id].createdAt <= alerts[newest].createdAt
    decreases |ids|
  {
    newest :| newest in ids;
    if ids != {newest} {
      var other := SomeNewest(alerts, ids - {newest});
      if alerts[other].createdAt > alerts[newest].createdAt { newest := other; }
    }
  }

  /** `ids` are the newest retryable alerts, in order, and `left` the others. */
  ghost predicate Selecting(alerts: map<nat, Alert>, now: int, ids: seq<nat>, left: set<nat>) {
    && (forall id :: id in alerts && Retryable(alerts[id], now) <==> id in left || id in ids)
    && (forall i :: 0 <= i < |ids| ==> ids[i] in alerts && ids[i] !in left)
    && (forall i, j :: 0 <= i < j < |ids| ==> ids[i] != ids[j] && alerts[ids[i]].createdAt >= alerts[ids[j]].createdAt)
    && left <= alerts.Keys
    && (forall id, i :: id in left && 0 <= i < |ids| ==> alerts[id].createdAt <= alerts[ids[i]].createdAt)
  }

  lemma SelectingStep(alerts: map<nat, Alert>, now: int, ids: seq<nat>, left: set<nat>, next: nat)
    requires Selecting(alerts, now, ids, left) && next in left
    requires forall id :: id in left ==> alerts[id].createdAt <= alerts[next].createdAt
    ensures Selecting(alerts, now, ids + [next], left - {next})
  {
  }

  lemma SelectingEnd(alerts: map<nat, Alert>, now: int, ids: seq<nat>, left: set<nat>)
    requires Selecting(alerts, now, ids, left) && |ids| <= RETRY_BATCH && (|ids| == RETRY_BATCH || left == {})
    ensures IsSelection(alerts, now, ids)
  {
  }

  function Added(a: Counts, b: Counts): Counts {
    Counts(a.retried + b.retried, a.succeeded + b.succeeded, a.failed + b.failed)
  }

  class AlertStore {
    var alerts: map<nat, Alert>

    constructor (alerts: map<nat, Alert>)
      ensures this.alerts == alerts
    {
      this.alerts := alerts;
    }

    /**
     * One alert of the run, with the entries `read` at its beginning: its list is written back whole
     * if an entry was touched, whatever others have stored for it meanwhile.
     */
    method RetryOf(id: nat, read: Option<seq<Delivery>>, now: int, p: Policy, active: nat -> bool,
        answer: nat -> Answer) returns (counts: Counts)
      requires id in alerts
      modifies this
      ensures alerts == WrittenBack(old(alerts), id, read, now, p, active, answer)
      ensures counts == CountList(read, now, p, active, answer)
    {
      if read.None? {
        return Counts(0, 0, 0);
      }
      var items := read.value;
      var list := new Delivery[|items|](k requires 0 <= k < |items| => items[k]);
      assert list[..] == items;
      var updated;
      counts, updated := RetryAlert(list, now, p, active, answer);
      if updated {
        alerts := alerts[id := alerts[id].(deliveries := Some(list[..]))];
      }
    }

    method SelectAlerts(now: int) returns (ids: seq<nat>)
      ensures IsSelection(alerts, now, ids) && |ids| <= 50
      ensures forall id :: id in ids ==> id in alerts && IsRecent(alerts[id], now)
      ensures (exists id :: id in alerts && id !in ids && IsRecent(alerts[id], now)) ==> |ids| == 50
    {
      ids := [];
      var left := set id | id in alerts && Retryable(alerts[id], now);
      while |ids| < RETRY_BATCH && left != {}
        invariant |ids| <= RETRY_BATCH && Selecting(alerts, now, ids, left)
        decreases |left|
      {
        ghost var some := SomeNewest(alerts, left);
        var next :| next in left && forall id :: id in left ==> alerts[id].createdAt <= alerts[next].createdAt;
        SelectingStep(alerts, now, ids, left, next);
        ids := ids + [next];
        left := left - {next};
      }
      SelectingEnd(alerts, now, ids, left);
    }

    /** What others store between two of our writes. */
    method Interfere(writes: map<nat, seq<Delivery>>)
      modifies this
      ensures alerts == Interfered(old(alerts), writes)
    {
      alerts := Interfered(alerts, writes);
    }

    /** The loop over the alerts of the query, with the lists as the query has `read` them. */
    method RetryAll(read: map<nat, Alert>, ids: seq<nat>, now: int, p: Policy, active: nat -> bool,
        answer: nat -> nat -> Answer, others: Interference) returns (counts: Counts)
      requires forall i :: 0 <= i < |ids| ==> ids[i] in read && ids[i] in alerts
      modifies this
      ensures alerts == PassOver(read, old(alerts), ids, now, p, active, answer, others)
      ensures counts == CountAlerts(read, ids, now, p, active, answer)
    {
      counts := Counts(0, 0, 0);
      ghost var start := alerts;
      for i := 0 to |ids|
        invariant alerts == PassOver(read, start, ids[..i], now, p, active, answer, others)
        invariant counts == CountAlerts(read, ids[..i], now, p, active, answer)
      {
        assert ids[..i + 1][..i] == ids[..i];
        Interfere(others(i));
        var c := RetryOf(ids[i], read[ids[i]].deliveries, now, p, active, answer(ids[i]));
        counts := Added(counts, c);
      }
      assert ids[..|ids|] == ids;
    }

    /**
     * The periodic run: the newest 50 alerts of the last 48 hours; older ones are never retried. The
     * lists are read once, at its beginning; before the i-th alert is written the others store
     * `others(i)`. QuietPass and LateWriteWins say what that comes to.
     */
    method RetryFailedDeliveries(now: int, p: Policy, active: nat -> bool, answer: nat -> nat -> Answer,
        others: Interference) returns (checked: nat, counts: Counts, ghost ids: seq<nat>)
      modifies this
      ensures IsSelection(old(alerts), now, ids) && checked == |ids|
      ensures alerts == PassOver(old(alerts), old(alerts), ids, now, p, active, answer, others)
      ensures counts == CountAlerts(old(alerts), ids, now, p, active, answer)
          && counts.retried == counts.succeeded + counts.failed
    {
      var read := alerts;
      var selected := SelectAlerts(now);
      ids := selected;
      counts := RetryAll(read, selected, now, p, active, answer, others);
      checked := |selected|;
    }
  }

  function CountList(read: Option<seq<Delivery>>, now: int, p: Policy, active: nat -> bool, answer: nat -> Answer)
      : (c: Counts)
    ensures c.retried == c.succeeded + c.failed
  {
    if read.None? then Counts(0, 0, 0) else CountAll(read.value, now, p, active, answer)
  }

  /** An alert retried without interference. */
  function AutoAlert(a: Alert, now: int, p: Policy, active: nat -> bool, answer: nat -> Answer): Alert {
    if a.deliveries.None? then a else a.(deliveries := Some(AutoAll(a.deliveries.value, now, p, active, answer)))
  }

  /** The alert's list is replaced by what the run made of the list it has `read`, if that changed it. */
  function WrittenBack(t: map<nat, Alert>, id: nat, read: Option<seq<Delivery>>, now: int, p: Policy,
      active: nat -> bool, answer: nat -> Answer): map<nat, Alert> {
    if read.None? || id !in t then t
    else
      var list := AutoAll(read.value, now, p, active, answer);
      if list == read.value then t else t[id := t[id].(deliveries := Some(list))]
  }

  /** What other runs and users store, before each alert of a run is written. */
  type Interference = nat -> map<nat, seq<Delivery>>

  function Interfered(t: map<nat, Alert>, writes: map<nat, seq<Delivery>>): map<nat, Alert> {
    map id | id in t :: if id in writes then t[id].(deliveries := Some(writes[id])) else t[id]
  }

  function PassOver(read: map<nat, Alert>, t: map<nat, Alert>, ids: seq<nat>, now: int, p: Policy,
      active: nat -> bool, answer: nat -> nat -> Answer, others: Interference): (r: map<nat, Alert>)
    requires forall i :: 0 <= i < |ids| ==> ids[i] in read
    ensures r.Keys == t.Keys
  {
    if ids == [] then t
    else
      var last := |ids| - 1;
      var before := Interfered(PassOver(read, t, ids[..last], now, p, active, answer, others), others(last));
      WrittenBack(before, ids[last], read[ids[last]].deliveries, now, p, active, answer(ids[last]))
  }

  lemma NoInterference(t: map<nat, Alert>)
    ensures Interfered(t, map[]) == t
  {
  }

  lemma WrittenBackAt(t: map<nat, Alert>, id: nat, read: Alert, now: int, p: Policy, active: nat -> bool,
      answer: nat -> Answer, other: nat)
    requires id in t && other in t && (t[id] == read || other != id)
    ensures WrittenBack(t, id, read.deliveries, now, p, active, answer)[other]
      == if other == id then AutoAlert(read, now, p, active, answer) else t[other]
  {
  }

  /** Undisturbed, the alerts of the query are retried entry by entry, and the others stay. */
  lemma {:induction false} QuietPass(t: map<nat, Alert>, ids: seq<nat>, now: int, p: Policy, active: nat -> bool,
      answer: nat -> nat -> Answer, others: Interference, id: nat)
    requires forall i :: 0 <= i < |ids| ==> ids[i] in t
    requires forall i, j :: 0 <= i < j < |ids| ==> ids[i] != ids[j]
    requires forall i: nat :: others(i) == map[]
    requires id in t
    ensures PassOver(t, t, ids, now, p, active, answer, others)[id]
      == if id in ids then AutoAlert(t[id], now, p, active, answer(id)) else t[id]
    decreases |ids|
  {
    if ids != [] {
      var last := |ids| - 1;
      var earlier, next := ids[..last], ids[last];
      assert ids == earlier + [next] && next !in earlier;
      QuietPass(t, earlier, now, p, active, answer, others, id);
      QuietPass(t, earlier, now, p, active, answer, others, next);
      var before := PassOver(t, t, earlier, now, p, active, answer, others);
      NoInterference(before);
      WrittenBackAt(before, next, t[next], now, p, active, answer(next), id);
    }
  }

  /** A touched alert ends up as the run's own copy, unless others store its list after the run has. */
  lemma {:induction false} LateWriteWins(read: map<nat, Alert>, t: map<nat, Alert>, ids: seq<nat>, now: int, p: Policy,
      active: nat -> bool, answer: nat -> nat -> Answer, others: Interference, k: nat)
    requires forall i :: 0 <= i < |ids| ==> ids[i] in read
    requires forall i, j :: 0 <= i < j < |ids| ==> ids[i] != ids[j]
    requires k < |ids| && ids[k] in t && forall i: nat :: k < i ==> ids[k] !in others(i)
    requires AutoAlert(read[ids[k]], now, p, active, answer(ids[k])) != read[ids[k]]
    ensures PassOver(read, t, ids, now, p, active, answer, others)[ids[k]].deliveries
      == AutoAlert(read[ids[k]], now, p, active, answer(ids[k])).deliveries
    decreases |ids|
  {
    var last := |ids| - 1;
    if k < last { LateWriteWins(read, t, ids[..last], now, p, active, answer, others, k); }
  }

  /** The counters of a run add up those of its alerts. */
  lemma CountersAddUp(read: map<nat, Alert>, ids: seq<nat>, id: nat, now: int, p: Policy, active: nat -> bool,
      answer: nat -> nat -> Answer)
    requires (forall i :: 0 <= i < |ids| ==> ids[i] in read) && id in read
    ensures CountAlerts(read, [], now, p, active, answer) == Counts(0, 0, 0)
    ensures forall i :: 0 <= i < |ids + [id]| ==> (ids + [id])[i] in read
    ensures CountAlerts(read, ids + [id], now, p, active, answer)
      == Added(CountAlerts(read, ids, now, p, active, answer),
           CountList(read[id].deliveries, now, p, active, answer(id)))
  {
    var all := ids + [id];
    assert all[..|all| - 1] == ids && all[|all| - 1] == id;
  }

  /** All sends of the run, by their results. */
  function CountAlerts(read: map<nat, Alert>, ids: seq<nat>, now: int, p: Policy, active: nat -> bool,
      answer: nat -> nat -> Answer): (c: Counts)
    requires forall i :: 0 <= i < |ids| ==> ids[i] in read
    ensures c.retried == c.succeeded + c.failed
  {
    if ids == [] then Counts(0, 0, 0)
    else var last := ids[|ids| - 1];
         Added(CountAlerts(read, ids[..|ids| - 1], now, p, active, answer),
             CountList(read[last].deliveries, now, p, active, answer(last)))
  }
}
