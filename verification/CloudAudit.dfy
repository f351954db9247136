/**
 * The transaction of a cloud posture audit (cloud-scan.service.ts, runAccountAudit): findings
 * are created, refreshed or reopened with a due date, the account's stale ones are closed, and
 * the counters accumulated on the way are stored as the account's failing findings.
 */
module CloudAudit {
  import opened Base
  import opened Findings

  datatype CloudDraft = CloudDraft(ruleId: string, nativeId: string)

  datatype AuditInput = AuditInput(org: nat, asset: nat, account: nat, drafts: seq<CloudDraft>)

  datatype AuditStats = AuditStats(created: int, updated: int, reopened: int, resolved: int, activeFindings: int,
      bySeverity: SeverityCounts)

  /** Hours until a finding of the severity is due. */
  function DueHours(s: Severity): int {
    match s
    case Critical => 24
    case High => 7 * 24
    case Medium => 30 * 24
    case Low => 90 * 24
    case Info => 90 * 24
  }

  function DefaultDueDate(s: Severity, from: int): int {
    from + DueHours(s) * HOUR_MS
  }

  /** One day, one week, 30 and 90 days; graver findings are never due later. */
  lemma GraverIsDueSooner(s: Severity, t: Severity, from: int)
    ensures Gravity(s) >= Gravity(t) ==> DefaultDueDate(s, from) <= DefaultDueDate(t, from)
    ensures DefaultDueDate(Critical, from) == from + DAY_MS && DefaultDueDate(High, from) == from + 7 * DAY_MS
    ensures DefaultDueDate(Medium, from) == from + 30 * DAY_MS
    ensures DefaultDueDate(Low, from) == DefaultDueDate(Info, from) == from + 90 * DAY_MS
  {
  }

  /** Locations are cut to the width of their column before they are hashed. */
  function Cut(s: string): string {
    if |s| <= 500 then s else s[..500]
  }

  function AuditKey(asset: nat, d: CloudDraft): Key {
    Key(asset, Fingerprint(d.ruleId, Cut(d.nativeId)))
  }

  /** `location` is the native id, or its first 500 characters if it is longer. */
  predicate LocationOf(nativeId: string, location: string) {
    if |nativeId| > 500 then location == nativeId[..500] else location == nativeId
  }

  /**
   * Two reports are one finding if and only if they are of one rule and one resource; resources with
   * ids of 500 characters or more are told apart by the first 500 only.
   */
  lemma SameFinding(asset: nat, d: CloudDraft, e: CloudDraft)
    ensures AuditKey(asset, d) == AuditKey(asset, e) <==>
      && d.ruleId == e.ruleId
      && (d.nativeId == e.nativeId
          || (|d.nativeId| >= 500 && |e.nativeId| >= 500 && d.nativeId[..500] == e.nativeId[..500]))
  {
    if |d.nativeId| >= 500 && |e.nativeId| >= 500 {
      assert |d.nativeId| == 500 ==> d.nativeId[..500] == d.nativeId;
      assert |e.nativeId| == 500 ==> e.nativeId[..500] == e.nativeId;
    }
  }

  /** The findings an audit reports; drafts of unknown rules are skipped. */
  function AuditKeys(cat: Catalog, asset: nat, drafts: seq<CloudDraft>): set<Key> {
    set i | 0 <= i < |drafts| && drafts[i].ruleId in cat :: AuditKey(asset, drafts[i])
  }

  lemma AuditKeysOfPrefix(cat: Catalog, asset: nat, drafts: seq<CloudDraft>, d: CloudDraft)
    ensures AuditKeys(cat, asset, drafts + [d]) == AuditKeys(cat, asset, drafts)
        + if d.ruleId in cat then {AuditKey(asset, d)} else {}
  {
    var all := drafts + [d];
    assert all[|drafts|] == d;
    forall k | k in AuditKeys(cat, asset, drafts) ensures k in AuditKeys(cat, asset, all) {
      var i :| 0 <= i < |drafts| && drafts[i].ruleId in cat && AuditKey(asset, drafts[i]) == k;
      assert all[i] == drafts[i];
    }
  }

  function AuditedRow(inp: AuditInput, cat: Catalog, before: Option<Finding>, k: Key, now: int): Finding
    requires k.fp.ruleId in cat
  {
    var Rule(category, severity) := cat[k.fp.ruleId];
    var due := DefaultDueDate(severity, now);
    match before
    case None => Finding(inp.org, category, severity, Open, now, now, None, Some(due), Some(inp.account), None)
    case Some(f) =>
      var g := f.(category := category, severity := severity, lastSeen := now, account := Some(inp.account),
          dueDate := Some(f.dueDate.GetOr(due)));
      if f.status.Resolved? then g.(status := Open, resolvedAt := None) else g
  }

  predicate Closes(inp: AuditInput, cat: Catalog, t: Table, k: Key) {
    && k in t && k.asset == inp.asset && t[k].account == Some(inp.account)
    && Active(t[k].status) && k !in AuditKeys(cat, inp.asset, inp.drafts)
  }

  /** The findings table after the audit, row by row. */
  function Audited(inp: AuditInput, cat: Catalog, t: Table, now: int): Table {
    map k | k in t.Keys + AuditKeys(cat, inp.asset, inp.drafts) ::
      if k in AuditKeys(cat, inp.asset, inp.drafts) then AuditedRow(inp, cat, Lookup(t, k), k, now)
      else if Closes(inp, cat, t, k) then t[k].(status := Resolved, resolvedAt := Some(now))
      else t[k]
  }

  // ---------------------------------------------------------------- what an audit makes of each row

  /** Some report of a known rule is this finding. */
  predicate Mentions(inp: AuditInput, cat: Catalog, k: Key) {
    && k.asset == inp.asset && k.fp.ruleId in cat
    && exists i :: 0 <= i < |inp.drafts| && inp.drafts[i].ruleId == k.fp.ruleId
         && LocationOf(inp.drafts[i].nativeId, k.fp.location)
  }

  lemma MentionedIsReported(inp: AuditInput, cat: Catalog, k: Key)
    ensures Mentions(inp, cat, k) <==> k in AuditKeys(cat, inp.asset, inp.drafts)
  {
    if Mentions(inp, cat, k) {
      var i :| 0 <= i < |inp.drafts| && inp.drafts[i].ruleId == k.fp.ruleId
          && LocationOf(inp.drafts[i].nativeId, k.fp.location);
      assert AuditKey(inp.asset, inp.drafts[i]) == k;
    }
  }

  /**
   * A reported finding is opened, opened again when it was RESOLVED, and refreshed otherwise, with the
   * category and severity of its rule; it gets a due date if it has none.
   */
  ghost predicate Stored(inp: AuditInput, cat: Catalog, before: Table, after: Table, now: int, k: Key)
    requires k.fp.ruleId in cat
  {
    var severity := cat[k.fp.ruleId].severity;
    var days := match severity case Critical => 1 case High => 7 case Medium => 30 case _ => 90;
    && k in after
    && after[k].category == cat[k.fp.ruleId].category && after[k].severity == severity
    && after[k].lastSeen == now && after[k].account == Some(inp.account)
    && if k !in before then
         && after[k].org == inp.org && after[k].status == Open && after[k].firstSeen == now
         && after[k].resolvedAt == None && after[k].lastScan == None && after[k].dueDate == Some(now + days * 86400000)
       else
         && after[k].org == before[k].org && after[k].firstSeen == before[k].firstSeen
         && after[k].lastScan == before[k].lastScan
         && after[k].dueDate == (if before[k].dueDate == None then Some(now + days * 86400000) else before[k].dueDate)
         && if before[k].status == Resolved then after[k].status == Open && after[k].resolvedAt == None
            else after[k].status == before[k].status && after[k].resolvedAt == before[k].resolvedAt
  }

  /** What an audit does: the account's active findings that it does not report are RESOLVED, all others stay. */
  ghost predicate AuditDone(inp: AuditInput, cat: Catalog, before: Table, after: Table, now: int) {
    && (forall k | Mentions(inp, cat, k) :: Stored(inp, cat, before, after, now, k))
    && (forall k | k in before && !Mentions(inp, cat, k) ::
         && k in after
         && if && k.asset == inp.asset && before[k].account == Some(inp.account)
               && before[k].status in {Open, InProgress, Verifying}
            then after[k] == before[k].(status := Resolved, resolvedAt := Some(now))
            else after[k] == before[k])
    && (forall k :: k in after ==> k in before || Mentions(inp, cat, k))
  }

  lemma AuditedIsDone(inp: AuditInput, cat: Catalog, t: Table, now: int)
    ensures AuditDone(inp, cat, t, Audited(inp, cat, t, now), now)
  {
    forall k ensures Mentions(inp, cat, k) <==> k in AuditKeys(cat, inp.asset, inp.drafts) {
      MentionedIsReported(inp, cat, k);
    }
    forall k | Mentions(inp, cat, k) ensures Stored(inp, cat, t, Audited(inp, cat, t, now), now, k) {
      GraverIsDueSooner(cat[k.fp.ruleId].severity, Info, now);
    }
  }

  // ---------------------------------------------------------------- what the counters count

  /** The active findings of one asset and one account, of one severity. */
  function FailingOf(t: Table, asset: nat, account: nat, s: Severity): set<Key> {
    set k | k in t && k.asset == asset && t[k].account == Some(account) && Active(t[k].status) && t[k].severity == s
  }

  function Failing(t: Table, asset: nat, account: nat): set<Key> {
    set k | k in t && k.asset == asset && t[k].account == Some(account) && Active(t[k].status)
  }

  lemma FiveParts(all: set<Key>, c: set<Key>, h: set<Key>, m: set<Key>, l: set<Key>, i: set<Key>)
    requires c !! h !! m !! l !! i
    requires forall k :: k in all <==> k in c || k in h || k in m || k in l || k in i
    ensures |all| == |c| + |h| + |m| + |l| + |i|
  {
    DisjointUnionSize(c, h);
    DisjointUnionSize(c + h, m);
    DisjointUnionSize(c + h + m, l);
    DisjointUnionSize(c + h + m + l, i);
    assert all == c + h + m + l + i;
  }

  lemma FailingBySeverity(t: Table, asset: nat, account: nat)
    ensures |Failing(t, asset, account)| ==
      |FailingOf(t, asset, account, Critical)| + |FailingOf(t, asset, account, High)|
          + |FailingOf(t, asset, account, Medium)|
      + |FailingOf(t, asset, account, Low)| + |FailingOf(t, asset, account, Info)|
  {
    FiveParts(Failing(t, asset, account),
              FailingOf(t, asset, account, Critical), FailingOf(t, asset, account, High),
                  FailingOf(t, asset, account, Medium),
              FailingOf(t, asset, account, Low), FailingOf(t, asset, account, Info));
  }

  /** A reported finding ends up active unless the user accepted or discarded it. */
  predicate EndsActive(t: Table, k: Key) {
    k !in t || t[k].status.Resolved? || Active(t[k].status)
  }

  /** Of the first drafts, the reported findings that end up active with severity `s`. */
  function ActiveReported(inp: AuditInput, cat: Catalog, t: Table, drafts: seq<CloudDraft>, s: Severity): set<Key> {
    set k | k in AuditKeys(cat, inp.asset, drafts) && cat[k.fp.ruleId].severity == s && EndsActive(t, k)
  }

  /** After the audit the active findings of the account are exactly the reported, still open ones. */
  lemma FailingAfterAudit(inp: AuditInput, cat: Catalog, t: Table, now: int, s: Severity)
    ensures FailingOf(Audited(inp, cat, t, now), inp.asset, inp.account, s)
        == ActiveReported(inp, cat, t, inp.drafts, s)
  {
    var t' := Audited(inp, cat, t, now);
    forall k ensures k in FailingOf(t', inp.asset, inp.account, s) <==>
        k in ActiveReported(inp, cat, t, inp.drafts, s) {
      if k in AuditKeys(cat, inp.asset, inp.drafts) {
        assert k in t' && t'[k] == AuditedRow(inp, cat, Lookup(t, k), k, now);
      }
    }
  }

  function NewKeys(cat: Catalog, asset: nat, drafts: seq<CloudDraft>, t: Table): set<Key> {
    set k | k in AuditKeys(cat, asset, drafts) && k !in t
  }

  function ReturningKeys(cat: Catalog, asset: nat, drafts: seq<CloudDraft>, t: Table): set<Key> {
    set k | k in AuditKeys(cat, asset, drafts) && k in t && t[k].status.Resolved?
  }

  function KnownKeys(cat: Catalog, asset: nat, drafts: seq<CloudDraft>, t: Table): set<Key> {
    set k | k in AuditKeys(cat, asset, drafts) && k in t && !t[k].status.Resolved?
  }

  function ClosedKeys(inp: AuditInput, cat: Catalog, t: Table): set<Key> {
    set k | k in t && Closes(inp, cat, t, k)
  }

  // ---------------------------------------------------------------- the loop over the drafts

  datatype Tally = Tally(created: int, updated: int, reopened: int, bySeverity: SeverityCounts)

  ghost predicate AuditCountersMatch(tally: Tally, cat: Catalog, asset: nat, t: Table, drafts: seq<CloudDraft>) {
    && tally.created == |NewKeys(cat, asset, drafts, t)|
    && tally.reopened == |ReturningKeys(cat, asset, drafts, t)|
    && tally.updated == |KnownKeys(cat, asset, drafts, t)|
  }

  ghost predicate AuditSeveritiesMatch(bySeverity: SeverityCounts, inp: AuditInput, cat: Catalog, t: Table,
      drafts: seq<CloudDraft>) {
    forall s :: bySeverity.Of(s) == |ActiveReported(inp, cat, t, drafts, s)|
  }

  ghost predicate TallyMatches(tally: Tally, inp: AuditInput, cat: Catalog, t: Table, drafts: seq<CloudDraft>) {
    AuditCountersMatch(tally, cat, inp.asset, t, drafts) && AuditSeveritiesMatch(tally.bySeverity, inp, cat, t, drafts)
  }

  function Tallied(tally: Tally, before: Option<Finding>, s: Severity): Tally {
    match before
    case None => tally.(created := tally.created + 1, bySeverity := tally.bySeverity.Plus(s))
    case Some(f) =>
      if f.status.Resolved? then tally.(reopened := tally.reopened + 1, bySeverity := tally.bySeverity.Plus(s))
      else if Active(f.status) then tally.(updated := tally.updated + 1, bySeverity := tally.bySeverity.Plus(s))
      else tally.(updated := tally.updated + 1)
  }

  function Inserted(inp: AuditInput, cat: Catalog, t: Table, drafts: seq<CloudDraft>, now: int): Table {
    map k | k in t.Keys + AuditKeys(cat, inp.asset, drafts) ::
      if k in AuditKeys(cat, inp.asset, drafts) then AuditedRow(inp, cat, Lookup(t, k), k, now) else t[k]
  }

  lemma InsertedStep(inp: AuditInput, cat: Catalog, t: Table, drafts: seq<CloudDraft>, d: CloudDraft, now: int)
    ensures var k := AuditKey(inp.asset, d); var done := Inserted(inp, cat, t, drafts, now);
      && Inserted(inp, cat, t, drafts + [d], now) ==
           (if IsNew(cat, inp.asset, drafts, d) then done[k := AuditedRow(inp, cat, Lookup(t, k), k, now)] else done)
      && (k !in AuditKeys(cat, inp.asset, drafts) ==> Lookup(done, k) == Lookup(t, k))
  {
    AuditKeysOfPrefix(cat, inp.asset, drafts, d);
  }

  predicate IsNew(cat: Catalog, asset: nat, drafts: seq<CloudDraft>, d: CloudDraft) {
    d.ruleId in cat && AuditKey(asset, d) !in AuditKeys(cat, asset, drafts)
  }

  lemma NewStep(cat: Catalog, asset: nat, t: Table, drafts: seq<CloudDraft>, d: CloudDraft)
    ensures var k := AuditKey(asset, d);
      |NewKeys(cat, asset, drafts + [d], t)| == |NewKeys(cat, asset, drafts, t)|
          + if IsNew(cat, asset, drafts, d) && k !in t then 1 else 0
  {
    AuditKeysOfPrefix(cat, asset, drafts, d);
    var k := AuditKey(asset, d);
    if IsNew(cat, asset, drafts, d) && k !in t {
      assert NewKeys(cat, asset, drafts + [d], t) == NewKeys(cat, asset, drafts, t) + {k};
    } else {
      assert NewKeys(cat, asset, drafts + [d], t) == NewKeys(cat, asset, drafts, t);
    }
  }

  lemma ReturningStep(cat: Catalog, asset: nat, t: Table, drafts: seq<CloudDraft>, d: CloudDraft)
    ensures var k := AuditKey(asset, d);
      |ReturningKeys(cat, asset, drafts + [d], t)| == |ReturningKeys(cat, asset, drafts, t)|
          + if IsNew(cat, asset, drafts, d) && k in t && t[k].status.Resolved? then 1 else 0
  {
    AuditKeysOfPrefix(cat, asset, drafts, d);
    var k := AuditKey(asset, d);
    if IsNew(cat, asset, drafts, d) && k in t && t[k].status.Resolved? {
      assert ReturningKeys(cat, asset, drafts + [d], t) == ReturningKeys(cat, asset, drafts, t) + {k};
    } else {
      assert ReturningKeys(cat, asset, drafts + [d], t) == ReturningKeys(cat, asset, drafts, t);
    }
  }

  lemma KnownStep(cat: Catalog, asset: nat, t: Table, drafts: seq<CloudDraft>, d: CloudDraft)
    ensures var k := AuditKey(asset, d);
      |KnownKeys(cat, asset, drafts + [d], t)| == |KnownKeys(cat, asset, drafts, t)|
          + if IsNew(cat, asset, drafts, d) && k in t && !t[k].status.Resolved? then 1 else 0
  {
    AuditKeysOfPrefix(cat, asset, drafts, d);
    var k := AuditKey(asset, d);
    if IsNew(cat, asset, drafts, d) && k in t && !t[k].status.Resolved? {
      assert KnownKeys(cat, asset, drafts + [d], t) == KnownKeys(cat, asset, drafts, t) + {k};
    } else {
      assert KnownKeys(cat, asset, drafts + [d], t) == KnownKeys(cat, asset, drafts, t);
    }
  }

  lemma AuditCountersStep(tally: Tally, cat: Catalog, asset: nat, t: Table, drafts: seq<CloudDraft>,
      d: CloudDraft, s: Severity)
    requires AuditCountersMatch(tally, cat, asset, t, drafts)
    ensures AuditCountersMatch(
      if IsNew(cat, asset, drafts, d) then Tallied(tally, Lookup(t, AuditKey(asset, d)), s) else tally,
      cat, asset, t, drafts + [d])
  {
    NewStep(cat, asset, t, drafts, d);
    ReturningStep(cat, asset, t, drafts, d);
    KnownStep(cat, asset, t, drafts, d);
  }

  predicate AddsActive(inp: AuditInput, cat: Catalog, t: Table, drafts: seq<CloudDraft>, d: CloudDraft, s: Severity) {
    IsNew(cat, inp.asset, drafts, d) && cat[d.ruleId].severity == s && EndsActive(t, AuditKey(inp.asset, d))
  }

  lemma ActiveReportedGrows(inp: AuditInput, cat: Catalog, t: Table, drafts: seq<CloudDraft>, d: CloudDraft,
      s: Severity)
    ensures ActiveReported(inp, cat, t, drafts + [d], s) ==
      ActiveReported(inp, cat, t, drafts, s)
          + if AddsActive(inp, cat, t, drafts, d, s) then {AuditKey(inp.asset, d)} else {}
  {
    AuditKeysOfPrefix(cat, inp.asset, drafts, d);
  }

  lemma ActiveReportedStep(inp: AuditInput, cat: Catalog, t: Table, drafts: seq<CloudDraft>, d: CloudDraft, s: Severity)
    ensures |ActiveReported(inp, cat, t, drafts + [d], s)| ==
      |ActiveReported(inp, cat, t, drafts, s)| + if AddsActive(inp, cat, t, drafts, d, s) then 1 else 0
  {
    ActiveReportedGrows(inp, cat, t, drafts, d, s);
  }

  lemma AuditSeveritiesStep(bySeverity: SeverityCounts, inp: AuditInput, cat: Catalog, t: Table,
      drafts: seq<CloudDraft>, d: CloudDraft)
    requires AuditSeveritiesMatch(bySeverity, inp, cat, t, drafts)
    ensures AuditSeveritiesMatch(
      if IsNew(cat, inp.asset, drafts, d) && EndsActive(t, AuditKey(inp.asset, d))
      then bySeverity.Plus(cat[d.ruleId].severity)
      else bySeverity,
      inp, cat, t, drafts + [d])
  {
    forall s ensures |ActiveReported(inp, cat, t, drafts + [d], s)| == bySeverity.Of(s)
      + if AddsActive(inp, cat, t, drafts, d, s) then 1 else 0
    {
      ActiveReportedStep(inp, cat, t, drafts, d, s);
    }
  }

  lemma TallyStep(tally: Tally, inp: AuditInput, cat: Catalog, t: Table, drafts: seq<CloudDraft>, d: CloudDraft)
    requires TallyMatches(tally, inp, cat, t, drafts)
    ensures TallyMatches(
      if IsNew(cat, inp.asset, drafts, d)
      then Tallied(tally, Lookup(t, AuditKey(inp.asset, d)), cat[d.ruleId].severity)
      else tally,
      inp, cat, t, drafts + [d])
  {
    AuditCountersStep(tally, cat, inp.asset, t, drafts, d, if d.ruleId in cat then cat[d.ruleId].severity else Info);
    AuditSeveritiesStep(tally.bySeverity, inp, cat, t, drafts, d);
  }

  ghost predicate AuditLoop(inp: AuditInput, cat: Catalog, start: Table, done: seq<CloudDraft>, now: int,
      rows: Table, seen: set<Key>, tally: Tally) {
    && rows == Inserted(inp, cat, start, done, now)
    && seen == AuditKeys(cat, inp.asset, done)
    && TallyMatches(tally, inp, cat, start, done)
  }

  lemma AuditLoopStep(inp: AuditInput, cat: Catalog, start: Table, done: seq<CloudDraft>, now: int, rows: Table,
      seen: set<Key>, tally: Tally, d: CloudDraft)
    requires AuditLoop(inp, cat, start, done, now, rows, seen, tally)
    ensures var k := AuditKey(inp.asset, d);
      if d.ruleId in cat && k !in seen
      then AuditLoop(inp, cat, start, done + [d], now,
                     rows[k := AuditedRow(inp, cat, Lookup(rows, k), k, now)], seen + {k},
                     Tallied(tally, Lookup(rows, k), cat[d.ruleId].severity))
      else AuditLoop(inp, cat, start, done + [d], now, rows, seen, tally)
  {
    InsertedStep(inp, cat, start, done, d, now);
    TallyStep(tally, inp, cat, start, done, d);
    AuditKeysOfPrefix(cat, inp.asset, done, d);
  }

  lemma AuditLoopStart(inp: AuditInput, cat: Catalog, t: Table, now: int)
    ensures AuditLoop(inp, cat, t, [], now, t, {}, Tally(0, 0, 0, NO_COUNTS))
  {
    assert Inserted(inp, cat, t, [], now) == t;
    forall s ensures ActiveReported(inp, cat, t, [], s) == {} {}
  }

  function Closed(inp: AuditInput, cat: Catalog, t: Table, now: int): Table {
    map k | k in t :: if Closes(inp, cat, t, k) then t[k].(status := Resolved, resolvedAt := Some(now)) else t[k]
  }

  lemma ClosedAfterInserts(inp: AuditInput, cat: Catalog, t: Table, now: int)
    ensures var mid := Inserted(inp, cat, t, inp.drafts, now);
      ClosedKeys(inp, cat, mid) == ClosedKeys(inp, cat, t) && Closed(inp, cat, mid, now) == Audited(inp, cat, t, now)
  {
  }

  lemma AuditLoopEnd(inp: AuditInput, cat: Catalog, start: Table, now: int, rows: Table, seen: set<Key>, tally: Tally)
    requires AuditLoop(inp, cat, start, inp.drafts, now, rows, seen, tally)
    ensures seen == AuditKeys(cat, inp.asset, inp.drafts)
    ensures ClosedKeys(inp, cat, rows) == ClosedKeys(inp, cat, start)
    ensures Closed(inp, cat, rows, now) == Audited(inp, cat, start, now)
    ensures AuditCountersMatch(tally, cat, inp.asset, start, inp.drafts)
    ensures forall s :: tally.bySeverity.Of(s) == |FailingOf(Audited(inp, cat, start, now), inp.asset, inp.account, s)|
  {
    ClosedAfterInserts(inp, cat, start, now);
    forall s ensures FailingOf(Audited(inp, cat, start, now), inp.asset, inp.account, s)
        == ActiveReported(inp, cat, start, inp.drafts, s) {
      FailingAfterAudit(inp, cat, start, now, s);
    }
  }

  /** The sum the service stores. */
  function Total(n: SeverityCounts): int {
    n.critical + n.high + n.medium + n.low + n.info
  }

  lemma TotalIsFailing(n: SeverityCounts, t: Table, asset: nat, account: nat)
    requires forall s :: n.Of(s) == |FailingOf(t, asset, account, s)|
    ensures Total(n) == |Failing(t, asset, account)|
  {
    FailingBySeverity(t, asset, account);
    assert Total(n) == n.Of(Critical) + n.Of(High) + n.Of(Medium) + n.Of(Low) + n.Of(Info);
  }

  // ---------------------------------------------------------------- the service in place

  class CloudStore {
    var rows: Table
    var failingFindingCount: map<nat, int>

    constructor ()
      ensures rows == map[] && failingFindingCount == map[]
    {
      rows, failingFindingCount := map[], map[];
    }

    method Report(inp: AuditInput, cat: Catalog, k: Key, now: int, tally: Tally) returns (tally': Tally)
      requires k.fp.ruleId in cat
      modifies this`rows
      ensures rows == old(rows)[k := AuditedRow(inp, cat, Lookup(old(rows), k), k, now)]
      ensures tally' == Tallied(tally, Lookup(old(rows), k), cat[k.fp.ruleId].severity)
    {
      var rule := cat[k.fp.ruleId];
      var due := DefaultDueDate(rule.severity, now);
      if k !in rows {
        rows := rows[k := Finding(inp.org, rule.category, rule.severity, Open, now, now, None, Some(due),
            Some(inp.account), None)];
        return tally.(created := tally.created + 1, bySeverity := tally.bySeverity.Plus(rule.severity));
      }
      var existing := rows[k];
      var base := existing.(category := rule.category, severity := rule.severity, lastSeen := now,
          account := Some(inp.account),
                            dueDate := if existing.dueDate.Some? then existing.dueDate else Some(due));
      if existing.status == Resolved {
        rows := rows[k := base.(status := Open, resolvedAt := None)];
        return tally.(reopened := tally.reopened + 1, bySeverity := tally.bySeverity.Plus(rule.severity));
      }
      rows := rows[k := base];
      tally' := tally.(updated := tally.updated + 1);
      if existing.status == Open || existing.status == InProgress || existing.status == Verifying {
        tally' := tally'.(bySeverity := tally'.bySeverity.Plus(rule.severity));
      }
    }

    /** One turn of the loop: unknown rules and fingerprints already seen are skipped. */
    method Consider(inp: AuditInput, cat: Catalog, d: CloudDraft, now: int, seen: set<Key>, tally: Tally,
        ghost start: Table, ghost done: seq<CloudDraft>)
        returns (seen': set<Key>, tally': Tally)
      requires AuditLoop(inp, cat, start, done, now, rows, seen, tally)
      modifies this`rows
      ensures AuditLoop(inp, cat, start, done + [d], now, rows, seen', tally')
    {
      AuditLoopStep(inp, cat, start, done, now, rows, seen, tally, d);
      var k := AuditKey(inp.asset, d);
      if d.ruleId !in cat || k in seen {
        return seen, tally;
      }
      seen' := seen + {k};
      tally' := Report(inp, cat, k, now, tally);
    }

    method ReportAll(inp: AuditInput, cat: Catalog, now: int) returns (seen: set<Key>, tally: Tally)
      modifies this`rows
      ensures AuditLoop(inp, cat, old(rows), inp.drafts, now, rows, seen, tally)
    {
      seen, tally := {}, Tally(0, 0, 0, NO_COUNTS);
      AuditLoopStart(inp, cat, rows, now);
      ghost var start, done := rows, [];
      var i := 0;
      while i < |inp.drafts|
        invariant 0 <= i <= |inp.drafts| && done == inp.drafts[..i]
        invariant AuditLoop(inp, cat, start, done, now, rows, seen, tally)
      {
        seen, tally := Consider(inp, cat, inp.drafts[i], now, seen, tally, start, done);
        done := done + [inp.drafts[i]];
        i := i + 1;
      }
      assert done == inp.drafts;
    }

    /** The updateMany that closes what the account no longer shows. */
    method CloseStale(inp: AuditInput, cat: Catalog, seen: set<Key>, now: int) returns (count: int)
      requires seen == AuditKeys(cat, inp.asset, inp.drafts)
      modifies this`rows
      ensures rows == Closed(inp, cat, old(rows), now)
      ensures count == |ClosedKeys(inp, cat, old(rows))|
    {
      var stale := set k | k in rows && k.asset == inp.asset && rows[k].account == Some(inp.account)
          && Active(rows[k].status) && k !in seen;
      assert stale == ClosedKeys(inp, cat, rows);
      rows := map k | k in rows :: if k in stale then rows[k].(status := Resolved, resolvedAt := Some(now))
          else rows[k];
      return |stale|;
    }

    /**
     * The transaction. The number stored with the account is the number of findings that are
     * really active for its asset and account afterwards, and so is each count by severity.
     */
    method RunAccountAudit(inp: AuditInput, cat: Catalog, now: int) returns (stats: AuditStats)
      modifies this
      ensures rows == Audited(inp, cat, old(rows), now) && AuditDone(inp, cat, old(rows), rows, now)
      ensures forall s :: stats.bySeverity.Of(s) == |FailingOf(rows, inp.asset, inp.account, s)|
      ensures stats.activeFindings == |Failing(rows, inp.asset, inp.account)|
      ensures failingFindingCount == old(failingFindingCount)[inp.account := stats.activeFindings]
      ensures AuditCountersMatch(Tally(stats.created, stats.updated, stats.reopened, stats.bySeverity), cat, inp.asset,
          old(rows), inp.drafts)
      ensures stats.resolved == |ClosedKeys(inp, cat, old(rows))|
    {
      ghost var start := rows;
      var seen, tally := ReportAll(inp, cat, now);
      AuditLoopEnd(inp, cat, start, now, rows, seen, tally);
      AuditedIsDone(inp, cat, start, now);
      var resolved := CloseStale(inp, cat, seen, now);
      var n := tally.bySeverity;
      TotalIsFailing(n, rows, inp.asset, inp.account);
      var activeFindings := n.critical + n.high + n.medium + n.low + n.info;
      failingFindingCount := failingFindingCount[inp.account := activeFindings];
      stats := AuditStats(tally.created, tally.updated, tally.reopened, resolved, activeFindings, n);
    }
  }

  // ---------------------------------------------------------------- due dates and repetition

  /** An audit gives every reported finding a due date and never moves one that is set. */
  lemma AuditKeepsDueDates(inp: AuditInput, cat: Catalog, t: Table, now: int, k: Key)
    ensures k in AuditKeys(cat, inp.asset, inp.drafts) ==>
        k in Audited(inp, cat, t, now) && Audited(inp, cat, t, now)[k].dueDate.Some?
    ensures k in t ==> k in Audited(inp, cat, t, now)
    ensures k in t && t[k].dueDate.Some? ==> Audited(inp, cat, t, now)[k].dueDate == t[k].dueDate
    ensures k in t && (t[k].status.Accepted? || t[k].status.FalsePositive?) ==>
        Audited(inp, cat, t, now)[k].status == t[k].status
  {
  }

  lemma AuditedRowOf(inp: AuditInput, cat: Catalog, t: Table, now: int, k: Key)
    requires k in AuditKeys(cat, inp.asset, inp.drafts)
    ensures var t' := Audited(inp, cat, t, now); k in t' && t'[k] == AuditedRow(inp, cat, Lookup(t, k), k, now)
  {
  }

  lemma NothingToOpen(inp: AuditInput, cat: Catalog, t: Table, now: int)
    ensures var t' := Audited(inp, cat, t, now);
      NewKeys(cat, inp.asset, inp.drafts, t') == ReturningKeys(cat, inp.asset, inp.drafts, t') == {}
  {
    var t' := Audited(inp, cat, t, now);
    forall k | k in AuditKeys(cat, inp.asset, inp.drafts) ensures k in t' && !t'[k].status.Resolved? {
      AuditedRowOf(inp, cat, t, now, k);
    }
  }

  lemma NothingToClose(inp: AuditInput, cat: Catalog, t: Table, now: int)
    ensures ClosedKeys(inp, cat, Audited(inp, cat, t, now)) == {}
  {
  }

  /** An audit on top of another with the same reports finds each of its reported findings in the same state. */
  lemma SameFailing(inp: AuditInput, cat: Catalog, t: Table, now: int, later: int, s: Severity)
    ensures var t' := Audited(inp, cat, t, now);
      FailingOf(Audited(inp, cat, t', later), inp.asset, inp.account, s) == FailingOf(t', inp.asset, inp.account, s)
  {
    var t' := Audited(inp, cat, t, now);
    FailingAfterAudit(inp, cat, t', later, s);
    FailingAfterAudit(inp, cat, t, now, s);
    forall k | k in AuditKeys(cat, inp.asset, inp.drafts) ensures EndsActive(t', k) <==> EndsActive(t, k) {
      AuditedRowOf(inp, cat, t, now, k);
    }
  }

  /** Repeating an audit opens and closes nothing, and leaves the same failing findings of each severity. */
  lemma AuditIsIdempotent(inp: AuditInput, cat: Catalog, t: Table, now: int, later: int, s: Severity)
    ensures var t' := Audited(inp, cat, t, now);
      && NewKeys(cat, inp.asset, inp.drafts, t') == ReturningKeys(cat, inp.asset, inp.drafts, t')
           == ClosedKeys(inp, cat, t') == {}
      && FailingOf(Audited(inp, cat, t', later), inp.asset, inp.account, s) == FailingOf(t', inp.asset, inp.account, s)
  {
    NothingToOpen(inp, cat, t, now);
    NothingToClose(inp, cat, t, now);
    SameFailing(inp, cat, t, now, later, s);
  }
}
