/**
 * Reconciliation of a scan's drafts with the findings table (findings.service.ts, syncForScan).
 * The table is keyed by (asset, fingerprint), and a fingerprint is the pair (rule, location).
 */
module Findings {
  import opened Base
  import Q = ScanQueue

  datatype Category =
    | ExposedService | HttpHeaders | TlsCertificate | SensitivePath | VulnerableSoftware | EmailSecurity
    | CloudIam | CloudStorage | CloudNetwork | CloudCompute | CloudDatabase | CloudLogging

  datatype Status = Open | InProgress | Verifying | Resolved | Accepted | FalsePositive

  datatype Fingerprint = Fingerprint(ruleId: string, location: string)

  datatype Key = Key(asset: nat, fp: Fingerprint)

  datatype Finding = Finding(
    org: nat, category: Category, severity: Severity, status: Status, firstSeen: int, lastSeen: int,
    resolvedAt: Option<int>, dueDate: Option<int>, account: Option<nat>, lastScan: Option<nat>)

  type Table = map<Key, Finding>

  datatype Rule = Rule(category: Category, severity: Severity)

  type Catalog = map<string, Rule>

  datatype Draft = Draft(ruleId: string, location: string, severity: Option<Severity>)

  /** The statuses that count as active: the code's three, not only OPEN. */
  predicate Active(st: Status) {
    st.Open? || st.InProgress? || st.Verifying?
  }

  function CategoriesOf(t: Q.ScanType): set<Category> {
    match t
    case PortScan => {ExposedService, VulnerableSoftware}
    case WebHeaders => {HttpHeaders}
    case SslCert => {TlsCertificate}
    case SensitivePaths => {SensitivePath}
    case EmailSecurity => {Category.EmailSecurity}
    case SubdomainDiscovery => {}
  }

  datatype SyncInput = SyncInput(org: nat, asset: nat, scan: nat, scanType: Q.ScanType, drafts: seq<Draft>,
      incomplete: set<Category>)

  datatype SyncCounts = SyncCounts(created: int, updated: int, reopened: int, resolved: int, bySeverity: SeverityCounts)

  datatype Opened = Opened(key: Key, reopened: bool)

  // ---------------------------------------------------------------- the set-level specification

  function KeyOf(asset: nat, d: Draft): Key {
    Key(asset, Fingerprint(d.ruleId, d.location))
  }

  function DraftKeys(asset: nat, drafts: seq<Draft>): set<Key> {
    set i | 0 <= i < |drafts| :: KeyOf(asset, drafts[i])
  }

  /** The earliest draft of a fingerprint; later duplicates are ignored. */
  function FirstDraft(asset: nat, drafts: seq<Draft>, k: Key): Draft
    requires k in DraftKeys(asset, drafts)
  {
    if KeyOf(asset, drafts[0]) == k then drafts[0]
    else assert k in DraftKeys(asset, drafts[1..]) by { KeysOfTail(asset, drafts); } FirstDraft(asset, drafts[1..], k)
  }

  lemma KeysOfTail(asset: nat, drafts: seq<Draft>)
    requires drafts != []
    ensures DraftKeys(asset, drafts) == {KeyOf(asset, drafts[0])} + DraftKeys(asset, drafts[1..])
  {
    forall k | k in DraftKeys(asset, drafts) ensures k in {KeyOf(asset, drafts[0])} + DraftKeys(asset, drafts[1..]) {
      var i :| 0 <= i < |drafts| && KeyOf(asset, drafts[i]) == k;
      if i > 0 { assert drafts[1..][i - 1] == drafts[i]; }
    }
    forall k | k in DraftKeys(asset, drafts[1..]) ensures k in DraftKeys(asset, drafts) {
      var i :| 0 <= i < |drafts[1..]| && KeyOf(asset, drafts[1..][i]) == k;
      assert drafts[i + 1] == drafts[1..][i];
    }
  }

  lemma KeysOfPrefix(asset: nat, drafts: seq<Draft>, d: Draft)
    ensures DraftKeys(asset, drafts + [d]) == DraftKeys(asset, drafts) + {KeyOf(asset, d)}
  {
    var all := drafts + [d];
    assert all[|drafts|] == d;
    forall k | k in DraftKeys(asset, drafts) ensures k in DraftKeys(asset, all) {
      var i :| 0 <= i < |drafts| && KeyOf(asset, drafts[i]) == k;
      assert all[i] == drafts[i];
    }
  }

  lemma {:induction false} FirstDraftOfPrefix(asset: nat, drafts: seq<Draft>, d: Draft, k: Key)
    requires k in DraftKeys(asset, drafts + [d])
    ensures FirstDraft(asset, drafts + [d], k)
        == if k in DraftKeys(asset, drafts) then FirstDraft(asset, drafts, k) else d
  {
    if drafts != [] {
      KeysOfTail(asset, drafts);
      KeysOfTail(asset, drafts + [d]);
      assert (drafts + [d])[1..] == drafts[1..] + [d];
      if KeyOf(asset, drafts[0]) != k {
        FirstDraftOfPrefix(asset, drafts[1..], d, k);
      }
    }
  }

  function SeverityOf(cat: Catalog, d: Draft): Severity
    requires d.ruleId in cat
  {
    d.severity.GetOr(cat[d.ruleId].severity)
  }

  predicate AllKnown(cat: Catalog, drafts: seq<Draft>) {
    forall i :: 0 <= i < |drafts| ==> drafts[i].ruleId in cat
  }

  function Lookup(t: Table, k: Key): Option<Finding> {
    if k in t then Some(t[k]) else None
  }

  /** A row after its draft was seen: created, reopened or refreshed. */
  function Detected(inp: SyncInput, cat: Catalog, before: Option<Finding>, d: Draft, now: int): Finding
    requires d.ruleId in cat
  {
    match before
    case None =>
      Finding(inp.org, cat[d.ruleId].category, SeverityOf(cat, d), Open, now, now, None, None, None, Some(inp.scan))
    case Some(f) =>
      var g := f.(category := cat[d.ruleId].category, severity := SeverityOf(cat, d), lastSeen := now,
          lastScan := Some(inp.scan));
      if f.status.Resolved? then g.(status := Open, resolvedAt := None) else g
  }

  lemma {:induction false} FirstDraftIsDrafted(asset: nat, drafts: seq<Draft>, k: Key)
    requires k in DraftKeys(asset, drafts)
    ensures FirstDraft(asset, drafts, k) in drafts && KeyOf(asset, FirstDraft(asset, drafts, k)) == k
  {
    if KeyOf(asset, drafts[0]) != k {
      KeysOfTail(asset, drafts);
      FirstDraftIsDrafted(asset, drafts[1..], k);
    }
  }

  /** Findings of complete categories that the scan no longer reports. */
  predicate Gone(inp: SyncInput, t: Table, k: Key) {
    && k in t && k.asset == inp.asset && k !in DraftKeys(inp.asset, inp.drafts)
    && t[k].category in CategoriesOf(inp.scanType) - inp.incomplete && Active(t[k].status)
  }

  function RowAfter(inp: SyncInput, cat: Catalog, t: Table, now: int, k: Key): Finding
    requires AllKnown(cat, inp.drafts) && k in t.Keys + DraftKeys(inp.asset, inp.drafts)
  {
    if k in DraftKeys(inp.asset, inp.drafts) then
      FirstDraftIsDrafted(inp.asset, inp.drafts, k);
      Detected(inp, cat, Lookup(t, k), FirstDraft(inp.asset, inp.drafts, k), now)
    else if Gone(inp, t, k) then t[k].(status := Resolved, resolvedAt := Some(now))
    else t[k]
  }

  /** The whole sync, row by row. */
  function Reconciled(inp: SyncInput, cat: Catalog, t: Table, now: int): Table
    requires AllKnown(cat, inp.drafts)
  {
    map k | k in t.Keys + DraftKeys(inp.asset, inp.drafts) :: RowAfter(inp, cat, t, now, k)
  }

  function CreatedKeys(asset: nat, drafts: seq<Draft>, t: Table): set<Key> {
    set k | k in DraftKeys(asset, drafts) && k !in t
  }

  function ReopenedKeys(asset: nat, drafts: seq<Draft>, t: Table): set<Key> {
    set k | k in DraftKeys(asset, drafts) && k in t && t[k].status.Resolved?
  }

  function UpdatedKeys(asset: nat, drafts: seq<Draft>, t: Table): set<Key> {
    set k | k in DraftKeys(asset, drafts) && k in t && !t[k].status.Resolved?
  }

  function GoneKeys(inp: SyncInput, t: Table): set<Key> {
    set k | k in t && Gone(inp, t, k)
  }

  function KeysOfSeverity(cat: Catalog, asset: nat, drafts: seq<Draft>, s: Severity): set<Key>
    requires AllKnown(cat, drafts)
  {
    set k | k in DraftKeys(asset, drafts)
        && (FirstDraftIsDrafted(asset, drafts, k); SeverityOf(cat, FirstDraft(asset, drafts, k)) == s)
  }

  /** The counters a sync reports, by what they count. */
  ghost predicate CountersMatch(counts: SyncCounts, asset: nat, drafts: seq<Draft>, t: Table) {
    && counts.created == |CreatedKeys(asset, drafts, t)|
    && counts.updated == |UpdatedKeys(asset, drafts, t)|
    && counts.reopened == |ReopenedKeys(asset, drafts, t)|
  }

  ghost predicate SeveritiesMatch(bySeverity: SeverityCounts, cat: Catalog, asset: nat, drafts: seq<Draft>)
    requires AllKnown(cat, drafts)
  {
    forall s :: bySeverity.Of(s) == |KeysOfSeverity(cat, asset, drafts, s)|
  }

  ghost predicate CountsMatch(counts: SyncCounts, cat: Catalog, asset: nat, drafts: seq<Draft>, t: Table)
    requires AllKnown(cat, drafts)
  {
    CountersMatch(counts, asset, drafts, t) && SeveritiesMatch(counts.bySeverity, cat, asset, drafts)
  }

  /** The findings that went to OPEN, for the alerts: exactly the created and the reopened ones, once each. */
  ghost predicate OpenedMatch(raised: seq<Opened>, asset: nat, drafts: seq<Draft>, t: Table) {
    && (forall k :: Opened(k, false) in raised <==> k in CreatedKeys(asset, drafts, t))
    && (forall k :: Opened(k, true) in raised <==> k in ReopenedKeys(asset, drafts, t))
    && (forall i, j :: 0 <= i < j < |raised| ==> raised[i] != raised[j])
  }

  // ---------------------------------------------------------------- what a sync makes of each row

  /** Who answers for a category: the scan type whose results may close its findings. */
  function Answerable(c: Category): Option<Q.ScanType> {
    match c
    case ExposedService => Some(Q.PortScan)
    case VulnerableSoftware => Some(Q.PortScan)
    case HttpHeaders => Some(Q.WebHeaders)
    case TlsCertificate => Some(Q.SslCert)
    case SensitivePath => Some(Q.SensitivePaths)
    case EmailSecurity => Some(Q.EmailSecurity)
    case CloudIam => None
    case CloudStorage => None
    case CloudNetwork => None
    case CloudCompute => None
    case CloudDatabase => None
    case CloudLogging => None
  }

  lemma WhoOwns(t: Q.ScanType, c: Category)
    ensures c in CategoriesOf(t) <==> Answerable(c) == Some(t)
  {
  }

  /** Some draft of the scan has the rule and the location of the row. */
  predicate Mentions(inp: SyncInput, k: Key) {
    exists i :: 0 <= i < |inp.drafts| && inp.drafts[i].ruleId == k.fp.ruleId && inp.drafts[i].location == k.fp.location
  }

  /** Draft `i` is the first of its rule and location. */
  predicate IsFirst(drafts: seq<Draft>, i: nat) {
    && i < |drafts|
    && forall j :: 0 <= j < i ==> drafts[j].ruleId != drafts[i].ruleId || drafts[j].location != drafts[i].location
  }

  lemma MentionedIsDrafted(inp: SyncInput, k: Key)
    requires k.asset == inp.asset
    ensures k in DraftKeys(inp.asset, inp.drafts) <==> Mentions(inp, k)
  {
    if Mentions(inp, k) {
      var i :| 0 <= i < |inp.drafts| && inp.drafts[i].ruleId == k.fp.ruleId && inp.drafts[i].location == k.fp.location;
      assert KeyOf(inp.asset, inp.drafts[i]) == k;
    }
  }

  lemma {:induction false} FirstIsFirstDraft(asset: nat, drafts: seq<Draft>, i: nat)
    requires IsFirst(drafts, i)
    ensures KeyOf(asset, drafts[i]) in DraftKeys(asset, drafts)
    ensures FirstDraft(asset, drafts, KeyOf(asset, drafts[i])) == drafts[i]
  {
    if i > 0 {
      assert drafts[1..][i - 1] == drafts[i];
      forall j | 0 <= j < i - 1
        ensures drafts[1..][j].ruleId != drafts[i].ruleId || drafts[1..][j].location != drafts[i].location
      {
        assert drafts[1..][j] == drafts[j + 1];
      }
      FirstIsFirstDraft(asset, drafts[1..], i - 1);
      KeysOfTail(asset, drafts);
    }
  }

  /**
   * A reported finding: the first draft of a rule and location opens it, opens it again when it was
   * RESOLVED, and refreshes it otherwise; the rule gives its category, and its severity unless the
   * draft has one of its own.
   */
  ghost predicate Stored(inp: SyncInput, cat: Catalog, before: Table, after: Table, now: int, i: nat)
    requires i < |inp.drafts| && inp.drafts[i].ruleId in cat
  {
    var d := inp.drafts[i];
    var k := Key(inp.asset, Fingerprint(d.ruleId, d.location));
    var severity := if d.severity.Some? then d.severity.value else cat[d.ruleId].severity;
    && k in after
    && after[k].category == cat[d.ruleId].category && after[k].severity == severity
    && after[k].lastSeen == now && after[k].lastScan == Some(inp.scan)
    && if k !in before then
         && after[k].org == inp.org && after[k].status == Open && after[k].firstSeen == now
         && after[k].resolvedAt == None && after[k].dueDate == None && after[k].account == None
       else
         && after[k].org == before[k].org && after[k].firstSeen == before[k].firstSeen
         && after[k].dueDate == before[k].dueDate && after[k].account == before[k].account
         && if before[k].status == Resolved then after[k].status == Open && after[k].resolvedAt == None
            else after[k].status == before[k].status && after[k].resolvedAt == before[k].resolvedAt
  }

  /**
   * An unreported finding of the scanned asset is RESOLVED now if it was open, in progress or being
   * verified, its category was evaluated completely, and the scan is of the type that answers for the
   * category; every other row stays as it was.
   */
  ghost predicate ClosedOrKept(inp: SyncInput, before: Table, after: Table, now: int, k: Key)
    requires k in before
  {
    && k in after
    && if && k.asset == inp.asset && before[k].status in {Open, InProgress, Verifying}
          && before[k].category !in inp.incomplete && Answerable(before[k].category) == Some(inp.scanType)
       then after[k] == before[k].(status := Resolved, resolvedAt := Some(now))
       else after[k] == before[k]
  }

  /** What a sync does, row by row. */
  ghost predicate Synced(inp: SyncInput, cat: Catalog, before: Table, after: Table, now: int) {
    && (forall i | 0 <= i < |inp.drafts| && IsFirst(inp.drafts, i) ::
         inp.drafts[i].ruleId in cat && Stored(inp, cat, before, after, now, i))
    && (forall k | k in before && !(k.asset == inp.asset && Mentions(inp, k)) ::
         ClosedOrKept(inp, before, after, now, k))
    && (forall k :: k in after ==> k in before || (k.asset == inp.asset && Mentions(inp, k)))
  }

  lemma ReconciledIsSynced(inp: SyncInput, cat: Catalog, t: Table, now: int)
    requires AllKnown(cat, inp.drafts)
    ensures Synced(inp, cat, t, Reconciled(inp, cat, t, now), now)
  {
    var t' := Reconciled(inp, cat, t, now);
    forall i | 0 <= i < |inp.drafts| && IsFirst(inp.drafts, i) ensures Stored(inp, cat, t, t', now, i) {
      FirstIsFirstDraft(inp.asset, inp.drafts, i);
    }
    forall k | k in t && !(k.asset == inp.asset && Mentions(inp, k)) ensures ClosedOrKept(inp, t, t', now, k) {
      if k.asset == inp.asset { MentionedIsDrafted(inp, k); } else { DraftedHere(inp, k); }
      WhoOwns(inp.scanType, t[k].category);
    }
    forall k | k in t' && k !in t ensures k.asset == inp.asset && Mentions(inp, k) {
      DraftedHere(inp, k);
      MentionedIsDrafted(inp, k);
    }
  }

  lemma DraftedHere(inp: SyncInput, k: Key)
    ensures k in DraftKeys(inp.asset, inp.drafts) ==> k.asset == inp.asset
  {
    if k in DraftKeys(inp.asset, inp.drafts) { FirstDraftIsDrafted(inp.asset, inp.drafts, k); }
  }

  /**
   * An unreported active row of the scanned asset, in a completely evaluated category, is RESOLVED
   * afterwards if and only if the scan's type is the one that answers for the row's category. So no
   * scan closes a finding of a cloud category.
   */
  lemma ClosesOnlyItsOwn(inp: SyncInput, cat: Catalog, t: Table, now: int, k: Key)
    requires AllKnown(cat, inp.drafts) && k in t && k.asset == inp.asset && !Mentions(inp, k)
    requires t[k].status == Open || t[k].status == InProgress || t[k].status == Verifying
    requires t[k].category !in inp.incomplete
    ensures k in Reconciled(inp, cat, t, now)
    ensures Reconciled(inp, cat, t, now)[k].status == Resolved <==> Answerable(t[k].category) == Some(inp.scanType)
    ensures t[k].category in {CloudIam, CloudStorage, CloudNetwork, CloudCompute, CloudDatabase, CloudLogging} ==>
      Reconciled(inp, cat, t, now)[k] == t[k]
  {
    ReconciledIsSynced(inp, cat, t, now);
    assert ClosedOrKept(inp, t, Reconciled(inp, cat, t, now), now, k);
  }

  // ---------------------------------------------------------------- the loop over the drafts

  function Upserted(inp: SyncInput, cat: Catalog, t: Table, drafts: seq<Draft>, now: int): Table
    requires AllKnown(cat, drafts)
  {
    map k | k in t.Keys + DraftKeys(inp.asset, drafts) ::
      if k in DraftKeys(inp.asset, drafts) then
        FirstDraftIsDrafted(inp.asset, drafts, k);
        Detected(inp, cat, Lookup(t, k), FirstDraft(inp.asset, drafts, k), now)
      else t[k]
  }

  lemma UpsertedStep(inp: SyncInput, cat: Catalog, t: Table, drafts: seq<Draft>, d: Draft, now: int)
    requires AllKnown(cat, drafts + [d]) && AllKnown(cat, drafts) && d.ruleId in cat
    ensures var k := KeyOf(inp.asset, d); var done := Upserted(inp, cat, t, drafts, now);
      Upserted(inp, cat, t, drafts + [d], now) ==
        if k in DraftKeys(inp.asset, drafts) then done else done[k := Detected(inp, cat, Lookup(t, k), d, now)]
    ensures KeyOf(inp.asset, d) !in DraftKeys(inp.asset, drafts) ==>
      Lookup(Upserted(inp, cat, t, drafts, now), KeyOf(inp.asset, d)) == Lookup(t, KeyOf(inp.asset, d))
  {
    KeysOfPrefix(inp.asset, drafts, d);
    var k0 := KeyOf(inp.asset, d);
    var done, next := Upserted(inp, cat, t, drafts, now), Upserted(inp, cat, t, drafts + [d], now);
    forall k | k in DraftKeys(inp.asset, drafts + [d])
      ensures FirstDraft(inp.asset, drafts + [d], k)
          == if k in DraftKeys(inp.asset, drafts) then FirstDraft(inp.asset, drafts, k) else d
    {
      FirstDraftOfPrefix(inp.asset, drafts, d, k);
    }
  }

  lemma SeverityStep(cat: Catalog, asset: nat, drafts: seq<Draft>, d: Draft, s: Severity)
    requires AllKnown(cat, drafts + [d]) && AllKnown(cat, drafts) && d.ruleId in cat
    ensures KeysOfSeverity(cat, asset, drafts + [d], s) == KeysOfSeverity(cat, asset, drafts, s)
      + if KeyOf(asset, d) !in DraftKeys(asset, drafts) && SeverityOf(cat, d) == s then {KeyOf(asset, d)} else {}
  {
    KeysOfPrefix(asset, drafts, d);
    forall k | k in DraftKeys(asset, drafts + [d])
      ensures FirstDraft(asset, drafts + [d], k)
          == if k in DraftKeys(asset, drafts) then FirstDraft(asset, drafts, k) else d
    {
      FirstDraftOfPrefix(asset, drafts, d, k);
    }
  }

  lemma CreatedStep(asset: nat, drafts: seq<Draft>, t: Table, d: Draft)
    ensures var k := KeyOf(asset, d);
      |CreatedKeys(asset, drafts + [d], t)| == |CreatedKeys(asset, drafts, t)|
          + if k !in DraftKeys(asset, drafts) && k !in t then 1 else 0
  {
    KeysOfPrefix(asset, drafts, d);
    var k := KeyOf(asset, d);
    if k !in DraftKeys(asset, drafts) && k !in t {
      assert CreatedKeys(asset, drafts + [d], t) == CreatedKeys(asset, drafts, t) + {k};
    } else {
      assert CreatedKeys(asset, drafts + [d], t) == CreatedKeys(asset, drafts, t);
    }
  }

  lemma ReopenedStep(asset: nat, drafts: seq<Draft>, t: Table, d: Draft)
    ensures var k := KeyOf(asset, d);
      |ReopenedKeys(asset, drafts + [d], t)| ==
        |ReopenedKeys(asset, drafts, t)|
            + if k !in DraftKeys(asset, drafts) && k in t && t[k].status.Resolved? then 1 else 0
  {
    KeysOfPrefix(asset, drafts, d);
    var k := KeyOf(asset, d);
    if k !in DraftKeys(asset, drafts) && k in t && t[k].status.Resolved? {
      assert ReopenedKeys(asset, drafts + [d], t) == ReopenedKeys(asset, drafts, t) + {k};
    } else {
      assert ReopenedKeys(asset, drafts + [d], t) == ReopenedKeys(asset, drafts, t);
    }
  }

  lemma UpdatedStep(asset: nat, drafts: seq<Draft>, t: Table, d: Draft)
    ensures var k := KeyOf(asset, d);
      |UpdatedKeys(asset, drafts + [d], t)| ==
        |UpdatedKeys(asset, drafts, t)|
            + if k !in DraftKeys(asset, drafts) && k in t && !t[k].status.Resolved? then 1 else 0
  {
    KeysOfPrefix(asset, drafts, d);
    var k := KeyOf(asset, d);
    if k !in DraftKeys(asset, drafts) && k in t && !t[k].status.Resolved? {
      assert UpdatedKeys(asset, drafts + [d], t) == UpdatedKeys(asset, drafts, t) + {k};
    } else {
      assert UpdatedKeys(asset, drafts + [d], t) == UpdatedKeys(asset, drafts, t);
    }
  }

  lemma CountersStep(counts: SyncCounts, asset: nat, drafts: seq<Draft>, t: Table, d: Draft, s: Severity)
    requires CountersMatch(counts, asset, drafts, t)
    ensures CountersMatch(
      if KeyOf(asset, d) in DraftKeys(asset, drafts) then counts
          else Bumped(counts, Lookup(t, KeyOf(asset, d)), s), asset, drafts + [d], t)
  {
    CreatedStep(asset, drafts, t, d);
    ReopenedStep(asset, drafts, t, d);
    UpdatedStep(asset, drafts, t, d);
  }

  lemma SeverityCountStep(cat: Catalog, asset: nat, drafts: seq<Draft>, d: Draft, s: Severity)
    requires AllKnown(cat, drafts + [d]) && AllKnown(cat, drafts) && d.ruleId in cat
    ensures |KeysOfSeverity(cat, asset, drafts + [d], s)| == |KeysOfSeverity(cat, asset, drafts, s)|
      + if KeyOf(asset, d) !in DraftKeys(asset, drafts) && SeverityOf(cat, d) == s then 1 else 0
  {
    SeverityStep(cat, asset, drafts, d, s);
    assert KeysOfSeverity(cat, asset, drafts, s) <= DraftKeys(asset, drafts);
  }

  lemma SeveritiesStep(bySeverity: SeverityCounts, cat: Catalog, asset: nat, drafts: seq<Draft>, d: Draft)
    requires AllKnown(cat, drafts + [d]) && AllKnown(cat, drafts) && d.ruleId in cat
    requires SeveritiesMatch(bySeverity, cat, asset, drafts)
    ensures var s := SeverityOf(cat, d);
      SeveritiesMatch(if KeyOf(asset, d) in DraftKeys(asset, drafts) then bySeverity
          else bySeverity.Plus(s), cat, asset, drafts + [d])
  {
    forall s ensures |KeysOfSeverity(cat, asset, drafts + [d], s)| == bySeverity.Of(s)
      + if KeyOf(asset, d) !in DraftKeys(asset, drafts) && SeverityOf(cat, d) == s then 1 else 0
    {
      SeverityCountStep(cat, asset, drafts, d, s);
    }
  }

  /** One new fingerprint moves exactly one of the three counters and one severity. */
  lemma CountsStep(counts: SyncCounts, cat: Catalog, asset: nat, drafts: seq<Draft>, t: Table, d: Draft)
    requires AllKnown(cat, drafts + [d]) && AllKnown(cat, drafts) && d.ruleId in cat
    requires CountsMatch(counts, cat, asset, drafts, t)
    ensures CountsMatch(
      if KeyOf(asset, d) in DraftKeys(asset, drafts) then counts
      else Bumped(counts, Lookup(t, KeyOf(asset, d)), SeverityOf(cat, d)), cat, asset, drafts + [d], t)
  {
    CountersStep(counts, asset, drafts, t, d, SeverityOf(cat, d));
    SeveritiesStep(counts.bySeverity, cat, asset, drafts, d);
  }

  function Bumped(counts: SyncCounts, before: Option<Finding>, s: Severity): SyncCounts
  {
    var c := counts.(bySeverity := counts.bySeverity.Plus(s));
    match before
    case None => c.(created := c.created + 1)
    case Some(f) => if f.status.Resolved? then c.(reopened := c.reopened + 1) else c.(updated := c.updated + 1)
  }

  function RaisedWith(raised: seq<Opened>, k: Key, before: Option<Finding>): seq<Opened> {
    if before.Some? && !before.value.status.Resolved? then raised else raised + [Opened(k, before.Some?)]
  }

  lemma OpenedStep(raised: seq<Opened>, asset: nat, drafts: seq<Draft>, t: Table, d: Draft)
    requires OpenedMatch(raised, asset, drafts, t)
    ensures var k := KeyOf(asset, d);
      OpenedMatch(if k in DraftKeys(asset, drafts) then raised
          else RaisedWith(raised, k, Lookup(t, k)), asset, drafts + [d], t)
  {
    KeysOfPrefix(asset, drafts, d);
  }

  /** Where the loop stands once it has handled `done`. */
  ghost predicate LoopState(inp: SyncInput, cat: Catalog, start: Table, done: seq<Draft>, now: int, rows: Table,
      seen: set<Key>, counts: SyncCounts, raised: seq<Opened>) {
    && AllKnown(cat, done)
    && rows == Upserted(inp, cat, start, done, now)
    && seen == DraftKeys(inp.asset, done)
    && CountsMatch(counts, cat, inp.asset, done, start)
    && OpenedMatch(raised, inp.asset, done, start)
  }

  lemma LoopStep(inp: SyncInput, cat: Catalog, start: Table, done: seq<Draft>, now: int, rows: Table,
      seen: set<Key>, counts: SyncCounts, raised: seq<Opened>, d: Draft)
    requires LoopState(inp, cat, start, done, now, rows, seen, counts, raised) && d.ruleId in cat
    ensures var k := KeyOf(inp.asset, d); var before := Lookup(rows, k);
      if k in seen then LoopState(inp, cat, start, done + [d], now, rows, seen, counts, raised)
      else LoopState(inp, cat, start, done + [d], now, rows[k := Detected(inp, cat, before, d, now)], seen + {k},
                     Bumped(counts, before, SeverityOf(cat, d)), RaisedWith(raised, k, before))
  {
    UpsertedStep(inp, cat, start, done, d, now);
    CountsStep(counts, cat, inp.asset, done, start, d);
    OpenedStep(raised, inp.asset, done, start, d);
    KeysOfPrefix(inp.asset, done, d);
  }

  /** The closing update on its own. */
  function Swept(inp: SyncInput, t: Table, now: int): Table {
    map k | k in t :: if Gone(inp, t, k) then t[k].(status := Resolved, resolvedAt := Some(now)) else t[k]
  }

  /** The loop leaves the rows it does not report alone, so the closing update sees the same ones. */
  lemma SweptAfterUpserts(inp: SyncInput, cat: Catalog, t: Table, now: int)
    requires AllKnown(cat, inp.drafts)
    ensures var mid := Upserted(inp, cat, t, inp.drafts, now);
      GoneKeys(inp, mid) == GoneKeys(inp, t) && Swept(inp, mid, now) == Reconciled(inp, cat, t, now)
  {
  }

  lemma LoopEnd(inp: SyncInput, cat: Catalog, start: Table, now: int, rows: Table, seen: set<Key>,
      counts: SyncCounts, raised: seq<Opened>)
    requires LoopState(inp, cat, start, inp.drafts, now, rows, seen, counts, raised)
    ensures AllKnown(cat, inp.drafts) && seen == DraftKeys(inp.asset, inp.drafts)
    ensures GoneKeys(inp, rows) == GoneKeys(inp, start)
    ensures Swept(inp, rows, now) == Reconciled(inp, cat, start, now)
    ensures forall n :: CountsMatch(counts.(resolved := n), cat, inp.asset, inp.drafts, start)
    ensures OpenedMatch(raised, inp.asset, inp.drafts, start)
  {
    SweptAfterUpserts(inp, cat, start, now);
    forall n: int ensures CountsMatch(counts.(resolved := n), cat, inp.asset, inp.drafts, start) {
      assert CountersMatch(counts.(resolved := n), inp.asset, inp.drafts, start);
    }
  }

  // ---------------------------------------------------------------- the service in place

  class FindingTable {
    var rows: Table

    constructor ()
      ensures rows == map[]
    {
      rows := map[];
    }

    /** The body of the loop for a fingerprint seen for the first time. */
    method Detect(cat: Catalog, inp: SyncInput, d: Draft, now: int, counts: SyncCounts, raised: seq<Opened>)
        returns (counts': SyncCounts, raised': seq<Opened>)
      requires d.ruleId in cat
      modifies this
      ensures var k := KeyOf(inp.asset, d); var before := Lookup(old(rows), k);
        && rows == old(rows)[k := Detected(inp, cat, before, d, now)]
        && counts' == Bumped(counts, before, SeverityOf(cat, d))
        && raised' == RaisedWith(raised, k, before)
    {
      var k := KeyOf(inp.asset, d);
      var severity := d.severity.GetOr(cat[d.ruleId].severity);
      counts', raised' := counts, raised;
      if k !in rows {
        rows := rows[k := Finding(inp.org, cat[d.ruleId].category, severity, Open, now, now, None, None, None,
            Some(inp.scan))];
        counts' := counts'.(created := counts'.created + 1);
        raised' := raised' + [Opened(k, false)];
      } else {
        var data := rows[k].(category := cat[d.ruleId].category, severity := severity, lastSeen := now,
            lastScan := Some(inp.scan));
        if rows[k].status == Resolved {
          rows := rows[k := data.(status := Open, resolvedAt := None)];
          counts' := counts'.(reopened := counts'.reopened + 1);
          raised' := raised' + [Opened(k, true)];
        } else {
          rows := rows[k := data];
          counts' := counts'.(updated := counts'.updated + 1);
        }
      }
      counts' := counts'.(bySeverity := counts'.bySeverity.Plus(severity));
    }

    /** One turn of the loop: a fingerprint already seen is skipped. */
    method Consider(cat: Catalog, inp: SyncInput, d: Draft, now: int, counts: SyncCounts, raised: seq<Opened>,
        seen: set<Key>, ghost start: Table, ghost done: seq<Draft>)
        returns (counts': SyncCounts, raised': seq<Opened>, seen': set<Key>)
      requires d.ruleId in cat && LoopState(inp, cat, start, done, now, rows, seen, counts, raised)
      modifies this
      ensures LoopState(inp, cat, start, done + [d], now, rows, seen', counts', raised')
    {
      LoopStep(inp, cat, start, done, now, rows, seen, counts, raised, d);
      var k := KeyOf(inp.asset, d);
      if k in seen {
        return counts, raised, seen;
      }
      seen' := seen + {k};
      counts', raised' := Detect(cat, inp, d, now, counts, raised);
    }

    /** The updateMany that closes what the scan no longer reports. */
    method ResolveGone(inp: SyncInput, seen: set<Key>, now: int) returns (count: nat)
      requires seen == DraftKeys(inp.asset, inp.drafts)
      modifies this
      ensures rows == Swept(inp, old(rows), now)
      ensures count == |GoneKeys(inp, old(rows))|
      ensures rows.Keys == old(rows).Keys
      ensures forall k | k in rows && k !in seen :: ClosedOrKept(inp, old(rows), rows, now, k)
      ensures forall k | k in rows && k in seen :: rows[k] == old(rows)[k]
    {
      forall c: Category ensures c in CategoriesOf(inp.scanType) <==> Answerable(c) == Some(inp.scanType) {
        WhoOwns(inp.scanType, c);
      }
      var categories := CategoriesOf(inp.scanType) - inp.incomplete;
      var stale := set k | k in rows && k.asset == inp.asset && rows[k].category in categories
          && Active(rows[k].status) && k !in seen;
      assert stale == GoneKeys(inp, rows);
      count := |stale|;
      if categories == {} {
        assert forall k :: k !in stale;
        return;
      }
      rows := map k | k in rows :: if k in stale then rows[k].(status := Resolved, resolvedAt := Some(now))
          else rows[k];
    }

    /** The loop over the drafts; it throws at the first unknown rule. */
    method ApplyDrafts(cat: Catalog, inp: SyncInput, now: int) returns (known: bool, counts: SyncCounts,
        raised: seq<Opened>, seen: set<Key>)
      modifies this
      ensures known <==> AllKnown(cat, inp.drafts)
      ensures known ==> LoopState(inp, cat, old(rows), inp.drafts, now, rows, seen, counts, raised)
    {
      counts, raised, seen := SyncCounts(0, 0, 0, 0, NO_COUNTS), [], {};
      LoopStart(inp, cat, rows, now);
      ghost var start, done := rows, [];
      var i := 0;
      while i < |inp.drafts|
        invariant 0 <= i <= |inp.drafts| && done == inp.drafts[..i]
        invariant LoopState(inp, cat, start, done, now, rows, seen, counts, raised)
      {
        var d := inp.drafts[i];
        if d.ruleId !in cat {
          return false, counts, raised, seen;
        }
        counts, raised, seen := Consider(cat, inp, d, now, counts, raised, seen, start, done);
        done := done + [d];
        i := i + 1;
      }
      assert done == inp.drafts;
      return true, counts, raised, seen;
    }

    /** An unknown rule throws, and the surrounding transaction takes everything back. */
    method SyncForScan(cat: Catalog, inp: SyncInput, now: int) returns (r: Result<SyncCounts>, raised: seq<Opened>)
      modifies this
      ensures r.Ok? <==> AllKnown(cat, inp.drafts)
      ensures r.Err? ==> rows == old(rows)
      ensures r.Ok? ==> rows == Reconciled(inp, cat, old(rows), now) && Synced(inp, cat, old(rows), rows, now)
      ensures r.Ok? ==> CountsMatch(r.value, cat, inp.asset, inp.drafts, old(rows))
      ensures r.Ok? ==> r.value.resolved == |GoneKeys(inp, old(rows))|
      ensures r.Ok? ==> OpenedMatch(raised, inp.asset, inp.drafts, old(rows))
    {
      var start := rows;
      var known, counts, seen;
      known, counts, raised, seen := ApplyDrafts(cat, inp, now);
      if !known {
        rows := start;
        return Err("unknown finding rule"), [];
      }
      LoopEnd(inp, cat, start, now, rows, seen, counts, raised);
      ReconciledIsSynced(inp, cat, start, now);
      var resolved := ResolveGone(inp, seen, now);
      r := Ok(counts.(resolved := resolved));
    }
  }

  lemma LoopStart(inp: SyncInput, cat: Catalog, t: Table, now: int)
    ensures LoopState(inp, cat, t, [], now, t, {}, SyncCounts(0, 0, 0, 0, NO_COUNTS), [])
  {
    NoCountsMatch(cat, inp.asset, t);
    assert Upserted(inp, cat, t, [], now) == t;
  }

  lemma NoCountsMatch(cat: Catalog, asset: nat, t: Table)
    ensures CountsMatch(SyncCounts(0, 0, 0, 0, NO_COUNTS), cat, asset, [], t)
  {
    forall s ensures KeysOfSeverity(cat, asset, [], s) == {} {}
  }

  // ---------------------------------------------------------------- what a sync guarantees

  function ActiveKeys(asset: nat, t: Table): set<Key> {
    set k | k in t && k.asset == asset && Active(t[k].status)
  }

  /**
   * After a sync no drafted finding is RESOLVED, and every active finding of a completely
   * evaluated category of that scan type was drafted.
   */
  lemma ActiveMeansReported(inp: SyncInput, cat: Catalog, t: Table, now: int, k: Key)
    requires AllKnown(cat, inp.drafts) && k in Reconciled(inp, cat, t, now) && k.asset == inp.asset
    ensures var f := Reconciled(inp, cat, t, now)[k];
      && (k in DraftKeys(inp.asset, inp.drafts) ==> !f.status.Resolved?)
      && (Active(f.status) && f.category in CategoriesOf(inp.scanType) - inp.incomplete ==>
           k in DraftKeys(inp.asset, inp.drafts))
  {
    if k in DraftKeys(inp.asset, inp.drafts) { FirstDraftIsDrafted(inp.asset, inp.drafts, k); }
  }

  /** The user's ACCEPTED and FALSE_POSITIVE stay, no row disappears, and no other asset is touched. */
  lemma DecisionsAndOtherAssetsStay(inp: SyncInput, cat: Catalog, t: Table, now: int, k: Key)
    requires AllKnown(cat, inp.drafts)
    ensures k in t ==> k in Reconciled(inp, cat, t, now)
    ensures k in t ==>
      var f, f' := t[k], Reconciled(inp, cat, t, now)[k];
      && (f.status.Accepted? || f.status.FalsePositive? ==> f'.status == f.status && f'.resolvedAt == f.resolvedAt)
      && f'.firstSeen == f.firstSeen && f'.dueDate == f.dueDate && f'.org == f.org && f'.account == f.account
    ensures k.asset != inp.asset ==> Lookup(Reconciled(inp, cat, t, now), k) == Lookup(t, k)
  {
    if k in DraftKeys(inp.asset, inp.drafts) { FirstDraftIsDrafted(inp.asset, inp.drafts, k); }
  }

  lemma ActiveKeysAfter(inp: SyncInput, cat: Catalog, t: Table, now: int)
    requires AllKnown(cat, inp.drafts)
    ensures ActiveKeys(inp.asset, Reconciled(inp, cat, t, now)) ==
      ActiveKeys(inp.asset, t) - GoneKeys(inp, t) + CreatedKeys(inp.asset, inp.drafts, t)
          + ReopenedKeys(inp.asset, inp.drafts, t)
  {
    var t' := Reconciled(inp, cat, t, now);
    forall k | k in DraftKeys(inp.asset, inp.drafts) ensures k.asset == inp.asset {
      FirstDraftIsDrafted(inp.asset, inp.drafts, k);
    }
    var expected := ActiveKeys(inp.asset, t) - GoneKeys(inp, t) + CreatedKeys(inp.asset, inp.drafts, t)
        + ReopenedKeys(inp.asset, inp.drafts, t);
    forall k ensures k in ActiveKeys(inp.asset, t') <==> k in expected {
      if k in t' { assert t'[k] == RowAfter(inp, cat, t, now, k); }
    }
  }

  lemma DisjointUnionSize(a: set<Key>, b: set<Key>)
    requires a !! b
    ensures |a + b| == |a| + |b|
  {
  }

  lemma SizeAfterExchange(before: set<Key>, gone: set<Key>, created: set<Key>, reopened: set<Key>)
    requires gone <= before && created !! before && reopened !! before && created !! reopened
    ensures |before - gone + created + reopened| == |before| - |gone| + |created| + |reopened|
  {
    DisjointUnionSize(before - gone, gone);
    assert before - gone + gone == before;
    DisjointUnionSize(before - gone, created);
    DisjointUnionSize(before - gone + created, reopened);
  }

  /** Conservation: active findings before, plus opened, minus resolved, are the active findings after. */
  lemma ActiveFindingsAreConserved(inp: SyncInput, cat: Catalog, t: Table, now: int)
    requires AllKnown(cat, inp.drafts)
    ensures |ActiveKeys(inp.asset, Reconciled(inp, cat, t, now))| ==
      |ActiveKeys(inp.asset, t)| + |CreatedKeys(inp.asset, inp.drafts, t)|
          + |ReopenedKeys(inp.asset, inp.drafts, t)| - |GoneKeys(inp, t)|
  {
    ActiveKeysAfter(inp, cat, t, now);
    SizeAfterExchange(ActiveKeys(inp.asset, t), GoneKeys(inp, t), CreatedKeys(inp.asset, inp.drafts, t),
        ReopenedKeys(inp.asset, inp.drafts, t));
  }

  lemma ThreeParts(all: set<Key>, a: set<Key>, b: set<Key>, c: set<Key>)
    requires a !! b !! c
    requires forall k :: k in all <==> k in a || k in b || k in c
    ensures |all| == |a| + |b| + |c|
  {
    DisjointUnionSize(a, b);
    DisjointUnionSize(a + b, c);
    assert all == a + b + c;
  }

  /** Every distinct fingerprint of a scan is counted once: created, updated or reopened. */
  lemma EveryFingerprintIsCounted(asset: nat, drafts: seq<Draft>, t: Table)
    ensures |DraftKeys(asset, drafts)| ==
      |CreatedKeys(asset, drafts, t)| + |UpdatedKeys(asset, drafts, t)| + |ReopenedKeys(asset, drafts, t)|
  {
    ThreeParts(DraftKeys(asset, drafts), CreatedKeys(asset, drafts, t), UpdatedKeys(asset, drafts, t),
        ReopenedKeys(asset, drafts, t));
  }

  /** Repeating a scan's drafts creates, reopens and resolves nothing, and changes no status. */
  lemma SyncIsIdempotent(inp: SyncInput, cat: Catalog, t: Table, now: int, later: int)
    requires AllKnown(cat, inp.drafts)
    ensures var t' := Reconciled(inp, cat, t, now);
      && CreatedKeys(inp.asset, inp.drafts, t') == {}
      && ReopenedKeys(inp.asset, inp.drafts, t') == {}
      && GoneKeys(inp, t') == {}
      && Reconciled(inp, cat, t', later).Keys == t'.Keys
      && forall k :: k in t' ==>
           var again := Reconciled(inp, cat, t', later)[k];
           again == if k in DraftKeys(inp.asset, inp.drafts) then t'[k].(lastSeen := later) else t'[k]
  {
    var t' := Reconciled(inp, cat, t, now);
    forall k | k in t' ensures t'[k] == RowAfter(inp, cat, t, now, k) {}
  }

  // ---------------------------------------------------------------- scans of different types

  /** Row `k` after a sync depends on row `k` alone. */
  lemma RowsAreIndependent(inp: SyncInput, cat: Catalog, t: Table, u: Table, now: int, k: Key)
    requires AllKnown(cat, inp.drafts) && Lookup(t, k) == Lookup(u, k)
    ensures Lookup(Reconciled(inp, cat, t, now), k) == Lookup(Reconciled(inp, cat, u, now), k)
  {
    assert k in t <==> k in u;
  }

  /** A sync leaves a row that it does not report as it is exactly when it does not resolve it. */
  lemma UnreportedRowsStay(inp: SyncInput, cat: Catalog, t: Table, now: int, k: Key)
    requires AllKnown(cat, inp.drafts) && k !in DraftKeys(inp.asset, inp.drafts)
    ensures Lookup(Reconciled(inp, cat, t, now), k) == Lookup(t, k) <==> !Gone(inp, t, k)
  {
  }

  lemma CategoriesAreDisjoint(a: Q.ScanType, b: Q.ScanType)
    requires a != b
    ensures CategoriesOf(a) !! CategoriesOf(b)
  {
  }

  /** The categories in which a scan resolves what it does not report: its type's, if evaluated completely. */
  predicate Owns(inp: SyncInput, c: Category) {
    c in CategoriesOf(inp.scanType) - inp.incomplete
  }

  predicate Reports(inp: SyncInput, k: Key) {
    k in DraftKeys(inp.asset, inp.drafts)
  }

  predicate Decided(st: Status) {
    st.Accepted? || st.FalsePositive?
  }

  function StatusOf(t: Table, k: Key): Option<Status> {
    if k in t then Some(t[k].status) else None
  }

  /**
   * One scan reports the finding, and the other, on the same asset, does not but answers for its
   * category. What a scan reports need not be of its own type's categories. The second branch is
   * for a row whose category is no longer that of its rule.
   */
  predicate Contested(reporter: SyncInput, other: SyncInput, cat: Catalog, t: Table, k: Key) {
    && Reports(reporter, k) && !Reports(other, k) && k.asset == other.asset && k.fp.ruleId in cat
    && if Owns(other, cat[k.fp.ruleId].category) then !(k in t && Decided(t[k].status))
       else k in t && Owns(other, t[k].category) && (t[k].status.InProgress? || t[k].status.Verifying?)
  }

  predicate OrderMatters(a: SyncInput, b: SyncInput, cat: Catalog, t: Table, k: Key) {
    Contested(a, b, cat, t, k) || Contested(b, a, cat, t, k)
  }

  /** Status and category of one row after one sync. */
  function Outline(f: Option<Finding>): Option<(Status, Category)> {
    match f
    case None => None
    case Some(row) => Some((row.status, row.category))
  }

  function OutlineAfter(inp: SyncInput, cat: Catalog, before: Option<(Status, Category)>,
      k: Key): Option<(Status, Category)> {
    if Reports(inp, k) && k.fp.ruleId in cat then
      var c := cat[k.fp.ruleId].category;
      if before.None? || before.value.0.Resolved? then Some((Open, c)) else Some((before.value.0, c))
    else if before.Some? && k.asset == inp.asset && Owns(inp, before.value.1) && Active(before.value.0) then
      Some((Resolved, before.value.1))
    else before
  }

  lemma OutlineStep(inp: SyncInput, cat: Catalog, t: Table, now: int, k: Key)
    requires AllKnown(cat, inp.drafts)
    ensures Outline(Lookup(Reconciled(inp, cat, t, now), k)) == OutlineAfter(inp, cat, Outline(Lookup(t, k)), k)
  {
    if Reports(inp, k) {
      FirstDraftIsDrafted(inp.asset, inp.drafts, k);
    }
  }

  lemma ReportedIsKnown(inp: SyncInput, cat: Catalog, k: Key)
    requires AllKnown(cat, inp.drafts) && Reports(inp, k)
    ensures k.fp.ruleId in cat && k.asset == inp.asset
  {
    FirstDraftIsDrafted(inp.asset, inp.drafts, k);
  }

  lemma StatusFromOutline(t: Table, k: Key)
    ensures StatusOf(t, k) == match Outline(Lookup(t, k)) case None => None case Some(o) => Some(o.0)
  {
  }

  /**
   * Two scan results stored in one order or the other, of any types, on any table: the status of a
   * finding comes out the same exactly when it is not contested.
   */
  lemma OrderOfTwoSyncs(a: SyncInput, b: SyncInput, cat: Catalog, t: Table, nowA: int, nowB: int, k: Key)
    requires AllKnown(cat, a.drafts) && AllKnown(cat, b.drafts)
    ensures StatusOf(Reconciled(b, cat, Reconciled(a, cat, t, nowA), nowB), k)
         == StatusOf(Reconciled(a, cat, Reconciled(b, cat, t, nowB), nowA), k)
      <==> !OrderMatters(a, b, cat, t, k)
  {
    var ta, tb := Reconciled(a, cat, t, nowA), Reconciled(b, cat, t, nowB);
    OutlineStep(a, cat, t, nowA, k);
    OutlineStep(b, cat, t, nowB, k);
    OutlineStep(b, cat, ta, nowB, k);
    OutlineStep(a, cat, tb, nowA, k);
    StatusFromOutline(Reconciled(b, cat, ta, nowB), k);
    StatusFromOutline(Reconciled(a, cat, tb, nowA), k);
    if Reports(a, k) { ReportedIsKnown(a, cat, k); }
    if Reports(b, k) { ReportedIsKnown(b, cat, k); }
    OutlinesCompared(a, b, cat, t, k);
  }

  lemma OutlinesCompared(a: SyncInput, b: SyncInput, cat: Catalog, t: Table, k: Key)
    requires (Reports(a, k) ==> k.fp.ruleId in cat && k.asset == a.asset)
        && (Reports(b, k) ==> k.fp.ruleId in cat && k.asset == b.asset)
    ensures var start := Outline(Lookup(t, k));
      var ab, ba := OutlineAfter(b, cat, OutlineAfter(a, cat, start, k), k),
          OutlineAfter(a, cat, OutlineAfter(b, cat, start, k), k);
      && (ab.None? <==> ba.None?)
      && ((ab.Some? ==> ab.value.0 == ba.value.0) <==> !OrderMatters(a, b, cat, t, k))
  {
  }

  /** The order of two scans makes no difference to any status exactly when no finding is contested. */
  lemma SyncsCommute(a: SyncInput, b: SyncInput, cat: Catalog, t: Table, nowA: int, nowB: int)
    requires AllKnown(cat, a.drafts) && AllKnown(cat, b.drafts)
    ensures var ab, ba := Reconciled(b, cat, Reconciled(a, cat, t, nowA), nowB),
        Reconciled(a, cat, Reconciled(b, cat, t, nowB), nowA);
      (forall k :: StatusOf(ab, k) == StatusOf(ba, k)) <==> (forall k :: !OrderMatters(a, b, cat, t, k))
  {
    var ab, ba := Reconciled(b, cat, Reconciled(a, cat, t, nowA), nowB),
        Reconciled(a, cat, Reconciled(b, cat, t, nowB), nowA);
    forall k ensures StatusOf(ab, k) == StatusOf(ba, k) <==> !OrderMatters(a, b, cat, t, k) {
      OrderOfTwoSyncs(a, b, cat, t, nowA, nowB, k);
    }
  }

  // ---------------------------------------------------------------- whole rows

  /** A finding carries the category of its rule. */
  ghost predicate Catalogued(cat: Catalog, t: Table) {
    forall k :: k in t && k.fp.ruleId in cat ==> t[k].category == cat[k.fp.ruleId].category
  }

  lemma SyncKeepsCatalogued(inp: SyncInput, cat: Catalog, t: Table, now: int)
    requires AllKnown(cat, inp.drafts) && Catalogued(cat, t)
    ensures Catalogued(cat, Reconciled(inp, cat, t, now))
  {
    var t' := Reconciled(inp, cat, t, now);
    forall k | k in t' && k.fp.ruleId in cat ensures t'[k].category == cat[k.fp.ruleId].category {
      if k in DraftKeys(inp.asset, inp.drafts) { FirstDraftIsDrafted(inp.asset, inp.drafts, k); }
    }
  }

  lemma RowOfReporterOnly(a: SyncInput, b: SyncInput, cat: Catalog, t: Table, nowA: int, nowB: int, k: Key)
    requires AllKnown(cat, a.drafts) && AllKnown(cat, b.drafts) && Catalogued(cat, t)
    requires Reports(a, k) && !Reports(b, k) && !OrderMatters(a, b, cat, t, k)
    ensures Lookup(Reconciled(b, cat, Reconciled(a, cat, t, nowA), nowB), k)
         == Lookup(Reconciled(a, cat, Reconciled(b, cat, t, nowB), nowA), k)
  {
    var ta, tb := Reconciled(a, cat, t, nowA), Reconciled(b, cat, t, nowB);
    ReportedIsKnown(a, cat, k);
    SyncKeepsCatalogued(a, cat, t, nowA);
    UnreportedRowsStay(b, cat, ta, nowB, k);
    UnreportedRowsStay(b, cat, t, nowB, k);
    RowsAreIndependent(a, cat, tb, t, nowA, k);
  }

  lemma RowOfNeither(a: SyncInput, b: SyncInput, cat: Catalog, t: Table, nowA: int, nowB: int, k: Key)
    requires AllKnown(cat, a.drafts) && AllKnown(cat, b.drafts) && a.scanType != b.scanType
    requires !Reports(a, k) && !Reports(b, k)
    ensures Lookup(Reconciled(b, cat, Reconciled(a, cat, t, nowA), nowB), k)
         == Lookup(Reconciled(a, cat, Reconciled(b, cat, t, nowB), nowA), k)
  {
    CategoriesAreDisjoint(a.scanType, b.scanType);
  }

  /**
   * Scans of different types that do not both report the finding leave the very same row in either
   * order exactly when it is not contested; if both report it, the later one's details stay.
   */
  lemma RowsAfterTwoSyncs(a: SyncInput, b: SyncInput, cat: Catalog, t: Table, nowA: int, nowB: int, k: Key)
    requires AllKnown(cat, a.drafts) && AllKnown(cat, b.drafts) && Catalogued(cat, t)
    requires a.scanType != b.scanType && !(Reports(a, k) && Reports(b, k))
    ensures Lookup(Reconciled(b, cat, Reconciled(a, cat, t, nowA), nowB), k)
         == Lookup(Reconciled(a, cat, Reconciled(b, cat, t, nowB), nowA), k)
      <==> !OrderMatters(a, b, cat, t, k)
  {
    OrderOfTwoSyncs(a, b, cat, t, nowA, nowB, k);
    if !OrderMatters(a, b, cat, t, k) {
      if Reports(a, k) {
        RowOfReporterOnly(a, b, cat, t, nowA, nowB, k);
      } else if Reports(b, k) {
        RowOfReporterOnly(b, a, cat, t, nowB, nowA, k);
      } else {
        RowOfNeither(a, b, cat, t, nowA, nowB, k);
      }
    }
  }

  /**
   * It does matter: the web headers scan reports a missing security.txt, whose rule belongs to the
   * sensitive paths, and the sensitive paths scan of the same stage does not report it. Stored in
   * one order the finding ends RESOLVED, in the other OPEN.
   */
  lemma SecurityTxtDependsOnOrder(org: nat, asset: nat, location: string, now: int)
    ensures var rule := "SEC-TXT-MISSING";
      var cat: Catalog := map[rule := Rule(SensitivePath, Low)];
      var headers := SyncInput(org, asset, 1, Q.WebHeaders, [Draft(rule, location, None)], {});
      var paths := SyncInput(org, asset, 2, Q.SensitivePaths, [], {});
      var k := Key(asset, Fingerprint(rule, location));
      && AllKnown(cat, headers.drafts) && OrderMatters(headers, paths, cat, map[], k)
      && StatusOf(Reconciled(paths, cat, Reconciled(headers, cat, map[], now), now), k) == Some(Resolved)
      && StatusOf(Reconciled(headers, cat, Reconciled(paths, cat, map[], now), now), k) == Some(Open)
  {
    var rule := "SEC-TXT-MISSING";
    var cat: Catalog := map[rule := Rule(SensitivePath, Low)];
    var headers := SyncInput(org, asset, 1, Q.WebHeaders, [Draft(rule, location, None)], {});
    var paths := SyncInput(org, asset, 2, Q.SensitivePaths, [], {});
    var k := Key(asset, Fingerprint(rule, location));
    assert KeyOf(asset, headers.drafts[0]) == k;
    var none: Table := map[];
    OutlineStep(headers, cat, none, now, k);
    OutlineStep(paths, cat, none, now, k);
    OutlineStep(paths, cat, Reconciled(headers, cat, none, now), now, k);
    OutlineStep(headers, cat, Reconciled(paths, cat, none, now), now, k);
  }
}
