/**
 * Scores over the database (risk-scores.service.ts): the score of one asset, of all assets at
 * once, and of the organization, which halves perimeter and cloud.
 */
module RiskScores {
  import opened Base
  import opened Findings
  import opened Scoring
  import L = Lifecycle

  datatype Asset = Asset(org: nat, cloud: bool, criticality: Criticality, lastScanned: Option<int>, active: bool)

  /** The tables the scores are read from; `completed` holds the assets with a COMPLETED scan. */
  datatype Db = Db(assets: map<nat, Asset>, completed: set<nat>, findings: Table)

  datatype AssetState = AssetState(asset: nat, cloud: bool, scored: bool, result: ScoreResult)

  // ---------------------------------------------------------------- counting

  /** Active findings of an asset as the bulk query sees them: through the asset. */
  function ActiveOf(t: Table, asset: nat, s: Severity): set<Key> {
    set k | k in t && k.asset == asset && Active(t[k].status) && t[k].severity == s
  }

  /** The same as the single-asset query sees them: also filtered by the finding's organization. */
  function ActiveInOrg(t: Table, org: nat, asset: nat, s: Severity): set<Key> {
    set k | k in t && k.asset == asset && t[k].org == org && Active(t[k].status) && t[k].severity == s
  }

  function BulkCounts(t: Table, asset: nat): SeverityCounts {
    SeverityCounts(|ActiveOf(t, asset, Critical)|, |ActiveOf(t, asset, High)|, |ActiveOf(t, asset, Medium)|,
                   |ActiveOf(t, asset, Low)|, |ActiveOf(t, asset, Info)|)
  }

  function OpenCounts(t: Table, org: nat, asset: nat): SeverityCounts {
    SeverityCounts(|ActiveInOrg(t, org, asset, Critical)|, |ActiveInOrg(t, org, asset, High)|,
        |ActiveInOrg(t, org, asset, Medium)|,
                   |ActiveInOrg(t, org, asset, Low)|, |ActiveInOrg(t, org, asset, Info)|)
  }

  function HasBeenScanned(db: Db, asset: nat): bool
    requires asset in db.assets
  {
    asset in db.completed || (db.assets[asset].cloud && db.assets[asset].lastScanned.Some?)
  }

  /** An asset counts once a scan of it has completed; a cloud account also once it has been scanned at all. */
  lemma CountsForTheScore(db: Db, asset: nat, id: nat)
    requires asset in db.assets
    ensures BulkState(db, asset).scored <==>
      asset in db.completed || (db.assets[asset].cloud && db.assets[asset].lastScanned != None)
    ensures ComputeAsset(db, id, asset).scored == BulkState(db, asset).scored
  {
  }

  /** computeAsset; an asset that does not exist scores like a MEDIUM one. */
  function ComputeAsset(db: Db, org: nat, asset: nat): AssetState {
    if asset in db.assets then
      AssetState(asset, db.assets[asset].cloud, HasBeenScanned(db, asset),
                 ComputeScore(OpenCounts(db.findings, org, asset), db.assets[asset].criticality))
    else
      AssetState(asset, false, asset in db.completed, ComputeScore(OpenCounts(db.findings, org, asset), MediumAsset))
  }

  /** What computeAllAssets gives for one of the organization's active assets. */
  function BulkState(db: Db, asset: nat): AssetState
    requires asset in db.assets
  {
    AssetState(asset, db.assets[asset].cloud, HasBeenScanned(db, asset),
               ComputeScore(BulkCounts(db.findings, asset), db.assets[asset].criticality))
  }

  /** Active findings of the asset filed under another organization. */
  predicate Misfiled(t: Table, org: nat, asset: nat, k: Key) {
    k in t && k.asset == asset && Active(t[k].status) && t[k].org != org
  }

  lemma SameCount(t: Table, org: nat, asset: nat, s: Severity)
    ensures |ActiveInOrg(t, org, asset, s)| == |ActiveOf(t, asset, s)|
      <==> forall k :: k in ActiveOf(t, asset, s) ==> !Misfiled(t, org, asset, k)
  {
    var inOrg, all := ActiveInOrg(t, org, asset, s), ActiveOf(t, asset, s);
    DisjointUnionSize(inOrg, all - inOrg);
    assert inOrg + (all - inOrg) == all;
    if forall k :: k in all ==> !Misfiled(t, org, asset, k) {
      assert all - inOrg == {};
    } else {
      var k :| k in all && Misfiled(t, org, asset, k);
      assert k in all - inOrg;
    }
  }

  lemma CountsAgree(t: Table, org: nat, asset: nat)
    ensures OpenCounts(t, org, asset) == BulkCounts(t, asset) <==> forall k :: k in t ==> !Misfiled(t, org, asset, k)
  {
    SameCount(t, org, asset, Critical);
    SameCount(t, org, asset, High);
    SameCount(t, org, asset, Medium);
    SameCount(t, org, asset, Low);
    SameCount(t, org, asset, Info);
    if k :| k in t && Misfiled(t, org, asset, k) {
      assert k in ActiveOf(t, asset, t[k].severity);
      assert OpenCounts(t, org, asset).Of(t[k].severity) != BulkCounts(t, asset).Of(t[k].severity);
    }
  }

  /**
   * The two ways to score an asset of the organization agree exactly when all of its active
   * findings are filed under its organization.
   */
  lemma BothQueriesAgree(db: Db, org: nat, asset: nat)
    requires asset in db.assets
    ensures ComputeAsset(db, org, asset) == BulkState(db, asset) <==>
        forall k :: k in db.findings ==> !Misfiled(db.findings, org, asset, k)
  {
    CountsAgree(db.findings, org, asset);
    assert ComputeAsset(db, org, asset).result.counts == OpenCounts(db.findings, org, asset);
  }

  /** Every finding is filed under the organization of its asset. */
  ghost predicate Filed(t: Table, owner: nat -> nat) {
    forall k :: k in t ==> t[k].org == owner(k.asset)
  }

  /** A scan result or an audit is stored with the organization of its asset. */
  predicate Addressed(e: L.Event, owner: nat -> nat) {
    match e
    case Sync(scan, _) => scan.org == owner(scan.asset)
    case Audit(audit, _) => audit.org == owner(audit.asset)
    case Review(_, _, _) => true
    case Retest(_, _, _, _) => true
  }

  lemma StepKeepsFiled(cat: Catalog, t: Table, e: L.Event, owner: nat -> nat)
    requires Filed(t, owner) && Addressed(e, owner)
    ensures Filed(L.Step(cat, t, e), owner)
  {
    var t' := L.Step(cat, t, e);
    forall k | k in t' ensures t'[k].org == owner(k.asset) {
      if e.Sync? && AllKnown(cat, e.scan.drafts) && k in DraftKeys(e.scan.asset, e.scan.drafts) {
        FirstDraftIsDrafted(e.scan.asset, e.scan.drafts, k);
      }
    }
  }

  lemma {:induction false} RunKeepsFiled(cat: Catalog, t: Table, events: seq<L.Event>, owner: nat -> nat)
    requires Filed(t, owner) && forall i :: 0 <= i < |events| ==> Addressed(events[i], owner)
    ensures Filed(L.Run(cat, t, events), owner)
    decreases |events|
  {
    if events != [] {
      StepKeepsFiled(cat, t, events[0], owner);
      RunKeepsFiled(cat, L.Step(cat, t, events[0]), events[1..], owner);
    }
  }

  /**
   * So after any run of scan results, audits, reviews and retests, each stored with the organization
   * of its asset, the two ways to score an asset of its organization agree.
   */
  lemma QueriesAgreeThroughout(db: Db, cat: Catalog, t: Table, events: seq<L.Event>, owner: nat -> nat, asset: nat)
    requires Filed(t, owner) && forall i :: 0 <= i < |events| ==> Addressed(events[i], owner)
    requires asset in db.assets && db.findings == L.Run(cat, t, events)
    ensures ComputeAsset(db, owner(asset), asset) == BulkState(db, asset)
  {
    RunKeepsFiled(cat, t, events, owner);
    BothQueriesAgree(db, owner(asset), asset);
  }

  // ---------------------------------------------------------------- the organization's score

  /** The scores of the scored assets of one kind. */
  function ScoresOf(states: seq<AssetState>, cloud: bool): seq<int> {
    if states == [] then []
    else if states[0].scored && states[0].cloud == cloud then [states[0].result.score] + ScoresOf(states[1..], cloud)
    else ScoresOf(states[1..], cloud)
  }

  function OrganizationScore(states: seq<AssetState>): Option<int> {
    Halved(AggregateScores(ScoresOf(states, false)), AggregateScores(ScoresOf(states, true)))
  }

  function Halved(perimeter: Option<int>, cloud: Option<int>): Option<int> {
    if perimeter.Some? && cloud.Some? then Some(Rounded(perimeter.value + cloud.value, 2))
    else if perimeter.Some? then perimeter
    else cloud
  }

  /**
   * With perimeter and cloud assets the score is halfway between the two means, halves up; with one
   * kind only, it is the mean of that kind.
   */
  lemma HybridIsHalfway(states: seq<AssetState>)
    ensures var p, c := AggregateScores(ScoresOf(states, false)), AggregateScores(ScoresOf(states, true));
      var score := OrganizationScore(states);
      && (p.Some? && c.Some? ==> score.Some? && 0 <= 2 * score.value - (p.value + c.value) <= 1)
      && (p.None? ==> score == c) && (c.None? ==> score == p)
  {
  }

  lemma {:induction false} ScoresOfMember(states: seq<AssetState>, cloud: bool, v: int)
    ensures v in ScoresOf(states, cloud) <==>
        exists i :: 0 <= i < |states| && states[i].scored && states[i].cloud == cloud && states[i].result.score == v
  {
    if states != [] {
      ScoresOfMember(states[1..], cloud, v);
      if v in ScoresOf(states[1..], cloud) {
        var i :| 0 <= i < |states[1..]| && states[1..][i].scored && states[1..][i].cloud == cloud
            && states[1..][i].result.score == v;
        assert states[i + 1] == states[1..][i];
      }
      forall i | 0 < i < |states| ensures states[i] == states[1..][i - 1] {}
    }
  }

  predicate SomeScored(states: seq<AssetState>) {
    exists i :: 0 <= i < |states| && states[i].scored
  }

  predicate Within(states: seq<AssetState>, lo: int, hi: int) {
    forall i :: 0 <= i < |states| && states[i].scored ==> lo <= states[i].result.score <= hi
  }

  lemma AggregateOfKind(states: seq<AssetState>, cloud: bool, lo: int, hi: int)
    requires Within(states, lo, hi)
    ensures ScoresOf(states, cloud) != [] ==> lo <= AggregateScores(ScoresOf(states, cloud)).value <= hi
  {
    var scores := ScoresOf(states, cloud);
    forall i | 0 <= i < |scores| ensures lo <= scores[i] <= hi {
      ScoresOfMember(states, cloud, scores[i]);
    }
    if scores != [] { AggregateBetween(scores, lo, hi); }
  }

  lemma NoneOfKind(states: seq<AssetState>, cloud: bool)
    ensures ScoresOf(states, cloud) == [] <==>
        forall i :: 0 <= i < |states| && states[i].scored ==> states[i].cloud != cloud
  {
    var scores := ScoresOf(states, cloud);
    if scores != [] {
      ScoresOfMember(states, cloud, scores[0]);
    }
    forall i | 0 <= i < |states| && states[i].scored && states[i].cloud == cloud ensures scores != [] {
      ScoresOfMember(states, cloud, states[i].result.score);
    }
  }

  /**
   * The organization has a score exactly when some asset is scored, and the score lies between any
   * bounds of the scored assets' scores, through both rounded means and the halving.
   */
  lemma OrganizationBetween(states: seq<AssetState>, lo: int, hi: int)
    requires Within(states, lo, hi)
    ensures OrganizationScore(states).Some? <==> SomeScored(states)
    ensures SomeScored(states) ==> lo <= OrganizationScore(states).value <= hi
  {
    NoneOfKind(states, false);
    NoneOfKind(states, true);
    AggregateOfKind(states, false, lo, hi);
    AggregateOfKind(states, true, lo, hi);
    var perimeter, cloud := AggregateScores(ScoresOf(states, false)), AggregateScores(ScoresOf(states, true));
    if perimeter.Some? && cloud.Some? {
      RoundedBetween(perimeter.value + cloud.value, 2, lo, hi);
    }
  }

  lemma {:induction false} ScoresOfConcat(a: seq<AssetState>, b: seq<AssetState>, cloud: bool)
    ensures ScoresOf(a + b, cloud) == ScoresOf(a, cloud) + ScoresOf(b, cloud)
  {
    if a == [] {
      assert a + b == b;
    } else {
      assert (a + b)[1..] == a[1..] + b;
      ScoresOfConcat(a[1..], b, cloud);
    }
  }

  /** Permuting the assets permutes the scores. */
  lemma {:induction false} ScoresOfPermuted(a: seq<AssetState>, b: seq<AssetState>, cloud: bool)
    requires multiset(a) == multiset(b)
    ensures multiset(ScoresOf(a, cloud)) == multiset(ScoresOf(b, cloud))
  {
    if a == [] {
      assert |multiset(b)| == |b| == 0;
    } else {
      var i := FindIn(a, b);
      RestsAgree(a, b, i);
      ScoresOfPermuted(a[1..], b[..i] + b[i + 1..], cloud);
      MovedToFront(b, i, cloud);
    }
  }

  lemma MovedToFront(b: seq<AssetState>, i: nat, cloud: bool)
    requires i < |b|
    ensures multiset(ScoresOf(b, cloud)) ==
      multiset((if b[i].scored && b[i].cloud == cloud then [b[i].result.score] else [])
          + ScoresOf(b[..i] + b[i + 1..], cloud))
  {
    assert b == b[..i] + b[i..];
    ScoresOfConcat(b[..i], b[i..], cloud);
    ScoresOfConcat(b[..i], b[i + 1..], cloud);
    assert b[i..][1..] == b[i + 1..];
  }

  /** The order in which the database lists the assets makes no difference. */
  lemma OrganizationIgnoresOrder(a: seq<AssetState>, b: seq<AssetState>)
    requires multiset(a) == multiset(b)
    ensures OrganizationScore(a) == OrganizationScore(b)
  {
    ScoresOfPermuted(a, b, false);
    ScoresOfPermuted(a, b, true);
    AggregateIgnoresOrder(ScoresOf(a, false), ScoresOf(b, false));
    AggregateIgnoresOrder(ScoresOf(a, true), ScoresOf(b, true));
  }

  /** The same assets, each scored at least as well. */
  predicate Improved(a: seq<AssetState>, b: seq<AssetState>) {
    |a| == |b| && forall i :: 0 <= i < |a| ==>
        a[i].cloud == b[i].cloud && a[i].scored == b[i].scored && a[i].result.score <= b[i].result.score
  }

  lemma {:induction false} ScoresOfImproved(a: seq<AssetState>, b: seq<AssetState>, cloud: bool)
    requires Improved(a, b)
    ensures var s, t := ScoresOf(a, cloud), ScoresOf(b, cloud);
      |s| == |t| && forall i :: 0 <= i < |s| ==> s[i] <= t[i]
  {
    if a != [] {
      ScoresOfImproved(a[1..], b[1..], cloud);
    }
  }

  /** Fixing something on any asset never lowers the organization's score. */
  lemma OrganizationMonotone(a: seq<AssetState>, b: seq<AssetState>)
    requires Improved(a, b)
    ensures OrganizationScore(a).Some? == OrganizationScore(b).Some?
    ensures OrganizationScore(a).Some? ==> OrganizationScore(a).value <= OrganizationScore(b).value
  {
    ScoresOfImproved(a, b, false);
    ScoresOfImproved(a, b, true);
    var pa, ca := ScoresOf(a, false), ScoresOf(a, true);
    var pb, cb := ScoresOf(b, false), ScoresOf(b, true);
    if pa != [] { AggregateMonotone(pa, pb); }
    if ca != [] { AggregateMonotone(ca, cb); }
    if pa != [] && ca != [] {
      RoundedMonotone(AggregateScores(pa).value + AggregateScores(ca).value, AggregateScores(pb).value
          + AggregateScores(cb).value, 2);
    }
  }

  // ---------------------------------------------------------------- the loops

  predicate ActiveAsset(db: Db, org: nat, asset: nat) {
    asset in db.assets && db.assets[asset].org == org && db.assets[asset].active
  }

  ghost function OfSeverity(t: Table, keys: set<Key>, s: Severity): set<Key> {
    set k | k in keys && k in t && t[k].severity == s
  }

  lemma OneMoreOfSeverity(t: Table, keys: set<Key>, k: Key, s: Severity)
    requires k in t && k !in keys
    ensures |OfSeverity(t, keys + {k}, s)| == |OfSeverity(t, keys, s)| + if t[k].severity == s then 1 else 0
  {
    if t[k].severity == s {
      assert OfSeverity(t, keys + {k}, s) == OfSeverity(t, keys, s) + {k};
    } else {
      assert OfSeverity(t, keys + {k}, s) == OfSeverity(t, keys, s);
    }
  }

  function ActiveFindings(t: Table, asset: nat): set<Key> {
    set k | k in t && k.asset == asset && Active(t[k].status)
  }

  /** The counts are those of the findings taken so far. */
  ghost predicate Counted(counts: SeverityCounts, t: Table, done: set<Key>) {
    forall s :: counts.Of(s) == |OfSeverity(t, done, s)|
  }

  lemma CountedStart(t: Table)
    ensures Counted(NO_COUNTS, t, {})
  {
    forall s ensures OfSeverity(t, {}, s) == {} {}
  }

  lemma CountedStep(counts: SeverityCounts, t: Table, done: set<Key>, k: Key)
    requires Counted(counts, t, done) && k in t && k !in done
    ensures Counted(counts.Plus(t[k].severity), t, done + {k})
  {
    forall s ensures |OfSeverity(t, done + {k}, s)| == counts.Of(s) + if s == t[k].severity then 1 else 0 {
      OneMoreOfSeverity(t, done, k, s);
    }
  }

  lemma CountedEnd(counts: SeverityCounts, t: Table, asset: nat)
    requires Counted(counts, t, ActiveFindings(t, asset))
    ensures counts == BulkCounts(t, asset)
  {
    forall s ensures OfSeverity(t, ActiveFindings(t, asset), s) == ActiveOf(t, asset, s) {}
    assert counts.Of(Critical) == counts.critical && counts.Of(High) == counts.high
        && counts.Of(Medium) == counts.medium;
    assert counts.Of(Low) == counts.low && counts.Of(Info) == counts.info;
  }

  /** The loop that counts an asset's findings one by one, in whatever order they come. */
  method CountBySeverity(t: Table, asset: nat) returns (counts: SeverityCounts)
    ensures counts == BulkCounts(t, asset)
  {
    counts := NO_COUNTS;
    CountedStart(t);
    var left := ActiveFindings(t, asset);
    while left != {}
      invariant left <= ActiveFindings(t, asset)
      invariant Counted(counts, t, ActiveFindings(t, asset) - left)
      decreases |left|
    {
      var k :| k in left;
      CountedStep(counts, t, ActiveFindings(t, asset) - left, k);
      assert ActiveFindings(t, asset) - left + {k} == ActiveFindings(t, asset) - (left - {k});
      counts := counts.Plus(t[k].severity);
      left := left - {k};
    }
    assert ActiveFindings(t, asset) - {} == ActiveFindings(t, asset);
    CountedEnd(counts, t, asset);
  }

  /** computeAllAssets over the rows the query returns: each active asset of the organization once. */
  method ComputeAllAssets(db: Db, org: nat, rows: seq<nat>) returns (states: seq<AssetState>)
    requires forall i :: 0 <= i < |rows| ==> rows[i] in db.assets && ActiveAsset(db, org, rows[i])
    ensures |states| == |rows| && forall i :: 0 <= i < |rows| ==> states[i] == BulkState(db, rows[i])
  {
    states := [];
    for i := 0 to |rows|
      invariant |states| == i
      invariant forall j :: 0 <= j < i ==> states[j] == BulkState(db, rows[j])
    {
      var a := db.assets[rows[i]];
      var counts := CountBySeverity(db.findings, rows[i]);
      var scored := rows[i] in db.completed || (a.cloud && a.lastScanned.Some?);
      states := states + [AssetState(rows[i], a.cloud, scored, ComputeScore(counts, a.criticality))];
    }
  }

  function Together(a: SeverityCounts, b: SeverityCounts): SeverityCounts {
    SeverityCounts(a.critical + b.critical, a.high + b.high, a.medium + b.medium, a.low + b.low, a.info + b.info)
  }

  /** Active findings of the scored assets among the first rows. */
  ghost function ActiveOfScored(db: Db, rows: set<nat>, s: Severity): set<Key> {
    set k | k in db.findings && k.asset in rows && k.asset in db.assets && HasBeenScanned(db, k.asset)
            && Active(db.findings[k].status) && db.findings[k].severity == s
  }

  lemma OneMoreAsset(db: Db, rows: set<nat>, asset: nat, s: Severity)
    requires asset !in rows && asset in db.assets
    ensures |ActiveOfScored(db, rows + {asset}, s)| ==
      |ActiveOfScored(db, rows, s)| + if HasBeenScanned(db, asset) then |ActiveOf(db.findings, asset, s)| else 0
  {
    if HasBeenScanned(db, asset) {
      DisjointUnionSize(ActiveOfScored(db, rows, s), ActiveOf(db.findings, asset, s));
      assert ActiveOfScored(db, rows + {asset}, s) == ActiveOfScored(db, rows, s) + ActiveOf(db.findings, asset, s);
    } else {
      assert ActiveOfScored(db, rows + {asset}, s) == ActiveOfScored(db, rows, s);
    }
  }

  function Listed(rows: seq<nat>): set<nat> {
    set i | 0 <= i < |rows| :: rows[i]
  }

  /** The counts are those of the scored assets among `rows`. */
  ghost predicate CountsOf(counts: SeverityCounts, db: Db, rows: set<nat>) {
    forall s :: counts.Of(s) == |ActiveOfScored(db, rows, s)|
  }

  lemma OneMoreCounted(db: Db, rows: set<nat>, asset: nat, counts: SeverityCounts)
    requires CountsOf(counts, db, rows) && asset !in rows && asset in db.assets
    ensures CountsOf(if HasBeenScanned(db, asset) then Together(counts, BulkCounts(db.findings, asset))
        else counts, db, rows + {asset})
  {
    forall s ensures |ActiveOfScored(db, rows + {asset}, s)| ==
      |ActiveOfScored(db, rows, s)| + if HasBeenScanned(db, asset) then BulkCounts(db.findings, asset).Of(s) else 0
    {
      OneMoreAsset(db, rows, asset, s);
    }
  }

  lemma NoneCounted(db: Db)
    ensures CountsOf(NO_COUNTS, db, {})
  {
    forall s ensures ActiveOfScored(db, {}, s) == {} {}
  }

  lemma ListedNext(rows: seq<nat>, i: nat)
    requires i < |rows| && forall j, k :: 0 <= j < k < |rows| ==> rows[j] != rows[k]
    ensures Listed(rows[..i + 1]) == Listed(rows[..i]) + {rows[i]} && rows[i] !in Listed(rows[..i])
  {
    assert rows[..i + 1] == rows[..i] + [rows[i]];
  }

  /** The counts of the scored assets added up. */
  method AddCounts(db: Db, rows: seq<nat>, states: seq<AssetState>) returns (counts: SeverityCounts)
    requires |states| == |rows| && forall i :: 0 <= i < |rows| ==>
        rows[i] in db.assets && states[i] == BulkState(db, rows[i])
    requires forall i, j :: 0 <= i < j < |rows| ==> rows[i] != rows[j]
    ensures CountsOf(counts, db, Listed(rows))
  {
    counts := NO_COUNTS;
    NoneCounted(db);
    assert Listed(rows[..0]) == {};
    for i := 0 to |states|
      invariant CountsOf(counts, db, Listed(rows[..i]))
    {
      ListedNext(rows, i);
      OneMoreCounted(db, Listed(rows[..i]), rows[i], counts);
      if states[i].scored {
        counts := Together(counts, states[i].result.counts);
      }
    }
    assert rows[..|states|] == rows;
  }

  function ScoredRows(db: Db, rows: set<nat>): set<nat> {
    set asset | asset in rows && asset in db.assets && HasBeenScanned(db, asset)
  }

  lemma OneMoreScored(db: Db, rows: set<nat>, asset: nat)
    requires asset !in rows && asset in db.assets
    ensures |ScoredRows(db, rows + {asset})| == |ScoredRows(db, rows)| + if HasBeenScanned(db, asset) then 1 else 0
  {
    if HasBeenScanned(db, asset) {
      assert ScoredRows(db, rows + {asset}) == ScoredRows(db, rows) + {asset};
    } else {
      assert ScoredRows(db, rows + {asset}) == ScoredRows(db, rows);
    }
  }

  ghost predicate IsNumberScored(n: nat, db: Db, rows: seq<nat>) {
    n == |ScoredRows(db, Listed(rows))|
  }

  lemma NoneScored(db: Db)
    ensures IsNumberScored(0, db, [])
  {
    assert ScoredRows(db, Listed([])) == {};
  }

  lemma NextScored(db: Db, rows: seq<nat>, i: nat, n: nat)
    requires i < |rows| && forall j, k :: 0 <= j < k < |rows| ==> rows[j] != rows[k]
    requires rows[i] in db.assets && IsNumberScored(n, db, rows[..i])
    ensures IsNumberScored(n + if HasBeenScanned(db, rows[i]) then 1 else 0, db, rows[..i + 1])
  {
    ListedNext(rows, i);
    OneMoreScored(db, Listed(rows[..i]), rows[i]);
  }

  /** The length of the filtered list. */
  method CountScored(db: Db, rows: seq<nat>, states: seq<AssetState>) returns (n: nat)
    requires |states| == |rows| && forall i :: 0 <= i < |rows| ==>
        rows[i] in db.assets && states[i] == BulkState(db, rows[i])
    requires forall i, j :: 0 <= i < j < |rows| ==> rows[i] != rows[j]
    ensures n == |ScoredRows(db, Listed(rows))|
  {
    n := 0;
    NoneScored(db);
    assert rows[..0] == [];
    for i := 0 to |states|
      invariant IsNumberScored(n, db, rows[..i])
    {
      NextScored(db, rows, i, n);
      if states[i].scored {
        n := n + 1;
      }
    }
    assert rows[..|states|] == rows;
  }

  /**
   * The organization's snapshot: its score is the hybrid of the bulk states, with the grade of that
   * score, and its counts are the active findings of the scored assets, each counted once.
   */
  method SnapshotOrganization(db: Db, org: nat, rows: seq<nat>)
      returns (score: Option<int>, grade: Option<Grade>, counts: SeverityCounts, scoredAssets: nat,
          ghost states: seq<AssetState>)
    requires forall i :: 0 <= i < |rows| ==> rows[i] in db.assets && ActiveAsset(db, org, rows[i])
    requires forall i, j :: 0 <= i < j < |rows| ==> rows[i] != rows[j]
    ensures |states| == |rows| && forall i :: 0 <= i < |rows| ==> states[i] == BulkState(db, rows[i])
    ensures score == OrganizationScore(states)
    ensures grade == match score case None => None case Some(v) => Some(GradeFor(v))
    ensures CountsOf(counts, db, Listed(rows))
    ensures scoredAssets == |ScoredRows(db, Listed(rows))|
  {
    var computed := ComputeAllAssets(db, org, rows);
    states := computed;
    score := OrganizationScore(computed);
    grade := if score.None? then None else Some(GradeFor(score.value));
    counts := AddCounts(db, rows, computed);
    scoredAssets := CountScored(db, rows, computed);
  }
}
