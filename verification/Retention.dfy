/**
 * The retention run (retention.service.ts): it deletes old finished scans with their ports, but
 * never the latest scan of an asset, and old rows of failed logins.
 */
module Retention {
  import opened Base
  import L = LoginProtection
  import Q = ScanQueue
  import R = RiskScores

  /** A row of the ports table. */
  datatype Port = Port(scan: nat, number: nat)

  datatype RetentionResult = RetentionResult(scansPurged: nat, scanPortsPurged: nat, loginAttemptsPurged: nat)

  predicate IsLatest(t: Q.Table, id: nat) {
    id in t && forall other :: other in t && t[other].asset == t[id].asset ==> t[other].createdAt <= t[id].createdAt
  }

  /** `SELECT DISTINCT ON (asset) ... ORDER BY createdAt DESC`: one of the latest scans of each asset. */
  ghost predicate OneLatestEach(t: Q.Table, ids: set<nat>) {
    && (forall id :: id in ids ==> IsLatest(t, id))
    && (forall id :: id in t ==> exists p :: p in ids && t[p].asset == t[id].asset)
    && (forall p, q :: p in ids && q in ids && t[p].asset == t[q].asset ==> p == q)
  }

  predicate Expired(row: Q.Scan, cutoff: int) {
    Q.Terminal(row.status) && row.createdAt < cutoff
  }

  /** The scans the run deletes. */
  function Candidates(t: Q.Table, latest: set<nat>, cutoff: int): set<nat> {
    set id | id in t && Expired(t[id], cutoff) && id !in latest
  }

  function Kept(t: Q.Table, latest: set<nat>, cutoff: int): Q.Table {
    map id | id in t && !(Expired(t[id], cutoff) && id !in latest) :: t[id]
  }

  // ---------------------------------------------------------------- what survives

  /** Every asset keeps its latest scan, and unfinished and recent scans all stay as they are. */
  lemma LatestAndUnfinishedSurvive(t: Q.Table, latest: set<nat>, cutoff: int, id: nat)
    requires OneLatestEach(t, latest) && id in t
    ensures var t' := Kept(t, latest, cutoff);
      && (id in t' <==> id in latest || !Q.Terminal(t[id].status) || t[id].createdAt >= cutoff)
      && (id in t' ==> t'[id] == t[id])
      && exists p :: p in t' && t[p].asset == t[id].asset && IsLatest(t, p) && IsLatest(t', p)
  {
    var t' := Kept(t, latest, cutoff);
    var p :| p in latest && t[p].asset == t[id].asset;
    assert IsLatest(t, p) && p in t';
    assert IsLatest(t', p);
  }

  /** The queue does not notice: the same scans are running, claimable and next. */
  lemma QueueUndisturbed(t: Q.Table, latest: set<nat>, cutoff: int, maxPerOrg: nat, id: nat)
    ensures var t' := Kept(t, latest, cutoff);
      && (forall org :: Q.RunningOf(t', org) == Q.RunningOf(t, org))
      && (Q.Claimable(t', maxPerOrg, id) <==> Q.Claimable(t, maxPerOrg, id))
      && (Q.NextUp(t', maxPerOrg, id) <==> Q.NextUp(t, maxPerOrg, id))
  {
    var t' := Kept(t, latest, cutoff);
    forall org ensures Q.RunningOf(t', org) == Q.RunningOf(t, org) {}
    forall other ensures Q.Claimable(t', maxPerOrg, other) <==> Q.Claimable(t, maxPerOrg, other) {
      if other in t { assert Q.RunningOf(t', t[other].org) == Q.RunningOf(t, t[other].org); }
    }
    forall other | Q.Claimable(t, maxPerOrg, other) ensures other in t' && t'[other] == t[other] {}
  }

  /** The assets with a COMPLETED scan, as the score reads them. */
  function CompletedAssets(t: Q.Table): set<nat> {
    set id | id in t && t[id].status.Completed? :: t[id].asset
  }

  /** The asset counts for the Security Score when the scans table is `t`. */
  predicate Scored(db: R.Db, t: Q.Table, asset: nat)
    requires asset in db.assets
  {
    R.HasBeenScanned(db.(completed := CompletedAssets(t)), asset)
  }

  /**
   * The run can take an asset out of the Security Score. It stays in exactly when its protected
   * scan is COMPLETED, or some COMPLETED scan of it is still within the retention period, or it is
   * a cloud account with a scan date.
   */
  lemma StaysScored(db: R.Db, t: Q.Table, latest: set<nat>, cutoff: int, asset: nat)
    requires OneLatestEach(t, latest) && asset in db.assets
    ensures Scored(db, Kept(t, latest, cutoff), asset) <==>
      || (db.assets[asset].cloud && db.assets[asset].lastScanned.Some?)
      || exists id :: id in t && t[id].asset == asset && t[id].status.Completed?
          && (id in latest || t[id].createdAt >= cutoff)
  {
    var t' := Kept(t, latest, cutoff);
    if id :| id in t && t[id].asset == asset && t[id].status.Completed? && (id in latest || t[id].createdAt >= cutoff) {
      assert id in t' && t'[id] == t[id];
    }
  }

  /** It does happen to any other asset: an old completed scan followed by an old failed one. */
  lemma FailedRescanUnscores(db: R.Db, asset: nat, at: int, cutoff: int)
    requires at + 1 < cutoff && asset in db.assets && !db.assets[asset].cloud
    ensures var row := Q.Scan(db.assets[asset].org, asset, Q.PortScan, Q.Completed, at, Some(at), 0, None, 0);
      var t: Q.Table := map[1 := row, 2 := row.(status := Q.Failed, createdAt := at + 1)];
      OneLatestEach(t, {2}) && Scored(db, t, asset) && !Scored(db, Kept(t, {2}, cutoff), asset)
  {
    var row := Q.Scan(db.assets[asset].org, asset, Q.PortScan, Q.Completed, at, Some(at), 0, None, 0);
    var t: Q.Table := map[1 := row, 2 := row.(status := Q.Failed, createdAt := at + 1)];
    assert t[1].status.Completed? && t[2].asset == asset;
    assert asset in CompletedAssets(t);
  }

  // ---------------------------------------------------------------- the run in place

  class Database {
    var scans: Q.Table
    var ports: set<Port>

    constructor (scans: Q.Table, ports: set<Port>)
      ensures this.scans == scans && this.ports == ports
    {
      this.scans, this.ports := scans, ports;
    }

    method LatestScans() returns (latest: set<nat>)
      ensures OneLatestEach(scans, latest)
    {
      var best: map<nat, nat> := map[];
      var left := scans.Keys;
      while left != {}
        invariant BestSoFar(scans, best, left)
        decreases |left|
      {
        var id :| id in left;
        BestStep(scans, best, left, id);
        var asset := scans[id].asset;
        if asset !in best || scans[id].createdAt > scans[best[asset]].createdAt {
          best := best[asset := id];
        }
        left := left - {id};
      }
      BestOfAll(scans, best);
      latest := set asset | asset in best :: best[asset];
    }

    /** The deleteMany, with the ports that go with the scans counted before. */
    method DeleteScans(ids: set<nat>) returns (scansPurged: nat, portsPurged: nat)
      requires ids <= scans.Keys
      modifies this
      ensures scans == old(scans) - ids && ports == PortsKept(old(ports), old(scans), scans)
      ensures scansPurged == |old(scans)| - |scans| && portsPurged == |old(ports)| - |ports|
      ensures forall p :: p in ports <==> p in old(ports) && p.scan !in ids
    {
      var gonePorts := set p | p in ports && p.scan in ids;
      assert (scans - ids).Keys == scans.Keys - ids;
      scansPurged, portsPurged := |ids|, |gonePorts|;
      scans := scans - ids;
      ports := ports - gonePorts;
    }

    /** Old finished scans go, and their ports with them; zero days switch this off. */
    method PurgeScans(now: int, days: nat) returns (scansPurged: nat, portsPurged: nat, ghost latest: set<nat>)
      modifies this
      ensures days == 0 ==> scans == old(scans)
      ensures days > 0 ==> OneLatestEach(old(scans), latest) && scans == Kept(old(scans), latest, now - days * DAY_MS)
      ensures scansPurged == |old(scans)| - |scans| && portsPurged == |old(ports)| - |ports|
      ensures ports == PortsKept(old(ports), old(scans), scans)
    {
      scansPurged, portsPurged, latest := 0, 0, {};
      if days == 0 {
        return;
      }
      var cutoff := now - days * DAY_MS;
      var protectedIds := LatestScans();
      latest := protectedIds;
      KeptIsTheRest(scans, latest, cutoff);
      var toDelete := Candidates(scans, protectedIds, cutoff);
      scansPurged, portsPurged := DeleteScans(toDelete);
    }

    /** The run: nothing when switched off; otherwise scans and rows of failed logins. */
    method RunRetention(enabled: bool, scansDays: nat, now: int,
        logins: L.LoginAttempts) returns (r: RetentionResult, ghost latest: set<nat>)
      modifies this, logins
      ensures !enabled ==> scans == old(scans) && logins.rows == old(logins.rows)
      ensures enabled ==> forall key :: logins.RowOf(key) == L.Purged(old(logins.RowOf(key)), now)
      ensures enabled && scansDays > 0 ==>
          OneLatestEach(old(scans), latest) && scans == Kept(old(scans), latest, now - scansDays * DAY_MS)
      ensures enabled && scansDays == 0 ==> scans == old(scans)
      ensures ports == PortsKept(old(ports), old(scans), scans)
      ensures r.scansPurged == |old(scans)| - |scans| && r.scanPortsPurged == |old(ports)| - |ports|
      ensures r.loginAttemptsPurged == |old(logins.rows)| - |logins.rows|
    {
      r, latest := RetentionResult(0, 0, 0), {};
      if !enabled {
        return;
      }
      var scansPurged, portsPurged;
      scansPurged, portsPurged, latest := PurgeScans(now, scansDays);
      var loginsPurged := logins.PurgeOld(now);
      r := RetentionResult(scansPurged, portsPurged, loginsPurged);
    }
  }

  /** A port goes exactly with its scan. */
  lemma PortsGoWithScans(ports: set<Port>, t: Q.Table, latest: set<nat>, cutoff: int, p: Port)
    requires p in ports && p.scan in t
    ensures p in PortsKept(ports, t, Kept(t, latest, cutoff)) <==> p.scan in Kept(t, latest, cutoff)
  {
  }

  /** The ports of scans that were not deleted. */
  function PortsKept(ports: set<Port>, before: Q.Table, after: Q.Table): set<Port> {
    set p | p in ports && (p.scan in before ==> p.scan in after)
  }

  lemma KeptIsTheRest(t: Q.Table, latest: set<nat>, cutoff: int)
    ensures t - Candidates(t, latest, cutoff) == Kept(t, latest, cutoff) && Candidates(t, latest, cutoff) <= t.Keys
  {
  }

  /** `best` holds the latest of the scans already looked at, by asset. */
  ghost predicate BestSoFar(t: Q.Table, best: map<nat, nat>, left: set<nat>) {
    && left <= t.Keys
    && (forall asset :: asset in best ==> best[asset] in t && t[best[asset]].asset == asset)
    && (forall id :: id in t && id !in left ==>
         t[id].asset in best && t[id].createdAt <= t[best[t[id].asset]].createdAt)
  }

  lemma BestStep(t: Q.Table, best: map<nat, nat>, left: set<nat>, id: nat)
    requires BestSoFar(t, best, left) && id in left
    ensures var asset := t[id].asset;
      BestSoFar(t, if asset !in best || t[id].createdAt > t[best[asset]].createdAt then best[asset := id]
          else best, left - {id})
  {
  }

  lemma BestOfAll(t: Q.Table, best: map<nat, nat>)
    requires BestSoFar(t, best, {})
    ensures OneLatestEach(t, set asset | asset in best :: best[asset])
  {
    var latest := set asset | asset in best :: best[asset];
    forall id | id in t ensures exists p :: p in latest && t[p].asset == t[id].asset {
      assert best[t[id].asset] in latest;
    }
  }
}
