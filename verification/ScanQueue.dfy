/**
 * The scan queue of scan-worker.service.ts. The queue is the `scans` table itself: any number
 * of worker processes claim PENDING rows, execute them and settle them with conditional
 * updates. One step of the system is one SQL statement or one transaction.
 */
module ScanQueue {
  import opened Base

  datatype Status = Pending | Running | Completed | Failed | Cancelled

  datatype ScanType = PortScan | SubdomainDiscovery | EmailSecurity | SslCert | WebHeaders | SensitivePaths

  datatype Scan = Scan(
    org: nat, asset: nat, kind: ScanType, status: Status, createdAt: int,
    startedAt: Option<int>, retryCount: nat, batch: Option<nat>, stage: nat)

  type Table = map<nat, Scan>

  predicate Terminal(st: Status) {
    st.Completed? || st.Failed? || st.Cancelled?
  }

  // ---------------------------------------------------------------- the SQL statements

  function RunningOf(t: Table, org: nat): set<nat> {
    set id | id in t && t[id].org == org && t[id].status.Running?
  }

  function TypeRank(k: ScanType): nat {
    match k
    case PortScan => 1
    case SubdomainDiscovery => 2
    case EmailSecurity => 3
    case SslCert => 4
    case WebHeaders => 5
    case SensitivePaths => 6
  }

  /** The ORDER BY of the claim: creation minute, then pipeline rank of the type, then creation time. */
  predicate Before(a: Scan, b: Scan) {
    var ma, mb := a.createdAt / 60000, b.createdAt / 60000;
    || ma < mb
    || (ma == mb && TypeRank(a.kind) < TypeRank(b.kind))
    || (ma == mb && TypeRank(a.kind) == TypeRank(b.kind) && a.createdAt < b.createdAt)
  }

  predicate Claimable(t: Table, maxPerOrg: nat, id: nat) {
    id in t && t[id].status.Pending? && |RunningOf(t, t[id].org)| < maxPerOrg
  }

  /** A row that the claim may return: claimable, and no claimable row comes before it. */
  ghost predicate NextUp(t: Table, maxPerOrg: nat, id: nat) {
    && Claimable(t, maxPerOrg, id)
    && forall other :: Claimable(t, maxPerOrg, other) ==> !Before(t[other], t[id])
  }

  /** A new row, always PENDING and never started; an id that is taken stays as it is. */
  function Enqueued(t: Table, id: nat, row: Scan): Table {
    if id in t then t else t[id := row.(status := Pending, startedAt := None, retryCount := 0)]
  }

  function Claim(t: Table, id: nat, now: int): Table
    requires id in t
  {
    t[id := t[id].(status := Running, startedAt := Some(now))]
  }

  predicate Stale(row: Scan, limit: int) {
    row.status.Running? && row.startedAt.Some? && row.startedAt.value < limit
  }

  function StaleOf(t: Table, limit: int): set<nat> {
    set id | id in t && Stale(t[id], limit)
  }

  function Sweep(t: Table, limit: int): Table {
    map id | id in t :: if Stale(t[id], limit) then t[id].(status := Failed) else t[id]
  }

  /** How an executor ends its scan. */
  datatype Verdict = Succeed | Retry | GiveBack | Fail | Withdraw

  function VerdictOn(reason: AbortReason): Verdict {
    match reason
    case ByShutdown => GiveBack
    case ByTimeout => Fail
    case ByUser => Withdraw
  }

  function Concluded(row: Scan, v: Verdict, retryCount: nat): Scan {
    match v
    case Succeed => row.(status := Completed)
    case Retry => row.(status := Pending, startedAt := None, retryCount := retryCount + 1)
    case GiveBack => row.(status := Pending, startedAt := None)
    case Fail => row.(status := Failed)
    case Withdraw => row.(status := Cancelled)
  }

  /** `UPDATE ... WHERE id AND status = 'RUNNING'`, the only way an executor ends its scan. */
  function Conclude(t: Table, id: nat, v: Verdict, retryCount: nat): Table {
    if id in t && t[id].status.Running? then t[id := Concluded(t[id], v, retryCount)] else t
  }

  function CancelScan(t: Table, id: nat): Table {
    if id in t && (t[id].status.Pending? || t[id].status.Running?)
    then t[id := t[id].(status := Cancelled)]
    else t
  }

  /** Among any non-empty set of rows one has no other before it. */
  lemma {:induction false} FirstInOrder(t: Table, ids: set<nat>) returns (first: nat)
    requires ids != {} && ids <= t.Keys
    ensures first in ids && forall other :: other in ids ==> !Before(t[other], t[first])
  {
    first :| first in ids;
    if ids != {first} {
      var best := FirstInOrder(t, ids - {first});
      if !Before(t[first], t[best]) { first := best; }
    }
  }

  /** claimNext comes back empty-handed only when no row is claimable. */
  lemma ClaimFindsWork(t: Table, maxPerOrg: nat)
    ensures (exists id :: NextUp(t, maxPerOrg, id)) <==> (exists id :: Claimable(t, maxPerOrg, id))
  {
    var claimable := set id | id in t && Claimable(t, maxPerOrg, id);
    if claimable != {} {
      var first := FirstInOrder(t, claimable);
      assert NextUp(t, maxPerOrg, first);
    } else {
      forall id ensures !Claimable(t, maxPerOrg, id) { assert id !in claimable; }
    }
  }

  /** The types in the order in which the queue serves them within a minute. */
  const SERVED: seq<ScanType> := [PortScan, SubdomainDiscovery, EmailSecurity, SslCert, WebHeaders, SensitivePaths]

  /** `a` may be served before `b`: the older minute, then the earlier type of the list, then the older scan. */
  ghost predicate ServedFirst(a: Scan, b: Scan) {
    exists i, j ::
      && 0 <= i < |SERVED| && 0 <= j < |SERVED| && SERVED[i] == a.kind && SERVED[j] == b.kind
      && a.createdAt / 60000 <= b.createdAt / 60000
      && (a.createdAt / 60000 == b.createdAt / 60000 ==> i <= j && (i == j ==> a.createdAt <= b.createdAt))
  }

  lemma PlaceOf(k: ScanType) returns (i: nat)
    ensures i < |SERVED| && SERVED[i] == k && i + 1 == TypeRank(k)
    ensures forall j :: 0 <= j < |SERVED| && SERVED[j] == k ==> j == i
  {
    i := match k case PortScan => 0 case SubdomainDiscovery => 1 case EmailSecurity => 2 case SslCert => 3
      case WebHeaders => 4 case SensitivePaths => 5;
  }

  lemma NotBeforeIsServedFirst(a: Scan, b: Scan)
    ensures !Before(b, a) <==> ServedFirst(a, b)
  {
    var i := PlaceOf(a.kind);
    var j := PlaceOf(b.kind);
    if !Before(b, a) { assert SERVED[i] == a.kind && SERVED[j] == b.kind; }
  }

  /** What a claim takes: a PENDING scan of an organization with room that may be served before every such scan. */
  lemma ServesTheFirst(t: Table, maxPerOrg: nat, id: nat)
    ensures NextUp(t, maxPerOrg, id) <==>
      && id in t && t[id].status == Pending
      && |set r | r in t && t[r].org == t[id].org && t[r].status == Running| < maxPerOrg
      && forall other ::
           (&& other in t && t[other].status == Pending
            && |set r | r in t && t[r].org == t[other].org && t[r].status == Running| < maxPerOrg) ==>
           ServedFirst(t[id], t[other])
  {
    forall other | other in t
      ensures RunningOf(t, t[other].org) == set r | r in t && t[r].org == t[other].org && t[r].status == Running
    {
    }
    if id in t {
      forall other | other in t ensures !Before(t[other], t[id]) <==> ServedFirst(t[id], t[other]) {
        NotBeforeIsServedFirst(t[id], t[other]);
      }
    }
  }

  // ---------------------------------------------------------------- the table in place

  /** The `scans` table with the statements that the worker issues on it. */
  class ScanTable {
    var rows: Table

    constructor ()
      ensures rows == map[]
    {
      rows := map[];
    }

    method ClaimNext(maxPerOrg: nat, now: int) returns (claimed: Option<nat>)
      modifies this
      ensures claimed.Some? ==> NextUp(old(rows), maxPerOrg, claimed.value)
      ensures claimed.Some? ==> forall other :: Claimable(old(rows), maxPerOrg, other) ==>
        ServedFirst(old(rows)[claimed.value], old(rows)[other])
      ensures claimed.Some? ==>
        rows == old(rows)[claimed.value := old(rows)[claimed.value].(status := Running, startedAt := Some(now))]
      ensures claimed.None? ==> rows == old(rows) && forall id :: id in rows && rows[id].status == Pending ==>
        |set r | r in rows && rows[r].org == rows[id].org && rows[r].status == Running| >= maxPerOrg
    {
      ClaimFindsWork(rows, maxPerOrg);
      var candidates := set id | id in rows && Claimable(rows, maxPerOrg, id);
      if candidates == {} {
        forall id | id in rows && rows[id].status == Pending
          ensures |set r | r in rows && rows[r].org == rows[id].org && rows[r].status == Running| >= maxPerOrg
        {
          assert id !in candidates;
          assert RunningOf(rows, rows[id].org)
              == set r | r in rows && rows[r].org == rows[id].org && rows[r].status == Running;
        }
        return None;
      }
      var first := First(candidates);
      forall other | Claimable(rows, maxPerOrg, other) ensures ServedFirst(rows[first], rows[other]) {
        assert other in candidates;
        NotBeforeIsServedFirst(rows[first], rows[other]);
      }
      rows := rows[first := rows[first].(status := Running, startedAt := Some(now))];
      return Some(first);
    }

    /** ORDER BY ... LIMIT 1. */
    method First(ids: set<nat>) returns (first: nat)
      requires ids != {} && ids <= rows.Keys
      ensures first in ids && forall other :: other in ids ==> !Before(rows[other], rows[first])
    {
      ghost var earliest := FirstInOrder(rows, ids);
      first :| first in ids && forall other :: other in ids ==> !Before(rows[other], rows[first]);
    }

    /** The query of failStaleScans: the scans whose end will be reported. */
    method StaleScans(limit: int) returns (stale: set<nat>)
      ensures stale == StaleOf(rows, limit)
      ensures forall id :: id in stale <==>
        id in rows && rows[id].status == Running && rows[id].startedAt.Some? && rows[id].startedAt.value < limit
    {
      stale := set id | id in rows && rows[id].status == Running && rows[id].startedAt.Some?
          && rows[id].startedAt.value < limit;
    }

    /** Its update, a statement of its own. */
    method FailStaleScans(limit: int) returns (count: nat)
      modifies this
      ensures rows == Sweep(old(rows), limit) && count == |StaleOf(old(rows), limit)|
      ensures StaleOf(rows, limit) == {} && rows.Keys == old(rows).Keys
      ensures forall id | id in rows ::
        (if old(rows)[id].status == Running && old(rows)[id].startedAt.Some? && old(rows)[id].startedAt.value < limit
         then rows[id] == old(rows)[id].(status := Failed) else rows[id] == old(rows)[id])
    {
      var stale := set id | id in rows && Stale(rows[id], limit);
      assert stale == StaleOf(rows, limit);
      rows := map id | id in rows :: if id in stale then rows[id].(status := Failed) else rows[id];
      count := |stale|;
    }

    /** The transaction of persistOutcome; the rest of it runs only when it reports true. */
    method PersistOutcome(id: nat) returns (persisted: bool)
      modifies this
      ensures rows == Conclude(old(rows), id, Succeed, 0)
      ensures persisted <==> id in old(rows) && old(rows)[id].status == Running
      ensures rows == if persisted then old(rows)[id := old(rows)[id].(status := Completed)] else old(rows)
    {
      persisted := id in rows && rows[id].status.Running?;
      if persisted {
        assert rows[id].status != Completed;
        rows := rows[id := rows[id].(status := Completed)];
      }
    }

    /** The catch block: back to the queue when the error is transient and tries are left, FAILED otherwise. */
    method OnScannerError(id: nat, retryCount: nat, maxRetries: nat, transient: bool) returns (requeued: bool)
      modifies this
      ensures requeued <==> transient && retryCount < maxRetries
      ensures rows == Conclude(old(rows), id, if requeued then Retry else Fail, retryCount)
      ensures !(id in old(rows) && old(rows)[id].status == Running) ==> rows == old(rows)
      ensures id in old(rows) && old(rows)[id].status == Running ==>
        rows == old(rows)[id :=
          (if requeued then old(rows)[id].(status := Pending, startedAt := None, retryCount := retryCount + 1)
           else old(rows)[id].(status := Failed))]
    {
      var running := id in rows && rows[id].status.Running?;
      if transient && retryCount < maxRetries {
        if running {
          rows := rows[id := rows[id].(status := Pending, startedAt := None, retryCount := retryCount + 1)];
        }
        return true;
      }
      if running {
        rows := rows[id := rows[id].(status := Failed)];
      }
      return false;
    }

    method HandleInterrupted(id: nat, reason: AbortReason)
      modifies this
      ensures rows == Conclude(old(rows), id, VerdictOn(reason), 0)
      ensures !(id in old(rows) && old(rows)[id].status == Running) ==> rows == old(rows)
      ensures id in old(rows) && old(rows)[id].status == Running ==>
        rows == old(rows)[id :=
          (if reason == ByShutdown then old(rows)[id].(status := Pending, startedAt := None)
           else if reason == ByTimeout then old(rows)[id].(status := Failed)
           else old(rows)[id].(status := Cancelled))]
    {
      if id in rows && rows[id].status.Running? {
        match reason
        case ByShutdown => rows := rows[id := rows[id].(status := Pending, startedAt := None)];
        case ByTimeout => rows := rows[id := rows[id].(status := Failed)];
        case ByUser => rows := rows[id := rows[id].(status := Cancelled)];
      }
    }
  }

  // ---------------------------------------------------------------- the transition system

  /** Limits shared by all worker processes. */
  datatype Config = Config(maxPerOrg: nat, maxRetries: nat)

  /** An `execute` call that has not settled its scan yet; `loaded` is the retry count it read. */
  datatype Executor = Executor(scan: nat, loaded: Option<nat>)

  datatype Obs = Claimed(id: nat) | Retried(id: nat) | GivenBack(id: nat) | Committed(id: nat)

  /** Rows, live executors of all processes, and how often each observable thing has happened. */
  datatype System = System(scans: Table, executors: map<nat, Executor>, log: multiset<Obs>)

  datatype Event =
    | Enqueue(id: nat, row: Scan)
    | ClaimNext(exec: nat, id: nat, now: int)
    | Load(exec: nat)
    | ScannerDone(exec: nat)
    | ScannerError(exec: nat, transient: bool)
    | Interrupted(exec: nat, reason: AbortReason)
    | Crash(exec: nat)
    | FailStale(limit: int)
    | UserCancel(id: nat)

  const EMPTY := System(map[], map[], multiset{})

  predicate Executing(s: System, x: nat) {
    x in s.executors && s.executors[x].loaded.Some? && s.executors[x].scan in s.scans
  }

  /** The events by which an executor ends. */
  predicate Ends(e: Event) {
    e.ScannerDone? || e.ScannerError? || e.Interrupted?
  }

  /** The branch that `execute` takes, given the retry count it read when it began. */
  function Decide(c: Config, e: Event, loaded: nat): Verdict
    requires Ends(e)
  {
    match e
    case ScannerDone(_) => Succeed
    case ScannerError(_, transient) => if transient && loaded < c.maxRetries then Retry else Fail
    case Interrupted(_, reason) => VerdictOn(reason)
  }

  /** What is noted when a RUNNING scan is concluded. */
  function Note(v: Verdict, id: nat): multiset<Obs> {
    match v
    case Succeed => multiset{Committed(id)}
    case Retry => multiset{Retried(id)}
    case GiveBack => multiset{GivenBack(id)}
    case _ => multiset{}
  }

  function EndExecution(s: System, x: nat, v: Verdict): System
    requires Executing(s, x)
  {
    var Executor(id, n) := s.executors[x];
    System(Conclude(s.scans, id, v, n.value), s.executors - {x},
           if s.scans[id].status.Running? then s.log + Note(v, id) else s.log)
  }

  ghost function Step(c: Config, s: System, e: Event): System {
    match e
    case Enqueue(id, row) => s.(scans := Enqueued(s.scans, id, row))
    case ClaimNext(x, id, now) =>
      if x in s.executors || !NextUp(s.scans, c.maxPerOrg, id) then s
      else System(Claim(s.scans, id, now), s.executors[x := Executor(id, None)], s.log + multiset{Claimed(id)})
    case Load(x) =>
      if x !in s.executors || s.executors[x].scan !in s.scans then s
      else s.(executors := s.executors[x := s.executors[x].(loaded := Some(s.scans[s.executors[x].scan].retryCount))])
    case Crash(x) => s.(executors := s.executors - {x})
    case FailStale(limit) => s.(scans := Sweep(s.scans, limit))
    case UserCancel(id) => s.(scans := CancelScan(s.scans, id))
    case _ =>
      if !Executing(s, e.exec) then s
      else EndExecution(s, e.exec, Decide(c, e, s.executors[e.exec].loaded.value))
  }

  ghost function Run(c: Config, s: System, es: seq<Event>): System {
    if es == [] then s else Step(c, Run(c, s, es[..|es| - 1]), es[|es| - 1])
  }

  // ---------------------------------------------------------------- the inductive invariant

  /** The bookkeeping of one scan: what its row says about its past. */
  predicate Accounted(c: Config, row: Scan, log: multiset<Obs>, id: nat) {
    var requeues := log[Retried(id)] + log[GivenBack(id)];
    && log[Retried(id)] == row.retryCount <= c.maxRetries
    && log[Committed(id)] == (if row.status.Completed? then 1 else 0)
    && (row.status.Pending? ==> log[Claimed(id)] == requeues)
    && (row.status.Running? || row.status.Completed? || row.status.Failed? ==> log[Claimed(id)] == requeues + 1)
    && (row.status.Cancelled? ==> requeues <= log[Claimed(id)] <= requeues + 1)
  }

  predicate AccountsFor(c: Config, s: System, id: nat) {
    if id in s.scans then Accounted(c, s.scans[id], s.log, id)
    else s.log[Claimed(id)] == s.log[Retried(id)] == s.log[GivenBack(id)] == s.log[Committed(id)] == 0
  }

  /** What an executor knows about the scan it holds. */
  predicate Holds(s: System, x: nat)
    requires x in s.executors
  {
    var ex := s.executors[x];
    && ex.scan in s.scans && !s.scans[ex.scan].status.Pending?
    && (ex.loaded.Some? ==> ex.loaded.value == s.scans[ex.scan].retryCount)
  }

  /** Executors hold claimed scans, and never two of them the same one. */
  ghost predicate Exclusive(s: System) {
    && (forall x :: x in s.executors ==> Holds(s, x))
    && (forall x, y :: x in s.executors && y in s.executors && s.executors[x].scan == s.executors[y].scan ==> x == y)
  }

  ghost predicate Bookkept(c: Config, s: System) {
    forall id :: AccountsFor(c, s, id)
  }

  ghost predicate WithinOrgLimits(c: Config, s: System) {
    forall org :: |RunningOf(s.scans, org)| <= c.maxPerOrg
  }

  ghost predicate Inv(c: Config, s: System) {
    Exclusive(s) && Bookkept(c, s) && WithinOrgLimits(c, s)
  }

  lemma EndKeepsExclusive(s: System, x: nat, v: Verdict)
    requires Exclusive(s) && Executing(s, x)
    ensures Exclusive(EndExecution(s, x, v))
  {
    var s' := EndExecution(s, x, v);
    forall y | y in s'.executors ensures Holds(s', y) {
      assert Holds(s, y) && s.executors[y].scan != s.executors[x].scan;
    }
  }

  lemma StepKeepsExclusive(c: Config, s: System, e: Event)
    requires Exclusive(s)
    ensures Exclusive(Step(c, s, e))
  {
    if Ends(e) {
      if Executing(s, e.exec) { EndKeepsExclusive(s, e.exec, Decide(c, e, s.executors[e.exec].loaded.value)); }
    } else {
      var s' := Step(c, s, e);
      forall y | y in s'.executors ensures Holds(s', y) {
        if y in s.executors { assert Holds(s, y); }
      }
    }
  }

  lemma EndKeepsAccounts(c: Config, s: System, x: nat, v: Verdict, id: nat)
    requires Executing(s, x) && Holds(s, x) && AccountsFor(c, s, id)
    requires v.Retry? ==> s.executors[x].loaded.value < c.maxRetries
    ensures AccountsFor(c, EndExecution(s, x, v), id)
  {
  }

  lemma ClaimKeepsAccounts(c: Config, s: System, e: Event, id: nat)
    requires AccountsFor(c, s, id) && e.ClaimNext?
    ensures AccountsFor(c, Step(c, s, e), id)
  {
  }

  lemma OtherStepKeepsAccounts(c: Config, s: System, e: Event, id: nat)
    requires AccountsFor(c, s, id) && !Ends(e) && !e.ClaimNext?
    ensures AccountsFor(c, Step(c, s, e), id)
  {
  }

  lemma StepKeepsAccounts(c: Config, s: System, e: Event, id: nat)
    requires Exclusive(s) && AccountsFor(c, s, id)
    ensures AccountsFor(c, Step(c, s, e), id)
  {
    if e.ClaimNext? {
      ClaimKeepsAccounts(c, s, e, id);
    } else if !Ends(e) {
      OtherStepKeepsAccounts(c, s, e, id);
    } else if Executing(s, e.exec) {
      assert Holds(s, e.exec);
      EndKeepsAccounts(c, s, e.exec, Decide(c, e, s.executors[e.exec].loaded.value), id);
    }
  }

  lemma StepKeepsBookkept(c: Config, s: System, e: Event)
    requires Exclusive(s) && Bookkept(c, s)
    ensures Bookkept(c, Step(c, s, e))
  {
    forall id ensures AccountsFor(c, Step(c, s, e), id) {
      StepKeepsAccounts(c, s, e, id);
    }
  }

  lemma SubsetSize(a: set<nat>, b: set<nat>)
    requires a <= b
    ensures |a| <= |b|
  {
    assert b == a + (b - a);
  }

  lemma ConcludeKeepsPlace(t: Table, id: nat, v: Verdict, retryCount: nat, other: nat)
    ensures other in Conclude(t, id, v, retryCount) <==> other in t
    ensures other in t ==>
      var row, row' := t[other], Conclude(t, id, v, retryCount)[other];
      && row' == row.(status := row'.status, startedAt := row'.startedAt, retryCount := row'.retryCount)
      && (Terminal(row.status) ==> row' == row)
      && (row'.status.Running? ==> row.status.Running?)
  {
  }

  /** A row keeps all but its status, start and retry count, and a settled one keeps everything. */
  lemma StepKeepsPlace(c: Config, s: System, e: Event, id: nat)
    requires id in Step(c, s, e).scans
    ensures id !in s.scans ==> e.Enqueue? && e.id == id && Step(c, s, e).scans[id].batch == e.row.batch
    ensures id !in s.scans ==> Step(c, s, e).scans[id].status.Pending?
    ensures id in s.scans ==>
      var row, row' := s.scans[id], Step(c, s, e).scans[id];
      && row' == row.(status := row'.status, startedAt := row'.startedAt, retryCount := row'.retryCount)
      && (Terminal(row.status) ==> row' == row)
  {
    if Ends(e) {
      if Executing(s, e.exec) {
        var ex := s.executors[e.exec];
        ConcludeKeepsPlace(s.scans, ex.scan, Decide(c, e, ex.loaded.value), ex.loaded.value, id);
      }
    }
  }

  /** Only the claim starts a scan, and only one whose organization is below its limit. */
  lemma OnlyClaimStarts(c: Config, s: System, e: Event, id: nat)
    requires id in s.scans && id in Step(c, s, e).scans && Step(c, s, e).scans[id].status.Running?
    ensures s.scans[id].status.Running? || (e.ClaimNext? && e.id == id && Claimable(s.scans, c.maxPerOrg, id))
  {
    if Ends(e) {
      if Executing(s, e.exec) {
        var ex := s.executors[e.exec];
        ConcludeKeepsPlace(s.scans, ex.scan, Decide(c, e, ex.loaded.value), ex.loaded.value, id);
      }
    }
  }

  lemma StepKeepsOrgLimits(c: Config, s: System, e: Event)
    requires WithinOrgLimits(c, s)
    ensures WithinOrgLimits(c, Step(c, s, e))
  {
    forall org: nat ensures |RunningOf(Step(c, s, e).scans, org)| <= c.maxPerOrg {
      var before, after := RunningOf(s.scans, org), RunningOf(Step(c, s, e).scans, org);
      forall id | id in after ensures id in before || (e.ClaimNext? && e.id == id && |before| < c.maxPerOrg) {
        StepKeepsPlace(c, s, e, id);
        OnlyClaimStarts(c, s, e, id);
      }
      if after <= before {
        SubsetSize(after, before);
      } else {
        SubsetSize(after - {e.id}, before);
      }
    }
  }

  lemma StepKeepsInv(c: Config, s: System, e: Event)
    requires Inv(c, s)
    ensures Inv(c, Step(c, s, e))
  {
    StepKeepsExclusive(c, s, e);
    StepKeepsBookkept(c, s, e);
    StepKeepsOrgLimits(c, s, e);
  }

  lemma {:induction false} ReachableInv(c: Config, es: seq<Event>)
    ensures Inv(c, Run(c, EMPTY, es))
  {
    if es == [] {
      forall org: nat ensures RunningOf(EMPTY.scans, org) == {} {}
    } else {
      ReachableInv(c, es[..|es| - 1]);
      StepKeepsInv(c, Run(c, EMPTY, es[..|es| - 1]), es[|es| - 1]);
    }
  }

  // ---------------------------------------------------------------- what every run guarantees

  /** No scan is ever in the hands of two executors, and no organization runs over its limit. */
  lemma NeverHeldTwice(c: Config, es: seq<Event>, x: nat, y: nat, org: nat)
    ensures var s := Run(c, EMPTY, es);
      && (x in s.executors && y in s.executors && x != y ==> s.executors[x].scan != s.executors[y].scan)
      && |RunningOf(s.scans, org)| <= c.maxPerOrg
  {
    ReachableInv(c, es);
  }

  lemma StepKeepsTerminal(c: Config, s: System, e: Event, id: nat)
    requires id in s.scans && Terminal(s.scans[id].status)
    ensures id in Step(c, s, e).scans && Step(c, s, e).scans[id] == s.scans[id]
  {
    StepKeepsRows(c, s, e, id);
    StepKeepsPlace(c, s, e, id);
  }

  lemma StepKeepsRows(c: Config, s: System, e: Event, id: nat)
    requires id in s.scans
    ensures id in Step(c, s, e).scans
  {
  }

  /** COMPLETED, FAILED and CANCELLED are absorbing: the row never changes again. */
  lemma {:induction false} TerminalIsForever(c: Config, s: System, es: seq<Event>, id: nat)
    requires id in s.scans && Terminal(s.scans[id].status)
    ensures id in Run(c, s, es).scans && Run(c, s, es).scans[id] == s.scans[id]
  {
    if es != [] {
      TerminalIsForever(c, s, es[..|es| - 1], id);
      StepKeepsTerminal(c, Run(c, s, es[..|es| - 1]), es[|es| - 1], id);
    }
  }

  /** The outcome transaction commits at most once per scan, and exactly for the COMPLETED ones. */
  lemma CommitsExactlyTheCompleted(c: Config, es: seq<Event>, id: nat)
    ensures var s := Run(c, EMPTY, es);
      s.log[Committed(id)] == if id in s.scans && s.scans[id].status.Completed? then 1 else 0
  {
    ReachableInv(c, es);
    assert AccountsFor(c, Run(c, EMPTY, es), id);
  }

  // ---------------------------------------------------------------- the order over runs

  lemma {:induction false} RunKeepsCreation(c: Config, s: System, es: seq<Event>, id: nat)
    requires id in s.scans
    ensures id in Run(c, s, es).scans && Run(c, s, es).scans[id].createdAt == s.scans[id].createdAt
    ensures Run(c, s, es).scans[id].org == s.scans[id].org
  {
    if es != [] {
      RunKeepsCreation(c, s, es[..|es| - 1], id);
      StepKeepsRows(c, Run(c, s, es[..|es| - 1]), es[|es| - 1], id);
      StepKeepsPlace(c, Run(c, s, es[..|es| - 1]), es[|es| - 1], id);
    }
  }

  lemma RunNext(c: Config, s: System, es: seq<Event>, n: nat)
    requires n < |es|
    ensures Run(c, s, es[..n + 1]) == Step(c, Run(c, s, es[..n]), es[n])
  {
    assert es[..n + 1][..n] == es[..n];
  }

  /** Scan `id` waits for a worker, with room in its organization, at every moment of the run. */
  ghost predicate Waits(c: Config, s: System, es: seq<Event>, id: nat) {
    forall n :: 0 <= n <= |es| ==> Claimable(Run(c, s, es[..n]).scans, c.maxPerOrg, id)
  }

  /** Step `n` of the run starts scan `id`. */
  ghost predicate Starts(c: Config, s: System, es: seq<Event>, n: nat, id: nat)
    requires n < |es|
  {
    var before, after := Run(c, s, es[..n]).scans, Run(c, s, es[..n + 1]).scans;
    id in before && id in after && before[id].status.Pending? && after[id].status.Running?
  }

  lemma StartTakesTheFirst(c: Config, s: System, e: Event, id: nat)
    requires id in s.scans && id in Step(c, s, e).scans
    requires s.scans[id].status.Pending? && Step(c, s, e).scans[id].status.Running?
    ensures e.ClaimNext? && e.id == id && NextUp(s.scans, c.maxPerOrg, id) && e.exec !in s.executors
  {
    OnlyClaimStarts(c, s, e, id);
  }

  /** While a scan waits, nothing created a minute or more after it is started, whatever arrives. */
  lemma NothingNewerStarts(c: Config, s: System, es: seq<Event>, id: nat, n: nat, other: nat)
    requires Waits(c, s, es, id) && n < |es| && Starts(c, s, es, n, other)
    ensures var scans := Run(c, s, es).scans;
      && id in scans && other in scans && scans[other].createdAt < scans[id].createdAt + 60000
      && scans[other].createdAt / 60000 <= scans[id].createdAt / 60000
  {
    var at := Run(c, s, es[..n]);
    RunNext(c, s, es, n);
    StartTakesTheFirst(c, at, es[n], other);
    assert Claimable(at.scans, c.maxPerOrg, id);
    NotBeforeIsServedFirst(at.scans[other], at.scans[id]);
    RunSplit(c, s, es, n);
    RunKeepsCreation(c, at, es[n..], id);
    RunKeepsCreation(c, at, es[n..], other);
  }

  lemma {:induction false} RunSplit(c: Config, s: System, es: seq<Event>, n: nat)
    requires n <= |es|
    ensures Run(c, s, es) == Run(c, Run(c, s, es[..n]), es[n..])
  {
    if n == |es| {
      assert es[..n] == es && es[n..] == [];
    } else {
      var front := es[..|es| - 1];
      RunSplit(c, s, front, n);
      assert front[..n] == es[..n];
      assert es[n..][..|es[n..]| - 1] == front[n..];
    }
  }

  /** How often a scan is started in a run. */
  ghost function StartsIn(c: Config, s: System, es: seq<Event>): nat {
    if es == [] then 0
    else
      var front := es[..|es| - 1];
      StartsIn(c, s, front) + if exists id :: Started(Run(c, s, front), Run(c, s, es), id) then 1 else 0
  }

  ghost predicate Started(s: System, t: System, id: nat) {
    id in s.scans && id in t.scans && s.scans[id].status.Pending? && t.scans[id].status.Running?
  }

  /** The claims of some scans that are on record. */
  ghost function ClaimsOf(log: multiset<Obs>, ids: set<nat>): set<(nat, nat)> {
    set id, k | id in ids && 0 <= k < log[Claimed(id)] :: (id, k)
  }

  ghost function FirstOf(id: nat, n: nat): set<(nat, nat)> {
    set k | 0 <= k < n :: (id, k)
  }

  lemma {:induction false} FirstOfSize(id: nat, n: nat)
    ensures |FirstOf(id, n)| == n
    decreases n
  {
    if n > 0 {
      FirstOfSize(id, n - 1);
      assert FirstOf(id, n) == FirstOf(id, n - 1) + {(id, n - 1)};
    } else {
      assert FirstOf(id, n) == {};
    }
  }

  lemma ClaimsWith(log: multiset<Obs>, ids: set<nat>, id: nat)
    requires id in ids
    ensures |ClaimsOf(log, ids)| <= |ClaimsOf(log, ids - {id})| + log[Claimed(id)]
  {
    var rest, own := ClaimsOf(log, ids - {id}), FirstOf(id, log[Claimed(id)]);
    assert ClaimsOf(log, ids) <= rest + own;
    SubsetOf(ClaimsOf(log, ids), rest + own);
    assert |rest + own| <= |rest| + |own|;
    FirstOfSize(id, log[Claimed(id)]);
  }

  lemma {:induction false} ClaimsFit(log: multiset<Obs>, ids: set<nat>, most: nat)
    requires forall id :: id in ids ==> log[Claimed(id)] <= most
    ensures |ClaimsOf(log, ids)| <= |ids| * most
    decreases |ids|
  {
    if ids == {} {
      assert ClaimsOf(log, ids) == {};
    } else {
      var id :| id in ids;
      ClaimsFit(log, ids - {id}, most);
      ClaimsWith(log, ids, id);
      assert |ids| * most == |ids - {id}| * most + most;
    }
  }

  lemma StepLogs(c: Config, s: System, e: Event, ids: set<nat>)
    ensures |ClaimsOf(Step(c, s, e).log, ids)| >= |ClaimsOf(s.log, ids)|
    ensures (exists id :: id in ids && Started(s, Step(c, s, e), id)) ==>
      |ClaimsOf(Step(c, s, e).log, ids)| >= |ClaimsOf(s.log, ids)| + 1
  {
    var t := Step(c, s, e);
    assert forall o :: s.log[o] <= t.log[o];
    assert ClaimsOf(s.log, ids) <= ClaimsOf(t.log, ids);
    SubsetOf(ClaimsOf(s.log, ids), ClaimsOf(t.log, ids));
    if id :| id in ids && Started(s, t, id) {
      StartTakesTheFirst(c, s, e, id);
      var extra := (id, s.log[Claimed(id)]);
      assert t.log[Claimed(id)] == s.log[Claimed(id)] + 1;
      assert extra in ClaimsOf(t.log, ids) && extra !in ClaimsOf(s.log, ids);
      SubsetOf(ClaimsOf(s.log, ids) + {extra}, ClaimsOf(t.log, ids));
    }
  }

  lemma SubsetOf<T>(a: set<T>, b: set<T>)
    requires a <= b
    ensures |a| <= |b|
  {
    assert b == a + (b - a);
  }

  /** The scans that may be served before `id`. */
  function Ahead(t: Table, id: nat): set<nat>
    requires id in t
  {
    set other | other in t && other != id && t[other].createdAt / 60000 <= t[id].createdAt / 60000
  }

  lemma {:induction false} StartsAreLogged(c: Config, s: System, es: seq<Event>, id: nat, ids: set<nat>)
    requires Waits(c, s, es, id) && id in Run(c, s, es).scans && Ahead(Run(c, s, es).scans, id) <= ids
    ensures StartsIn(c, s, es) + |ClaimsOf(s.log, ids)| <= |ClaimsOf(Run(c, s, es).log, ids)|
  {
    if es != [] {
      var n := |es| - 1;
      var front := es[..n];
      assert es[..|es|] == es;
      forall m | 0 <= m <= |front| ensures Claimable(Run(c, s, front[..m]).scans, c.maxPerOrg, id) {
        assert front[..m] == es[..m];
      }
      var at := Run(c, s, front);
      assert front[..|front|] == front;
      AheadBefore(c, at, es[n], id);
      StartsAreLogged(c, s, front, id, ids);
      StepLogs(c, at, es[n], ids);
      if other :| Started(at, Run(c, s, es), other) {
        assert es[..n] == front && es[..n + 1] == es;
        assert Starts(c, s, es, n, other);
        NothingNewerStarts(c, s, es, id, n, other);
        assert Claimable(Run(c, s, es[..n + 1]).scans, c.maxPerOrg, id);
        assert other in Ahead(Run(c, s, es).scans, id);
      }
    }
  }

  lemma AheadBefore(c: Config, s: System, e: Event, id: nat)
    requires id in s.scans && id in Step(c, s, e).scans
    ensures Ahead(s.scans, id) <= Ahead(Step(c, s, e).scans, id)
  {
    forall other | other in Ahead(s.scans, id) ensures other in Ahead(Step(c, s, e).scans, id) {
      StepKeepsRows(c, s, e, other);
      StepKeepsPlace(c, s, e, other);
      StepKeepsPlace(c, s, e, id);
    }
  }

  /**
   * No scan starves: while it waits, without shutdowns, at most maxRetries + 1 starts for each scan
   * of its minute or an earlier one come before it, however many newer scans arrive.
   */
  lemma WaitIsBounded(c: Config, earlier: seq<Event>, es: seq<Event>, id: nat)
    requires Waits(c, Run(c, EMPTY, earlier), es, id) && !HasShutdown(earlier + es)
    ensures var s := Run(c, EMPTY, earlier); var t := Run(c, s, es);
      id in t.scans && StartsIn(c, s, es) <= |Ahead(t.scans, id)| * (c.maxRetries + 1)
  {
    var s := Run(c, EMPTY, earlier);
    var t := Run(c, s, es);
    assert es[..|es|] == es && Claimable(Run(c, s, es[..|es|]).scans, c.maxPerOrg, id);
    var ids := Ahead(t.scans, id);
    StartsAreLogged(c, s, es, id, ids);
    RunSplit(c, EMPTY, earlier + es, |earlier|);
    assert (earlier + es)[..|earlier|] == earlier && (earlier + es)[|earlier|..] == es;
    forall other | other in ids ensures t.log[Claimed(other)] <= c.maxRetries + 1 {
      AttemptsBounded(c, earlier + es, other);
    }
    ClaimsFit(t.log, ids, c.maxRetries + 1);
  }

  // ---------------------------------------------------------------- how a scan ends

  /** The execution `x` holds scan `id`, and its row still says RUNNING. */
  predicate Works(s: System, x: nat, id: nat) {
    Executing(s, x) && s.executors[x].scan == id && s.scans[id].status.Running?
  }

  lemma ConcludesOne(c: Config, s: System, e: Event, id: nat)
    requires Ends(e) && Works(s, e.exec, id)
    ensures Step(c, s, e).scans ==
      s.scans[id := Concluded(s.scans[id], Decide(c, e, s.executors[e.exec].loaded.value),
          s.executors[e.exec].loaded.value)]
  {
  }

  /** An execution that ends well stores its scan; an error requeues it while tries are left, and fails it otherwise. */
  lemma EndsAs(c: Config, s: System, x: nat, id: nat, transient: bool)
    requires Works(s, x, id)
    ensures var row, tries := s.scans[id], s.executors[x].loaded.value;
      && Step(c, s, ScannerDone(x)).scans == s.scans[id := row.(status := Completed)]
      && Step(c, s, ScannerError(x, transient)).scans == s.scans[id :=
           (if transient && tries < c.maxRetries
            then row.(status := Pending, startedAt := None, retryCount := tries + 1)
            else row.(status := Failed))]
  {
    ConcludesOne(c, s, ScannerDone(x), id);
    ConcludesOne(c, s, ScannerError(x, transient), id);
  }

  /** A shutdown gives the scan back, its timeout fails it, and its user withdraws it. */
  lemma InterruptedAs(c: Config, s: System, x: nat, id: nat, reason: AbortReason)
    requires Works(s, x, id)
    ensures var row := s.scans[id];
      Step(c, s, Interrupted(x, reason)).scans == s.scans[id := match reason
        case ByShutdown => row.(status := Pending, startedAt := None)
        case ByTimeout => row.(status := Failed)
        case ByUser => row.(status := Cancelled)]
  {
    ConcludesOne(c, s, Interrupted(x, reason), id);
  }

  /** A new scan waits, has not been started or retried, and is what was asked for otherwise; known ids stay. */
  lemma EnqueuedWaits(c: Config, s: System, id: nat, row: Scan)
    ensures Step(c, s, Enqueue(id, row)).scans == if id in s.scans then s.scans
      else s.scans[id := Scan(row.org, row.asset, row.kind, Pending, row.createdAt, None, 0, row.batch, row.stage)]
  {
  }

  /** A user's cancellation withdraws a scan that waits or runs, and leaves a settled one alone. */
  lemma UserWithdraws(c: Config, s: System, id: nat)
    requires id in s.scans
    ensures Step(c, s, UserCancel(id)).scans ==
      if s.scans[id].status in {Pending, Running} then s.scans[id := s.scans[id].(status := Cancelled)] else s.scans
  {
  }

  /** When the scan was last claimed. */
  ghost function LastClaim(c: Config, es: seq<Event>, id: nat): Option<int> {
    if es == [] then None
    else
      var front, e := es[..|es| - 1], es[|es| - 1];
      if e.ClaimNext? && Started(Run(c, EMPTY, front), Run(c, EMPTY, es), id) then Some(e.now)
      else LastClaim(c, front, id)
  }

  /**
   * A RUNNING scan carries the time of its last claim and a PENDING one none. So the sweep fails
   * exactly the scans that are RUNNING since a claim before its limit, crashed workers' scans included.
   */
  lemma {:induction false} RunningSinceItsClaim(c: Config, es: seq<Event>, id: nat, limit: int)
    requires id in Run(c, EMPTY, es).scans
    ensures var s := Run(c, EMPTY, es); var row := s.scans[id];
      && (row.status.Running? ==> row.startedAt.Some? && row.startedAt == LastClaim(c, es, id))
      && (row.status.Pending? ==> row.startedAt.None?)
      && Step(c, s, FailStale(limit)).scans.Keys == s.scans.Keys
      && Step(c, s, FailStale(limit)).scans[id] ==
           (if row.status.Running? && LastClaim(c, es, id).value < limit then row.(status := Failed) else row)
  {
    if es != [] {
      var front, e := es[..|es| - 1], es[|es| - 1];
      var s, t := Run(c, EMPTY, front), Run(c, EMPTY, es);
      if id in s.scans {
        RunningSinceItsClaim(c, front, id, limit);
        if t.scans[id].status.Running? && s.scans[id].status.Pending? { StartTakesTheFirst(c, s, e, id); }
        ReachableInv(c, front);
        StepKeepsStart(c, s, e, id);
      } else {
        StepKeepsPlace(c, s, e, id);
      }
    }
  }

  /** How a step may change the status and the start of a row. */
  predicate StartKept(row: Scan, row': Scan, e: Event) {
    && (row'.status.Running? && row.status.Running? ==> row'.startedAt == row.startedAt)
    && (row'.status.Running? && !row.status.Running? ==>
          row.status.Pending? && e.ClaimNext? && row'.startedAt == Some(e.now))
    && (row'.status.Pending? && row.status.Pending? ==> row'.startedAt == row.startedAt)
    && (row'.status.Pending? && !row.status.Pending? ==> row'.startedAt.None?)
  }

  lemma EndKeepsStart(s: System, x: nat, v: Verdict, e: Event, id: nat)
    requires Executing(s, x) && id in s.scans
    ensures id in EndExecution(s, x, v).scans && StartKept(s.scans[id], EndExecution(s, x, v).scans[id], e)
  {
  }

  lemma StepKeepsStart(c: Config, s: System, e: Event, id: nat)
    requires id in s.scans
    ensures id in Step(c, s, e).scans && StartKept(s.scans[id], Step(c, s, e).scans[id], e)
  {
    if Ends(e) {
      if Executing(s, e.exec) {
        EndKeepsStart(s, e.exec, Decide(c, e, s.executors[e.exec].loaded.value), e, id);
      }
    }
  }

  predicate ClaimsAfter(es: seq<Event>, limit: int) {
    forall i :: 0 <= i < |es| && es[i].ClaimNext? ==> es[i].now >= limit
  }

  lemma StepAddsNoStale(c: Config, s: System, e: Event, limit: int)
    requires e.ClaimNext? ==> e.now >= limit
    ensures StaleOf(Step(c, s, e).scans, limit) <= StaleOf(s.scans, limit)
  {
  }

  /**
   * The stale scans are queried first and updated in a second statement. Whatever happens between
   * the two, a scan that the update fails was in the query, so its end is reported: claims carry
   * the present time, which is past the limit.
   */
  lemma {:induction false} FailedStaleScansAreReported(c: Config, s: System, es: seq<Event>, limit: int)
    requires ClaimsAfter(es, limit)
    ensures StaleOf(Run(c, s, es).scans, limit) <= StaleOf(s.scans, limit)
  {
    if es != [] {
      var front := es[..|es| - 1];
      forall i | 0 <= i < |front| && front[i].ClaimNext? ensures front[i].now >= limit {
        assert front[i] == es[i];
      }
      FailedStaleScansAreReported(c, s, front, limit);
      StepAddsNoStale(c, Run(c, s, front), es[|es| - 1], limit);
    }
  }

  predicate HasShutdown(es: seq<Event>) {
    exists i :: 0 <= i < |es| && es[i].Interrupted? && es[i].reason.ByShutdown?
  }

  lemma {:induction false} OnlyShutdownGivesBack(c: Config, es: seq<Event>, id: nat)
    requires !HasShutdown(es)
    ensures Run(c, EMPTY, es).log[GivenBack(id)] == 0
  {
    if es != [] {
      var front := es[..|es| - 1];
      forall i | 0 <= i < |front| ensures !(front[i].Interrupted? && front[i].reason.ByShutdown?) {
        assert front[i] == es[i];
      }
      OnlyShutdownGivesBack(c, front, id);
    }
  }

  /** Claims of one scan: the first one, one per transient requeue, one per shutdown requeue. */
  lemma AttemptsBounded(c: Config, es: seq<Event>, id: nat)
    ensures var log := Run(c, EMPTY, es).log;
      && log[Claimed(id)] <= 1 + log[Retried(id)] + log[GivenBack(id)]
      && log[Retried(id)] <= c.maxRetries
      && (!HasShutdown(es) ==> log[Claimed(id)] <= c.maxRetries + 1)
  {
    ReachableInv(c, es);
    assert AccountsFor(c, Run(c, EMPTY, es), id);
    if !HasShutdown(es) { OnlyShutdownGivesBack(c, es, id); }
  }

  // ---------------------------------------------------------------- termination measure

  /** Retries left first, then how far the current attempt is from its end. */
  function Rank(c: Config, row: Scan): nat
    requires row.retryCount <= c.maxRetries
  {
    if Terminal(row.status) then 0
    else 2 * (c.maxRetries - row.retryCount) + if row.status.Pending? then 2 else 1
  }

  /** One step seen from one scan: what it can do to its status, its rank and its shutdown count. */
  ghost predicate Descends(c: Config, s: System, s': System, id: nat)
    requires AccountsFor(c, s, id) && AccountsFor(c, s', id) && id in s.scans && id in s'.scans
  {
    var rank, rank' := Rank(c, s.scans[id]), Rank(c, s'.scans[id]);
    var given, given' := s.log[GivenBack(id)], s'.log[GivenBack(id)];
    || (s'.scans[id].status == s.scans[id].status && rank' == rank && given' == given)
    || (rank' < rank && given' == given)
    || (rank' == rank + 1 && given' == given + 1)
  }

  lemma EndDescends(c: Config, s: System, x: nat, v: Verdict, id: nat)
    requires Executing(s, x) && Holds(s, x) && AccountsFor(c, s, id) && id in s.scans
    requires v.Retry? ==> s.executors[x].loaded.value < c.maxRetries
    ensures id in EndExecution(s, x, v).scans && AccountsFor(c, EndExecution(s, x, v), id)
    ensures Descends(c, s, EndExecution(s, x, v), id)
  {
    EndKeepsAccounts(c, s, x, v, id);
  }

  lemma QuietStepDescends(c: Config, s: System, e: Event, id: nat)
    requires AccountsFor(c, s, id) && id in s.scans && !Ends(e)
    requires id in Step(c, s, e).scans && AccountsFor(c, Step(c, s, e), id)
    ensures Descends(c, s, Step(c, s, e), id)
  {
  }

  /** Each step leaves a scan's status alone, or lowers its rank, or gives it back at a shutdown. */
  lemma StepDescends(c: Config, s: System, e: Event, id: nat)
    requires Exclusive(s) && AccountsFor(c, s, id) && id in s.scans
    ensures id in Step(c, s, e).scans && AccountsFor(c, Step(c, s, e), id)
    ensures Descends(c, s, Step(c, s, e), id)
  {
    StepKeepsRows(c, s, e, id);
    StepKeepsAccounts(c, s, e, id);
    if !Ends(e) {
      QuietStepDescends(c, s, e, id);
    } else if Executing(s, e.exec) {
      assert Holds(s, e.exec);
      EndDescends(c, s, e.exec, Decide(c, e, s.executors[e.exec].loaded.value), id);
    }
  }

  /** How many steps of a run changed the status of a scan. */
  ghost function StatusChanges(c: Config, es: seq<Event>, id: nat): nat {
    if es == [] then 0
    else
      var s, s' := Run(c, EMPTY, es[..|es| - 1]), Run(c, EMPTY, es);
      StatusChanges(c, es[..|es| - 1], id)
      + if id in s.scans && id in s'.scans && s.scans[id].status != s'.scans[id].status then 1 else 0
  }

  ghost predicate ChangesWithin(c: Config, s: System, changes: nat, id: nat)
    requires AccountsFor(c, s, id)
  {
    if id in s.scans then changes + Rank(c, s.scans[id]) <= 2 * (c.maxRetries + 1) + 2 * s.log[GivenBack(id)]
    else changes == 0
  }

  lemma NewScansStartAtTheTop(c: Config, s: System, e: Event, id: nat)
    requires id !in s.scans && AccountsFor(c, Step(c, s, e), id)
    ensures ChangesWithin(c, Step(c, s, e), 0, id)
  {
  }

  /** A scan changes status at most 2 * (maxRetries + 1) times, and twice more per shutdown. */
  lemma {:induction false} StatusChangesBounded(c: Config, es: seq<Event>, id: nat)
    ensures AccountsFor(c, Run(c, EMPTY, es), id)
    ensures ChangesWithin(c, Run(c, EMPTY, es), StatusChanges(c, es, id), id)
  {
    ReachableInv(c, es);
    assert AccountsFor(c, Run(c, EMPTY, es), id);
    if es != [] {
      var front, e := es[..|es| - 1], es[|es| - 1];
      var s := Run(c, EMPTY, front);
      StatusChangesBounded(c, front, id);
      ReachableInv(c, front);
      if id in s.scans {
        StepDescends(c, s, e, id);
      } else {
        NewScansStartAtTheTop(c, s, e, id);
      }
    }
  }
}
