/**
 * The staged 360 degree diagnosis (diagnostic-orchestrator.service.ts) on top of the scan queue.
 * `start`, `advancePipeline` and the final write of `cancelBatch` are single steps; the
 * cancellations of the individual scans are ordinary queue steps that may interleave.
 */
module Pipeline {
  import opened Base
  import Q = ScanQueue

  datatype Profile = PerimeterFast | FullAudit | Commerce360

  datatype Stage = Stage(stage: nat, types: seq<Q.ScanType>)

  datatype BatchStatus = Pending | InProgress | Completed | Failed | Cancelled

  datatype Batch = Batch(
    org: nat, asset: nat, profile: Profile, status: BatchStatus, currentStage: nat, totalStages: nat)

  // ---------------------------------------------------------------- stages

  const WEB_TYPES := [Q.WebHeaders, Q.SensitivePaths, Q.SslCert]

  function StagesFor(profile: Profile, isDomain: bool): seq<Stage> {
    if profile.PerimeterFast? then
      [Stage(1, [Q.PortScan]), Stage(2, [Q.WebHeaders, Q.SslCert])]
    else if isDomain then
      [Stage(1, [Q.SubdomainDiscovery]), Stage(2, [Q.PortScan, Q.EmailSecurity]), Stage(3, WEB_TYPES)]
    else
      [Stage(1, [Q.PortScan]), Stage(2, WEB_TYPES)]
  }

  /** The list as the service builds it, one push and one increment at a time. */
  method GetStagesForProfile(profile: Profile, isDomain: bool) returns (stages: seq<Stage>)
    ensures stages == StagesFor(profile, isDomain)
  {
    if profile.PerimeterFast? {
      return [Stage(1, [Q.PortScan]), Stage(2, [Q.WebHeaders, Q.SslCert])];
    }
    stages := [];
    var stageNumber := 1;
    if isDomain {
      stages := stages + [Stage(stageNumber, [Q.SubdomainDiscovery])];
      stageNumber := stageNumber + 1;
    }
    stages := stages + [Stage(stageNumber, if isDomain then [Q.PortScan, Q.EmailSecurity] else [Q.PortScan])];
    stageNumber := stageNumber + 1;
    stages := stages + [Stage(stageNumber, WEB_TYPES)];
  }

  /** Stages are numbered 1, 2, ... without gaps, none is empty, and no scan type runs twice. */
  lemma StagesAreNumbered(profile: Profile, isDomain: bool)
    ensures var stages := StagesFor(profile, isDomain);
      && 2 <= |stages| <= 3
      && (forall i :: 0 <= i < |stages| ==> stages[i].stage == i + 1 && stages[i].types != [])
      && (forall i, j, t :: 0 <= i < |stages| && 0 <= j < |stages| && t in stages[i].types && t in stages[j].types ==>
           i == j)
  {
  }

  /** In which stage a scan type runs, if it runs at all. */
  function StageOf(profile: Profile, isDomain: bool, t: Q.ScanType): Option<nat> {
    var last := if profile.PerimeterFast? || !isDomain then 2 else 3;
    match t
    case WebHeaders => Some(last)
    case SslCert => Some(last)
    case SensitivePaths => if profile.PerimeterFast? then None else Some(last)
    case PortScan => Some(last - 1)
    case EmailSecurity => if profile.PerimeterFast? || !isDomain then None else Some(2)
    case SubdomainDiscovery => if profile.PerimeterFast? || !isDomain then None else Some(1)
  }

  /** The stages hold each type exactly where it runs. */
  lemma WhereTypesRun(profile: Profile, isDomain: bool, t: Q.ScanType)
    ensures var stages := StagesFor(profile, isDomain);
      && |stages| == (if profile.PerimeterFast? || !isDomain then 2 else 3)
      && forall k :: 0 <= k < |stages| ==> (t in stages[k].types <==> StageOf(profile, isDomain, t) == Some(k + 1))
  {
  }

  // ---------------------------------------------------------------- batches and scans

  /** What `start` asks of the asset. */
  datatype Asset = Asset(org: nat, isDomain: bool, isActive: bool, authorized: bool)

  predicate MayStart(found: Option<Asset>, org: nat) {
    found.Some? && found.value.org == org && found.value.isActive && found.value.authorized
  }

  type Scans = Q.Table
  type Batches = map<nat, Batch>

  predicate BelongsTo(scans: Scans, id: nat, b: nat) {
    id in scans && scans[id].batch == Some(b)
  }

  predicate Settled(scans: Scans, b: nat, stage: nat) {
    forall id :: id in scans && scans[id].batch == Some(b) && scans[id].stage == stage ==> Q.Terminal(scans[id].status)
  }

  /**
   * Enqueue the scans of one stage. Each request either adds a PENDING scan (its new id) or is
   * rejected by the scans service, which the orchestrator only logs.
   */
  function EnqueueStage(scans: Scans, b: nat, batch: Batch, stage: nat, types: seq<Q.ScanType>,
      granted: seq<Option<nat>>, now: int): Scans
    decreases |types|
  {
    if types == [] || granted == [] then scans
    else
      var next := if granted[0].None? then scans
                  else Q.Enqueued(scans, granted[0].value,
                                  Q.Scan(batch.org, batch.asset, types[0], Q.Pending, now, None, 0, Some(b), stage));
      EnqueueStage(next, b, batch, stage, types[1..], granted[1..], now)
  }

  /** The only request of the stage that is granted as scan `id`, of which nothing was known before. */
  predicate GrantedAt(scans: Scans, types: seq<Q.ScanType>, granted: seq<Option<nat>>, i: int, id: nat) {
    && 0 <= i < |types| && i < |granted| && granted[i] == Some(id) && id !in scans
    && forall j :: 0 <= j < |granted| && granted[j] == Some(id) ==> j == i
  }

  /** Every granted request is a PENDING scan of its type afterwards; nothing else is added, and nothing changed. */
  ghost predicate StageEnqueued(scans: Scans, after: Scans, b: nat, batch: Batch, stage: nat,
      types: seq<Q.ScanType>, granted: seq<Option<nat>>, now: int) {
    && (forall i: int, id: nat | GrantedAt(scans, types, granted, i, id) ::
         id in after && after[id] == Q.Scan(batch.org, batch.asset, types[i], Q.Pending, now, None, 0, Some(b), stage))
    && (forall id :: id in scans ==> id in after && after[id] == scans[id])
    && (forall id :: id in after ==>
         id in scans || exists i :: 0 <= i < |types| && i < |granted| && granted[i] == Some(id))
  }

  lemma {:induction false} EveryGrantIsEnqueued(scans: Scans, b: nat, batch: Batch, stage: nat,
      types: seq<Q.ScanType>, granted: seq<Option<nat>>, now: int)
    ensures StageEnqueued(scans, EnqueueStage(scans, b, batch, stage, types, granted, now), b, batch, stage, types,
        granted, now)
    decreases |types|
  {
    if types != [] && granted != [] {
      var next := if granted[0].None? then scans
                  else Q.Enqueued(scans, granted[0].value,
                                  Q.Scan(batch.org, batch.asset, types[0], Q.Pending, now, None, 0, Some(b), stage));
      var after := EnqueueStage(next, b, batch, stage, types[1..], granted[1..], now);
      EveryGrantIsEnqueued(next, b, batch, stage, types[1..], granted[1..], now);
      forall i, id | GrantedAt(scans, types, granted, i, id)
        ensures id in after
            && after[id] == Q.Scan(batch.org, batch.asset, types[i], Q.Pending, now, None, 0, Some(b), stage)
      {
        if i > 0 {
          assert granted[0] != Some(id) && id !in next;
          forall j | 0 <= j < |granted[1..]| && granted[1..][j] == Some(id) ensures j == i - 1 {
            assert granted[j + 1] == Some(id);
          }
          assert GrantedAt(next, types[1..], granted[1..], i - 1, id);
        }
      }
      forall id | id in after && id !in scans
        ensures exists i :: 0 <= i < |types| && i < |granted| && granted[i] == Some(id)
      {
        if id !in next {
          var i :| 0 <= i < |types[1..]| && i < |granted[1..]| && granted[1..][i] == Some(id);
          assert granted[i + 1] == Some(id);
        }
      }
    }
  }

  predicate HasActiveBatch(batches: Batches, asset: nat) {
    exists b :: b in batches && batches[b].asset == asset
        && (batches[b].status.Pending? || batches[b].status.InProgress?)
  }

  /** completeBatch: FAILED when there were scans and none completed. */
  function FinalStatus(scans: Scans, b: nat): BatchStatus {
    if (exists id :: id in scans && scans[id].batch == Some(b))
       && !(exists id :: id in scans && scans[id].batch == Some(b) && scans[id].status.Completed?)
    then Failed else Completed
  }

  /** A batch with scans none of which completed has failed, any other one has completed. */
  predicate EndsRightly(scans: Scans, b: nat, outcome: BatchStatus) {
    && (outcome == Failed || outcome == Completed)
    && (outcome == Failed <==>
          && (exists id :: id in scans && scans[id].batch == Some(b))
          && (forall id :: id in scans && scans[id].batch == Some(b) ==> scans[id].status != Q.Completed))
  }

  lemma FinalIsRight(scans: Scans, b: nat)
    ensures EndsRightly(scans, b, FinalStatus(scans, b))
  {
    if id :| id in scans && scans[id].batch == Some(b) && scans[id].status.Completed? {
      assert FinalStatus(scans, b) == Completed;
    }
  }

  datatype Store = Store(scans: Scans, batches: Batches)

  /** The batch is in progress, and no scan of its current stage waits or runs. */
  predicate StageIsOver(st: Store, b: nat) {
    && b in st.batches && st.batches[b].status == InProgress
    && var stage := st.batches[b].currentStage;
       forall id :: id in st.scans && st.scans[id].batch == Some(b) && st.scans[id].stage == stage ==>
         st.scans[id].status != Q.Pending && st.scans[id].status != Q.Running
  }

  lemma StageIsOverPlainly(st: Store, b: nat)
    ensures StageIsOver(st, b) <==>
      b in st.batches && st.batches[b].status.InProgress? && Settled(st.scans, b, st.batches[b].currentStage)
  {
  }

  function Started(st: Store, b: nat, org: nat, asset: nat, profile: Profile, isDomain: bool,
      granted: seq<Option<nat>>, now: int): Store {
    if b in st.batches || HasActiveBatch(st.batches, asset) then st
    else
      var stages := StagesFor(profile, isDomain);
      var batch := Batch(org, asset, profile, InProgress, 1, |stages|);
      Store(EnqueueStage(st.scans, b, batch, 1, stages[0].types, granted, now), st.batches[b := batch])
  }

  function Advanced(st: Store, b: nat, isDomain: bool, granted: seq<Option<nat>>, now: int): Store {
    if b !in st.batches || !st.batches[b].status.InProgress? then st
    else
      var batch := st.batches[b];
      var stages := StagesFor(batch.profile, isDomain);
      if !Settled(st.scans, b, batch.currentStage) then st
      else if batch.currentStage < batch.totalStages && batch.currentStage < |stages| then
        var next := stages[batch.currentStage];
        Store(EnqueueStage(st.scans, b, batch, next.stage, next.types, granted, now),
              st.batches[b := batch.(currentStage := next.stage)])
      else
        st.(batches := st.batches[b := batch.(status := FinalStatus(st.scans, b))])
  }

  /** The next stage is enqueued, or, after the last one, the outcome of the batch is written. */
  ghost predicate GoesOn(before: Store, after: Store, b: nat, isDomain: bool, granted: seq<Option<nat>>, now: int)
    requires b in before.batches
  {
    var batch, stages := before.batches[b], StagesFor(before.batches[b].profile, isDomain);
    if batch.currentStage < batch.totalStages && batch.currentStage < |stages| then
      && after.batches == before.batches[b := batch.(currentStage := batch.currentStage + 1)]
      && StageEnqueued(before.scans, after.scans, b, batch, batch.currentStage + 1, stages[batch.currentStage].types,
           granted, now)
    else
      && after.scans == before.scans && b in after.batches
      && after.batches == before.batches[b := batch.(status := after.batches[b].status)]
      && EndsRightly(before.scans, b, after.batches[b].status)
  }

  lemma AdvancedGoesOn(st: Store, b: nat, isDomain: bool, granted: seq<Option<nat>>, now: int)
    ensures var st' := Advanced(st, b, isDomain, granted, now);
      if StageIsOver(st, b) then GoesOn(st, st', b, isDomain, granted, now) else st' == st
  {
    StageIsOverPlainly(st, b);
    if StageIsOver(st, b) {
      var batch := st.batches[b];
      var stages := StagesFor(batch.profile, isDomain);
      StagesAreNumbered(batch.profile, isDomain);
      if batch.currentStage < batch.totalStages && batch.currentStage < |stages| {
        var next := stages[batch.currentStage];
        EveryGrantIsEnqueued(st.scans, b, batch, next.stage, next.types, granted, now);
      } else {
        FinalIsRight(st.scans, b);
      }
    }
  }

  function MarkCancelled(batches: Batches, b: nat): Batches {
    if b in batches then batches[b := batches[b].(status := Cancelled)] else batches
  }

  // ---------------------------------------------------------------- the service in place

  class DiagnosticOrchestrator {
    var scans: Scans
    var batches: Batches

    ghost function View(): Store
      reads this
    {
      Store(scans, batches)
    }

    constructor ()
      ensures View() == Store(map[], map[])
    {
      scans, batches := map[], map[];
    }

    /** The loop over the types of a stage; a rejected request does not stop it. */
    method Enqueue(b: nat, batch: Batch, stage: nat, types: seq<Q.ScanType>, granted: seq<Option<nat>>, now: int)
      modifies this`scans
      ensures scans == EnqueueStage(old(scans), b, batch, stage, types, granted, now)
      ensures StageEnqueued(old(scans), scans, b, batch, stage, types, granted, now)
    {
      EveryGrantIsEnqueued(scans, b, batch, stage, types, granted, now);
      var i := 0;
      while i < |types| && i < |granted|
        invariant 0 <= i <= |types| && i <= |granted|
        invariant EnqueueStage(scans, b, batch, stage, types[i..], granted[i..], now)
               == EnqueueStage(old(scans), b, batch, stage, types, granted, now)
      {
        if granted[i].Some? {
          scans := Q.Enqueued(scans, granted[i].value,
                              Q.Scan(batch.org, batch.asset, types[i], Q.Pending, now, None, 0, Some(b), stage));
        }
        assert types[i..][1..] == types[i + 1..] && granted[i..][1..] == granted[i + 1..];
        i := i + 1;
      }
    }

    /** `found` is the asset as the request reads it; a missing, foreign, inactive or unauthorised one is refused. */
    method Start(b: nat, org: nat, asset: nat, found: Option<Asset>, profile: Profile,
        granted: seq<Option<nat>>, now: int)
        returns (r: Result<nat>)
      requires b !in batches
      modifies this
      ensures r.Ok? <==>
        && found.Some? && found.value.org == org && found.value.isActive && found.value.authorized
        && forall a :: a in old(batches) && old(batches)[a].asset == asset ==>
             old(batches)[a].status != Pending && old(batches)[a].status != InProgress
      ensures r.Ok? ==> r.value == b && batches == old(batches)[b := Batch(org, asset, profile, InProgress, 1,
          if profile.PerimeterFast? || !found.value.isDomain then 2 else 3)]
      ensures r.Ok? ==> StageEnqueued(old(scans), scans, b, batches[b], 1,
          StagesFor(profile, found.value.isDomain)[0].types, granted, now)
      ensures r.Ok? ==> View() == Started(old(View()), b, org, asset, profile, found.value.isDomain, granted, now)
      ensures r.Err? ==> View() == old(View())
    {
      if found.None? || found.value.org != org {
        return Err("asset not found");
      }
      if !found.value.isActive {
        return Err("the asset is inactive");
      }
      if !found.value.authorized {
        return Err("scanning the asset has not been authorised");
      }
      if HasActiveBatch(batches, asset) {
        return Err("diagnosis already in progress for this asset");
      }
      var stages := GetStagesForProfile(profile, found.value.isDomain);
      var batch := Batch(org, asset, profile, InProgress, 1, |stages|);
      batches := batches[b := batch];
      Enqueue(b, batch, 1, stages[0].types, granted, now);
      return Ok(b);
    }

    /**
     * Nothing happens unless the batch runs and no scan of its current stage waits or runs. Then its
     * next stage is enqueued, or, after the last one, its outcome is written.
     */
    method AdvancePipeline(b: nat, isDomain: bool, granted: seq<Option<nat>>, now: int)
      modifies this
      ensures View() == Advanced(old(View()), b, isDomain, granted, now)
      ensures !StageIsOver(old(View()), b) ==> View() == old(View())
      ensures StageIsOver(old(View()), b) ==> GoesOn(old(View()), View(), b, isDomain, granted, now)
    {
      AdvancedGoesOn(View(), b, isDomain, granted, now);
      if b !in batches || batches[b].status != InProgress { return; }
      var batch := batches[b];
      var stages := GetStagesForProfile(batch.profile, isDomain);
      var pending := set id | id in scans && scans[id].batch == Some(b) && scans[id].stage == batch.currentStage
                              && (scans[id].status == Q.Pending || scans[id].status == Q.Running);
      if pending != {} {
        var id :| id in pending;
        assert !Settled(scans, b, batch.currentStage);
        return;
      }
      assert Settled(scans, b, batch.currentStage) by {
        forall id | id in scans && scans[id].batch == Some(b) && scans[id].stage == batch.currentStage
          ensures Q.Terminal(scans[id].status)
        { assert id !in pending; }
      }
      if batch.currentStage < batch.totalStages {
        var nextStageIndex := batch.currentStage;
        if nextStageIndex < |stages| {
          var nextStage := stages[nextStageIndex];
          batches := batches[b := batch.(currentStage := nextStage.stage)];
          Enqueue(b, batch, nextStage.stage, nextStage.types, granted, now);
          return;
        }
      }
      CompleteBatch(b);
    }

    method CompleteBatch(b: nat)
      requires b in batches
      modifies this`batches
      ensures batches == old(batches)[b := old(batches)[b].(status := FinalStatus(scans, b))]
      ensures EndsRightly(scans, b, batches[b].status)
    {
      FinalIsRight(scans, b);
      var mine := set id | id in scans && scans[id].batch == Some(b);
      var completed := set id | id in mine && scans[id].status == Q.Completed;
      var allScansFailed := mine != {} && completed == {};
      assert allScansFailed <==> FinalStatus(scans, b) == Failed by {
        assert mine != {} <==> exists id :: id in scans && scans[id].batch == Some(b) by {
          if id :| id in scans && scans[id].batch == Some(b) { assert id in mine; }
        }
        assert completed != {} <==>
            exists id :: id in scans && scans[id].batch == Some(b) && scans[id].status.Completed? by {
          if id :| id in scans && scans[id].batch == Some(b) && scans[id].status.Completed? { assert id in completed; }
        }
      }
      batches := batches[b := batches[b].(status := if allScansFailed then Failed else Completed)];
    }
  }

  // ---------------------------------------------------------------- the composed system

  datatype System = System(queue: Q.System, batches: Batches)

  datatype Event =
    | Queue(e: Q.Event)
    | Start(b: nat, org: nat, asset: nat, profile: Profile, isDomain: bool, granted: seq<Option<nat>>, now: int)
    | Advance(b: nat, isDomain: bool, granted: seq<Option<nat>>, now: int)
    | CancelBatch(b: nat)

  const EMPTY := System(Q.EMPTY, map[])

  function StoreOf(s: System): Store {
    Store(s.queue.scans, s.batches)
  }

  function WithStore(s: System, st: Store): System {
    System(s.queue.(scans := st.scans), st.batches)
  }

  /** A scan enqueued from outside carries no batch. */
  ghost function Step(c: Q.Config, s: System, e: Event): System {
    match e
    case Queue(qe) =>
      if qe.Enqueue? && qe.row.batch.Some? then s else s.(queue := Q.Step(c, s.queue, qe))
    case Start(b, org, asset, profile, isDomain, granted, now) =>
      WithStore(s, Started(StoreOf(s), b, org, asset, profile, isDomain, granted, now))
    case Advance(b, isDomain, granted, now) => WithStore(s, Advanced(StoreOf(s), b, isDomain, granted, now))
    case CancelBatch(b) => s.(batches := MarkCancelled(s.batches, b))
  }

  ghost function Run(c: Q.Config, es: seq<Event>): System {
    if es == [] then EMPTY else Step(c, Run(c, es[..|es| - 1]), es[|es| - 1])
  }

  // ---------------------------------------------------------------- invariants

  /** What a scan of a batch may look like at the batch's current stage. */
  predicate ScanFits(scan: Q.Scan, batch: Batch) {
    && 1 <= scan.stage <= batch.currentStage
    && (scan.stage < batch.currentStage || batch.status.Completed? || batch.status.Failed? ==> Q.Terminal(scan.status))
    && (batch.status.Failed? ==> !scan.status.Completed?)
  }

  predicate BatchFits(batch: Batch) {
    1 <= batch.currentStage <= batch.totalStages
  }

  ghost predicate ScansFit(st: Store) {
    forall id :: id in st.scans && st.scans[id].batch.Some? ==>
      st.scans[id].batch.value in st.batches && ScanFits(st.scans[id], st.batches[st.scans[id].batch.value])
  }

  ghost predicate BatchesFit(st: Store) {
    && (forall b :: b in st.batches ==> BatchFits(st.batches[b]) && !st.batches[b].status.Pending?)
    && (forall a, b ::
          (&& a in st.batches && st.batches[a].status.InProgress?
           && b in st.batches && st.batches[b].status.InProgress?
           && st.batches[a].asset == st.batches[b].asset) ==> a == b)
  }

  ghost predicate Inv(st: Store) {
    ScansFit(st) && BatchesFit(st)
  }

  lemma QueueStepKeepsInv(c: Q.Config, s: System, e: Q.Event)
    requires Inv(StoreOf(s)) && !(e.Enqueue? && e.row.batch.Some?)
    ensures Inv(Store(Q.Step(c, s.queue, e).scans, s.batches))
  {
    var scans' := Q.Step(c, s.queue, e).scans;
    forall id | id in scans' && scans'[id].batch.Some?
      ensures scans'[id].batch.value in s.batches && ScanFits(scans'[id], s.batches[scans'[id].batch.value])
    {
      Q.StepKeepsPlace(c, s.queue, e, id);
    }
  }

  /** Enqueueing a stage only adds PENDING scans of that batch and stage. */
  lemma {:induction false} EnqueueStageAdds(scans: Scans, b: nat, batch: Batch, stage: nat,
      types: seq<Q.ScanType>, granted: seq<Option<nat>>, now: int, id: nat)
    requires id in EnqueueStage(scans, b, batch, stage, types, granted, now)
    ensures var row := EnqueueStage(scans, b, batch, stage, types, granted, now)[id];
      if id in scans then row == scans[id]
          else row.batch == Some(b) && row.stage == stage && row.status.Pending? && row.kind in types
    decreases |types|
  {
    if types != [] && granted != [] {
      var next := if granted[0].None? then scans
                  else Q.Enqueued(scans, granted[0].value,
                                  Q.Scan(batch.org, batch.asset, types[0], Q.Pending, now, None, 0, Some(b), stage));
      EnqueueStageAdds(next, b, batch, stage, types[1..], granted[1..], now, id);
    }
  }

  lemma StartKeepsInv(st: Store, b: nat, org: nat, asset: nat, profile: Profile, isDomain: bool,
      granted: seq<Option<nat>>, now: int)
    requires Inv(st)
    ensures Inv(Started(st, b, org, asset, profile, isDomain, granted, now))
  {
    var st' := Started(st, b, org, asset, profile, isDomain, granted, now);
    if st' != st {
      var stages := StagesFor(profile, isDomain);
      forall id | id in st'.scans && st'.scans[id].batch.Some?
        ensures st'.scans[id].batch.value in st'.batches
            && ScanFits(st'.scans[id], st'.batches[st'.scans[id].batch.value])
      {
        EnqueueStageAdds(st.scans, b, st'.batches[b], 1, stages[0].types, granted, now, id);
      }
    }
  }

  lemma AdvanceKeepsInv(st: Store, b: nat, isDomain: bool, granted: seq<Option<nat>>, now: int)
    requires Inv(st)
    ensures Inv(Advanced(st, b, isDomain, granted, now))
  {
    var st' := Advanced(st, b, isDomain, granted, now);
    if st' != st {
      var batch := st.batches[b];
      var stages := StagesFor(batch.profile, isDomain);
      StagesAreNumbered(batch.profile, isDomain);
      forall id | id in st'.scans && st'.scans[id].batch.Some?
        ensures st'.scans[id].batch.value in st'.batches
            && ScanFits(st'.scans[id], st'.batches[st'.scans[id].batch.value])
      {
        if batch.currentStage < batch.totalStages && batch.currentStage < |stages| {
          var next := stages[batch.currentStage];
          EnqueueStageAdds(st.scans, b, batch, next.stage, next.types, granted, now, id);
        }
      }
    }
  }

  lemma StepKeepsInv(c: Q.Config, s: System, e: Event)
    requires Inv(StoreOf(s))
    ensures Inv(StoreOf(Step(c, s, e)))
  {
    match e
    case Queue(qe) => if !(qe.Enqueue? && qe.row.batch.Some?) { QueueStepKeepsInv(c, s, qe); }
    case Start(b, org, asset, profile, isDomain, granted, now) =>
      StartKeepsInv(StoreOf(s), b, org, asset, profile, isDomain, granted, now);
    case Advance(b, isDomain, granted, now) => AdvanceKeepsInv(StoreOf(s), b, isDomain, granted, now);
    case CancelBatch(b) =>
  }

  lemma {:induction false} ReachableInv(c: Q.Config, es: seq<Event>)
    ensures Inv(StoreOf(Run(c, es)))
  {
    if es != [] {
      ReachableInv(c, es[..|es| - 1]);
      StepKeepsInv(c, Run(c, es[..|es| - 1]), es[|es| - 1]);
    }
  }

  /** The queue invariant also survives everything the orchestrator does. */
  lemma {:induction false} EnqueueStageKeepsQueueInv(c: Q.Config, s: Q.System, b: nat, batch: Batch, stage: nat,
      types: seq<Q.ScanType>, granted: seq<Option<nat>>, now: int)
    requires Q.Inv(c, s)
    ensures Q.Inv(c, s.(scans := EnqueueStage(s.scans, b, batch, stage, types, granted, now)))
    decreases |types|
  {
    if types != [] && granted != [] {
      var next := s;
      if granted[0].Some? {
        var e := Q.Enqueue(granted[0].value,
            Q.Scan(batch.org, batch.asset, types[0], Q.Pending, now, None, 0, Some(b), stage));
        Q.StepKeepsInv(c, s, e);
        next := Q.Step(c, s, e);
      }
      EnqueueStageKeepsQueueInv(c, next, b, batch, stage, types[1..], granted[1..], now);
    }
  }

  lemma StepKeepsQueueInv(c: Q.Config, s: System, e: Event)
    requires Q.Inv(c, s.queue)
    ensures Q.Inv(c, Step(c, s, e).queue)
  {
    match e
    case Queue(qe) => Q.StepKeepsInv(c, s.queue, qe);
    case Start(b, org, asset, profile, isDomain, granted, now) =>
      var stages := StagesFor(profile, isDomain);
      EnqueueStageKeepsQueueInv(c, s.queue, b, Batch(org, asset, profile, InProgress, 1, |stages|), 1, stages[0].types,
          granted, now);
    case Advance(b, isDomain, granted, now) =>
      if b in s.batches {
        var batch := s.batches[b];
        var stages := StagesFor(batch.profile, isDomain);
        if batch.currentStage < |stages| {
          var next := stages[batch.currentStage];
          EnqueueStageKeepsQueueInv(c, s.queue, b, batch, next.stage, next.types, granted, now);
        }
      }
    case CancelBatch(b) =>
  }

  lemma {:induction false} QueueInvThroughout(c: Q.Config, es: seq<Event>)
    ensures Q.Inv(c, Run(c, es).queue)
  {
    if es == [] {
      Q.ReachableInv(c, []);
    } else {
      QueueInvThroughout(c, es[..|es| - 1]);
      StepKeepsQueueInv(c, Run(c, es[..|es| - 1]), es[|es| - 1]);
    }
  }

  // ---------------------------------------------------------------- what every run guarantees

  /**
   * Stage k + 1 is enqueued only after stage k has settled; a batch counts as finished only when
   * every scan of it is; and an asset never has two diagnoses in progress.
   */
  lemma StagesRunInOrder(c: Q.Config, es: seq<Event>, b: nat, id: nat)
    requires var s := Run(c, es); b in s.batches && BelongsTo(s.queue.scans, id, b)
    ensures var s := Run(c, es); var scan, batch := s.queue.scans[id], s.batches[b];
      && 1 <= scan.stage <= batch.currentStage <= batch.totalStages
      && (scan.stage < batch.currentStage ==> Q.Terminal(scan.status))
      && (batch.status.Completed? || batch.status.Failed? ==> Q.Terminal(scan.status))
      && (batch.status.Failed? ==> !scan.status.Completed?)
  {
    ReachableInv(c, es);
    assert BatchFits(Run(c, es).batches[b]);
  }

  lemma OneActiveBatchPerAsset(c: Q.Config, es: seq<Event>, a: nat, b: nat)
    requires var batches := Run(c, es).batches;
      && a in batches && batches[a].status.InProgress?
      && b in batches && batches[b].status.InProgress?
      && batches[a].asset == batches[b].asset
    ensures a == b
  {
    ReachableInv(c, es);
  }

  /** Advances left before the batch leaves IN_PROGRESS. */
  function Remaining(batch: Batch): int {
    if batch.status.InProgress? then batch.totalStages - batch.currentStage + 1 else 0
  }

  /** An advance that finds the current stage of a running batch settled. */
  predicate FindsSettled(s: System, e: Event, b: nat) {
    && e.Advance? && e.b == b && b in s.batches && s.batches[b].status.InProgress?
    && Settled(s.queue.scans, b, s.batches[b].currentStage)
  }

  /** The stage only grows, the plan is fixed, and each settled advance uses up one of the remaining ones. */
  lemma BatchOnlyMovesForward(c: Q.Config, s: System, e: Event, b: nat)
    requires Inv(StoreOf(s)) && b in s.batches
    ensures b in Step(c, s, e).batches
    ensures var old', new' := s.batches[b], Step(c, s, e).batches[b];
      && new'.asset == old'.asset && new'.profile == old'.profile && new'.totalStages == old'.totalStages
      && old'.currentStage <= new'.currentStage <= old'.currentStage + 1
      && Remaining(new') <= Remaining(old') - if FindsSettled(s, e, b) then 1 else 0
  {
    assert BatchFits(s.batches[b]);
    if e.Advance? && e.b == b {
      StagesAreNumbered(s.batches[b].profile, e.isDomain);
    }
  }

  ghost function SettledAdvances(c: Q.Config, es: seq<Event>, b: nat): nat {
    if es == [] then 0
    else SettledAdvances(c, es[..|es| - 1], b) + if FindsSettled(Run(c, es[..|es| - 1]), es[|es| - 1], b) then 1 else 0
  }

  /** A batch leaves IN_PROGRESS after at most `totalStages` advances that find its stage settled. */
  lemma {:induction false} BatchTerminates(c: Q.Config, es: seq<Event>, b: nat)
    ensures b !in Run(c, es).batches ==> SettledAdvances(c, es, b) == 0
    ensures b in Run(c, es).batches ==>
      var batch := Run(c, es).batches[b];
      && (batch.status.InProgress? ==> SettledAdvances(c, es, b) < batch.totalStages)
      && SettledAdvances(c, es, b) + Remaining(batch) <= batch.totalStages
  {
    if es != [] {
      var front, e := es[..|es| - 1], es[|es| - 1];
      BatchTerminates(c, front, b);
      ReachableInv(c, front);
      ReachableInv(c, es);
      if b in Run(c, front).batches { BatchOnlyMovesForward(c, Run(c, front), e, b); }
      if b in Run(c, es).batches { assert BatchFits(Run(c, es).batches[b]); }
    }
  }

  /** The last settled advance decides the outcome: FAILED exactly when scans ran and none completed. */
  lemma OutcomeOfTheBatch(c: Q.Config, s: System, e: Event, b: nat)
    requires Inv(StoreOf(s)) && FindsSettled(s, e, b) && !Step(c, s, e).batches[b].status.InProgress?
    ensures forall id :: BelongsTo(s.queue.scans, id, b) ==> Q.Terminal(s.queue.scans[id].status)
    ensures Step(c, s, e).batches[b].status.Failed? <==>
      && (exists id :: BelongsTo(s.queue.scans, id, b))
      && (forall id :: BelongsTo(s.queue.scans, id, b) ==> !s.queue.scans[id].status.Completed?)
    ensures Step(c, s, e).batches[b].status.Failed? || Step(c, s, e).batches[b].status.Completed?
    ensures Step(c, s, e).queue == s.queue
  {
    assert forall id :: BelongsTo(s.queue.scans, id, b) <==> id in s.queue.scans && s.queue.scans[id].batch == Some(b);
  }

  /** cancelBatch does not look at the status: it is the only step that changes a finished batch, and it always does. */
  lemma FinishedBatchChangesOnlyByCancel(c: Q.Config, s: System, e: Event, b: nat)
    requires b in s.batches && (s.batches[b].status.Completed? || s.batches[b].status.Failed?)
    ensures Step(c, s, e).batches[b].status == s.batches[b].status <==> e != CancelBatch(b)
  {
  }

  lemma RunNext(c: Q.Config, es: seq<Event>, e: Event)
    ensures Run(c, es + [e]) == Step(c, Run(c, es), e)
  {
    assert (es + [e])[..|es|] == es;
  }

  /** A system without scans and with one batch. */
  function OneBatch(asset: nat, status: BatchStatus, stage: nat): System {
    System(Q.EMPTY, map[1 := Batch(0, asset, PerimeterFast, status, stage, 2)])
  }

  lemma StartsWithoutScans(c: Q.Config, asset: nat)
    ensures Step(c, EMPTY, Start(1, 0, asset, PerimeterFast, false, [None], 0)) == OneBatch(asset, InProgress, 1)
  {
    var stages := StagesFor(PerimeterFast, false);
    var batch := Batch(0, asset, PerimeterFast, InProgress, 1, 2);
    assert |stages| == 2 && stages[0].types == [Q.PortScan];
    assert [Q.PortScan][1..] == [];
    assert EnqueueStage(map[], 1, batch, 1, [Q.PortScan], [None], 0) == map[];
  }

  lemma AdvancesWithoutScans(c: Q.Config, asset: nat)
    ensures Step(c, OneBatch(asset, InProgress, 1), Advance(1, false, [], 1)) == OneBatch(asset, InProgress, 2)
    ensures Step(c, OneBatch(asset, InProgress, 2), Advance(1, false, [], 2)) == OneBatch(asset, Completed, 2)
  {
    var stages := StagesFor(PerimeterFast, false);
    assert |stages| == 2 && stages[1].stage == 2;
    assert forall id :: id !in OneBatch(asset, InProgress, 2).queue.scans;
  }

  /** A diagnosis none of whose scans could be enqueued, carried to its end. */
  function FinishedRun(asset: nat): seq<Event> {
    [Start(1, 0, asset, PerimeterFast, false, [None], 0)] + [Advance(1, false, [], 1)] + [Advance(1, false, [], 2)]
  }

  /** A finished batch that is cancelled does occur: this one is COMPLETED, and then CANCELLED. */
  lemma CancelOverwritesAFinishedBatch(c: Q.Config, asset: nat)
    ensures Run(c, FinishedRun(asset)) == OneBatch(asset, Completed, 2)
    ensures Run(c, FinishedRun(asset) + [CancelBatch(1)]) == OneBatch(asset, Cancelled, 2)
  {
    var e0, e1, e2 := Start(1, 0, asset, PerimeterFast, false, [None], 0), Advance(1, false, [], 1),
        Advance(1, false, [], 2);
    RunNext(c, [], e0);
    assert [] + [e0] == [e0];
    StartsWithoutScans(c, asset);
    RunNext(c, [e0], e1);
    RunNext(c, [e0] + [e1], e2);
    AdvancesWithoutScans(c, asset);
    RunNext(c, FinishedRun(asset), CancelBatch(1));
  }

  // ---------------------------------------------------------------- a finished batch is complete

  /** All requests of a stage are granted, each with a scan id of its own. */
  predicate AllGranted(scans: Scans, types: seq<Q.ScanType>, granted: seq<Option<nat>>) {
    && |granted| == |types|
    && forall i :: 0 <= i < |granted| ==> granted[i].Some? && GrantedAt(scans, types, granted, i, granted[i].value)
  }

  /** The scans of a batch of one type. */
  function OfType(scans: Scans, b: nat, t: Q.ScanType): set<nat> {
    set id | id in scans && scans[id].batch == Some(b) && scans[id].kind == t
  }

  /** For each type that runs in one of the first `stage` stages there is one scan, in that stage, and no others. */
  ghost predicate CompleteUpTo(scans: Scans, b: nat, profile: Profile, isDomain: bool, stage: nat) {
    forall t ::
      var at := StageOf(profile, isDomain, t);
      && |OfType(scans, b, t)| == (if at.Some? && at.value <= stage then 1 else 0)
      && forall id :: id in OfType(scans, b, t) ==> at == Some(scans[id].stage)
  }

  lemma NewIsGranted(before: Scans, after: Scans, b: nat, batch: Batch, stage: nat, types: seq<Q.ScanType>,
      granted: seq<Option<nat>>, now: int, id: nat) returns (i: nat)
    requires StageEnqueued(before, after, b, batch, stage, types, granted, now) && AllGranted(before, types, granted)
    requires id in after && id !in before
    ensures i < |types| && granted[i] == Some(id)
    ensures after[id].kind == types[i] && after[id].batch == Some(b) && after[id].stage == stage
  {
    i :| 0 <= i < |types| && i < |granted| && granted[i] == Some(id);
    assert GrantedAt(before, types, granted, i, id);
  }

  lemma GrantedIsNew(before: Scans, after: Scans, b: nat, batch: Batch, stage: nat, types: seq<Q.ScanType>,
      granted: seq<Option<nat>>, now: int, i: nat)
    requires StageEnqueued(before, after, b, batch, stage, types, granted, now) && AllGranted(before, types, granted)
    requires i < |types|
    ensures granted[i].Some? && granted[i].value !in before && granted[i].value in OfType(after, b, types[i])
  {
    assert GrantedAt(before, types, granted, i, granted[i].value);
  }

  lemma OfTypeStays(before: Scans, after: Scans, b: nat, batch: Batch, stage: nat, types: seq<Q.ScanType>,
      granted: seq<Option<nat>>, now: int, t: Q.ScanType, id: nat)
    requires StageEnqueued(before, after, b, batch, stage, types, granted, now) && AllGranted(before, types, granted)
    requires id in OfType(after, b, t)
    ensures id in OfType(before, b, t) ==> after[id].stage == before[id].stage
    ensures id !in OfType(before, b, t) ==> t in types && after[id].stage == stage
  {
    if id !in before { var i := NewIsGranted(before, after, b, batch, stage, types, granted, now, id); }
  }

  lemma OfTypeWith(before: Scans, after: Scans, b: nat, batch: Batch, stage: nat, types: seq<Q.ScanType>,
      granted: seq<Option<nat>>, now: int, i: nat, id: nat)
    requires StageEnqueued(before, after, b, batch, stage, types, granted, now) && AllGranted(before, types, granted)
    requires i < |types| && forall j :: 0 <= j < |types| && types[j] == types[i] ==> j == i
    ensures granted[i].Some? && granted[i].value !in OfType(before, b, types[i])
    ensures id in OfType(after, b, types[i]) <==> id in OfType(before, b, types[i]) || id == granted[i].value
  {
    GrantedIsNew(before, after, b, batch, stage, types, granted, now, i);
    if id in OfType(after, b, types[i]) && id !in before {
      var j := NewIsGranted(before, after, b, batch, stage, types, granted, now, id);
    }
  }

  lemma OfTypeWithout(before: Scans, after: Scans, b: nat, batch: Batch, stage: nat, types: seq<Q.ScanType>,
      granted: seq<Option<nat>>, now: int, t: Q.ScanType, id: nat)
    requires StageEnqueued(before, after, b, batch, stage, types, granted, now) && AllGranted(before, types, granted)
    requires t !in types
    ensures id in OfType(after, b, t) <==> id in OfType(before, b, t)
  {
    if id in OfType(after, b, t) && id !in before {
      var j := NewIsGranted(before, after, b, batch, stage, types, granted, now, id);
    }
  }

  lemma OneMore(before: set<nat>, after: set<nat>, id: nat)
    requires id !in before && forall i :: i in after <==> i in before || i == id
    ensures |after| == |before| + 1
  {
    assert after == before + {id};
  }

  lemma StageAddsOneEach(before: Scans, after: Scans, b: nat, batch: Batch, stage: nat, types: seq<Q.ScanType>,
      granted: seq<Option<nat>>, now: int, t: Q.ScanType)
    requires StageEnqueued(before, after, b, batch, stage, types, granted, now) && AllGranted(before, types, granted)
    requires forall i, j :: 0 <= i < j < |types| ==> types[i] != types[j]
    ensures |OfType(after, b, t)| == |OfType(before, b, t)| + if t in types then 1 else 0
  {
    if i :| 0 <= i < |types| && types[i] == t {
      GrantedIsNew(before, after, b, batch, stage, types, granted, now, i);
      forall id ensures id in OfType(after, b, t) <==> id in OfType(before, b, t) || id == granted[i].value {
        OfTypeWith(before, after, b, batch, stage, types, granted, now, i, id);
      }
      OneMore(OfType(before, b, t), OfType(after, b, t), granted[i].value);
    } else {
      forall id ensures id in OfType(after, b, t) <==> id in OfType(before, b, t) {
        OfTypeWithout(before, after, b, batch, stage, types, granted, now, t, id);
      }
      assert OfType(after, b, t) == OfType(before, b, t);
    }
  }

  lemma StageTypesDiffer(profile: Profile, isDomain: bool, k: nat)
    requires k < |StagesFor(profile, isDomain)|
    ensures var types := StagesFor(profile, isDomain)[k].types;
      forall i, j :: 0 <= i < j < |types| ==> types[i] != types[j]
  {
  }

  lemma StageCompletes(before: Scans, after: Scans, b: nat, batch: Batch, isDomain: bool, stage: nat,
      granted: seq<Option<nat>>, now: int)
    requires stage < |StagesFor(batch.profile, isDomain)|
    requires CompleteUpTo(before, b, batch.profile, isDomain, stage)
    requires var types := StagesFor(batch.profile, isDomain)[stage].types;
      StageEnqueued(before, after, b, batch, stage + 1, types, granted, now) && AllGranted(before, types, granted)
    ensures CompleteUpTo(after, b, batch.profile, isDomain, stage + 1)
  {
    var types := StagesFor(batch.profile, isDomain)[stage].types;
    StageTypesDiffer(batch.profile, isDomain, stage);
    forall t ensures
      var at := StageOf(batch.profile, isDomain, t);
      && |OfType(after, b, t)| == (if at.Some? && at.value <= stage + 1 then 1 else 0)
      && forall id :: id in OfType(after, b, t) ==> at == Some(after[id].stage)
    {
      WhereTypesRun(batch.profile, isDomain, t);
      StageAddsOneEach(before, after, b, batch, stage + 1, types, granted, now, t);
      forall id | id in OfType(after, b, t) ensures StageOf(batch.profile, isDomain, t) == Some(after[id].stage) {
        OfTypeStays(before, after, b, batch, stage + 1, types, granted, now, t, id);
      }
    }
  }

  /** What a run asks of the requests for batch `b`: where a stage of it is enqueued, all of them are granted. */
  predicate Grants(s: System, e: Event, b: nat, isDomain: bool) {
    && (e.Start? && e.b == b && b !in s.batches ==>
          e.isDomain == isDomain && AllGranted(s.queue.scans, StagesFor(e.profile, isDomain)[0].types, e.granted))
    && (e.Advance? && e.b == b && b in s.batches && StageIsOver(StoreOf(s), b) ==>
          && e.isDomain == isDomain
          && (s.batches[b].currentStage < |StagesFor(s.batches[b].profile, isDomain)| ==>
                AllGranted(s.queue.scans, StagesFor(s.batches[b].profile, isDomain)[s.batches[b].currentStage].types,
                    e.granted)))
  }

  ghost predicate AllGrants(c: Q.Config, es: seq<Event>, b: nat, isDomain: bool) {
    forall n :: 0 <= n < |es| ==> Grants(Run(c, es[..n]), es[n], b, isDomain)
  }

  /** The batch is planned in full, has its scans up to its stage, and finishes only after the last stage. */
  ghost predicate OnPlan(s: System, b: nat, isDomain: bool) {
    if b in s.batches then
      var batch := s.batches[b];
      && batch.totalStages == |StagesFor(batch.profile, isDomain)|
      && (batch.status.Completed? || batch.status.Failed? ==> batch.currentStage == batch.totalStages)
      && CompleteUpTo(s.queue.scans, b, batch.profile, isDomain, batch.currentStage)
    else forall t :: OfType(s.queue.scans, b, t) == {}
  }

  lemma QueueStepOnPlan(c: Q.Config, s: System, e: Q.Event, b: nat, t: Q.ScanType)
    requires !(e.Enqueue? && e.row.batch.Some?)
    ensures OfType(Q.Step(c, s.queue, e).scans, b, t) == OfType(s.queue.scans, b, t)
    ensures forall id :: id in OfType(s.queue.scans, b, t) ==>
      Q.Step(c, s.queue, e).scans[id].stage == s.queue.scans[id].stage
  {
    var before, after := s.queue.scans, Q.Step(c, s.queue, e).scans;
    forall id ensures id in OfType(after, b, t) <==> id in OfType(before, b, t) {
      if id in before { Q.StepKeepsRows(c, s.queue, e, id); }
      if id in after { Q.StepKeepsPlace(c, s.queue, e, id); }
    }
    forall id | id in OfType(before, b, t) ensures after[id].stage == before[id].stage {
      Q.StepKeepsRows(c, s.queue, e, id);
      Q.StepKeepsPlace(c, s.queue, e, id);
    }
  }

  /** Enqueueing for another batch adds nothing to this one. */
  lemma OthersAddNothing(scans: Scans, a: nat, b: nat, batch: Batch, stage: nat,
      types: seq<Q.ScanType>, granted: seq<Option<nat>>, now: int, t: Q.ScanType)
    requires a != b
    ensures var after := EnqueueStage(scans, a, batch, stage, types, granted, now);
      && OfType(after, b, t) == OfType(scans, b, t)
      && forall id :: id in scans ==> id in after && after[id] == scans[id]
  {
    var after := EnqueueStage(scans, a, batch, stage, types, granted, now);
    forall id | id in scans ensures id in after && after[id] == scans[id] {
      EnqueueStageKeeps(scans, a, batch, stage, types, granted, now, id);
    }
    forall id ensures id in OfType(after, b, t) <==> id in OfType(scans, b, t) {
      if id in after { EnqueueStageAdds(scans, a, batch, stage, types, granted, now, id); }
    }
  }

  ghost predicate SameScans(before: Scans, after: Scans, b: nat) {
    forall t :: OfType(after, b, t) == OfType(before, b, t)
        && forall id :: id in OfType(before, b, t) ==> after[id].stage == before[id].stage
  }

  predicate SamePlan(batch: Batch, batch': Batch) {
    && batch'.profile == batch.profile && batch'.totalStages == batch.totalStages
    && batch'.currentStage == batch.currentStage && (batch'.status == batch.status || batch'.status.Cancelled?)
  }

  lemma SameScansStayOnPlan(s: System, t: System, b: nat, isDomain: bool)
    requires OnPlan(s, b, isDomain) && SameScans(s.queue.scans, t.queue.scans, b)
    requires b in t.batches <==> b in s.batches
    requires b in s.batches ==> SamePlan(s.batches[b], t.batches[b])
    ensures OnPlan(t, b, isDomain)
  {
  }

  lemma OthersKeepScans(c: Q.Config, s: System, e: Event, b: nat)
    requires !(e.Start? && e.b == b) && !(e.Advance? && e.b == b)
    ensures SameScans(s.queue.scans, Step(c, s, e).queue.scans, b)
  {
    var scans := s.queue.scans;
    forall t ensures OfType(Step(c, s, e).queue.scans, b, t) == OfType(scans, b, t)
      && forall id :: id in OfType(scans, b, t) ==> Step(c, s, e).queue.scans[id].stage == scans[id].stage
    {
      match e
      case Queue(qe) => if !(qe.Enqueue? && qe.row.batch.Some?) { QueueStepOnPlan(c, s, qe, b, t); }
      case Start(a, org, asset, profile, isDomain, granted, now) =>
        var stages := StagesFor(profile, isDomain);
        OthersAddNothing(scans, a, b, Batch(org, asset, profile, InProgress, 1, |stages|), 1, stages[0].types, granted,
            now, t);
      case Advance(a, isDomain, granted, now) =>
        if a in s.batches {
          var stages := StagesFor(s.batches[a].profile, isDomain);
          if s.batches[a].currentStage < |stages| {
            var next := stages[s.batches[a].currentStage];
            OthersAddNothing(scans, a, b, s.batches[a], next.stage, next.types, granted, now, t);
          }
        }
      case CancelBatch(_) =>
    }
  }

  lemma StartIsOnPlan(c: Q.Config, s: System, e: Event, b: nat, isDomain: bool)
    requires Inv(StoreOf(s)) && OnPlan(s, b, isDomain) && Grants(s, e, b, isDomain) && e.Start? && e.b == b
    ensures OnPlan(Step(c, s, e), b, isDomain)
  {
    if b !in s.batches && !HasActiveBatch(s.batches, e.asset) {
      var stages := StagesFor(e.profile, isDomain);
      var batch := Batch(e.org, e.asset, e.profile, InProgress, 1, |stages|);
      EveryGrantIsEnqueued(s.queue.scans, b, batch, 1, stages[0].types, e.granted, e.now);
      StagesAreNumbered(e.profile, isDomain);
      forall t ensures OfType(s.queue.scans, b, t) == {} && StageOf(e.profile, isDomain, t) != Some(0) {
      }
      StageCompletes(s.queue.scans, Step(c, s, e).queue.scans, b, batch, isDomain, 0, e.granted, e.now);
    }
  }

  lemma AdvanceIsOnPlan(c: Q.Config, s: System, e: Event, b: nat, isDomain: bool)
    requires Inv(StoreOf(s)) && OnPlan(s, b, isDomain) && Grants(s, e, b, isDomain) && e.Advance? && e.b == b
    ensures OnPlan(Step(c, s, e), b, isDomain)
  {
    AdvancedGoesOn(StoreOf(s), b, e.isDomain, e.granted, e.now);
    if StageIsOver(StoreOf(s), b) {
      var batch := s.batches[b];
      assert BatchFits(batch);
      if batch.currentStage < batch.totalStages {
        StageCompletes(s.queue.scans, Step(c, s, e).queue.scans, b, batch, isDomain, batch.currentStage, e.granted,
            e.now);
      }
    }
  }

  lemma StepStaysOnPlan(c: Q.Config, s: System, e: Event, b: nat, isDomain: bool)
    requires Inv(StoreOf(s)) && OnPlan(s, b, isDomain) && Grants(s, e, b, isDomain)
    ensures OnPlan(Step(c, s, e), b, isDomain)
  {
    if e.Start? && e.b == b {
      StartIsOnPlan(c, s, e, b, isDomain);
    } else if e.Advance? && e.b == b {
      AdvanceIsOnPlan(c, s, e, b, isDomain);
    } else {
      OthersKeepScans(c, s, e, b);
      SameScansStayOnPlan(s, Step(c, s, e), b, isDomain);
    }
  }

  lemma {:induction false} StaysOnPlan(c: Q.Config, es: seq<Event>, b: nat, isDomain: bool)
    requires AllGrants(c, es, b, isDomain)
    ensures OnPlan(Run(c, es), b, isDomain)
  {
    if es != [] {
      var front, e := es[..|es| - 1], es[|es| - 1];
      forall n | 0 <= n < |front| ensures Grants(Run(c, front[..n]), front[n], b, isDomain) {
        assert front[..n] == es[..n];
      }
      StaysOnPlan(c, front, b, isDomain);
      ReachableInv(c, front);
      assert es[..|front|] == front;
      StepStaysOnPlan(c, Run(c, front), e, b, isDomain);
    }
  }

  lemma PlanIsOver(s: System, b: nat, isDomain: bool, t: Q.ScanType)
    requires Inv(StoreOf(s)) && OnPlan(s, b, isDomain)
    requires b in s.batches && (s.batches[b].status.Completed? || s.batches[b].status.Failed?)
    ensures var at := StageOf(s.batches[b].profile, isDomain, t); var scans := s.queue.scans;
      && |OfType(scans, b, t)| == (if at.Some? then 1 else 0)
      && forall id :: id in OfType(scans, b, t) ==> at == Some(scans[id].stage) && Q.Terminal(scans[id].status)
  {
    WhereTypesRun(s.batches[b].profile, isDomain, t);
  }

  /**
   * When all requests for a batch were granted, a batch that has finished without being cancelled has
   * exactly one scan of every type that its profile and asset ask for, settled and in its stage, and
   * no other scans.
   */
  lemma FinishedMeansComplete(c: Q.Config, es: seq<Event>, b: nat, isDomain: bool, t: Q.ScanType)
    requires AllGrants(c, es, b, isDomain)
    requires var batches := Run(c, es).batches;
      b in batches && (batches[b].status == Completed || batches[b].status == Failed)
    ensures var s := Run(c, es); var at := StageOf(s.batches[b].profile, isDomain, t);
      && |set id | id in s.queue.scans && s.queue.scans[id].batch == Some(b) && s.queue.scans[id].kind == t|
           == (if at.Some? then 1 else 0)
      && forall id :: id in s.queue.scans && s.queue.scans[id].batch == Some(b) && s.queue.scans[id].kind == t ==>
           at == Some(s.queue.scans[id].stage) && Q.Terminal(s.queue.scans[id].status)
  {
    var s := Run(c, es);
    StaysOnPlan(c, es, b, isDomain);
    ReachableInv(c, es);
    PlanIsOver(s, b, isDomain, t);
    assert OfType(s.queue.scans, b, t)
        == set id | id in s.queue.scans && s.queue.scans[id].batch == Some(b) && s.queue.scans[id].kind == t;
  }

  // ---------------------------------------------------------------- cancelling a running batch

  /** What a run makes of any state. */
  ghost function From(c: Q.Config, s: System, es: seq<Event>): System {
    if es == [] then s else Step(c, From(c, s, es[..|es| - 1]), es[|es| - 1])
  }

  ghost predicate AllSettled(s: System, b: nat) {
    forall id :: BelongsTo(s.queue.scans, id, b) ==> Q.Terminal(s.queue.scans[id].status)
  }

  lemma StepKeepsScan(c: Q.Config, s: System, e: Event, id: nat)
    requires id in s.queue.scans
    ensures id in Step(c, s, e).queue.scans
    ensures var row, row' := s.queue.scans[id], Step(c, s, e).queue.scans[id];
      row'.batch == row.batch && (Q.Terminal(row.status) ==> row' == row)
  {
    var scans := s.queue.scans;
    match e
    case Queue(qe) =>
      if !(qe.Enqueue? && qe.row.batch.Some?) {
        Q.StepKeepsRows(c, s.queue, qe, id);
        Q.StepKeepsPlace(c, s.queue, qe, id);
      }
    case Start(a, org, asset, profile, isDomain, granted, now) =>
      var stages := StagesFor(profile, isDomain);
      EnqueueStageKeeps(scans, a, Batch(org, asset, profile, InProgress, 1, |stages|), 1, stages[0].types, granted,
          now, id);
    case Advance(a, isDomain, granted, now) =>
      if a in s.batches {
        var stages := StagesFor(s.batches[a].profile, isDomain);
        if s.batches[a].currentStage < |stages| {
          var next := stages[s.batches[a].currentStage];
          EnqueueStageKeeps(scans, a, s.batches[a], next.stage, next.types, granted, now, id);
        }
      }
    case CancelBatch(_) =>
  }

  /** A batch gets further scans only by an advance of it that goes on to its next stage. */
  lemma NewScanAdvances(c: Q.Config, s: System, e: Event, b: nat, id: nat)
    requires b in s.batches && id !in s.queue.scans && BelongsTo(Step(c, s, e).queue.scans, id, b)
    ensures e.Advance? && e.b == b && s.batches[b].status.InProgress? && b in Step(c, s, e).batches
    ensures Step(c, s, e).batches[b].currentStage == s.batches[b].currentStage + 1
  {
    var scans := s.queue.scans;
    match e
    case Queue(qe) =>
      if !(qe.Enqueue? && qe.row.batch.Some?) { Q.StepKeepsPlace(c, s.queue, qe, id); }
    case Start(a, org, asset, profile, isDomain, granted, now) =>
      var stages := StagesFor(profile, isDomain);
      EnqueueStageAdds(scans, a, Batch(org, asset, profile, InProgress, 1, |stages|), 1, stages[0].types, granted,
          now, id);
    case Advance(a, isDomain, granted, now) =>
      var stages := StagesFor(s.batches[a].profile, isDomain);
      StagesAreNumbered(s.batches[a].profile, isDomain);
      var next := stages[s.batches[a].currentStage];
      EnqueueStageAdds(scans, a, s.batches[a], next.stage, next.types, granted, now, id);
    case CancelBatch(_) =>
  }

  lemma {:induction false} FromKeepsScan(c: Q.Config, s: System, es: seq<Event>, id: nat)
    requires id in s.queue.scans
    ensures id in From(c, s, es).queue.scans
    ensures var row, row' := s.queue.scans[id], From(c, s, es).queue.scans[id];
      row'.batch == row.batch && (Q.Terminal(row.status) ==> row' == row)
  {
    if es != [] {
      FromKeepsScan(c, s, es[..|es| - 1], id);
      StepKeepsScan(c, From(c, s, es[..|es| - 1]), es[|es| - 1], id);
    }
  }

  lemma {:induction false} FromKeepsBatch(c: Q.Config, s: System, es: seq<Event>, b: nat)
    requires Inv(StoreOf(s)) && b in s.batches
    ensures Inv(StoreOf(From(c, s, es))) && b in From(c, s, es).batches
    ensures s.batches[b].currentStage <= From(c, s, es).batches[b].currentStage
    ensures s.batches[b].status.Cancelled? ==> From(c, s, es).batches[b] == s.batches[b]
  {
    if es != [] {
      var t := From(c, s, es[..|es| - 1]);
      FromKeepsBatch(c, s, es[..|es| - 1], b);
      StepKeepsInv(c, t, es[|es| - 1]);
      BatchOnlyMovesForward(c, t, es[|es| - 1], b);
    }
  }

  lemma {:induction false} NewScansAdvance(c: Q.Config, s: System, es: seq<Event>, b: nat, id: nat)
    requires Inv(StoreOf(s)) && b in s.batches && id !in s.queue.scans && BelongsTo(From(c, s, es).queue.scans, id, b)
    ensures b in From(c, s, es).batches && From(c, s, es).batches[b].currentStage > s.batches[b].currentStage
    ensures !s.batches[b].status.Cancelled?
  {
    if es != [] {
      var front, e := es[..|es| - 1], es[|es| - 1];
      var t := From(c, s, front);
      FromKeepsBatch(c, s, front, b);
      BatchOnlyMovesForward(c, t, e, b);
      if id in t.queue.scans {
        StepKeepsScan(c, t, e, id);
        NewScansAdvance(c, s, front, b, id);
      } else {
        NewScanAdvances(c, t, e, b, id);
      }
    }
  }

  lemma {:induction false} CancelledMeanwhile(c: Q.Config, s: System, es: seq<Event>, id: nat)
    requires id in s.queue.scans && Queue(Q.UserCancel(id)) in es
    ensures id in From(c, s, es).queue.scans && Q.Terminal(From(c, s, es).queue.scans[id].status)
    decreases |es|
  {
    var front, e := es[..|es| - 1], es[|es| - 1];
    assert es == front + [e];
    FromKeepsScan(c, s, front, id);
    StepKeepsScan(c, From(c, s, front), e, id);
    if e != Queue(Q.UserCancel(id)) { CancelledMeanwhile(c, s, front, id); }
  }

  /** cancelBatch has cancelled, among whatever else happened, every active scan of the batch that it read in `s`. */
  ghost predicate Withdrawn(s: System, es: seq<Event>, b: nat) {
    forall id :: BelongsTo(s.queue.scans, id, b) && !Q.Terminal(s.queue.scans[id].status) ==>
      Queue(Q.UserCancel(id)) in es
  }

  lemma FromNext(c: Q.Config, s: System, es: seq<Event>, e: Event)
    ensures From(c, s, es + [e]) == Step(c, From(c, s, es), e)
  {
    assert (es + [e])[..|es|] == es;
  }

  /**
   * `s` is what cancelBatch read, `es` what happened until its last write. The cancelled batch has
   * only settled scans if and only if those enqueued in between have settled; in particular when no
   * advance took the batch on to a further stage.
   */
  lemma CancelledBatchIsSettled(c: Q.Config, s: System, es: seq<Event>, b: nat)
    requires Inv(StoreOf(s)) && b in s.batches && Withdrawn(s, es, b)
    ensures var t := From(c, s, es + [CancelBatch(b)]);
      && b in t.batches && t.batches[b].status.Cancelled?
      && (AllSettled(t, b) <==> forall id :: id !in s.queue.scans && BelongsTo(t.queue.scans, id, b) ==>
            Q.Terminal(t.queue.scans[id].status))
      && (t.batches[b].currentStage == s.batches[b].currentStage ==> AllSettled(t, b))
  {
    FromNext(c, s, es, CancelBatch(b));
    FromKeepsBatch(c, s, es, b);
    var m, t := From(c, s, es), From(c, s, es + [CancelBatch(b)]);
    assert t.queue == m.queue;
    forall id | id in s.queue.scans && BelongsTo(t.queue.scans, id, b) ensures Q.Terminal(t.queue.scans[id].status) {
      FromKeepsScan(c, s, es, id);
      if !Q.Terminal(s.queue.scans[id].status) { CancelledMeanwhile(c, s, es, id); }
    }
    if t.batches[b].currentStage == s.batches[b].currentStage {
      forall id | BelongsTo(t.queue.scans, id, b) ensures id in s.queue.scans {
        if id !in s.queue.scans { NewScansAdvance(c, s, es, b, id); }
      }
    }
  }

  /** A cancelled batch stays as it is and gets no further scans; once its scans have settled, they stay, too. */
  lemma CancelledForever(c: Q.Config, s: System, es: seq<Event>, b: nat)
    requires Inv(StoreOf(s)) && b in s.batches && s.batches[b].status.Cancelled?
    ensures var t := From(c, s, es);
      && b in t.batches && t.batches[b] == s.batches[b]
      && (forall id :: BelongsTo(t.queue.scans, id, b) <==> BelongsTo(s.queue.scans, id, b))
      && (AllSettled(s, b) ==> forall id :: BelongsTo(s.queue.scans, id, b) ==>
            t.queue.scans[id] == s.queue.scans[id])
  {
    FromKeepsBatch(c, s, es, b);
    forall id ensures BelongsTo(From(c, s, es).queue.scans, id, b) <==> BelongsTo(s.queue.scans, id, b) {
      if id in s.queue.scans {
        FromKeepsScan(c, s, es, id);
      } else if BelongsTo(From(c, s, es).queue.scans, id, b) {
        NewScansAdvance(c, s, es, b, id);
      }
    }
    forall id | BelongsTo(s.queue.scans, id, b) && AllSettled(s, b)
      ensures From(c, s, es).queue.scans[id] == s.queue.scans[id]
    {
      FromKeepsScan(c, s, es, id);
    }
  }

  /** A batch of asset `asset`, and its scans: of the port scan 7 only its status may vary. */
  function CancelStore(asset: nat, first: Q.Status, status: BatchStatus, stage: nat, more: Scans): System {
    var row := Q.Scan(0, asset, Q.PortScan, first, 0, None, 0, Some(1), 1);
    System(Q.System(map[7 := row] + more, map[], multiset{}),
           map[1 := Batch(0, asset, PerimeterFast, status, stage, 2)])
  }

  function WebScan(asset: nat): Q.Scan {
    Q.Scan(0, asset, Q.WebHeaders, Q.Pending, 1, None, 0, Some(1), 2)
  }

  lemma StartsWithOneScan(c: Q.Config, asset: nat)
    ensures Step(c, EMPTY, Start(1, 0, asset, PerimeterFast, false, [Some(7)], 0))
         == CancelStore(asset, Q.Pending, InProgress, 1, map[])
  {
    var stages := StagesFor(PerimeterFast, false);
    var batch := Batch(0, asset, PerimeterFast, InProgress, 1, 2);
    assert |stages| == 2 && stages[0].types == [Q.PortScan] && [Q.PortScan][1..] == [];
    var row := Q.Scan(0, asset, Q.PortScan, Q.Pending, 0, None, 0, Some(1), 1);
    assert EnqueueStage(map[], 1, batch, 1, [Q.PortScan], [Some(7)], 0) == map[7 := row];
    assert map[7 := row] + map[] == map[7 := row];
  }

  lemma AdvancesWithOneScan(c: Q.Config, asset: nat)
    ensures Step(c, CancelStore(asset, Q.Cancelled, InProgress, 1, map[]), Advance(1, false, [Some(8)], 1))
         == CancelStore(asset, Q.Cancelled, InProgress, 2, map[8 := WebScan(asset)])
  {
    var s := CancelStore(asset, Q.Cancelled, InProgress, 1, map[]);
    var scans, batch := s.queue.scans, s.batches[1];
    var stages := StagesFor(PerimeterFast, false);
    assert |stages| == 2 && stages[1].stage == 2 && stages[1].types == [Q.WebHeaders, Q.SslCert];
    assert [Some(8)][1..] == [] && Settled(scans, 1, 1);
    assert EnqueueStage(scans, 1, batch, 2, [Q.WebHeaders, Q.SslCert], [Some(8)], 1) == scans[8 := WebScan(asset)];
    assert scans[8 := WebScan(asset)] == scans + map[8 := WebScan(asset)];
  }

  /** A diagnosis is cancelled; between the cancellation of its scan and the last write it is advanced. */
  function LateCancel(asset: nat): seq<Event> {
    [Start(1, 0, asset, PerimeterFast, false, [Some(7)], 0)] + [Queue(Q.UserCancel(7))]
        + [Advance(1, false, [Some(8)], 1)] + [CancelBatch(1)]
  }

  lemma LateCancelBegins(c: Q.Config, asset: nat)
    ensures var e0 := Start(1, 0, asset, PerimeterFast, false, [Some(7)], 0);
      Run(c, [e0] + [Queue(Q.UserCancel(7))]) == CancelStore(asset, Q.Cancelled, InProgress, 1, map[])
  {
    var e0 := Start(1, 0, asset, PerimeterFast, false, [Some(7)], 0);
    RunNext(c, [], e0);
    assert [] + [e0] == [e0];
    StartsWithOneScan(c, asset);
    RunNext(c, [e0], Queue(Q.UserCancel(7)));
    CancelsOneScan(c, asset);
  }

  lemma LateCancelRuns(c: Q.Config, asset: nat)
    ensures Run(c, LateCancel(asset)) == CancelStore(asset, Q.Cancelled, Cancelled, 2, map[8 := WebScan(asset)])
  {
    var e0, e1, e2 := Start(1, 0, asset, PerimeterFast, false, [Some(7)], 0), Queue(Q.UserCancel(7)),
        Advance(1, false, [Some(8)], 1);
    LateCancelBegins(c, asset);
    RunNext(c, [e0] + [e1], e2);
    AdvancesWithOneScan(c, asset);
    RunNext(c, [e0] + [e1] + [e2], CancelBatch(1));
  }

  /** It ends as a CANCELLED batch with a PENDING scan that the queue will run. */
  lemma CancelledWithAPendingScan(c: Q.Config, asset: nat)
    requires c.maxPerOrg >= 1
    ensures var t := Run(c, LateCancel(asset));
      && 1 in t.batches && t.batches[1].status.Cancelled?
      && BelongsTo(t.queue.scans, 8, 1) && Q.Claimable(t.queue.scans, c.maxPerOrg, 8)
  {
    LateCancelRuns(c, asset);
    assert Q.RunningOf(Run(c, LateCancel(asset)).queue.scans, 0) == {};
  }

  lemma CancelsOneScan(c: Q.Config, asset: nat)
    ensures Step(c, CancelStore(asset, Q.Pending, InProgress, 1, map[]), Queue(Q.UserCancel(7)))
         == CancelStore(asset, Q.Cancelled, InProgress, 1, map[])
  {
    var s := CancelStore(asset, Q.Pending, InProgress, 1, map[]);
    var t := CancelStore(asset, Q.Cancelled, InProgress, 1, map[]);
    assert Q.CancelScan(s.queue.scans, 7) == t.queue.scans;
  }

  // ---------------------------------------------------------------- progress

  function DoneScans(scans: Scans, b: nat): set<nat> {
    set id | id in scans && scans[id].batch == Some(b) && (scans[id].status.Completed? || scans[id].status.Failed?)
  }

  function ExpectedScans(stages: seq<Stage>): nat {
    if stages == [] then 0 else |stages[0].types| + ExpectedScans(stages[1..])
  }

  /** Math.round of done / expected as a percentage, capped at 95. */
  function CappedShare(done: nat, expected: nat): int {
    if expected > 0 then Min(95, (200 * done + expected) / (2 * expected)) else 0
  }

  lemma CappedShareGrows(x: nat, y: nat, expected: nat)
    requires x <= y
    ensures 0 <= CappedShare(x, expected) <= CappedShare(y, expected) <= 95
  {
    if expected > 0 {
      DivMonotone(0, 200 * x + expected, 2 * expected);
      DivMonotone(200 * x + expected, 200 * y + expected, 2 * expected);
    }
  }

  function Progress(st: Store, b: nat, isDomain: bool): int
    requires b in st.batches
  {
    if st.batches[b].status.Completed? then 100
    else CappedShare(|DoneScans(st.scans, b)|, ExpectedScans(StagesFor(st.batches[b].profile, isDomain)))
  }

  lemma DoneScansNeverShrink(c: Q.Config, s: System, e: Event, b: nat)
    ensures |DoneScans(s.queue.scans, b)| <= |DoneScans(Step(c, s, e).queue.scans, b)|
  {
    var scans, scans' := s.queue.scans, Step(c, s, e).queue.scans;
    forall id | id in DoneScans(scans, b) ensures id in DoneScans(scans', b) {
      match e
      case Queue(qe) => if !(qe.Enqueue? && qe.row.batch.Some?) { Q.StepKeepsTerminal(c, s.queue, qe, id); }
      case Start(a, org, asset, profile, isDomain, granted, now) =>
        var stages := StagesFor(profile, isDomain);
        EnqueueStageKeeps(scans, a, Batch(org, asset, profile, InProgress, 1, |stages|), 1, stages[0].types, granted,
            now, id);
      case Advance(a, isDomain, granted, now) =>
        if a in s.batches {
          var stages := StagesFor(s.batches[a].profile, isDomain);
          if s.batches[a].currentStage < |stages| {
            var next := stages[s.batches[a].currentStage];
            EnqueueStageKeeps(scans, a, s.batches[a], next.stage, next.types, granted, now, id);
          }
        }
      case CancelBatch(_) =>
    }
    Q.SubsetSize(DoneScans(scans, b), DoneScans(scans', b));
  }

  lemma {:induction false} EnqueueStageKeeps(scans: Scans, b: nat, batch: Batch, stage: nat,
      types: seq<Q.ScanType>, granted: seq<Option<nat>>, now: int, id: nat)
    requires id in scans
    ensures id in EnqueueStage(scans, b, batch, stage, types, granted, now)
    ensures EnqueueStage(scans, b, batch, stage, types, granted, now)[id] == scans[id]
    decreases |types|
  {
    if types != [] && granted != [] {
      var next := if granted[0].None? then scans
                  else Q.Enqueued(scans, granted[0].value,
                                  Q.Scan(batch.org, batch.asset, types[0], Q.Pending, now, None, 0, Some(b), stage));
      EnqueueStageKeeps(next, b, batch, stage, types[1..], granted[1..], now, id);
    }
  }

  /** The bar shows 100 exactly when the batch is COMPLETED, and only cancelBatch can make it go back. */
  lemma ProgressNeverFalls(c: Q.Config, s: System, e: Event, b: nat, isDomain: bool)
    requires Inv(StoreOf(s)) && b in s.batches
    ensures b in Step(c, s, e).batches
    ensures 0 <= Progress(StoreOf(s), b, isDomain) <= 100
    ensures Progress(StoreOf(s), b, isDomain) == 100 <==> s.batches[b].status.Completed?
    ensures e != CancelBatch(b) ==> Progress(StoreOf(s), b, isDomain) <= Progress(StoreOf(Step(c, s, e)), b, isDomain)
  {
    BatchOnlyMovesForward(c, s, e, b);
    DoneScansNeverShrink(c, s, e, b);
    CappedShareGrows(|DoneScans(s.queue.scans, b)|, |DoneScans(Step(c, s, e).queue.scans, b)|,
                     ExpectedScans(StagesFor(s.batches[b].profile, isDomain)));
    if s.batches[b].status.Completed? { FinishedBatchChangesOnlyByCancel(c, s, e, b); }
  }

  lemma ExpectedIs(profile: Profile, isDomain: bool)
    ensures ExpectedScans(StagesFor(profile, isDomain))
      == if profile.PerimeterFast? then 3 else if isDomain then 6 else 4
  {
    var stages := StagesFor(profile, isDomain);
    if profile.PerimeterFast? || !isDomain {
      assert stages[1..][1..] == [] && ExpectedScans(stages[1..]) == |stages[1].types|;
    } else {
      assert stages[1..][1..][1..] == [] && ExpectedScans(stages[1..][1..]) == |stages[2].types|;
      assert ExpectedScans(stages[1..]) == |stages[1].types| + |stages[2].types|;
    }
  }

  /**
   * The bar of a batch that is not COMPLETED: the share of its planned scans (three, four or six) that
   * have completed or failed, in percent, rounded to the nearest, halves up, and never above 95.
   */
  lemma ProgressIsShare(st: Store, b: nat, isDomain: bool)
    requires b in st.batches && st.batches[b].status != Completed
    ensures var done := |set id | id in st.scans && st.scans[id].batch == Some(b)
          && (st.scans[id].status == Q.Completed || st.scans[id].status == Q.Failed)|;
      var planned := if st.batches[b].profile.PerimeterFast? then 3 else if isDomain then 6 else 4;
      var p := Progress(st, b, isDomain);
      && p <= 95 && -planned <= 2 * (100 * done - planned * p)
      && (p < 95 ==> 2 * (100 * done - planned * p) < planned)
  {
    ExpectedIs(st.batches[b].profile, isDomain);
    assert DoneScans(st.scans, b) == set id | id in st.scans && st.scans[id].batch == Some(b)
        && (st.scans[id].status == Q.Completed || st.scans[id].status == Q.Failed);
  }
}
