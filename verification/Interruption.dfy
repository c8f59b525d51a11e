/**
 * A spot reclaim from the handler that marks it to the state Parsl is told: the mode's records
 * (parsl_ephemeral_provider/modes/base.py, modes/detached.py, modes/serverless.py) together with
 * the provider that polls them.
 */
module Interruption {
  import opened Collections
  import opened ProviderModel
  import opened ProviderInvariants
  import opened ProviderRuns

  type FleetId = string

  datatype ModeRecord = ModeRecord(status: Status, fleet: Option<FleetId>)
  type Records = map<ResourceId, ModeRecord>

  // ---------------------------------------------------------------- the handlers

  ghost predicate BackedBy(records: Records, r: ResourceId, f: FleetId) {
    r in records && (r == f || records[r].fleet == Some(f))
  }

  /** What a warning for a fleet, if it names one, and for instances is about. */
  ghost predicate Hit(records: Records, f: Option<FleetId>, ids: seq<ResourceId>, r: ResourceId) {
    r in records && ((f.Some? && BackedBy(records, r, f.value)) || r in ids)
  }

  /** Every record backed by the fleet and every warned instance that is tracked, marked. */
  ghost function Warned(records: Records, f: Option<FleetId>, ids: seq<ResourceId>): Records {
    map r | r in records :: if Hit(records, f, ids, r) then records[r].(status := Interrupted) else records[r]
  }

  /** One answer of a poll: a status document that was found, with the fleet it may name. */
  datatype Reading = Reading(status: Status, fleet: Option<FleetId>)

  /** What a poll answers for one id; a marked record is not read again. */
  function Answer(records: Records, read: ResourceId -> Option<Reading>, r: ResourceId): Status {
    if r !in records then Unknown
    else if records[r].status.Interrupted? then Interrupted
    else if read(r).None? then Unknown
    else read(r).value.status
  }

  function Refreshed(records: Records, read: ResourceId -> Option<Reading>, r: ResourceId): ModeRecord
    requires r in records
  {
    if records[r].status.Interrupted? || read(r).None? then records[r]
    else ModeRecord(read(r).value.status, if read(r).value.fleet.Some? then read(r).value.fleet else records[r].fleet)
  }

  function PolledRecords(records: Records, read: ResourceId -> Option<Reading>, ids: set<ResourceId>): Records {
    map r | r in records :: if r in ids then Refreshed(records, read, r) else records[r]
  }

  /**
   * What one id is told by a poll, and what becomes of its record: unknown when it has none; its mark
   * when it is marked; otherwise the status that was read, which the record takes over with the fleet
   * if one is named, or unknown when nothing could be read.
   */
  ghost predicate Told(before: Records, after: Records, read: ResourceId -> Option<Reading>, r: ResourceId,
          status: Status) {
    if r !in before then status.Unknown? && r !in after
    else
      && r in after
      && (if before[r].status.Interrupted? then status.Interrupted? && after[r] == before[r]
          else if read(r).None? then status.Unknown? && after[r] == before[r]
          else
            && status == read(r).value.status == after[r].status
            && after[r].fleet == (if read(r).value.fleet.Some? then read(r).value.fleet else before[r].fleet))
  }

  class OperatingMode {
    var order: seq<ResourceId>
    var resources: Records

    constructor ()
      ensures order == [] && resources == map[]
    {
      order, resources := [], map[];
    }

    /** Marks the instance's own record, if it is tracked under that id. */
    method HandleInstanceInterruption(i: ResourceId)
      modifies this`resources
      ensures resources == Warned(old(resources), None, [i])
      ensures resources.Keys == old(resources).Keys
      ensures forall r :: r in resources ==>
                resources[r] == if r == i then old(resources)[r].(status := Interrupted) else old(resources)[r]
    {
      if i !in resources {
        return;
      }
      resources := resources[i := resources[i].(status := Interrupted)];
    }

    /** The record keyed by the fleet, then the records that carry it as a field. */
    method ResourceIdsForFleet(f: FleetId) returns (matches: seq<ResourceId>)
      requires forall r :: r in order <==> r in resources
      ensures forall r :: r in matches <==> BackedBy(resources, r, f)
    {
      matches := [];
      if f in resources {
        matches := matches + [f];
      }
      for k := 0 to |order|
        invariant forall r :: r in matches <==> BackedBy(resources, r, f) && (r == f || r in order[..k])
      {
        assert order[..k + 1] == order[..k] + [order[k]];
        if order[k] != f {
          if resources[order[k]].fleet == Some(f) {
            matches := matches + [order[k]];
          }
        }
      }
      assert order[..|order|] == order;
    }

    method HandleFleetInterruption(f: FleetId, ids: seq<ResourceId>)
      requires forall r :: r in order <==> r in resources
      modifies this`resources
      ensures resources == Warned(old(resources), Some(f), ids)
      ensures resources.Keys == old(resources).Keys
      ensures forall r :: r in resources ==>
                resources[r] ==
                if r == f || old(resources)[r].fleet == Some(f) || r in ids
                then old(resources)[r].(status := Interrupted) else old(resources)[r]
    {
      ghost var before := resources;
      var matches := ResourceIdsForFleet(f);
      for k := 0 to |matches|
        invariant resources.Keys == before.Keys
        invariant forall r :: r in before ==>
                    resources[r] == if r in matches[..k] then before[r].(status := Interrupted) else before[r]
      {
        assert matches[k] in matches && matches[..k + 1] == matches[..k] + [matches[k]];
        resources := resources[matches[k] := resources[matches[k]].(status := Interrupted)];
      }
      for k := 0 to |ids|
        invariant resources.Keys == before.Keys
        invariant forall r :: r in before ==>
                    resources[r] ==
                    if Hit(before, Some(f), ids[..k], r) then before[r].(status := Interrupted) else before[r]
      {
        assert ids[..k + 1] == ids[..k] + [ids[k]];
        HandleInstanceInterruption(ids[k]);
      }
      assert ids[..|ids|] == ids;
    }

    /** `get_job_status`: answers every id; an interruption is sticky. */
    method GetJobStatus(ids: seq<ResourceId>, read: ResourceId -> Option<Reading>)
        returns (statuses: map<ResourceId, Status>)
      modifies this`resources
      ensures resources == PolledRecords(old(resources), read, Elems(ids))
      ensures statuses.Keys == Elems(ids)
      ensures forall r :: r in ids ==> statuses[r] == Answer(old(resources), read, r)
      ensures forall r :: r in ids ==> Told(old(resources), resources, read, r, statuses[r])
      ensures forall r :: r in resources && r !in ids ==> r in old(resources) && resources[r] == old(resources)[r]
    {
      ghost var before := resources;
      statuses := map[];
      assert PolledRecords(before, read, {}) == before;
      for k := 0 to |ids|
        invariant resources.Keys == before.Keys
        invariant forall r :: r in before ==>
                    resources[r] == if r in ids[..k] then Refreshed(before, read, r) else before[r]
        invariant statuses.Keys == Elems(ids[..k])
        invariant forall r :: r in ids[..k] ==> statuses[r] == Answer(before, read, r)
      {
        assert ids[..k + 1] == ids[..k] + [ids[k]];
        var r := ids[k];
        if r !in resources {
          statuses := statuses[r := Unknown];
        } else if resources[r].status.Interrupted? {
          statuses := statuses[r := Interrupted];
        } else {
          var found := read(r);
          if found.Some? {
            resources := resources[r := resources[r].(status := found.value.status)];
            if found.value.fleet.Some? {
              resources := resources[r := resources[r].(fleet := found.value.fleet)];
            }
            statuses := statuses[r := found.value.status];
          } else {
            statuses := statuses[r := Unknown];
          }
        }
      }
      assert ids[..|ids|] == ids;
      forall r | r in ids
        ensures Told(before, resources, read, r, statuses[r])
      {
        AnswerTells(before, read, Elems(ids), r);
      }
    }
  }

  lemma AnswerTells(records: Records, read: ResourceId -> Option<Reading>, ids: set<ResourceId>, r: ResourceId)
    requires r in ids
    ensures Told(records, PolledRecords(records, read, ids), read, r, Answer(records, read, r))
  {
  }

  // ---------------------------------------------------------------- sticky in the mode

  datatype ModeOp =
    | PollOp(ids: set<ResourceId>, read: ResourceId -> Option<Reading>)
    | WarnOp(fleet: Option<FleetId>, warned: seq<ResourceId>)

  ghost function AfterOps(records: Records, ops: seq<ModeOp>): Records
    decreases |ops|
  {
    if ops == [] then records
    else
      var next := match ops[0]
                  case PollOp(ids, read) => PolledRecords(records, read, ids)
                  case WarnOp(f, ids) => Warned(records, f, ids);
      AfterOps(next, ops[1..])
  }

  lemma {:induction false} MarkStays(records: Records, ops: seq<ModeOp>, r: ResourceId)
    requires r in records && records[r].status.Interrupted?
    ensures r in AfterOps(records, ops) && AfterOps(records, ops)[r].status.Interrupted?
    decreases |ops|
  {
    if ops != [] {
      var next := match ops[0]
                  case PollOp(ids, read) => PolledRecords(records, read, ids)
                  case WarnOp(f, ids) => Warned(records, f, ids);
      MarkStays(next, ops[1..], r);
    }
  }

  /** Once a warning is handled, what it hit stays INTERRUPTED through polls and further warnings. */
  lemma WarnedStaysInterrupted(records: Records, f: Option<FleetId>, ids: seq<ResourceId>, ops: seq<ModeOp>,
          r: ResourceId)
    requires Hit(records, f, ids, r)
    ensures var after := AfterOps(Warned(records, f, ids), ops); r in after && after[r].status.Interrupted?
  {
    MarkStays(Warned(records, f, ids), ops, r);
  }

  // ---------------------------------------------------------------- mode and provider together

  /** The provider's world and the mode's records. */
  datatype Joint = Joint(world: World, records: Records)

  datatype Move =
    | Warn(fleet: Option<FleetId>, warned: seq<ResourceId>)
    | SubmitJob(job: JobId, launch: Launch, submitSaves: Saves, record: ModeRecord)
    | PollJobs(keys: seq<Option<JobId>>, raised: bool, read: ResourceId -> Option<Reading>, pollSaves: Saves,
      run: CleanupRun)
    | ScaleDown(blocks: int, canceled: ModeAnswer, run: CleanupRun, scaleSaves: Saves)

  ghost function PolledIds(st: ProviderState, keys: seq<Option<JobId>>): set<ResourceId> {
    PointedAt(st, Polled(st, keys))
  }

  /** The mode's answer to a poll of exactly the ids the provider hands it. */
  ghost function ModeAnswers(records: Records, st: ProviderState, keys: seq<Option<JobId>>, raised: bool,
          read: ResourceId -> Option<Reading>): ModeAnswer {
    if raised then Raised else Answered(map r | r in PolledIds(st, keys) :: Answer(records, read, r))
  }

  ghost function AsStep(j: Joint, m: Move): Step
    requires !m.Warn?
  {
    match m
    case SubmitJob(job, launch, saves, _) => Submit(job, launch, saves)
    case PollJobs(keys, raised, read, saves, run) =>
      Poll(keys, ModeAnswers(j.records, j.world.sys.live, keys, raised, read), saves, run)
    case ScaleDown(blocks, canceled, run, saves) => ScaleIn(blocks, canceled, run, saves)
  }

  /** A read of AWS never yields WARM, and a marked record is never WARM. */
  ghost predicate MoveAllowed(cfg: Config, j: Joint, m: Move) {
    !m.Warn? ==> Possible(cfg, j.world, AsStep(j, m))
  }

  ghost function Dispatched(st: ProviderState, launch: Launch): Option<ResourceId> {
    match launch
    case Fresh(id) => Some(id)
    case Reused => if st.warm == [] then None else Some(st.warm[0])
    case ReuseFailed => if st.warm == [] then None else Some(st.warm[0])
    case LaunchFailed => None
  }

  ghost function VictimIds(st: ProviderState, blocks: nat): set<ResourceId> {
    PointedAt(st, Known(st, Keys(Victims(st, blocks))))
  }

  /** `cancel_jobs` writes CANCELED over whatever a named record says, a mark included. */
  ghost function CanceledRecords(records: Records, ids: set<ResourceId>): Records {
    map r | r in records :: if r in ids then records[r].(status := Canceled) else records[r]
  }

  /**
   * The records after a move; the mode drops those whose resources the provider dropped. A
   * `cancel_jobs` that raises does so before it has marked anything.
   */
  ghost function RecordsAfter(cfg: Config, j: Joint, m: Move): Records
    requires Good(cfg, Links, j.world) && MoveAllowed(cfg, j, m)
  {
    match m
    case Warn(f, ids) => Warned(j.records, f, ids)
    case SubmitJob(_, launch, _, record) =>
      var id := if |j.world.sys.live.order| >= cfg.maxBlocks then None else Dispatched(j.world.sys.live, launch);
      if id.Some? then j.records[id.value := record] else j.records
    case PollJobs(keys, raised, read, _, _) =>
      var polled := if raised then j.records else PolledRecords(j.records, read, PolledIds(j.world.sys.live, keys));
      polled - (j.world.sys.live.resources.Keys - Next(cfg, j.world, AsStep(j, m)).sys.live.resources.Keys)
    case ScaleDown(blocks, answer, _, _) =>
      var canceled :=
        if blocks > 0 && answer.Answered? then CanceledRecords(j.records, VictimIds(j.world.sys.live, blocks))
        else j.records;
      canceled - (j.world.sys.live.resources.Keys - Next(cfg, j.world, AsStep(j, m)).sys.live.resources.Keys)
  }

  ghost function Moved(cfg: Config, j: Joint, m: Move): Joint
    requires Good(cfg, Links, j.world) && MoveAllowed(cfg, j, m)
  {
    Joint(if m.Warn? then j.world else Next(cfg, j.world, AsStep(j, m)), RecordsAfter(cfg, j, m))
  }

  /** `r` is tracked for `job` and INTERRUPTED: in the job's cached answer, or else by its mark. */
  ghost predicate DoomedIn(st: ProviderState, records: Records, job: JobId, r: ResourceId)
    requires r in st.resources
  {
    && st.resources[r].jobId == job && job in st.jobMap
    && (if Terminal(st.jobMap[job].status) then st.jobMap[job].status.Interrupted?
        else r in records && records[r].status.Interrupted?)
  }

  /**
   * `r` was reclaimed under job `job`: gone for good, or still tracked for that job, marked in the
   * mode until the mark has reached the provider's cache.
   */
  ghost predicate Doomed(j: Joint, job: JobId, r: ResourceId) {
    var st := j.world.sys.live;
    && job in j.world.jobs && r in j.world.ids
    && (r in st.resources ==> DoomedIn(st, j.records, job, r))
  }

  /** The move does not cancel `job`. */
  ghost predicate Spares(j: Joint, m: Move, job: JobId) {
    m.ScaleDown? && m.blocks > 0 ==> Some(job) !in Keys(Victims(j.world.sys.live, m.blocks))
  }

  /** A doomed resource is never WARM and never listed for reuse. */
  lemma DoomedIsNotPooled(cfg: Config, j: Joint, job: JobId, r: ResourceId)
    requires Good(cfg, Links, j.world) && Doomed(j, job, r)
    ensures r !in WarmIds(j.world.sys.live) && r !in j.world.sys.live.warm
  {
    var st := j.world.sys.live;
    assert r in st.warm ==> Pooled(st.resources, r);
  }

  /** A clean-up pass promotes and forgets; it changes nothing else about a resource or its job. */
  lemma CleanupLeaves(cfg: Config, st: ProviderState, run: CleanupRun, r: ResourceId)
    requires Inv(cfg, st)
    ensures var t := Cleanup(cfg, st, run);
            r in t.resources ==>
              && r in st.resources && t.resources[r].jobId == st.resources[r].jobId
              && st.resources[r].jobId in t.jobMap &&
                   t.jobMap[st.resources[r].jobId] == st.jobMap[st.resources[r].jobId]
  {
    var t := Cleanup(cfg, st, run);
    CleanupKeeps(cfg, st, run);
    CleanupShrinks(cfg, st, run);
    PoolAfterSound(cfg, st, run);
    if r in t.resources {
      assert t.resources[r] == PoolAfter(cfg, st, run).resources[r];
    }
  }

  lemma CleanupDooms(cfg: Config, st: ProviderState, run: CleanupRun, records: Records, job: JobId, r: ResourceId)
    requires Inv(cfg, st) && (r in st.resources ==> DoomedIn(st, records, job, r))
    ensures r in Cleanup(cfg, st, run).resources ==>
              r in st.resources && DoomedIn(Cleanup(cfg, st, run), records, job, r)
  {
    CleanupLeaves(cfg, st, run, r);
  }

  /** Writing answers back keeps a resource doomed when its own answer, if any, is the mark. */
  lemma WriteBackDooms(st: ProviderState, jobs: set<JobId>, statuses: map<ResourceId, Status>, records: Records,
          job: JobId, r: ResourceId)
    requires Owned(st) && OwnLive(st, jobs) && r in st.resources && DoomedIn(st, records, job, r)
    requires job in jobs && r in statuses ==> statuses[r].Interrupted?
    ensures r in WriteBack(st, jobs, statuses).resources && DoomedIn(WriteBack(st, jobs, statuses), records, job, r)
  {
    WriteBackPointwise(st, jobs, statuses);
    assert st.jobMap[job].resourceId == r;
  }

  lemma PolledAnswerIsMark(st: ProviderState, records: Records, keys: seq<Option<JobId>>,
          read: ResourceId -> Option<Reading>, job: JobId, r: ResourceId)
    requires r in st.resources && DoomedIn(st, records, job, r)
    ensures var statuses := ModeAnswers(records, st, keys, false, read).statuses;
            job in Polled(st, keys) && r in statuses ==> statuses[r].Interrupted?
  {
  }

  lemma PollStepDooms(cfg: Config, s: System, m: Move, records: Records, job: JobId, r: ResourceId)
    requires Inv(cfg, s.live) && m.PollJobs? && (r in s.live.resources ==> DoomedIn(s.live, records, job, r))
    ensures var t := PollStep(s, m.keys, ModeAnswers(records, s.live, m.keys, m.raised, m.read), m.pollSaves).live;
            r in t.resources ==> r in s.live.resources && DoomedIn(t, records, job, r)
  {
    var answer := ModeAnswers(records, s.live, m.keys, m.raised, m.read);
    PolledOwn(cfg, s.live, m.keys);
    if r in s.live.resources {
      var effective := Effective(s.live, m.keys, answer);
      if effective.Answered? {
        if !m.raised {
          PolledAnswerIsMark(s.live, records, m.keys, m.read, job, r);
        }
        WriteBackDooms(s.live, Polled(s.live, m.keys), effective.statuses, records, job, r);
      }
    }
  }

  lemma PollStepInv(cfg: Config, s: System, keys: seq<Option<JobId>>, answer: ModeAnswer, saves: Saves)
    requires Inv(cfg, s.live) && NeverWarm(answer)
    ensures Inv(cfg, PollStep(s, keys, answer, saves).live)
  {
    match Effective(s.live, keys, answer)
    case Raised =>
    case Answered(statuses) =>
      PolledOwn(cfg, s.live, keys);
      WriteBackKeeps(cfg, s.live, Polled(s.live, keys), statuses);
  }

  lemma MaybeCleanupDooms(cfg: Config, s: System, run: CleanupRun, records: Records, job: JobId, r: ResourceId)
    requires Inv(cfg, s.live) && (r in s.live.resources ==> DoomedIn(s.live, records, job, r))
    ensures var t := if cfg.warmPoolSize > 0 || cfg.oneShot then CleanupStep(cfg, s, run).live else s.live;
            r in t.resources ==> r in s.live.resources && DoomedIn(t, records, job, r)
  {
    CleanupDooms(cfg, s.live, run, records, job, r);
  }

  lemma StatusStepDooms(cfg: Config, s: System, m: Move, answer: ModeAnswer, records: Records, job: JobId,
          r: ResourceId)
    requires Inv(cfg, s.live) && m.PollJobs? && NeverWarm(answer)
    requires answer == ModeAnswers(records, s.live, m.keys, m.raised, m.read)
    requires r in s.live.resources ==> DoomedIn(s.live, records, job, r)
    ensures var t := StatusStep(cfg, s, m.keys, answer, m.pollSaves, m.run).live;
            r in t.resources ==> r in s.live.resources && DoomedIn(t, records, job, r)
  {
    PollStepInv(cfg, s, m.keys, answer, m.pollSaves);
    PollStepDooms(cfg, s, m, records, job, r);
    MaybeCleanupDooms(cfg, PollStep(s, m.keys, answer, m.pollSaves), m.run, records, job, r);
  }

  /** Doom depends on the records only through the mark on `r`. */
  lemma MarkCarriesDoom(st: ProviderState, before: Records, after: Records, job: JobId, r: ResourceId)
    requires r in st.resources && DoomedIn(st, before, job, r)
    requires r in before && before[r].status.Interrupted? ==> r in after && after[r].status.Interrupted?
    ensures DoomedIn(st, after, job, r)
  {
  }

  lemma PollDooms(cfg: Config, j: Joint, m: Move, job: JobId, r: ResourceId)
    requires Good(cfg, Links, j.world) && m.PollJobs? && MoveAllowed(cfg, j, m) && Doomed(j, job, r)
    ensures Doomed(Moved(cfg, j, m), job, r)
  {
    StatusStepDooms(cfg, j.world.sys, m, AsStep(j, m).answer, j.records, job, r);
    var after := Next(cfg, j.world, AsStep(j, m)).sys.live;
    if r in after.resources {
      MarkCarriesDoom(after, j.records, RecordsAfter(cfg, j, m), job, r);
    }
  }

  lemma CanceledDooms(cfg: Config, st: ProviderState, blocks: nat, statuses: map<ResourceId, Status>, records: Records,
          job: JobId, r: ResourceId)
    requires Inv(cfg, st) && (r in st.resources ==> DoomedIn(st, records, job, r))
    requires Some(job) !in Keys(Victims(st, blocks))
    ensures var t := WriteBack(st, Known(st, Keys(Victims(st, blocks))), statuses);
            t.resources.Keys == st.resources.Keys && (r in t.resources ==> DoomedIn(t, records, job, r))
  {
    VictimsOwn(cfg, st, blocks);
    if r in st.resources {
      WriteBackDooms(st, Known(st, Keys(Victims(st, blocks))), statuses, records, job, r);
    }
  }

  lemma CanceledInv(cfg: Config, st: ProviderState, blocks: nat, statuses: map<ResourceId, Status>)
    requires Inv(cfg, st) && NeverWarm(Answered(statuses))
    ensures Inv(cfg, WriteBack(st, Known(st, Keys(Victims(st, blocks))), statuses))
  {
    VictimsOwn(cfg, st, blocks);
    WriteBackKeeps(cfg, st, Known(st, Keys(Victims(st, blocks))), statuses);
  }

  lemma ScaleStepDooms(cfg: Config, s: System, m: Move, records: Records, job: JobId, r: ResourceId)
    requires Inv(cfg, s.live) && m.ScaleDown? && NeverWarm(m.canceled)
    requires r in s.live.resources ==> DoomedIn(s.live, records, job, r)
    requires m.blocks > 0 ==> Some(job) !in Keys(Victims(s.live, m.blocks))
    ensures var t := ScaleInStep(cfg, s, m.blocks, m.canceled, m.run, m.scaleSaves).live;
            r in t.resources ==> r in s.live.resources && DoomedIn(t, records, job, r)
  {
    ScaleInLive(cfg, s, m.blocks, m.canceled, m.run, m.scaleSaves);
    if m.blocks > 0 && m.canceled.Answered? {
      var st := WriteBack(s.live, Known(s.live, Keys(Victims(s.live, m.blocks))), m.canceled.statuses);
      CanceledInv(cfg, s.live, m.blocks, m.canceled.statuses);
      CanceledDooms(cfg, s.live, m.blocks, m.canceled.statuses, records, job, r);
      CleanupDooms(cfg, st, m.run, records, job, r);
    }
  }

  lemma SparedIsNotCanceled(cfg: Config, st: ProviderState, blocks: nat, job: JobId, r: ResourceId)
    requires Inv(cfg, st) && r in st.resources && st.resources[r].jobId == job
    requires Some(job) !in Keys(Victims(st, blocks))
    ensures r !in VictimIds(st, blocks)
  {
    VictimsOwn(cfg, st, blocks);
  }

  lemma ScaleDooms(cfg: Config, j: Joint, m: Move, job: JobId, r: ResourceId)
    requires Good(cfg, Links, j.world) && m.ScaleDown? && MoveAllowed(cfg, j, m) && Doomed(j, job, r) &&
               Spares(j, m, job)
    ensures Doomed(Moved(cfg, j, m), job, r)
  {
    ScaleStepDooms(cfg, j.world.sys, m, j.records, job, r);
    var after := Next(cfg, j.world, AsStep(j, m)).sys.live;
    if r in after.resources {
      if m.blocks > 0 {
        SparedIsNotCanceled(cfg, j.world.sys.live, m.blocks, job, r);
      }
      MarkCarriesDoom(after, j.records, RecordsAfter(cfg, j, m), job, r);
    }
  }

  lemma SubmitDooms(cfg: Config, j: Joint, m: Move, job: JobId, r: ResourceId)
    requires Good(cfg, Links, j.world) && m.SubmitJob? && MoveAllowed(cfg, j, m) && Doomed(j, job, r)
    ensures Doomed(Moved(cfg, j, m), job, r)
  {
    DoomedIsNotPooled(cfg, j, job, r);
    var st := j.world.sys.live;
    if st.warm != [] {
      assert st.warm[0] in st.warm;
      assert Pooled(st.resources, st.warm[0]);
    }
  }

  lemma MoveKeepsDoomed(cfg: Config, j: Joint, m: Move, job: JobId, r: ResourceId)
    requires Good(cfg, Links, j.world) && MoveAllowed(cfg, j, m) && Doomed(j, job, r) && Spares(j, m, job)
    ensures Doomed(Moved(cfg, j, m), job, r)
  {
    match m
    case Warn(_, _) =>
    case SubmitJob(_, _, _, _) => SubmitDooms(cfg, j, m, job, r);
    case PollJobs(_, _, _, _, _) => PollDooms(cfg, j, m, job, r);
    case ScaleDown(_, _, _, _) => ScaleDooms(cfg, j, m, job, r);
  }

  lemma MoveGood(cfg: Config, j: Joint, m: Move)
    requires Good(cfg, Links, j.world) && MoveAllowed(cfg, j, m)
    ensures Good(cfg, Links, Moved(cfg, j, m).world)
  {
    if !m.Warn? {
      StepGood(cfg, Links, j.world, AsStep(j, m));
    }
  }

  ghost predicate Continues(cfg: Config, j: Joint, moves: seq<Move>, job: JobId)
    requires Good(cfg, Links, j.world)
    decreases |moves|
  {
    moves != [] ==>
      && MoveAllowed(cfg, j, moves[0]) && Spares(j, moves[0], job)
      && (MoveGood(cfg, j, moves[0]); Continues(cfg, Moved(cfg, j, moves[0]), moves[1..], job))
  }

  ghost function AfterMoves(cfg: Config, j: Joint, moves: seq<Move>, job: JobId): (k: Joint)
    requires Good(cfg, Links, j.world) && Continues(cfg, j, moves, job)
    ensures Good(cfg, Links, k.world)
    decreases |moves|
  {
    if moves == [] then j
    else
      MoveGood(cfg, j, moves[0]);
      AfterMoves(cfg, Moved(cfg, j, moves[0]), moves[1..], job)
  }

  lemma {:induction false} MovesKeepDoomed(cfg: Config, j: Joint, moves: seq<Move>, job: JobId, r: ResourceId)
    requires Good(cfg, Links, j.world) && Continues(cfg, j, moves, job) && Doomed(j, job, r)
    ensures Doomed(AfterMoves(cfg, j, moves, job), job, r)
    decreases |moves|
  {
    if moves != [] {
      MoveGood(cfg, j, moves[0]);
      MoveKeepsDoomed(cfg, j, moves[0], job, r);
      MovesKeepDoomed(cfg, Moved(cfg, j, moves[0]), moves[1..], job, r);
    }
  }

  /** What `status` reports of a doomed job while it is tracked: FAILED, whatever AWS reads as. */
  lemma DoomedReportsFailed(cfg: Config, j: Joint, job: JobId, r: ResourceId, keys: seq<Option<JobId>>,
          read: ResourceId -> Option<Reading>)
    requires Good(cfg, Links, j.world) && Doomed(j, job, r) && r in j.world.sys.live.resources && Some(job) in keys
    ensures ToJobState(Report(j.world.sys.live, Some(job),
              ModeAnswers(j.records, j.world.sys.live, keys, false, read))) == JobFailed
  {
    var st := j.world.sys.live;
    assert st.jobMap[job].resourceId == r;
    if !Terminal(st.jobMap[job].status) {
      assert job in Polled(st, keys);
      assert r in PolledIds(st, keys);
    }
  }

  /**
   * End to end. Once the warning for a fleet is handled, take any resource it backs whose job has
   * no cached terminal answer. Through any run that does not cancel that job, the resource is never
   * WARM and never listed for reuse, and every answered `status` call for the job while it is
   * tracked reports FAILED.
   */
  lemma InterruptionIsSticky(cfg: Config, j: Joint, f: Option<FleetId>, ids: seq<ResourceId>, job: JobId, r: ResourceId,
                             moves: seq<Move>, keys: seq<Option<JobId>>, read: ResourceId -> Option<Reading>)
    requires Good(cfg, Links, j.world) && Hit(j.records, f, ids, r)
    requires r in j.world.sys.live.resources && j.world.sys.live.resources[r].jobId == job
    requires job in j.world.sys.live.jobMap && !Terminal(j.world.sys.live.jobMap[job].status)
    requires Continues(cfg, Moved(cfg, j, Warn(f, ids)), moves, job)
    requires Some(job) in keys
    ensures var k := AfterMoves(cfg, Moved(cfg, j, Warn(f, ids)), moves, job); var st := k.world.sys.live;
            && r !in WarmIds(st) && r !in st.warm
            && (r in st.resources ==>
                 ToJobState(Report(st, Some(job), ModeAnswers(k.records, st, keys, false, read))) == JobFailed)
  {
    var warned := Moved(cfg, j, Warn(f, ids));
    assert Doomed(warned, job, r);
    MovesKeepDoomed(cfg, warned, moves, job, r);
    var k := AfterMoves(cfg, warned, moves, job);
    DoomedIsNotPooled(cfg, k, job, r);
    if r in k.world.sys.live.resources {
      DoomedReportsFailed(cfg, k, job, r, keys, read);
    }
  }
}
