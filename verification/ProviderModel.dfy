/**
 * The provider's bookkeeping (parsl_ephemeral_provider/provider.py): the tracked resources, the
 * job map and the operating mode's warm list, with each public operation as a function of the
 * state before it and of what AWS and the clock answered.
 */
module ProviderModel {
  import opened Collections

  type ResourceId = string
  type JobId = string

  datatype Status = Pending | Running | Completed | Failed | Canceled | Interrupted | Warm | Unknown

  /** Parsl's view of a job. */
  datatype JobState = JobPending | JobRunning | JobCompleted | JobFailed | JobCancelled | JobUnknown

  function ToJobState(s: Status): JobState {
    match s
    case Pending => JobPending
    case Running => JobRunning
    case Completed => JobCompleted
    case Failed => JobFailed
    case Canceled => JobCancelled
    case Interrupted => JobFailed
    case Warm => JobRunning
    case Unknown => JobUnknown
  }

  predicate Terminal(s: Status) {
    s.Completed? || s.Failed? || s.Canceled? || s.Interrupted?
  }

  datatype Resource = Resource(jobId: JobId, status: Status, warmPool: bool, warmSince: real)
  datatype JobRecord = JobRecord(resourceId: ResourceId, status: Status)
  datatype Config = Config(maxBlocks: nat, warmPoolSize: nat, warmPoolTtl: real, oneShot: bool)

  /** `order` is the insertion order of the `resources` dictionary, which its iteration follows. */
  datatype ProviderState = ProviderState(
    order: seq<ResourceId>,
    resources: map<ResourceId, Resource>,
    jobMap: map<JobId, JobRecord>,
    warm: seq<ResourceId>)

  /**
   * The live state, the provider's own document in the state store, and the warm list in the
   * operating mode's document.
   */
  datatype System = System(live: ProviderState, saved: Option<ProviderState>, listed: Option<seq<ResourceId>>)

  const EMPTY := ProviderState([], map[], map[], [])

  /** Whether the provider's save and the mode's save of one operation go through. */
  datatype Saves = Saves(provider: bool, mode: bool)

  const BOTH := Saves(true, true)

  function SaveProvider(s: System, ok: bool): System {
    if ok then s.(saved := Some(s.live)) else s
  }

  /** Every document the mode saves holds its warm list of that moment. */
  function SaveMode(s: System, ok: bool): System {
    if ok then s.(listed := Some(s.live.warm)) else s
  }

  function Save(s: System, saves: Saves): System {
    SaveProvider(SaveMode(s, saves.mode), saves.provider)
  }

  // ---------------------------------------------------------------- submit

  /** What the operating mode did with a submit. A reuse takes the head of the warm list. */
  datatype Launch = Fresh(id: ResourceId) | Reused | ReuseFailed | LaunchFailed

  datatype SubmitResult = Submitted(jobId: JobId) | AtMaxBlocks | SubmitFailed

  predicate LaunchPossible(cfg: Config, st: ProviderState, launch: Launch) {
    (launch.Reused? || launch.ReuseFailed?) ==> cfg.warmPoolSize > 0 && st.warm != []
  }

  function Record(cfg: Config, st: ProviderState, jobId: JobId, id: ResourceId): ProviderState {
    st.(order := if id in st.resources then st.order else st.order + [id],
        resources := st.resources[id := Resource(jobId, Pending, cfg.warmPoolSize > 0, 0.0)],
        jobMap := st.jobMap[jobId := JobRecord(id, Pending)])
  }

  function AfterLaunch(cfg: Config, st: ProviderState, jobId: JobId, launch: Launch): ProviderState
    requires LaunchPossible(cfg, st, launch)
  {
    match launch
    case Fresh(id) => Record(cfg, st, jobId, id)
    case Reused => Record(cfg, st.(warm := st.warm[1..]), jobId, st.warm[0])
    case ReuseFailed => st.(warm := st.warm[1..])
    case LaunchFailed => st
  }

  /** The mode saves before it returns, and also when a launched instance never took its command. */
  function SubmitStep(cfg: Config, s: System, jobId: JobId, launch: Launch, saves: Saves): (System, SubmitResult)
    requires LaunchPossible(cfg, s.live, launch)
  {
    if |s.live.order| >= cfg.maxBlocks then (s, AtMaxBlocks)
    else
      var t := s.(live := AfterLaunch(cfg, s.live, jobId, launch));
      match launch
      case Fresh(_) => (Save(t, saves), Submitted(jobId))
      case Reused => (Save(t, saves), Submitted(jobId))
      case ReuseFailed => (t, SubmitFailed)
      case LaunchFailed => (SaveMode(t, saves.mode), SubmitFailed)
  }

  /**
   * A submission is reported as one exactly when its job is in the job map afterwards, PENDING on the
   * new instance or the head of the warm list, and it is when there was room and the mode dispatched.
   */
  lemma SubmittedIff(cfg: Config, s: System, jobId: JobId, launch: Launch, saves: Saves)
    requires LaunchPossible(cfg, s.live, launch) && jobId !in s.live.jobMap
    ensures var (t, result) := SubmitStep(cfg, s, jobId, launch, saves);
            && (result == Submitted(jobId) <==> jobId in t.live.jobMap)
            && (result == Submitted(jobId) <==> |s.live.order| < cfg.maxBlocks && (launch.Fresh? || launch.Reused?))
            && (result == AtMaxBlocks <==> |s.live.order| >= cfg.maxBlocks)
            && (jobId in t.live.jobMap ==>
                  var id := if launch.Fresh? then launch.id else s.live.warm[0];
                  && t.live.order == (if id in s.live.resources then s.live.order else s.live.order + [id])
                  && t.live.jobMap == s.live.jobMap[jobId := JobRecord(id, Pending)]
                  && t.live.resources == s.live.resources[id := Resource(jobId, Pending, cfg.warmPoolSize > 0, 0.0)])
            && (jobId !in t.live.jobMap ==> t.live.jobMap == s.live.jobMap && t.live.resources == s.live.resources)
  {
  }

  /**
   * Trying to reuse the head takes it off the warm list even when that fails, and nothing else touches
   * the list. A failed reuse saves nothing; a failed launch reaches the mode's document at most.
   */
  lemma SubmitTakesHead(cfg: Config, s: System, jobId: JobId, launch: Launch, saves: Saves)
    requires LaunchPossible(cfg, s.live, launch) && |s.live.order| < cfg.maxBlocks
    ensures var (t, result) := SubmitStep(cfg, s, jobId, launch, saves);
            && (if launch.Reused? || launch.ReuseFailed? then [s.live.warm[0]] + t.live.warm == s.live.warm
                else t.live.warm == s.live.warm)
            && (t.saved == if result.Submitted? && saves.provider then Some(t.live) else s.saved)
            && (t.listed == if !launch.ReuseFailed? && saves.mode then Some(t.live.warm) else s.listed)
  {
  }

  // ---------------------------------------------------------------- polling and cancelling

  /** An answer of the operating mode to a poll or a cancellation. */
  datatype ModeAnswer = Raised | Answered(statuses: map<ResourceId, Status>)

  /** The jobs among `keys` that a poll asks about. */
  ghost function Polled(st: ProviderState, keys: seq<Option<JobId>>): set<JobId> {
    set j | j in st.jobMap && Some(j) in keys && !Terminal(st.jobMap[j].status)
  }

  /** The jobs among `keys` that a cancellation asks about. */
  ghost function Known(st: ProviderState, keys: seq<Option<JobId>>): set<JobId> {
    set j | j in st.jobMap && Some(j) in keys
  }

  ghost function PointedAt(st: ProviderState, jobs: set<JobId>): set<ResourceId> {
    set j | j in jobs && j in st.jobMap :: st.jobMap[j].resourceId
  }

  /** Every answered resource of `jobs` gets its answer, in both maps; nothing else changes. */
  ghost function WriteBack(st: ProviderState, jobs: set<JobId>, statuses: map<ResourceId, Status>): ProviderState {
    st.(jobMap := map j | j in st.jobMap ::
          (if j in jobs && st.jobMap[j].resourceId in statuses
           then st.jobMap[j].(status := statuses[st.jobMap[j].resourceId]) else st.jobMap[j]),
        resources := map r | r in st.resources ::
          (if r in statuses && r in PointedAt(st, jobs)
           then st.resources[r].(status := statuses[r]) else st.resources[r]))
  }

  /** What `status` reports for one key, given the state it started from. */
  function Report(st: ProviderState, key: Option<JobId>, answer: ModeAnswer): Status {
    if key.None? || key.value !in st.jobMap then Unknown
    else
      var job := st.jobMap[key.value];
      if Terminal(job.status) then job.status
      else if answer.Raised? then Unknown
      else if job.resourceId in answer.statuses then answer.statuses[job.resourceId]
      else Completed
  }

  /** What `cancel` reports for one key, given the state it started from. */
  predicate CancelReport(st: ProviderState, key: Option<JobId>, answer: ModeAnswer) {
    && key.Some? && key.value in st.jobMap && answer.Answered?
    && st.jobMap[key.value].resourceId in answer.statuses
    && !answer.statuses[st.jobMap[key.value].resourceId].Unknown?
  }

  /** With nothing to poll the mode is not called at all, so it cannot raise. */
  ghost function Effective(st: ProviderState, keys: seq<Option<JobId>>, answer: ModeAnswer): ModeAnswer {
    if Polled(st, keys) == {} then Answered(map[]) else answer
  }

  /** The mode saves at the end of a poll it was called for. */
  ghost function PollStep(s: System, keys: seq<Option<JobId>>, answer: ModeAnswer, saves: Saves): System {
    match Effective(s.live, keys, answer)
    case Raised => s
    case Answered(statuses) =>
      var t := SaveMode(s, saves.mode && Polled(s.live, keys) != {});
      SaveProvider(t.(live := WriteBack(s.live, Polled(s.live, keys), statuses)), saves.provider)
  }

  /** How Parsl is told a status: each state stands for exactly these. */
  ghost predicate Tells(state: JobState, status: Status) {
    && (state.JobPending? <==> status.Pending?)
    && (state.JobRunning? <==> status.Running? || status.Warm?)
    && (state.JobCompleted? <==> status.Completed?)
    && (state.JobFailed? <==> status.Failed? || status.Interrupted?)
    && (state.JobCancelled? <==> status.Canceled?)
    && (state.JobUnknown? <==> status.Unknown?)
  }

  /**
   * What a status call answers for one key. A job that was over is answered from its record. For any
   * other, a mode that raises leaves it unknown; a mode that names its resource has it answered by
   * what the call writes into its record; and one whose resource is no longer named is done.
   */
  ghost predicate Answers(s: System, keys: seq<Option<JobId>>, answer: ModeAnswer, saves: Saves, key: Option<JobId>,
          state: JobState)
  {
    if key.None? || key.value !in s.live.jobMap then state.JobUnknown?
    else
      var job := s.live.jobMap[key.value];
      var polled := PollStep(s, keys, answer, saves).live;
      if job.status.Completed? || job.status.Failed? || job.status.Canceled? || job.status.Interrupted?
      then Tells(state, job.status)
      else if answer.Raised? then state.JobUnknown?
      else if job.resourceId in answer.statuses
      then key.value in polled.jobMap && Tells(state, polled.jobMap[key.value].status)
      else state.JobCompleted?
  }

  lemma ReportAnswers(s: System, keys: seq<Option<JobId>>, answer: ModeAnswer, saves: Saves, key: Option<JobId>)
    requires key in keys
    ensures Answers(s, keys, answer, saves, key, ToJobState(Report(s.live, key, Effective(s.live, keys, answer))))
  {
    if key.Some? && key.value in s.live.jobMap && !Terminal(s.live.jobMap[key.value].status) {
      assert key.value in Polled(s.live, keys);
    }
  }

  /** The record an answered poll leaves of a job it asked about: the status the mode named, if any. */
  lemma PollWrites(s: System, keys: seq<Option<JobId>>, answer: ModeAnswer, saves: Saves, j: JobId)
    requires answer.Answered? && j in s.live.jobMap && Some(j) in keys && !Terminal(s.live.jobMap[j].status)
    ensures var job, t := s.live.jobMap[j], PollStep(s, keys, answer, saves).live;
            && j in t.jobMap && t.jobMap[j].resourceId == job.resourceId
            && t.jobMap[j].status == (if job.resourceId in answer.statuses then answer.statuses[job.resourceId]
                                      else job.status)
  {
    assert j in Polled(s.live, keys);
  }

  ghost function StatusStep(cfg: Config, s: System, keys: seq<Option<JobId>>, answer: ModeAnswer, saves: Saves,
          run: CleanupRun): System
    requires PoolSizable(cfg, s.live)
  {
    var polled := PollStep(s, keys, answer, saves);
    if cfg.warmPoolSize > 0 || cfg.oneShot then CleanupStep(cfg, polled, run) else polled
  }

  /** A cancellation up to its clean-up pass. */
  ghost function CancelWrites(s: System, keys: seq<Option<JobId>>, statuses: map<ResourceId, Status>,
          modeOk: bool): System {
    var t := SaveMode(s, modeOk && Known(s.live, keys) != {});
    t.(live := WriteBack(s.live, Known(s.live, keys), statuses))
  }

  /**
   * What a cancellation answers for one key: true exactly when the mode named its resource and what
   * the call writes into its record is not UNKNOWN.
   */
  ghost predicate Accepts(s: System, keys: seq<Option<JobId>>, answer: ModeAnswer, key: Option<JobId>, flag: bool) {
    flag <==>
      && answer.Answered? && key.Some? && key.value in s.live.jobMap
      && s.live.jobMap[key.value].resourceId in answer.statuses
      && var written := CancelWrites(s, keys, answer.statuses, true).live.jobMap;
         key.value in written && written[key.value].status != Unknown
  }

  lemma ReportAccepts(s: System, keys: seq<Option<JobId>>, answer: ModeAnswer, key: Option<JobId>)
    requires key in keys
    ensures Accepts(s, keys, answer, key, CancelReport(s.live, key, answer))
  {
    if answer.Answered? && key.Some? && key.value in s.live.jobMap {
      assert key.value in Known(s.live, keys);
    }
  }

  ghost function CancelStep(cfg: Config, s: System, keys: seq<Option<JobId>>, answer: ModeAnswer, run: CleanupRun,
          saves: Saves): System
    requires PoolSizable(cfg, s.live)
  {
    match answer
    case Raised => s
    case Answered(statuses) =>
      SaveProvider(CleanupStep(cfg, CancelWrites(s, keys, statuses, saves.mode), run), saves.provider)
  }

  /** The first `blocks` RUNNING resources, in dictionary order. */
  function RunningIds(st: ProviderState, order: seq<ResourceId>): (r: seq<ResourceId>)
    ensures forall x :: x in r <==> x in order && x in st.resources && st.resources[x].status.Running?
  {
    if order == [] then []
    else
      var rest := RunningIds(st, order[1..]);
      if order[0] in st.resources && st.resources[order[0]].status.Running? then [order[0]] + rest else rest
  }

  lemma {:induction false} RunningIdsSnoc(st: ProviderState, s: seq<ResourceId>, x: ResourceId)
    ensures RunningIds(st, s + [x]) == RunningIds(st, s) + RunningIds(st, [x])
  {
    if s == [] {
      assert s + [x] == [x];
    } else {
      assert (s + [x])[1..] == s[1..] + [x];
      RunningIdsSnoc(st, s[1..], x);
    }
  }

  function Victims(st: ProviderState, blocks: nat): seq<JobId> {
    var running := RunningIds(st, st.order);
    var chosen := if |running| < blocks then running else running[..blocks];
    seq(|chosen|, i requires 0 <= i < |chosen| =>
      assert chosen[i] in running; st.resources[chosen[i]].jobId)
  }

  function Keys(jobs: seq<JobId>): seq<Option<JobId>> {
    seq(|jobs|, i requires 0 <= i < |jobs| => Some(jobs[i]))
  }

  ghost function ScaleInStep(cfg: Config, s: System, blocks: int, answer: ModeAnswer, run: CleanupRun,
          saves: Saves): System
    requires PoolSizable(cfg, s.live)
  {
    if blocks <= 0 then s
    else CancelStep(cfg, s, Keys(Victims(s.live, blocks)), answer, run, saves)
  }

  // ---------------------------------------------------------------- clean-up

  /**
   * What one clean-up pass meets: the clock reading taken at each position of the scan, the one
   * taken at each promotion, whether the termination call returns and whether the saves go through.
   */
  datatype CleanupRun = CleanupRun(scan: nat -> real, promote: nat -> real, terminated: bool, saves: Saves)

  datatype Verdict = Leave | Reap | Promote

  function Judge(r: Resource, now: real, ttl: real): Verdict {
    if r.warmPool then
      match r.status
      case Warm => if now - r.warmSince > ttl then Reap else Leave
      case Completed => Promote
      case Failed => Reap
      case Canceled => Reap
      case Interrupted => Reap
      case _ => Leave
    else if Terminal(r.status) then Reap
    else Leave
  }

  /** The scanned resources, among the first `n`, that get verdict `v`. */
  function Judged(st: ProviderState, scan: nat -> real, ttl: real, v: Verdict, n: nat): (r: seq<ResourceId>)
    requires n <= |st.order|
    ensures forall x :: x in r ==> x in st.order[..n] && x in st.resources
  {
    if n == 0 then []
    else
      var rest := Judged(st, scan, ttl, v, n - 1);
      var id := st.order[n - 1];
      if id in st.resources && Judge(st.resources[id], scan(n - 1), ttl) == v then rest + [id] else rest
  }

  /** The pool while promotions are under way: `current` counts every WARM resource. */
  datatype Pool = Pool(
    resources: map<ResourceId, Resource>, current: seq<ResourceId>, warm: seq<ResourceId>, reaped: seq<ResourceId>)

  function SinceOf(resources: map<ResourceId, Resource>, id: ResourceId): real {
    if id in resources then resources[id].warmSince else 0.0
  }

  /** Python's `min` by `warm_since`: the first of the least. */
  function Oldest(resources: map<ResourceId, Resource>, s: seq<ResourceId>): (r: ResourceId)
    requires s != []
    ensures r in s
    ensures forall x :: x in s ==> SinceOf(resources, r) <= SinceOf(resources, x)
  {
    if |s| == 1 then s[0]
    else
      var rest := Oldest(resources, s[1..]);
      if SinceOf(resources, s[0]) <= SinceOf(resources, rest) then s[0] else rest
  }

  function Evict(p: Pool): Pool
    requires p.current != []
  {
    var victim := Oldest(p.resources, p.current);
    p.(current := RemoveFirst(p.current, victim), warm := RemoveFirst(p.warm, victim), reaped := p.reaped + [victim])
  }

  function Admit(p: Pool, id: ResourceId, now: real): Pool
    requires id in p.resources
  {
    p.(resources := p.resources[id := p.resources[id].(status := Warm, warmSince := now)],
       current := p.current + [id],
       warm := p.warm + [id])
  }

  function PromoteOne(size: nat, p: Pool, id: ResourceId, now: real): Pool
    requires id in p.resources
    requires |p.current| < size || p.current != []
  {
    Admit(if |p.current| < size then p else Evict(p), id, now)
  }

  function PromoteAll(size: nat, p: Pool, ids: seq<ResourceId>, promote: nat -> real, n: nat): (q: Pool)
    requires n <= |ids| && (n > 0 ==> size > 0)
    requires forall id :: id in ids ==> id in p.resources
    ensures q.resources.Keys == p.resources.Keys
  {
    if n == 0 then p
    else
      assert ids[n - 1] in ids;
      PromoteOne(size, PromoteAll(size, p, ids, promote, n - 1), ids[n - 1], promote(n - 1))
  }

  predicate Pooled(resources: map<ResourceId, Resource>, id: ResourceId) {
    id in resources && resources[id].warmPool && resources[id].status.Warm?
  }

  /** The resources the promotion phase starts counting from. */
  function WarmNow(resources: map<ResourceId, Resource>, order: seq<ResourceId>): (r: seq<ResourceId>)
    ensures forall x :: x in r <==> x in order && Pooled(resources, x)
  {
    if order == [] then []
    else if Pooled(resources, order[0]) then [order[0]] + WarmNow(resources, order[1..])
    else WarmNow(resources, order[1..])
  }

  /** The warm list without the pooled resources among the first `n` reaped ones. */
  function Unlist(resources: map<ResourceId, Resource>, warm: seq<ResourceId>, reaped: seq<ResourceId>,
          n: nat): seq<ResourceId>
    requires n <= |reaped|
  {
    if n == 0 then warm
    else
      var rest := Unlist(resources, warm, reaped, n - 1);
      if Pooled(resources, reaped[n - 1]) then RemoveFirst(rest, reaped[n - 1]) else rest
  }

  /** Drops the records of `gone` and of the jobs that own them. */
  ghost function Forget(st: ProviderState, gone: set<ResourceId>): ProviderState {
    st.(order := Without(st.order, gone),
        resources := st.resources - gone,
        jobMap := st.jobMap - OwnersOf(st.resources, gone))
  }

  ghost function OwnersOf(resources: map<ResourceId, Resource>, ids: set<ResourceId>): set<JobId> {
    set r | r in resources && r in ids :: resources[r].jobId
  }

  /** The constructor guards make this true of a fresh provider; a pool of size 0 holds nothing. */
  ghost predicate PoolSizable(cfg: Config, st: ProviderState) {
    cfg.warmPoolSize == 0 ==> forall r :: r in st.resources ==> !st.resources[r].warmPool
  }

  ghost predicate Scannable(cfg: Config, st: ProviderState) {
    && PoolSizable(cfg, st)
    && (forall id :: id in st.order ==> id in st.resources)
  }

  lemma NothingToPromote(cfg: Config, st: ProviderState, run: CleanupRun, n: nat)
    requires PoolSizable(cfg, st) && n <= |st.order|
    ensures cfg.warmPoolSize == 0 ==> Judged(st, run.scan, cfg.warmPoolTtl, Promote, n) == []
  {
  }

  /** The pool as the promotion phase finds it. */
  function StartPool(cfg: Config, st: ProviderState, run: CleanupRun): Pool {
    Pool(st.resources, WarmNow(st.resources, st.order), st.warm,
      Judged(st, run.scan, cfg.warmPoolTtl, Reap, |st.order|))
  }

  /** The pool after every promotion, before anything is terminated. */
  ghost function PoolAfter(cfg: Config, st: ProviderState, run: CleanupRun): (p: Pool)
    requires PoolSizable(cfg, st)
    ensures p.resources.Keys == st.resources.Keys
  {
    NothingToPromote(cfg, st, run, |st.order|);
    var ids := Judged(st, run.scan, cfg.warmPoolTtl, Promote, |st.order|);
    PromoteAll(cfg.warmPoolSize, StartPool(cfg, st, run), ids, run.promote, |ids|)
  }

  ghost function Cleanup(cfg: Config, st: ProviderState, run: CleanupRun): ProviderState
    requires PoolSizable(cfg, st)
  {
    var p := PoolAfter(cfg, st, run);
    var settled := st.(resources := p.resources, warm := Unlist(p.resources, p.warm, p.reaped, |p.reaped|));
    if run.terminated then Forget(settled, Elems(p.reaped)) else settled
  }

  ghost predicate Dirty(cfg: Config, st: ProviderState, run: CleanupRun)
    requires PoolSizable(cfg, st)
  {
    || Judged(st, run.scan, cfg.warmPoolTtl, Promote, |st.order|) != []
    || (run.terminated && PoolAfter(cfg, st, run).reaped != [])
  }

  ghost function CleanupStep(cfg: Config, s: System, run: CleanupRun): System
    requires PoolSizable(cfg, s.live)
  {
    var t := s.(live := Cleanup(cfg, s.live, run));
    if Dirty(cfg, s.live, run) then Save(t, run.saves) else t
  }

  lemma ForgetNothing(st: ProviderState)
    ensures Forget(st, Elems([])) == st
  {
    WithoutNothing(st.order);
    var none: seq<ResourceId> := [];
    assert Elems(none) == {};
    assert OwnersOf(st.resources, {}) == {};
    assert st.resources - {} == st.resources;
    assert st.jobMap - {} == st.jobMap;
  }

  // ---------------------------------------------------------------- restart

  /**
   * A successor on the same store restores the provider's document, and then its mode puts the warm
   * list of its own document in place. Without one the mode keeps the provider's list and saves it.
   */
  function RestartStep(s: System, modeOk: bool): System {
    var restored := if s.saved.Some? then s.saved.value else EMPTY;
    if s.listed.Some? then s.(live := restored.(warm := s.listed.value))
    else SaveMode(s.(live := restored), modeOk)
  }
}
