/**
 * Detached mode (parsl_ephemeral_provider/modes/detached.py): a client and a bastion that talk
 * through SSM parameters either side may overwrite. Every parameter access and every EC2 call is
 * one step, and the steps of the two sides interleave freely.
 */
module DetachedProtocol {
  import opened Collections

  type JobId = string
  type InstanceId = string
  type FleetId = string

  datatype DocStatus = Pending | Submitting | Running | Completed | Failed | Canceled | Unknown

  /** A `status/<id>` parameter. `all` is empty when the document has no `all_instance_ids`. */
  datatype StatusDoc = StatusDoc(
    status: DocStatus, instance: Option<InstanceId>, fleet: Option<FleetId>, all: seq<InstanceId>)

  function Bare(status: DocStatus): StatusDoc {
    StatusDoc(status, None, None, [])
  }

  predicate Launchable(s: DocStatus) {
    s.Pending? || s.Submitting?
  }

  predicate Over(s: DocStatus) {
    s.Completed? || s.Failed? || s.Canceled?
  }

  /** A job the bastion may launch: without a status document, or with one that says so. */
  predicate PendingIn(docs: map<JobId, StatusDoc>, j: JobId) {
    j !in docs || Launchable(docs[j].status)
  }

  /** The parameters one function of the bastion works on. */
  class ParameterStore {
    var docs: map<JobId, StatusDoc>
    var cancel: Option<seq<JobId>>

    constructor (docs: map<JobId, StatusDoc>, cancel: Option<seq<JobId>>)
      ensures this.docs == docs && this.cancel == cancel
    {
      this.docs, this.cancel := docs, cancel;
    }
  }

  /** What EC2 has launched, and for which job. */
  datatype Cloud = Cloud(solo: map<InstanceId, JobId>, fleets: map<FleetId, (JobId, seq<InstanceId>)>)

  /** A write of the bastion's status update that is still to be made. */
  datatype Write = Write(job: JobId, doc: StatusDoc)

  /** What one launch attempt came to, and with it what the bastion reports next. */
  datatype Outcome =
    | Instance(id: InstanceId)
    | Fleet(fleetId: FleetId, ids: seq<InstanceId>)
    | EmptyFleet(emptyId: FleetId)
    | LaunchError

  predicate Launched(o: Outcome) {
    o.Instance? || o.Fleet?
  }

  function ReportOf(o: Outcome): StatusDoc {
    match o
    case Instance(id) => StatusDoc(Running, Some(id), None, [])
    case Fleet(f, ids) => StatusDoc(Running, if ids == [] then None else Some(ids[0]), Some(f), ids)
    case EmptyFleet(f) => StatusDoc(Failed, None, Some(f), [])
    case LaunchError => Bare(Failed)
  }

  /** Where the bastion's loop is, with its local lists. */
  datatype Pc =
    | Top
    | Polling(running: seq<Write>)
    | Updating(writes: seq<Write>)
    | Cancelling(named: seq<JobId>)
    | WritingCancel(write: Write, restNamed: seq<JobId>)
    | Scanning(seen: set<JobId>, page: seq<JobId>, found: seq<JobId>)
    | ToMark(queue: seq<JobId>)
    | ToLaunch(job: JobId, queue: seq<JobId>)
    | ToReport(job: JobId, outcome: Outcome, queue: seq<JobId>)
    | Reported(job: JobId, queue: seq<JobId>)

  datatype State = State(
    jobs: set<JobId>,
    docs: map<JobId, StatusDoc>,
    cancel: Option<seq<JobId>>,
    cloud: Cloud,
    submitted: set<JobId>,
    halfway: set<JobId>,
    deleting: set<JobId>,
    pc: Pc)

  const START := State({}, map[], None, Cloud(map[], map[]), {}, {}, {}, Top)

  type FleetStatuses = map<FleetId, DocStatus>
  type InstanceStatuses = map<InstanceId, DocStatus>

  datatype Step =
    // The client: submit_job writes two parameters, cleanup_resources deletes the same two.
    | ClientPutJob(j: JobId)
    | ClientPutStatus(j: JobId)
    | ClientPutFails(j: JobId)
    | ClientCancel(js: seq<JobId>)
    | ClientDeleteJob(j: JobId)
    | ClientDeleteStatus(j: JobId)
    // The bastion, phase by phase.
    | BeginPoll
    | PollRead(j: JobId)
    | PollAnswers(fleetStatuses: FleetStatuses, instanceStatuses: InstanceStatuses)
    | PollFails
    | Update(updateLost: bool)
    | UpdatesDone
    | CancelRead(named: seq<JobId>)
    | CancelJobRead
    | CancelWrite(cancelLost: bool)
    | CancelDone(deleted: bool)
    | ScanPage(js: seq<JobId>)
    | ScanCheck
    | ScanDone
    | ScanFails
    | Mark(markLost: bool)
    | Launch(outcome: Outcome)
    | Report(reportLost: bool)
    | ReportFailure(failureLost: bool)
    | NextJob
    | IterationDone
    | Abort

  // ---------------------------------------------------------------- update_running_job_status

  /** The documents one RUNNING job gets, given what EC2 said about its fleet and its instance. */
  function UpdateWrites(w: Write, fleetStatuses: FleetStatuses, instanceStatuses: InstanceStatuses): seq<Write> {
    var doc := w.doc;
    if doc.fleet.Some? then
      var fleetWrites :=
        if doc.fleet.value in fleetStatuses && fleetStatuses[doc.fleet.value] != Running
        then [Write(w.job, doc.(status := fleetStatuses[doc.fleet.value]))] else [];
      var instanceWrites :=
        if doc.instance.Some? && doc.instance.value in instanceStatuses &&
          instanceStatuses[doc.instance.value] != Running
           && !(doc.fleet.value in fleetStatuses && fleetStatuses[doc.fleet.value] == Running)
        then [Write(w.job, doc.(status := instanceStatuses[doc.instance.value]))] else [];
      fleetWrites + instanceWrites
    else if doc.instance.Some? && doc.instance.value in instanceStatuses &&
      instanceStatuses[doc.instance.value] != Running
    then [Write(w.job, doc.(status := instanceStatuses[doc.instance.value]))] else []
  }

  function UpdateQueue(running: seq<Write>, fleetStatuses: FleetStatuses,
          instanceStatuses: InstanceStatuses): seq<Write> {
    if running == [] then []
    else
      UpdateWrites(running[0], fleetStatuses, instanceStatuses)
      + UpdateQueue(running[1..], fleetStatuses, instanceStatuses)
  }

  /** EC2's fleet and instance states never map to SUBMITTING, and no instance maps to FAILED. */
  ghost predicate Ec2Says(fleetStatuses: FleetStatuses, instanceStatuses: InstanceStatuses) {
    && (forall f :: f in fleetStatuses ==> !fleetStatuses[f].Submitting?)
    && (forall i :: i in instanceStatuses ==> !instanceStatuses[i].Submitting? && !instanceStatuses[i].Failed?)
  }

  // ---------------------------------------------------------------- steps

  predicate IsClient(step: Step) {
    step.ClientPutJob? || step.ClientPutStatus? || step.ClientPutFails? || step.ClientCancel? ||
      step.ClientDeleteJob? || step.ClientDeleteStatus?
  }

  predicate InUpdate(step: Step) {
    step.BeginPoll? || step.PollRead? || step.PollAnswers? || step.PollFails? || step.Update? || step.UpdatesDone?
  }

  predicate InCancel(step: Step) {
    step.CancelRead? || step.CancelJobRead? || step.CancelWrite? || step.CancelDone?
  }

  predicate InScan(step: Step) {
    step.ScanPage? || step.ScanCheck? || step.ScanDone? || step.ScanFails?
  }

  ghost predicate FreshLaunch(c: Cloud, o: Outcome) {
    match o
    case Instance(id) => id !in c.solo && forall f :: f in c.fleets ==> id !in c.fleets[f].1
    case Fleet(f, ids) =>
      && f !in c.fleets && ids != [] && NoDup(ids)
      && (forall i :: i in ids ==> i !in c.solo)
      && (forall g :: g in c.fleets ==> forall i :: i in ids ==> i !in c.fleets[g].1)
    case EmptyFleet(f) => f !in c.fleets
    case LaunchError => true
  }

  ghost predicate Enabled(s: State, step: Step) {
    match step
    case ClientPutJob(j) => j !in s.submitted
    case ClientPutStatus(j) => j in s.halfway
    case ClientPutFails(j) => j in s.halfway
    case ClientCancel(js) => true
    case ClientDeleteJob(j) => j in s.jobs
    case ClientDeleteStatus(j) => j in s.deleting
    case BeginPoll => s.pc.Top?
    case PollRead(j) =>
      s.pc.Polling? && j in s.docs && s.docs[j].status.Running? && forall w :: w in s.pc.running ==> w.job != j
    case PollAnswers(fs, ins) => s.pc.Polling? && Ec2Says(fs, ins)
    case PollFails => s.pc.Polling? || s.pc.Updating?
    case Update(_) => s.pc.Updating? && s.pc.writes != []
    case UpdatesDone => s.pc.Updating? && s.pc.writes == []
    case CancelRead(named) => s.pc.Cancelling? && s.pc.named == [] && s.cancel == Some(named)
    case CancelJobRead => s.pc.Cancelling? && s.pc.named != []
    case CancelWrite(_) => s.pc.WritingCancel?
    case CancelDone(_) => s.pc.Cancelling?
    case ScanPage(js) => s.pc.Scanning? && NoDup(js) && forall j :: j in js ==> j in s.jobs && j !in s.pc.seen
    case ScanCheck => s.pc.Scanning? && s.pc.page != []
    case ScanDone => s.pc.Scanning? && s.pc.page == []
    case ScanFails => s.pc.Scanning?
    case Mark(_) => s.pc.ToMark? && s.pc.queue != []
    case Launch(o) => s.pc.ToLaunch? && FreshLaunch(s.cloud, o)
    case Report(_) => s.pc.ToReport?
    case ReportFailure(_) => s.pc.Reported?
    case NextJob => s.pc.Reported?
    case IterationDone => s.pc.ToMark? && s.pc.queue == []
    case Abort => !s.pc.Top?
  }

  function Put(docs: map<JobId, StatusDoc>, j: JobId, doc: StatusDoc, lost: bool): map<JobId, StatusDoc> {
    if lost then docs else docs[j := doc]
  }

  function Grown(c: Cloud, j: JobId, o: Outcome): Cloud {
    match o
    case Instance(id) => c.(solo := c.solo[id := j])
    case Fleet(f, ids) => c.(fleets := c.fleets[f := (j, ids)])
    case EmptyFleet(f) => c.(fleets := c.fleets[f := (j, [])])
    case LaunchError => c
  }

  ghost function Next(s: State, step: Step): State
    requires Enabled(s, step)
  {
    match step
    case ClientPutJob(j) => s.(jobs := s.jobs + {j}, submitted := s.submitted + {j}, halfway := s.halfway + {j})
    case ClientPutStatus(j) => s.(docs := s.docs[j := Bare(Pending)], halfway := s.halfway - {j})
    case ClientPutFails(j) => s.(halfway := s.halfway - {j})
    case ClientCancel(js) => s.(cancel := Some(js))
    case ClientDeleteJob(j) => s.(jobs := s.jobs - {j}, deleting := s.deleting + {j})
    case ClientDeleteStatus(j) => s.(docs := s.docs - {j}, deleting := s.deleting - {j})
    case BeginPoll => s.(pc := Polling([]))
    case PollRead(j) => s.(pc := Polling(s.pc.running + [Write(j, s.docs[j])]))
    case PollAnswers(fs, ins) => s.(pc := Updating(UpdateQueue(s.pc.running, fs, ins)))
    case PollFails => s.(pc := Cancelling([]))
    case Update(lost) => s.(docs := Put(s.docs, s.pc.writes[0].job, s.pc.writes[0].doc, lost),
      pc := Updating(s.pc.writes[1..]))
    case UpdatesDone => s.(pc := Cancelling([]))
    case CancelRead(named) => s.(pc := Cancelling(named))
    case CancelJobRead =>
      var j, rest := s.pc.named[0], s.pc.named[1..];
      if j in s.docs && (s.docs[j].fleet.Some? || s.docs[j].instance.Some?)
      then s.(pc := WritingCancel(Write(j, s.docs[j].(status := Canceled)), rest)) else s.(pc := Cancelling(rest))
    case CancelWrite(lost) => s.(docs := Put(s.docs, s.pc.write.job, s.pc.write.doc, lost),
      pc := Cancelling(s.pc.restNamed))
    case CancelDone(deleted) => s.(cancel := if deleted then None else s.cancel, pc := Scanning({}, [], []))
    case ScanPage(js) => s.(pc := Scanning(s.pc.seen + Elems(js), s.pc.page + js, s.pc.found))
    case ScanCheck =>
      var j := s.pc.page[0];
      s.(pc := Scanning(s.pc.seen, s.pc.page[1..], if PendingIn(s.docs, j) then s.pc.found + [j] else s.pc.found))
    case ScanDone => s.(pc := ToMark(s.pc.found))
    case ScanFails => s.(pc := ToMark([]))
    case Mark(lost) => s.(docs := Put(s.docs, s.pc.queue[0], Bare(Submitting), lost),
      pc := ToLaunch(s.pc.queue[0], s.pc.queue[1..]))
    case Launch(o) => s.(cloud := Grown(s.cloud, s.pc.job, o), pc := ToReport(s.pc.job, o, s.pc.queue))
    case Report(lost) => s.(docs := Put(s.docs, s.pc.job, ReportOf(s.pc.outcome), lost),
      pc := Reported(s.pc.job, s.pc.queue))
    case ReportFailure(lost) => s.(docs := Put(s.docs, s.pc.job, Bare(Failed), lost), pc := ToMark(s.pc.queue))
    case NextJob => s.(pc := ToMark(s.pc.queue))
    case IterationDone => s.(pc := Top)
    case Abort => s.(pc := Top)
  }

  // ---------------------------------------------------------------- runs

  datatype Run = Run(states: seq<State>, steps: seq<Step>)

  ghost predicate IsRun(r: Run) {
    && |r.states| == |r.steps| + 1
    && r.states[0] == START
    && forall i :: 0 <= i < |r.steps| ==>
         Enabled(r.states[i], r.steps[i]) && r.states[i + 1] == Next(r.states[i], r.steps[i])
  }

  /** The bastion's local lists name each job at most once. */
  ghost predicate Distinct(s: State) {
    match s.pc
    case Scanning(seen, page, found) =>
      && NoDup(page) && NoDup(found) && Elems(page) <= seen && Elems(found) <= seen && Elems(page) !! Elems(found)
    case ToMark(queue) => NoDup(queue)
    case ToLaunch(job, queue) => NoDup(queue) && job !in queue
    case ToReport(job, _, queue) => NoDup(queue) && job !in queue
    case Reported(job, queue) => NoDup(queue) && job !in queue
    case _ => true
  }

  ghost predicate DeletesInOrder(s: State) {
    s.jobs <= s.submitted && s.deleting <= s.submitted && s.jobs !! s.deleting
  }

  lemma ScanPageDistinct(seen: set<JobId>, page: seq<JobId>, found: seq<JobId>, js: seq<JobId>)
    requires Distinct(START.(pc := Scanning(seen, page, found)))
    requires NoDup(js) && forall j :: j in js ==> j !in seen
    ensures Distinct(START.(pc := Scanning(seen + Elems(js), page + js, found)))
  {
    forall x | x in page
      ensures x in seen
    {
      assert x in Elems(page);
    }
    NoDupConcat(page, js);
    assert Elems(page + js) == Elems(page) + Elems(js);
  }

  lemma ScanCheckDistinct(seen: set<JobId>, page: seq<JobId>, found: seq<JobId>)
    requires Distinct(START.(pc := Scanning(seen, page, found))) && page != []
    ensures Distinct(START.(pc := Scanning(seen, page[1..], found + [page[0]])))
    ensures Distinct(START.(pc := Scanning(seen, page[1..], found)))
  {
    assert page[0] in Elems(page) && page[0] !in Elems(found);
    assert Elems(page[1..]) <= Elems(page);
    assert page[0] !in page[1..];
  }

  lemma StepKeepsShape(s: State, step: Step)
    requires Distinct(s) && DeletesInOrder(s) && Enabled(s, step)
    ensures Distinct(Next(s, step)) && DeletesInOrder(Next(s, step))
  {
    match step
    case ScanPage(js) => ScanPageDistinct(s.pc.seen, s.pc.page, s.pc.found, js);
    case ScanCheck => ScanCheckDistinct(s.pc.seen, s.pc.page, s.pc.found);
    case Mark(_) => assert s.pc.queue == [s.pc.queue[0]] + s.pc.queue[1..];
    case _ =>
  }

  lemma {:induction false} RunKeepsShape(r: Run, i: nat)
    requires IsRun(r) && i < |r.states|
    ensures Distinct(r.states[i]) && DeletesInOrder(r.states[i])
  {
    if i > 0 {
      RunKeepsShape(r, i - 1);
      StepKeepsShape(r.states[i - 1], r.steps[i - 1]);
    }
  }

  // ---------------------------------------------------------------- at most one launch, causally

  ghost predicate Launches(s: State, step: Step, j: JobId) {
    step.Launch? && s.pc.ToLaunch? && s.pc.job == j && Launched(step.outcome)
  }

  ghost predicate SetsPending(s: State, step: Step, j: JobId) {
    || step == ClientPutStatus(j)
    || (step.Update? && !step.updateLost && s.pc.Updating? && s.pc.writes != [] && s.pc.writes[0].job == j &&
        s.pc.writes[0].doc.status.Pending?)
  }

  ghost predicate DeletesDoc(step: Step, j: JobId) {
    step == ClientDeleteStatus(j)
  }

  /** The write after the launch of `j` fails, or an error or restart skips it. */
  ghost predicate LosesReport(s: State, step: Step, j: JobId) {
    && s.pc.ToReport? && s.pc.job == j && Launched(s.pc.outcome)
    && (step == Report(true) || step == Abort)
  }

  ghost predicate Resets(s: State, step: Step, j: JobId) {
    SetsPending(s, step, j) || DeletesDoc(step, j) || LosesReport(s, step, j)
  }

  /** `j` is in none of the lists the bastion still launches from. */
  ghost predicate Unqueued(pc: Pc, j: JobId) {
    match pc
    case Scanning(_, _, found) => j !in found
    case ToMark(queue) => j !in queue
    case ToLaunch(job, queue) => j != job && j !in queue
    case ToReport(job, _, queue) => j !in queue
    case Reported(job, queue) => j !in queue
    case _ => true
  }

  /** The bastion is about to write what the launch of `j` came to. */
  ghost predicate AboutToReport(pc: Pc, j: JobId) {
    pc.ToReport? && pc.job == j
  }

  /** Since its last launch nothing has reset `j`. */
  ghost predicate Settled(s: State, j: JobId) {
    && Unqueued(s.pc, j)
    && (if AboutToReport(s.pc, j) then Launched(s.pc.outcome) else j in s.docs && !Launchable(s.docs[j].status))
    && (s.pc.Updating? ==> forall w :: w in s.pc.writes ==> !w.doc.status.Submitting?)
    && (s.pc.WritingCancel? ==> s.pc.write.doc.status.Canceled?)
  }

  lemma {:induction false} UpdateQueueNeverSubmits(running: seq<Write>, fs: FleetStatuses, ins: InstanceStatuses)
    requires Ec2Says(fs, ins)
    ensures forall w :: w in UpdateQueue(running, fs, ins) ==> !w.doc.status.Submitting? && !w.doc.status.Running?
  {
    if running != [] {
      UpdateQueueNeverSubmits(running[1..], fs, ins);
    }
  }

  lemma LaunchSettles(s: State, step: Step, j: JobId)
    requires Distinct(s) && Enabled(s, step) && Launches(s, step, j)
    ensures Settled(Next(s, step), j)
  {
  }

  lemma SettledNeverLaunches(s: State, step: Step, j: JobId)
    requires Settled(s, j)
    ensures !Launches(s, step, j)
  {
  }

  lemma ClientKeepsSettled(s: State, step: Step, j: JobId)
    requires IsClient(step)
    requires Distinct(s) && Enabled(s, step) && Settled(s, j) && !Resets(s, step, j)
    ensures Settled(Next(s, step), j)
  {
  }

  lemma UpdateKeepsSettled(s: State, step: Step, j: JobId)
    requires InUpdate(step)
    requires Distinct(s) && Enabled(s, step) && Settled(s, j) && !Resets(s, step, j)
    ensures Settled(Next(s, step), j)
  {
    match step
    case PollAnswers(fs, ins) => UpdateQueueNeverSubmits(s.pc.running, fs, ins);
    case Update(lost) =>
      var w := s.pc.writes[0];
      assert w in s.pc.writes;
      assert forall v :: v in s.pc.writes[1..] ==> v in s.pc.writes;
    case _ =>
  }

  lemma CancelKeepsSettled(s: State, step: Step, j: JobId)
    requires InCancel(step)
    requires Distinct(s) && Enabled(s, step) && Settled(s, j) && !Resets(s, step, j)
    ensures Settled(Next(s, step), j)
  {
  }

  lemma ScanKeepsSettled(s: State, step: Step, j: JobId)
    requires InScan(step)
    requires Distinct(s) && Enabled(s, step) && Settled(s, j) && !Resets(s, step, j)
    ensures Settled(Next(s, step), j)
  {
  }

  lemma LaunchingKeepsSettled(s: State, step: Step, j: JobId)
    requires !IsClient(step) && !InUpdate(step) && !InCancel(step) && !InScan(step)
    requires Distinct(s) && Enabled(s, step) && Settled(s, j) && !Resets(s, step, j)
    ensures Settled(Next(s, step), j)
  {
    if step.Mark? {
      assert s.pc.queue[0] in s.pc.queue;
      assert forall x :: x in s.pc.queue[1..] ==> x in s.pc.queue;
    }
  }

  lemma StepKeepsSettled(s: State, step: Step, j: JobId)
    requires Distinct(s) && Enabled(s, step) && Settled(s, j) && !Resets(s, step, j)
    ensures Settled(Next(s, step), j)
  {
    if IsClient(step) {
      ClientKeepsSettled(s, step, j);
    } else if InUpdate(step) {
      UpdateKeepsSettled(s, step, j);
    } else if InCancel(step) {
      CancelKeepsSettled(s, step, j);
    } else if InScan(step) {
      ScanKeepsSettled(s, step, j);
    } else {
      LaunchingKeepsSettled(s, step, j);
    }
  }

  lemma RunStepKeepsSettled(r: Run, k: nat, j: JobId)
    requires IsRun(r) && k < |r.steps| && Settled(r.states[k], j) && !Resets(r.states[k], r.steps[k], j)
    ensures Settled(r.states[k + 1], j)
  {
    RunKeepsShape(r, k);
    StepKeepsSettled(r.states[k], r.steps[k], j);
  }

  lemma RunLaunchSettles(r: Run, k: nat, j: JobId)
    requires IsRun(r) && k < |r.steps| && Launches(r.states[k], r.steps[k], j)
    ensures Settled(r.states[k + 1], j)
  {
    RunKeepsShape(r, k);
    LaunchSettles(r.states[k], r.steps[k], j);
  }

  lemma {:induction false} SettledUntilReset(r: Run, i: nat, k: nat, j: JobId)
    requires IsRun(r) && i < k < |r.states|
    requires Launches(r.states[i], r.steps[i], j)
    requires forall m :: i < m < k ==> !Resets(r.states[m], r.steps[m], j)
    ensures Settled(r.states[k], j)
  {
    if k == i + 1 {
      RunLaunchSettles(r, i, j);
    } else {
      SettledUntilReset(r, i, k - 1, j);
      RunStepKeepsSettled(r, k - 1, j);
    }
  }

  /**
   * Between two launches of one job, in every interleaving, some step set its status document back
   * to PENDING, deleted it, or lost the write that follows a launch.
   */
  lemma LaunchesAreSeparated(r: Run, i: nat, k: nat, j: JobId)
    requires IsRun(r) && i < k < |r.steps|
    requires Launches(r.states[i], r.steps[i], j) && Launches(r.states[k], r.steps[k], j)
    ensures exists m :: i < m < k && Resets(r.states[m], r.steps[m], j)
  {
    if forall m :: i < m < k ==> !Resets(r.states[m], r.steps[m], j) {
      SettledUntilReset(r, i, k, j);
      SettledNeverLaunches(r.states[k], r.steps[k], j);
    }
  }

  /** So a run without such a step launches each job at most once. */
  lemma AtMostOneLaunch(r: Run, j: JobId)
    requires IsRun(r)
    requires forall m :: 0 <= m < |r.steps| && Resets(r.states[m], r.steps[m], j) ==>
               forall i :: 0 <= i < m ==> !Launches(r.states[i], r.steps[i], j)
    ensures forall i, k :: 0 <= i < k < |r.steps| && Launches(r.states[i], r.steps[i], j) ==>
              !Launches(r.states[k], r.steps[k], j)
  {
    forall i: nat, k: nat | i < k < |r.steps| && Launches(r.states[i], r.steps[i], j)
      ensures !Launches(r.states[k], r.steps[k], j)
    {
      if Launches(r.states[k], r.steps[k], j) {
        LaunchesAreSeparated(r, i, k, j);
      }
    }
  }

  ghost predicate Legal(s: State, steps: seq<Step>)
    decreases |steps|
  {
    steps == [] || (Enabled(s, steps[0]) && Legal(Next(s, steps[0]), steps[1..]))
  }

  ghost function After(s: State, steps: seq<Step>): State
    requires Legal(s, steps)
    decreases |steps|
  {
    if steps == [] then s else After(Next(s, steps[0]), steps[1..])
  }

  lemma {:induction false} AfterBoth(s: State, a: seq<Step>, b: seq<Step>)
    requires Legal(s, a) && Legal(After(s, a), b)
    ensures Legal(s, a + b) && After(s, a + b) == After(After(s, a), b)
    decreases |a|
  {
    if a == [] {
      assert a + b == b;
    } else {
      assert (a + b)[0] == a[0] && (a + b)[1..] == a[1..] + b;
      AfterBoth(Next(s, a[0]), a[1..], b);
    }
  }

  lemma OneStep(s: State, step: Step)
    requires Enabled(s, step)
    ensures Legal(s, [step]) && After(s, [step]) == Next(s, step)
  {
    assert [step][1..] == [];
    assert Legal(Next(s, step), []);
  }

  /** Steps that are legal from the start make up a run. */
  lemma {:induction false} MakeRun(steps: seq<Step>) returns (r: Run)
    requires Legal(START, steps)
    ensures IsRun(r) && r.steps == steps
    ensures forall n :: 0 <= n <= |steps| ==> Legal(START, steps[..n]) && r.states[n] == After(START, steps[..n])
    decreases |steps|
  {
    if steps == [] {
      r := Run([START], []);
    } else {
      var n := |steps| - 1;
      LegalPrefix(START, steps, n);
      var q := MakeRun(steps[..n]);
      var s, step := After(START, steps[..n]), steps[n];
      assert steps[..n] + [step] == steps;
      OneStep(s, step);
      AfterBoth(START, steps[..n], [step]);
      assert steps[..n][..n] == steps[..n];
      r := Run(q.states + [Next(s, step)], steps);
      forall m | 0 <= m <= |steps|
        ensures Legal(START, steps[..m]) && r.states[m] == After(START, steps[..m])
      {
        if m <= n {
          assert steps[..n][..m] == steps[..m];
        } else {
          assert steps[..m] == steps;
        }
      }
    }
  }

  lemma {:induction false} LegalPrefix(s: State, steps: seq<Step>, n: nat)
    requires Legal(s, steps) && n <= |steps|
    ensures Legal(s, steps[..n]) && Legal(After(s, steps[..n]), steps[n..])
    decreases |steps|
  {
    if n > 0 {
      assert steps[..n][0] == steps[0] && steps[..n][1..] == steps[1..][..n - 1];
      assert steps[n..] == steps[1..][n - 1..];
      LegalPrefix(Next(s, steps[0]), steps[1..], n - 1);
    } else {
      assert steps[..0] == [] && steps[0..] == steps;
    }
  }

  /** No client step, no lost write after a launch. */
  predicate Calm(step: Step) {
    !IsClient(step) && step != Report(true) && step != Abort
  }

  ghost function SubmitSteps(j: JobId): seq<Step> {
    [ClientPutJob(j)] + [ClientPutStatus(j)] + [BeginPoll] + [PollFails]
  }

  ghost function ListSteps(j: JobId): seq<Step> {
    [CancelDone(false)] + [ScanPage([j])]
  }

  ghost function CheckSteps(): seq<Step> {
    [ScanCheck] + [ScanDone]
  }

  ghost function ScanSteps(j: JobId): seq<Step> {
    ListSteps(j) + CheckSteps() + [Mark(false)]
  }

  ghost function FinishSteps(): seq<Step> {
    [Report(false)] + [NextJob] + [IterationDone]
  }

  ghost function ReadSteps(j: JobId, a: InstanceId): seq<Step> {
    [BeginPoll] + [PollRead(j)] + [PollAnswers(map[], map[a := Pending])]
  }

  ghost function UpdateSteps(): seq<Step> {
    [Update(false)] + [UpdatesDone]
  }

  ghost function RepollSteps(j: JobId, a: InstanceId): seq<Step> {
    ReadSteps(j, a) + UpdateSteps()
  }

  lemma Submits(j: JobId)
    ensures Legal(START, SubmitSteps(j))
    ensures After(START, SubmitSteps(j)) ==
              START.(jobs := {j}, docs := map[j := Bare(Pending)], submitted := {j}, pc := Cancelling([]))
  {
    var s1 := Next(START, ClientPutJob(j));
    var s2 := Next(s1, ClientPutStatus(j));
    var s3 := Next(s2, BeginPoll);
    OneStep(START, ClientPutJob(j));
    OneStep(s1, ClientPutStatus(j));
    OneStep(s2, BeginPoll);
    OneStep(s3, PollFails);
    AfterBoth(START, [ClientPutJob(j)], [ClientPutStatus(j)]);
    AfterBoth(START, [ClientPutJob(j)] + [ClientPutStatus(j)], [BeginPoll]);
    AfterBoth(START, [ClientPutJob(j)] + [ClientPutStatus(j)] + [BeginPoll], [PollFails]);
    assert s2.halfway == {};
  }

  lemma Lists(s: State, j: JobId)
    requires s.pc == Cancelling([]) && s.jobs == {j}
    ensures Legal(s, ListSteps(j)) && After(s, ListSteps(j)) == s.(pc := Scanning({} + Elems([j]), [j], []))
  {
    var s1 := s.(pc := Scanning({}, [], []));
    OneStep(s, CancelDone(false));
    OneStep(s1, ScanPage([j]));
    assert s1.pc.page + [j] == [j];
    AfterBoth(s, [CancelDone(false)], [ScanPage([j])]);
  }

  lemma CheckFinds(s: State, j: JobId, seen: set<JobId>)
    requires s.pc == Scanning(seen, [j], []) && j in s.docs && s.docs[j].status.Pending?
    ensures Legal(s, [ScanCheck]) && After(s, [ScanCheck]) == s.(pc := Scanning(seen, [], [j]))
  {
    OneStep(s, ScanCheck);
    assert s.pc.page[1..] == [] && s.pc.found + [j] == [j];
  }

  lemma Checks(s: State, j: JobId, seen: set<JobId>)
    requires s.pc == Scanning(seen, [j], []) && j in s.docs && s.docs[j].status.Pending?
    ensures Legal(s, CheckSteps()) && After(s, CheckSteps()) == s.(pc := ToMark([j]))
  {
    CheckFinds(s, j, seen);
    OneStep(s.(pc := Scanning(seen, [], [j])), ScanDone);
    AfterBoth(s, [ScanCheck], [ScanDone]);
  }

  /** From the cancel phase to the launch of the only job, which is pending. */
  lemma ScanFinds(s: State, j: JobId)
    requires s.pc == Cancelling([]) && s.jobs == {j} && j in s.docs && s.docs[j].status.Pending?
    ensures Legal(s, ScanSteps(j)) &&
              After(s, ScanSteps(j)) == s.(docs := s.docs[j := Bare(Submitting)], pc := ToLaunch(j, []))
  {
    Lists(s, j);
    var s1 := After(s, ListSteps(j));
    Checks(s1, j, {} + Elems([j]));
    AfterBoth(s, ListSteps(j), CheckSteps());
    var s2 := s.(pc := ToMark([j]));
    OneStep(s2, Mark(false));
    assert s2.pc.queue[1..] == [];
    AfterBoth(s, ListSteps(j) + CheckSteps(), [Mark(false)]);
  }

  lemma Finishes(s: State, j: JobId, a: InstanceId)
    requires s.pc == ToReport(j, Instance(a), [])
    ensures Legal(s, FinishSteps()) &&
              After(s, FinishSteps()) == s.(docs := s.docs[j := StatusDoc(Running, Some(a), None, [])], pc := Top)
  {
    var s1 := Next(s, Report(false));
    var s2 := Next(s1, NextJob);
    OneStep(s, Report(false));
    OneStep(s1, NextJob);
    OneStep(s2, IterationDone);
    AfterBoth(s, [Report(false)], [NextJob]);
    AfterBoth(s, [Report(false)] + [NextJob], [IterationDone]);
  }

  lemma Reads(s: State, j: JobId, a: InstanceId)
    requires s.pc.Top? && j in s.docs && s.docs[j] == StatusDoc(Running, Some(a), None, [])
    ensures Legal(s, ReadSteps(j, a))
    ensures After(s, ReadSteps(j, a)) == s.(pc := Updating([Write(j, StatusDoc(Pending, Some(a), None, []))]))
  {
    var w := Write(j, StatusDoc(Running, Some(a), None, []));
    var answers := PollAnswers(map[], map[a := Pending]);
    var s1 := s.(pc := Polling([]));
    var s2 := s.(pc := Polling([w]));
    OneStep(s, BeginPoll);
    OneStep(s1, PollRead(j));
    assert s1.pc.running + [w] == [w];
    assert UpdateQueue([w], map[], map[a := Pending]) == [Write(j, StatusDoc(Pending, Some(a), None, []))] by {
      assert [w][1..] == [];
    }
    OneStep(s2, answers);
    AfterBoth(s, [BeginPoll], [PollRead(j)]);
    AfterBoth(s, [BeginPoll] + [PollRead(j)], [answers]);
  }

  lemma Updates(s: State, v: Write)
    requires s.pc == Updating([v])
    ensures Legal(s, UpdateSteps()) &&
              After(s, UpdateSteps()) == s.(docs := s.docs[v.job := v.doc], pc := Cancelling([]))
  {
    var s1 := s.(docs := s.docs[v.job := v.doc], pc := Updating([]));
    OneStep(s, Update(false));
    assert [v][1..] == [];
    OneStep(s1, UpdatesDone);
    AfterBoth(s, [Update(false)], [UpdatesDone]);
  }

  /** EC2 still calls the instance `pending`, so the bastion writes PENDING back. */
  lemma RepollSetsPending(s: State, j: JobId, a: InstanceId)
    requires s.pc.Top? && j in s.docs && s.docs[j] == StatusDoc(Running, Some(a), None, [])
    ensures Legal(s, RepollSteps(j, a))
    ensures After(s, RepollSteps(j, a)) ==
              s.(docs := s.docs[j := StatusDoc(Pending, Some(a), None, [])], pc := Cancelling([]))
  {
    Reads(s, j, a);
    Updates(After(s, ReadSteps(j, a)), Write(j, StatusDoc(Pending, Some(a), None, [])));
    AfterBoth(s, ReadSteps(j, a), UpdateSteps());
  }

  /** From a launch's report through the next poll to the next launch of the same job. */
  lemma ComesAround(s: State, j: JobId, a: InstanceId)
    requires s.pc == ToReport(j, Instance(a), []) && s.jobs == {j}
    ensures Legal(s, FinishSteps() + RepollSteps(j, a) + ScanSteps(j))
    ensures var t := After(s, FinishSteps() + RepollSteps(j, a) + ScanSteps(j));
            t.cloud == s.cloud && t.pc == ToLaunch(j, [])
  {
    Finishes(s, j, a);
    var s2 := After(s, FinishSteps());
    RepollSetsPending(s2, j, a);
    var s3 := After(s2, RepollSteps(j, a));
    ScanFinds(s3, j);
    AfterBoth(s, FinishSteps(), RepollSteps(j, a));
    AfterBoth(s, FinishSteps() + RepollSteps(j, a), ScanSteps(j));
  }

  lemma ComingAroundIsCalm(j: JobId, a: InstanceId)
    ensures forall step :: step in FinishSteps() + RepollSteps(j, a) + ScanSteps(j) ==> Calm(step)
  {
  }

  /** Legal steps `a`, a launch of `j`, calm steps `b`, and another launch of `j`. */
  lemma TwoLaunches(a: seq<Step>, first: Step, b: seq<Step>, second: Step, j: JobId) returns (r: Run)
    requires Legal(START, a) && Enabled(After(START, a), first) && Launches(After(START, a), first, j)
    requires Legal(Next(After(START, a), first), b) && forall n :: 0 <= n < |b| ==> Calm(b[n])
    requires var t := After(Next(After(START, a), first), b); Enabled(t, second) && Launches(t, second, j)
    ensures IsRun(r) && |a| + 1 + |b| < |r.steps|
    ensures Launches(r.states[|a|], r.steps[|a|], j) && Launches(r.states[|a| + 1 + |b|], r.steps[|a| + 1 + |b|], j)
    ensures forall m :: |a| < m < |a| + 1 + |b| ==> Calm(r.steps[m])
  {
    var s := After(START, a);
    var t := After(Next(s, first), b);
    OneStep(s, first);
    AfterBoth(START, a, [first]);
    AfterBoth(START, a + [first], b);
    OneStep(t, second);
    AfterBoth(START, a + [first] + b, [second]);
    var steps := a + [first] + b + [second];
    r := MakeRun(steps);
    assert steps[..|a|] == a;
    assert steps[..|a| + 1 + |b|] == a + [first] + b;
  }

  /** A submitted job, about to be launched for the first time. */
  lemma FirstScan(j: JobId)
    ensures Legal(START, SubmitSteps(j) + ScanSteps(j))
    ensures After(START, SubmitSteps(j) + ScanSteps(j)) ==
            START.(jobs := {j}, docs := map[j := Bare(Submitting)], submitted := {j}, pc := ToLaunch(j, []))
  {
    Submits(j);
    var s := After(START, SubmitSteps(j));
    ScanFinds(s, j);
    AfterBoth(START, SubmitSteps(j), ScanSteps(j));
    assert s.docs[j := Bare(Submitting)] == map[j := Bare(Submitting)];
  }

  ghost function Between(j: JobId): seq<Step> {
    FinishSteps() + RepollSteps(j, "a") + ScanSteps(j)
  }

  lemma FirstLaunch(j: JobId)
    ensures Legal(START, SubmitSteps(j) + ScanSteps(j))
    ensures var s := After(START, SubmitSteps(j) + ScanSteps(j));
            && Enabled(s, Launch(Instance("a"))) && Launches(s, Launch(Instance("a")), j)
            && Next(s, Launch(Instance("a"))).pc == ToReport(j, Instance("a"), [])
            && Next(s, Launch(Instance("a"))).jobs == {j}
            && Next(s, Launch(Instance("a"))).cloud == Cloud(map["a" := j], map[])
  {
    FirstScan(j);
  }

  lemma SecondLaunch(s: State, j: JobId)
    requires s.pc == ToReport(j, Instance("a"), []) && s.jobs == {j} && s.cloud == Cloud(map["a" := j], map[])
    ensures Legal(s, Between(j)) && forall n :: 0 <= n < |Between(j)| ==> Calm(Between(j)[n])
    ensures var t := After(s, Between(j)); Enabled(t, Launch(Instance("b"))) && Launches(t, Launch(Instance("b")), j)
  {
    ComesAround(s, j, "a");
    ComingAroundIsCalm(j, "a");
    assert forall n :: 0 <= n < |Between(j)| ==> Between(j)[n] in Between(j);
  }

  /**
   * The separating step is no idle clause: EC2 still calling a new instance `pending` makes the
   * bastion itself put the job back to PENDING, and the next scan launches it a second time, with
   * no client step and no lost write in between.
   */
  lemma RelaunchHappens() returns (r: Run, i: nat, k: nat)
    ensures IsRun(r) && i < k < |r.steps|
    ensures Launches(r.states[i], r.steps[i], "j") && Launches(r.states[k], r.steps[k], "j")
    ensures forall m :: i < m < k ==> Calm(r.steps[m])
  {
    var j, before := "j", SubmitSteps("j") + ScanSteps("j");
    FirstLaunch(j);
    SecondLaunch(Next(After(START, before), Launch(Instance("a"))), j);
    r := TwoLaunches(before, Launch(Instance("a")), Between(j), Launch(Instance("b")), j);
    i, k := |before|, |before| + 1 + |Between(j)|;
  }

  // ---------------------------------------------------------------- what a launch reports

  /**
   * A report that is written says what the launch came to: RUNNING on the instance or the fleet EC2
   * named, with the first of its instances as primary; FAILED when nothing was launched.
   */
  lemma ReportSays(s: State)
    requires s.pc.ToReport?
    ensures var j, o, t := s.pc.job, s.pc.outcome, Next(s, Report(false));
            && j in t.docs
            && (o.LaunchError? || o.EmptyFleet? ==> t.docs[j].status.Failed? && t.docs[j].instance.None?)
            && (o.Instance? ==> t.docs[j] == StatusDoc(Running, Some(o.id), None, []))
            && (o.Fleet? && o.ids != [] ==> t.docs[j] == StatusDoc(Running, Some(o.ids[0]), Some(o.fleetId), o.ids))
            && (forall k :: k in s.docs && k != j ==> t.docs[k] == s.docs[k])
  {
  }

  /** An error behind the report overwrites it: FAILED, and the instance of the launch is no longer named. */
  lemma FailureSays(s: State)
    requires s.pc.Reported?
    ensures var j, t := s.pc.job, Next(s, ReportFailure(false));
            && j in t.docs && Over(t.docs[j].status) && t.docs[j].status.Failed?
            && t.docs[j].instance.None? && t.docs[j].fleet.None? && t.docs[j].all == []
            && (forall k :: k in s.docs && k != j ==> t.docs[k] == s.docs[k])
  {
  }

  // ---------------------------------------------------------------- what a reset leaves

  ghost predicate AllPending(docs: map<JobId, StatusDoc>, jobs: seq<JobId>) {
    forall j :: j in jobs ==> PendingIn(docs, j)
  }

  /** Until its launch is reported, a job the bastion found stays one it may launch. */
  ghost predicate QueuePending(s: State) {
    match s.pc
    case Scanning(_, _, found) => AllPending(s.docs, found)
    case ToMark(queue) => AllPending(s.docs, queue)
    case ToLaunch(job, queue) => PendingIn(s.docs, job) && AllPending(s.docs, queue)
    case ToReport(job, _, queue) => PendingIn(s.docs, job) && AllPending(s.docs, queue)
    case Reported(_, queue) => AllPending(s.docs, queue)
    case _ => true
  }

  lemma LaunchingKeepsPending(s: State, step: Step)
    requires !IsClient(step) && !InUpdate(step) && !InCancel(step) && !InScan(step)
    requires Distinct(s) && QueuePending(s) && Enabled(s, step)
    ensures QueuePending(Next(s, step))
  {
    if step.Mark? {
      assert s.pc.queue[0] in s.pc.queue;
      assert forall x :: x in s.pc.queue[1..] ==> x in s.pc.queue;
    }
  }

  lemma StepKeepsPending(s: State, step: Step)
    requires Distinct(s) && QueuePending(s) && Enabled(s, step)
    ensures QueuePending(Next(s, step))
  {
    if !IsClient(step) && !InUpdate(step) && !InCancel(step) && !InScan(step) {
      LaunchingKeepsPending(s, step);
    }
  }

  lemma {:induction false} RunKeepsPending(r: Run, i: nat)
    requires IsRun(r) && i < |r.states|
    ensures QueuePending(r.states[i])
  {
    if i > 0 {
      RunKeepsPending(r, i - 1);
      RunKeepsShape(r, i - 1);
      StepKeepsPending(r.states[i - 1], r.steps[i - 1]);
    }
  }

  lemma ResetPends(s: State, step: Step, j: JobId)
    requires QueuePending(s) && Enabled(s, step) && Resets(s, step, j)
    ensures PendingIn(Next(s, step).docs, j)
  {
  }

  /** In any run a reset of a job leaves it one the bastion may launch. */
  lemma ResetLeavesPending(r: Run, m: nat, j: JobId)
    requires IsRun(r) && m < |r.steps| && Resets(r.states[m], r.steps[m], j)
    ensures PendingIn(r.states[m + 1].docs, j)
  {
    RunKeepsPending(r, m);
    ResetPends(r.states[m], r.steps[m], j);
  }

  // ---------------------------------------------------------------- over is over

  /** Finished at the end of an iteration: nothing local to the bastion concerns `j` any more. */
  ghost predicate Finished(s: State, j: JobId) {
    && j in s.submitted && j !in s.halfway
    && (if j in s.docs then Over(s.docs[j].status) else j !in s.jobs)
    && Unqueued(s.pc, j) && !AboutToReport(s.pc, j) && !(s.pc.Reported? && s.pc.job == j)
    && (s.pc.Polling? ==> forall w :: w in s.pc.running ==> w.job != j)
    && (s.pc.Updating? ==> forall w :: w in s.pc.writes ==> w.job != j)
    && (s.pc.WritingCancel? ==> s.pc.write.doc.status.Canceled?)
    && (s.pc.Scanning? && j in s.pc.page ==> j in s.docs)
  }

  lemma {:induction false} UpdateQueueJobs(running: seq<Write>, fs: FleetStatuses, ins: InstanceStatuses, j: JobId)
    requires forall w :: w in running ==> w.job != j
    ensures forall w :: w in UpdateQueue(running, fs, ins) ==> w.job != j
  {
    if running != [] {
      assert running[0] in running;
      UpdateQueueJobs(running[1..], fs, ins, j);
    }
  }

  lemma ClientKeepsFinished(s: State, step: Step, j: JobId)
    requires IsClient(step) && !s.pc.Scanning?
    requires Distinct(s) && DeletesInOrder(s) && Enabled(s, step) && Finished(s, j)
    ensures Finished(Next(s, step), j)
  {
  }

  lemma UpdateKeepsFinished(s: State, step: Step, j: JobId)
    requires InUpdate(step)
    requires Distinct(s) && DeletesInOrder(s) && Enabled(s, step) && Finished(s, j)
    ensures Finished(Next(s, step), j)
  {
    match step
    case PollAnswers(fs, ins) => UpdateQueueJobs(s.pc.running, fs, ins, j);
    case Update(_) =>
      assert s.pc.writes[0] in s.pc.writes;
      assert forall w :: w in s.pc.writes[1..] ==> w in s.pc.writes;
    case _ =>
  }

  lemma CancelKeepsFinished(s: State, step: Step, j: JobId)
    requires InCancel(step)
    requires Distinct(s) && DeletesInOrder(s) && Enabled(s, step) && Finished(s, j)
    ensures Finished(Next(s, step), j)
  {
  }

  lemma ScanKeepsFinished(s: State, step: Step, j: JobId)
    requires InScan(step)
    requires Distinct(s) && DeletesInOrder(s) && Enabled(s, step) && Finished(s, j)
    ensures Finished(Next(s, step), j)
  {
    if step.ScanCheck? {
      assert s.pc.page[0] in s.pc.page;
      assert forall x :: x in s.pc.page[1..] ==> x in s.pc.page;
    }
  }

  lemma LaunchingKeepsFinished(s: State, step: Step, j: JobId)
    requires !IsClient(step) && !InUpdate(step) && !InCancel(step) && !InScan(step)
    requires Distinct(s) && DeletesInOrder(s) && Enabled(s, step) && Finished(s, j)
    ensures Finished(Next(s, step), j)
  {
    if step.Mark? {
      assert s.pc.queue[0] in s.pc.queue;
      assert forall x :: x in s.pc.queue[1..] ==> x in s.pc.queue;
    }
  }

  lemma StepKeepsFinished(s: State, step: Step, j: JobId)
    requires Distinct(s) && DeletesInOrder(s) && Enabled(s, step) && Finished(s, j)
    requires s.pc.Scanning? ==> !IsClient(step)
    ensures Finished(Next(s, step), j)
  {
    if IsClient(step) {
      ClientKeepsFinished(s, step, j);
    } else if InUpdate(step) {
      UpdateKeepsFinished(s, step, j);
    } else if InCancel(step) {
      CancelKeepsFinished(s, step, j);
    } else if InScan(step) {
      ScanKeepsFinished(s, step, j);
    } else {
      LaunchingKeepsFinished(s, step, j);
    }
  }

  lemma {:induction false} FinishedForGood(r: Run, i: nat, k: nat, j: JobId)
    requires IsRun(r) && i <= k < |r.states|
    requires Finished(r.states[i], j)
    requires forall m :: i <= m < k && r.states[m].pc.Scanning? ==> !IsClient(r.steps[m])
    ensures Finished(r.states[k], j)
  {
    if i < k {
      FinishedForGood(r, i, k - 1, j);
      RunKeepsShape(r, k - 1);
      StepKeepsFinished(r.states[k - 1], r.steps[k - 1], j);
    }
  }

  /** Every document, and every write under way, is about a job the client submitted. */
  ghost predicate Submitted(s: State) {
    && s.docs.Keys <= s.submitted && s.jobs <= s.submitted && s.halfway <= s.submitted
    && (match s.pc
        case Polling(running) => forall w :: w in running ==> w.job in s.submitted
        case Updating(writes) => forall w :: w in writes ==> w.job in s.submitted
        case WritingCancel(write, _) => write.job in s.submitted
        case Scanning(_, page, found) => Elems(page) <= s.submitted && Elems(found) <= s.submitted
        case ToMark(queue) => Elems(queue) <= s.submitted
        case ToLaunch(job, queue) => job in s.submitted && Elems(queue) <= s.submitted
        case ToReport(job, _, queue) => job in s.submitted && Elems(queue) <= s.submitted
        case Reported(job, queue) => job in s.submitted && Elems(queue) <= s.submitted
        case _ => true)
  }

  lemma {:induction false} UpdateQueueOf(running: seq<Write>, fs: FleetStatuses, ins: InstanceStatuses,
          jobs: set<JobId>)
    requires forall w :: w in running ==> w.job in jobs
    ensures forall w :: w in UpdateQueue(running, fs, ins) ==> w.job in jobs
  {
    if running != [] {
      assert running[0] in running;
      UpdateQueueOf(running[1..], fs, ins, jobs);
    }
  }

  lemma StepKeepsSubmitted(s: State, step: Step)
    requires Submitted(s) && DeletesInOrder(s) && Enabled(s, step)
    ensures Submitted(Next(s, step))
  {
    match step
    case PollAnswers(fs, ins) => UpdateQueueOf(s.pc.running, fs, ins, s.submitted);
    case Update(_) =>
      assert s.pc.writes[0] in s.pc.writes;
      assert forall w :: w in s.pc.writes[1..] ==> w in s.pc.writes;
    case ScanPage(js) => assert Elems(s.pc.page + js) == Elems(s.pc.page) + Elems(js);
    case ScanCheck =>
      assert s.pc.page[0] in Elems(s.pc.page) && Elems(s.pc.page[1..]) <= Elems(s.pc.page);
    case Mark(_) =>
      assert s.pc.queue[0] in Elems(s.pc.queue) && Elems(s.pc.queue[1..]) <= Elems(s.pc.queue);
    case _ =>
  }

  lemma {:induction false} RunKeepsSubmitted(r: Run, i: nat)
    requires IsRun(r) && i < |r.states|
    ensures Submitted(r.states[i])
  {
    if i > 0 {
      RunKeepsSubmitted(r, i - 1);
      RunKeepsShape(r, i - 1);
      StepKeepsSubmitted(r.states[i - 1], r.steps[i - 1]);
    }
  }

  /**
   * A job whose document is COMPLETED, FAILED or CANCELED between two iterations never becomes
   * PENDING, SUBMITTING or RUNNING again and is never launched again, when the client's own
   * PENDING write is behind it and every scan is a snapshot of the client's parameters.
   */
  lemma OverIsOver(r: Run, i: nat, k: nat, j: JobId)
    requires IsRun(r) && i <= k < |r.states|
    requires r.states[i].pc.Top? && j in r.states[i].docs && Over(r.states[i].docs[j].status)
    requires j !in r.states[i].halfway
    requires forall m :: i <= m < k && r.states[m].pc.Scanning? ==> !IsClient(r.steps[m])
    ensures j in r.states[k].docs ==> Over(r.states[k].docs[j].status)
    ensures k < |r.steps| ==> !Launches(r.states[k], r.steps[k], j)
  {
    RunKeepsSubmitted(r, i);
    FinishedForGood(r, i, k, j);
  }
}
