/**
 * The whole path of a spot warning: received, routed, queued and dispatched by the monitor, handled
 * by the mode whose fleets and instances are registered, and reported by the provider, with
 * registrations, submits, polls and scale-ins at any moment in between.
 */
module SpotReclaim {
  import opened Collections
  import opened ProviderModel
  import opened ProviderInvariants
  import opened ProviderRuns
  import opened Interruption
  import M = InterruptionMonitor

  datatype Whole = Whole(monitor: M.State, joint: Joint)

  datatype Act = Monitor(step: M.Step) | Provider(move: Move)

  /** What the mode's handlers do with an event that reaches them. */
  ghost function Handled(cfg: Config, j: Joint, e: M.Event): Joint
    requires Good(cfg, Links, j.world)
  {
    match e
    case InstanceEvent(_, i) => Moved(cfg, j, Warn(None, [i]))
    case FleetEvent(_, f, ids) => Moved(cfg, j, Warn(Some(f), ids))
  }

  ghost predicate Possibly(cfg: Config, w: Whole, act: Act) {
    match act
    case Monitor(step) => M.Enabled(w.monitor, step)
    case Provider(move) => !move.Warn? && MoveAllowed(cfg, w.joint, move)
  }

  /** A dispatched event calls its handler if one is registered at that moment. */
  ghost predicate Calls(w: Whole, act: Act) {
    && act.Monitor? && act.step.Dispatch? && w.monitor.pc.Holding?
    && M.HandlerOf(w.monitor.reg, w.monitor.pc.event).Some?
  }

  /** The instance or fleet the event in hand is for is registered as the event is dispatched. */
  ghost predicate StillRegistered(w: Whole) {
    w.monitor.pc.Holding? && M.Registered(w.monitor.reg, w.monitor.pc.event)
  }

  lemma RegisteredIsCalled(w: Whole)
    ensures StillRegistered(w) <==> Calls(w, Monitor(M.Dispatch))
  {
  }

  ghost function Then(cfg: Config, w: Whole, act: Act): Whole
    requires Good(cfg, Links, w.joint.world) && Possibly(cfg, w, act)
  {
    match act
    case Monitor(step) =>
      Whole(M.Next(w.monitor, step), if Calls(w, act) then Handled(cfg, w.joint, w.monitor.pc.event) else w.joint)
    case Provider(move) => w.(joint := Moved(cfg, w.joint, move))
  }

  datatype Course = Course(states: seq<Whole>, acts: seq<Act>)

  ghost predicate Leads(cfg: Config, w: Whole, act: Act, next: Whole) {
    Good(cfg, Links, w.joint.world) && Possibly(cfg, w, act) && next == Then(cfg, w, act)
  }

  /** The monitor starts with nothing registered; the provider is at any point of a run of its own. */
  ghost predicate IsCourse(cfg: Config, c: Course) {
    && |c.states| == |c.acts| + 1
    && c.states[0].monitor == M.START && Good(cfg, Links, c.states[0].joint.world)
    && forall k :: 0 <= k < |c.acts| ==> Leads(cfg, c.states[k], c.acts[k], c.states[k + 1])
  }

  // ---------------------------------------------------------------- the monitor's part

  /** The events of message `m` are about instance `i`. */
  ghost predicate About(e: M.Event, m: nat, i: M.InstanceId) {
    e.message == Some(m) ==>
      match e
      case InstanceEvent(_, instance) => instance == i
      case FleetEvent(_, _, ids) => ids == [i]
  }

  ghost predicate Named(s: M.State, m: nat, i: M.InstanceId) {
    && m in s.seen
    && (forall k :: 0 <= k < |s.routed| ==> About(s.routed[k], m, i))
    && (s.pc.Trying? && s.pc.message == m ==> s.pc.warned == i)
  }

  lemma ReceiveNames(s: M.State, m: nat, i: M.InstanceId)
    requires M.OncePerMessage(s) && M.Enabled(s, M.Receive(M.Message(m, Some(i))))
    ensures Named(M.Next(s, M.Receive(M.Message(m, Some(i)))), m, i)
  {
    forall k | 0 <= k < |s.routed|
      ensures About(s.routed[k], m, i)
    {
      assert s.routed[k].message != Some(m);
    }
  }

  lemma StepKeepsNamed(s: M.State, step: M.Step, m: nat, i: M.InstanceId)
    requires Named(s, m, i) && M.Enabled(s, step)
    ensures Named(M.Next(s, step), m, i)
  {
  }

  lemma {:induction false} CourseConserves(cfg: Config, c: Course, k: nat)
    requires IsCourse(cfg, c) && k < |c.states|
    ensures M.Conserved(c.states[k].monitor) && M.OncePerMessage(c.states[k].monitor)
  {
    if k > 0 {
      CourseConserves(cfg, c, k - 1);
      assert Leads(cfg, c.states[k - 1], c.acts[k - 1], c.states[k]);
      if c.acts[k - 1].Monitor? {
        M.StepConserves(c.states[k - 1].monitor, c.acts[k - 1].step);
        M.StepKeepsMessagesApart(c.states[k - 1].monitor, c.acts[k - 1].step);
      }
    }
  }

  lemma {:induction false} CourseKeepsNamed(cfg: Config, c: Course, a: nat, k: nat, m: nat, i: M.InstanceId)
    requires IsCourse(cfg, c) && a < k < |c.states|
    requires c.acts[a] == Monitor(M.Receive(M.Message(m, Some(i))))
    ensures Named(c.states[k].monitor, m, i)
  {
    assert Leads(cfg, c.states[k - 1], c.acts[k - 1], c.states[k]);
    if k == a + 1 {
      CourseConserves(cfg, c, a);
      ReceiveNames(c.states[a].monitor, m, i);
    } else {
      CourseKeepsNamed(cfg, c, a, k - 1, m, i);
      if c.acts[k - 1].Monitor? {
        StepKeepsNamed(c.states[k - 1].monitor, c.acts[k - 1].step, m, i);
      }
    }
  }

  lemma HeldIsNamed(s: M.State, m: nat, i: M.InstanceId)
    requires M.Conserved(s) && Named(s, m, i) && s.pc.Holding?
    ensures About(s.pc.event, m, i)
  {
    var x := |s.done|;
    assert (M.Events(s.done) + M.Held(s.pc) + s.queue)[x] == s.pc.event;
    assert s.routed[x] == s.pc.event;
  }

  lemma {:induction false} DoneGrows(cfg: Config, c: Course, i: nat, k: nat)
    requires IsCourse(cfg, c) && i <= k < |c.states|
    ensures c.states[i].monitor.done <= c.states[k].monitor.done
  {
    if i < k {
      DoneGrows(cfg, c, i, k - 1);
      assert Leads(cfg, c.states[k - 1], c.acts[k - 1], c.states[k]);
      if c.acts[k - 1].Monitor? {
        M.StepGrows(c.states[k - 1].monitor, c.acts[k - 1].step);
      }
    }
  }

  // ---------------------------------------------------------------- the provider's part

  /** The acts from `p` on cancel nothing of `job`. */
  ghost predicate Spared(c: Course, p: nat, n: nat, job: JobId) {
    forall k :: p <= k < n && k < |c.acts| && k < |c.states| && c.acts[k].Provider? ==>
      Spares(c.states[k].joint, c.acts[k].move, job)
  }

  lemma ActKeepsDoomed(cfg: Config, w: Whole, act: Act, job: JobId, r: ResourceId)
    requires Good(cfg, Links, w.joint.world) && Possibly(cfg, w, act) && Doomed(w.joint, job, r)
    requires act.Provider? ==> Spares(w.joint, act.move, job)
    ensures Doomed(Then(cfg, w, act).joint, job, r)
  {
    match act
    case Monitor(_) =>
      if Calls(w, act) {
        match w.monitor.pc.event
        case InstanceEvent(_, i) => MoveKeepsDoomed(cfg, w.joint, Warn(None, [i]), job, r);
        case FleetEvent(_, f, ids) => MoveKeepsDoomed(cfg, w.joint, Warn(Some(f), ids), job, r);
      }
    case Provider(move) => MoveKeepsDoomed(cfg, w.joint, move, job, r);
  }

  lemma ActGood(cfg: Config, w: Whole, act: Act)
    requires Good(cfg, Links, w.joint.world) && Possibly(cfg, w, act)
    ensures Good(cfg, Links, Then(cfg, w, act).joint.world)
  {
    if act.Provider? {
      MoveGood(cfg, w.joint, act.move);
    }
  }

  lemma {:induction false} CourseGood(cfg: Config, c: Course, k: nat)
    requires IsCourse(cfg, c) && k < |c.states|
    ensures Good(cfg, Links, c.states[k].joint.world)
  {
    if k > 0 {
      CourseGood(cfg, c, k - 1);
      assert Leads(cfg, c.states[k - 1], c.acts[k - 1], c.states[k]);
      ActGood(cfg, c.states[k - 1], c.acts[k - 1]);
    }
  }

  lemma {:induction false} CourseKeepsDoomed(cfg: Config, c: Course, p: nat, n: nat, job: JobId, r: ResourceId)
    requires IsCourse(cfg, c) && p <= n < |c.states| && Doomed(c.states[p].joint, job, r) && Spared(c, p, n, job)
    ensures Doomed(c.states[n].joint, job, r)
  {
    if p < n {
      CourseKeepsDoomed(cfg, c, p, n - 1, job, r);
      CourseGood(cfg, c, n - 1);
      assert Leads(cfg, c.states[n - 1], c.acts[n - 1], c.states[n]);
      ActKeepsDoomed(cfg, c.states[n - 1], c.acts[n - 1], job, r);
    }
  }

  /** The resource an event is about: the warned instance itself, or anything its fleet backs. */
  ghost predicate Targets(records: Records, e: M.Event, r: ResourceId) {
    match e
    case InstanceEvent(_, i) => r in records && r == i
    case FleetEvent(_, f, ids) => Hit(records, Some(f), ids, r)
  }

  /** A job at work on `r`: tracked, and with no terminal answer cached. */
  ghost predicate AtWork(j: Joint, job: JobId, r: ResourceId) {
    var st := j.world.sys.live;
    && r in st.resources && st.resources[r].jobId == job
    && job in st.jobMap && !Terminal(st.jobMap[job].status)
  }

  lemma CallDooms(cfg: Config, w: Whole, job: JobId, r: ResourceId)
    requires Good(cfg, Links, w.joint.world) && Possibly(cfg, w, Monitor(M.Dispatch)) && Calls(w, Monitor(M.Dispatch))
    requires Targets(w.joint.records, w.monitor.pc.event, r) && AtWork(w.joint, job, r)
    ensures Doomed(Then(cfg, w, Monitor(M.Dispatch)).joint, job, r)
  {
    match w.monitor.pc.event
    case InstanceEvent(_, i) => assert Hit(w.joint.records, None, [i], r);
    case FleetEvent(_, _, _) =>
  }

  /** `r` is in no pool, and while it is tracked a `status` call that is answered reports `job` FAILED. */
  ghost predicate LostFor(j: Joint, job: JobId, r: ResourceId, keys: seq<Option<JobId>>,
          read: ResourceId -> Option<Reading>) {
    var st := j.world.sys.live;
    && r !in WarmIds(st) && r !in st.warm
    && (r in st.resources ==>
          ToJobState(Report(st, Some(job), ModeAnswers(j.records, st, keys, false, read))) == JobFailed)
  }

  /**
   * From the queue to Parsl. Message `m` warns about instance `i` and is received at step `a`. When
   * the event it became is dispatched at step `p` and its instance or fleet is registered, that is
   * the one call the message ever causes, it is about `i`, and every resource it targets is lost for
   * its job: never WARM and never listed again, and FAILED in every answered `status` call while it
   * is tracked, as long as the job is not cancelled.
   */
  lemma WarningReachesParsl(cfg: Config, c: Course, a: nat, p: nat, n: nat, m: nat, i: M.InstanceId, job: JobId,
          r: ResourceId, keys: seq<Option<JobId>>, read: ResourceId -> Option<Reading>)
    requires IsCourse(cfg, c) && a < p < n < |c.states|
    requires c.acts[a] == Monitor(M.Receive(M.Message(m, Some(i))))
    requires c.acts[p] == Monitor(M.Dispatch) && StillRegistered(c.states[p])
    requires c.states[p].monitor.pc.event.message == Some(m)
    requires Targets(c.states[p].joint.records, c.states[p].monitor.pc.event, r) && AtWork(c.states[p].joint, job, r)
    requires Spared(c, p + 1, n, job) && Some(job) in keys
    ensures About(c.states[p].monitor.pc.event, m, i)
    ensures var done := c.states[n].monitor.done;
            forall y :: 0 <= y < |done| && done[y].event.message == Some(m) ==> y == |c.states[p].monitor.done|
    ensures LostFor(c.states[n].joint, job, r, keys, read)
  {
    RegisteredIsCalled(c.states[p]);
    CalledOnce(cfg, c, a, p, n, m, i);
    CourseGood(cfg, c, p);
    assert Leads(cfg, c.states[p], c.acts[p], c.states[p + 1]);
    CallDooms(cfg, c.states[p], job, r);
    CourseKeepsDoomed(cfg, c, p + 1, n, job, r);
    CourseGood(cfg, c, n);
    DoomedIsNotPooled(cfg, c.states[n].joint, job, r);
    if r in c.states[n].joint.world.sys.live.resources {
      DoomedReportsFailed(cfg, c.states[n].joint, job, r, keys, read);
    }
  }

  lemma CalledOnce(cfg: Config, c: Course, a: nat, p: nat, n: nat, m: nat, i: M.InstanceId)
    requires IsCourse(cfg, c) && a < p < n < |c.states|
    requires c.acts[a] == Monitor(M.Receive(M.Message(m, Some(i))))
    requires c.acts[p] == Monitor(M.Dispatch) && c.states[p].monitor.pc.Holding?
    requires c.states[p].monitor.pc.event.message == Some(m)
    ensures About(c.states[p].monitor.pc.event, m, i)
    ensures var done := c.states[n].monitor.done;
            forall y :: 0 <= y < |done| && done[y].event.message == Some(m) ==> y == |c.states[p].monitor.done|
  {
    CourseKeepsNamed(cfg, c, a, p, m, i);
    CourseConserves(cfg, c, p);
    HeldIsNamed(c.states[p].monitor, m, i);
    assert Leads(cfg, c.states[p], c.acts[p], c.states[p + 1]);
    DoneGrows(cfg, c, p + 1, n);
    CourseConserves(cfg, c, n);
    var x, done := |c.states[p].monitor.done|, c.states[n].monitor.done;
    assert c.states[p + 1].monitor.done[x].event.message == Some(m);
    forall y: nat | y < |done| && done[y].event.message == Some(m)
      ensures y == x
    {
      M.OneEntry(c.states[n].monitor, x, y, m);
    }
  }

  // ---------------------------------------------------------------- from receipt

  ghost function Monitors(c: Course): seq<M.State> {
    seq(|c.states|, k requires 0 <= k < |c.states| => c.states[k].monitor)
  }

  lemma MonitorsAreTrace(cfg: Config, c: Course)
    requires IsCourse(cfg, c)
    ensures M.IsTrace(Monitors(c))
  {
    forall k | 0 <= k < |c.states| - 1
      ensures M.Moves(c.states[k].monitor, c.states[k + 1].monitor)
    {
      assert Leads(cfg, c.states[k], c.acts[k], c.states[k + 1]);
      if c.acts[k].Monitor? {
        assert M.Enabled(c.states[k].monitor, c.acts[k].step);
      }
    }
  }

  /** A warning about `i`, received at act `a` as message `m`, is routed at act `b`. */
  ghost predicate RoutedAt(c: Course, a: nat, b: nat, m: nat, i: M.InstanceId, members: M.Membership) {
    && a <= b < |c.acts| < |c.states| && c.acts[a] == Monitor(M.Receive(M.Message(m, Some(i))))
    && (if i in c.states[a].monitor.reg.instances then b == a
        else a < b && c.acts[b] == Monitor(M.TryFleets(members))
             && c.states[b].monitor.pc.Trying? && c.states[b].monitor.pc.message == m)
  }

  lemma RoutedInTrace(cfg: Config, c: Course, a: nat, b: nat, m: nat, i: M.InstanceId, members: M.Membership)
    requires IsCourse(cfg, c) && RoutedAt(c, a, b, m, i, members)
    ensures M.Routes(Monitors(c), a, b, m, i, members)
  {
    assert Leads(cfg, c.states[a], c.acts[a], c.states[a + 1]);
    assert Leads(cfg, c.states[b], c.acts[b], c.states[b + 1]);
  }

  lemma DispatchingAct(cfg: Config, c: Course, p: nat)
    requires IsCourse(cfg, c) && p + 1 < |c.states|
    requires c.states[p].monitor.pc.Holding? && c.states[p + 1].monitor == M.Next(c.states[p].monitor, M.Dispatch)
    ensures c.acts[p] == Monitor(M.Dispatch)
  {
    assert Leads(cfg, c.states[p], c.acts[p], c.states[p + 1]);
    assert |c.states[p + 1].monitor.done| == |c.states[p].monitor.done| + 1;
  }

  /** The owner of `i` is registered when the warning is received at act `a`, and the queue is drained at `n`. */
  ghost predicate RegisteredThenDrained(c: Course, a: nat, n: nat, i: M.InstanceId, members: M.Membership)
    requires a < |c.states| && n < |c.states|
  {
    var reg, s := c.states[a].monitor.reg, c.states[n].monitor;
    && (i in reg.instances || M.FirstOwner(members, reg.fleetOrder, i).Some?)
    && s.queue == [] && !s.pc.Holding?
  }

  /** Then the warning is dispatched exactly once in between. */
  lemma RegisteredWarningIsDispatched(cfg: Config, c: Course, a: nat, b: nat, n: nat, m: nat, i: M.InstanceId,
          members: M.Membership) returns (p: nat)
    requires IsCourse(cfg, c) && RoutedAt(c, a, b, m, i, members) && b < n < |c.states|
    requires RegisteredThenDrained(c, a, n, i, members)
    ensures b < p < n && c.acts[p] == Monitor(M.Dispatch) && c.states[p].monitor.pc.Holding?
    ensures M.Routed(c.states[a].monitor.reg, members, m, i) == [c.states[p].monitor.pc.event]
    ensures var done := c.states[n].monitor.done;
            forall y :: 0 <= y < |done| && done[y].event.message == Some(m) ==> y == |c.states[p].monitor.done|
  {
    var states := Monitors(c);
    p := DispatchedInTrace(cfg, c, states, a, b, n, m, i, members);
    assert states[a] == c.states[a].monitor && states[n] == c.states[n].monitor && states[p] == c.states[p].monitor;
    DispatchingAct(cfg, c, p);
  }

  lemma DispatchedInTrace(cfg: Config, c: Course, states: seq<M.State>, a: nat, b: nat, n: nat, m: nat,
          i: M.InstanceId, members: M.Membership) returns (p: nat)
    requires IsCourse(cfg, c) && RoutedAt(c, a, b, m, i, members) && b < n < |c.states| && states == Monitors(c)
    requires RegisteredThenDrained(c, a, n, i, members)
    ensures b < p < n && states[p].pc.Holding? && states[p + 1] == M.Next(states[p], M.Dispatch)
    ensures M.Routed(states[a].reg, members, m, i) == [states[p].pc.event]
    ensures forall y :: 0 <= y < |states[n].done| && states[n].done[y].event.message == Some(m) ==>
              y == |states[p].done|
  {
    MonitorsAreTrace(cfg, c);
    RoutedInTrace(cfg, c, a, b, m, i, members);
    p := M.RegisteredWarningIsCalledOnce(states, a, b, n, m, i, members);
  }

  /**
   * From SQS to Parsl. When the owner of instance `i` is registered as the warning about it is
   * received, and the monitor has drained its queue since, the warning was dispatched exactly once,
   * at some act `p`; if its owner was still registered there, every resource it targets is lost for
   * a job that was at work on it, and that job reads FAILED from then on as long as it is tracked.
   */
  lemma RegisteredWarningReachesParsl(cfg: Config, c: Course, a: nat, b: nat, n: nat, m: nat, i: M.InstanceId,
          members: M.Membership, job: JobId, r: ResourceId, keys: seq<Option<JobId>>,
          read: ResourceId -> Option<Reading>) returns (p: nat)
    requires IsCourse(cfg, c) && RoutedAt(c, a, b, m, i, members) && b < n < |c.states|
    requires RegisteredThenDrained(c, a, n, i, members)
    ensures b < p < n && c.acts[p] == Monitor(M.Dispatch) && c.states[p].monitor.pc.Holding?
    ensures M.Routed(c.states[a].monitor.reg, members, m, i) == [c.states[p].monitor.pc.event]
    ensures var done := c.states[n].monitor.done;
            forall y :: 0 <= y < |done| && done[y].event.message == Some(m) ==> y == |c.states[p].monitor.done|
    ensures StillRegistered(c.states[p]) && Spared(c, p + 1, n, job) && Some(job) in keys
            && Targets(c.states[p].joint.records, c.states[p].monitor.pc.event, r)
            && AtWork(c.states[p].joint, job, r) ==>
              LostFor(c.states[n].joint, job, r, keys, read)
  {
    p := RegisteredWarningIsDispatched(cfg, c, a, b, n, m, i, members);
    RoutedNames(c.states[a].monitor.reg, members, m, i);
    if StillRegistered(c.states[p]) && Spared(c, p + 1, n, job) && Some(job) in keys
       && Targets(c.states[p].joint.records, c.states[p].monitor.pc.event, r) && AtWork(c.states[p].joint, job, r) {
      WarningReachesParsl(cfg, c, a, p, n, m, i, job, r, keys, read);
    }
  }

  lemma RoutedNames(reg: M.Registry, members: M.Membership, m: nat, i: M.InstanceId)
    ensures forall e :: e in M.Routed(reg, members, m, i) ==> e.message == Some(m)
  {
  }
}
