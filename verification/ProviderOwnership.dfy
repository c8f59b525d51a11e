/**
 * Which job a resource belongs to, over any run whatever: saves may be lost and restarts may find
 * documents that disagree. What decides is the head of the warm list a submission takes.
 */
module ProviderOwnership {
  import opened Collections
  import opened ProviderModel
  import opened ProviderInvariants
  import opened ProviderRuns

  /** The two dictionaries point at each other. Nothing is asked of the warm list. */
  ghost predicate Linked(st: ProviderState) {
    Ordered(st) && Owned(st) && Active(st)
  }

  /** No two jobs that may still be polled point at one resource. */
  ghost predicate Apart(st: ProviderState) {
    forall i, j :: i in st.jobMap && j in st.jobMap && i != j
        && !Terminal(st.jobMap[i].status) && !Terminal(st.jobMap[j].status)
      ==> st.jobMap[i].resourceId != st.jobMap[j].resourceId
  }

  lemma LinkedIsApart(st: ProviderState)
    requires Linked(st)
    ensures Apart(st)
  {
    forall i, j | i in st.jobMap && j in st.jobMap && i != j
                  && !Terminal(st.jobMap[i].status) && !Terminal(st.jobMap[j].status)
      ensures st.jobMap[i].resourceId != st.jobMap[j].resourceId
    {
      assert OwnsItsResource(st, i) && OwnsItsResource(st, j);
    }
  }

  // ---------------------------------------------------------------- submit

  /** `id` may be given to a new job: it is untracked, or the job that owns it is over. */
  ghost predicate Free(st: ProviderState, id: ResourceId) {
    id in st.resources && st.resources[id].jobId in st.jobMap ==> Terminal(st.jobMap[st.resources[id].jobId].status)
  }

  lemma RecordLinks(cfg: Config, st: ProviderState, job: JobId, id: ResourceId)
    requires Linked(st) && job !in st.jobMap && Free(st, id)
    ensures Linked(Record(cfg, st, job, id))
  {
    var t := Record(cfg, st, job, id);
    assert forall r :: r in st.resources ==> st.resources[r].jobId != job;
    forall j | j in t.jobMap && !Terminal(t.jobMap[j].status)
      ensures OwnsItsResource(t, j)
    {
      if j != job {
        assert OwnsItsResource(st, j);
        assert st.jobMap[j].resourceId != id;
      }
    }
  }

  /** Given to a new job while its owner is not over, a resource is shared by the two. */
  lemma RecordShares(cfg: Config, st: ProviderState, job: JobId, id: ResourceId)
    requires Linked(st) && job !in st.jobMap && !Free(st, id)
    ensures var t, owner := Record(cfg, st, job, id), st.resources[id].jobId;
            && owner != job && owner in t.jobMap && t.jobMap[owner] == st.jobMap[owner]
            && t.jobMap[owner].resourceId == id && t.resources[id].jobId == job
            && !OwnsItsResource(t, owner) && !Apart(t)
  {
    var t, owner := Record(cfg, st, job, id), st.resources[id].jobId;
    assert t.jobMap[job].resourceId == id == t.jobMap[owner].resourceId;
  }

  /** A submission that reuses the head of the warm list keeps jobs apart if and only if it is free. */
  lemma ReuseKeepsLinksIff(cfg: Config, st: ProviderState, job: JobId)
    requires Linked(st) && job !in st.jobMap && LaunchPossible(cfg, st, Reused)
    ensures Linked(AfterLaunch(cfg, st, job, Reused)) <==> Free(st, st.warm[0])
    ensures Apart(AfterLaunch(cfg, st, job, Reused)) <==> Free(st, st.warm[0])
  {
    var popped, id := st.(warm := st.warm[1..]), st.warm[0];
    if Free(st, id) {
      RecordLinks(cfg, popped, job, id);
      LinkedIsApart(Record(cfg, popped, job, id));
    } else {
      RecordShares(cfg, popped, job, id);
    }
  }

  /** What a shared resource comes to: a poll for the old owner writes onto the new one's resource. */
  lemma SharedPollsCross(cfg: Config, st: ProviderState, job: JobId, status: Status)
    requires Linked(st) && job !in st.jobMap && LaunchPossible(cfg, st, Reused) && !Free(st, st.warm[0])
    ensures var t, id := AfterLaunch(cfg, st, job, Reused), st.warm[0];
            var owner := st.resources[id].jobId;
            var u := WriteBack(t, Polled(t, [Some(owner)]), map[id := status]);
            && owner in Polled(t, [Some(owner)]) && job !in Polled(t, [Some(owner)])
            && u.resources[id].jobId == job != owner && u.resources[id].status == status == u.jobMap[owner].status
            && u.jobMap[job].status.Pending?
  {
    var t, id := AfterLaunch(cfg, st, job, Reused), st.warm[0];
    var owner := st.resources[id].jobId;
    RecordShares(cfg, st.(warm := st.warm[1..]), job, id);
    assert Some(owner) in [Some(owner)];
    assert id in PointedAt(t, Polled(t, [Some(owner)]));
  }

  lemma LaunchLinks(cfg: Config, st: ProviderState, job: JobId, launch: Launch)
    requires Linked(st) && LaunchPossible(cfg, st, launch) && job !in st.jobMap
    requires (launch.Fresh? ==> launch.id !in st.resources) && (launch.Reused? ==> Free(st, st.warm[0]))
    ensures Linked(AfterLaunch(cfg, st, job, launch))
  {
    match launch
    case Fresh(id) => RecordLinks(cfg, st, job, id);
    case Reused => RecordLinks(cfg, st.(warm := st.warm[1..]), job, st.warm[0]);
    case ReuseFailed =>
    case LaunchFailed =>
  }

  // ---------------------------------------------------------------- polling, cancelling, cleaning up

  lemma PolledAreOwners(st: ProviderState, keys: seq<Option<JobId>>)
    requires Linked(st)
    ensures Own(st, Polled(st, keys))
  {
  }

  lemma VictimsAreOwners(st: ProviderState, blocks: nat)
    requires Linked(st)
    ensures Own(st, Known(st, Keys(Victims(st, blocks))))
  {
    var victims := Victims(st, blocks);
    var running := RunningIds(st, st.order);
    forall j | j in Known(st, Keys(victims))
      ensures OwnsItsResource(st, j)
    {
      var k :| 0 <= k < |victims| && Keys(victims)[k] == Some(j);
      assert victims[k] == j;
      assert running[k] in running && st.resources[running[k]].jobId == j;
    }
  }

  lemma AnswersLink(st: ProviderState, jobs: set<JobId>, statuses: map<ResourceId, Status>)
    requires Linked(st) && Own(st, jobs)
    ensures Linked(WriteBack(st, jobs, statuses))
  {
    WriteBackLinks(st, jobs, statuses);
  }

  ghost predicate SameOwners(before: map<ResourceId, Resource>, after: map<ResourceId, Resource>) {
    after.Keys == before.Keys && forall r :: r in before ==> after[r].jobId == before[r].jobId
  }

  /** Promotions touch no owner, and list nothing but what they promote. */
  lemma {:induction false} PromotionsKeepOwners(size: nat, p: Pool, ids: seq<ResourceId>, promote: nat -> real, n: nat)
    requires n <= |ids| && (n > 0 ==> size > 0)
    requires forall id :: id in ids ==> id in p.resources
    ensures var q := PromoteAll(size, p, ids, promote, n);
            SameOwners(p.resources, q.resources) && Elems(q.warm) <= Elems(p.warm) + p.resources.Keys
  {
    if n > 0 {
      assert ids[n - 1] in ids;
      PromotionsKeepOwners(size, p, ids, promote, n - 1);
    }
  }

  lemma {:induction false} UnlistShrinks(resources: map<ResourceId, Resource>, warm: seq<ResourceId>,
          reaped: seq<ResourceId>, n: nat)
    requires n <= |reaped|
    ensures Elems(Unlist(resources, warm, reaped, n)) <= Elems(warm)
  {
    if n > 0 {
      UnlistShrinks(resources, warm, reaped, n - 1);
    }
  }

  lemma SameOwnersLink(st: ProviderState, t: ProviderState)
    requires Linked(st) && t.order == st.order && t.jobMap == st.jobMap && SameOwners(st.resources, t.resources)
    ensures Linked(t)
  {
    forall j | j in t.jobMap && !Terminal(t.jobMap[j].status)
      ensures OwnsItsResource(t, j)
    {
      assert OwnsItsResource(st, j);
    }
  }

  lemma ForgetLinks(st: ProviderState, gone: set<ResourceId>)
    requires Linked(st)
    ensures Linked(Forget(st, gone))
  {
    var t := Forget(st, gone);
    WithoutNoDup(st.order, gone);
    forall r | r in t.resources
      ensures t.resources[r].jobId in t.jobMap && t.jobMap[t.resources[r].jobId].resourceId == r
    {
      assert forall g :: g in st.resources && g in gone ==> st.jobMap[st.resources[g].jobId].resourceId == g != r;
    }
    forall j | j in t.jobMap && !Terminal(t.jobMap[j].status)
      ensures OwnsItsResource(t, j)
    {
      assert OwnsItsResource(st, j);
      assert st.jobMap[j].resourceId !in gone;
    }
  }

  /** A clean-up pass keeps the links, whatever fails and whatever the warm list says. */
  lemma CleanupLinks(cfg: Config, st: ProviderState, run: CleanupRun)
    requires Linked(st) && PoolSizable(cfg, st)
    ensures Linked(Cleanup(cfg, st, run))
    ensures Elems(Cleanup(cfg, st, run).warm) <= Elems(st.warm) + st.resources.Keys
  {
    var p, t := PoolAfter(cfg, st, run), Settled(cfg, st, run);
    NothingToPromote(cfg, st, run, |st.order|);
    var ids := Promoted(cfg, st, run);
    PromotionsKeepOwners(cfg.warmPoolSize, StartPool(cfg, st, run), ids, run.promote, |ids|);
    UnlistShrinks(p.resources, p.warm, p.reaped, |p.reaped|);
    SameOwnersLink(st, t);
    if run.terminated {
      ForgetLinks(t, Elems(p.reaped));
    }
  }

  // ---------------------------------------------------------------- one step

  /** Every id in use was handed out before, those on the warm list included. */
  ghost predicate Handed(jobs: set<JobId>, ids: set<ResourceId>, st: ProviderState) {
    st.jobMap.Keys <= jobs && st.resources.Keys <= ids && Elems(st.warm) <= ids
  }

  ghost predicate Sound(jobs: set<JobId>, ids: set<ResourceId>, st: ProviderState) {
    Linked(st) && Handed(jobs, ids, st)
  }

  /** The live state and the provider's document are linked; the mode's list is any list of ids. */
  ghost predicate Kept(w: World) {
    && Sound(w.jobs, w.ids, w.sys.live)
    && (w.sys.saved.Some? ==> Sound(w.jobs, w.ids, w.sys.saved.value))
    && (w.sys.listed.Some? ==> Elems(w.sys.listed.value) <= w.ids)
  }

  /** What a step leaves: a new live state, and documents that are the old ones or the new state's. */
  ghost predicate Leaves(before: System, after: System, live: ProviderState) {
    && after.live == live
    && (after.saved == before.saved || after.saved == Some(live))
    && (after.listed == before.listed || after.listed == Some(before.live.warm) || after.listed == Some(live.warm))
  }

  lemma LeavesKept(w: World, t: World, live: ProviderState)
    requires Kept(w) && w.jobs <= t.jobs && w.ids <= t.ids
    requires Sound(t.jobs, t.ids, live) && Leaves(w.sys, t.sys, live)
    ensures Kept(t)
  {
  }

  /** A submission that is let in and takes the head of the warm list. */
  ghost predicate Reuses(cfg: Config, st: ProviderState, step: Step) {
    step.Submit? && step.launch.Reused? && |st.order| < cfg.maxBlocks
  }

  lemma SubmitKept(cfg: Config, w: World, step: Step)
    requires Kept(w) && Sizable(cfg, w.sys) && step.Submit? && Possible(cfg, w, step)
    requires Reuses(cfg, w.sys.live, step) ==> Free(w.sys.live, w.sys.live.warm[0])
    ensures Kept(Next(cfg, w, step))
  {
    var st, t := w.sys.live, Next(cfg, w, step);
    SubmitFollows(cfg, w.sys, step.job, step.launch, step.submitSaves);
    if |st.order| < cfg.maxBlocks {
      var live := AfterLaunch(cfg, st, step.job, step.launch);
      LaunchLinks(cfg, st, step.job, step.launch);
      LaunchHands(cfg, w.jobs, w.ids, st, step.job, step.launch);
      LeavesKept(w, t, live);
    } else {
      LeavesKept(w, t, st);
    }
  }

  lemma LaunchHands(cfg: Config, jobs: set<JobId>, ids: set<ResourceId>, st: ProviderState, job: JobId, launch: Launch)
    requires Handed(jobs, ids, st) && LaunchPossible(cfg, st, launch)
    ensures Handed(jobs + {job}, if launch.Fresh? then ids + {launch.id} else ids, AfterLaunch(cfg, st, job, launch))
  {
    if launch.Reused? || launch.ReuseFailed? {
      assert st.warm[0] in Elems(st.warm);
      assert Elems(st.warm[1..]) <= Elems(st.warm);
    }
  }

  lemma PollKept(cfg: Config, w: World, keys: seq<Option<JobId>>, answer: ModeAnswer, saves: Saves)
    requires Kept(w)
    ensures Kept(w.(sys := PollStep(w.sys, keys, answer, saves)))
  {
    match Effective(w.sys.live, keys, answer)
    case Raised =>
    case Answered(statuses) =>
      PolledAreOwners(w.sys.live, keys);
      AnswersLink(w.sys.live, Polled(w.sys.live, keys), statuses);
      var live := WriteBack(w.sys.live, Polled(w.sys.live, keys), statuses);
      LeavesKept(w, w.(sys := PollStep(w.sys, keys, answer, saves)), live);
  }

  lemma CleanupKept(cfg: Config, w: World, run: CleanupRun)
    requires Kept(w) && PoolSizable(cfg, w.sys.live)
    ensures Kept(w.(sys := CleanupStep(cfg, w.sys, run)))
  {
    CleanupLinks(cfg, w.sys.live, run);
    CleanupShrinks(cfg, w.sys.live, run);
    LeavesKept(w, w.(sys := CleanupStep(cfg, w.sys, run)), Cleanup(cfg, w.sys.live, run));
  }

  lemma ScaleInKept(cfg: Config, w: World, blocks: int, answer: ModeAnswer, run: CleanupRun, saves: Saves)
    requires Kept(w) && Sizable(cfg, w.sys)
    ensures Kept(w.(sys := ScaleInStep(cfg, w.sys, blocks, answer, run, saves)))
  {
    if blocks > 0 && answer.Answered? {
      var keys := Keys(Victims(w.sys.live, blocks));
      VictimsAreOwners(w.sys.live, blocks);
      AnswersLink(w.sys.live, Known(w.sys.live, keys), answer.statuses);
      var t := w.(sys := CancelWrites(w.sys, keys, answer.statuses, saves.mode));
      LeavesKept(w, t, WriteBack(w.sys.live, Known(w.sys.live, keys), answer.statuses));
      CleanupKept(cfg, t, run);
    }
  }

  lemma RestartKept(w: World, modeSaved: bool)
    requires Kept(w)
    ensures Kept(w.(sys := RestartStep(w.sys, modeSaved)))
  {
    assert Linked(EMPTY);
  }

  lemma StepKept(cfg: Config, w: World, step: Step)
    requires Kept(w) && Sizable(cfg, w.sys) && Possible(cfg, w, step)
    requires Reuses(cfg, w.sys.live, step) ==> Free(w.sys.live, w.sys.live.warm[0])
    ensures Kept(Next(cfg, w, step))
  {
    match step
    case Submit(_, _, _) => SubmitKept(cfg, w, step);
    case Poll(keys, answer, saves, run) =>
      PollKept(cfg, w, keys, answer, saves);
      CleanupKept(cfg, w.(sys := PollStep(w.sys, keys, answer, saves)), run);
    case ScaleIn(blocks, answer, run, saves) => ScaleInKept(cfg, w, blocks, answer, run, saves);
    case Restart(modeSaved) => RestartKept(w, modeSaved);
  }

  // ---------------------------------------------------------------- runs

  /** Every submission of the run that reuses an instance takes a free one. */
  ghost predicate FreeReuses(cfg: Config, w: World, steps: seq<Step>)
    requires Sizable(cfg, w.sys) && Legal(cfg, w, steps)
    decreases |steps|
  {
    steps != [] ==>
      && (Reuses(cfg, w.sys.live, steps[0]) ==> Free(w.sys.live, w.sys.live.warm[0]))
      && (StepSizable(cfg, w, steps[0]); FreeReuses(cfg, Next(cfg, w, steps[0]), steps[1..]))
  }

  ghost predicate AlwaysLinked(cfg: Config, w: World, steps: seq<Step>)
    requires Sizable(cfg, w.sys) && Legal(cfg, w, steps)
    decreases |steps|
  {
    && Linked(w.sys.live)
    && (steps != [] ==> (StepSizable(cfg, w, steps[0]); AlwaysLinked(cfg, Next(cfg, w, steps[0]), steps[1..])))
  }

  ghost predicate AlwaysApart(cfg: Config, w: World, steps: seq<Step>)
    requires Sizable(cfg, w.sys) && Legal(cfg, w, steps)
    decreases |steps|
  {
    && Apart(w.sys.live)
    && (steps != [] ==> (StepSizable(cfg, w, steps[0]); AlwaysApart(cfg, Next(cfg, w, steps[0]), steps[1..])))
  }

  lemma UnfreeReuse(cfg: Config, w: World, step: Step)
    requires Kept(w) && Sizable(cfg, w.sys) && Possible(cfg, w, step)
    requires Reuses(cfg, w.sys.live, step) && !Free(w.sys.live, w.sys.live.warm[0])
    ensures !Linked(Next(cfg, w, step).sys.live) && !Apart(Next(cfg, w, step).sys.live)
  {
    ReuseKeepsLinksIff(cfg, w.sys.live, step.job);
  }

  lemma {:induction false} KeptThroughoutIff(cfg: Config, w: World, steps: seq<Step>)
    requires Kept(w) && Sizable(cfg, w.sys) && Legal(cfg, w, steps)
    ensures AlwaysLinked(cfg, w, steps) <==> FreeReuses(cfg, w, steps)
    ensures AlwaysApart(cfg, w, steps) <==> FreeReuses(cfg, w, steps)
    ensures FreeReuses(cfg, w, steps) ==> Kept(After(cfg, w, steps))
    decreases |steps|
  {
    LinkedIsApart(w.sys.live);
    if steps != [] {
      StepSizable(cfg, w, steps[0]);
      if Reuses(cfg, w.sys.live, steps[0]) && !Free(w.sys.live, w.sys.live.warm[0]) {
        UnfreeReuse(cfg, w, steps[0]);
      } else {
        StepKept(cfg, w, steps[0]);
        KeptThroughoutIff(cfg, Next(cfg, w, steps[0]), steps[1..]);
      }
    }
  }

  /**
   * Over any run, with any saves lost and restarts at any point: the dictionaries point at each
   * other throughout, and no two unfinished jobs ever share a resource, if and only if every
   * submission that reuses an instance finds it untracked or left by a job that is over.
   */
  lemma RunsStayLinkedIff(cfg: Config, steps: seq<Step>)
    requires FromScratch(cfg, steps)
    ensures AlwaysLinked(cfg, FLEDGLING, steps) <==> FreeReuses(cfg, FLEDGLING, steps)
    ensures AlwaysApart(cfg, FLEDGLING, steps) <==> FreeReuses(cfg, FLEDGLING, steps)
  {
    assert Linked(EMPTY);
    KeptThroughoutIff(cfg, FLEDGLING, steps);
  }

  lemma ReachedIsLinked(cfg: Config, steps: seq<Step>)
    requires FromScratch(cfg, steps) && FreeReuses(cfg, FLEDGLING, steps)
    ensures Linked(Reached(cfg, steps))
  {
    assert Linked(EMPTY);
    KeptThroughoutIff(cfg, FLEDGLING, steps);
  }

  /**
   * Ownership over every such run: each tracked resource's job points back at it, every job that may
   * still be polled owns the resource it points at, and no two of them share one.
   */
  lemma RunsKeepOwnership(cfg: Config, steps: seq<Step>)
    requires FromScratch(cfg, steps) && FreeReuses(cfg, FLEDGLING, steps)
    ensures var st := Reached(cfg, steps);
            && (forall r :: r in st.resources ==>
                  st.resources[r].jobId in st.jobMap && st.jobMap[st.resources[r].jobId].resourceId == r)
            && (forall j :: j in st.jobMap && !Terminal(st.jobMap[j].status) ==> OwnsItsResource(st, j))
            && Apart(st)
  {
    ReachedIsLinked(cfg, steps);
    LinkedIsApart(Reached(cfg, steps));
  }

  /** After any such run, a poll changes only records of jobs it asked about, each by its own answer. */
  lemma PollsNeverCross(cfg: Config, steps: seq<Step>, keys: seq<Option<JobId>>, statuses: map<ResourceId, Status>)
    requires FromScratch(cfg, steps) && FreeReuses(cfg, FLEDGLING, steps)
    ensures var st := Reached(cfg, steps);
            var t := WriteBack(st, Polled(st, keys), statuses);
            && (forall r :: r in st.resources && t.resources[r] != st.resources[r] ==>
                  && Some(st.resources[r].jobId) in keys && r in statuses
                  && st.resources[r].jobId in t.jobMap
                  && t.resources[r].status == statuses[r] == t.jobMap[st.resources[r].jobId].status)
            && (forall j :: j in st.jobMap && t.jobMap[j] != st.jobMap[j] ==>
                  && Some(j) in keys && OwnsItsResource(st, j) && !Terminal(st.jobMap[j].status)
                  && t.resources[st.jobMap[j].resourceId].status == t.jobMap[j].status)
  {
    ReachedIsLinked(cfg, steps);
    var st := Reached(cfg, steps);
    PolledAreOwners(st, keys);
    WriteBackPointwise(st, Polled(st, keys), statuses);
  }

  // ---------------------------------------------------------------- documents that agree

  /** While the list names WARM resources only, its head was left by a job that is COMPLETED. */
  lemma ListedHeadIsFree(cfg: Config, st: ProviderState)
    requires Inv(cfg, st) && st.warm != []
    ensures Free(st, st.warm[0])
  {
    assert st.warm[0] in st.warm;
  }

  lemma {:induction false} GoodRunsReuseFreely(cfg: Config, w: World, steps: seq<Step>)
    requires Good(cfg, Links, w) && Sizable(cfg, w.sys) && Legal(cfg, w, steps) && SafeRestarts(cfg, Links, w, steps)
    ensures FreeReuses(cfg, w, steps)
    decreases |steps|
  {
    if steps != [] {
      if Reuses(cfg, w.sys.live, steps[0]) {
        ListedHeadIsFree(cfg, w.sys.live);
      }
      StepSizable(cfg, w, steps[0]);
      StepGood(cfg, Links, w, steps[0]);
      GoodRunsReuseFreely(cfg, Next(cfg, w, steps[0]), steps[1..]);
    }
  }

  /** Documents that agree at every restart are enough, and saves that go through are enough for that. */
  lemma AgreeingRunsReuseFreely(cfg: Config, steps: seq<Step>)
    requires FromScratch(cfg, steps)
    ensures SafeRestarts(cfg, Links, FLEDGLING, steps) ==> FreeReuses(cfg, FLEDGLING, steps)
    ensures (forall k :: 0 <= k < |steps| ==> Persisted(steps[k])) ==> FreeReuses(cfg, FLEDGLING, steps)
  {
    FledglingGood(cfg, Links);
    if forall k :: 0 <= k < |steps| ==> Persisted(steps[k]) {
      PersistedRunsRestartSafely(cfg, Links, steps);
    }
    if SafeRestarts(cfg, Links, FLEDGLING, steps) {
      GoodRunsReuseFreely(cfg, FLEDGLING, steps);
    }
  }
}
