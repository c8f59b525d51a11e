/** Whole runs of the provider: submits, polls, scale-ins and restarts, in any order. */
module ProviderRuns {
  import opened Collections
  import opened ProviderModel
  import opened ProviderInvariants

  datatype Step =
    | Submit(job: JobId, launch: Launch, submitSaves: Saves)
    | Poll(keys: seq<Option<JobId>>, answer: ModeAnswer, pollSaves: Saves, run: CleanupRun)
    | ScaleIn(blocks: int, answer: ModeAnswer, run: CleanupRun, scaleSaves: Saves)
    | Restart(modeSaved: bool)

  /** The provider together with every id ever handed out; ids are UUIDs and never repeat. */
  datatype World = World(sys: System, jobs: set<JobId>, ids: set<ResourceId>)

  const FLEDGLING := World(System(EMPTY, None, None), {}, {})

  ghost predicate Possible(cfg: Config, w: World, step: Step) {
    match step
    case Submit(job, launch, _) =>
      LaunchPossible(cfg, w.sys.live, launch) && job !in w.jobs && (launch.Fresh? ==> launch.id !in w.ids)
    case Poll(_, answer, _, _) => NeverWarm(answer)
    case ScaleIn(_, answer, _, _) => NeverWarm(answer)
    case Restart(_) => true
  }

  ghost predicate Sizable(cfg: Config, s: System) {
    PoolSizable(cfg, s.live) && (s.saved.Some? ==> PoolSizable(cfg, s.saved.value))
  }

  ghost function Next(cfg: Config, w: World, step: Step): World
    requires Sizable(cfg, w.sys) && Possible(cfg, w, step)
  {
    match step
    case Submit(job, launch, saves) =>
      World(SubmitStep(cfg, w.sys, job, launch, saves).0,
            w.jobs + {job},
            if launch.Fresh? then w.ids + {launch.id} else w.ids)
    case Poll(keys, answer, saves, run) => w.(sys := StatusStep(cfg, w.sys, keys, answer, saves, run))
    case ScaleIn(blocks, answer, run, saves) => w.(sys := ScaleInStep(cfg, w.sys, blocks, answer, run, saves))
    case Restart(modeSaved) => w.(sys := RestartStep(w.sys, modeSaved))
  }

  lemma CleanupSizable(cfg: Config, st: ProviderState, run: CleanupRun)
    requires PoolSizable(cfg, st)
    ensures PoolSizable(cfg, Cleanup(cfg, st, run))
  {
    NothingToPromote(cfg, st, run, |st.order|);
  }

  lemma StatusSizable(cfg: Config, s: System, keys: seq<Option<JobId>>, answer: ModeAnswer, saves: Saves,
          run: CleanupRun)
    requires Sizable(cfg, s)
    ensures Sizable(cfg, StatusStep(cfg, s, keys, answer, saves, run))
  {
    var polled := PollStep(s, keys, answer, saves);
    assert Sizable(cfg, polled);
    CleanupSizable(cfg, polled.live, run);
  }

  lemma ScaleInSizable(cfg: Config, s: System, blocks: int, answer: ModeAnswer, run: CleanupRun, saves: Saves)
    requires Sizable(cfg, s)
    ensures Sizable(cfg, ScaleInStep(cfg, s, blocks, answer, run, saves))
  {
    if blocks > 0 && answer.Answered? {
      var t := CancelWrites(s, Keys(Victims(s.live, blocks)), answer.statuses, saves.mode);
      assert Sizable(cfg, t);
      CleanupSizable(cfg, t.live, run);
    }
  }

  lemma StepSizable(cfg: Config, w: World, step: Step)
    requires Sizable(cfg, w.sys) && Possible(cfg, w, step)
    ensures Sizable(cfg, Next(cfg, w, step).sys)
  {
    match step
    case Submit(_, _, _) =>
    case Poll(keys, answer, saves, run) => StatusSizable(cfg, w.sys, keys, answer, saves, run);
    case ScaleIn(blocks, answer, run, saves) => ScaleInSizable(cfg, w.sys, blocks, answer, run, saves);
    case Restart(_) =>
  }

  // ---------------------------------------------------------------- what a state can promise

  /** The links alone; a WARM population that fits the pool besides; a warm list that is that population. */
  datatype Claim = Links | Fits | Complete

  ghost predicate Holds(cfg: Config, c: Claim, st: ProviderState) {
    && Inv(cfg, st)
    && (c.Fits? ==> |WarmIds(st)| <= cfg.warmPoolSize)
    && (c.Complete? ==> ExactPool(cfg, st))
  }

  ghost predicate Issued(w: World, st: ProviderState) {
    st.jobMap.Keys <= w.jobs && st.resources.Keys <= w.ids
  }

  /** The live state and the provider's document both keep the promise. */
  ghost predicate Good(cfg: Config, c: Claim, w: World) {
    && Holds(cfg, c, w.sys.live) && Issued(w, w.sys.live)
    && (w.sys.saved.Some? ==> Holds(cfg, c, w.sys.saved.value) && Issued(w, w.sys.saved.value))
  }

  /** What the promise asks of AWS: that terminations go through, and warm submissions too. */
  ghost predicate Granted(c: Claim, step: Step) {
    match step
    case Submit(_, launch, _) => c.Complete? ==> !launch.ReuseFailed?
    case Poll(_, _, _, run) => !c.Links? ==> run.terminated
    case ScaleIn(_, _, run, _) => !c.Links? ==> run.terminated
    case Restart(_) => true
  }

  function Restored(s: System): ProviderState {
    if s.saved.Some? then s.saved.value else EMPTY
  }

  /**
   * The two documents agree about the warm list: the mode's has no duplicates and names only
   * resources that are WARM in the provider's document; for a complete list, all of them.
   */
  ghost predicate MayRestart(c: Claim, s: System) {
    s.listed.Some? ==>
      && NoDup(s.listed.value)
      && (forall x :: x in s.listed.value ==> x in Restored(s).resources && Restored(s).resources[x].status.Warm?)
      && (c.Complete? ==> forall r :: r in Restored(s).resources && Restored(s).resources[r].status.Warm? ==>
           r in s.listed.value)
  }

  // ---------------------------------------------------------------- one step

  lemma EmptyHolds(cfg: Config, c: Claim)
    ensures Holds(cfg, c, EMPTY)
  {
    assert WarmIds(EMPTY) == {};
  }

  lemma SubmitHolds(cfg: Config, c: Claim, st: ProviderState, job: JobId, launch: Launch)
    requires Holds(cfg, c, st) && LaunchPossible(cfg, st, launch) && (c.Complete? ==> !launch.ReuseFailed?)
    requires job !in st.jobMap && (launch.Fresh? ==> launch.id !in st.resources)
    ensures Holds(cfg, c, AfterLaunch(cfg, st, job, launch))
  {
    SubmitKeeps(cfg, st, job, launch);
    SubsetSize(WarmIds(AfterLaunch(cfg, st, job, launch)), WarmIds(st));
  }

  lemma WriteBackHolds(cfg: Config, c: Claim, st: ProviderState, jobs: set<JobId>, statuses: map<ResourceId, Status>)
    requires Holds(cfg, c, st) && NeverWarm(Answered(statuses)) && OwnLive(st, jobs)
    ensures Holds(cfg, c, WriteBack(st, jobs, statuses))
  {
    WriteBackKeeps(cfg, st, jobs, statuses);
  }

  lemma CleanupHolds(cfg: Config, c: Claim, st: ProviderState, run: CleanupRun)
    requires Holds(cfg, c, st) && (!c.Links? ==> run.terminated)
    ensures Holds(cfg, c, Cleanup(cfg, st, run))
  {
    CleanupKeeps(cfg, st, run);
    if c.Fits? {
      CleanupCaps(cfg, st, run);
    }
  }

  lemma CleanupShrinks(cfg: Config, st: ProviderState, run: CleanupRun)
    requires PoolSizable(cfg, st)
    ensures var t := Cleanup(cfg, st, run);
            && t.resources.Keys <= st.resources.Keys
            && (forall j :: j in t.jobMap ==> j in st.jobMap && t.jobMap[j] == st.jobMap[j])
  {
  }

  lemma SubmitIssues(cfg: Config, c: Claim, w: World, job: JobId, launch: Launch)
    requires Holds(cfg, c, w.sys.live) && Issued(w, w.sys.live) && LaunchPossible(cfg, w.sys.live, launch)
    ensures var t := AfterLaunch(cfg, w.sys.live, job, launch);
            && t.jobMap.Keys <= w.jobs + {job}
            && t.resources.Keys <= if launch.Fresh? then w.ids + {launch.id} else w.ids
  {
    if launch.Reused? {
      PopKeeps(cfg, w.sys.live);
    }
  }

  /** The documents a step leaves: the provider's is the old one or the new state. */
  ghost predicate Follows(before: System, after: System, live: ProviderState) {
    after.live == live && (after.saved == before.saved || after.saved == Some(live))
  }

  lemma GoodFollows(cfg: Config, c: Claim, w: World, t: World, live: ProviderState)
    requires Good(cfg, c, w) && w.jobs <= t.jobs && w.ids <= t.ids
    requires Holds(cfg, c, live) && Issued(t, live) && Follows(w.sys, t.sys, live)
    ensures Good(cfg, c, t)
  {
  }

  lemma SubmitFollows(cfg: Config, s: System, job: JobId, launch: Launch, saves: Saves)
    requires LaunchPossible(cfg, s.live, launch)
    ensures Follows(s, SubmitStep(cfg, s, job, launch, saves).0,
                    if |s.live.order| >= cfg.maxBlocks then s.live else AfterLaunch(cfg, s.live, job, launch))
  {
  }

  lemma SubmitGood(cfg: Config, c: Claim, w: World, step: Step)
    requires Good(cfg, c, w) && step.Submit? && Possible(cfg, w, step) && Granted(c, step)
    ensures Good(cfg, c, Next(cfg, w, step))
  {
    SubmitFollows(cfg, w.sys, step.job, step.launch, step.submitSaves);
    if |w.sys.live.order| >= cfg.maxBlocks {
      GoodFollows(cfg, c, w, Next(cfg, w, step), w.sys.live);
    } else {
      SubmitHolds(cfg, c, w.sys.live, step.job, step.launch);
      SubmitIssues(cfg, c, w, step.job, step.launch);
      GoodFollows(cfg, c, w, Next(cfg, w, step), AfterLaunch(cfg, w.sys.live, step.job, step.launch));
    }
  }

  lemma PollGood(cfg: Config, c: Claim, w: World, keys: seq<Option<JobId>>, answer: ModeAnswer, saves: Saves)
    requires Good(cfg, c, w) && NeverWarm(answer)
    ensures Good(cfg, c, w.(sys := PollStep(w.sys, keys, answer, saves)))
  {
    match Effective(w.sys.live, keys, answer)
    case Raised =>
    case Answered(statuses) =>
      PolledOwn(cfg, w.sys.live, keys);
      WriteBackHolds(cfg, c, w.sys.live, Polled(w.sys.live, keys), statuses);
  }

  lemma CleanupFollows(cfg: Config, s: System, run: CleanupRun)
    requires PoolSizable(cfg, s.live)
    ensures Follows(s, CleanupStep(cfg, s, run), Cleanup(cfg, s.live, run))
  {
  }

  lemma CleanupGood(cfg: Config, c: Claim, w: World, run: CleanupRun)
    requires Good(cfg, c, w) && (!c.Links? ==> run.terminated)
    ensures Good(cfg, c, w.(sys := CleanupStep(cfg, w.sys, run)))
  {
    CleanupHolds(cfg, c, w.sys.live, run);
    CleanupShrinks(cfg, w.sys.live, run);
    CleanupFollows(cfg, w.sys, run);
    GoodFollows(cfg, c, w, w.(sys := CleanupStep(cfg, w.sys, run)), Cleanup(cfg, w.sys.live, run));
  }

  lemma ScaleInGood(cfg: Config, c: Claim, w: World, blocks: int, answer: ModeAnswer, run: CleanupRun, saves: Saves)
    requires Good(cfg, c, w) && NeverWarm(answer) && (!c.Links? ==> run.terminated)
    ensures Good(cfg, c, w.(sys := ScaleInStep(cfg, w.sys, blocks, answer, run, saves)))
  {
    if blocks > 0 && answer.Answered? {
      var keys := Keys(Victims(w.sys.live, blocks));
      VictimsOwn(cfg, w.sys.live, blocks);
      WriteBackHolds(cfg, c, w.sys.live, Known(w.sys.live, keys), answer.statuses);
      CleanupGood(cfg, c, w.(sys := CancelWrites(w.sys, keys, answer.statuses, saves.mode)), run);
    }
  }

  lemma RelistHolds(cfg: Config, c: Claim, st: ProviderState, listed: seq<ResourceId>)
    requires Holds(cfg, c, st) && NoDup(listed)
    requires forall x :: x in listed ==> x in st.resources && st.resources[x].status.Warm?
    requires c.Complete? ==> forall r :: r in st.resources && st.resources[r].status.Warm? ==> r in listed
    ensures Holds(cfg, c, st.(warm := listed))
  {
    var t := st.(warm := listed);
    assert WarmIds(t) == WarmIds(st);
    if c.Complete? {
      assert Elems(listed) == WarmIds(st);
      NoDupSize(listed);
      NoDupSize(st.warm);
    }
  }

  lemma RestartGood(cfg: Config, c: Claim, w: World, modeSaved: bool)
    requires Good(cfg, c, w) && MayRestart(c, w.sys)
    ensures Good(cfg, c, w.(sys := RestartStep(w.sys, modeSaved)))
  {
    EmptyHolds(cfg, c);
    if w.sys.listed.Some? {
      RelistHolds(cfg, c, Restored(w.sys), w.sys.listed.value);
    }
  }

  /**
   * From documents that keep a promise about the warm list, a restart keeps it if and only if the
   * two agree in the way `MayRestart` says. Nothing about jobs depends on this.
   */
  lemma RestartKeepsIff(cfg: Config, c: Claim, w: World, modeSaved: bool)
    requires Good(cfg, c, w)
    ensures Holds(cfg, c, RestartStep(w.sys, modeSaved).live) <==> MayRestart(c, w.sys)
  {
    var t := RestartStep(w.sys, modeSaved).live;
    if MayRestart(c, w.sys) {
      RestartGood(cfg, c, w, modeSaved);
    } else if Holds(cfg, c, t) && c.Complete? {
      assert forall r :: r in WarmIds(t) ==> r in Elems(t.warm);
      assert forall r :: r in WarmIds(t) <==>
        r in Restored(w.sys).resources && Restored(w.sys).resources[r].status.Warm?;
    }
  }

  lemma StepGood(cfg: Config, c: Claim, w: World, step: Step)
    requires Good(cfg, c, w) && Possible(cfg, w, step) && Granted(c, step)
    requires step.Restart? ==> MayRestart(c, w.sys)
    ensures Good(cfg, c, Next(cfg, w, step))
  {
    match step
    case Submit(_, _, _) => SubmitGood(cfg, c, w, step);
    case Poll(keys, answer, saves, run) =>
      PollGood(cfg, c, w, keys, answer, saves);
      CleanupGood(cfg, c, w.(sys := PollStep(w.sys, keys, answer, saves)), run);
    case ScaleIn(blocks, answer, run, saves) => ScaleInGood(cfg, c, w, blocks, answer, run, saves);
    case Restart(modeSaved) => RestartGood(cfg, c, w, modeSaved);
  }

  // ---------------------------------------------------------------- runs

  /** Each step is possible where it is taken. */
  ghost predicate Legal(cfg: Config, w: World, steps: seq<Step>)
    requires Sizable(cfg, w.sys)
    decreases |steps|
  {
    steps != [] ==>
      && Possible(cfg, w, steps[0])
      && (StepSizable(cfg, w, steps[0]); Legal(cfg, Next(cfg, w, steps[0]), steps[1..]))
  }

  ghost function After(cfg: Config, w: World, steps: seq<Step>): (r: World)
    requires Sizable(cfg, w.sys) && Legal(cfg, w, steps)
    ensures Sizable(cfg, r.sys)
    decreases |steps|
  {
    if steps == [] then w
    else
      StepSizable(cfg, w, steps[0]);
      After(cfg, Next(cfg, w, steps[0]), steps[1..])
  }

  /** Every restart of the run meets documents that agree about the warm list. */
  ghost predicate SafeRestarts(cfg: Config, c: Claim, w: World, steps: seq<Step>)
    requires Sizable(cfg, w.sys) && Legal(cfg, w, steps)
    decreases |steps|
  {
    steps != [] ==>
      && (steps[0].Restart? ==> MayRestart(c, w.sys))
      && (StepSizable(cfg, w, steps[0]); SafeRestarts(cfg, c, Next(cfg, w, steps[0]), steps[1..]))
  }

  ghost predicate AllGranted(c: Claim, steps: seq<Step>) {
    forall k :: 0 <= k < |steps| ==> Granted(c, steps[k])
  }

  lemma {:induction false} RunGood(cfg: Config, c: Claim, w: World, steps: seq<Step>)
    requires Good(cfg, c, w) && Legal(cfg, w, steps) && SafeRestarts(cfg, c, w, steps) && AllGranted(c, steps)
    ensures Good(cfg, c, After(cfg, w, steps))
    decreases |steps|
  {
    if steps != [] {
      StepSizable(cfg, w, steps[0]);
      StepGood(cfg, c, w, steps[0]);
      RunGood(cfg, c, Next(cfg, w, steps[0]), steps[1..]);
    }
  }

  lemma FledglingGood(cfg: Config, c: Claim)
    ensures Good(cfg, c, FLEDGLING) && Sizable(cfg, FLEDGLING.sys)
  {
    EmptyHolds(cfg, c);
  }

  /** Runs of a provider that starts on an empty store. */
  ghost predicate FromScratch(cfg: Config, steps: seq<Step>) {
    Legal(cfg, FLEDGLING, steps)
  }

  ghost function Reached(cfg: Config, steps: seq<Step>): ProviderState
    requires FromScratch(cfg, steps)
  {
    After(cfg, FLEDGLING, steps).sys.live
  }

  /** The warm list over every run, whatever fails: duplicate-free and naming only WARM resources. */
  lemma WarmListIsWarm(cfg: Config, steps: seq<Step>)
    requires FromScratch(cfg, steps) && SafeRestarts(cfg, Links, FLEDGLING, steps)
    ensures var st := Reached(cfg, steps);
            NoDup(st.warm) && forall x :: x in st.warm ==> x in st.resources && st.resources[x].status.Warm?
  {
    FledglingGood(cfg, Links);
    RunGood(cfg, Links, FLEDGLING, steps);
  }

  /** When terminations go through, neither the list nor the WARM resources outgrow the pool. */
  lemma WarmListFits(cfg: Config, steps: seq<Step>)
    requires FromScratch(cfg, steps) && SafeRestarts(cfg, Fits, FLEDGLING, steps) && AllGranted(Fits, steps)
    ensures var st := Reached(cfg, steps);
            |st.warm| <= |WarmIds(st)| <= cfg.warmPoolSize
  {
    FledglingGood(cfg, Fits);
    RunGood(cfg, Fits, FLEDGLING, steps);
    var st := Reached(cfg, steps);
    NoDupSize(st.warm);
    SubsetSize(Elems(st.warm), WarmIds(st));
  }

  /** When submissions to warm instances go through as well, the list is all of them. */
  lemma WarmListIsThePool(cfg: Config, steps: seq<Step>)
    requires FromScratch(cfg, steps) && SafeRestarts(cfg, Complete, FLEDGLING, steps) && AllGranted(Complete, steps)
    ensures var st := Reached(cfg, steps);
            && NoDup(st.warm) && |st.warm| <= cfg.warmPoolSize
            && (forall r :: r in st.warm <==> r in st.resources && st.resources[r].status.Warm?)
  {
    FledglingGood(cfg, Complete);
    RunGood(cfg, Complete, FLEDGLING, steps);
    var st := Reached(cfg, steps);
    assert forall r :: r in st.warm <==> r in WarmIds(st);
  }

  // ---------------------------------------------------------------- saves that go through

  predicate Persisted(step: Step) {
    match step
    case Submit(_, _, saves) => saves == BOTH
    case Poll(_, _, saves, run) => saves == BOTH && run.saves == BOTH
    case ScaleIn(_, _, run, saves) => saves == BOTH && run.saves == BOTH
    case Restart(_) => true
  }

  /** The provider's document is up to date but for its warm list, and the mode's list is still true. */
  ghost predicate InStep(c: Claim, s: System) {
    && s.live == Restored(s).(warm := s.live.warm)
    && ListTrue(c, s.live, s.listed)
  }

  ghost predicate ListTrue(c: Claim, st: ProviderState, listed: Option<seq<ResourceId>>) {
    listed.Some? ==>
      && NoDup(listed.value)
      && (forall x :: x in listed.value ==> x in st.resources && st.resources[x].status.Warm?)
      && (c.Complete? ==> forall r :: r in st.resources && st.resources[r].status.Warm? ==> r in listed.value)
  }

  lemma InStepMayRestart(c: Claim, s: System)
    requires InStep(c, s)
    ensures MayRestart(c, s)
  {
  }

  lemma OwnListTrue(cfg: Config, c: Claim, st: ProviderState)
    requires Holds(cfg, c, st)
    ensures ListTrue(c, st, Some(st.warm))
  {
    if c.Complete? {
      forall r | r in st.resources && st.resources[r].status.Warm?
        ensures r in st.warm
      {
        assert r in WarmIds(st);
      }
    }
  }

  /** The list stays true while the WARM resources are the same. */
  lemma SameWarmListTrue(c: Claim, before: ProviderState, after: ProviderState, listed: Option<seq<ResourceId>>)
    requires ListTrue(c, before, listed) && WarmIds(after) == WarmIds(before)
    ensures ListTrue(c, after, listed)
  {
    forall r
      ensures r in after.resources && after.resources[r].status.Warm? <==>
                r in before.resources && before.resources[r].status.Warm?
    {
      assert r in WarmIds(after) <==> r in WarmIds(before);
    }
  }

  /** A pass with nothing to save moves nothing but the warm list. */
  lemma IdleCleanup(cfg: Config, st: ProviderState, run: CleanupRun)
    requires PoolSizable(cfg, st) && !Dirty(cfg, st, run)
    ensures var t := Cleanup(cfg, st, run); t == st.(warm := t.warm)
  {
    var p := PoolAfter(cfg, st, run);
    assert p == StartPool(cfg, st, run);
    if run.terminated {
      assert p.reaped == [] && Elems(p.reaped) == {};
      WithoutNothing(st.order);
      assert OwnersOf(st.resources, {}) == {};
      assert st.resources - {} == st.resources && st.jobMap - {} == st.jobMap;
    }
  }

  lemma CleanupInStep(cfg: Config, c: Claim, s: System, run: CleanupRun)
    requires Holds(cfg, c, s.live) && ListTrue(c, s.live, s.listed) && run.saves == BOTH &&
               (!c.Links? ==> run.terminated)
    requires InStep(c, s) || Dirty(cfg, s.live, run)
    ensures InStep(c, CleanupStep(cfg, s, run))
  {
    if Dirty(cfg, s.live, run) {
      CleanupHolds(cfg, c, s.live, run);
      OwnListTrue(cfg, c, Cleanup(cfg, s.live, run));
    } else {
      IdleCleanup(cfg, s.live, run);
      SameWarmListTrue(c, s.live, Cleanup(cfg, s.live, run), s.listed);
    }
  }

  lemma PollInStep(cfg: Config, c: Claim, s: System, keys: seq<Option<JobId>>, answer: ModeAnswer)
    requires Holds(cfg, c, s.live) && InStep(c, s) && NeverWarm(answer)
    ensures InStep(c, PollStep(s, keys, answer, BOTH))
  {
    match Effective(s.live, keys, answer)
    case Raised =>
    case Answered(statuses) =>
      PolledOwn(cfg, s.live, keys);
      WriteBackKeeps(cfg, s.live, Polled(s.live, keys), statuses);
      OwnListTrue(cfg, c, s.live);
      var t := PollStep(s, keys, answer, BOTH);
      SameWarmListTrue(c, s.live, t.live, t.listed);
  }

  /** The provider saves at the end of every answered cancellation, after its pass. */
  lemma ScaleInInStep(cfg: Config, c: Claim, s: System, blocks: int, answer: ModeAnswer, run: CleanupRun)
    requires Holds(cfg, c, s.live) && InStep(c, s) && NeverWarm(answer) && run.saves == BOTH &&
               (!c.Links? ==> run.terminated)
    ensures InStep(c, ScaleInStep(cfg, s, blocks, answer, run, BOTH))
  {
    if blocks > 0 && answer.Answered? {
      var keys := Keys(Victims(s.live, blocks));
      VictimsOwn(cfg, s.live, blocks);
      WriteBackHolds(cfg, c, s.live, Known(s.live, keys), answer.statuses);
      WriteBackKeeps(cfg, s.live, Known(s.live, keys), answer.statuses);
      OwnListTrue(cfg, c, s.live);
      var t := CancelWrites(s, keys, answer.statuses, true);
      SameWarmListTrue(c, s.live, t.live, t.listed);
      CleanupInStep(cfg, c, t.(saved := Some(t.live)), run);
      SavedOnlyAfter(cfg, t, Some(t.live), run);
    }
  }

  /** What the store held before a pass matters to nothing but what it holds after. */
  lemma SavedOnlyAfter(cfg: Config, s: System, saved: Option<ProviderState>, run: CleanupRun)
    requires PoolSizable(cfg, s.live)
    ensures var t, u := CleanupStep(cfg, s, run), CleanupStep(cfg, s.(saved := saved), run);
            t.live == u.live && t.listed == u.listed
  {
  }

  lemma SubmitInStep(cfg: Config, c: Claim, s: System, job: JobId, launch: Launch)
    requires Holds(cfg, c, s.live) && InStep(c, s)
    requires LaunchPossible(cfg, s.live, launch) && (c.Complete? ==> !launch.ReuseFailed?)
    requires job !in s.live.jobMap && (launch.Fresh? ==> launch.id !in s.live.resources)
    ensures InStep(c, SubmitStep(cfg, s, job, launch, BOTH).0)
  {
    OwnListTrue(cfg, c, s.live);
    SubmitHolds(cfg, c, s.live, job, launch);
    OwnListTrue(cfg, c, AfterLaunch(cfg, s.live, job, launch));
  }

  lemma RestartInStep(cfg: Config, c: Claim, s: System, modeSaved: bool)
    requires InStep(c, s) && (s.saved.Some? ==> Holds(cfg, c, s.saved.value))
    ensures InStep(c, RestartStep(s, modeSaved))
  {
    EmptyHolds(cfg, c);
    OwnListTrue(cfg, c, Restored(s));
    SameWarmListTrue(c, s.live, RestartStep(s, modeSaved).live, s.listed);
  }

  lemma StepInStep(cfg: Config, c: Claim, w: World, step: Step)
    requires Good(cfg, c, w) && InStep(c, w.sys) && Possible(cfg, w, step) && Granted(c, step) && Persisted(step)
    ensures InStep(c, Next(cfg, w, step).sys)
  {
    match step
    case Submit(job, launch, _) => SubmitInStep(cfg, c, w.sys, job, launch);
    case Poll(keys, answer, _, run) =>
      PollInStep(cfg, c, w.sys, keys, answer);
      PollGood(cfg, c, w, keys, answer, BOTH);
      CleanupInStep(cfg, c, PollStep(w.sys, keys, answer, BOTH), run);
    case ScaleIn(blocks, answer, run, _) => ScaleInInStep(cfg, c, w.sys, blocks, answer, run);
    case Restart(modeSaved) => RestartInStep(cfg, c, w.sys, modeSaved);
  }

  lemma {:induction false} PersistedRunsStayInStep(cfg: Config, c: Claim, w: World, steps: seq<Step>)
    requires Good(cfg, c, w) && InStep(c, w.sys) && Legal(cfg, w, steps) && AllGranted(c, steps)
    requires forall k :: 0 <= k < |steps| ==> Persisted(steps[k])
    ensures SafeRestarts(cfg, c, w, steps)
    decreases |steps|
  {
    if steps != [] {
      InStepMayRestart(c, w.sys);
      StepSizable(cfg, w, steps[0]);
      StepGood(cfg, c, w, steps[0]);
      StepInStep(cfg, c, w, steps[0]);
      PersistedRunsStayInStep(cfg, c, Next(cfg, w, steps[0]), steps[1..]);
    }
  }

  /**
   * In a run whose saves go through the documents agree at every restart, so all that is proved of
   * the warm list holds of it: that it names WARM resources, the cap when terminations go through,
   * and that it is complete when warm submissions do too.
   */
  lemma PersistedRunsRestartSafely(cfg: Config, c: Claim, steps: seq<Step>)
    requires FromScratch(cfg, steps) && AllGranted(c, steps)
    requires forall k :: 0 <= k < |steps| ==> Persisted(steps[k])
    ensures SafeRestarts(cfg, c, FLEDGLING, steps)
  {
    FledglingGood(cfg, c);
    PersistedRunsStayInStep(cfg, c, FLEDGLING, steps);
  }

  // ---------------------------------------------------------------- terminal answers

  /** The record of `j` is dropped or exactly what it was. */
  ghost predicate KeptOrDropped(before: ProviderState, after: ProviderState, j: JobId) {
    j in after.jobMap ==> j in before.jobMap && after.jobMap[j] == before.jobMap[j]
  }

  lemma PassKeepsOrDrops(cfg: Config, before: ProviderState, st: ProviderState, run: CleanupRun, j: JobId)
    requires PoolSizable(cfg, st) && KeptOrDropped(before, st, j)
    ensures KeptOrDropped(before, Cleanup(cfg, st, run), j)
  {
    CleanupShrinks(cfg, st, run);
  }

  lemma PollKeepsTerminal(cfg: Config, s: System, keys: seq<Option<JobId>>, answer: ModeAnswer, saves: Saves,
          run: CleanupRun, j: JobId)
    requires PoolSizable(cfg, s.live)
    requires j in s.live.jobMap ==> Terminal(s.live.jobMap[j].status)
    ensures KeptOrDropped(s.live, StatusStep(cfg, s, keys, answer, saves, run).live, j)
  {
    var polled := PollStep(s, keys, answer, saves);
    assert j in polled.live.jobMap ==> j !in Polled(s.live, keys);
    PassKeepsOrDrops(cfg, s.live, polled.live, run, j);
  }

  lemma VictimIsNotTerminal(cfg: Config, st: ProviderState, blocks: nat, statuses: map<ResourceId, Status>, j: JobId)
    requires Inv(cfg, st) && (j in st.jobMap ==> Terminal(st.jobMap[j].status))
    ensures KeptOrDropped(st, WriteBack(st, Known(st, Keys(Victims(st, blocks))), statuses), j)
  {
    VictimsOwn(cfg, st, blocks);
  }

  lemma ScaleInLive(cfg: Config, s: System, blocks: int, answer: ModeAnswer, run: CleanupRun, saves: Saves)
    requires PoolSizable(cfg, s.live)
    ensures var t := ScaleInStep(cfg, s, blocks, answer, run, saves).live;
            if blocks <= 0 || answer.Raised? then t == s.live
            else
              var st := WriteBack(s.live, Known(s.live, Keys(Victims(s.live, blocks))), answer.statuses);
              PoolSizable(cfg, st) && t == Cleanup(cfg, st, run)
  {
  }

  lemma ScaleInKeepsTerminal(cfg: Config, s: System, blocks: int, answer: ModeAnswer, run: CleanupRun, saves: Saves,
          j: JobId)
    requires Inv(cfg, s.live)
    requires j in s.live.jobMap ==> Terminal(s.live.jobMap[j].status)
    ensures KeptOrDropped(s.live, ScaleInStep(cfg, s, blocks, answer, run, saves).live, j)
  {
    ScaleInLive(cfg, s, blocks, answer, run, saves);
    if blocks > 0 && answer.Answered? {
      VictimIsNotTerminal(cfg, s.live, blocks, answer.statuses, j);
      PassKeepsOrDrops(cfg, s.live, WriteBack(s.live, Known(s.live, Keys(Victims(s.live, blocks))), answer.statuses),
        run, j);
    }
  }

  /** One step keeps a cached terminal answer or drops its record; a dropped job never returns. */
  lemma StepKeepsTerminal(cfg: Config, w: World, step: Step, j: JobId)
    requires Good(cfg, Links, w) && Possible(cfg, w, step) && !step.Restart? && j in w.jobs
    requires j in w.sys.live.jobMap ==> Terminal(w.sys.live.jobMap[j].status)
    ensures j in Next(cfg, w, step).jobs && KeptOrDropped(w.sys.live, Next(cfg, w, step).sys.live, j)
  {
    match step
    case Submit(_, _, _) =>
    case Poll(keys, answer, saves, run) => PollKeepsTerminal(cfg, w.sys, keys, answer, saves, run, j);
    case ScaleIn(blocks, answer, run, saves) => ScaleInKeepsTerminal(cfg, w.sys, blocks, answer, run, saves, j);
  }

  ghost predicate NoRestart(steps: seq<Step>) {
    forall k :: 0 <= k < |steps| ==> !steps[k].Restart?
  }

  /** Without a restart a run keeps the links whatever fails. */
  lemma {:induction false} UnbrokenRunGood(cfg: Config, w: World, steps: seq<Step>)
    requires Good(cfg, Links, w) && Legal(cfg, w, steps) && NoRestart(steps)
    ensures Good(cfg, Links, After(cfg, w, steps))
    ensures w.jobs <= After(cfg, w, steps).jobs
    decreases |steps|
  {
    if steps != [] {
      StepGood(cfg, Links, w, steps[0]);
      UnbrokenRunGood(cfg, Next(cfg, w, steps[0]), steps[1..]);
    }
  }

  lemma {:induction false} RunKeepsTerminal(cfg: Config, w: World, steps: seq<Step>, j: JobId)
    requires Good(cfg, Links, w) && Legal(cfg, w, steps) && NoRestart(steps) && j in w.jobs
    requires j in w.sys.live.jobMap ==> Terminal(w.sys.live.jobMap[j].status)
    ensures KeptOrDropped(w.sys.live, After(cfg, w, steps).sys.live, j)
    decreases |steps|
  {
    if steps != [] {
      StepGood(cfg, Links, w, steps[0]);
      StepKeepsTerminal(cfg, w, steps[0], j);
      RunKeepsTerminal(cfg, Next(cfg, w, steps[0]), steps[1..], j);
    }
  }

  /**
   * Once a job's terminal status is cached, every later `status` call reports the same state,
   * raised polls included, until the record is dropped; from then on it reports UNKNOWN, however
   * long the run goes on.
   */
  lemma TerminalAnswersStick(cfg: Config, w: World, before: seq<Step>, after: seq<Step>, j: JobId, answer: ModeAnswer)
    requires Good(cfg, Links, w) && Legal(cfg, w, before) && Legal(cfg, After(cfg, w, before), after)
    requires NoRestart(before) && NoRestart(after)
    requires j in w.sys.live.jobMap && Terminal(w.sys.live.jobMap[j].status)
    ensures var mid, end := After(cfg, w, before).sys.live, After(cfg, After(cfg, w, before), after).sys.live;
            && Report(mid, Some(j), answer) == (if j in mid.jobMap then w.sys.live.jobMap[j].status else Unknown)
            && (j !in mid.jobMap ==> Report(end, Some(j), answer) == Unknown)
  {
    RunKeepsTerminal(cfg, w, before, j);
    UnbrokenRunGood(cfg, w, before);
    RunKeepsTerminal(cfg, After(cfg, w, before), after, j);
  }
}
