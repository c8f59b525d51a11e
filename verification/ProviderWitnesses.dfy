/**
 * Two runs of the provider, step by step, that show where its promises end: a restart after lost
 * saves, and a warm list that outgrows its pool after a termination that raised.
 */
module ProviderWitnesses {
  import opened Collections
  import opened ProviderModel
  import opened ProviderInvariants
  import opened ProviderRuns
  import opened ProviderOwnership

  // ---------------------------------------------------------------- one step at a time

  lemma Cons(cfg: Config, w: World, step: Step, next: World, rest: seq<Step>)
    requires Sizable(cfg, w.sys) && Possible(cfg, w, step) && Next(cfg, w, step) == next
    requires Sizable(cfg, next.sys) && Legal(cfg, next, rest)
    ensures Legal(cfg, w, [step] + rest) && After(cfg, w, [step] + rest) == After(cfg, next, rest)
  {
    assert ([step] + rest)[1..] == rest;
  }

  /** `s` with job `j` and its resource COMPLETED. */
  function Finished(st: ProviderState, j: JobId): ProviderState
    requires j in st.jobMap && st.jobMap[j].resourceId in st.resources
  {
    var r := st.jobMap[j].resourceId;
    st.(jobMap := st.jobMap[j := st.jobMap[j].(status := Completed)],
        resources := st.resources[r := st.resources[r].(status := Completed)])
  }

  lemma WriteBackFinishes(st: ProviderState, j: JobId)
    requires j in st.jobMap && st.jobMap[j].resourceId in st.resources
    ensures WriteBack(st, {j}, map[st.jobMap[j].resourceId := Completed]) == Finished(st, j)
  {
    var r := st.jobMap[j].resourceId;
    assert PointedAt(st, {j}) == {r};
    var t := WriteBack(st, {j}, map[r := Completed]);
    assert t.jobMap == Finished(st, j).jobMap;
    assert t.resources == Finished(st, j).resources;
  }

  lemma PollFinishes(s: System, j: JobId, saves: Saves)
    requires j in s.live.jobMap && s.live.jobMap[j].resourceId in s.live.resources && !Terminal(s.live.jobMap[j].status)
    ensures var answer := Answered(map[s.live.jobMap[j].resourceId := Completed]);
            PollStep(s, [Some(j)], answer, saves) ==
              SaveProvider(SaveMode(s, saves.mode).(live := Finished(s.live, j)), saves.provider)
  {
    assert Polled(s.live, [Some(j)]) == {j};
    WriteBackFinishes(s.live, j);
  }

  lemma OnlyElement<T(!new)>(s: seq<T>, x: T)
    requires NoDup(s) && x in s && forall y :: y in s ==> y == x
    ensures s == [x]
  {
    NoDupSize(s);
    assert Elems(s) == {x};
  }

  /** Only `r` is due: it is COMPLETED, and everything else is still at work or WARM and fresh. */
  ghost predicate OnlyDue(cfg: Config, st: ProviderState, run: CleanupRun, r: ResourceId) {
    && Ordered(st) && cfg.warmPoolSize > 0 && r in st.resources
    && (forall k: nat :: k < |st.order| ==>
          Judge(st.resources[st.order[k]], run.scan(k), cfg.warmPoolTtl) == if st.order[k] == r then Promote else Leave)
  }

  lemma ScanFinds(cfg: Config, st: ProviderState, run: CleanupRun, r: ResourceId)
    requires OnlyDue(cfg, st, run, r)
    ensures Promoted(cfg, st, run) == [r] && Reaped(cfg, st, run) == []
  {
    JudgedIff(st, run.scan, cfg.warmPoolTtl, Promote, |st.order|);
    JudgedIff(st, run.scan, cfg.warmPoolTtl, Reap, |st.order|);
    assert forall k: nat :: k < |st.order| ==> st.order[k] !in Reaped(cfg, st, run);
    forall x | x in Promoted(cfg, st, run)
      ensures x == r
    {
      var k :| 0 <= k < |st.order| && st.order[k] == x;
    }
    var k :| 0 <= k < |st.order| && st.order[k] == r;
    OnlyElement(Promoted(cfg, st, run), r);
    NoDupSize(Reaped(cfg, st, run));
    assert Elems(Reaped(cfg, st, run)) == {};
  }

  lemma PassPromotes(cfg: Config, st: ProviderState, run: CleanupRun, r: ResourceId)
    requires OnlyDue(cfg, st, run, r)
    ensures PoolSizable(cfg, st) && Dirty(cfg, st, run)
    ensures PoolAfter(cfg, st, run) ==
            PromoteOne(cfg.warmPoolSize, Pool(st.resources, WarmNow(st.resources, st.order), st.warm, []), r,
              run.promote(0))
  {
    ScanFinds(cfg, st, run, r);
    var p := StartPool(cfg, st, run);
    assert PromoteAll(cfg.warmPoolSize, p, [r], run.promote, 0) == p;
  }

  function Warmed(st: ProviderState, r: ResourceId, now: real, warm: seq<ResourceId>): ProviderState
    requires r in st.resources
  {
    st.(resources := st.resources[r := st.resources[r].(status := Warm, warmSince := now)], warm := warm)
  }

  /** With room in the pool the pass just adds `r`. */
  lemma PassWithRoom(cfg: Config, st: ProviderState, run: CleanupRun, r: ResourceId)
    requires OnlyDue(cfg, st, run, r) && |WarmNow(st.resources, st.order)| < cfg.warmPoolSize
    ensures PoolSizable(cfg, st) && Cleanup(cfg, st, run) == Warmed(st, r, run.promote(0), st.warm + [r])
  {
    PassPromotes(cfg, st, run, r);
    ForgetNothing(Warmed(st, r, run.promote(0), st.warm + [r]));
  }

  lemma EvictedPool(size: nat, p: Pool, r: ResourceId, now: real, v: ResourceId)
    requires |p.current| >= size && p.current != [] && v == Oldest(p.resources, p.current) && p.reaped == []
    requires r in p.resources
    ensures var q := PromoteOne(size, p, r, now);
            && q.reaped == [v] && q.warm == RemoveFirst(p.warm, v) + [r]
            && q.resources == p.resources[r := p.resources[r].(status := Warm, warmSince := now)]
  {
  }

  lemma UnlistedAlready(resources: map<ResourceId, Resource>, warm: seq<ResourceId>, v: ResourceId)
    requires v !in warm
    ensures Unlist(resources, warm, [v], 1) == warm
  {
    assert Unlist(resources, warm, [v], 0) == warm;
  }

  /** In a full pool the oldest makes room, listed or not. */
  lemma PassEvicts(cfg: Config, st: ProviderState, run: CleanupRun, r: ResourceId, v: ResourceId)
    requires OnlyDue(cfg, st, run, r) && NoDup(st.warm) && v != r
    requires |WarmNow(st.resources, st.order)| >= cfg.warmPoolSize
    requires WarmNow(st.resources, st.order) != [] && v == Oldest(st.resources, WarmNow(st.resources, st.order))
    ensures PoolSizable(cfg, st)
    ensures var t := Warmed(st, r, run.promote(0), RemoveFirst(st.warm, v) + [r]);
            Cleanup(cfg, st, run) == if run.terminated then Forget(t, {v}) else t
  {
    PassPromotes(cfg, st, run, r);
    var p := PoolAfter(cfg, st, run);
    EvictedPool(cfg.warmPoolSize, Pool(st.resources, WarmNow(st.resources, st.order), st.warm, []), r, run.promote(0),
      v);
    RemoveFirstNoDup(st.warm, v);
    UnlistedAlready(p.resources, p.warm, v);
    assert Elems([v]) == {v};
  }

  /** A world whose documents follow the saves that go through. */
  function Saved(w: World, live: ProviderState, saves: Saves): World {
    w.(sys := Save(w.sys.(live := live), saves))
  }

  function Job(j: JobId): seq<Option<JobId>> {
    [Some(j)]
  }

  /** A poll that finds job `j` done, followed by the pass that warms its resource. */
  ghost function Done(w: World, j: JobId, saves: Saves, run: CleanupRun): Step
    requires j in w.sys.live.jobMap
  {
    Poll(Job(j), Answered(map[w.sys.live.jobMap[j].resourceId := Completed]), saves, run.(saves := saves))
  }

  lemma NextDone(cfg: Config, w: World, st: ProviderState, j: JobId, r: ResourceId, saves: Saves, run: CleanupRun,
          live: ProviderState)
    requires Sizable(cfg, w.sys) && st == w.sys.live
    requires j in st.jobMap && st.jobMap[j] == JobRecord(r, Pending) && r in st.resources
    requires OnlyDue(cfg, Finished(st, j), run, r)
    requires PoolSizable(cfg, Finished(st, j)) && live == Cleanup(cfg, Finished(st, j), run)
    ensures Possible(cfg, w, Done(w, j, saves, run))
    ensures Next(cfg, w, Done(w, j, saves, run)) == Saved(w, live, saves)
  {
    PollFinishes(w.sys, j, saves);
    assert Dirty(cfg, Finished(st, j), run) by {
      PassPromotes(cfg, Finished(st, j), run, r);
    }
    SameScan(cfg, Finished(st, j), run, saves);
  }

  /** The saves of a pass decide nothing about the live state. */
  lemma SameScan(cfg: Config, st: ProviderState, run: CleanupRun, saves: Saves)
    requires PoolSizable(cfg, st)
    ensures Cleanup(cfg, st, run.(saves := saves)) == Cleanup(cfg, st, run)
    ensures Dirty(cfg, st, run.(saves := saves)) == Dirty(cfg, st, run)
  {
  }

  // ---------------------------------------------------------------- a restart after lost saves

  const ONE := Config(2, 1, 100.0, false)
  const LOST := Saves(false, true)
  const FIRST := ProviderState(["x"], map["x" := Resource("j1", Pending, true, 0.0)],
    map["j1" := JobRecord("x", Pending)], [])
  const IDLE := ProviderState(
    ["x"], map["x" := Resource("j1", Warm, true, 1.0)], map["j1" := JobRecord("x", Completed)], ["x"])
  const CROSSED := ProviderState(
    ["x"],
    map["x" := Resource("j2", Pending, true, 0.0)],
    map["j1" := JobRecord("x", Pending), "j2" := JobRecord("x", Pending)],
    [])
  const AT_ZERO := CleanupRun(_ => 0.0, _ => 1.0, true, BOTH)

  const W1 := World(System(FIRST, Some(FIRST), Some([])), {"j1"}, {"x"})
  const W2 := World(System(IDLE, Some(FIRST), Some(["x"])), {"j1"}, {"x"})
  const W3 := World(System(FIRST.(warm := ["x"]), Some(FIRST), Some(["x"])), {"j1"}, {"x"})
  const W4 := World(System(CROSSED, Some(CROSSED), Some([])), {"j1", "j2"}, {"x"})

  /** Submit j1; j1 is done but only the mode's save goes through; restart; submit j2. */
  ghost const LOSING: seq<Step> := [Submit("j1", Fresh("x"), BOTH)] + LOSING_FROM_1
  ghost const LOSING_FROM_1: seq<Step> := [Done(W1, "j1", LOST, AT_ZERO)] + LOSING_FROM_2
  ghost const LOSING_FROM_2: seq<Step> := [Restart(true)] + LOSING_FROM_3
  ghost const LOSING_FROM_3: seq<Step> := [Submit("j2", Reused, BOTH)] + []

  lemma FirstIsSubmitted()
    ensures Possible(ONE, FLEDGLING, Submit("j1", Fresh("x"), BOTH)) &&
              Next(ONE, FLEDGLING, Submit("j1", Fresh("x"), BOTH)) == W1
  {
    assert AfterLaunch(ONE, EMPTY, "j1", Fresh("x")) == FIRST;
  }

  lemma FirstIsReady()
    ensures OnlyDue(ONE, Finished(FIRST, "j1"), AT_ZERO, "x")
    ensures WarmNow(Finished(FIRST, "j1").resources, ["x"]) == []
  {
    assert ["x"][1..] == [];
  }

  lemma FirstIdles()
    ensures PoolSizable(ONE, Finished(FIRST, "j1")) && Cleanup(ONE, Finished(FIRST, "j1"), AT_ZERO) == IDLE
  {
    FirstIsReady();
    PassWithRoom(ONE, Finished(FIRST, "j1"), AT_ZERO, "x");
    WarmedIdle();
  }

  lemma WarmedIdle()
    ensures Warmed(Finished(FIRST, "j1"), "x", 1.0, [] + ["x"]) == IDLE
  {
  }

  lemma FirstIsDone()
    ensures Possible(ONE, W1, Done(W1, "j1", LOST, AT_ZERO)) && Next(ONE, W1, Done(W1, "j1", LOST, AT_ZERO)) == W2
  {
    FirstIsReady();
    FirstIdles();
    NextDone(ONE, W1, FIRST, "j1", "x", LOST, AT_ZERO, IDLE);
  }

  lemma SecondIsSubmitted()
    ensures Possible(ONE, W3, Submit("j2", Reused, BOTH)) && Next(ONE, W3, Submit("j2", Reused, BOTH)) == W4
  {
    assert AfterLaunch(ONE, W3.sys.live, "j2", Reused) == CROSSED;
  }

  lemma RestartIsUnsafe()
    ensures Next(ONE, W2, Restart(true)) == W3 && !MayRestart(Links, W2.sys)
  {
    assert "x" in W2.sys.listed.value && !FIRST.resources["x"].status.Warm?;
  }

  lemma LosingFrom2()
    ensures Sizable(ONE, W2.sys) && Legal(ONE, W2, LOSING_FROM_2) && After(ONE, W2, LOSING_FROM_2) == W4
  {
    SecondIsSubmitted();
    Cons(ONE, W3, Submit("j2", Reused, BOTH), W4, []);
    RestartIsUnsafe();
    Cons(ONE, W2, Restart(true), W3, LOSING_FROM_3);
  }

  lemma LosingRuns()
    ensures FromScratch(ONE, LOSING) && Reached(ONE, LOSING) == CROSSED
  {
    LosingFrom2();
    FirstIsDone();
    Cons(ONE, W1, Done(W1, "j1", LOST, AT_ZERO), W2, LOSING_FROM_2);
    FirstIsSubmitted();
    Cons(ONE, FLEDGLING, Submit("j1", Fresh("x"), BOTH), W1, LOSING_FROM_1);
  }

  lemma CrossedPoll(status: Status)
    ensures "j1" in Polled(CROSSED, Job("j1")) && !OwnsItsResource(CROSSED, "j1")
    ensures var t := WriteBack(CROSSED, Polled(CROSSED, Job("j1")), map["x" := status]);
            t.jobMap["j1"].status == status == t.resources["x"].status && t.resources["x"].jobId == "j2"
  {
    assert Some("j1") in Job("j1");
    assert "x" in PointedAt(CROSSED, Polled(CROSSED, Job("j1")));
  }

  /**
   * Both saves matter. Here the provider's document misses j1's completion while the mode's lists
   * its instance; after the restart the instance is not free, it goes to j2 while j1 still points at
   * it, and the next poll for j1 writes its answer onto the resource of j2.
   */
  lemma LostSavesCrossJobs(status: Status)
    ensures FromScratch(ONE, LOSING) && Reached(ONE, LOSING) == CROSSED
    ensures !MayRestart(Links, W2.sys) && !Free(W3.sys.live, "x") && !FreeReuses(ONE, FLEDGLING, LOSING)
    ensures "j1" in Polled(CROSSED, Job("j1")) && !OwnsItsResource(CROSSED, "j1")
    ensures var t := WriteBack(CROSSED, Polled(CROSSED, Job("j1")), map["x" := status]);
            t.jobMap["j1"].status == status == t.resources["x"].status && t.resources["x"].jobId == "j2"
  {
    LosingRuns();
    RestartIsUnsafe();
    CrossedPoll(status);
    if FreeReuses(ONE, FLEDGLING, LOSING) {
      ReachedIsLinked(ONE, LOSING);
      assert false;
    }
  }

  // ---------------------------------------------------------------- a termination that raised

  const TIGHT := Config(3, 1, 100.0, false)

  function Fresh3(j: JobId): Resource {
    Resource(j, Pending, true, 0.0)
  }

  function Idle3(j: JobId, since: real): Resource {
    Resource(j, Warm, true, since)
  }

  const A1 := ProviderState(["x"], map["x" := Fresh3("jx")], map["jx" := JobRecord("x", Pending)], [])
  const A2 := ProviderState(
    ["x", "y"],
    map["x" := Fresh3("jx"), "y" := Fresh3("jy")],
    map["jx" := JobRecord("x", Pending), "jy" := JobRecord("y", Pending)],
    [])
  const A3 := ProviderState(
    ["x", "y", "z"],
    map["x" := Fresh3("jx"), "y" := Fresh3("jy"), "z" := Fresh3("jz")],
    map["jx" := JobRecord("x", Pending), "jy" := JobRecord("y", Pending), "jz" := JobRecord("z", Pending)],
    [])
  const A4 := ProviderState(
    ["x", "y", "z"],
    map["x" := Idle3("jx", 10.0), "y" := Fresh3("jy"), "z" := Fresh3("jz")],
    map["jx" := JobRecord("x", Completed), "jy" := JobRecord("y", Pending), "jz" := JobRecord("z", Pending)],
    ["x"])
  const A5 := ProviderState(
    ["x", "y", "z"],
    map["x" := Idle3("jx", 10.0), "y" := Idle3("jy", 20.0), "z" := Fresh3("jz")],
    map["jx" := JobRecord("x", Completed), "jy" := JobRecord("y", Completed), "jz" := JobRecord("z", Pending)],
    ["y"])
  const A6 := ProviderState(
    ["y", "z"],
    map["y" := Idle3("jy", 20.0), "z" := Idle3("jz", 30.0)],
    map["jy" := JobRecord("y", Completed), "jz" := JobRecord("z", Completed)],
    ["y", "z"])

  function AllSaved(live: ProviderState, jobs: set<JobId>, ids: set<ResourceId>): World {
    World(System(live, Some(live), Some(live.warm)), jobs, ids)
  }

  const B1 := AllSaved(A1, {"jx"}, {"x"})
  const B2 := AllSaved(A2, {"jx", "jy"}, {"x", "y"})
  const B3 := AllSaved(A3, {"jx", "jy", "jz"}, {"x", "y", "z"})
  const B4 := AllSaved(A4, {"jx", "jy", "jz"}, {"x", "y", "z"})
  const B5 := AllSaved(A5, {"jx", "jy", "jz"}, {"x", "y", "z"})
  const B6 := AllSaved(A6, {"jx", "jy", "jz"}, {"x", "y", "z"})

  function PassAt(now: real, terminated: bool): CleanupRun {
    CleanupRun(_ => now, _ => now, terminated, BOTH)
  }

  /** Three submits; each job is done in turn; only the termination of the second pass raises. */
  ghost const OVERFILLING: seq<Step> := [Submit("jx", Fresh("x"), BOTH)] + OVERFILLING_FROM_1
  ghost const OVERFILLING_FROM_1: seq<Step> := [Submit("jy", Fresh("y"), BOTH)] + OVERFILLING_FROM_2
  ghost const OVERFILLING_FROM_2: seq<Step> := [Submit("jz", Fresh("z"), BOTH)] + OVERFILLING_FROM_3
  ghost const OVERFILLING_FROM_3: seq<Step> := [Done(B3, "jx", BOTH, PassAt(10.0, true))] + OVERFILLING_FROM_4
  ghost const OVERFILLING_FROM_4: seq<Step> := [Done(B4, "jy", BOTH, PassAt(20.0, false))] + OVERFILLING_FROM_5
  ghost const OVERFILLING_FROM_5: seq<Step> := [Done(B5, "jz", BOTH, PassAt(30.0, true))] + []

  lemma ThreeSubmits()
    ensures Possible(TIGHT, FLEDGLING, Submit("jx", Fresh("x"), BOTH)) &&
              Next(TIGHT, FLEDGLING, Submit("jx", Fresh("x"), BOTH)) == B1
    ensures Possible(TIGHT, B1, Submit("jy", Fresh("y"), BOTH)) && Next(TIGHT, B1, Submit("jy", Fresh("y"), BOTH)) == B2
    ensures Possible(TIGHT, B2, Submit("jz", Fresh("z"), BOTH)) && Next(TIGHT, B2, Submit("jz", Fresh("z"), BOTH)) == B3
  {
    assert AfterLaunch(TIGHT, EMPTY, "jx", Fresh("x")) == A1;
    assert AfterLaunch(TIGHT, A1, "jy", Fresh("y")) == A2;
    assert AfterLaunch(TIGHT, A2, "jz", Fresh("z")) == A3;
  }

  lemma WarmNowOfThree(resources: map<ResourceId, Resource>)
    ensures WarmNow(resources, ["x", "y", "z"]) ==
            (if Pooled(resources, "x") then ["x"] else [])
            + (if Pooled(resources, "y") then ["y"] else [])
            + (if Pooled(resources, "z") then ["z"] else [])
  {
    assert ["x", "y", "z"][1..] == ["y", "z"] && ["y", "z"][1..] == ["z"] && ["z"][1..] == [];
    assert WarmNow(resources, ["z"]) == if Pooled(resources, "z") then ["z"] else [];
    assert WarmNow(resources, ["y", "z"]) == (if Pooled(resources, "y") then ["y"] else []) + WarmNow(resources, ["z"]);
  }

  /** The verdicts on the three resources of a state are all that a scan depends on. */
  lemma DueOfThree(st: ProviderState, now: real, terminated: bool, r: ResourceId)
    requires st.order == ["x", "y", "z"] && st.resources.Keys == {"x", "y", "z"} && r in st.resources
    requires forall id :: id in st.resources ==>
               Judge(st.resources[id], now, 100.0) == if id == r then Promote else Leave
    ensures OnlyDue(TIGHT, st, PassAt(now, terminated), r)
  {
  }

  lemma FirstIsDue()
    ensures OnlyDue(TIGHT, Finished(A3, "jx"), PassAt(10.0, true), "x")
    ensures WarmNow(Finished(A3, "jx").resources, ["x", "y", "z"]) == []
  {
    WarmNowOfThree(Finished(A3, "jx").resources);
    DueOfThree(Finished(A3, "jx"), 10.0, true, "x");
  }

  lemma SecondIsDue()
    ensures OnlyDue(TIGHT, Finished(A4, "jy"), PassAt(20.0, false), "y")
    ensures WarmNow(Finished(A4, "jy").resources, ["x", "y", "z"]) == ["x"]
  {
    WarmNowOfThree(Finished(A4, "jy").resources);
    DueOfThree(Finished(A4, "jy"), 20.0, false, "y");
  }

  lemma ThirdIsDue()
    ensures OnlyDue(TIGHT, Finished(A5, "jz"), PassAt(30.0, true), "z")
    ensures WarmNow(Finished(A5, "jz").resources, ["x", "y", "z"]) == ["x", "y"]
  {
    WarmNowOfThree(Finished(A5, "jz").resources);
    DueOfThree(Finished(A5, "jz"), 30.0, true, "z");
  }

  lemma FirstPass()
    ensures PoolSizable(TIGHT, Finished(A3, "jx")) && Cleanup(TIGHT, Finished(A3, "jx"), PassAt(10.0, true)) == A4
  {
    FirstIsDue();
    PassWithRoom(TIGHT, Finished(A3, "jx"), PassAt(10.0, true), "x");
    WarmedFirst();
  }

  lemma WarmedFirst()
    ensures Warmed(Finished(A3, "jx"), "x", 10.0, [] + ["x"]) == A4
  {
  }

  lemma SecondPass()
    ensures PoolSizable(TIGHT, Finished(A4, "jy")) && Cleanup(TIGHT, Finished(A4, "jy"), PassAt(20.0, false)) == A5
  {
    SecondIsDue();
    PassEvicts(TIGHT, Finished(A4, "jy"), PassAt(20.0, false), "y", "x");
    assert RemoveFirst(["x"], "x") == [];
    WarmedSecond();
  }

  lemma WarmedSecond()
    ensures Warmed(Finished(A4, "jy"), "y", 20.0, [] + ["y"]) == A5
  {
  }

  lemma StrandedIsOldest(resources: map<ResourceId, Resource>)
    requires SinceOf(resources, "x") == 10.0 && SinceOf(resources, "y") == 20.0
    ensures Oldest(resources, ["x", "y"]) == "x"
  {
    assert ["x", "y"][1..] == ["y"];
  }

  lemma ThirdPass()
    ensures PoolSizable(TIGHT, Finished(A5, "jz"))
    ensures Cleanup(TIGHT, Finished(A5, "jz"), PassAt(30.0, true)) ==
              Forget(Warmed(Finished(A5, "jz"), "z", 30.0, ["y"] + ["z"]), {"x"})
  {
    ThirdIsDue();
    StrandedIsOldest(Finished(A5, "jz").resources);
    PassEvicts(TIGHT, Finished(A5, "jz"), PassAt(30.0, true), "z", "x");
    assert RemoveFirst(["y"], "x") == ["y"];
  }

  lemma WithoutFirst()
    ensures Without(["x", "y", "z"], {"x"}) == ["y", "z"]
  {
    assert ["x", "y", "z"][1..] == ["y", "z"] && ["y", "z"][1..] == ["z"] && ["z"][1..] == [];
    assert Without(["z"], {"x"}) == ["z"];
    assert Without(["y", "z"], {"x"}) == ["y"] + ["z"];
  }

  lemma StrandedOwner(resources: map<ResourceId, Resource>)
    requires "x" in resources && resources["x"].jobId == "jx"
    ensures OwnersOf(resources, {"x"}) == {"jx"}
  {
  }

  lemma ThirdForgets()
    ensures Forget(Warmed(Finished(A5, "jz"), "z", 30.0, ["y"] + ["z"]), {"x"}) == A6
  {
    var t := Warmed(Finished(A5, "jz"), "z", 30.0, ["y"] + ["z"]);
    StrandedOwner(t.resources);
    WithoutFirst();
    assert t.resources - {"x"} == A6.resources;
    assert t.jobMap - {"jx"} == A6.jobMap;
  }

  lemma FirstJob()
    ensures "jx" in A3.jobMap && A3.jobMap["jx"] == JobRecord("x", Pending) && "x" in A3.resources
  {
  }

  lemma FirstIsWarmed()
    ensures Possible(TIGHT, B3, Done(B3, "jx", BOTH, PassAt(10.0, true)))
    ensures Next(TIGHT, B3, Done(B3, "jx", BOTH, PassAt(10.0, true))) == B4
  {
    FirstIsDue();
    FirstPass();
    FirstJob();
    NextDone(TIGHT, B3, A3, "jx", "x", BOTH, PassAt(10.0, true), A4);
  }

  lemma FirstIsStranded()
    ensures Possible(TIGHT, B4, Done(B4, "jy", BOTH, PassAt(20.0, false)))
    ensures Next(TIGHT, B4, Done(B4, "jy", BOTH, PassAt(20.0, false))) == B5
  {
    SecondIsDue();
    SecondPass();
    NextDone(TIGHT, B4, A4, "jy", "y", BOTH, PassAt(20.0, false), A5);
  }

  lemma ListOverfills()
    ensures Possible(TIGHT, B5, Done(B5, "jz", BOTH, PassAt(30.0, true)))
    ensures Next(TIGHT, B5, Done(B5, "jz", BOTH, PassAt(30.0, true))) == B6
  {
    ThirdIsDue();
    ThirdPass();
    ThirdForgets();
    NextDone(TIGHT, B5, A5, "jz", "z", BOTH, PassAt(30.0, true), A6);
  }

  lemma OverfillingFrom3()
    ensures Sizable(TIGHT, B3.sys) && Legal(TIGHT, B3, OVERFILLING_FROM_3) && After(TIGHT, B3, OVERFILLING_FROM_3) == B6
  {
    ListOverfills();
    Cons(TIGHT, B5, Done(B5, "jz", BOTH, PassAt(30.0, true)), B6, []);
    FirstIsStranded();
    Cons(TIGHT, B4, Done(B4, "jy", BOTH, PassAt(20.0, false)), B5, OVERFILLING_FROM_5);
    FirstIsWarmed();
    Cons(TIGHT, B3, Done(B3, "jx", BOTH, PassAt(10.0, true)), B4, OVERFILLING_FROM_4);
  }

  lemma OverfillingRuns()
    ensures FromScratch(TIGHT, OVERFILLING) && Reached(TIGHT, OVERFILLING) == A6
  {
    OverfillingFrom3();
    ThreeSubmits();
    Cons(TIGHT, B2, Submit("jz", Fresh("z"), BOTH), B3, OVERFILLING_FROM_3);
    Cons(TIGHT, B1, Submit("jy", Fresh("y"), BOTH), B2, OVERFILLING_FROM_2);
    Cons(TIGHT, FLEDGLING, Submit("jx", Fresh("x"), BOTH), B1, OVERFILLING_FROM_1);
  }

  lemma OverfillingSaves()
    ensures forall step :: step in OVERFILLING ==> Persisted(step) && !step.Restart?
    ensures forall step :: step in OVERFILLING ==>
              Granted(Complete, step) || step == Done(B4, "jy", BOTH, PassAt(20.0, false))
  {
  }

  /**
   * One termination that raises is enough. Every save goes through and every other call does what
   * it should: the evicted instance stays WARM but unlisted, is evicted once more by the next pass,
   * and the list holds two in a pool of one.
   */
  lemma OneRaisedTerminationOverfills()
    ensures FromScratch(TIGHT, OVERFILLING)
    ensures forall step :: step in OVERFILLING ==> Persisted(step) && !step.Restart?
    ensures forall step :: step in OVERFILLING ==>
              Granted(Complete, step) || step == Done(B4, "jy", BOTH, PassAt(20.0, false))
    ensures |Reached(TIGHT, OVERFILLING).warm| == 2 > TIGHT.warmPoolSize
  {
    OverfillingRuns();
    OverfillingSaves();
  }
}
