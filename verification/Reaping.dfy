/**
 * What one clean-up pass leaves of each record, status by status, without a word about how the pass
 * decides it.
 */
module Reaping {
  import opened Collections
  import opened ProviderModel
  import opened ProviderInvariants
  import opened WarmPool

  /** Counted in the pool at some point of the pass, and no longer at its end. */
  ghost predicate PushedOut(cfg: Config, st: ProviderState, run: CleanupRun, r: ResourceId)
    requires PoolSizable(cfg, st)
  {
    (r in WarmIds(st) || r in NewlyCompleted(st)) && r !in Kept(cfg, st, run)
  }

  lemma PushedOutIsDropped(cfg: Config, st: ProviderState, run: CleanupRun, r: ResourceId)
    requires Inv(cfg, st)
    ensures PushedOut(cfg, st, run, r) <==> r in Dropped(cfg, st, run)
  {
    PassPopulation(cfg, st, run);
  }

  lemma TerminatedAre(cfg: Config, st: ProviderState, run: CleanupRun, r: ResourceId)
    requires Inv(cfg, st)
    ensures r in PoolAfter(cfg, st, run).reaped <==> r in Reaped(cfg, st, run) || PushedOut(cfg, st, run, r)
  {
    PoolAfterSound(cfg, st, run);
    PushedOutIsDropped(cfg, st, run, r);
    SplitAt(PoolAfter(cfg, st, run).reaped, Reaped(cfg, st, run));
  }

  /** The scan's own verdict on the k-th resource. */
  lemma ScanReaps(cfg: Config, st: ProviderState, run: CleanupRun, k: nat)
    requires Inv(cfg, st) && k < |st.order|
    ensures var r := st.order[k]; var it := st.resources[r];
            r in Reaped(cfg, st, run) <==>
              || (!it.warmPool &&
                (it.status.Completed? || it.status.Failed? || it.status.Canceled? || it.status.Interrupted?))
              || (it.warmPool && (it.status.Failed? || it.status.Canceled? || it.status.Interrupted?))
              || (it.status.Warm? && run.scan(k) - it.warmSince > cfg.warmPoolTtl)
  {
    JudgedAt(st, run.scan, cfg.warmPoolTtl, Reap, |st.order|, k);
  }

  lemma GoneAre(cfg: Config, st: ProviderState, run: CleanupRun, r: ResourceId)
    requires Inv(cfg, st) && r in st.resources && run.terminated
    ensures var t := Cleanup(cfg, st, run);
            && (r !in t.resources <==> r in PoolAfter(cfg, st, run).reaped)
            && (st.resources[r].jobId !in t.jobMap <==> r in PoolAfter(cfg, st, run).reaped)
  {
    var gone := Elems(PoolAfter(cfg, st, run).reaped);
    PoolAfterSound(cfg, st, run);
    SettledKeeps(cfg, st, run);
    OwnerGone(Settled(cfg, st, run), gone, r);
  }

  lemma OwnerGone(st: ProviderState, gone: set<ResourceId>, r: ResourceId)
    requires Owned(st) && r in st.resources
    ensures st.resources[r].jobId in OwnersOf(st.resources, gone) <==> r in gone
  {
    if st.resources[r].jobId in OwnersOf(st.resources, gone) {
      var g :| g in st.resources && g in gone && st.resources[g].jobId == st.resources[r].jobId;
      assert st.jobMap[st.resources[g].jobId].resourceId == g;
    }
  }

  /**
   * When its termination goes through, a pass drops a resource, and its job with it, if and only if
   * it is outside the pool and over, or in the pool and FAILED, CANCELED or INTERRUPTED, or WARM and
   * expired by the clock reading of its own position, or pushed out of a full pool.
   */
  lemma PassDropsIff(cfg: Config, s: System, run: CleanupRun, k: nat)
    requires Inv(cfg, s.live) && run.terminated && k < |s.live.order|
    ensures var t, r := CleanupStep(cfg, s, run).live, s.live.order[k];
            var it := s.live.resources[r];
            var dropped :=
              || (!it.warmPool &&
                (it.status.Completed? || it.status.Failed? || it.status.Canceled? || it.status.Interrupted?))
              || (it.warmPool && (it.status.Failed? || it.status.Canceled? || it.status.Interrupted?))
              || (it.status.Warm? && run.scan(k) - it.warmSince > cfg.warmPoolTtl)
              || PushedOut(cfg, s.live, run, r);
            && (r !in t.resources <==> dropped)
            && (it.jobId !in t.jobMap <==> dropped)
  {
    var r := s.live.order[k];
    assert r in s.live.order;
    ScanReaps(cfg, s.live, run, k);
    TerminatedAre(cfg, s.live, run, r);
    GoneAre(cfg, s.live, run, r);
  }

  /** A termination that does not go through drops nothing. */
  lemma PassKeepsRecords(cfg: Config, s: System, run: CleanupRun)
    requires Inv(cfg, s.live) && !run.terminated
    ensures var t := CleanupStep(cfg, s, run).live;
            t.order == s.live.order && t.resources.Keys == s.live.resources.Keys && t.jobMap == s.live.jobMap
  {
  }

  /** A pass changes only the records it promotes. */
  lemma KeptAsItIs(cfg: Config, st: ProviderState, run: CleanupRun, r: ResourceId, j: JobId)
    requires Inv(cfg, st) && r in Cleanup(cfg, st, run).resources && j in Cleanup(cfg, st, run).jobMap
    requires r in st.resources && !st.resources[r].status.Completed?
    ensures Cleanup(cfg, st, run).resources[r] == st.resources[r]
    ensures j in st.jobMap && Cleanup(cfg, st, run).jobMap[j] == st.jobMap[j]
  {
    PromotedIff(cfg, st, run);
    PoolAfterSound(cfg, st, run);
    assert Cleanup(cfg, st, run).resources[r] == PoolAfter(cfg, st, run).resources[r];
  }

  lemma NotDropped(cfg: Config, s: System, run: CleanupRun, r: ResourceId)
    requires Inv(cfg, s.live) && r in s.live.resources
    requires var status := s.live.resources[r].status; status.Pending? || status.Running? || status.Unknown?
    ensures var t := CleanupStep(cfg, s, run).live; r in t.resources && s.live.resources[r].jobId in t.jobMap
  {
    assert r in s.live.order;
    var k :| 0 <= k < |s.live.order| && s.live.order[k] == r;
    if run.terminated {
      PassDropsIff(cfg, s, run, k);
    } else {
      PassKeepsRecords(cfg, s, run);
    }
  }

  /** Whatever the clock says and whatever fails, what is at work stays as it is. */
  lemma PassLeavesTheRest(cfg: Config, s: System, run: CleanupRun, r: ResourceId)
    requires Inv(cfg, s.live) && r in s.live.resources
    requires var status := s.live.resources[r].status; status.Pending? || status.Running? || status.Unknown?
    ensures var t, job := CleanupStep(cfg, s, run).live, s.live.resources[r].jobId;
            && r in t.resources && t.resources[r] == s.live.resources[r]
            && job in t.jobMap && t.jobMap[job] == s.live.jobMap[job]
  {
    NotDropped(cfg, s, run, r);
    KeptAsItIs(cfg, s.live, run, r, s.live.resources[r].jobId);
  }

  lemma AnswerIsWritten(cfg: Config, s: System, keys: seq<Option<JobId>>, answer: ModeAnswer, saves: Saves, j: JobId)
    requires Inv(cfg, s.live) && NeverWarm(answer) && answer.Answered? && j in Polled(s.live, keys)
    requires s.live.jobMap[j].resourceId in answer.statuses
    ensures var st, r := PollStep(s, keys, answer, saves).live, s.live.jobMap[j].resourceId;
            && Inv(cfg, st) && r in st.resources && st.resources[r].jobId == j
            && st.resources[r] == s.live.resources[r].(status := answer.statuses[r])
  {
    var jobs := Polled(s.live, keys);
    PolledOwn(cfg, s.live, keys);
    WriteBackKeeps(cfg, s.live, jobs, answer.statuses);
    WriteBackPointwise(s.live, jobs, answer.statuses);
    assert OwnsItsResource(s.live, j);
  }

  /**
   * So a job outside the pool that a poll finds over is forgotten by that same call, and its instance
   * terminated, whenever the provider cleans up at all.
   */
  lemma FinishedJobsLeave(cfg: Config, s: System, keys: seq<Option<JobId>>, answer: ModeAnswer, saves: Saves,
          run: CleanupRun, j: JobId)
    requires Inv(cfg, s.live) && NeverWarm(answer) && answer.Answered? && j in Polled(s.live, keys)
    requires (cfg.warmPoolSize > 0 || cfg.oneShot) && run.terminated
    requires var r := s.live.jobMap[j].resourceId;
             r in answer.statuses && !s.live.resources[r].warmPool
             && (answer.statuses[r].Completed? || answer.statuses[r].Failed?
                 || answer.statuses[r].Canceled? || answer.statuses[r].Interrupted?)
    ensures var t := StatusStep(cfg, s, keys, answer, saves, run).live;
            s.live.jobMap[j].resourceId !in t.resources && j !in t.jobMap
  {
    var polled, r := PollStep(s, keys, answer, saves), s.live.jobMap[j].resourceId;
    AnswerIsWritten(cfg, s, keys, answer, saves, j);
    assert r in polled.live.order;
    var k :| 0 <= k < |polled.live.order| && polled.live.order[k] == r;
    PassDropsIff(cfg, polled, run, k);
  }

  lemma CancelIsWritten(cfg: Config, s: System, blocks: nat, statuses: map<ResourceId, Status>, modeOk: bool, k: nat)
    requires Inv(cfg, s.live) && NeverWarm(Answered(statuses)) && k < |Victims(s.live, blocks)|
    ensures var j := Victims(s.live, blocks)[k];
            var st := CancelWrites(s, Keys(Victims(s.live, blocks)), statuses, modeOk).live;
            && Inv(cfg, st) && j in s.live.jobMap && j in st.jobMap
            && var r := s.live.jobMap[j].resourceId;
               && r in st.resources && st.resources[r].jobId == j
               && (r in statuses ==> st.resources[r].status == statuses[r] == st.jobMap[j].status)
  {
    var keys, j := Keys(Victims(s.live, blocks)), Victims(s.live, blocks)[k];
    var at := VictimsAreFirst(s.live, blocks);
    assert RunsAt(s.live, at[k]);
    assert keys[k] == Some(j);
    VictimsOwn(cfg, s.live, blocks);
    WriteBackKeeps(cfg, s.live, Known(s.live, keys), statuses);
    WriteBackPointwise(s.live, Known(s.live, keys), statuses);
  }

  /**
   * Scaling in takes effect: a chosen job whose cancellation the mode confirms is dropped by that same
   * call together with its resource, in the pool or not, when the termination goes through.
   */
  lemma ScaledInAreGone(cfg: Config, s: System, blocks: nat, answer: ModeAnswer, run: CleanupRun, saves: Saves, n: nat)
    requires Inv(cfg, s.live) && NeverWarm(answer) && answer.Answered? && run.terminated
    requires n < |Victims(s.live, blocks)| && Victims(s.live, blocks)[n] in s.live.jobMap
    requires var r := s.live.jobMap[Victims(s.live, blocks)[n]].resourceId;
             r in answer.statuses && answer.statuses[r].Canceled?
    ensures var t, j := ScaleInStep(cfg, s, blocks, answer, run, saves).live, Victims(s.live, blocks)[n];
            j !in t.jobMap && s.live.jobMap[j].resourceId !in t.resources
  {
    var j := Victims(s.live, blocks)[n];
    var at := VictimsAreFirst(s.live, blocks);
    var u, r := CancelWrites(s, Keys(Victims(s.live, blocks)), answer.statuses, saves.mode),
      s.live.jobMap[j].resourceId;
    CancelIsWritten(cfg, s, blocks, answer.statuses, saves.mode, n);
    assert r in u.live.order;
    var k :| 0 <= k < |u.live.order| && u.live.order[k] == r;
    PassDropsIff(cfg, u, run, k);
  }
}
