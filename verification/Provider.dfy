/**
 * The provider as the source writes it: dictionaries and lists updated in place, loop by loop.
 * Each method is proved to produce the state its step function in ProviderModel names.
 */
module Provider {
  import opened Collections
  import opened ProviderModel

  class StandardMode {
    var warmInstances: seq<ResourceId>
    var listed: Option<seq<ResourceId>>

    /** A mode on a store whose mode document, if any, holds the warm list `listed`. */
    constructor (listed: Option<seq<ResourceId>>)
      ensures warmInstances == [] && this.listed == listed
    {
      warmInstances, this.listed := [], listed;
    }

    method SaveState(ok: bool)
      modifies this`listed
      ensures listed == if ok then Some(warmInstances) else old(listed)
    {
      if ok {
        listed := Some(warmInstances);
      }
    }

    /** `initialize`: the mode's document wins; without one the present list is saved. */
    method Initialize(saveOk: bool)
      modifies this
      ensures warmInstances == (if old(listed).Some? then old(listed).value else old(warmInstances))
      ensures listed == (if old(listed).None? && saveOk then Some(old(warmInstances)) else old(listed))
    {
      if listed.Some? {
        warmInstances := listed.value;
        return;
      }
      SaveState(saveOk);
    }
  }

  class EphemeralProvider {
    const cfg: Config
    const operatingMode: StandardMode
    var order: seq<ResourceId>
    var resources: map<ResourceId, Resource>
    var jobMap: map<JobId, JobRecord>
    var saved: Option<ProviderState>

    ghost function Live(): ProviderState
      reads this, operatingMode
    {
      ProviderState(order, resources, jobMap, operatingMode.warmInstances)
    }

    ghost function View(): System
      reads this, operatingMode
    {
      System(Live(), saved, operatingMode.listed)
    }

    /** A provider on a store that holds `document` and, for its mode, the warm list `listed`. */
    constructor (cfg: Config, document: Option<ProviderState>, listed: Option<seq<ResourceId>>, modeOk: bool)
      ensures this.cfg == cfg && fresh(operatingMode)
      ensures View() == RestartStep(System(EMPTY, document, listed), modeOk)
    {
      this.cfg := cfg;
      var mode := new StandardMode(listed);
      operatingMode := mode;
      saved := document;
      order, resources, jobMap := [], map[], map[];
      new;
      if document.Some? {
        order, resources, jobMap := document.value.order, document.value.resources, document.value.jobMap;
        operatingMode.warmInstances := document.value.warm;
      }
      operatingMode.Initialize(modeOk);
    }

    method SaveState(ok: bool)
      modifies this`saved
      ensures View() == SaveProvider(old(View()), ok)
    {
      if ok {
        saved := Some(ProviderState(order, resources, jobMap, operatingMode.warmInstances));
      }
    }

    method Submit(jobId: JobId, launch: Launch, saves: Saves) returns (result: SubmitResult)
      requires LaunchPossible(cfg, Live(), launch)
      modifies this, operatingMode
      ensures (View(), result) == SubmitStep(cfg, old(View()), jobId, launch, saves)
    {
      if |order| >= cfg.maxBlocks {
        return AtMaxBlocks;
      }
      var id;
      match launch {
        case Fresh(newId) =>
          id := newId;
        case Reused =>
          id := operatingMode.warmInstances[0];
          operatingMode.warmInstances := operatingMode.warmInstances[1..];
        case ReuseFailed =>
          operatingMode.warmInstances := operatingMode.warmInstances[1..];
          return SubmitFailed;
        case LaunchFailed =>
          operatingMode.SaveState(saves.mode);
          return SubmitFailed;
      }
      operatingMode.SaveState(saves.mode);
      RecordJob(jobId, id);
      SaveState(saves.provider);
      result := Submitted(jobId);
    }

    /** The recording step of a submit. */
    method RecordJob(jobId: JobId, id: ResourceId)
      modifies this`order, this`resources, this`jobMap
      ensures Live() == Record(cfg, old(Live()), jobId, id)
    {
      if id !in resources {
        order := order + [id];
      }
      resources := resources[id := Resource(jobId, Pending, false, 0.0)];
      if cfg.warmPoolSize > 0 {
        resources := resources[id := resources[id].(warmPool := true)];
      }
      jobMap := jobMap[jobId := JobRecord(id, Pending)];
    }

    method Status(keys: seq<Option<JobId>>, answer: ModeAnswer, saves: Saves, run: CleanupRun)
        returns (states: seq<JobState>)
      requires Scannable(cfg, Live())
      modifies this, operatingMode
      ensures View() == StatusStep(cfg, old(View()), keys, answer, saves, run)
      ensures |states| == |keys|
      ensures forall i :: 0 <= i < |keys| ==> Answers(old(View()), keys, answer, saves, keys[i], states[i])
      ensures forall i :: 0 <= i < |keys| ==>
                states[i] == ToJobState(old(Report(Live(), keys[i], Effective(Live(), keys, answer))))
    {
      ghost var before := Live();
      var known, nothingToPoll := CachedTerminals(keys);
      var effective := if nothingToPoll then Answered(map[]) else answer;
      assert effective == Effective(before, keys, answer);
      if effective.Answered? {
        if !nothingToPoll {
          operatingMode.SaveState(saves.mode);
        }
        known := ApplyPoll(keys, effective.statuses, known);
        WriteBackScannable(cfg, before, Polled(before, keys), effective.statuses);
        SaveState(saves.provider);
      } else {
        known := RestUnknown(keys, known);
      }
      if cfg.warmPoolSize > 0 || cfg.oneShot {
        CleanupResources(run);
      }
      states := seq(|keys|, i requires 0 <= i < |keys| && i in known => ToJobState(known[i]));
      AllAnswered(old(View()), keys, answer, saves, states);
    }

    /** Terminal answers come from the cache; the rest of the known jobs have to be polled. */
    method CachedTerminals(keys: seq<Option<JobId>>) returns (known: map<nat, Status>, nothingToPoll: bool)
      ensures nothingToPoll <==> Polled(Live(), keys) == {}
      ensures IsCache(Live(), keys, |keys|, known)
    {
      known := map[];
      var toPoll: seq<ResourceId> := [];
      for i := 0 to |keys|
        invariant IsCache(Live(), keys, i, known)
        invariant toPoll == [] <==> Polled(Live(), keys[..i]) == {}
      {
        PolledPrefix(Live(), keys, i);
        if keys[i].Some? && keys[i].value in jobMap {
          var cached := jobMap[keys[i].value];
          if Terminal(cached.status) {
            known := known[i := cached.status];
          } else {
            toPoll := toPoll + [cached.resourceId];
          }
        }
      }
      assert keys[..|keys|] == keys;
      nothingToPoll := toPoll == [];
    }

    /** Writes the mode's answer back for every key the cache did not settle. */
    method ApplyPoll(keys: seq<Option<JobId>>, statuses: map<ResourceId, Status>, cached: map<nat, Status>)
        returns (known: map<nat, Status>)
      requires IsCache(Live(), keys, |keys|, cached)
      modifies this`jobMap, this`resources
      ensures Live() == WriteBack(old(Live()), Polled(old(Live()), keys), statuses)
      ensures forall k: nat :: k < |keys| ==> k in known && known[k] == Report(old(Live()), keys[k], Answered(statuses))
      ensures forall k: nat :: k in cached ==> known[k] == cached[k]
      ensures forall k: nat :: k < |keys| && k !in cached ==> PolledAnswer(Live(), keys[k], statuses, known[k])
    {
      ghost var before := Live();
      known := cached;
      WriteBackNothing(before, statuses);
      assert Polled(before, keys[..0]) == {};
      for i := 0 to |keys|
        invariant Live() == WriteBack(before, Polled(before, keys[..i]), statuses)
        invariant forall k: nat :: k in known <==> k in cached || k < i
        invariant forall k: nat :: k in cached ==> known[k] == cached[k]
        invariant forall k: nat :: k < i ==> known[k] == Report(before, keys[k], Answered(statuses))
      {
        PolledPrefix(before, keys, i);
        if i !in known {
          var answer := PollOne(before, keys, i, statuses);
          known := known[i := answer];
        }
      }
      assert keys[..|keys|] == keys;
      forall k: nat | k < |keys| && k !in cached
        ensures PolledAnswer(Live(), keys[k], statuses, known[k])
      {
        ReportIsWritten(before, keys, k, statuses);
      }
    }

    method PollOne(ghost before: ProviderState, keys: seq<Option<JobId>>, i: nat, statuses: map<ResourceId, Status>)
        returns (answer: Status)
      requires i < |keys| && Live() == WriteBack(before, Polled(before, keys[..i]), statuses)
      requires !CachedAt(before, keys, i)
      modifies this`jobMap, this`resources
      ensures Live() == WriteBack(before, Polled(before, keys[..i + 1]), statuses)
      ensures answer == Report(before, keys[i], Answered(statuses))
    {
      PolledPrefix(before, keys, i);
      if keys[i].Some? && keys[i].value in jobMap {
        var id := jobMap[keys[i].value].resourceId;
        WriteJob(before, Polled(before, keys[..i]), keys[i].value, statuses);
        answer := if id in statuses then statuses[id] else Completed;
      } else {
        answer := Unknown;
      }
    }

    /** The answer for one job goes into the job map and, when still tracked, its resource. */
    method WriteJob(ghost before: ProviderState, ghost jobs: set<JobId>, job: JobId, statuses: map<ResourceId, Status>)
      requires job in jobMap && Live() == WriteBack(before, jobs, statuses)
      modifies this`jobMap, this`resources
      ensures Live() == WriteBack(before, jobs + {job}, statuses)
      ensures job in jobMap && jobMap[job].resourceId == old(jobMap[job].resourceId)
    {
      WriteBackOne(before, jobs, job, statuses);
      var id := jobMap[job].resourceId;
      if id in statuses {
        jobMap := jobMap[job := jobMap[job].(status := statuses[id])];
        if id in resources {
          resources := resources[id := resources[id].(status := statuses[id])];
        }
      }
    }

    method RestUnknown(keys: seq<Option<JobId>>, cached: map<nat, Status>) returns (known: map<nat, Status>)
      requires IsCache(Live(), keys, |keys|, cached)
      ensures forall k: nat :: k < |keys| ==> k in known && known[k] == Report(Live(), keys[k], Raised)
      ensures forall k: nat :: k < |keys| ==> known[k] == if k in cached then cached[k] else Unknown
    {
      known := cached;
      for i := 0 to |keys|
        invariant forall k: nat :: k in known <==> k in cached || k < i
        invariant forall k: nat :: k in cached ==> known[k] == cached[k]
        invariant forall k: nat :: k < i ==> known[k] == Report(Live(), keys[k], Raised)
        invariant forall k: nat :: k < i && k !in cached ==> known[k] == Unknown
      {
        if i !in known {
          known := known[i := Unknown];
        }
      }
    }

    /** One flag for each position: whether the mode named the job's resource, and not as UNKNOWN. */
    method Cancel(keys: seq<Option<JobId>>, answer: ModeAnswer, run: CleanupRun, saves: Saves)
        returns (results: seq<bool>)
      requires Scannable(cfg, Live())
      modifies this, operatingMode
      ensures View() == CancelStep(cfg, old(View()), keys, answer, run, saves)
      ensures |results| == |keys|
      ensures forall i :: 0 <= i < |keys| ==> results[i] == old(CancelReport(Live(), keys[i], answer))
      ensures forall i :: 0 <= i < |keys| ==> Accepts(old(View()), keys, answer, keys[i], results[i])
    {
      AllAccepted(View(), keys, answer);
      if answer.Raised? {
        return seq(|keys|, _ => false);
      }
      ghost var before := Live();
      var named := ResourcesToTerminate(keys);
      if named != [] {
        operatingMode.SaveState(saves.mode);
      }
      results := ApplyCancel(keys, answer.statuses);
      WriteBackScannable(cfg, before, Known(before, keys), answer.statuses);
      CleanupResources(run);
      SaveState(saves.provider);
    }

    method ResourcesToTerminate(keys: seq<Option<JobId>>) returns (named: seq<ResourceId>)
      ensures named == [] <==> Known(Live(), keys) == {}
    {
      named := [];
      for i := 0 to |keys|
        invariant named == [] <==> Known(Live(), keys[..i]) == {}
      {
        KnownPrefix(Live(), keys, i);
        if keys[i].Some? && keys[i].value in jobMap {
          named := named + [jobMap[keys[i].value].resourceId];
        }
      }
      assert keys[..|keys|] == keys;
    }

    method ApplyCancel(keys: seq<Option<JobId>>, statuses: map<ResourceId, Status>) returns (results: seq<bool>)
      modifies this`jobMap, this`resources
      ensures Live() == WriteBack(old(Live()), Known(old(Live()), keys), statuses)
      ensures |results| == |keys|
      ensures forall k :: 0 <= k < |keys| ==> results[k] == CancelReport(old(Live()), keys[k], Answered(statuses))
    {
      ghost var before := Live();
      WriteBackNothing(before, statuses);
      assert Known(before, keys[..0]) == {};
      results := [];
      for i := 0 to |keys|
        invariant Live() == WriteBack(before, Known(before, keys[..i]), statuses)
        invariant |results| == i
        invariant forall k :: 0 <= k < i ==> results[k] == CancelReport(before, keys[k], Answered(statuses))
      {
        var canceled := CancelOne(before, keys, i, statuses);
        results := results + [canceled];
      }
      assert keys[..|keys|] == keys;
    }

    method CancelOne(ghost before: ProviderState, keys: seq<Option<JobId>>, i: nat, statuses: map<ResourceId, Status>)
        returns (canceled: bool)
      requires i < |keys| && Live() == WriteBack(before, Known(before, keys[..i]), statuses)
      modifies this`jobMap, this`resources
      ensures Live() == WriteBack(before, Known(before, keys[..i + 1]), statuses)
      ensures canceled == CancelReport(before, keys[i], Answered(statuses))
    {
      KnownPrefix(before, keys, i);
      canceled := false;
      if keys[i].Some? && keys[i].value in jobMap {
        var id := jobMap[keys[i].value].resourceId;
        WriteJob(before, Known(before, keys[..i]), keys[i].value, statuses);
        canceled := id in statuses && !statuses[id].Unknown?;
      }
    }

    method ScaleIn(blocks: int, answer: ModeAnswer, run: CleanupRun, saves: Saves) returns (jobs: seq<JobId>)
      requires Scannable(cfg, Live())
      modifies this, operatingMode
      ensures View() == ScaleInStep(cfg, old(View()), blocks, answer, run, saves)
      ensures jobs == if blocks <= 0 then [] else Victims(old(Live()), blocks)
    {
      if blocks <= 0 {
        return [];
      }
      jobs := SelectVictims(blocks);
      var _ := Cancel(Keys(jobs), answer, run, saves);
    }

    method SelectVictims(blocks: nat) returns (jobs: seq<JobId>)
      ensures jobs == Victims(Live(), blocks)
    {
      var running := SelectRunning();
      var chosen := if |running| < blocks then running else running[..blocks];
      assert forall k :: 0 <= k < |chosen| ==> chosen[k] in running;
      jobs := [];
      for i := 0 to |chosen|
        invariant |jobs| == i
        invariant forall k :: 0 <= k < i ==> jobs[k] == resources[chosen[k]].jobId
      {
        jobs := jobs + [resources[chosen[i]].jobId];
      }
    }

    method SelectRunning() returns (running: seq<ResourceId>)
      ensures running == RunningIds(Live(), order)
    {
      running := [];
      for i := 0 to |order|
        invariant running == RunningIds(Live(), order[..i])
      {
        RunningIdsSnoc(Live(), order[..i], order[i]);
        assert order[..i + 1] == order[..i] + [order[i]];
        if order[i] in resources && resources[order[i]].status.Running? {
          running := running + [order[i]];
        }
      }
      assert order[..|order|] == order;
    }

    /** One `_cleanup_resources` pass: scan, promote, unlist, terminate, save. */
    method CleanupResources(run: CleanupRun)
      requires Scannable(cfg, Live())
      modifies this, operatingMode
      ensures View() == CleanupStep(cfg, old(View()), run)
    {
      ghost var before := Live();
      NothingToPromote(cfg, before, run, |order|);
      var reaped, promoted := ScanResources(run);
      reaped := PromoteCompleted(reaped, promoted, run);
      ghost var p := PoolAfter(cfg, before, run);
      UnlistReaped(reaped);
      ghost var settled := Live();
      assert settled == before.(resources := p.resources, warm := Unlist(p.resources, p.warm, p.reaped, |p.reaped|));
      var dirty := promoted != [];
      if reaped != [] && run.terminated {
        ForgetReaped(reaped);
        dirty := true;
      } else {
        ForgetNothing(settled);
      }
      if dirty {
        SaveState(run.saves.provider);
        operatingMode.SaveState(run.saves.mode);
      }
    }

    method ScanResources(run: CleanupRun) returns (reaped: seq<ResourceId>, promoted: seq<ResourceId>)
      requires Scannable(cfg, Live())
      ensures reaped == Judged(Live(), run.scan, cfg.warmPoolTtl, Reap, |order|)
      ensures promoted == Judged(Live(), run.scan, cfg.warmPoolTtl, Promote, |order|)
    {
      ghost var st := Live();
      reaped, promoted := [], [];
      for k := 0 to |order|
        invariant reaped == Judged(st, run.scan, cfg.warmPoolTtl, Reap, k)
        invariant promoted == Judged(st, run.scan, cfg.warmPoolTtl, Promote, k)
      {
        var verdict := JudgeResource(resources[order[k]], run.scan(k));
        if verdict == Reap {
          reaped := reaped + [order[k]];
        } else if verdict == Promote {
          promoted := promoted + [order[k]];
        }
      }
    }

    method JudgeResource(resource: Resource, now: real) returns (verdict: Verdict)
      ensures verdict == Judge(resource, now, cfg.warmPoolTtl)
      ensures verdict == Reap <==>
                || (resource.status.Failed? || resource.status.Canceled? || resource.status.Interrupted?)
                || (resource.status.Completed? && !resource.warmPool)
                || (resource.status.Warm? && resource.warmPool && now - resource.warmSince > cfg.warmPoolTtl)
      ensures verdict == Promote <==> resource.status.Completed? && resource.warmPool
    {
      if resource.warmPool {
        if resource.status.Warm? {
          return if now - resource.warmSince > cfg.warmPoolTtl then Reap else Leave;
        } else if resource.status.Completed? {
          return Promote;
        } else if resource.status.Failed? || resource.status.Canceled? || resource.status.Interrupted? {
          return Reap;
        } else {
          return Leave;
        }
      }
      if resource.status.Completed? || resource.status.Failed? || resource.status.Canceled? ||
        resource.status.Interrupted? {
        return Reap;
      }
      return Leave;
    }

    /** COMPLETED to WARM, evicting the oldest WARM resource whenever the pool is full. */
    method PromoteCompleted(reaped: seq<ResourceId>, promoted: seq<ResourceId>, run: CleanupRun)
        returns (doomed: seq<ResourceId>)
      requires promoted != [] ==> cfg.warmPoolSize > 0
      requires forall id :: id in promoted ==> id in resources
      modifies this`resources, operatingMode`warmInstances
      ensures var p := PromoteAll(cfg.warmPoolSize, Pool(old(resources), WarmNow(old(resources), order),
                old(operatingMode.warmInstances), reaped), promoted, run.promote, |promoted|);
              resources == p.resources && operatingMode.warmInstances == p.warm && doomed == p.reaped
    {
      doomed := reaped;
      var current := WarmNow(resources, order);
      ghost var start := Pool(resources, current, operatingMode.warmInstances, reaped);
      ghost var p := start;
      for k := 0 to |promoted|
        invariant p == PromoteAll(cfg.warmPoolSize, start, promoted, run.promote, k)
        invariant resources == p.resources && current == p.current && operatingMode.warmInstances == p.warm &&
                    doomed == p.reaped
      {
        assert promoted[k] in promoted;
        PoolNeverEmpty(cfg.warmPoolSize, start, promoted, run.promote, k);
        current, doomed := PromoteInPlace(promoted[k], run.promote(k), current, doomed);
        p := PromoteOne(cfg.warmPoolSize, p, promoted[k], run.promote(k));
      }
    }

    method PromoteInPlace(id: ResourceId, now: real, current: seq<ResourceId>, doomed: seq<ResourceId>)
      returns (current': seq<ResourceId>, doomed': seq<ResourceId>)
      requires id in resources
      requires |current| < cfg.warmPoolSize || current != []
      modifies this`resources, operatingMode`warmInstances
      ensures Pool(resources, current', operatingMode.warmInstances, doomed') ==
              PromoteOne(cfg.warmPoolSize, Pool(old(resources), current, old(operatingMode.warmInstances), doomed),
                id, now)
    {
      current', doomed' := current, doomed;
      if |current| >= cfg.warmPoolSize {
        var oldest := Oldest(resources, current);
        current' := RemoveFirst(current, oldest);
        doomed' := doomed + [oldest];
        operatingMode.warmInstances := RemoveFirst(operatingMode.warmInstances, oldest);
      }
      resources := resources[id := resources[id].(status := Warm, warmSince := now)];
      current' := current' + [id];
      operatingMode.warmInstances := operatingMode.warmInstances + [id];
    }

    /** Takes what is about to be terminated off the mode's reuse list. */
    method UnlistReaped(reaped: seq<ResourceId>)
      modifies operatingMode`warmInstances
      ensures operatingMode.warmInstances == Unlist(resources, old(operatingMode.warmInstances), reaped, |reaped|)
    {
      for k := 0 to |reaped|
        invariant operatingMode.warmInstances == Unlist(resources, old(operatingMode.warmInstances), reaped, k)
      {
        if reaped[k] in resources && resources[reaped[k]].warmPool && resources[reaped[k]].status.Warm? {
          operatingMode.warmInstances := RemoveFirst(operatingMode.warmInstances, reaped[k]);
        }
      }
    }

    /** Drops the terminated records and the jobs that own them; `reaped` may repeat an id. */
    method ForgetReaped(reaped: seq<ResourceId>)
      requires forall id :: id in order ==> id in resources
      modifies this`order, this`resources, this`jobMap
      ensures Live() == Forget(old(Live()), Elems(reaped))
    {
      ghost var settled := Live();
      ForgetNothing(settled);
      for k := 0 to |reaped|
        invariant Live() == Forget(settled, Elems(reaped[..k]))
      {
        ForgetOne(settled, reaped, k);
        var id := reaped[k];
        if id in resources {
          var owner := resources[id].jobId;
          resources := resources - {id};
          order := Without(order, {id});
          jobMap := jobMap - {owner};
        }
      }
      assert reaped[..|reaped|] == reaped;
    }
  }

  // ---------------------------------------------------------------- loop steps

  ghost predicate CachedAt(st: ProviderState, keys: seq<Option<JobId>>, k: nat) {
    k < |keys| && keys[k].Some? && keys[k].value in st.jobMap && Terminal(st.jobMap[keys[k].value].status)
  }

  /** The cache settles exactly the terminal jobs among the first `n` keys. */
  ghost predicate IsCache(st: ProviderState, keys: seq<Option<JobId>>, n: nat, known: map<nat, Status>) {
    && (forall k: nat :: k in known <==> k < n && CachedAt(st, keys, k))
    && (forall k: nat :: k in known ==> known[k] == st.jobMap[keys[k].value].status)
  }

  lemma AllAnswered(s: System, keys: seq<Option<JobId>>, answer: ModeAnswer, saves: Saves, states: seq<JobState>)
    requires |states| == |keys|
    requires forall i :: 0 <= i < |keys| ==>
               states[i] == ToJobState(Report(s.live, keys[i], Effective(s.live, keys, answer)))
    ensures forall i :: 0 <= i < |keys| ==> Answers(s, keys, answer, saves, keys[i], states[i])
  {
    forall i | 0 <= i < |keys|
      ensures Answers(s, keys, answer, saves, keys[i], states[i])
    {
      ReportAnswers(s, keys, answer, saves, keys[i]);
    }
  }

  /** What the loop returns for a key the cache did not settle: what it wrote, or that it is done. */
  ghost predicate PolledAnswer(after: ProviderState, key: Option<JobId>, statuses: map<ResourceId, Status>,
          status: Status) {
    if key.None? || key.value !in after.jobMap then status.Unknown?
    else if after.jobMap[key.value].resourceId in statuses then status == after.jobMap[key.value].status
    else status.Completed?
  }

  lemma ReportIsWritten(st: ProviderState, keys: seq<Option<JobId>>, k: nat, statuses: map<ResourceId, Status>)
    requires k < |keys| && !CachedAt(st, keys, k)
    ensures PolledAnswer(WriteBack(st, Polled(st, keys), statuses), keys[k], statuses,
              Report(st, keys[k], Answered(statuses)))
  {
    if keys[k].Some? && keys[k].value in st.jobMap {
      assert keys[k].value in Polled(st, keys);
    }
  }

  lemma AllAccepted(s: System, keys: seq<Option<JobId>>, answer: ModeAnswer)
    ensures forall i :: 0 <= i < |keys| ==> Accepts(s, keys, answer, keys[i], CancelReport(s.live, keys[i], answer))
  {
    forall i | 0 <= i < |keys|
      ensures Accepts(s, keys, answer, keys[i], CancelReport(s.live, keys[i], answer))
    {
      ReportAccepts(s, keys, answer, keys[i]);
    }
  }

  lemma WriteBackNothing(st: ProviderState, statuses: map<ResourceId, Status>)
    ensures WriteBack(st, {}, statuses) == st
  {
    assert WriteBack(st, {}, statuses).jobMap == st.jobMap;
    assert WriteBack(st, {}, statuses).resources == st.resources;
  }

  lemma PolledPrefix(st: ProviderState, keys: seq<Option<JobId>>, i: nat)
    requires i < |keys|
    ensures Polled(st, keys[..i + 1]) ==
            if keys[i].Some? && keys[i].value in st.jobMap && !Terminal(st.jobMap[keys[i].value].status)
            then Polled(st, keys[..i]) + {keys[i].value} else Polled(st, keys[..i])
  {
    assert keys[..i + 1] == keys[..i] + [keys[i]];
  }

  lemma KnownPrefix(st: ProviderState, keys: seq<Option<JobId>>, i: nat)
    requires i < |keys|
    ensures Known(st, keys[..i + 1]) ==
            if keys[i].Some? && keys[i].value in st.jobMap
            then Known(st, keys[..i]) + {keys[i].value} else Known(st, keys[..i])
  {
    assert keys[..i + 1] == keys[..i] + [keys[i]];
  }

  /** Writing one more job's answer; repeating a job writes the same answer again. */
  lemma WriteBackOne(st: ProviderState, jobs: set<JobId>, j: JobId, statuses: map<ResourceId, Status>)
    requires j in st.jobMap
    ensures var now, id := WriteBack(st, jobs, statuses), st.jobMap[j].resourceId;
            WriteBack(st, jobs + {j}, statuses) ==
            if id in statuses
            then now.(jobMap := now.jobMap[j := now.jobMap[j].(status := statuses[id])],
                      resources :=
                        if id in now.resources then now.resources[id := now.resources[id].(status := statuses[id])]
                        else now.resources)
            else now
  {
    var id := st.jobMap[j].resourceId;
    var now, next := WriteBack(st, jobs, statuses), WriteBack(st, jobs + {j}, statuses);
    assert PointedAt(st, jobs + {j}) == PointedAt(st, jobs) + {id};
    if id in statuses {
      assert next.jobMap == now.jobMap[j := now.jobMap[j].(status := statuses[id])];
      if id in now.resources {
        assert next.resources == now.resources[id := now.resources[id].(status := statuses[id])];
      } else {
        assert next.resources == now.resources;
      }
    } else {
      assert next.jobMap == now.jobMap;
      assert next.resources == now.resources;
    }
  }

  lemma WriteBackScannable(cfg: Config, st: ProviderState, jobs: set<JobId>, statuses: map<ResourceId, Status>)
    requires Scannable(cfg, st)
    ensures Scannable(cfg, WriteBack(st, jobs, statuses))
  {
  }

  /** A pool of positive size that is full holds something to evict. */
  lemma PoolNeverEmpty(size: nat, p: Pool, ids: seq<ResourceId>, promote: nat -> real, n: nat)
    requires n <= |ids| && size > 0
    requires forall id :: id in ids ==> id in p.resources
    ensures |PromoteAll(size, p, ids, promote, n).current| >= size ==>
              PromoteAll(size, p, ids, promote, n).current != []
  {
  }

  /** Deleting one more reaped record, whether or not an earlier copy was already deleted. */
  lemma ForgetOne(st: ProviderState, reaped: seq<ResourceId>, k: nat)
    requires k < |reaped|
    requires forall id :: id in st.order ==> id in st.resources
    ensures var now, id := Forget(st, Elems(reaped[..k])), reaped[k];
            Forget(st, Elems(reaped[..k + 1])) ==
            if id in now.resources
            then now.(order := Without(now.order, {id}), resources := now.resources - {id},
              jobMap := now.jobMap - {now.resources[id].jobId})
            else now
  {
    var gone, id := Elems(reaped[..k]), reaped[k];
    assert Elems(reaped[..k + 1]) == gone + {id} by {
      assert reaped[..k + 1] == reaped[..k] + [id];
    }
    WithoutMore(st.order, gone, id);
    var now := Forget(st, gone);
    if id in now.resources {
      assert OwnersOf(st.resources, gone + {id}) == OwnersOf(st.resources, gone) + {st.resources[id].jobId};
      assert st.resources - (gone + {id}) == (st.resources - gone) - {id};
    } else {
      assert OwnersOf(st.resources, gone + {id}) == OwnersOf(st.resources, gone);
      assert st.resources - (gone + {id}) == st.resources - gone;
      assert st.jobMap - OwnersOf(st.resources, gone + {id}) == now.jobMap;
      WithoutAbsent(now.order, id);
    }
  }
}
