/**
 * What every step of the provider keeps: the two dictionaries point at each other, cached and
 * tracked statuses agree, and the mode's warm list names WARM resources only.
 */
module ProviderInvariants {
  import opened Collections
  import opened ProviderModel

  ghost predicate Ordered(st: ProviderState) {
    NoDup(st.order) && forall id :: id in st.order <==> id in st.resources
  }

  /** A resource's job points back at it. */
  ghost predicate Owned(st: ProviderState) {
    forall r :: r in st.resources ==>
      st.resources[r].jobId in st.jobMap && st.jobMap[st.resources[r].jobId].resourceId == r
  }

  /** A job that may still be polled owns the resource it points at. */
  ghost predicate OwnsItsResource(st: ProviderState, j: JobId)
    requires j in st.jobMap
  {
    st.jobMap[j].resourceId in st.resources && st.resources[st.jobMap[j].resourceId].jobId == j
  }

  ghost predicate Active(st: ProviderState) {
    forall j :: j in st.jobMap && !Terminal(st.jobMap[j].status) ==> OwnsItsResource(st, j)
  }

  /** A WARM instance outlives its job, which stays COMPLETED; otherwise both maps agree. */
  ghost predicate Agree(st: ProviderState) {
    && (forall j :: j in st.jobMap ==> !st.jobMap[j].status.Warm?)
    && (forall r :: r in st.resources && st.resources[r].jobId in st.jobMap ==>
          var job := st.jobMap[st.resources[r].jobId];
          if st.resources[r].status.Warm? then job.status.Completed? else job.status == st.resources[r].status)
  }

  ghost predicate Listed(st: ProviderState) {
    NoDup(st.warm) && forall x :: x in st.warm ==> Pooled(st.resources, x)
  }

  ghost predicate Flagged(cfg: Config, st: ProviderState) {
    PoolSizable(cfg, st) && forall r :: r in st.resources && st.resources[r].status.Warm? ==> st.resources[r].warmPool
  }

  ghost predicate Inv(cfg: Config, st: ProviderState) {
    Ordered(st) && Owned(st) && Active(st) && Agree(st) && Listed(st) && Flagged(cfg, st)
  }

  ghost function WarmIds(st: ProviderState): set<ResourceId> {
    set r | r in st.resources && st.resources[r].status.Warm?
  }

  /** With every submission and termination succeeding, the list is the pool and fits. */
  ghost predicate ExactPool(cfg: Config, st: ProviderState) {
    Elems(st.warm) == WarmIds(st) && |st.warm| <= cfg.warmPoolSize
  }

  ghost predicate NeverWarm(answer: ModeAnswer) {
    answer.Answered? ==> forall r :: r in answer.statuses ==> !answer.statuses[r].Warm?
  }

  // ---------------------------------------------------------------- submit

  lemma RecordKeeps(cfg: Config, st: ProviderState, jobId: JobId, id: ResourceId)
    requires Inv(cfg, st) && jobId !in st.jobMap
    requires id in st.resources ==> st.resources[id].status.Warm?
    requires id !in st.warm
    ensures Inv(cfg, Record(cfg, st, jobId, id))
  {
    var t := Record(cfg, st, jobId, id);
    assert Ordered(t);
    forall j | j in t.jobMap && !Terminal(t.jobMap[j].status)
      ensures OwnsItsResource(t, j)
    {
      if j != jobId {
        assert OwnsItsResource(st, j);
        assert st.jobMap[j].resourceId != id;
      }
    }
    assert forall r :: r in st.resources ==> st.resources[r].jobId != jobId;
  }

  lemma RecordPool(cfg: Config, st: ProviderState, jobId: JobId, id: ResourceId)
    requires Ordered(st) && id !in st.warm
    requires Elems(st.warm) == WarmIds(st) - {id}
    ensures Elems(Record(cfg, st, jobId, id).warm) == WarmIds(Record(cfg, st, jobId, id))
  {
  }

  lemma PopKeeps(cfg: Config, st: ProviderState)
    requires Inv(cfg, st) && st.warm != []
    ensures Inv(cfg, st.(warm := st.warm[1..])) && st.warm[0] !in st.warm[1..]
    ensures st.warm[0] in st.resources && st.resources[st.warm[0]].status.Warm?
  {
    var t := st.(warm := st.warm[1..]);
    assert st.warm[0] in st.warm;
    assert forall x :: x in t.warm ==> x in st.warm;
    assert NoDup(t.warm);
  }

  lemma SubmitKeeps(cfg: Config, st: ProviderState, jobId: JobId, launch: Launch)
    requires Inv(cfg, st) && LaunchPossible(cfg, st, launch)
    requires jobId !in st.jobMap && (launch.Fresh? ==> launch.id !in st.resources)
    ensures Inv(cfg, AfterLaunch(cfg, st, jobId, launch))
    ensures ExactPool(cfg, st) && !launch.ReuseFailed? ==> ExactPool(cfg, AfterLaunch(cfg, st, jobId, launch))
  {
    match launch
    case Fresh(id) =>
      assert id !in st.warm;
      RecordKeeps(cfg, st, jobId, id);
      if ExactPool(cfg, st) {
        RecordPool(cfg, st, jobId, id);
      }
    case Reused =>
      PopKeeps(cfg, st);
      RecordKeeps(cfg, st.(warm := st.warm[1..]), jobId, st.warm[0]);
      if ExactPool(cfg, st) {
        assert st.warm == [st.warm[0]] + st.warm[1..];
        assert Elems(st.warm[1..]) == Elems(st.warm) - {st.warm[0]};
        assert WarmIds(st.(warm := st.warm[1..])) == WarmIds(st);
        RecordPool(cfg, st.(warm := st.warm[1..]), jobId, st.warm[0]);
      }
    case ReuseFailed =>
      PopKeeps(cfg, st);
    case LaunchFailed =>
  }

  // ---------------------------------------------------------------- polling and cancelling

  ghost predicate Own(st: ProviderState, jobs: set<JobId>) {
    forall j :: j in jobs ==> j in st.jobMap && OwnsItsResource(st, j)
  }

  ghost predicate OwnLive(st: ProviderState, jobs: set<JobId>) {
    Own(st, jobs) && forall j :: j in jobs ==> !st.resources[st.jobMap[j].resourceId].status.Warm?
  }

  /** What one answer round does to each record, seen from its own key. */
  lemma WriteBackPointwise(st: ProviderState, jobs: set<JobId>, statuses: map<ResourceId, Status>)
    requires Owned(st) && Own(st, jobs)
    ensures var t := WriteBack(st, jobs, statuses);
            && t.jobMap.Keys == st.jobMap.Keys && t.resources.Keys == st.resources.Keys
            && (forall j :: j in st.jobMap ==>
                  t.jobMap[j] ==
                    if j in jobs && st.jobMap[j].resourceId in statuses
                    then st.jobMap[j].(status := statuses[st.jobMap[j].resourceId]) else st.jobMap[j])
            && (forall r :: r in st.resources ==>
                  t.resources[r] ==
                    if st.resources[r].jobId in jobs && r in statuses
                    then st.resources[r].(status := statuses[r]) else st.resources[r])
  {
    forall r | r in st.resources
      ensures r in PointedAt(st, jobs) <==> st.resources[r].jobId in jobs
    {
      assert st.jobMap[st.resources[r].jobId].resourceId == r;
    }
  }

  lemma WriteBackLinks(st: ProviderState, jobs: set<JobId>, statuses: map<ResourceId, Status>)
    requires Owned(st) && Active(st) && Own(st, jobs)
    ensures Owned(WriteBack(st, jobs, statuses)) && Active(WriteBack(st, jobs, statuses))
  {
    WriteBackPointwise(st, jobs, statuses);
    var t := WriteBack(st, jobs, statuses);
    forall j | j in t.jobMap && !Terminal(t.jobMap[j].status)
      ensures OwnsItsResource(t, j)
    {
      assert OwnsItsResource(st, j);
    }
  }

  lemma WriteBackAgrees(st: ProviderState, jobs: set<JobId>, statuses: map<ResourceId, Status>)
    requires Owned(st) && Agree(st) && OwnLive(st, jobs) && NeverWarm(Answered(statuses))
    ensures Agree(WriteBack(st, jobs, statuses))
  {
    WriteBackPointwise(st, jobs, statuses);
  }

  lemma WriteBackPool(cfg: Config, st: ProviderState, jobs: set<JobId>, statuses: map<ResourceId, Status>)
    requires Owned(st) && Listed(st) && Flagged(cfg, st) && OwnLive(st, jobs) && NeverWarm(Answered(statuses))
    ensures var t := WriteBack(st, jobs, statuses); Listed(t) && Flagged(cfg, t) && WarmIds(t) == WarmIds(st)
  {
    WriteBackPointwise(st, jobs, statuses);
    forall r | r in st.resources && st.resources[r].status.Warm?
      ensures st.resources[r].jobId !in jobs
    {
      assert st.jobMap[st.resources[r].jobId].resourceId == r;
    }
  }

  /** Answers for jobs that own live resources keep every link. */
  lemma WriteBackKeeps(cfg: Config, st: ProviderState, jobs: set<JobId>, statuses: map<ResourceId, Status>)
    requires Inv(cfg, st) && NeverWarm(Answered(statuses)) && OwnLive(st, jobs)
    ensures Inv(cfg, WriteBack(st, jobs, statuses))
    ensures WarmIds(WriteBack(st, jobs, statuses)) == WarmIds(st)
    ensures ExactPool(cfg, st) ==> ExactPool(cfg, WriteBack(st, jobs, statuses))
  {
    WriteBackPointwise(st, jobs, statuses);
    WriteBackLinks(st, jobs, statuses);
    WriteBackAgrees(st, jobs, statuses);
    WriteBackPool(cfg, st, jobs, statuses);
  }

  lemma PolledOwn(cfg: Config, st: ProviderState, keys: seq<Option<JobId>>)
    requires Inv(cfg, st)
    ensures OwnLive(st, Polled(st, keys))
  {
    forall j | j in Polled(st, keys)
      ensures OwnsItsResource(st, j) && !st.resources[st.jobMap[j].resourceId].status.Warm?
    {
      assert OwnsItsResource(st, j);
    }
  }

  /** `scale_in` only cancels jobs that own a RUNNING resource. */
  lemma VictimsOwn(cfg: Config, st: ProviderState, blocks: nat)
    requires Inv(cfg, st)
    ensures OwnLive(st, Known(st, Keys(Victims(st, blocks))))
    ensures forall j :: j in Known(st, Keys(Victims(st, blocks))) ==> st.jobMap[j].status.Running?
  {
    var victims := Victims(st, blocks);
    var running := RunningIds(st, st.order);
    forall j | j in Known(st, Keys(victims))
      ensures OwnsItsResource(st, j) && st.resources[st.jobMap[j].resourceId].status.Running? &&
                st.jobMap[j].status.Running?
    {
      var k :| 0 <= k < |victims| && Keys(victims)[k] == Some(j);
      assert victims[k] == j;
      var r := running[k];
      assert r in running && st.resources[r].jobId == j;
    }
  }

  /** The m-th resource in dictionary order is RUNNING. */
  predicate RunsAt(st: ProviderState, m: nat) {
    m < |st.order| && st.order[m] in st.resources && st.resources[st.order[m]].status.Running?
  }

  /** `ids` are the RUNNING ones among the first `n` resources, found at the positions `at`. */
  ghost predicate Picks(st: ProviderState, ids: seq<ResourceId>, at: seq<nat>, n: nat) {
    && |at| == |ids| && Increasing(at)
    && (forall k :: 0 <= k < |at| ==> at[k] < n && RunsAt(st, at[k]) && ids[k] == st.order[at[k]])
    && (forall m: nat :: m < n && RunsAt(st, m) ==> m in at)
  }

  lemma PicksOneMore(st: ProviderState, ids: seq<ResourceId>, at: seq<nat>, n: nat)
    requires n < |st.order| && Picks(st, ids, at, n)
    ensures RunsAt(st, n) ==> Picks(st, ids + [st.order[n]], at + [n], n + 1)
    ensures !RunsAt(st, n) ==> Picks(st, ids, at, n + 1)
  {
    IncreasingSnoc(at, n);
    assert forall m: nat :: m in at + [n] <==> m in at || m == n;
  }

  lemma RunningMore(st: ProviderState, n: nat)
    requires n < |st.order|
    ensures RunningIds(st, st.order[..n + 1]) ==
              if RunsAt(st, n) then RunningIds(st, st.order[..n]) + [st.order[n]] else RunningIds(st, st.order[..n])
  {
    assert st.order[..n + 1] == st.order[..n] + [st.order[n]];
    RunningIdsSnoc(st, st.order[..n], st.order[n]);
    assert [st.order[n]][1..] == [];
  }

  lemma {:induction false} RunningPicked(st: ProviderState, n: nat) returns (at: seq<nat>)
    requires n <= |st.order|
    ensures Picks(st, RunningIds(st, st.order[..n]), at, n)
  {
    if n == 0 {
      at := [];
    } else {
      at := RunningPicked(st, n - 1);
      PicksOneMore(st, RunningIds(st, st.order[..n - 1]), at, n - 1);
      RunningMore(st, n - 1);
      if RunsAt(st, n - 1) {
        at := at + [n - 1];
      }
    }
  }

  lemma FirstPicks(st: ProviderState, ids: seq<ResourceId>, at: seq<nat>, n: nat, b: nat)
    requires Picks(st, ids, at, n) && b <= |at|
    ensures Increasing(at[..b])
    ensures forall m: nat :: m < n && RunsAt(st, m) && m !in at[..b] ==> forall k :: 0 <= k < b ==> at[..b][k] < m
  {
    forall m: nat | m < n && RunsAt(st, m) && m !in at[..b]
      ensures forall k :: 0 <= k < b ==> at[..b][k] < m
    {
      FirstFew(at, b, m);
    }
  }

  /**
   * Scaling in chooses the jobs of the first RUNNING resources in dictionary order, as many as asked
   * for or all there are.
   */
  lemma VictimsAreFirst(st: ProviderState, blocks: nat) returns (at: seq<nat>)
    ensures |at| == |Victims(st, blocks)| <= blocks && Increasing(at)
    ensures forall k :: 0 <= k < |at| ==>
              RunsAt(st, at[k]) && Victims(st, blocks)[k] == st.resources[st.order[at[k]]].jobId
    ensures |at| < blocks ==> forall m: nat :: RunsAt(st, m) ==> m in at
    ensures forall m: nat :: RunsAt(st, m) && m !in at ==> forall k :: 0 <= k < |at| ==> at[k] < m
  {
    var all := RunningPicked(st, |st.order|);
    var running := RunningIds(st, st.order);
    assert st.order[..|st.order|] == st.order;
    var b := if |all| < blocks then |all| else blocks;
    FirstPicks(st, running, all, |st.order|, b);
    assert all[..|all|] == all;
    at := all[..b];
  }

  // ---------------------------------------------------------------- the scan

  lemma JudgedMore(st: ProviderState, scan: nat -> real, ttl: real, v: Verdict, n: nat)
    requires Ordered(st) && 0 < n <= |st.order|
    ensures var id, rest := st.order[n - 1], Judged(st, scan, ttl, v, n - 1);
            && id !in rest
            && Judged(st, scan, ttl, v, n) ==
                 rest + (if Judge(st.resources[id], scan(n - 1), ttl) == v then [id] else [])
  {
    assert st.order[n - 1] !in st.order[..n - 1];
  }

  lemma InMore(s: seq<ResourceId>, id: ResourceId, more: bool, x: ResourceId)
    ensures x in s + (if more then [id] else []) <==> x in s || (more && x == id)
  {
  }

  lemma {:induction false} JudgedAt(st: ProviderState, scan: nat -> real, ttl: real, v: Verdict, n: nat, k: nat)
    requires Ordered(st) && k < n <= |st.order|
    ensures st.order[k] in Judged(st, scan, ttl, v, n) <==> Judge(st.resources[st.order[k]], scan(k), ttl) == v
    decreases n
  {
    JudgedMore(st, scan, ttl, v, n);
    InMore(Judged(st, scan, ttl, v, n - 1), st.order[n - 1], Judge(st.resources[st.order[n - 1]], scan(n - 1), ttl) ==
      v,
      st.order[k]);
    if k < n - 1 {
      JudgedAt(st, scan, ttl, v, n - 1, k);
      assert st.order[k] != st.order[n - 1];
    }
  }

  lemma {:induction false} JudgedNoDup(st: ProviderState, scan: nat -> real, ttl: real, v: Verdict, n: nat)
    requires Ordered(st) && n <= |st.order|
    ensures NoDup(Judged(st, scan, ttl, v, n))
  {
    if n > 0 {
      JudgedNoDup(st, scan, ttl, v, n - 1);
      JudgedMore(st, scan, ttl, v, n);
    }
  }

  lemma JudgedIff(st: ProviderState, scan: nat -> real, ttl: real, v: Verdict, n: nat)
    requires Ordered(st) && n <= |st.order|
    ensures forall k: nat :: k < n ==>
              (st.order[k] in Judged(st, scan, ttl, v, n) <==> Judge(st.resources[st.order[k]], scan(k), ttl) == v)
    ensures NoDup(Judged(st, scan, ttl, v, n))
  {
    JudgedNoDup(st, scan, ttl, v, n);
    forall k: nat | k < n
      ensures st.order[k] in Judged(st, scan, ttl, v, n) <==> Judge(st.resources[st.order[k]], scan(k), ttl) == v
    {
      JudgedAt(st, scan, ttl, v, n, k);
    }
  }

  ghost function Reaped(cfg: Config, st: ProviderState, run: CleanupRun): seq<ResourceId> {
    Judged(st, run.scan, cfg.warmPoolTtl, Reap, |st.order|)
  }

  ghost function Promoted(cfg: Config, st: ProviderState, run: CleanupRun): seq<ResourceId> {
    Judged(st, run.scan, cfg.warmPoolTtl, Promote, |st.order|)
  }

  /** Exactly the COMPLETED pool resources are promoted, whatever the clock says. */
  lemma PromotedIff(cfg: Config, st: ProviderState, run: CleanupRun)
    requires Ordered(st)
    ensures NoDup(Promoted(cfg, st, run))
    ensures forall x :: x in Promoted(cfg, st, run) <==>
              x in st.resources && st.resources[x].warmPool && st.resources[x].status.Completed?
  {
    JudgedIff(st, run.scan, cfg.warmPoolTtl, Promote, |st.order|);
    forall x | x in st.resources
      ensures x in Promoted(cfg, st, run) <==> st.resources[x].warmPool && st.resources[x].status.Completed?
    {
      var k :| 0 <= k < |st.order| && st.order[k] == x;
    }
  }

  /** Only finished or WARM resources are reaped, and a reaped WARM one is in the pool. */
  lemma ReapedOnly(cfg: Config, st: ProviderState, run: CleanupRun)
    requires Ordered(st)
    ensures forall x :: x in Reaped(cfg, st, run) ==>
              && x in st.resources && x !in Promoted(cfg, st, run)
              && (Terminal(st.resources[x].status) || Pooled(st.resources, x))
  {
    JudgedIff(st, run.scan, cfg.warmPoolTtl, Reap, |st.order|);
    PromotedIff(cfg, st, run);
    forall x | x in Reaped(cfg, st, run)
      ensures x in st.resources && (Terminal(st.resources[x].status) || Pooled(st.resources, x)) &&
                x !in Promoted(cfg, st, run)
    {
      var k :| 0 <= k < |st.order| && st.order[k] == x;
    }
  }

  lemma {:induction false} WarmNowNoDup(resources: map<ResourceId, Resource>, order: seq<ResourceId>)
    requires NoDup(order)
    ensures NoDup(WarmNow(resources, order))
  {
    if order != [] {
      assert NoDup(order[1..]);
      WarmNowNoDup(resources, order[1..]);
      assert order[0] !in order[1..];
    }
  }

  // ---------------------------------------------------------------- the promotions

  ghost function PooledIds(resources: map<ResourceId, Resource>): set<ResourceId> {
    set r | r in resources && Pooled(resources, r)
  }

  /** The evictions made so far: what the pool has added to the reaped list. */
  ghost function Evicted(p: Pool, base: nat): seq<ResourceId>
    requires base <= |p.reaped|
  {
    p.reaped[base..]
  }

  ghost predicate PoolSound(p: Pool, base: nat) {
    && base <= |p.reaped|
    && NoDup(p.current) && NoDup(p.warm)
    && Elems(p.warm) <= Elems(p.current)
    && PooledIds(p.resources) == Elems(p.current) + Elems(Evicted(p, base))
    && Elems(p.current) !! Elems(Evicted(p, base))
  }

  lemma EvictSound(p: Pool, base: nat)
    requires PoolSound(p, base) && p.current != []
    ensures PoolSound(Evict(p), base)
    ensures |Evict(p).current| == |p.current| - 1
    ensures Evict(p).resources == p.resources && Evict(p).reaped[..base] == p.reaped[..base]
    ensures Elems(p.warm) == Elems(p.current) ==> Elems(Evict(p).warm) == Elems(Evict(p).current)
  {
    var v := Oldest(p.resources, p.current);
    var q := Evict(p);
    RemoveFirstNoDup(p.current, v);
    RemoveFirstNoDup(p.warm, v);
    assert Evicted(q, base) == Evicted(p, base) + [v];
    assert Elems(q.current) == Elems(p.current) - {v};
    assert Elems(q.warm) == Elems(p.warm) - {v};
    assert Elems(Evicted(q, base)) == Elems(Evicted(p, base)) + {v};
    assert q.reaped[..base] == p.reaped[..base];
  }

  lemma AdmitSound(q: Pool, base: nat, id: ResourceId, now: real)
    requires PoolSound(q, base) && id in q.resources && q.resources[id].warmPool && !q.resources[id].status.Warm?
    ensures var t := Admit(q, id, now);
            PoolSound(t, base) && (Elems(q.warm) == Elems(q.current) ==> Elems(t.warm) == Elems(t.current))
  {
    var t := Admit(q, id, now);
    assert id !in PooledIds(q.resources);
    assert id !in Elems(q.current);
    assert Evicted(t, base) == Evicted(q, base);
    assert Elems(t.current) == Elems(q.current) + {id};
    assert Elems(t.warm) == Elems(q.warm) + {id};
    assert PooledIds(t.resources) == PooledIds(q.resources) + {id};
  }

  ghost predicate Promotable(resources: map<ResourceId, Resource>, ids: seq<ResourceId>) {
    NoDup(ids) && forall x :: x in ids ==> x in resources && resources[x].warmPool && resources[x].status.Completed?
  }

  /** Promotion changes the status and stamp of the promoted, and nothing else. */
  ghost predicate OnlyPromoted(before: map<ResourceId, Resource>, after: map<ResourceId, Resource>,
          done: seq<ResourceId>) {
    && after.Keys == before.Keys
    && (forall r :: r in before && r !in done ==> after[r] == before[r])
    && (forall r :: r in before && r in done ==>
         after[r] == before[r].(status := Warm, warmSince := after[r].warmSince))
  }

  /** How many WARM resources are counted after `more` promotions: a full pool trades one for one. */
  function Counted(size: nat, n: nat, more: nat): nat {
    if n >= size then n else if n + more < size then n + more else size
  }

  /** How the pool `q` after promoting `done` stands to the pool `p` before. */
  ghost predicate PromotionSound(size: nat, p: Pool, done: seq<ResourceId>, q: Pool) {
    && PoolSound(q, |p.reaped|) && q.reaped[..|p.reaped|] == p.reaped
    && OnlyPromoted(p.resources, q.resources, done)
    && (Elems(p.warm) == Elems(p.current) ==> Elems(q.warm) == Elems(q.current))
    && |q.current| == Counted(size, |p.current|, |done|)
  }

  /** Room is made first; what is already promoted stays. */
  lemma RoomMade(size: nat, p: Pool, done: seq<ResourceId>, m: Pool) returns (q: Pool)
    requires size > 0 && PromotionSound(size, p, done, m)
    ensures q == (if |m.current| < size then m else Evict(m))
    ensures PoolSound(q, |p.reaped|) && q.reaped[..|p.reaped|] == p.reaped && q.resources == m.resources
    ensures Elems(p.warm) == Elems(p.current) ==> Elems(q.warm) == Elems(q.current)
    ensures |q.current| + 1 == Counted(size, |p.current|, |done| + 1)
  {
    q := m;
    if |m.current| >= size {
      EvictSound(m, |p.reaped|);
      q := Evict(m);
    }
  }

  lemma OnlyOneMore(before: map<ResourceId, Resource>, now: map<ResourceId, Resource>, done: seq<ResourceId>,
          id: ResourceId, stamp: real)
    requires OnlyPromoted(before, now, done) && id in before && id !in done
    ensures OnlyPromoted(before, now[id := now[id].(status := Warm, warmSince := stamp)], done + [id])
  {
  }

  lemma PromoteOneSound(size: nat, p: Pool, done: seq<ResourceId>, m: Pool, id: ResourceId, now: real)
    requires size > 0 && PromotionSound(size, p, done, m) && id !in done
    requires id in p.resources && p.resources[id].warmPool && p.resources[id].status.Completed?
    ensures PromotionSound(size, p, done + [id], PromoteOne(size, m, id, now))
  {
    var q := RoomMade(size, p, done, m);
    AdmitSound(q, |p.reaped|, id, now);
    OnlyOneMore(p.resources, m.resources, done, id, now);
  }

  lemma {:induction false} PromoteAllSound(size: nat, p: Pool, ids: seq<ResourceId>, promote: nat -> real, n: nat)
    requires n <= |ids| && (n > 0 ==> size > 0)
    requires PoolSound(p, |p.reaped|) && Promotable(p.resources, ids)
    ensures PromotionSound(size, p, ids[..n], PromoteAll(size, p, ids, promote, n))
  {
    if n > 0 {
      var id := ids[n - 1];
      PromoteAllSound(size, p, ids, promote, n - 1);
      assert id in ids && id !in ids[..n - 1];
      assert ids[..n] == ids[..n - 1] + [id];
      PromoteOneSound(size, p, ids[..n - 1], PromoteAll(size, p, ids, promote, n - 1), id, promote(n - 1));
    }
  }

  /** The pool the promotions start from. */
  lemma StartSound(cfg: Config, st: ProviderState, run: CleanupRun)
    requires Inv(cfg, st)
    ensures var p := StartPool(cfg, st, run);
            && PoolSound(p, |p.reaped|) && Promotable(st.resources, Promoted(cfg, st, run))
            && Elems(p.current) == WarmIds(st) && |p.current| == |WarmIds(st)|
  {
    var p := StartPool(cfg, st, run);
    WarmNowNoDup(st.resources, st.order);
    PromotedIff(cfg, st, run);
    assert Evicted(p, |p.reaped|) == [];
    assert Elems(p.current) == PooledIds(st.resources) == WarmIds(st);
    NoDupSize(p.current);
  }

  lemma PromotionHolds(cfg: Config, st: ProviderState, run: CleanupRun, p: Pool, ids: seq<ResourceId>)
    requires PoolSizable(cfg, st) && p == StartPool(cfg, st, run) && ids == Promoted(cfg, st, run)
    requires PoolSound(p, |p.reaped|) && Promotable(p.resources, ids)
    ensures PromotionSound(cfg.warmPoolSize, p, ids, PoolAfter(cfg, st, run))
  {
    NothingToPromote(cfg, st, run, |st.order|);
    PromoteAllSound(cfg.warmPoolSize, p, ids, run.promote, |ids|);
    assert ids[..|ids|] == ids;
  }

  lemma PoolAfterSound(cfg: Config, st: ProviderState, run: CleanupRun)
    requires Inv(cfg, st)
    ensures PromotionSound(cfg.warmPoolSize, StartPool(cfg, st, run), Promoted(cfg, st, run), PoolAfter(cfg, st, run))
  {
    StartSound(cfg, st, run);
    PromotionHolds(cfg, st, run, StartPool(cfg, st, run), Promoted(cfg, st, run));
  }

  // ---------------------------------------------------------------- unlisting and forgetting

  lemma {:induction false} UnlistIff(resources: map<ResourceId, Resource>, warm: seq<ResourceId>,
          reaped: seq<ResourceId>, n: nat)
    requires NoDup(warm) && n <= |reaped|
    ensures NoDup(Unlist(resources, warm, reaped, n))
    ensures forall x :: x in Unlist(resources, warm, reaped, n) <==>
              x in warm && !(x in reaped[..n] && Pooled(resources, x))
    ensures |Unlist(resources, warm, reaped, n)| <= |warm|
  {
    if n > 0 {
      UnlistIff(resources, warm, reaped, n - 1);
      assert reaped[..n] == reaped[..n - 1] + [reaped[n - 1]];
      RemoveFirstNoDup(Unlist(resources, warm, reaped, n - 1), reaped[n - 1]);
    }
  }

  lemma ForgetKeeps(cfg: Config, st: ProviderState, gone: set<ResourceId>)
    requires Inv(cfg, st) && forall x :: x in gone ==> x !in st.warm
    ensures Inv(cfg, Forget(st, gone))
    ensures WarmIds(Forget(st, gone)) == WarmIds(st) - gone
  {
    var t := Forget(st, gone);
    WithoutNoDup(st.order, gone);
    forall r | r in t.resources
      ensures t.resources[r].jobId in t.jobMap && t.jobMap[t.resources[r].jobId].resourceId == r
    {
      assert forall g :: g in st.resources && g in gone ==> st.jobMap[st.resources[g].jobId].resourceId == g != r;
    }
    forall j | j in t.jobMap && !Terminal(t.jobMap[j].status)
      ensures OwnsItsResource(t, j)
    {
      assert OwnsItsResource(st, j);
      assert st.jobMap[j].resourceId !in gone;
    }
  }

  /** Promotion and unlisting, before anything is terminated. */
  ghost function Settled(cfg: Config, st: ProviderState, run: CleanupRun): ProviderState
    requires PoolSizable(cfg, st)
  {
    var p := PoolAfter(cfg, st, run);
    st.(resources := p.resources, warm := Unlist(p.resources, p.warm, p.reaped, |p.reaped|))
  }

  lemma SettleInv(cfg: Config, st: ProviderState, ids: seq<ResourceId>, p: Pool, t: ProviderState)
    requires Inv(cfg, st) && Promotable(st.resources, ids) && OnlyPromoted(st.resources, p.resources, ids)
    requires t == st.(resources := p.resources, warm := t.warm)
    requires NoDup(t.warm) && forall x :: x in t.warm ==> x in PooledIds(p.resources)
    ensures Inv(cfg, t)
  {
    assert forall r :: r in st.resources ==>
      t.resources[r].jobId == st.resources[r].jobId && t.resources[r].warmPool == st.resources[r].warmPool;
    forall j | j in t.jobMap && !Terminal(t.jobMap[j].status)
      ensures OwnsItsResource(t, j)
    {
      assert OwnsItsResource(st, j);
    }
    assert Agree(t);
    assert Flagged(cfg, t);
  }

  lemma SettledKeeps(cfg: Config, st: ProviderState, run: CleanupRun)
    requires Inv(cfg, st)
    ensures Inv(cfg, Settled(cfg, st, run))
    ensures var p, t := PoolAfter(cfg, st, run), Settled(cfg, st, run);
            && (forall x :: x in t.warm <==> x in p.warm && x !in p.reaped)
            && |t.warm| <= |p.warm|
  {
    var p, t := PoolAfter(cfg, st, run), Settled(cfg, st, run);
    PoolAfterSound(cfg, st, run);
    PromotedIff(cfg, st, run);
    UnlistIff(p.resources, p.warm, p.reaped, |p.reaped|);
    assert p.reaped[..|p.reaped|] == p.reaped;
    assert forall x :: x in p.warm ==> x in Elems(p.current) && x in PooledIds(p.resources);
    SettleInv(cfg, st, Promoted(cfg, st, run), p, t);
  }

  /** With exact bookkeeping before, the list is exact again once the reaped are gone. */
  lemma PoolExact(size: nat, start: Pool, done: seq<ResourceId>, p: Pool, warm: seq<ResourceId>)
    requires PromotionSound(size, start, done, p)
    requires Elems(start.warm) == Elems(start.current) && |start.current| <= size
    requires (forall x :: x in warm <==> x in p.warm && x !in p.reaped) && |warm| <= |p.warm|
    ensures Elems(warm) == PooledIds(p.resources) - Elems(p.reaped) && |warm| <= size
  {
    NoDupSize(p.warm);
    NoDupSize(p.current);
    var evicted := Evicted(p, |start.reaped|);
    assert Elems(evicted) <= Elems(p.reaped);
    assert Elems(warm) == Elems(p.current) - Elems(p.reaped);
  }

  lemma SettledExact(cfg: Config, st: ProviderState, run: CleanupRun)
    requires Inv(cfg, st) && ExactPool(cfg, st)
    ensures var p, t := PoolAfter(cfg, st, run), Settled(cfg, st, run);
            Elems(t.warm) == PooledIds(t.resources) - Elems(p.reaped) && |t.warm| <= cfg.warmPoolSize
  {
    StartSound(cfg, st, run);
    PoolAfterSound(cfg, st, run);
    SettledKeeps(cfg, st, run);
    assert |WarmIds(st)| <= cfg.warmPoolSize by {
      NoDupSize(st.warm);
    }
    PoolExact(cfg.warmPoolSize, StartPool(cfg, st, run), Promoted(cfg, st, run), PoolAfter(cfg, st, run),
      Settled(cfg, st, run).warm);
  }

  lemma WarmIsPooled(cfg: Config, st: ProviderState)
    requires Flagged(cfg, st)
    ensures WarmIds(st) == PooledIds(st.resources)
  {
  }

  lemma CleanupKeeps(cfg: Config, st: ProviderState, run: CleanupRun)
    requires Inv(cfg, st)
    ensures Inv(cfg, Cleanup(cfg, st, run))
    ensures ExactPool(cfg, st) && run.terminated ==> ExactPool(cfg, Cleanup(cfg, st, run))
  {
    var t := Settled(cfg, st, run);
    var gone := Elems(PoolAfter(cfg, st, run).reaped);
    SettledKeeps(cfg, st, run);
    if run.terminated {
      assert Cleanup(cfg, st, run) == Forget(t, gone);
      ForgetKeeps(cfg, t, gone);
      WarmIsPooled(cfg, t);
      if ExactPool(cfg, st) {
        SettledExact(cfg, st, run);
      }
    }
  }

  lemma PoolFits(size: nat, start: Pool, done: seq<ResourceId>, p: Pool)
    requires PromotionSound(size, start, done, p) && |start.current| <= size
    ensures |Elems(p.current)| <= size && |p.warm| <= size
    ensures PooledIds(p.resources) - Elems(p.reaped) <= Elems(p.current)
  {
    NoDupSize(p.warm);
    NoDupSize(p.current);
    SubsetSize(Elems(p.warm), Elems(p.current));
    assert Elems(Evicted(p, |start.reaped|)) <= Elems(p.reaped);
  }

  /** From at most as many WARM resources as the pool holds, no pass lists more, whatever fails. */
  lemma CleanupCaps(cfg: Config, st: ProviderState, run: CleanupRun)
    requires Inv(cfg, st) && |WarmIds(st)| <= cfg.warmPoolSize
    ensures |Cleanup(cfg, st, run).warm| <= cfg.warmPoolSize
    ensures run.terminated ==> |WarmIds(Cleanup(cfg, st, run))| <= cfg.warmPoolSize
  {
    var p, t := PoolAfter(cfg, st, run), Settled(cfg, st, run);
    StartSound(cfg, st, run);
    PoolAfterSound(cfg, st, run);
    SettledKeeps(cfg, st, run);
    PoolFits(cfg.warmPoolSize, StartPool(cfg, st, run), Promoted(cfg, st, run), p);
    if run.terminated {
      ForgetKeeps(cfg, t, Elems(p.reaped));
      WarmIsPooled(cfg, t);
      SubsetSize(WarmIds(Cleanup(cfg, st, run)), Elems(p.current));
    }
  }
}
