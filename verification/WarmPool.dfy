/** Which instances one clean-up pass leaves in the warm pool: the newest ones, as many as fit. */
module WarmPool {
  import opened Collections
  import opened ProviderModel
  import opened ProviderInvariants

  /** Every eviction so far was at least as old as everything kept, and no stamp is in the future. */
  ghost predicate OldestFirst(p: Pool, base: nat, now: real)
    requires base <= |p.reaped|
  {
    && (forall d, c :: d in Evicted(p, base) && c in p.current ==> SinceOf(p.resources, d) <= SinceOf(p.resources, c))
    && (forall x :: x in p.current || x in Evicted(p, base) ==> SinceOf(p.resources, x) <= now)
  }

  lemma EvictOldestFirst(p: Pool, base: nat, now: real)
    requires PoolSound(p, base) && OldestFirst(p, base, now) && p.current != []
    ensures base <= |Evict(p).reaped| && OldestFirst(Evict(p), base, now)
  {
    var v, q := Oldest(p.resources, p.current), Evict(p);
    assert Evicted(q, base) == Evicted(p, base) + [v];
    RemoveFirstNoDup(p.current, v);
    assert forall c :: c in q.current ==> c in p.current;
    assert forall d :: d in Evicted(q, base) ==> d in Evicted(p, base) || d == v;
  }

  lemma AdmitOldestFirst(q: Pool, base: nat, id: ResourceId, earlier: real, now: real)
    requires PoolSound(q, base) && OldestFirst(q, base, earlier) && earlier <= now
    requires id in q.resources && !q.resources[id].status.Warm?
    ensures var t := Admit(q, id, now);
            OldestFirst(t, base, now)
  {
    var t := Admit(q, id, now);
    assert Evicted(t, base) == Evicted(q, base);
    forall x | x in q.current || x in Evicted(q, base)
      ensures x != id && SinceOf(t.resources, x) == SinceOf(q.resources, x)
    {
      assert x in Elems(q.current) + Elems(Evicted(q, base));
      assert x in PooledIds(q.resources);
    }
  }

  /** Clock readings never go back, within a scan's promotions or behind the scan itself. */
  ghost predicate Forward(promote: nat -> real, from: real) {
    && from <= promote(0)
    && (forall i: nat, j: nat :: i <= j ==> promote(i) <= promote(j))
  }

  ghost function LastReading(promote: nat -> real, from: real, n: nat): real {
    if n == 0 then from else promote(n - 1)
  }

  lemma PromoteOneNewest(size: nat, m: Pool, base: nat, id: ResourceId, earlier: real, now: real)
    requires PoolSound(m, base) && OldestFirst(m, base, earlier) && earlier <= now && size > 0
    requires id in m.resources && !m.resources[id].status.Warm?
    ensures base <= |PromoteOne(size, m, id, now).reaped| && OldestFirst(PromoteOne(size, m, id, now), base, now)
  {
    if |m.current| >= size {
      EvictSound(m, base);
      EvictOldestFirst(m, base, earlier);
      AdmitOldestFirst(Evict(m), base, id, earlier, now);
    } else {
      AdmitOldestFirst(m, base, id, earlier, now);
    }
  }

  lemma PromotableNext(size: nat, p: Pool, ids: seq<ResourceId>, promote: nat -> real, n: nat)
    requires n < |ids| && size > 0 && PoolSound(p, |p.reaped|) && Promotable(p.resources, ids)
    ensures var q := PromoteAll(size, p, ids, promote, n);
            PoolSound(q, |p.reaped|) && ids[n] in q.resources && !q.resources[ids[n]].status.Warm?
  {
    PromoteAllSound(size, p, ids, promote, n);
    assert ids[n] in ids && ids[n] !in ids[..n];
  }

  /** Promotions only ever evict the oldest. */
  lemma {:induction false} PromoteNewest(size: nat, p: Pool, ids: seq<ResourceId>, promote: nat -> real, from: real,
          n: nat)
    requires n <= |ids| && size > 0
    requires PoolSound(p, |p.reaped|) && Promotable(p.resources, ids)
    requires OldestFirst(p, |p.reaped|, from) && Forward(promote, from)
    ensures |p.reaped| <= |PromoteAll(size, p, ids, promote, n).reaped|
    ensures OldestFirst(PromoteAll(size, p, ids, promote, n), |p.reaped|, LastReading(promote, from, n))
  {
    if n > 0 {
      PromoteNewest(size, p, ids, promote, from, n - 1);
      PromotableNext(size, p, ids, promote, n - 1);
      assert LastReading(promote, from, n - 1) <= promote(n - 1);
      PromoteOneNewest(size, PromoteAll(size, p, ids, promote, n - 1), |p.reaped|, ids[n - 1],
        LastReading(promote, from, n - 1), promote(n - 1));
    }
  }

  /** The k-th promoted resource is stamped with the k-th reading. */
  lemma {:induction false} PromoteStamps(size: nat, p: Pool, ids: seq<ResourceId>, promote: nat -> real, n: nat)
    requires n <= |ids| && size > 0
    requires NoDup(ids) && forall id :: id in ids ==> id in p.resources
    ensures forall k: nat :: k < n ==> SinceOf(PromoteAll(size, p, ids, promote, n).resources, ids[k]) == promote(k)
  {
    if n > 0 {
      PromoteStamps(size, p, ids, promote, n - 1);
      assert ids[n - 1] in ids;
      assert forall k: nat :: k < n - 1 ==> ids[k] != ids[n - 1];
    }
  }

  // ---------------------------------------------------------------- counting

  ghost function Expired(cfg: Config, st: ProviderState, now: real): set<ResourceId> {
    set r | r in WarmIds(st) && now - st.resources[r].warmSince > cfg.warmPoolTtl
  }

  ghost function NewlyCompleted(st: ProviderState): set<ResourceId> {
    set r | r in st.resources && st.resources[r].warmPool && st.resources[r].status.Completed?
  }

  ghost function Min(a: nat, b: nat): nat {
    if a < b then a else b
  }

  /**
   * The set arithmetic: of `kept + dropped`, `kept` fills the pool; taking the expired out of it
   * leaves as many of the unexpired as fit, provided the drops reach the expired first.
   */
  lemma UnexpiredFill<T>(size: nat, kept: set<T>, dropped: set<T>, expired: set<T>)
    requires kept !! dropped && expired <= kept + dropped
    requires |kept| == Min(size, |kept + dropped|)
    requires expired !! kept || dropped <= expired
    ensures |kept - expired| == Min(size, |(kept + dropped) - expired|)
  {
    assert |kept + dropped| == |kept| + |dropped|;
    var all := kept + dropped;
    assert all == (all - expired) + expired && |all| == |all - expired| + |expired|;
    if expired !! kept {
      assert kept - expired == kept && expired <= dropped;
      SubsetSize(expired, dropped);
      if |all| <= size {
        assert dropped == {};
        assert expired == {};
        assert all - expired == kept;
      }
    } else {
      assert kept - expired == all - expired;
      SubsetSize(kept - expired, kept);
    }
  }

  /** With one reading for the whole scan, the reaped WARM resources are the expired ones. */
  lemma ReapedWarmIff(cfg: Config, st: ProviderState, run: CleanupRun, now: real)
    requires Inv(cfg, st) && forall k: nat :: run.scan(k) == now
    ensures forall r :: r in WarmIds(st) ==> (r in Reaped(cfg, st, run) <==> r in Expired(cfg, st, now))
  {
    JudgedIff(st, run.scan, cfg.warmPoolTtl, Reap, |st.order|);
    forall r | r in WarmIds(st)
      ensures r in Reaped(cfg, st, run) <==> r in Expired(cfg, st, now)
    {
      var k :| 0 <= k < |st.order| && st.order[k] == r;
      assert run.scan(k) == now;
    }
  }

  /** The premises of a sound pass over the pool. */
  ghost predicate Timely(cfg: Config, st: ProviderState, run: CleanupRun, now: real) {
    && cfg.warmPoolSize >= 1 && cfg.warmPoolTtl >= 0.0
    && |WarmIds(st)| <= cfg.warmPoolSize
    && (forall k: nat :: run.scan(k) == now) && Forward(run.promote, now)
    && (forall r :: r in WarmIds(st) ==> st.resources[r].warmSince <= now)
  }

  ghost function Kept(cfg: Config, st: ProviderState, run: CleanupRun): set<ResourceId>
    requires PoolSizable(cfg, st)
  {
    Elems(PoolAfter(cfg, st, run).current)
  }

  ghost function Dropped(cfg: Config, st: ProviderState, run: CleanupRun): set<ResourceId>
    requires PoolSizable(cfg, st)
  {
    var p := PoolAfter(cfg, st, run);
    if |Reaped(cfg, st, run)| <= |p.reaped| then Elems(Evicted(p, |Reaped(cfg, st, run)|)) else {}
  }

  /** The stamp a resource carried when the pass decided about it. */
  ghost function Stamp(cfg: Config, st: ProviderState, run: CleanupRun, r: ResourceId): real
    requires PoolSizable(cfg, st)
  {
    SinceOf(PoolAfter(cfg, st, run).resources, r)
  }

  lemma PoolPopulation(size: nat, start: Pool, ids: seq<ResourceId>, q: Pool)
    requires PromotionSound(size, start, ids, q) && Promotable(start.resources, ids)
    ensures PooledIds(q.resources) == PooledIds(start.resources) + Elems(ids)
    ensures PooledIds(start.resources) !! Elems(ids)
  {
  }

  lemma DisjointSizes<T>(a: set<T>, b: set<T>)
    requires a !! b
    ensures |a + b| == |a| + |b|
  {
  }

  lemma PromotionCounts(size: nat, start: Pool, ids: seq<ResourceId>, q: Pool)
    requires PromotionSound(size, start, ids, q) && Promotable(start.resources, ids)
    requires NoDup(start.current) && Elems(start.current) == PooledIds(start.resources)
    ensures var kept, dropped := Elems(q.current), Elems(Evicted(q, |start.reaped|));
            && kept !! dropped && kept + dropped == PooledIds(start.resources) + Elems(ids)
            && |kept| == Counted(size, |start.current|, |ids|)
            && |kept| + |dropped| == |kept + dropped| == |start.current| + |ids|
  {
    PoolPopulation(size, start, ids, q);
    NoDupSize(q.current);
    NoDupSize(start.current);
    NoDupSize(ids);
    DisjointSizes(PooledIds(start.resources), Elems(ids));
    DisjointSizes(Elems(q.current), Elems(Evicted(q, |start.reaped|)));
  }

  /** What a pass decided: who stays, who goes, and the stamps that put the goers first. */
  ghost predicate Decided(size: nat, st: ProviderState, now: real, after: map<ResourceId, Resource>,
          kept: set<ResourceId>, dropped: set<ResourceId>) {
    Accounted(size, st, kept, dropped) && Stamped(st, now, after, kept, dropped)
  }

  ghost predicate Accounted(size: nat, st: ProviderState, kept: set<ResourceId>, dropped: set<ResourceId>) {
    && kept !! dropped && kept + dropped == WarmIds(st) + NewlyCompleted(st)
    && |kept| == Min(size, |kept + dropped|)
  }

  ghost predicate Stamped(st: ProviderState, now: real, after: map<ResourceId, Resource>, kept: set<ResourceId>,
          dropped: set<ResourceId>) {
    DroppedOlder(after, kept, dropped) && WarmUnchanged(st, after) && CompletedStamped(st, now, after)
  }

  ghost predicate DroppedOlder(after: map<ResourceId, Resource>, kept: set<ResourceId>, dropped: set<ResourceId>) {
    forall d, c :: d in dropped && c in kept ==> SinceOf(after, d) <= SinceOf(after, c)
  }

  ghost predicate WarmUnchanged(st: ProviderState, after: map<ResourceId, Resource>) {
    forall r :: r in WarmIds(st) ==> SinceOf(after, r) == st.resources[r].warmSince
  }

  ghost predicate CompletedStamped(st: ProviderState, now: real, after: map<ResourceId, Resource>) {
    forall r :: r in NewlyCompleted(st) ==> now <= SinceOf(after, r)
  }

  lemma PassOrders(cfg: Config, st: ProviderState, run: CleanupRun, now: real)
    requires Inv(cfg, st) && Timely(cfg, st, run, now)
    ensures |Reaped(cfg, st, run)| <= |PoolAfter(cfg, st, run).reaped|
    ensures DroppedOlder(PoolAfter(cfg, st, run).resources, Kept(cfg, st, run), Dropped(cfg, st, run))
  {
    var p, ids := StartPool(cfg, st, run), Promoted(cfg, st, run);
    StartSound(cfg, st, run);
    NothingToPromote(cfg, st, run, |st.order|);
    assert Evicted(p, |p.reaped|) == [];
    assert forall x :: x in p.current ==> x in WarmIds(st) by {
      assert forall x :: x in p.current ==> x in Elems(p.current);
    }
    PromoteNewest(cfg.warmPoolSize, p, ids, run.promote, now, |ids|);
  }

  /** The k-th promoted instance carries the k-th reading, so none is older than the scan. */
  lemma PassStamps(cfg: Config, st: ProviderState, run: CleanupRun, now: real)
    requires Inv(cfg, st) && cfg.warmPoolSize > 0
    ensures forall k: nat :: k < |Promoted(cfg, st, run)| ==>
              Stamp(cfg, st, run, Promoted(cfg, st, run)[k]) == run.promote(k)
    ensures Forward(run.promote, now) ==> CompletedStamped(st, now, PoolAfter(cfg, st, run).resources)
  {
    var p, ids := StartPool(cfg, st, run), Promoted(cfg, st, run);
    PromotedIff(cfg, st, run);
    NothingToPromote(cfg, st, run, |st.order|);
    PromoteStamps(cfg.warmPoolSize, p, ids, run.promote, |ids|);
    if Forward(run.promote, now) {
      forall r | r in NewlyCompleted(st)
        ensures now <= Stamp(cfg, st, run, r)
      {
        assert r in ids;
        var k: nat :| k < |ids| && ids[k] == r;
        assert run.promote(0) <= run.promote(k);
      }
    }
  }

  lemma WarmStampsKept(cfg: Config, st: ProviderState, run: CleanupRun)
    requires Inv(cfg, st)
    ensures WarmUnchanged(st, PoolAfter(cfg, st, run).resources)
  {
    PoolAfterSound(cfg, st, run);
    PromotedIff(cfg, st, run);
  }

  /** The facts about one pass that its accounting rests on. */
  ghost predicate PassBasis(cfg: Config, st: ProviderState, run: CleanupRun)
    requires PoolSizable(cfg, st)
  {
    var start, ids := StartPool(cfg, st, run), Promoted(cfg, st, run);
    && PromotionSound(cfg.warmPoolSize, start, ids, PoolAfter(cfg, st, run)) && Promotable(start.resources, ids)
    && NoDup(start.current) && Elems(start.current) == PooledIds(start.resources) == WarmIds(st)
    && Elems(ids) == NewlyCompleted(st)
  }

  lemma PassHasBasis(cfg: Config, st: ProviderState, run: CleanupRun)
    requires Inv(cfg, st)
    ensures PassBasis(cfg, st, run)
  {
    StartSound(cfg, st, run);
    PoolAfterSound(cfg, st, run);
    PromotedIff(cfg, st, run);
    WarmIsPooled(cfg, st);
    assert Elems(Promoted(cfg, st, run)) == NewlyCompleted(st);
  }

  lemma PassCounts(cfg: Config, st: ProviderState, run: CleanupRun)
    requires PoolSizable(cfg, st) && PassBasis(cfg, st, run) && |WarmIds(st)| <= cfg.warmPoolSize
    ensures Accounted(cfg.warmPoolSize, st, Kept(cfg, st, run), Dropped(cfg, st, run))
  {
    var start := StartPool(cfg, st, run);
    assert |start.current| <= cfg.warmPoolSize by {
      NoDupSize(start.current);
    }
    PromotionCounts(cfg.warmPoolSize, start, Promoted(cfg, st, run), PoolAfter(cfg, st, run));
  }

  lemma PassStamped(cfg: Config, st: ProviderState, run: CleanupRun, now: real)
    requires Inv(cfg, st) && Timely(cfg, st, run, now)
    ensures Stamped(st, now, PoolAfter(cfg, st, run).resources, Kept(cfg, st, run), Dropped(cfg, st, run))
  {
    PassOrders(cfg, st, run, now);
    PassStamps(cfg, st, run, now);
    WarmStampsKept(cfg, st, run);
  }

  lemma PassDecides(cfg: Config, st: ProviderState, run: CleanupRun, now: real)
    requires Inv(cfg, st) && Timely(cfg, st, run, now)
    ensures Decided(cfg.warmPoolSize, st, now, PoolAfter(cfg, st, run).resources, Kept(cfg, st, run),
              Dropped(cfg, st, run))
  {
    PassHasBasis(cfg, st, run);
    PassCounts(cfg, st, run);
    PassStamped(cfg, st, run, now);
  }

  /** If an expired instance outlasts the promotions, everything they dropped had expired too. */
  lemma DropsReachExpiredFirst(cfg: Config, st: ProviderState, now: real, after: map<ResourceId, Resource>,
          kept: set<ResourceId>, dropped: set<ResourceId>)
    requires Decided(cfg.warmPoolSize, st, now, after, kept, dropped) && cfg.warmPoolTtl >= 0.0
    ensures Expired(cfg, st, now) !! kept || dropped <= Expired(cfg, st, now)
  {
    if e :| e in Expired(cfg, st, now) && e in kept {
      forall d | d in dropped
        ensures d in Expired(cfg, st, now)
      {
        assert d in WarmIds(st) + NewlyCompleted(st);
        assert SinceOf(after, d) <= SinceOf(after, e);
      }
    }
  }

  /** Terminating everything reaped leaves the kept ones that had not expired. */
  lemma PoolAfterPass(cfg: Config, st: ProviderState, run: CleanupRun, now: real)
    requires Inv(cfg, st) && Timely(cfg, st, run, now) && run.terminated
    ensures WarmIds(Cleanup(cfg, st, run)) == Kept(cfg, st, run) - Expired(cfg, st, now)
  {
    var p, t := PoolAfter(cfg, st, run), Settled(cfg, st, run);
    PassOrders(cfg, st, run, now);
    PoolAfterSound(cfg, st, run);
    SettledKeeps(cfg, st, run);
    ForgetKeeps(cfg, t, Elems(p.reaped));
    WarmIsPooled(cfg, t);
    PassHasBasis(cfg, st, run);
    ReapedSplit(cfg, st, run, now);
    KeptReapedIff(cfg, st, run, now);
    assert Cleanup(cfg, st, run) == Forget(t, Elems(p.reaped));
  }

  /** The pass terminates an expired WARM resource, and no newly COMPLETED one it kept. */
  lemma ReapedSplit(cfg: Config, st: ProviderState, run: CleanupRun, now: real)
    requires Inv(cfg, st) && Timely(cfg, st, run, now)
    ensures forall r :: r in WarmIds(st) ==> (r in Reaped(cfg, st, run) <==> r in Expired(cfg, st, now))
    ensures forall r :: r in NewlyCompleted(st) ==> r !in Reaped(cfg, st, run) && r !in WarmIds(st)
  {
    ReapedWarmIff(cfg, st, run, now);
    PromotedIff(cfg, st, run);
    ReapedOnly(cfg, st, run);
  }

  /** Of the kept ones, the pass goes on to terminate exactly the expired. */
  lemma KeptReapedIff(cfg: Config, st: ProviderState, run: CleanupRun, now: real)
    requires PoolSizable(cfg, st) && PassBasis(cfg, st, run) && |WarmIds(st)| <= cfg.warmPoolSize
    requires forall r :: r in WarmIds(st) ==> (r in Reaped(cfg, st, run) <==> r in Expired(cfg, st, now))
    requires forall r :: r in NewlyCompleted(st) ==> r !in Reaped(cfg, st, run) && r !in WarmIds(st)
    ensures PooledIds(PoolAfter(cfg, st, run).resources) - Elems(PoolAfter(cfg, st, run).reaped) ==
              Kept(cfg, st, run) - Expired(cfg, st, now)
  {
    var reaped, p := Reaped(cfg, st, run), PoolAfter(cfg, st, run);
    PassCounts(cfg, st, run);
    SplitAt(p.reaped, reaped);
    KeptReapedSets(p, reaped, Evicted(p, |reaped|), Expired(cfg, st, now), WarmIds(st), NewlyCompleted(st));
  }

  lemma SplitAt(s: seq<ResourceId>, prefix: seq<ResourceId>)
    requires |prefix| <= |s| && s[..|prefix|] == prefix
    ensures s == prefix + s[|prefix|..]
  {
  }

  lemma KeptReapedSets(p: Pool, reaped: seq<ResourceId>, evicted: seq<ResourceId>, expired: set<ResourceId>,
          warm: set<ResourceId>, completed: set<ResourceId>)
    requires p.reaped == reaped + evicted
    requires PooledIds(p.resources) == Elems(p.current) + Elems(evicted) && Elems(p.current) !! Elems(evicted)
    requires PooledIds(p.resources) == warm + completed && expired <= warm
    requires forall r :: r in warm ==> (r in reaped <==> r in expired)
    requires forall r :: r in completed ==> r !in reaped && r !in warm
    ensures PooledIds(p.resources) - Elems(p.reaped) == Elems(p.current) - expired
  {
    forall r | r in p.current
      ensures r in p.reaped <==> r in expired
    {
      assert r in Elems(p.current) && r !in Elems(evicted);
      assert r in warm + completed;
    }
  }

  /**
   * One pass keeps the newest: exactly as many WARM instances as fit among the unexpired WARM and
   * the newly COMPLETED ones, and nothing dropped among those is newer than anything kept.
   */
  lemma CleanupKeepsNewest(cfg: Config, st: ProviderState, run: CleanupRun, now: real)
    requires Inv(cfg, st) && Timely(cfg, st, run, now) && run.terminated
    ensures var kept, candidates := WarmIds(Cleanup(cfg, st, run)),
              (WarmIds(st) - Expired(cfg, st, now)) + NewlyCompleted(st);
            && kept <= candidates
            && |kept| == Min(cfg.warmPoolSize, |candidates|)
            && (forall d, c :: d in candidates && d !in kept && c in kept ==>
                 Stamp(cfg, st, run, d) <= Stamp(cfg, st, run, c))
  {
    var kept, dropped, expired := Kept(cfg, st, run), Dropped(cfg, st, run), Expired(cfg, st, now);
    var after := PoolAfter(cfg, st, run).resources;
    PassDecides(cfg, st, run, now);
    PoolAfterPass(cfg, st, run, now);
    NewestOf(cfg, st, now, after, kept, dropped);
    assert forall r :: Stamp(cfg, st, run, r) == SinceOf(after, r);
  }

  lemma CandidatesAre(cfg: Config, st: ProviderState, now: real)
    ensures (WarmIds(st) - Expired(cfg, st, now)) + NewlyCompleted(st) ==
              (WarmIds(st) + NewlyCompleted(st)) - Expired(cfg, st, now)
    ensures Expired(cfg, st, now) <= WarmIds(st)
  {
  }

  lemma NewestOf(cfg: Config, st: ProviderState, now: real, after: map<ResourceId, Resource>, kept: set<ResourceId>,
          dropped: set<ResourceId>)
    requires Decided(cfg.warmPoolSize, st, now, after, kept, dropped) && cfg.warmPoolTtl >= 0.0
    ensures var left, candidates := kept - Expired(cfg, st, now),
              (WarmIds(st) - Expired(cfg, st, now)) + NewlyCompleted(st);
            && left <= candidates
            && |left| == Min(cfg.warmPoolSize, |candidates|)
            && (forall d, c :: d in candidates && d !in left && c in left ==> SinceOf(after, d) <= SinceOf(after, c))
  {
    var expired := Expired(cfg, st, now);
    CandidatesAre(cfg, st, now);
    DropsReachExpiredFirst(cfg, st, now, after, kept, dropped);
    UnexpiredFill(cfg.warmPoolSize, kept, dropped, expired);
  }

  // ---------------------------------------------------------------- when the list outgrows the pool

  /** Counted in the pool but not to be handed out: WARM resources that are unlisted or expired. */
  ghost function Idle(cfg: Config, st: ProviderState, run: CleanupRun): set<ResourceId> {
    set r | r in WarmIds(st) && (r !in st.warm || r in Reaped(cfg, st, run))
  }

  lemma EvictListed(p: Pool, unlisted: set<ResourceId>)
    requires p.current != [] && NoDup(p.current) && NoDup(p.warm) && Elems(p.warm) == Elems(p.current) - unlisted
    ensures Elems(Evict(p).warm) == Elems(Evict(p).current) - unlisted
  {
    var v := Oldest(p.resources, p.current);
    RemoveFirstNoDup(p.current, v);
    RemoveFirstNoDup(p.warm, v);
    assert Elems(Evict(p).current) == Elems(p.current) - {v};
    assert Elems(Evict(p).warm) == Elems(p.warm) - {v};
  }

  lemma AdmitListed(p: Pool, id: ResourceId, now: real, unlisted: set<ResourceId>)
    requires id in p.resources && id !in unlisted && Elems(p.warm) == Elems(p.current) - unlisted
    ensures Elems(Admit(p, id, now).warm) == Elems(Admit(p, id, now).current) - unlisted
  {
    assert Elems(Admit(p, id, now).warm) == Elems(p.warm) + {id};
    assert Elems(Admit(p, id, now).current) == Elems(p.current) + {id};
  }

  lemma PromoteOneListed(size: nat, m: Pool, base: nat, id: ResourceId, now: real, unlisted: set<ResourceId>)
    requires PoolSound(m, base) && id in m.resources && size > 0 && id !in unlisted
    requires Elems(m.warm) == Elems(m.current) - unlisted
    ensures var q := PromoteOne(size, m, id, now); Elems(q.warm) == Elems(q.current) - unlisted
  {
    if |m.current| >= size {
      EvictListed(m, unlisted);
      AdmitListed(Evict(m), id, now, unlisted);
    } else {
      AdmitListed(m, id, now, unlisted);
    }
  }

  lemma PromotionListed(size: nat, p: Pool, ids: seq<ResourceId>, promote: nat -> real, n: nat,
          unlisted: set<ResourceId>)
    requires n < |ids| && size > 0
    requires PoolSound(p, |p.reaped|) && Promotable(p.resources, ids) && ids[n] !in unlisted
    requires var q := PromoteAll(size, p, ids, promote, n); Elems(q.warm) == Elems(q.current) - unlisted
    ensures var q := PromoteAll(size, p, ids, promote, n + 1); Elems(q.warm) == Elems(q.current) - unlisted
  {
    PromoteAllSound(size, p, ids, promote, n);
    assert ids[n] in ids;
    PromoteOneListed(size, PromoteAll(size, p, ids, promote, n), |p.reaped|, ids[n], promote(n), unlisted);
  }

  /** Promotions never list what was unlisted; everything else that is counted is listed. */
  lemma {:induction false} PromotionsListed(size: nat, p: Pool, ids: seq<ResourceId>, promote: nat -> real, n: nat,
          unlisted: set<ResourceId>)
    requires n <= |ids| && (n > 0 ==> size > 0)
    requires PoolSound(p, |p.reaped|) && Promotable(p.resources, ids)
    requires Elems(p.warm) == Elems(p.current) - unlisted && forall id :: id in ids ==> id !in unlisted
    ensures var q := PromoteAll(size, p, ids, promote, n); Elems(q.warm) == Elems(q.current) - unlisted
  {
    if n > 0 {
      PromotionsListed(size, p, ids, promote, n - 1, unlisted);
      PromotionListed(size, p, ids, promote, n - 1, unlisted);
    }
  }

  lemma PassListed(cfg: Config, st: ProviderState, run: CleanupRun)
    requires Inv(cfg, st)
    ensures var p := PoolAfter(cfg, st, run); Elems(p.warm) == Elems(p.current) - (WarmIds(st) - Elems(st.warm))
  {
    var p, ids := StartPool(cfg, st, run), Promoted(cfg, st, run);
    StartSound(cfg, st, run);
    NothingToPromote(cfg, st, run, |st.order|);
    WarmIsPooled(cfg, st);
    PromotionsListed(cfg.warmPoolSize, p, ids, run.promote, |ids|, WarmIds(st) - Elems(st.warm));
  }

  /** What a pass lists: all it counts in the pool in the end, but for the idle. */
  lemma ListAfterPass(cfg: Config, st: ProviderState, run: CleanupRun)
    requires Inv(cfg, st)
    ensures Elems(Cleanup(cfg, st, run).warm) == Kept(cfg, st, run) - Idle(cfg, st, run)
  {
    var p, t := PoolAfter(cfg, st, run), Settled(cfg, st, run);
    SettledKeeps(cfg, st, run);
    PassListed(cfg, st, run);
    PoolAfterSound(cfg, st, run);
    KeptReaped(cfg, st, run);
  }

  /** Among what a pass counts in the end, it reaps only what the scan took for expired. */
  lemma KeptReaped(cfg: Config, st: ProviderState, run: CleanupRun)
    requires Inv(cfg, st)
    ensures forall x :: x in Kept(cfg, st, run) ==>
              (x in PoolAfter(cfg, st, run).reaped <==> x in WarmIds(st) && x in Reaped(cfg, st, run))
  {
    var p, reaped := PoolAfter(cfg, st, run), Reaped(cfg, st, run);
    PoolAfterSound(cfg, st, run);
    ReapedOnly(cfg, st, run);
    SplitAt(p.reaped, reaped);
    forall x | x in Kept(cfg, st, run)
      ensures x in p.reaped <==> x in WarmIds(st) && x in reaped
    {
      assert x in PooledIds(p.resources);
      assert x !in Elems(Evicted(p, |reaped|));
    }
  }

  lemma PassPopulation(cfg: Config, st: ProviderState, run: CleanupRun)
    requires Inv(cfg, st)
    ensures Kept(cfg, st, run) !! Dropped(cfg, st, run)
    ensures Kept(cfg, st, run) + Dropped(cfg, st, run) == WarmIds(st) + NewlyCompleted(st)
    ensures |Kept(cfg, st, run)| == Counted(cfg.warmPoolSize, |WarmIds(st)|, |NewlyCompleted(st)|)
    ensures |Kept(cfg, st, run)| + |Dropped(cfg, st, run)| == |WarmIds(st)| + |NewlyCompleted(st)|
  {
    PassHasBasis(cfg, st, run);
    var start, ids := StartPool(cfg, st, run), Promoted(cfg, st, run);
    NoDupSize(start.current);
    NoDupSize(ids);
    PromotionCounts(cfg.warmPoolSize, start, ids, PoolAfter(cfg, st, run));
  }

  lemma Remainder<T>(kept: set<T>, dropped: set<T>, idle: set<T>)
    requires idle <= kept + dropped && kept !! dropped
    ensures |kept - idle| == |kept| - |idle - dropped|
  {
    assert kept == (kept - idle) + (idle - dropped);
    assert (kept - idle) !! (idle - dropped);
  }

  /**
   * The length of the list after any pass, whatever fails: what the pool counts, less the idle that
   * were not evicted. The pool evicts one for one when it is full, the oldest first, and otherwise
   * only what does not fit.
   */
  lemma ListLength(cfg: Config, st: ProviderState, run: CleanupRun)
    requires Inv(cfg, st)
    ensures var n, k := |WarmIds(st)|, |NewlyCompleted(st)|;
            && |Cleanup(cfg, st, run).warm|
               == Counted(cfg.warmPoolSize, n, k) - |Idle(cfg, st, run) - Dropped(cfg, st, run)|
            && |Dropped(cfg, st, run)| == n + k - Counted(cfg.warmPoolSize, n, k)
  {
    PassPopulation(cfg, st, run);
    ListAfterPass(cfg, st, run);
    CleanupKeeps(cfg, st, run);
    NoDupSize(Cleanup(cfg, st, run).warm);
    Remainder(Kept(cfg, st, run), Dropped(cfg, st, run), Idle(cfg, st, run));
  }

  /** On any clock, in terms of what the pass evicts: more were WARM than fit, by more than the idle it keeps. */
  lemma OverfillsByEvictions(cfg: Config, st: ProviderState, run: CleanupRun)
    requires Inv(cfg, st)
    ensures |Cleanup(cfg, st, run).warm| > cfg.warmPoolSize <==>
            |WarmIds(st)| > cfg.warmPoolSize + |Idle(cfg, st, run) - Dropped(cfg, st, run)|
  {
    ListLength(cfg, st, run);
  }

  // ---------------------------------------------------------------- which ones a full pool evicts

  /** `s` once its `n` oldest are taken out, one after the other. */
  function WithoutOldest(resources: map<ResourceId, Resource>, s: seq<ResourceId>, n: nat): (r: seq<ResourceId>)
    ensures Elems(r) <= Elems(s)
  {
    if n == 0 then s
    else
      var t := WithoutOldest(resources, s, n - 1);
      if t == [] then [] else RemoveFirst(t, Oldest(resources, t))
  }

  /** As many are left as should be, and nothing taken out is newer than anything left. */
  lemma {:induction false} WithoutOldestKeepsNewest(resources: map<ResourceId, Resource>, s: seq<ResourceId>, n: nat)
    requires NoDup(s)
    ensures var r := WithoutOldest(resources, s, n);
            && NoDup(r) && |r| == (if n <= |s| then |s| - n else 0)
            && (forall x, y :: x in s && x !in r && y in r ==> SinceOf(resources, x) <= SinceOf(resources, y))
  {
    if n > 0 {
      WithoutOldestKeepsNewest(resources, s, n - 1);
      var t := WithoutOldest(resources, s, n - 1);
      if t != [] {
        RemoveFirstNoDup(t, Oldest(resources, t));
      }
    }
  }

  lemma {:induction false} OldestOfSame(before: map<ResourceId, Resource>, after: map<ResourceId, Resource>,
          s: seq<ResourceId>)
    requires s != [] && forall x :: x in s ==> SinceOf(after, x) == SinceOf(before, x)
    ensures Oldest(after, s) == Oldest(before, s)
  {
    if |s| > 1 {
      OldestOfSame(before, after, s[1..]);
    }
  }

  /** The first of the least is in the first part when nothing behind it is older. */
  lemma {:induction false} OldestInFront(resources: map<ResourceId, Resource>, s: seq<ResourceId>, t: seq<ResourceId>)
    requires s != [] && forall x, y :: x in s && y in t ==> SinceOf(resources, x) <= SinceOf(resources, y)
    ensures Oldest(resources, s + t) == Oldest(resources, s)
  {
    assert |s| > 1 || t != [] ==> (s + t)[1..] == s[1..] + t;
    if |s| > 1 {
      OldestInFront(resources, s[1..], t);
    } else if t == [] {
      assert s + t == s;
    } else {
      assert s[1..] + t == t;
    }
  }

  lemma {:induction false} RemoveInFront(s: seq<ResourceId>, t: seq<ResourceId>, x: ResourceId)
    requires x in s
    ensures RemoveFirst(s + t, x) == RemoveFirst(s, x) + t
  {
    assert (s + t)[1..] == s[1..] + t;
    if s[0] != x {
      RemoveInFront(s[1..], t, x);
    }
  }

  /** The stamps of `s` are as they were, and nothing in `tail` is older. */
  ghost predicate Behind(before: map<ResourceId, Resource>, now: map<ResourceId, Resource>, s: seq<ResourceId>,
          tail: seq<ResourceId>) {
    && (forall x :: x in s ==> SinceOf(now, x) == SinceOf(before, x))
    && (forall x, y :: x in s && y in tail ==> SinceOf(now, x) <= SinceOf(now, y))
  }

  /** Evicting from a full pool whose promoted resources stand behind, none of them older. */
  lemma EvictFront(resources: map<ResourceId, Resource>, now: map<ResourceId, Resource>, s: seq<ResourceId>,
          tail: seq<ResourceId>)
    requires s != [] && Behind(resources, now, s, tail)
    ensures RemoveFirst(s + tail, Oldest(now, s + tail)) == RemoveFirst(s, Oldest(resources, s)) + tail
  {
    OldestInFront(now, s, tail);
    OldestOfSame(resources, now, s);
    RemoveInFront(s, tail, Oldest(resources, s));
  }

  lemma BehindFewer(resources: map<ResourceId, Resource>, now: map<ResourceId, Resource>, s: seq<ResourceId>,
          few: seq<ResourceId>, tail: seq<ResourceId>)
    requires Behind(resources, now, s, tail) && Elems(few) <= Elems(s)
    ensures Behind(resources, now, few, tail)
  {
    assert forall x :: x in few ==> x in Elems(few) && x in Elems(s);
  }

  lemma EvictInFront(resources: map<ResourceId, Resource>, now: map<ResourceId, Resource>, s: seq<ResourceId>,
          n: nat, tail: seq<ResourceId>) returns (rest: seq<ResourceId>)
    requires Behind(resources, now, s, tail)
    requires WithoutOldest(resources, s, n) + tail != []
    ensures var t := WithoutOldest(resources, s, n) + tail;
            RemoveFirst(t, Oldest(now, t)) == WithoutOldest(resources, s, n + 1) + rest
    ensures Elems(rest) <= Elems(tail)
  {
    var r := WithoutOldest(resources, s, n);
    if r == [] {
      assert r + tail == tail;
      rest := RemoveFirst(tail, Oldest(now, tail));
    } else {
      BehindFewer(resources, now, s, r, tail);
      EvictFront(resources, now, r, tail);
      rest := tail;
    }
  }

  lemma TakesOneMore(resources: map<ResourceId, Resource>, s: seq<ResourceId>, n: nat, before: seq<ResourceId>,
          size: nat, m: Pool, id: ResourceId, now: real) returns (tail: seq<ResourceId>)
    requires m.current == WithoutOldest(resources, s, n) + before && 0 < size <= |m.current| && id in m.resources
    requires Behind(resources, m.resources, s, before)
    ensures PromoteOne(size, m, id, now).current == WithoutOldest(resources, s, n + 1) + tail
    ensures Elems(tail) <= Elems(before) + {id}
  {
    var rest := EvictInFront(resources, m.resources, s, n, before);
    tail := rest + [id];
    assert (WithoutOldest(resources, s, n + 1) + rest) + [id] == WithoutOldest(resources, s, n + 1) + tail;
  }

  /** Promotions into a full pool take out the oldest of those that were there before. */
  lemma {:induction false} PromotionsTakeOldest(size: nat, p: Pool, ids: seq<ResourceId>, promote: nat -> real,
          from: real, n: nat) returns (tail: seq<ResourceId>)
    requires n <= |ids| && 0 < size <= |p.current|
    requires PoolSound(p, |p.reaped|) && Promotable(p.resources, ids)
    requires OldestFirst(p, |p.reaped|, from) && Forward(promote, from)
    ensures PromoteAll(size, p, ids, promote, n).current == WithoutOldest(p.resources, p.current, n) + tail
    ensures Elems(tail) <= Elems(ids[..n])
  {
    if n == 0 {
      tail := [];
    } else {
      var before := PromotionsTakeOldest(size, p, ids, promote, from, n - 1);
      tail := PromotionTakesOldest(size, p, ids, promote, from, n - 1, before);
    }
  }

  lemma PromotionTakesOldest(size: nat, p: Pool, ids: seq<ResourceId>, promote: nat -> real, from: real, n: nat,
          before: seq<ResourceId>) returns (tail: seq<ResourceId>)
    requires n < |ids| && 0 < size <= |p.current|
    requires PoolSound(p, |p.reaped|) && Promotable(p.resources, ids)
    requires OldestFirst(p, |p.reaped|, from) && Forward(promote, from)
    requires PromoteAll(size, p, ids, promote, n).current == WithoutOldest(p.resources, p.current, n) + before
    requires Elems(before) <= Elems(ids[..n])
    ensures PromoteAll(size, p, ids, promote, n + 1).current == WithoutOldest(p.resources, p.current, n + 1) + tail
    ensures Elems(tail) <= Elems(ids[..n + 1])
  {
    StampsBehind(size, p, ids, promote, from, n, before);
    StaysFull(size, p, ids, promote, n);
    tail := TakesOneMore(p.resources, p.current, n, before, size, PromoteAll(size, p, ids, promote, n), ids[n],
      promote(n));
    OneMore(ids, n);
  }

  lemma OneMore(ids: seq<ResourceId>, n: nat)
    requires n < |ids|
    ensures Elems(ids[..n + 1]) == Elems(ids[..n]) + {ids[n]}
  {
    assert ids[..n + 1] == ids[..n] + [ids[n]];
  }

  lemma StaysFull(size: nat, p: Pool, ids: seq<ResourceId>, promote: nat -> real, n: nat)
    requires n < |ids| && 0 < size <= |p.current|
    requires PoolSound(p, |p.reaped|) && Promotable(p.resources, ids)
    ensures size <= |PromoteAll(size, p, ids, promote, n).current|
    ensures ids[n] in ids && ids[n] in PromoteAll(size, p, ids, promote, n).resources
  {
    PromoteAllSound(size, p, ids, promote, n);
  }

  /** What was promoted so far is no older than what was in the pool, whose stamps are as they were. */
  lemma StampsBehind(size: nat, p: Pool, ids: seq<ResourceId>, promote: nat -> real, from: real, n: nat,
          tail: seq<ResourceId>)
    requires n <= |ids| && size > 0
    requires PoolSound(p, |p.reaped|) && Promotable(p.resources, ids)
    requires OldestFirst(p, |p.reaped|, from) && Forward(promote, from) && Elems(tail) <= Elems(ids[..n])
    ensures Behind(p.resources, PromoteAll(size, p, ids, promote, n).resources, p.current, tail)
  {
    var now := PromoteAll(size, p, ids, promote, n).resources;
    PromoteAllSound(size, p, ids, promote, n);
    PromoteStamps(size, p, ids, promote, n);
    forall x | x in p.current
      ensures SinceOf(now, x) == SinceOf(p.resources, x) && SinceOf(p.resources, x) <= from
    {
      assert x in PooledIds(p.resources);
      assert x !in ids[..n];
    }
    forall y | y in tail
      ensures from <= SinceOf(now, y)
    {
      assert y in Elems(tail);
      var k :| 0 <= k < n && ids[k] == y;
      assert promote(0) <= promote(k);
    }
  }

  lemma AllTakeOldest(size: nat, p: Pool, ids: seq<ResourceId>, promote: nat -> real, from: real)
      returns (tail: seq<ResourceId>)
    requires 0 < size <= |p.current|
    requires PoolSound(p, |p.reaped|) && Promotable(p.resources, ids)
    requires OldestFirst(p, |p.reaped|, from) && Forward(promote, from)
    ensures PromoteAll(size, p, ids, promote, |ids|).current == WithoutOldest(p.resources, p.current, |ids|) + tail
    ensures Elems(tail) <= Elems(ids)
  {
    tail := PromotionsTakeOldest(size, p, ids, promote, from, |ids|);
    assert ids[..|ids|] == ids;
  }

  lemma StartOldestFirst(cfg: Config, st: ProviderState, run: CleanupRun, now: real)
    requires Inv(cfg, st) && forall r :: r in WarmIds(st) ==> st.resources[r].warmSince <= now
    ensures var p := StartPool(cfg, st, run); OldestFirst(p, |p.reaped|, now)
  {
    var p := StartPool(cfg, st, run);
    assert Evicted(p, |p.reaped|) == [];
    WarmIsPooled(cfg, st);
  }

  lemma PassTakesOldest(cfg: Config, st: ProviderState, run: CleanupRun, now: real)
      returns (tail: seq<ResourceId>)
    requires Inv(cfg, st) && |WarmIds(st)| >= cfg.warmPoolSize > 0
    requires Forward(run.promote, now) && forall r :: r in WarmIds(st) ==> st.resources[r].warmSince <= now
    ensures PoolAfter(cfg, st, run).current ==
              WithoutOldest(st.resources, WarmNow(st.resources, st.order), |Promoted(cfg, st, run)|) + tail
    ensures Elems(tail) <= Elems(Promoted(cfg, st, run))
  {
    var p, ids := StartPool(cfg, st, run), Promoted(cfg, st, run);
    StartSound(cfg, st, run);
    StartOldestFirst(cfg, st, run, now);
    tail := AllTakeOldest(cfg.warmPoolSize, p, ids, run.promote, now);
  }

  lemma PromotedAreCompleted(cfg: Config, st: ProviderState, run: CleanupRun)
    requires Ordered(st)
    ensures Elems(Promoted(cfg, st, run)) == NewlyCompleted(st)
    ensures |Promoted(cfg, st, run)| == |NewlyCompleted(st)| && NewlyCompleted(st) !! WarmIds(st)
  {
    PromotedIff(cfg, st, run);
    NoDupSize(Promoted(cfg, st, run));
  }

  lemma LeftOf(current: seq<ResourceId>, left: seq<ResourceId>, tail: seq<ResourceId>, warm: set<ResourceId>,
          promoted: set<ResourceId>)
    requires current == left + tail && Elems(left) <= warm && Elems(tail) <= promoted && promoted !! warm
    ensures warm * Elems(current) == Elems(left)
  {
  }

  lemma WarmNowIsWarm(cfg: Config, st: ProviderState)
    requires Inv(cfg, st)
    ensures Elems(WarmNow(st.resources, st.order)) == WarmIds(st)
  {
  }

  /** Of the WARM resources, a pass over a full pool keeps all but the oldest, one for each promotion. */
  lemma KeepsNewestWarm(cfg: Config, st: ProviderState, run: CleanupRun, now: real)
    requires Inv(cfg, st) && |WarmIds(st)| >= cfg.warmPoolSize > 0
    requires Forward(run.promote, now) && forall r :: r in WarmIds(st) ==> st.resources[r].warmSince <= now
    ensures WarmIds(st) * Kept(cfg, st, run) ==
              Elems(WithoutOldest(st.resources, WarmNow(st.resources, st.order), |NewlyCompleted(st)|))
  {
    var tail := PassTakesOldest(cfg, st, run, now);
    PromotedAreCompleted(cfg, st, run);
    WarmNowIsWarm(cfg, st);
    LeftOf(PoolAfter(cfg, st, run).current,
      WithoutOldest(st.resources, WarmNow(st.resources, st.order), |Promoted(cfg, st, run)|), tail,
      WarmIds(st), NewlyCompleted(st));
  }

  /** A pool of size 0 has no members. */
  lemma EmptyPool(cfg: Config, st: ProviderState)
    requires Flagged(cfg, st) && cfg.warmPoolSize == 0
    ensures WarmIds(st) == {}
  {
  }

  lemma IdleKept<T>(idle: set<T>, warm: set<T>, kept: set<T>, dropped: set<T>, left: set<T>)
    requires idle <= warm <= kept + dropped && kept !! dropped && warm * kept == left
    ensures idle - dropped == idle * left
  {
  }

  /**
   * When the clock does not step back, a pass lists more than the pool holds if and only if more
   * resources were WARM before it than fit, by more than the idle ones among those that are left
   * once the oldest are taken out, one for each newly COMPLETED resource. So it takes an earlier
   * termination that raised: with at most as many WARM as fit, no pass overfills the list.
   */
  lemma OverfillsIff(cfg: Config, st: ProviderState, run: CleanupRun, now: real)
    requires Inv(cfg, st)
    requires Forward(run.promote, now) && forall r :: r in WarmIds(st) ==> st.resources[r].warmSince <= now
    ensures var left := WithoutOldest(st.resources, WarmNow(st.resources, st.order), |NewlyCompleted(st)|);
            |Cleanup(cfg, st, run).warm| > cfg.warmPoolSize <==>
            |WarmIds(st)| > cfg.warmPoolSize + |Idle(cfg, st, run) * Elems(left)|
  {
    OverfillsByEvictions(cfg, st, run);
    if cfg.warmPoolSize == 0 {
      EmptyPool(cfg, st);
    } else if |WarmIds(st)| > cfg.warmPoolSize {
      KeepsNewestWarm(cfg, st, run, now);
      PassPopulation(cfg, st, run);
      IdleKept(Idle(cfg, st, run), WarmIds(st), Kept(cfg, st, run), Dropped(cfg, st, run),
        WarmIds(st) * Kept(cfg, st, run));
    }
  }
}
