/**
 * The loops of the bastion program (parsl_ephemeral_provider/modes/detached.py) as they run on the
 * parameters of one moment, proved to make exactly the protocol's steps when nobody interferes.
 */
module BastionLoop {
  import opened Collections
  import opened DetachedProtocol

  /** The listed jobs without a document, or with a PENDING or SUBMITTING one, in listing order. */
  function PendingOf(docs: map<JobId, StatusDoc>, listing: seq<JobId>): (r: seq<JobId>)
    ensures forall j :: j in r <==> j in listing && PendingIn(docs, j)
  {
    if listing == [] then []
    else (if PendingIn(docs, listing[0]) then [listing[0]] else []) + PendingOf(docs, listing[1..])
  }

  lemma {:induction false} PendingSnoc(docs: map<JobId, StatusDoc>, a: seq<JobId>, j: JobId)
    ensures PendingOf(docs, a + [j]) == PendingOf(docs, a) + (if PendingIn(docs, j) then [j] else [])
  {
    if a == [] {
      assert [j][1..] == [];
    } else {
      assert (a + [j])[1..] == a[1..] + [j];
      PendingSnoc(docs, a[1..], j);
    }
  }

  /** `jobs` are the pending ones among the first `n` listed, found at the positions `at`, in listing order. */
  ghost predicate Picks(docs: map<JobId, StatusDoc>, listing: seq<JobId>, jobs: seq<JobId>, at: seq<nat>, n: nat)
    requires n <= |listing|
  {
    && |at| == |jobs| && Increasing(at)
    && (forall k :: 0 <= k < |at| ==> at[k] < n && jobs[k] == listing[at[k]])
    && (forall m: nat :: m < n ==>
         (m in at <==> listing[m] !in docs || docs[listing[m]].status.Pending? || docs[listing[m]].status.Submitting?))
  }

  lemma PicksOneMore(docs: map<JobId, StatusDoc>, listing: seq<JobId>, jobs: seq<JobId>, at: seq<nat>, n: nat)
    requires n < |listing| && Picks(docs, listing, jobs, at, n)
    ensures PendingIn(docs, listing[n]) ==> Picks(docs, listing, jobs + [listing[n]], at + [n], n + 1)
    ensures !PendingIn(docs, listing[n]) ==> Picks(docs, listing, jobs, at, n + 1)
  {
    IncreasingSnoc(at, n);
    assert forall m: nat :: m in at + [n] <==> m in at || m == n;
    assert n !in at;
  }

  lemma {:induction false} PendingPicked(docs: map<JobId, StatusDoc>, listing: seq<JobId>, n: nat)
      returns (at: seq<nat>)
    requires n <= |listing|
    ensures Picks(docs, listing, PendingOf(docs, listing[..n]), at, n)
  {
    if n == 0 {
      at := [];
    } else {
      var earlier := PendingPicked(docs, listing, n - 1);
      at := PickNext(docs, listing, earlier, n - 1);
    }
  }

  lemma PickNext(docs: map<JobId, StatusDoc>, listing: seq<JobId>, earlier: seq<nat>, n: nat) returns (at: seq<nat>)
    requires n < |listing| && Picks(docs, listing, PendingOf(docs, listing[..n]), earlier, n)
    ensures Picks(docs, listing, PendingOf(docs, listing[..n + 1]), at, n + 1)
  {
    PicksOneMore(docs, listing, PendingOf(docs, listing[..n]), earlier, n);
    PendingMore(docs, listing, n);
    at := if PendingIn(docs, listing[n]) then earlier + [n] else earlier;
  }

  lemma PendingMore(docs: map<JobId, StatusDoc>, listing: seq<JobId>, n: nat)
    requires n < |listing|
    ensures PendingOf(docs, listing[..n + 1]) ==
              if PendingIn(docs, listing[n]) then PendingOf(docs, listing[..n]) + [listing[n]]
              else PendingOf(docs, listing[..n])
  {
    assert listing[..n + 1] == listing[..n] + [listing[n]];
    PendingSnoc(docs, listing[..n], listing[n]);
  }

  /** `get_pending_jobs`: any error while reading makes the whole scan come back empty. */
  method GetPendingJobs(store: ParameterStore, listing: seq<JobId>, readOk: nat -> bool)
      returns (pending: seq<JobId>, ghost at: seq<nat>)
    ensures (forall k: nat :: k < |listing| ==> readOk(k)) ==> Picks(store.docs, listing, pending, at, |listing|)
    ensures pending == if (forall k: nat :: k < |listing| ==> readOk(k)) then PendingOf(store.docs, listing) else []
  {
    at := PendingPicked(store.docs, listing, |listing|);
    pending := [];
    for k := 0 to |listing|
      invariant forall m: nat :: m < k ==> readOk(m)
      invariant pending == PendingOf(store.docs, listing[..k])
    {
      if !readOk(k) {
        pending := [];
        return;
      }
      PendingSnoc(store.docs, listing[..k], listing[k]);
      assert listing[..k + 1] == listing[..k] + [listing[k]];
      var job := listing[k];
      if job in store.docs {
        if store.docs[job].status.Pending? || store.docs[job].status.Submitting? {
          pending := pending + [job];
        }
      } else {
        pending := pending + [job];
      }
    }
    assert listing[..|listing|] == listing;
  }

  ghost function CheckAll(n: nat): seq<Step> {
    if n == 0 then [] else [ScanCheck] + CheckAll(n - 1)
  }

  lemma PendingUnfold(docs: map<JobId, StatusDoc>, page: seq<JobId>, found: seq<JobId>)
    requires page != []
    ensures (found + (if PendingIn(docs, page[0]) then [page[0]] else [])) + PendingOf(docs, page[1..]) ==
            found + PendingOf(docs, page)
  {
    var head, rest := if PendingIn(docs, page[0]) then [page[0]] else [], PendingOf(docs, page[1..]);
    assert PendingOf(docs, page) == head + rest;
    Associates(found, head, rest);
  }

  lemma OneCheck(s: State, seen: set<JobId>, page: seq<JobId>, found: seq<JobId>) returns (t: State)
    requires s.pc == Scanning(seen, page, found) && page != []
    ensures t == s.(pc := Scanning(seen, page[1..], found + (if PendingIn(s.docs, page[0]) then [page[0]] else [])))
    ensures Legal(s, [ScanCheck]) && After(s, [ScanCheck]) == t
  {
    t := Next(s, ScanCheck);
    OneStep(s, ScanCheck);
    assert found + [] == found;
  }

  lemma {:induction false} ChecksDecide(s: State, seen: set<JobId>, page: seq<JobId>, found: seq<JobId>)
    requires s.pc == Scanning(seen, page, found)
    ensures Legal(s, CheckAll(|page|)) &&
              After(s, CheckAll(|page|)) == s.(pc := Scanning(seen, [], found + PendingOf(s.docs, page)))
    decreases |page|
  {
    if page == [] {
      assert found + [] == found;
    } else {
      var t := OneCheck(s, seen, page, found);
      ChecksDecide(t, seen, page[1..], t.pc.found);
      PendingUnfold(s.docs, page, found);
      AfterBoth(s, [ScanCheck], CheckAll(|page| - 1));
    }
  }

  lemma OnePage(s: State, listing: seq<JobId>) returns (t: State)
    requires s.pc == Scanning({}, [], []) && NoDup(listing) && forall j :: j in listing ==> j in s.jobs
    ensures t == s.(pc := Scanning({} + Elems(listing), listing, []))
    ensures Legal(s, [ScanPage(listing)]) && After(s, [ScanPage(listing)]) == t
  {
    t := Next(s, ScanPage(listing));
    assert [] + listing == listing;
    OneStep(s, ScanPage(listing));
  }

  lemma PageAndChecks(s: State, listing: seq<JobId>) returns (u: State)
    requires s.pc == Scanning({}, [], []) && NoDup(listing) && forall j :: j in listing ==> j in s.jobs
    ensures Legal(s, [ScanPage(listing)] + CheckAll(|listing|)) &&
              After(s, [ScanPage(listing)] + CheckAll(|listing|)) == u
    ensures u == s.(pc := Scanning({} + Elems(listing), [], PendingOf(s.docs, listing)))
  {
    var t := OnePage(s, listing);
    ChecksDecide(t, t.pc.seen, listing, []);
    AfterBoth(s, [ScanPage(listing)], CheckAll(|listing|));
    assert [] + PendingOf(s.docs, listing) == PendingOf(s.docs, listing);
    u := s.(pc := Scanning({} + Elems(listing), [], PendingOf(s.docs, listing)));
  }

  /** An undisturbed scan of a whole listing hands the bastion what `get_pending_jobs` returns. */
  lemma ScanIsGetPendingJobs(s: State, listing: seq<JobId>)
    requires s.pc == Scanning({}, [], []) && NoDup(listing) && forall j :: j in listing ==> j in s.jobs
    ensures Legal(s, [ScanPage(listing)] + CheckAll(|listing|) + [ScanDone])
    ensures After(s, [ScanPage(listing)] + CheckAll(|listing|) + [ScanDone]) ==
              s.(pc := ToMark(PendingOf(s.docs, listing)))
  {
    var u := PageAndChecks(s, listing);
    OneStep(u, ScanDone);
    AfterBoth(s, [ScanPage(listing)] + CheckAll(|listing|), [ScanDone]);
  }

  // ---------------------------------------------------------------- update_running_job_status

  function Apply(docs: map<JobId, StatusDoc>, writes: seq<Write>, putOk: Write -> bool): map<JobId, StatusDoc>
    decreases |writes|
  {
    if writes == [] then docs
    else Apply(Put(docs, writes[0].job, writes[0].doc, !putOk(writes[0])), writes[1..], putOk)
  }

  lemma {:induction false} ApplyBoth(docs: map<JobId, StatusDoc>, a: seq<Write>, b: seq<Write>, putOk: Write -> bool)
    ensures Apply(docs, a + b, putOk) == Apply(Apply(docs, a, putOk), b, putOk)
    decreases |a|
  {
    if a == [] {
      assert a + b == b;
    } else {
      assert (a + b)[0] == a[0] && (a + b)[1..] == a[1..] + b;
      ApplyBoth(Put(docs, a[0].job, a[0].doc, !putOk(a[0])), a[1..], b, putOk);
    }
  }

  lemma {:induction false} QueueSnoc(a: seq<Write>, w: Write, fs: FleetStatuses, ins: InstanceStatuses)
    ensures UpdateQueue(a + [w], fs, ins) == UpdateQueue(a, fs, ins) + UpdateWrites(w, fs, ins)
  {
    if a == [] {
      assert [w][1..] == [];
    } else {
      assert (a + [w])[1..] == a[1..] + [w];
      QueueSnoc(a[1..], w, fs, ins);
    }
  }

  /** Each job that was read RUNNING once, with the document it still has. */
  ghost predicate ReadAsIs(docs: map<JobId, StatusDoc>, running: seq<Write>) {
    && (forall a, b :: 0 <= a < b < |running| ==> running[a].job != running[b].job)
    && (forall w :: w in running ==> w.job in docs && docs[w.job] == w.doc)
  }

  /**
   * What EC2's answers make of one document. An active fleet speaks for its job whatever its primary
   * instance reads; otherwise an instance that is not RUNNING decides, and without one a fleet that is
   * not; with neither nothing changes. Only the status ever does.
   */
  ghost predicate Updated(before: StatusDoc, after: StatusDoc, fs: FleetStatuses, ins: InstanceStatuses) {
    && after.fleet == before.fleet && after.instance == before.instance && after.all == before.all
    && (if before.fleet.Some? && before.fleet.value in fs && fs[before.fleet.value] == Running
        then after.status == before.status
        else if before.instance.Some? && before.instance.value in ins && ins[before.instance.value] != Running
        then after.status == ins[before.instance.value]
        else if before.fleet.Some? && before.fleet.value in fs
        then after.status == fs[before.fleet.value]
        else after.status == before.status)
  }

  /** The documents after the answers: those read are updated, the others are as they were. */
  ghost predicate AllUpdated(before: map<JobId, StatusDoc>, after: map<JobId, StatusDoc>, running: seq<Write>,
          fs: FleetStatuses, ins: InstanceStatuses) {
    && after.Keys == before.Keys
    && (forall w :: w in running && w.job in after ==> Updated(w.doc, after[w.job], fs, ins))
    && (forall j :: j in before && (forall w :: w in running ==> w.job != j) ==> after[j] == before[j])
  }

  /** Of several writes for one job the last is what stays. */
  lemma {:induction false} LastWins(docs: map<JobId, StatusDoc>, writes: seq<Write>, j: JobId, putOk: Write -> bool)
    requires j in docs && (forall v :: putOk(v)) && forall v :: v in writes ==> v.job == j
    ensures var t := Apply(docs, writes, putOk);
            && t.Keys == docs.Keys && (forall i :: i in docs && i != j ==> t[i] == docs[i])
            && t[j] == if writes == [] then docs[j] else writes[|writes| - 1].doc
    decreases |writes|
  {
    if writes != [] {
      assert writes[0] in writes;
      LastWins(Put(docs, writes[0].job, writes[0].doc, !putOk(writes[0])), writes[1..], j, putOk);
    }
  }

  lemma JobUpdated(docs: map<JobId, StatusDoc>, w: Write, fs: FleetStatuses, ins: InstanceStatuses,
          putOk: Write -> bool)
    requires w.job in docs && docs[w.job] == w.doc && forall v :: putOk(v)
    ensures var t := Apply(docs, UpdateWrites(w, fs, ins), putOk);
            && t.Keys == docs.Keys && Updated(w.doc, t[w.job], fs, ins)
            && (forall j :: j in docs && j != w.job ==> t[j] == docs[j])
  {
    LastWins(docs, UpdateWrites(w, fs, ins), w.job, putOk);
  }

  lemma {:induction false} QueueUpdates(docs: map<JobId, StatusDoc>, running: seq<Write>, fs: FleetStatuses,
          ins: InstanceStatuses, putOk: Write -> bool)
    requires ReadAsIs(docs, running) && forall v :: putOk(v)
    ensures AllUpdated(docs, Apply(docs, UpdateQueue(running, fs, ins), putOk), running, fs, ins)
    decreases |running|
  {
    if running != [] {
      var w, rest := running[0], running[1..];
      assert w in running && forall v :: v in rest ==> v in running && v.job != w.job;
      var t := Apply(docs, UpdateWrites(w, fs, ins), putOk);
      JobUpdated(docs, w, fs, ins, putOk);
      QueueUpdates(t, rest, fs, ins, putOk);
      ApplyBoth(docs, UpdateWrites(w, fs, ins), UpdateQueue(rest, fs, ins), putOk);
      UpdatesFirst(docs, t, Apply(docs, UpdateQueue(running, fs, ins), putOk), running, fs, ins);
    }
  }

  lemma UpdatesFirst(docs: map<JobId, StatusDoc>, t: map<JobId, StatusDoc>, u: map<JobId, StatusDoc>,
          running: seq<Write>, fs: FleetStatuses, ins: InstanceStatuses)
    requires running != [] && running[0].job in docs && t.Keys == docs.Keys
    requires Updated(running[0].doc, t[running[0].job], fs, ins)
    requires forall j :: j in docs && j != running[0].job ==> t[j] == docs[j]
    requires forall v :: v in running[1..] ==> v.job != running[0].job
    requires AllUpdated(t, u, running[1..], fs, ins)
    ensures AllUpdated(docs, u, running, fs, ins)
  {
    assert u[running[0].job] == t[running[0].job];
    forall w | w in running && w.job in u
      ensures Updated(w.doc, u[w.job], fs, ins)
    {
      assert w == running[0] || w in running[1..];
    }
    forall j | j in docs && (forall w :: w in running ==> w.job != j)
      ensures u[j] == docs[j]
    {
      assert running[0] in running && forall w :: w in running[1..] ==> w in running;
    }
  }

  /** The update loop: a fleet job may be written twice, by its fleet and by its primary instance. */
  method UpdateRunningJobs(store: ParameterStore, running: seq<Write>, fs: FleetStatuses, ins: InstanceStatuses,
          putOk: Write -> bool)
    modifies store`docs
    ensures store.docs == Apply(old(store.docs), UpdateQueue(running, fs, ins), putOk)
    ensures ReadAsIs(old(store.docs), running) && (forall w :: putOk(w)) ==>
              AllUpdated(old(store.docs), store.docs, running, fs, ins)
  {
    for k := 0 to |running|
      invariant store.docs == Apply(old(store.docs), UpdateQueue(running[..k], fs, ins), putOk)
    {
      assert running[..k + 1] == running[..k] + [running[k]];
      QueueSnoc(running[..k], running[k], fs, ins);
      ApplyBoth(old(store.docs), UpdateQueue(running[..k], fs, ins), UpdateWrites(running[k], fs, ins), putOk);
      UpdateOneJob(store, running[k], fs, ins, putOk);
    }
    assert running[..|running|] == running;
    if ReadAsIs(old(store.docs), running) && (forall w :: putOk(w)) {
      QueueUpdates(old(store.docs), running, fs, ins, putOk);
    }
  }

  method PutStatus(store: ParameterStore, write: Write, putOk: Write -> bool)
    modifies store`docs
    ensures store.docs == Apply(old(store.docs), [write], putOk)
  {
    assert [write][1..] == [];
    if putOk(write) {
      store.docs := store.docs[write.job := write.doc];
    }
  }

  method UpdateOneJob(store: ParameterStore, w: Write, fs: FleetStatuses, ins: InstanceStatuses, putOk: Write -> bool)
    modifies store`docs
    ensures store.docs == Apply(old(store.docs), UpdateWrites(w, fs, ins), putOk)
  {
    var doc := w.doc;
    if doc.fleet.Some? {
      var f := doc.fleet.value;
      ghost var first: seq<Write> := [];
      if f in fs {
        if fs[f] != Running {
          first := [Write(w.job, doc.(status := fs[f]))];
          PutStatus(store, Write(w.job, doc.(status := fs[f])), putOk);
        }
      }
      assert store.docs == Apply(old(store.docs), first, putOk);
      if doc.instance.Some? && doc.instance.value in ins {
        var status := ins[doc.instance.value];
        // The fleet may have replaced an instance that is gone.
        if status != Running && !(f in fs && fs[f] == Running) {
          ApplyBoth(old(store.docs), first, [Write(w.job, doc.(status := status))], putOk);
          PutStatus(store, Write(w.job, doc.(status := status)), putOk);
        } else {
          assert first + [] == first;
        }
      } else {
        assert first + [] == first;
      }
    } else if doc.instance.Some? && doc.instance.value in ins {
      var status := ins[doc.instance.value];
      if status != Running {
        PutStatus(store, Write(w.job, doc.(status := status)), putOk);
      }
    }
  }

  ghost function UpdateAll(writes: seq<Write>, putOk: Write -> bool): seq<Step> {
    if writes == [] then [] else [Update(!putOk(writes[0]))] + UpdateAll(writes[1..], putOk)
  }

  /** Undisturbed, the protocol's update steps leave the documents the loop leaves. */
  lemma {:induction false} UpdatesAreTheLoop(s: State, writes: seq<Write>, putOk: Write -> bool)
    requires s.pc == Updating(writes)
    ensures Legal(s, UpdateAll(writes, putOk)) &&
              After(s, UpdateAll(writes, putOk)) == s.(docs := Apply(s.docs, writes, putOk), pc := Updating([]))
    decreases |writes|
  {
    if writes != [] {
      var step := Update(!putOk(writes[0]));
      UpdatesAreTheLoop(Next(s, step), writes[1..], putOk);
      OneStep(s, step);
      AfterBoth(s, [step], UpdateAll(writes[1..], putOk));
    }
  }

  /** In the protocol: once EC2 has answered, undisturbed updates leave the documents so updated. */
  lemma AnswersUpdate(s: State, fs: FleetStatuses, ins: InstanceStatuses, putOk: Write -> bool)
    requires s.pc.Polling? && Ec2Says(fs, ins) && ReadAsIs(s.docs, s.pc.running) && forall w :: putOk(w)
    ensures var u := Next(s, PollAnswers(fs, ins));
            && u.pc.Updating? && Legal(u, UpdateAll(u.pc.writes, putOk))
            && AllUpdated(s.docs, After(u, UpdateAll(u.pc.writes, putOk)).docs, s.pc.running, fs, ins)
  {
    var u := Next(s, PollAnswers(fs, ins));
    UpdatesAreTheLoop(u, u.pc.writes, putOk);
    QueueUpdates(s.docs, s.pc.running, fs, ins, putOk);
  }
}
