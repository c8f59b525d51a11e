/**
 * The converse of the separation of launches: once a job that is still listed has been reset, the
 * bastion alone can launch it again.
 */
module Relaunch {
  import opened Collections
  import opened DetachedProtocol
  import opened BastionLoop
  import opened CancelRequests

  /** A listing of all jobs that starts with `j`. */
  lemma ListingFrom(jobs: set<JobId>, j: JobId) returns (listing: seq<JobId>)
    requires j in jobs
    ensures NoDup(listing) && Elems(listing) == jobs && listing != [] && listing[0] == j
    decreases |jobs|
  {
    var others := jobs - {j};
    if others == {} {
      listing := [j];
    } else {
      var k :| k in others;
      var rest := ListingFrom(others, k);
      listing := [j] + rest;
      assert forall x :: x in rest ==> x in Elems(rest);
      assert Elems(listing) == {j} + Elems(rest);
    }
  }

  ghost function ToTheScan(pc: Pc): seq<Step> {
    (if pc.Top? then [] else [Abort]) + ([BeginPoll] + [PollFails] + [CancelDone(false)])
  }

  lemma FromTheTop(s: State)
    requires s.pc.Top?
    ensures var steps := [BeginPoll] + [PollFails] + [CancelDone(false)];
            Legal(s, steps) && After(s, steps) == s.(pc := Scanning({}, [], []))
  {
    var s1 := s.(pc := Polling([]));
    var s2 := s.(pc := Cancelling([]));
    OneStep(s, BeginPoll);
    OneStep(s1, PollFails);
    OneStep(s2, CancelDone(false));
    AfterBoth(s, [BeginPoll], [PollFails]);
    AfterBoth(s, [BeginPoll] + [PollFails], [CancelDone(false)]);
  }

  lemma ReachesTheScan(s: State)
    ensures Legal(s, ToTheScan(s.pc)) && After(s, ToTheScan(s.pc)) == s.(pc := Scanning({}, [], []))
  {
    var rest := [BeginPoll] + [PollFails] + [CancelDone(false)];
    FromTheTop(s.(pc := Top));
    if s.pc.Top? {
      assert [] + rest == rest;
    } else {
      OneStep(s, Abort);
      AfterBoth(s, [Abort], rest);
    }
  }

  lemma MarksFirst(s: State, j: JobId)
    requires s.pc.ToMark? && s.pc.queue != [] && s.pc.queue[0] == j
    ensures Legal(s, [Mark(false)])
    ensures After(s, [Mark(false)]) == s.(docs := s.docs[j := Bare(Submitting)], pc := ToLaunch(j, s.pc.queue[1..]))
  {
    OneStep(s, Mark(false));
  }

  lemma {:induction false} ChecksAreNotClient(n: nat)
    ensures forall step :: step in CheckAll(n) ==> !IsClient(step)
  {
    if n > 0 {
      ChecksAreNotClient(n - 1);
    }
  }

  ghost function ScanAndMark(listing: seq<JobId>): seq<Step> {
    ([ScanPage(listing)] + CheckAll(|listing|) + [ScanDone]) + [Mark(false)]
  }

  lemma ScansAndMarks(s: State, listing: seq<JobId>, j: JobId)
    requires s.pc == Scanning({}, [], []) && NoDup(listing) && Elems(listing) == s.jobs
    requires listing != [] && listing[0] == j && PendingIn(s.docs, j)
    ensures Legal(s, ScanAndMark(listing))
    ensures var t := After(s, ScanAndMark(listing)); t.pc.ToLaunch? && t.pc.job == j && t.cloud == s.cloud
  {
    assert forall x :: x in listing ==> x in Elems(listing);
    ScanIsGetPendingJobs(s, listing);
    var u := s.(pc := ToMark(PendingOf(s.docs, listing)));
    assert PendingOf(s.docs, listing) == [j] + PendingOf(s.docs, listing[1..]);
    MarksFirst(u, j);
    AfterBoth(s, [ScanPage(listing)] + CheckAll(|listing|) + [ScanDone], [Mark(false)]);
  }

  lemma NoClientStep(pc: Pc, listing: seq<JobId>)
    ensures forall step :: step in ToTheScan(pc) + ScanAndMark(listing) ==> !IsClient(step)
  {
    ChecksAreNotClient(|listing|);
  }

  /** From any state, the bastion's own steps reach the launch of a listed job it may launch. */
  lemma BastionReachesLaunch(s: State, j: JobId) returns (steps: seq<Step>)
    requires j in s.jobs && PendingIn(s.docs, j)
    ensures Legal(s, steps) && forall step :: step in steps ==> !IsClient(step)
    ensures var t := After(s, steps); t.pc.ToLaunch? && t.pc.job == j && t.cloud == s.cloud
  {
    var listing := ListingFrom(s.jobs, j);
    ReachesTheScan(s);
    ScansAndMarks(s.(pc := Scanning({}, [], [])), listing, j);
    AfterBoth(s, ToTheScan(s.pc), ScanAndMark(listing));
    NoClientStep(s.pc, listing);
    steps := ToTheScan(s.pc) + ScanAndMark(listing);
  }

  /**
   * A reset is enough. In any run, after a step that resets a job which is still listed, the bastion
   * can launch it again without any further step of the client, in whatever way EC2 lets it.
   */
  lemma ResetAllowsRelaunch(r: Run, m: nat, j: JobId, o: Outcome) returns (steps: seq<Step>)
    requires IsRun(r) && m < |r.steps| && Resets(r.states[m], r.steps[m], j) && j in r.states[m + 1].jobs
    requires FreshLaunch(r.states[m + 1].cloud, o) && Launched(o)
    ensures Legal(r.states[m + 1], steps) && forall step :: step in steps ==> !IsClient(step)
    ensures var t := After(r.states[m + 1], steps); Enabled(t, Launch(o)) && Launches(t, Launch(o), j)
  {
    ResetLeavesPending(r, m, j);
    steps := BastionReachesLaunch(r.states[m + 1], j);
  }

  // ---------------------------------------------------------------- with nothing going wrong

  /** A step of the bastion in which no read, write or call fails. */
  predicate Smooth(step: Step) {
    && !IsClient(step) && step != Abort && step != PollFails && step != ScanFails
    && step != Update(true) && step != CancelWrite(true) && step != Mark(true) && step != Report(true)
    && !step.ReportFailure?
  }

  ghost predicate AllSmooth(steps: seq<Step>) {
    forall step :: step in steps ==> Smooth(step)
  }

  lemma Chain(s: State, a: seq<Step>, t: State, b: seq<Step>, u: State)
    requires Legal(s, a) && After(s, a) == t && Legal(t, b) && After(t, b) == u && AllSmooth(a) && AllSmooth(b)
    ensures Legal(s, a + b) && After(s, a + b) == u && AllSmooth(a + b)
  {
    AfterBoth(s, a, b);
  }

  lemma {:induction false} UpdatesAreSmooth(writes: seq<Write>, putOk: Write -> bool)
    requires forall w :: putOk(w)
    ensures AllSmooth(UpdateAll(writes, putOk))
  {
    if writes != [] {
      UpdatesAreSmooth(writes[1..], putOk);
    }
  }

  lemma {:induction false} UpdatesLeave(docs: map<JobId, StatusDoc>, writes: seq<Write>, putOk: Write -> bool, j: JobId)
    requires forall w :: w in writes ==> w.job != j
    ensures PendingIn(Apply(docs, writes, putOk), j) <==> PendingIn(docs, j)
    decreases |writes|
  {
    if writes != [] {
      assert writes[0] in writes;
      UpdatesLeave(Put(docs, writes[0].job, writes[0].doc, !putOk(writes[0])), writes[1..], putOk, j);
    }
  }

  lemma {:induction false} CancelsAreSmooth(docs: map<JobId, StatusDoc>, named: seq<JobId>, putOk: nat -> bool, k: nat)
    requires k <= |named| && Always(putOk)
    ensures AllSmooth(CancelAll(docs, named, putOk, k))
    decreases |named| - k
  {
    if k < |named| {
      CancelsAreSmooth(CancelDoc(docs, named[k], putOk(k)), named, putOk, k + 1);
    }
  }

  lemma {:induction false} CancelsLeave(docs: map<JobId, StatusDoc>, named: seq<JobId>, putOk: nat -> bool, k: nat,
          j: JobId)
    requires k <= |named| && j !in named
    ensures PendingIn(CancelDocs(docs, named, putOk, k), j) <==> PendingIn(docs, j)
    decreases |named| - k
  {
    if k < |named| {
      assert named[k] in named;
      CancelsLeave(CancelDoc(docs, named[k], putOk(k)), named, putOk, k + 1, j);
    }
  }

  /** What is left of the update phase, all of it written. */
  lemma FinishesUpdates(s: State, j: JobId) returns (steps: seq<Step>, t: State)
    requires s.pc.Updating? && PendingIn(s.docs, j) && forall w :: w in s.pc.writes ==> w.job != j
    ensures Legal(s, steps) && AllSmooth(steps) && After(s, steps) == t
    ensures t == s.(docs := t.docs, pc := Cancelling([])) && PendingIn(t.docs, j)
  {
    var writes := s.pc.writes;
    var putOk: Write -> bool := w => true;
    UpdatesAreTheLoop(s, writes, putOk);
    UpdatesAreSmooth(writes, putOk);
    UpdatesLeave(s.docs, writes, putOk, j);
    var u := s.(docs := Apply(s.docs, writes, putOk), pc := Updating([]));
    OneStep(u, UpdatesDone);
    steps, t := UpdateAll(writes, putOk) + [UpdatesDone], u.(pc := Cancelling([]));
    Chain(s, UpdateAll(writes, putOk), u, [UpdatesDone], t);
  }

  /** A standing request that names jobs is handled and removed. */
  lemma HandlesRequest(s: State, named: seq<JobId>, j: JobId) returns (steps: seq<Step>, t: State)
    requires s.pc == Cancelling([]) && s.cancel == Some(named) && j !in named && PendingIn(s.docs, j)
    ensures Legal(s, steps) && AllSmooth(steps) && After(s, steps) == t
    ensures t == s.(docs := t.docs, cancel := None, pc := Scanning({}, [], [])) && PendingIn(t.docs, j)
  {
    var u := s.(pc := Cancelling(named));
    OneStep(s, CancelRead(named));
    var b, v := MarksNamed(u, named, j);
    OneStep(v, CancelDone(true));
    t := v.(cancel := None, pc := Scanning({}, [], []));
    Chain(s, [CancelRead(named)], u, b, v);
    Chain(s, [CancelRead(named)] + b, v, [CancelDone(true)], t);
    steps := [CancelRead(named)] + b + [CancelDone(true)];
  }

  lemma MarksNamed(s: State, named: seq<JobId>, j: JobId) returns (steps: seq<Step>, t: State)
    requires s.pc == Cancelling(named) && j !in named && PendingIn(s.docs, j)
    ensures Legal(s, steps) && AllSmooth(steps) && After(s, steps) == t
    ensures t == s.(docs := t.docs, pc := Cancelling([])) && PendingIn(t.docs, j)
  {
    var putOk: nat -> bool := k => true;
    assert named[0..] == named;
    CancelsAreTheLoop(s, named, putOk, 0);
    CancelsAreSmooth(s.docs, named, putOk, 0);
    CancelsLeave(s.docs, named, putOk, 0, j);
    steps, t := CancelAll(s.docs, named, putOk, 0),
      s.(docs := CancelDocs(s.docs, named, putOk, 0), pc := Cancelling([]));
  }

  /** The request that stands, if any, does not name `j`. */
  ghost predicate NotNamed(s: State, j: JobId) {
    s.cancel.Some? ==> j !in s.cancel.value
  }

  lemma FinishesCancels(s: State, j: JobId) returns (steps: seq<Step>, t: State)
    requires s.pc == Cancelling([]) && NotNamed(s, j) && PendingIn(s.docs, j)
    ensures Legal(s, steps) && AllSmooth(steps) && After(s, steps) == t
    ensures t == s.(docs := t.docs, cancel := t.cancel, pc := Scanning({}, [], [])) && PendingIn(t.docs, j)
  {
    if s.cancel.Some? && s.cancel.value != [] {
      steps, t := HandlesRequest(s, s.cancel.value, j);
    } else {
      OneStep(s, CancelDone(false));
      steps, t := [CancelDone(false)], s.(pc := Scanning({}, [], []));
    }
  }

  lemma {:induction false} ChecksAreSmooth(n: nat)
    ensures AllSmooth(CheckAll(n))
  {
    if n > 0 {
      ChecksAreSmooth(n - 1);
    }
  }

  lemma SmoothlyReachesLaunch(s: State, j: JobId) returns (steps: seq<Step>)
    requires s.pc.Updating? && j in s.jobs && PendingIn(s.docs, j) && NotNamed(s, j)
    requires forall w :: w in s.pc.writes ==> w.job != j
    ensures Legal(s, steps) && AllSmooth(steps)
    ensures var t := After(s, steps); t.pc.ToLaunch? && t.pc.job == j && t.cloud == s.cloud
  {
    var a, t := FinishesUpdates(s, j);
    var b, u := FinishesCancels(t, j);
    var c, v := ScansSmoothly(u, j);
    Chain(s, a, t, b, u);
    Chain(s, a + b, u, c, v);
    steps := a + b + c;
  }

  lemma ScansSmoothly(s: State, j: JobId) returns (steps: seq<Step>, t: State)
    requires s.pc == Scanning({}, [], []) && j in s.jobs && PendingIn(s.docs, j)
    ensures Legal(s, steps) && AllSmooth(steps) && After(s, steps) == t
    ensures t.pc.ToLaunch? && t.pc.job == j && t.cloud == s.cloud
  {
    var listing := ListingFrom(s.jobs, j);
    ScansAndMarks(s, listing, j);
    ChecksAreSmooth(|listing|);
    steps, t := ScanAndMark(listing), After(s, ScanAndMark(listing));
  }

  /**
   * Nothing has to fail. In any run, when a status update writes PENDING for a job that is still
   * listed, has no later write queued and is not named by a standing request, the bastion can finish
   * that update and the rest of its iteration without a single failure and launch the job again.
   */
  lemma PendingUpdateRelaunches(r: Run, m: nat, j: JobId, o: Outcome) returns (steps: seq<Step>)
    requires IsRun(r) && m < |r.steps| && r.steps[m].Update? && SetsPending(r.states[m], r.steps[m], j)
    requires j in r.states[m + 1].jobs && NotNamed(r.states[m + 1], j)
    requires forall w :: w in r.states[m].pc.writes[1..] ==> w.job != j
    requires FreshLaunch(r.states[m + 1].cloud, o) && Launched(o)
    ensures Legal(r.states[m + 1], steps) && AllSmooth(steps)
    ensures var t := After(r.states[m + 1], steps); Enabled(t, Launch(o)) && Launches(t, Launch(o), j)
  {
    steps := SmoothlyReachesLaunch(r.states[m + 1], j);
  }
}
