/**
 * `handle_cancel_requests` in the bastion program (parsl_ephemeral_provider/modes/detached.py):
 * which instances one handled request terminates, fleet deletions that fail included.
 */
module CancelRequests {
  import opened Collections
  import opened DetachedProtocol

  // ---------------------------------------------------------------- documents tell the truth

  /** A document of `j` records exactly what EC2 launched for `j`. */
  ghost predicate Genuine(c: Cloud, j: JobId, d: StatusDoc) {
    match d.fleet
    case None => d.all == [] && (d.instance.Some? ==> d.instance.value in c.solo && c.solo[d.instance.value] == j)
    case Some(f) =>
      && f in c.fleets && c.fleets[f] == (j, d.all)
      && d.instance == (if d.all == [] then None else Some(d.all[0]))
  }

  ghost predicate GenuineWrites(c: Cloud, writes: seq<Write>) {
    forall w :: w in writes ==> Genuine(c, w.job, w.doc)
  }

  ghost predicate Truthful(s: State) {
    && (forall j :: j in s.docs ==> Genuine(s.cloud, j, s.docs[j]))
    && (s.pc.Polling? ==> GenuineWrites(s.cloud, s.pc.running))
    && (s.pc.Updating? ==> GenuineWrites(s.cloud, s.pc.writes))
    && (s.pc.WritingCancel? ==> Genuine(s.cloud, s.pc.write.job, s.pc.write.doc))
    && (s.pc.ToReport? ==> Genuine(s.cloud, s.pc.job, ReportOf(s.pc.outcome)))
  }

  /** No instance belongs to two launches. */
  ghost predicate Apart(c: Cloud) {
    && (forall f, i :: f in c.fleets && i in c.fleets[f].1 ==> i !in c.solo)
    && (forall f, g, i :: f in c.fleets && g in c.fleets && f != g && i in c.fleets[f].1 ==> i !in c.fleets[g].1)
    && (forall f :: f in c.fleets ==> NoDup(c.fleets[f].1))
  }

  lemma GrownKeepsGenuine(c: Cloud, job: JobId, o: Outcome, j: JobId, d: StatusDoc)
    requires FreshLaunch(c, o) && Genuine(c, j, d)
    ensures Genuine(Grown(c, job, o), j, d)
  {
  }

  lemma GrownKeepsApart(c: Cloud, job: JobId, o: Outcome)
    requires FreshLaunch(c, o) && Apart(c)
    ensures Apart(Grown(c, job, o))
  {
  }

  lemma ReportIsGenuine(c: Cloud, j: JobId, o: Outcome)
    requires FreshLaunch(c, o)
    ensures Genuine(Grown(c, j, o), j, ReportOf(o))
  {
  }

  lemma {:induction false} QueueIsGenuine(c: Cloud, running: seq<Write>, fs: FleetStatuses, ins: InstanceStatuses)
    requires GenuineWrites(c, running)
    ensures GenuineWrites(c, UpdateQueue(running, fs, ins))
  {
    if running != [] {
      assert running[0] in running;
      QueueIsGenuine(c, running[1..], fs, ins);
    }
  }

  lemma LaunchKeepsTruth(s: State, o: Outcome)
    requires Truthful(s) && Apart(s.cloud) && Enabled(s, Launch(o))
    ensures Truthful(Next(s, Launch(o))) && Apart(Next(s, Launch(o)).cloud)
  {
    GrownKeepsApart(s.cloud, s.pc.job, o);
    ReportIsGenuine(s.cloud, s.pc.job, o);
    forall j | j in s.docs
      ensures Genuine(Next(s, Launch(o)).cloud, j, s.docs[j])
    {
      GrownKeepsGenuine(s.cloud, s.pc.job, o, j, s.docs[j]);
    }
  }

  lemma UpdateKeepsTruth(s: State, lost: bool)
    requires Truthful(s) && Apart(s.cloud) && Enabled(s, Update(lost))
    ensures Truthful(Next(s, Update(lost))) && Apart(Next(s, Update(lost)).cloud)
  {
    assert s.pc.writes[0] in s.pc.writes;
    assert forall w :: w in s.pc.writes[1..] ==> w in s.pc.writes;
  }

  lemma StepKeepsTruth(s: State, step: Step)
    requires Truthful(s) && Apart(s.cloud) && Enabled(s, step)
    ensures Truthful(Next(s, step)) && Apart(Next(s, step).cloud)
  {
    match step
    case PollAnswers(fs, ins) => QueueIsGenuine(s.cloud, s.pc.running, fs, ins);
    case Update(lost) => UpdateKeepsTruth(s, lost);
    case Launch(o) => LaunchKeepsTruth(s, o);
    case _ =>
  }

  /** In every reachable state every document records exactly the launch it describes. */
  lemma {:induction false} RunKeepsTruth(r: Run, i: nat)
    requires IsRun(r) && i < |r.states|
    ensures Truthful(r.states[i]) && Apart(r.states[i].cloud)
  {
    if i > 0 {
      RunKeepsTruth(r, i - 1);
      StepKeepsTruth(r.states[i - 1], r.steps[i - 1]);
    }
  }

  // ---------------------------------------------------------------- what one request terminates

  /** DeleteFleets succeeds, raises, or answers with the fleet among its failures. */
  datatype Deletion = Deleted | Raised | RefusedInline

  class Ec2 {
    var terminated: set<InstanceId>
    const cloud: Cloud

    constructor (cloud: Cloud)
      ensures this.cloud == cloud && terminated == {}
    {
      this.cloud := cloud;
      terminated := {};
    }

    /** Deleting an instant fleet terminates its instances. */
    method DeleteFleet(f: FleetId, answer: Deletion) returns (raised: bool)
      modifies this
      ensures terminated == old(terminated) + (if answer.Deleted? then FleetInstances(cloud, f) else {})
      ensures raised == answer.Raised?
    {
      if answer.Deleted? {
        terminated := terminated + FleetInstances(cloud, f);
      }
      raised := answer.Raised?;
    }

    method TerminateInstances(ids: set<InstanceId>, ok: bool)
      modifies this
      ensures terminated == if ok then old(terminated) + ids else old(terminated)
    {
      if ok {
        terminated := terminated + ids;
      }
    }
  }

  function FleetInstances(c: Cloud, f: FleetId): set<InstanceId> {
    if f in c.fleets then Elems(c.fleets[f].1) else {}
  }

  /** The instances a document records. */
  function RecordedIn(d: StatusDoc): set<InstanceId> {
    Elems(d.all) + (if d.instance.Some? then {d.instance.value} else {})
  }

  function Recorded(docs: map<JobId, StatusDoc>, named: seq<JobId>): (r: set<InstanceId>)
  {
    set j, i | j in named && j in docs && i in RecordedIn(docs[j]) :: i
  }

  function Primaries(docs: map<JobId, StatusDoc>, named: seq<JobId>): set<InstanceId> {
    set j | j in named && j in docs && docs[j].instance.Some? :: docs[j].instance.value
  }

  function FleetsOf(docs: map<JobId, StatusDoc>, named: seq<JobId>): set<FleetId> {
    set j | j in named && j in docs && docs[j].fleet.Some? :: docs[j].fleet.value
  }

  /** The fleets of the named jobs in the order the loop collects them, repeats included. */
  function FleetList(docs: map<JobId, StatusDoc>, named: seq<JobId>): (r: seq<FleetId>)
    ensures Elems(r) == FleetsOf(docs, named)
  {
    if named == [] then []
    else
      var j := named[|named| - 1];
      assert named == named[..|named| - 1] + [j];
      FleetList(docs, named[..|named| - 1])
      + (if j in docs && docs[j].fleet.Some? then [docs[j].fleet.value] else [])
  }

  function Members(docs: map<JobId, StatusDoc>, named: seq<JobId>): set<InstanceId> {
    set j, i | j in named && j in docs && docs[j].fleet.Some? && i in docs[j].all :: i
  }

  ghost predicate Cancellable(docs: map<JobId, StatusDoc>, named: seq<JobId>, j: JobId) {
    j in named && j in docs && (docs[j].fleet.Some? || docs[j].instance.Some?)
  }

  /** The documents after the request: CANCELED for what it reached, unless the write was lost. */
  ghost predicate Marked(before: map<JobId, StatusDoc>, after: map<JobId, StatusDoc>, named: seq<JobId>,
          allWritten: bool) {
    && after.Keys == before.Keys
    && (forall j :: j in before && !Cancellable(before, named, j) ==> after[j] == before[j])
    && (forall j :: j in before && Cancellable(before, named, j) ==>
         after[j] == before[j] || after[j] == before[j].(status := Canceled))
    && (allWritten ==> forall j :: j in before && Cancellable(before, named, j) ==>
         after[j] == before[j].(status := Canceled))
  }

  predicate Reaches(docs: map<JobId, StatusDoc>, j: JobId) {
    j in docs && (docs[j].fleet.Some? || docs[j].instance.Some?)
  }

  /** The documents once one more name is handled. */
  function CancelDoc(docs: map<JobId, StatusDoc>, j: JobId, written: bool): map<JobId, StatusDoc> {
    if Reaches(docs, j) then Put(docs, j, docs[j].(status := Canceled), !written) else docs
  }

  /** The documents once the names from the k-th on are handled, one after the other. */
  function CancelDocs(docs: map<JobId, StatusDoc>, named: seq<JobId>, putOk: nat -> bool, k: nat): map<JobId, StatusDoc>
    requires k <= |named|
    decreases |named| - k
  {
    if k == |named| then docs else CancelDocs(CancelDoc(docs, named[k], putOk(k)), named, putOk, k + 1)
  }

  ghost predicate Always(p: nat -> bool) {
    forall k: nat :: p(k)
  }

  /** The three lists the request loop builds: primaries, fleets and fleet members. */
  datatype Lists = Lists(instanceIds: seq<InstanceId>, fleets: seq<FleetId>, members: seq<InstanceId>)

  ghost predicate ListsOf(lists: Lists, docs: map<JobId, StatusDoc>, named: seq<JobId>) {
    && Elems(lists.instanceIds) == Primaries(docs, named)
    && lists.fleets == FleetList(docs, named)
    && Elems(lists.members) == Members(docs, named)
  }

  method CollectNamed(store: ParameterStore, named: seq<JobId>, putOk: nat -> bool, readOk: nat -> bool)
      returns (ok: bool, lists: Lists)
    modifies store`docs
    ensures Marked(old(store.docs), store.docs, named, ok && Always(putOk))
    ensures Always(readOk) ==> ok
    ensures ok ==> ListsOf(lists, old(store.docs), named) && store.docs == CancelDocs(old(store.docs), named, putOk, 0)
  {
    ghost var before := store.docs;
    lists := Lists([], [], []);
    for k := 0 to |named|
      invariant Marked(before, store.docs, named[..k], Always(putOk))
      invariant ListsOf(lists, before, named[..k])
      invariant CancelDocs(store.docs, named, putOk, k) == CancelDocs(before, named, putOk, 0)
    {
      if !readOk(k) {
        MarkedMore(before, store.docs, named[..k], named, Always(putOk));
        return false, lists;
      }
      lists := CollectOne(store, before, named, k, putOk(k), lists, Always(putOk));
    }
    assert named[..|named|] == named;
    ok := true;
  }

  method CollectOne(store: ParameterStore, ghost before: map<JobId, StatusDoc>, named: seq<JobId>, k: nat,
          written: bool, lists: Lists, ghost all: bool)
      returns (more: Lists)
    requires k < |named| && (all ==> written)
    requires Marked(before, store.docs, named[..k], all) && ListsOf(lists, before, named[..k])
    modifies store`docs
    ensures Marked(before, store.docs, named[..k + 1], all) && ListsOf(more, before, named[..k + 1])
    ensures store.docs == CancelDoc(old(store.docs), named[k], written)
  {
    MarkedOne(before, store.docs, named, k, written, all);
    ListsOneMore(lists, before, store.docs, named, k);
    more := lists;
    var j := named[k];
    if j in store.docs {
      var doc := store.docs[j];
      if doc.fleet.Some? {
        more := more.(fleets := more.fleets + [doc.fleet.value]);
        if doc.instance.Some? {
          more := more.(instanceIds := more.instanceIds + [doc.instance.value]);
        }
        more := more.(members := more.members + doc.all);
        store.docs := Put(store.docs, j, doc.(status := Canceled), !written);
      } else if doc.instance.Some? {
        more := more.(instanceIds := more.instanceIds + [doc.instance.value]);
        store.docs := Put(store.docs, j, doc.(status := Canceled), !written);
      }
    }
  }

  /** Handling one more name marks its document, whether or not it was marked before. */
  lemma MarkedOne(before: map<JobId, StatusDoc>, now: map<JobId, StatusDoc>, named: seq<JobId>, k: nat, written: bool,
          all: bool)
    requires k < |named| && (all ==> written)
    requires Marked(before, now, named[..k], all)
    ensures named[k] in now <==> named[k] in before
    ensures named[k] in now ==> now[named[k]] == before[named[k]].(status := now[named[k]].status)
    ensures Marked(before, CancelDoc(now, named[k], written), named[..k + 1], all)
  {
    assert named[..k + 1] == named[..k] + [named[k]];
  }

  /** What the lists gain from one document; its status is not collected. */
  function Collected(lists: Lists, docs: map<JobId, StatusDoc>, j: JobId): Lists {
    if j !in docs then lists
    else
      var doc := docs[j];
      Lists(lists.instanceIds + (if doc.instance.Some? then [doc.instance.value] else []),
            lists.fleets + (if doc.fleet.Some? then [doc.fleet.value] else []),
            lists.members + (if doc.fleet.Some? then doc.all else []))
  }

  lemma ListsOneMore(lists: Lists, before: map<JobId, StatusDoc>, now: map<JobId, StatusDoc>, named: seq<JobId>,
          k: nat)
    requires k < |named| && ListsOf(lists, before, named[..k])
    requires named[k] in now <==> named[k] in before
    requires named[k] in now ==> now[named[k]] == before[named[k]].(status := now[named[k]].status)
    ensures ListsOf(Collected(lists, now, named[k]), before, named[..k + 1])
  {
    NamedOneMore(before, named, k);
  }

  lemma MarkedMore(before: map<JobId, StatusDoc>, after: map<JobId, StatusDoc>, some: seq<JobId>, named: seq<JobId>,
          all: bool)
    requires some <= named && Marked(before, after, some, all)
    ensures Marked(before, after, named, false)
  {
  }

  lemma NamedOneMore(docs: map<JobId, StatusDoc>, named: seq<JobId>, k: nat)
    requires k < |named|
    ensures var j, some := named[k], named[..k];
            && (forall x :: x in named[..k + 1] <==> x in some || x == j)
            && Primaries(docs, named[..k + 1]) ==
                 Primaries(docs, some) + (if j in docs && docs[j].instance.Some? then {docs[j].instance.value} else {})
            && FleetList(docs, named[..k + 1]) ==
                 FleetList(docs, some) + (if j in docs && docs[j].fleet.Some? then [docs[j].fleet.value] else [])
            && Members(docs, named[..k + 1]) ==
                 Members(docs, some) + (if j in docs && docs[j].fleet.Some? then Elems(docs[j].all) else {})
  {
    assert named[..k + 1] == named[..k] + [named[k]];
    assert named[..k + 1][..k] == named[..k];
  }

  /** Fleets first; a deletion that raises falls back to terminating every fleet member directly. */
  method DeleteFleets(ec2: Ec2, fleets: seq<FleetId>, members: set<InstanceId>, primaries: set<InstanceId>,
          answers: nat -> Deletion)
    returns (instanceIds: set<InstanceId>)
    modifies ec2
    ensures ec2.terminated == old(ec2.terminated) + DeletedInstances(ec2.cloud, fleets, answers)
    ensures instanceIds == primaries + (if AnyRaised(fleets, answers) then members else {})
  {
    instanceIds := primaries;
    for k := 0 to |fleets|
      invariant ec2.terminated == old(ec2.terminated) + DeletedInstances(ec2.cloud, fleets[..k], answers)
      invariant instanceIds == primaries + (if AnyRaised(fleets[..k], answers) then members else {})
    {
      DeletedOneMore(ec2.cloud, fleets, k, answers);
      var raised := ec2.DeleteFleet(fleets[k], answers(k));
      if raised {
        if members != {} {
          var unique := members - instanceIds;
          instanceIds := instanceIds + unique;
        }
      }
    }
    assert fleets[..|fleets|] == fleets;
  }

  /** `answers` is what EC2 says at each position; a fleet listed twice is deleted twice. */
  ghost function DeletedInstances(c: Cloud, fleets: seq<FleetId>, answers: nat -> Deletion): set<InstanceId> {
    set k, i | 0 <= k < |fleets| && answers(k).Deleted? && i in FleetInstances(c, fleets[k]) :: i
  }

  ghost predicate AnyRaised(fleets: seq<FleetId>, answers: nat -> Deletion) {
    exists k: nat :: k < |fleets| && answers(k).Raised?
  }

  lemma DeletedOneMore(c: Cloud, fleets: seq<FleetId>, n: nat, answers: nat -> Deletion)
    requires n < |fleets|
    ensures DeletedInstances(c, fleets[..n + 1], answers) ==
              DeletedInstances(c, fleets[..n], answers)
              + (if answers(n).Deleted? then FleetInstances(c, fleets[n]) else {})
    ensures AnyRaised(fleets[..n + 1], answers) <==> AnyRaised(fleets[..n], answers) || answers(n).Raised?
  {
    assert fleets[..n + 1] == fleets[..n] + [fleets[n]];
    if answers(n).Raised? {
      assert n < |fleets[..n + 1]|;
    }
    if AnyRaised(fleets[..n], answers) {
      var k: nat :| k < |fleets[..n]| && answers(k).Raised?;
      assert k < |fleets[..n + 1]|;
    }
  }

  /** What a handled request terminates, given how each fleet deletion went. */
  ghost function Reached(c: Cloud, docs: map<JobId, StatusDoc>, named: seq<JobId>,
          answers: nat -> Deletion): set<InstanceId> {
    Primaries(docs, named)
    + DeletedInstances(c, FleetList(docs, named), answers)
    + (if AnyRaised(FleetList(docs, named), answers) then Members(docs, named) else {})
  }

  /** Fleets are deleted, then what is left is terminated; with nothing left there is no call to fail. */
  method StopInstances(ec2: Ec2, ghost docs: map<JobId, StatusDoc>, ghost named: seq<JobId>, lists: Lists,
          answers: nat -> Deletion, terminateOk: bool)
      returns (ok: bool)
    requires ListsOf(lists, docs, named)
    modifies ec2
    ensures ec2.terminated == old(ec2.terminated) +
              if ok then Reached(ec2.cloud, docs, named, answers)
              else DeletedInstances(ec2.cloud, FleetList(docs, named), answers)
    ensures !ok ==> !terminateOk
  {
    var ids := DeleteFleets(ec2, lists.fleets, Elems(lists.members), Elems(lists.instanceIds), answers);
    if ids != {} {
      ec2.TerminateInstances(ids, terminateOk);
      if !terminateOk {
        return false;
      }
    }
    ok := true;
  }

  /** Where one call ends: nothing to do, done, or the error that ended it. */
  datatype Exit = NoRequest | Handled | ReadFailed | TerminateFailed | DeleteFailed

  /** One call of `handle_cancel_requests`. An error leaves the request in place for the next round. */
  method HandleCancelRequests(store: ParameterStore, ec2: Ec2, putOk: nat -> bool, readOk: nat -> bool,
          answers: nat -> Deletion, terminateOk: bool, deleteOk: bool)
      returns (exit: Exit)
    modifies store, ec2
    ensures exit.NoRequest? <==> old(store.cancel).None? || old(store.cancel).value == []
    ensures exit.NoRequest? ==> store.docs == old(store.docs) && ec2.terminated == old(ec2.terminated)
    ensures store.cancel == if exit.Handled? then None else old(store.cancel)
    ensures !exit.NoRequest? ==>
              var docs, named := old(store.docs), old(store.cancel).value;
              && Marked(docs, store.docs, named, !exit.ReadFailed? && Always(putOk))
              && (!exit.ReadFailed? ==> store.docs == CancelDocs(docs, named, putOk, 0))
              && ec2.terminated == old(ec2.terminated) +
                   match exit
                   case ReadFailed => {}
                   case TerminateFailed => DeletedInstances(ec2.cloud, FleetList(docs, named), answers)
                   case _ => Reached(ec2.cloud, docs, named, answers)
    ensures exit.ReadFailed? ==> !Always(readOk)
    ensures exit.TerminateFailed? ==> !terminateOk
    ensures exit.DeleteFailed? ==> !deleteOk
  {
    if store.cancel.None? || store.cancel.value == [] {
      return NoRequest;
    }
    var named := store.cancel.value;
    var ok, lists := CollectNamed(store, named, putOk, readOk);
    if !ok {
      return ReadFailed;
    }
    ok := StopInstances(ec2, old(store.docs), named, lists, answers, terminateOk);
    if !ok {
      return TerminateFailed;
    }
    if !deleteOk {
      return DeleteFailed;
    }
    store.cancel := None;
    exit := Handled;
  }

  // ---------------------------------------------------------------- the protocol's cancel steps

  /** Reading one name, and writing its document when it reaches anything. */
  ghost function CancelOne(docs: map<JobId, StatusDoc>, j: JobId, written: bool): seq<Step> {
    [CancelJobRead] + (if Reaches(docs, j) then [CancelWrite(!written)] else [])
  }

  ghost function CancelAll(docs: map<JobId, StatusDoc>, named: seq<JobId>, putOk: nat -> bool, k: nat): seq<Step>
    requires k <= |named|
    decreases |named| - k
  {
    if k == |named| then []
    else CancelOne(docs, named[k], putOk(k)) + CancelAll(CancelDoc(docs, named[k], putOk(k)), named, putOk, k + 1)
  }

  lemma CancelOneIsTheLoop(s: State, j: JobId, rest: seq<JobId>, written: bool)
    requires s.pc == Cancelling([j] + rest)
    ensures Legal(s, CancelOne(s.docs, j, written))
    ensures After(s, CancelOne(s.docs, j, written)) == s.(docs := CancelDoc(s.docs, j, written), pc := Cancelling(rest))
  {
    assert ([j] + rest)[1..] == rest;
    OneStep(s, CancelJobRead);
    if Reaches(s.docs, j) {
      var t := s.(pc := WritingCancel(Write(j, s.docs[j].(status := Canceled)), rest));
      OneStep(t, CancelWrite(!written));
      AfterBoth(s, [CancelJobRead], [CancelWrite(!written)]);
    } else {
      assert [CancelJobRead] + [] == [CancelJobRead];
    }
  }

  /** Undisturbed, the protocol's cancel steps leave the documents the loop leaves. */
  lemma {:induction false} CancelsAreTheLoop(s: State, named: seq<JobId>, putOk: nat -> bool, k: nat)
    requires k <= |named| && s.pc == Cancelling(named[k..])
    ensures Legal(s, CancelAll(s.docs, named, putOk, k))
    ensures After(s, CancelAll(s.docs, named, putOk, k)) ==
              s.(docs := CancelDocs(s.docs, named, putOk, k), pc := Cancelling([]))
    decreases |named| - k
  {
    if k < |named| {
      assert named[k..] == [named[k]] + named[k + 1..];
      CancelOneIsTheLoop(s, named[k], named[k + 1..], putOk(k));
      var t := s.(docs := CancelDoc(s.docs, named[k], putOk(k)), pc := Cancelling(named[k + 1..]));
      CancelsAreTheLoop(t, named, putOk, k + 1);
      AfterBoth(s, CancelOne(s.docs, named[k], putOk(k)), CancelAll(t.docs, named, putOk, k + 1));
    }
  }

  // ---------------------------------------------------------------- exactly the recorded instances

  ghost predicate GenuineDocs(c: Cloud, docs: map<JobId, StatusDoc>) {
    Apart(c) && forall j :: j in docs ==> Genuine(c, j, docs[j])
  }

  lemma RecordedSplits(docs: map<JobId, StatusDoc>, named: seq<JobId>, c: Cloud)
    requires GenuineDocs(c, docs)
    ensures Recorded(docs, named) == Primaries(docs, named) + Members(docs, named)
    ensures forall j :: j in named && j in docs && docs[j].fleet.Some? ==>
              && docs[j].fleet.value in FleetsOf(docs, named)
              && Elems(docs[j].all) == FleetInstances(c, docs[j].fleet.value)
  {
    forall i | i in Recorded(docs, named)
      ensures i in Primaries(docs, named) + Members(docs, named)
    {
      var j :| j in named && j in docs && i in RecordedIn(docs[j]);
      assert Genuine(c, j, docs[j]);
    }
    forall i | i in Primaries(docs, named) + Members(docs, named)
      ensures i in Recorded(docs, named)
    {
      var j :| j in named && j in docs && (docs[j].instance == Some(i) || i in docs[j].all);
      assert i in RecordedIn(docs[j]);
    }
  }

  /** Nothing else is ever terminated. */
  lemma NeverBeyondRecorded(c: Cloud, docs: map<JobId, StatusDoc>, named: seq<JobId>, answers: nat -> Deletion)
    requires GenuineDocs(c, docs)
    ensures Reached(c, docs, named, answers) <= Recorded(docs, named)
  {
    RecordedSplits(docs, named, c);
    forall i | i in DeletedInstances(c, FleetList(docs, named), answers)
      ensures i in Recorded(docs, named)
    {
      var k: nat :| k < |FleetList(docs, named)| && answers(k).Deleted? &&
        i in FleetInstances(c, FleetList(docs, named)[k]);
      var f := FleetList(docs, named)[k];
      assert f in FleetsOf(docs, named);
      var j :| j in named && j in docs && docs[j].fleet == Some(f);
      assert i in docs[j].all;
    }
  }

  /** A fleet of several instances, refused each time it is listed, is what the request can miss. */
  ghost predicate Missed(c: Cloud, docs: map<JobId, StatusDoc>, named: seq<JobId>, answers: nat -> Deletion,
          f: FleetId) {
    && f in FleetsOf(docs, named) && |FleetInstances(c, f)| >= 2
    && (forall k: nat :: k < |FleetList(docs, named)| && FleetList(docs, named)[k] == f ==> answers(k).RefusedInline?)
  }

  lemma CoveredWithoutMisses(c: Cloud, docs: map<JobId, StatusDoc>, named: seq<JobId>, answers: nat -> Deletion)
    requires GenuineDocs(c, docs)
    requires AnyRaised(FleetList(docs, named), answers) || forall f :: !Missed(c, docs, named, answers, f)
    ensures Recorded(docs, named) <= Reached(c, docs, named, answers)
  {
    RecordedSplits(docs, named, c);
    if !AnyRaised(FleetList(docs, named), answers) {
      forall i | i in Members(docs, named)
        ensures i in Reached(c, docs, named, answers)
      {
        var j :| j in named && j in docs && docs[j].fleet.Some? && i in docs[j].all;
        var f := docs[j].fleet.value;
        assert f in FleetsOf(docs, named) && !Missed(c, docs, named, answers, f);
        if |FleetInstances(c, f)| >= 2 {
          var k: nat :| k < |FleetList(docs, named)| && FleetList(docs, named)[k] == f && !answers(k).RefusedInline?;
          assert !answers(k).Raised?;
        } else {
          OnlyPrimary(docs[j].all, i);
        }
      }
    }
  }

  lemma OnlyPrimary(all: seq<InstanceId>, i: InstanceId)
    requires i in all && |Elems(all)| < 2
    ensures i == all[0]
  {
    if i != all[0] {
      assert {i, all[0]} <= Elems(all);
      SubsetSize({i, all[0]}, Elems(all));
    }
  }

  lemma MissLeavesOne(c: Cloud, docs: map<JobId, StatusDoc>, named: seq<JobId>, answers: nat -> Deletion,
          f: FleetId)
    requires GenuineDocs(c, docs) && Missed(c, docs, named, answers, f)
    requires !AnyRaised(FleetList(docs, named), answers)
    ensures exists i :: i in Recorded(docs, named) && i !in Reached(c, docs, named, answers)
  {
    var j :| j in named && j in docs && docs[j].fleet == Some(f);
    var all := docs[j].all;
    assert |all| >= 2 by {
      NoDupSize(all);
    }
    var i := all[1];
    assert i in RecordedIn(docs[j]);
    assert i in Recorded(docs, named);
    assert i !in Primaries(docs, named) by {
      forall k | k in named && k in docs && docs[k].instance.Some?
        ensures docs[k].instance.value != i
      {
        assert Genuine(c, k, docs[k]) && i in c.fleets[f].1 && i !in c.solo;
        if docs[k].fleet.Some? && docs[k].fleet.value != f {
          assert docs[k].instance.value in c.fleets[docs[k].fleet.value].1;
        }
      }
    }
    assert i !in DeletedInstances(c, FleetList(docs, named), answers) by {
      forall k: nat | k < |FleetList(docs, named)| && answers(k).Deleted?
        ensures i !in FleetInstances(c, FleetList(docs, named)[k])
      {
        assert FleetList(docs, named)[k] != f;
      }
    }
  }

  /**
   * A request handled without an error terminates exactly the recorded instances of the named
   * jobs if and only if some fleet deletion raised or every fleet that was refused each time it was
   * listed held a single instance.
   * In particular any subset of deletions may raise.
   */
  lemma CancelIsExactIff(c: Cloud, docs: map<JobId, StatusDoc>, named: seq<JobId>, answers: nat -> Deletion)
    requires GenuineDocs(c, docs)
    ensures Reached(c, docs, named, answers) == Recorded(docs, named) <==>
            AnyRaised(FleetList(docs, named), answers) || forall f :: !Missed(c, docs, named, answers, f)
    ensures (forall k: nat :: k < |FleetList(docs, named)| ==> !answers(k).RefusedInline?) ==>
              Reached(c, docs, named, answers) == Recorded(docs, named)
  {
    NeverBeyondRecorded(c, docs, named, answers);
    if AnyRaised(FleetList(docs, named), answers) || forall f :: !Missed(c, docs, named, answers, f) {
      CoveredWithoutMisses(c, docs, named, answers);
    } else {
      var f :| Missed(c, docs, named, answers, f);
      MissLeavesOne(c, docs, named, answers, f);
    }
  }

  /** The premise holds of every document any run of the protocol can reach. */
  lemma ReachableDocsAreGenuine(r: Run, i: nat)
    requires IsRun(r) && i < |r.states|
    ensures GenuineDocs(r.states[i].cloud, r.states[i].docs)
  {
    RunKeepsTruth(r, i);
  }

  // ---------------------------------------------------------------- a request that misses

  ghost const PAIR := Launch(Fleet("f", ["a", "b"]))

  ghost function PairSteps(j: JobId): seq<Step> {
    (SubmitSteps(j) + ScanSteps(j)) + ([PAIR] + [Report(false)])
  }

  lemma PairLaunches(s: State, j: JobId)
    requires s.pc == ToLaunch(j, []) && s.cloud == Cloud(map[], map[])
    ensures Legal(s, [PAIR] + [Report(false)])
    ensures var t := After(s, [PAIR] + [Report(false)]);
            && t.docs == s.docs[j := StatusDoc(Running, Some("a"), Some("f"), ["a", "b"])]
            && t.cloud == Cloud(map[], map["f" := (j, ["a", "b"])])
  {
    var t := s.(cloud := Cloud(map[], map["f" := (j, ["a", "b"])]), pc := ToReport(j, Fleet("f", ["a", "b"]), []));
    OneStep(s, PAIR);
    OneStep(t, Report(false));
    AfterBoth(s, [PAIR], [Report(false)]);
  }

  lemma PairIsReached(j: JobId) returns (r: Run, i: nat)
    ensures IsRun(r) && i < |r.states|
    ensures r.states[i].docs == map[j := StatusDoc(Running, Some("a"), Some("f"), ["a", "b"])]
    ensures r.states[i].cloud == Cloud(map[], map["f" := (j, ["a", "b"])])
  {
    FirstScan(j);
    var s := After(START, SubmitSteps(j) + ScanSteps(j));
    PairLaunches(s, j);
    AfterBoth(START, SubmitSteps(j) + ScanSteps(j), [PAIR] + [Report(false)]);
    r := MakeRun(PairSteps(j));
    i := |PairSteps(j)|;
    assert PairSteps(j)[..i] == PairSteps(j);
    assert map[j := Bare(Submitting)][j := StatusDoc(Running, Some("a"), Some("f"), ["a", "b"])]
        == map[j := StatusDoc(Running, Some("a"), Some("f"), ["a", "b"])];
  }

  /** A job on a fleet of two, reached by a run; EC2 refuses the deletion inline, and "b" runs on. */
  lemma RefusedFleetIsMissed() returns (r: Run, i: nat)
    ensures IsRun(r) && i < |r.states|
    ensures var s := r.states[i]; var answers: nat -> Deletion := _ => RefusedInline;
            "b" in Recorded(s.docs, ["j"]) && "b" !in Reached(s.cloud, s.docs, ["j"], answers)
  {
    r, i := PairIsReached("j");
    var s := r.states[i];
    assert "b" in ["a", "b"] by {
      assert ["a", "b"][1] == "b";
    }
    assert "j" in ["j"] && "b" in RecordedIn(s.docs["j"]);
  }
}
