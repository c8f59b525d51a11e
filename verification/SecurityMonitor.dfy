/**
 * Sliding-window detection of suspicious event patterns
 * (parsl_ephemeral_provider/security/audit.py).
 */
module SecurityMonitoring {
  import opened Collections

  datatype EventType =
    | CredentialAccess | RoleAssumption | TokenRefresh | AccessDenied
    | ResourceCreate | ResourceDelete | ResourceModify | ResourceAccess
    | SecurityGroupChange | NetworkAclChange | VpcModification
    | StateEncrypt | StateDecrypt | StateAccess | SensitiveDataAccess
    | ConfigChange | PolicyChange | SecuritySettingChange
    | SecurityViolation | SuspiciousActivity | ErrorEscalation

  datatype Severity = Info | Low | Medium | High | Critical

  /** The fields an alert copies from the event that raised it. */
  datatype Origin = Origin(
    resourceType: Option<string>, resourceId: Option<string>, userIdentity: Option<string>,
    sourceIp: Option<string>, region: Option<string>, workflowId: Option<string>)

  datatype Event = Event(kind: EventType, severity: Severity, eventId: string, origin: Origin)

  datatype PatternName =
    RepeatedAccessDenied | CredentialAccessBurst | RapidResourceCreation | MassResourceDeletion | SecurityPolicyChanges

  datatype Pattern = Pattern(name: PatternName, kind: EventType, threshold: nat, window: real, severity: Severity)

  datatype Alert = Alert(
    pattern: PatternName, severity: Severity, origin: Origin, correlationId: string, count: nat,
    threshold: nat, window: real)

  const PATTERNS := [
    Pattern(RepeatedAccessDenied, AccessDenied, 5, 300.0, High),
    Pattern(CredentialAccessBurst, CredentialAccess, 10, 60.0, Medium),
    Pattern(RapidResourceCreation, ResourceCreate, 20, 300.0, Medium),
    Pattern(MassResourceDeletion, ResourceDelete, 10, 60.0, High),
    Pattern(SecurityPolicyChanges, SecuritySettingChange, 3, 300.0, High)
  ]

  const HISTORY_CAP := 10000
  const COUNTER_CAP := 1000

  // ---------------------------------------------------------------- one event, one pattern

  /** `append` to a deque of bounded length: the oldest entry falls out of a full one. */
  function Pushed<T>(q: seq<T>, cap: nat, x: T): seq<T> {
    var r := q + [x];
    if |r| <= cap then r else r[|r| - cap..]
  }

  function Pruned(q: seq<real>, cutoff: real): seq<real> {
    if q != [] && q[0] < cutoff then Pruned(q[1..], cutoff) else q
  }

  /** The counter of `p` once a matching event is counted and old ones are dropped. */
  function Watched(p: Pattern, q: seq<real>, now: real): seq<real> {
    Pruned(Pushed(q, COUNTER_CAP, now), now - p.window)
  }

  function Observed(p: Pattern, q: seq<real>, kind: EventType, now: real): seq<real> {
    if kind != p.kind then q
    else if |Watched(p, q, now)| >= p.threshold then []
    else Watched(p, q, now)
  }

  // ---------------------------------------------------------------- a whole log

  datatype Tick = Tick(kind: EventType, now: real)

  function Counter(p: Pattern, log: seq<Tick>): seq<real> {
    if log == [] then []
    else
      var last := log[|log| - 1];
      Observed(p, Counter(p, log[..|log| - 1]), last.kind, last.now)
  }

  /** The counter as the last event of the log finds it, before an alert clears it. */
  function AtLast(p: Pattern, log: seq<Tick>): seq<real>
    requires log != []
  {
    Watched(p, Counter(p, log[..|log| - 1]), log[|log| - 1].now)
  }

  predicate Fires(p: Pattern, log: seq<Tick>) {
    log != [] && log[|log| - 1].kind == p.kind && |AtLast(p, log)| >= p.threshold
  }

  function AlertOf(p: Pattern, log: seq<Tick>, event: Event): Alert
    requires log != []
  {
    Alert(p.name, p.severity, event.origin, event.eventId, |AtLast(p, log)|, p.threshold, p.window)
  }

  /** The alerts the last event of the log raises among the first `n` patterns. */
  function Alerts(log: seq<Tick>, event: Event, n: nat): seq<Alert>
    requires log != [] && n <= |PATTERNS|
  {
    if n == 0 then []
    else
      var rest := Alerts(log, event, n - 1);
      if Fires(PATTERNS[n - 1], log) then rest + [AlertOf(PATTERNS[n - 1], log, event)] else rest
  }

  class SecurityMonitor {
    var eventHistory: seq<Event>
    var patternCounters: map<PatternName, seq<real>>
    ghost var log: seq<Tick>

    /** A counter that was never touched reads as empty. */
    function CounterOf(name: PatternName): seq<real>
      reads this`patternCounters
    {
      if name in patternCounters then patternCounters[name] else []
    }

    ghost predicate Valid()
      reads this
    {
      forall k :: 0 <= k < |PATTERNS| ==> CounterOf(PATTERNS[k].name) == Counter(PATTERNS[k], log)
    }

    constructor ()
      ensures Valid() && log == [] && eventHistory == []
    {
      eventHistory, patternCounters, log := [], map[], [];
    }

    /** `popleft` while the front is older than `cutoff`. */
    method Prune(name: PatternName, cutoff: real)
      modifies this`patternCounters
      ensures CounterOf(name) == Pruned(old(CounterOf(name)), cutoff)
      ensures forall other :: other != name ==> CounterOf(other) == old(CounterOf(other))
    {
      while CounterOf(name) != [] && CounterOf(name)[0] < cutoff
        invariant Pruned(CounterOf(name), cutoff) == Pruned(old(CounterOf(name)), cutoff)
        invariant forall other :: other != name ==> CounterOf(other) == old(CounterOf(other))
        decreases |CounterOf(name)|
      {
        patternCounters := patternCounters[name := CounterOf(name)[1..]];
      }
    }

    /** One turn of the loop over the patterns: count a match, drop the old ones, alert and clear. */
    method Check(k: nat, event: Event, now: real) returns (alert: Option<Alert>)
      requires k < |PATTERNS|
      modifies this`patternCounters
      ensures forall other :: other != PATTERNS[k].name ==> CounterOf(other) == old(CounterOf(other))
      ensures var p := PATTERNS[k]; var q := old(CounterOf(p.name));
              && CounterOf(p.name) == Observed(p, q, event.kind, now)
              && alert == (if event.kind == p.kind && |Watched(p, q, now)| >= p.threshold
                           then Some(Alert(p.name, p.severity, event.origin, event.eventId, |Watched(p, q, now)|,
                             p.threshold, p.window))
                           else None)
    {
      var p := PATTERNS[k];
      alert := None;
      if event.kind == p.kind {
        patternCounters := patternCounters[p.name := Pushed(CounterOf(p.name), COUNTER_CAP, now)];
        assert forall other :: other != p.name ==> CounterOf(other) == old(CounterOf(other));
        Prune(p.name, now - p.window);
        assert forall other :: other != p.name ==> CounterOf(other) == old(CounterOf(other));
        if |CounterOf(p.name)| >= p.threshold {
          alert := Some(Alert(p.name, p.severity, event.origin, event.eventId, |CounterOf(p.name)|, p.threshold,
            p.window));
          patternCounters := patternCounters[p.name := []];
        }
      }
    }

    /** The first `k` counters have seen the whole of `full`, the others all but its last event. */
    ghost predicate SeenUpTo(full: seq<Tick>, k: nat)
      reads this
    {
      && full != []
      && (forall i: nat :: i < k && i < |PATTERNS| ==> CounterOf(PATTERNS[i].name) == Counter(PATTERNS[i], full))
      && (forall i: nat :: k <= i < |PATTERNS| ==>
           CounterOf(PATTERNS[i].name) == Counter(PATTERNS[i], full[..|full| - 1]))
    }

    method CheckNext(k: nat, event: Event, ghost full: seq<Tick>, now: real, alerts: seq<Alert>)
        returns (more: seq<Alert>)
      requires k < |PATTERNS| && SeenUpTo(full, k) && full[|full| - 1] == Tick(event.kind, now)
      requires alerts == Alerts(full, event, k)
      modifies this`patternCounters
      ensures SeenUpTo(full, k + 1) && more == Alerts(full, event, k + 1)
    {
      PatternsArePlausible(k);
      ghost var p := PATTERNS[k];
      assert CounterOf(p.name) == Counter(p, full[..|full| - 1]);
      var alert := Check(k, event, now);
      assert CounterOf(p.name) == Counter(p, full);
      more := if alert.Some? then alerts + [alert.value] else alerts;
    }

    method CheckAll(event: Event, ghost full: seq<Tick>, now: real) returns (alerts: seq<Alert>)
      requires SeenUpTo(full, 0) && full[|full| - 1] == Tick(event.kind, now)
      modifies this`patternCounters
      ensures SeenUpTo(full, |PATTERNS|) && alerts == Alerts(full, event, |PATTERNS|)
    {
      alerts := [];
      for k := 0 to |PATTERNS|
        invariant SeenUpTo(full, k) && alerts == Alerts(full, event, k)
      {
        alerts := CheckNext(k, event, full, now, alerts);
      }
    }

    method AnalyzeEvent(event: Event, now: real) returns (alerts: seq<Alert>)
      requires Valid()
      modifies this
      ensures Valid() && log == old(log) + [Tick(event.kind, now)]
      ensures var all := old(eventHistory) + [event];
              eventHistory == if |all| <= HISTORY_CAP then all else all[|all| - HISTORY_CAP..]
      ensures alerts == Alerts(log, event, |PATTERNS|)
      ensures Raised(log, event, alerts) && (Ordered(log) ==> RaisedNaively(log, event, alerts))
    {
      eventHistory := Pushed(eventHistory, HISTORY_CAP, event);
      log := log + [Tick(event.kind, now)];
      assert log[..|log| - 1] == old(log);
      alerts := CheckAll(event, log, now);
      AlertsRaised(log, event);
    }
  }

  // ---------------------------------------------------------------- what one event returns

  /** How many of the alerts are for the pattern `name`. */
  function Named(alerts: seq<Alert>, name: PatternName): nat {
    if alerts == [] then 0
    else Named(alerts[..|alerts| - 1], name) + if alerts[|alerts| - 1].pattern == name then 1 else 0
  }

  /** An alert of `p` about `event`, with `count` events behind it. */
  ghost predicate IsAlertOf(a: Alert, p: Pattern, event: Event, count: nat) {
    && a.pattern == p.name && a.severity == p.severity && a.threshold == p.threshold && a.window == p.window
    && a.origin == event.origin && a.correlationId == event.eventId && a.count == count
  }

  /** `a` is what the k-th pattern raises, by its deque or by recounting. */
  ghost predicate IsDequeAlert(a: Alert, k: nat, log: seq<Tick>, event: Event)
    requires log != []
  {
    k < |PATTERNS| && Fires(PATTERNS[k], log) && IsAlertOf(a, PATTERNS[k], event, |AtLast(PATTERNS[k], log)|)
  }

  ghost predicate IsNaiveAlert(a: Alert, k: nat, log: seq<Tick>, event: Event)
    requires log != []
  {
    k < |PATTERNS| && NaiveFires(PATTERNS[k], log) && IsAlertOf(a, PATTERNS[k], event, |Recount(PATTERNS[k], log)|)
  }

  /** One alert for each pattern whose deque reaches its threshold, and nothing else. */
  ghost predicate Raised(log: seq<Tick>, event: Event, alerts: seq<Alert>)
    requires log != []
  {
    && (forall k: nat :: k < |PATTERNS| ==>
         Named(alerts, PATTERNS[k].name) == if Fires(PATTERNS[k], log) then 1 else 0)
    && (forall a :: a in alerts ==> exists k: nat :: IsDequeAlert(a, k, log, event))
  }

  /** One alert for each pattern whose recount reaches its threshold, and nothing else. */
  ghost predicate RaisedNaively(log: seq<Tick>, event: Event, alerts: seq<Alert>)
    requires log != []
  {
    && (forall k: nat :: k < |PATTERNS| ==>
         Named(alerts, PATTERNS[k].name) == if NaiveFires(PATTERNS[k], log) then 1 else 0)
    && (forall a :: a in alerts ==> exists k: nat :: IsNaiveAlert(a, k, log, event))
  }

  lemma NamedSnoc(alerts: seq<Alert>, a: Alert, name: PatternName)
    ensures Named(alerts + [a], name) == Named(alerts, name) + if a.pattern == name then 1 else 0
  {
    assert (alerts + [a])[..|alerts|] == alerts;
  }

  lemma {:induction false} NamedAlerts(log: seq<Tick>, event: Event, n: nat, k: nat)
    requires log != [] && n <= |PATTERNS| && k < |PATTERNS|
    ensures Named(Alerts(log, event, n), PATTERNS[k].name) == if k < n && Fires(PATTERNS[k], log) then 1 else 0
  {
    if n > 0 {
      NamedAlerts(log, event, n - 1, k);
      PatternsArePlausible(k);
      NamedSnoc(Alerts(log, event, n - 1), AlertOf(PATTERNS[n - 1], log, event), PATTERNS[k].name);
    }
  }

  lemma {:induction false} AlertsAreOf(log: seq<Tick>, event: Event, n: nat, a: Alert)
    requires log != [] && n <= |PATTERNS| && a in Alerts(log, event, n)
    ensures exists k: nat :: IsDequeAlert(a, k, log, event)
  {
    if n > 0 {
      if a in Alerts(log, event, n - 1) {
        AlertsAreOf(log, event, n - 1, a);
      } else {
        assert IsDequeAlert(a, n - 1, log, event);
      }
    }
  }

  lemma AlertsRaised(log: seq<Tick>, event: Event)
    requires log != []
    ensures Raised(log, event, Alerts(log, event, |PATTERNS|))
    ensures Ordered(log) ==> RaisedNaively(log, event, Alerts(log, event, |PATTERNS|))
  {
    var alerts := Alerts(log, event, |PATTERNS|);
    forall k: nat | k < |PATTERNS|
      ensures Named(alerts, PATTERNS[k].name) == if Fires(PATTERNS[k], log) then 1 else 0
      ensures Ordered(log) ==> (Fires(PATTERNS[k], log) <==> NaiveFires(PATTERNS[k], log))
    {
      NamedAlerts(log, event, |PATTERNS|, k);
      NaivelyToo(k, log);
    }
    forall a | a in alerts
      ensures exists k: nat :: IsDequeAlert(a, k, log, event)
      ensures Ordered(log) ==> exists k: nat :: IsNaiveAlert(a, k, log, event)
    {
      AlertsAreOf(log, event, |PATTERNS|, a);
      var k: nat :| IsDequeAlert(a, k, log, event);
      NaivelyToo(k, log);
      assert Ordered(log) ==> IsNaiveAlert(a, k, log, event);
    }
  }

  lemma NaivelyToo(k: nat, log: seq<Tick>)
    requires k < |PATTERNS| && log != []
    ensures Ordered(log) ==> (Fires(PATTERNS[k], log) <==> NaiveFires(PATTERNS[k], log))
    ensures Ordered(log) && Fires(PATTERNS[k], log) ==> AtLast(PATTERNS[k], log) == Recount(PATTERNS[k], log)
  {
    PatternsArePlausible(k);
    if Ordered(log) {
      AlertsAreTheNaiveOnes(PATTERNS[k], log);
    }
  }

  /** How many of the alerts the first `n` events returned are for the pattern `name`. */
  function NamedInAll(returned: seq<seq<Alert>>, name: PatternName, n: nat): nat
    requires n <= |returned|
  {
    if n == 0 then 0 else NamedInAll(returned, name, n - 1) + Named(returned[n - 1], name)
  }

  /** What each event of the log returned, on a clock that never steps back. */
  ghost predicate AllRaised(log: seq<Tick>, events: seq<Event>, returned: seq<seq<Alert>>) {
    && |events| == |log| == |returned|
    && (forall i: nat :: i < |log| ==> RaisedNaively(log[..i + 1], events[i], returned[i]))
  }

  /** Over a whole log, the alerts returned for a pattern are as many as its recount asks for. */
  lemma {:induction false} ReturnedAlertsCount(k: nat, log: seq<Tick>, events: seq<Event>, returned: seq<seq<Alert>>,
          n: nat)
    requires k < |PATTERNS| && Ordered(log) && AllRaised(log, events, returned) && n <= |log|
    ensures NamedInAll(returned, PATTERNS[k].name, n) == AlertCount(PATTERNS[k], log[..n])
  {
    if n > 0 {
      ReturnedAlertsCount(k, log, events, returned, n - 1);
      assert log[..n][..n - 1] == log[..n - 1];
      assert RaisedNaively(log[..(n - 1) + 1], events[n - 1], returned[n - 1]);
      NaivelyToo(k, log[..n]);
    }
  }

  // ---------------------------------------------------------------- the naive detector

  function Matching(p: Pattern, log: seq<Tick>): (r: seq<real>)
    ensures |r| <= |log|
  {
    if log == [] then []
    else
      var rest := Matching(p, log[..|log| - 1]);
      if log[|log| - 1].kind == p.kind then rest + [log[|log| - 1].now] else rest
  }

  function Within(times: seq<real>, cutoff: real): (r: seq<real>)
    ensures |r| <= |times|
  {
    if times == [] then []
    else
      var rest := Within(times[..|times| - 1], cutoff);
      if times[|times| - 1] >= cutoff then rest + [times[|times| - 1]] else rest
  }

  /** The events after the last alert of a detector that keeps everything and recounts each time. */
  function SinceAlert(p: Pattern, log: seq<Tick>): seq<Tick> {
    if log == [] then []
    else
      var last := log[|log| - 1];
      var run := SinceAlert(p, log[..|log| - 1]) + [last];
      if last.kind == p.kind && |Within(Matching(p, run), last.now - p.window)| >= p.threshold then [] else run
  }

  /** The matching timestamps since the last alert that lie in the window ending now. */
  function Recount(p: Pattern, log: seq<Tick>): seq<real>
    requires log != []
  {
    var last := log[|log| - 1];
    Within(Matching(p, SinceAlert(p, log[..|log| - 1]) + [last]), last.now - p.window)
  }

  predicate NaiveFires(p: Pattern, log: seq<Tick>) {
    log != [] && log[|log| - 1].kind == p.kind && |Recount(p, log)| >= p.threshold
  }

  predicate Plausible(p: Pattern) {
    0 < p.threshold <= COUNTER_CAP && 0.0 <= p.window
  }

  /** The clock never steps back. */
  predicate Ordered(log: seq<Tick>) {
    forall i, j :: 0 <= i < j < |log| ==> log[i].now <= log[j].now
  }

  predicate Before(log: seq<Tick>, now: real) {
    forall i :: 0 <= i < |log| ==> log[i].now <= now
  }

  predicate Sorted(times: seq<real>) {
    forall i, j :: 0 <= i < j < |times| ==> times[i] <= times[j]
  }

  lemma {:induction false} PrunedIsWithin(q: seq<real>, cutoff: real)
    requires Sorted(q)
    ensures Pruned(q, cutoff) == Within(q, cutoff)
  {
    if q != [] {
      if q[0] < cutoff {
        PrunedIsWithin(q[1..], cutoff);
        WithinSplit([q[0]], q[1..], cutoff);
        assert [q[0]] + q[1..] == q;
      } else {
        WithinAll(q, cutoff);
      }
    }
  }

  lemma {:induction false} WithinSplit(a: seq<real>, b: seq<real>, cutoff: real)
    ensures Within(a + b, cutoff) == Within(a, cutoff) + Within(b, cutoff)
  {
    if b == [] {
      assert a + b == a;
    } else {
      var n := |b| - 1;
      WithinSplit(a, b[..n], cutoff);
      assert (a + b)[..|a + b| - 1] == a + b[..n];
    }
  }

  lemma {:induction false} WithinAll(q: seq<real>, cutoff: real)
    requires forall i :: 0 <= i < |q| ==> q[i] >= cutoff
    ensures Within(q, cutoff) == q
  {
    if q != [] {
      WithinAll(q[..|q| - 1], cutoff);
    }
  }

  lemma {:induction false} WithinTwice(q: seq<real>, early: real, late: real)
    requires early <= late
    ensures Within(Within(q, early), late) == Within(q, late)
  {
    if q != [] {
      var rest, last := q[..|q| - 1], q[|q| - 1];
      WithinTwice(rest, early, late);
      if last >= early {
        WithinSplit(Within(rest, early), [last], late);
      }
    }
  }

  lemma {:induction false} WithinSorted(q: seq<real>, cutoff: real, top: real)
    requires Sorted(q) && forall i :: 0 <= i < |q| ==> q[i] <= top
    ensures Sorted(Within(q, cutoff)) && forall i :: 0 <= i < |Within(q, cutoff)| ==> Within(q, cutoff)[i] <= top
    ensures |Within(q, cutoff)| <= |q|
  {
    if q != [] {
      WithinSorted(q[..|q| - 1], cutoff, q[|q| - 1]);
    }
  }

  /** Counter and events agree, as far as any reading at or after `now` can tell. */
  ghost predicate Agree(p: Pattern, q: seq<real>, since: seq<Tick>, now: real) {
    && Sorted(q) && |q| < p.threshold && (forall i :: 0 <= i < |q| ==> q[i] <= now)
    && Within(q, now - p.window) == Within(Matching(p, since), now - p.window)
  }

  ghost predicate Tracks(p: Pattern, log: seq<Tick>, now: real) {
    Agree(p, Counter(p, log), SinceAlert(p, log), now)
  }

  lemma WatchedIsWithin(p: Pattern, q: seq<real>, t: real)
    requires Plausible(p) && Sorted(q) && |q| < p.threshold && forall i :: 0 <= i < |q| ==> q[i] <= t
    ensures var seen := Watched(p, q, t);
            && seen == Within(q, t - p.window) + [t] && Sorted(seen) && |seen| <= p.threshold
            && forall i :: 0 <= i < |seen| ==> seen[i] <= t
  {
    assert Pushed(q, COUNTER_CAP, t) == q + [t];
    PrunedIsWithin(q + [t], t - p.window);
    WithinSplit(q, [t], t - p.window);
    WithinSorted(q, t - p.window, t);
  }

  lemma MatchingMore(p: Pattern, since: seq<Tick>, last: Tick)
    requires 0.0 <= p.window && last.kind == p.kind
    ensures Within(Matching(p, since + [last]), last.now - p.window) ==
              Within(Matching(p, since), last.now - p.window) + [last.now]
  {
    assert (since + [last])[..|since|] == since;
    WithinSplit(Matching(p, since), [last.now], last.now - p.window);
  }

  /** A counter that tracked the log so far is the naive list once the next match is counted. */
  lemma OneMatch(p: Pattern, log: seq<Tick>)
    requires Plausible(p) && log != [] && log[|log| - 1].kind == p.kind
    requires Tracks(p, log[..|log| - 1], log[|log| - 1].now)
    ensures AtLast(p, log) == Recount(p, log) && Sorted(AtLast(p, log)) && |AtLast(p, log)| <= p.threshold
    ensures forall i :: 0 <= i < |AtLast(p, log)| ==> AtLast(p, log)[i] <= log[|log| - 1].now
  {
    WatchedIsWithin(p, Counter(p, log[..|log| - 1]), log[|log| - 1].now);
    MatchingMore(p, SinceAlert(p, log[..|log| - 1]), log[|log| - 1]);
  }

  lemma LaterWithin(times: seq<real>, early: real, late: real, q: seq<real>)
    requires early <= late && q == Within(times, early)
    ensures Within(q, late) == Within(times, late)
  {
    WithinTwice(times, early, late);
  }

  lemma LaterAgree(p: Pattern, q: seq<real>, since: seq<Tick>, earlier: real, now: real)
    requires earlier <= now && |q| < p.threshold && Sorted(q) && forall i :: 0 <= i < |q| ==> q[i] <= earlier
    requires q == Within(Matching(p, since), earlier - p.window)
    ensures Agree(p, q, since, now)
  {
    LaterWithin(Matching(p, since), earlier - p.window, now - p.window, q);
  }

  lemma MatchTracks(p: Pattern, log: seq<Tick>, now: real)
    requires Plausible(p) && log != [] && log[|log| - 1].kind == p.kind && log[|log| - 1].now <= now
    requires Tracks(p, log[..|log| - 1], log[|log| - 1].now)
    ensures Tracks(p, log, now)
  {
    OneMatch(p, log);
    if !NaiveFires(p, log) {
      LaterAgree(p, AtLast(p, log), SinceAlert(p, log[..|log| - 1]) + [log[|log| - 1]], log[|log| - 1].now, now);
    }
  }

  lemma OtherTracks(p: Pattern, log: seq<Tick>, now: real)
    requires log != [] && log[|log| - 1].kind != p.kind && Tracks(p, log[..|log| - 1], now)
    ensures Tracks(p, log, now)
  {
    var since := SinceAlert(p, log[..|log| - 1]);
    assert (since + [log[|log| - 1]])[..|since|] == since;
  }

  lemma {:induction false} CounterTracks(p: Pattern, log: seq<Tick>, now: real)
    requires Plausible(p) && Ordered(log) && Before(log, now)
    ensures Tracks(p, log, now)
    decreases |log|
  {
    if log != [] {
      var earlier, last := log[..|log| - 1], log[|log| - 1];
      if last.kind == p.kind {
        CounterTracks(p, earlier, last.now);
        MatchTracks(p, log, now);
      } else {
        CounterTracks(p, earlier, now);
        OtherTracks(p, log, now);
      }
    }
  }

  /**
   * The deque is the naive list, and an alert fires exactly when that list reaches the threshold;
   * the count an alert carries is the threshold itself, so the cap on the deque never cuts.
   */
  lemma AlertsAreTheNaiveOnes(p: Pattern, log: seq<Tick>)
    requires Plausible(p) && Ordered(log) && log != []
    ensures Fires(p, log) <==> NaiveFires(p, log)
    ensures log[|log| - 1].kind == p.kind ==> AtLast(p, log) == Recount(p, log)
    ensures Fires(p, log) ==> |AtLast(p, log)| == p.threshold
    ensures |Counter(p, log)| < p.threshold <= COUNTER_CAP
  {
    CounterTracks(p, log, log[|log| - 1].now);
    CounterTracks(p, log[..|log| - 1], log[|log| - 1].now);
    if log[|log| - 1].kind == p.kind {
      OneMatch(p, log);
    }
  }

  lemma PatternsArePlausible(k: nat)
    requires k < |PATTERNS|
    ensures Plausible(PATTERNS[k])
    ensures forall i :: 0 <= i < |PATTERNS| && i != k ==>
              PATTERNS[i].name != PATTERNS[k].name && PATTERNS[i].kind != PATTERNS[k].kind
  {
  }

  // ---------------------------------------------------------------- how many alerts

  function AlertCount(p: Pattern, log: seq<Tick>): nat {
    if log == [] then 0 else AlertCount(p, log[..|log| - 1]) + if Fires(p, log) then 1 else 0
  }

  lemma {:induction false} PrunedIsShorter(q: seq<real>, cutoff: real)
    ensures |Pruned(q, cutoff)| <= |q|
  {
    if q != [] && q[0] < cutoff {
      PrunedIsShorter(q[1..], cutoff);
    }
  }

  lemma CountOne(p: Pattern, log: seq<Tick>)
    requires log != []
    ensures AlertCount(p, log) * p.threshold ==
            AlertCount(p, log[..|log| - 1]) * p.threshold + if Fires(p, log) then p.threshold else 0
  {
    var before := AlertCount(p, log[..|log| - 1]);
    if Fires(p, log) {
      Distributes(before, p.threshold);
    }
  }

  lemma Distributes(a: nat, b: nat)
    ensures (a + 1) * b == a * b + b
  {
  }

  lemma OneEventEarned(p: Pattern, log: seq<Tick>)
    requires log != []
    ensures (if Fires(p, log) then p.threshold else 0) + |Counter(p, log)| <=
            |Counter(p, log[..|log| - 1])| + if log[|log| - 1].kind == p.kind then 1 else 0
  {
    if log[|log| - 1].kind == p.kind {
      PrunedIsShorter(Pushed(Counter(p, log[..|log| - 1]), COUNTER_CAP, log[|log| - 1].now),
        log[|log| - 1].now - p.window);
    }
  }

  /** Each alert uses up `threshold` matching events of its own, whatever the clock does. */
  lemma {:induction false} AlertsAreEarned(p: Pattern, log: seq<Tick>)
    ensures AlertCount(p, log) * p.threshold + |Counter(p, log)| <= |Matching(p, log)|
    decreases |log|
  {
    if log != [] {
      AlertsAreEarned(p, log[..|log| - 1]);
      OneEventEarned(p, log);
      CountOne(p, log);
    }
  }

  /** No timestamp the log could hold is older than the window that ends with its last event. */
  predicate Burst(p: Pattern, log: seq<Tick>) {
    log != [] ==> log[|log| - 1].now - log[0].now <= p.window
  }

  ghost predicate Fresh(p: Pattern, log: seq<Tick>) {
    forall i :: 0 <= i < |Counter(p, log)| ==> log != [] && log[0].now <= Counter(p, log)[i]
  }

  lemma OneEventInBurst(p: Pattern, log: seq<Tick>)
    requires Plausible(p) && Ordered(log) && Burst(p, log) && log != []
    requires Fresh(p, log[..|log| - 1]) && |Counter(p, log[..|log| - 1])| < p.threshold
    ensures Fresh(p, log) && |Counter(p, log)| < p.threshold
    ensures (if Fires(p, log) then p.threshold else 0) + |Counter(p, log)| ==
            |Counter(p, log[..|log| - 1])| + if log[|log| - 1].kind == p.kind then 1 else 0
  {
    var q, t := Counter(p, log[..|log| - 1]), log[|log| - 1].now;
    assert Pushed(q, COUNTER_CAP, t) == q + [t];
    assert (q + [t])[0] >= log[0].now;
    assert Pruned(q + [t], t - p.window) == q + [t];
  }

  /**
   * Inside one window nothing is ever dropped: every `threshold`-th match raises an alert, and the
   * counter holds the remainder.
   */
  lemma {:induction false} BurstsAlertOnTime(p: Pattern, log: seq<Tick>)
    requires Plausible(p) && Ordered(log) && Burst(p, log)
    ensures AlertCount(p, log) * p.threshold + |Counter(p, log)| == |Matching(p, log)|
    ensures |Counter(p, log)| < p.threshold && Fresh(p, log)
    decreases |log|
  {
    if log != [] {
      BurstsAlertOnTime(p, log[..|log| - 1]);
      OneEventInBurst(p, log);
      CountOne(p, log);
    }
  }

  // ---------------------------------------------------------------- any clock at all

  /** The events after the deque's own last alert. */
  function SinceFired(p: Pattern, log: seq<Tick>): seq<Tick> {
    if log == [] || Fires(p, log) then [] else SinceFired(p, log[..|log| - 1]) + [log[|log| - 1]]
  }

  /** Once an entry is inside the window, everything behind it is. */
  predicate NoStaleBehindFresh(q: seq<real>, cutoff: real) {
    forall i, j :: 0 <= i < j < |q| && q[i] >= cutoff ==> q[j] >= cutoff
  }

  predicate AllStale(q: seq<real>, cutoff: real) {
    forall i :: 0 <= i < |q| ==> q[i] < cutoff
  }

  lemma {:induction false} WithinStale(q: seq<real>, cutoff: real)
    ensures Within(q, cutoff) == [] <==> AllStale(q, cutoff)
  {
    if q != [] {
      WithinStale(q[..|q| - 1], cutoff);
    }
  }

  lemma {:induction false} WithinIsWithin(q: seq<real>, cutoff: real)
    ensures forall i :: 0 <= i < |Within(q, cutoff)| ==> Within(q, cutoff)[i] >= cutoff
  {
    if q != [] {
      WithinIsWithin(q[..|q| - 1], cutoff);
    }
  }

  lemma WithinTail(q: seq<real>, cutoff: real)
    requires q != [] && q[0] < cutoff
    ensures Within(q, cutoff) == Within(q[1..], cutoff)
  {
    WithinSplit([q[0]], q[1..], cutoff);
    assert [q[0]] + q[1..] == q;
  }

  /** Dropping from the front is filtering exactly when no stale entry stands behind a fresh one. */
  lemma {:induction false} PruningFiltersIff(q: seq<real>, cutoff: real)
    ensures Pruned(q, cutoff) == Within(q, cutoff) <==> NoStaleBehindFresh(q, cutoff)
  {
    if q != [] {
      if q[0] < cutoff {
        PruningFiltersIff(q[1..], cutoff);
        WithinTail(q, cutoff);
        assert NoStaleBehindFresh(q, cutoff) <==> NoStaleBehindFresh(q[1..], cutoff) by {
          TailKeepsOrder(q, cutoff);
        }
      } else if NoStaleBehindFresh(q, cutoff) {
        WithinAll(q, cutoff);
      } else {
        WithinIsWithin(q, cutoff);
      }
    }
  }

  lemma TailKeepsOrder(q: seq<real>, cutoff: real)
    requires q != [] && q[0] < cutoff
    ensures NoStaleBehindFresh(q, cutoff) <==> NoStaleBehindFresh(q[1..], cutoff)
  {
    if NoStaleBehindFresh(q[1..], cutoff) {
      forall i, j | 0 <= i < j < |q| && q[i] >= cutoff
        ensures q[j] >= cutoff
      {
        assert q[1..][i - 1] == q[i] && q[1..][j - 1] == q[j];
      }
    }
  }

  ghost predicate SuffixOf(q: seq<real>, all: seq<real>) {
    |q| <= |all| && q == all[|all| - |q|..]
  }

  lemma SuffixSnoc(q: seq<real>, all: seq<real>, t: real)
    requires SuffixOf(q, all)
    ensures SuffixOf(q + [t], all + [t])
  {
  }

  lemma SuffixOfSuffix(r: seq<real>, q: seq<real>, all: seq<real>)
    requires SuffixOf(r, q) && SuffixOf(q, all)
    ensures SuffixOf(r, all)
  {
  }

  lemma {:induction false} PrunedIsSuffix(q: seq<real>, cutoff: real)
    ensures SuffixOf(Pruned(q, cutoff), q)
  {
    if q != [] && q[0] < cutoff {
      PrunedIsSuffix(q[1..], cutoff);
      SuffixOfSuffix(Pruned(q, cutoff), q[1..], q);
    }
  }

  /** The matching timestamps since the deque's last alert, and how many of them it has let go. */
  function Candidates(p: Pattern, log: seq<Tick>): seq<real> {
    Matching(p, SinceFired(p, log))
  }

  lemma {:induction false} CounterIsSuffix(p: Pattern, log: seq<Tick>)
    requires Plausible(p)
    ensures |Counter(p, log)| < p.threshold && SuffixOf(Counter(p, log), Candidates(p, log))
    decreases |log|
  {
    if log != [] {
      CounterIsSuffix(p, log[..|log| - 1]);
      SuffixStep(p, log);
    }
  }

  lemma MatchingSnoc(p: Pattern, since: seq<Tick>, last: Tick)
    ensures Matching(p, since + [last]) == Matching(p, since) + (if last.kind == p.kind then [last.now] else [])
  {
    assert (since + [last])[..|since|] == since;
  }

  lemma SuffixStep(p: Pattern, log: seq<Tick>)
    requires Plausible(p) && log != []
    requires |Counter(p, log[..|log| - 1])| < p.threshold
    requires SuffixOf(Counter(p, log[..|log| - 1]), Candidates(p, log[..|log| - 1]))
    ensures |Counter(p, log)| < p.threshold && SuffixOf(Counter(p, log), Candidates(p, log))
  {
    var earlier, last := log[..|log| - 1], log[|log| - 1];
    var q, all := Counter(p, earlier), Candidates(p, earlier);
    MatchingSnoc(p, SinceFired(p, earlier), last);
    if last.kind == p.kind && !Fires(p, log) {
      assert Pushed(q, COUNTER_CAP, last.now) == q + [last.now];
      SuffixSnoc(q, all, last.now);
      PrunedIsSuffix(q + [last.now], last.now - p.window);
      SuffixOfSuffix(AtLast(p, log), q + [last.now], all + [last.now]);
    }
  }

  /** The naive list of a matching event: recounted since the last alert the deque raised. */
  function FullCount(p: Pattern, log: seq<Tick>): seq<real>
    requires log != []
  {
    var last := log[|log| - 1];
    Within(Candidates(p, log[..|log| - 1]) + [last.now], last.now - p.window)
  }

  /**
   * What the clock must not have done, checkable before the event is counted: nothing the deque let
   * go is inside the window again, and in the deque no stale entry stands behind a fresh one.
   */
  predicate Steady(p: Pattern, log: seq<Tick>)
    requires log != []
  {
    var earlier, t := log[..|log| - 1], log[|log| - 1].now;
    var q, all := Counter(p, earlier), Candidates(p, earlier);
    && |q| <= |all|
    && AllStale(all[..|all| - |q|], t - p.window)
    && NoStaleBehindFresh(q + [t], t - p.window)
  }

  lemma SplitCountIff(gone: seq<real>, q: seq<real>, cutoff: real)
    ensures Pruned(q, cutoff) == Within(gone + q, cutoff) <==> AllStale(gone, cutoff) && NoStaleBehindFresh(q, cutoff)
  {
    WithinSplit(gone, q, cutoff);
    WithinStale(gone, cutoff);
    PruningFiltersIff(q, cutoff);
    if Pruned(q, cutoff) == Within(gone + q, cutoff) {
      WithinIsWithin(gone + q, cutoff);
      PrunedFreshIsWithin(q, cutoff);
    }
  }

  predicate AllFresh(q: seq<real>, cutoff: real) {
    forall i :: 0 <= i < |q| ==> q[i] >= cutoff
  }

  lemma {:induction false} PrunedFreshIsWithin(q: seq<real>, cutoff: real)
    requires AllFresh(Pruned(q, cutoff), cutoff)
    ensures Pruned(q, cutoff) == Within(q, cutoff)
  {
    if q != [] {
      if q[0] < cutoff {
        assert Pruned(q, cutoff) == Pruned(q[1..], cutoff);
        PrunedFreshIsWithin(q[1..], cutoff);
        WithinTail(q, cutoff);
      } else {
        assert Pruned(q, cutoff) == q;
        WithinAll(q, cutoff);
      }
    }
  }

  /** At a matching event, on any clock, the deque is the naive list if and only if it was steady. */
  lemma DequeIsNaiveIff(p: Pattern, log: seq<Tick>)
    requires Plausible(p) && log != [] && log[|log| - 1].kind == p.kind
    ensures AtLast(p, log) == FullCount(p, log) <==> Steady(p, log)
  {
    var earlier, t := log[..|log| - 1], log[|log| - 1].now;
    CounterIsSuffix(p, earlier);
    var q, all := Counter(p, earlier), Candidates(p, earlier);
    var gone := all[..|all| - |q|];
    assert Pushed(q, COUNTER_CAP, t) == q + [t];
    assert all + [t] == gone + (q + [t]);
    SplitCountIff(gone, q + [t], t - p.window);
  }

  ghost predicate SteadyThroughout(p: Pattern, log: seq<Tick>) {
    forall n :: 0 < n <= |log| && log[n - 1].kind == p.kind ==> Steady(p, log[..n])
  }

  ghost predicate SameListsThroughout(p: Pattern, log: seq<Tick>) {
    forall n :: 0 < n <= |log| && log[n - 1].kind == p.kind ==> AtLast(p, log[..n]) == Recount(p, log[..n])
  }

  lemma PrefixSteady(p: Pattern, log: seq<Tick>)
    requires log != []
    ensures SteadyThroughout(p, log) <==>
            SteadyThroughout(p, log[..|log| - 1]) && (log[|log| - 1].kind == p.kind ==> Steady(p, log))
  {
    var earlier := log[..|log| - 1];
    assert log[..|log|] == log;
    assert forall n :: 0 <= n < |log| ==> earlier[..n] == log[..n];
    if SteadyThroughout(p, log) {
      forall n | 0 < n <= |earlier| && earlier[n - 1].kind == p.kind
        ensures Steady(p, earlier[..n])
      {
        assert Steady(p, log[..n]);
      }
    }
  }

  lemma PrefixSame(p: Pattern, log: seq<Tick>)
    requires log != []
    ensures SameListsThroughout(p, log) <==>
            SameListsThroughout(p, log[..|log| - 1]) &&
              (log[|log| - 1].kind == p.kind ==> AtLast(p, log) == Recount(p, log))
  {
    var earlier := log[..|log| - 1];
    assert log[..|log|] == log;
    assert forall n :: 0 <= n < |log| ==> earlier[..n] == log[..n];
    if SameListsThroughout(p, log) {
      forall n | 0 < n <= |earlier| && earlier[n - 1].kind == p.kind
        ensures AtLast(p, earlier[..n]) == Recount(p, earlier[..n])
      {
        assert AtLast(p, log[..n]) == Recount(p, log[..n]);
      }
    }
  }

  /** As long as the lists agreed, both detectors alerted at the same events. */
  lemma {:induction false} SameAlerts(p: Pattern, log: seq<Tick>)
    requires SameListsThroughout(p, log)
    ensures SinceFired(p, log) == SinceAlert(p, log) && (Fires(p, log) <==> NaiveFires(p, log))
    decreases |log|
  {
    if log != [] {
      PrefixSame(p, log);
      SameAlerts(p, log[..|log| - 1]);
    }
  }

  /**
   * On a log with any clock whatever, the deque is the naive list at every matching event, and so
   * every alert is the naive one, if and only if the clock was steady at each of them.
   */
  lemma {:induction false} DetectorsAgreeIff(p: Pattern, log: seq<Tick>)
    requires Plausible(p)
    ensures SameListsThroughout(p, log) <==> SteadyThroughout(p, log)
    ensures SteadyThroughout(p, log) ==> forall n :: 0 <= n <= |log| ==>
              (Fires(p, log[..n]) <==> NaiveFires(p, log[..n]))
    decreases |log|
  {
    if log != [] {
      var earlier := log[..|log| - 1];
      DetectorsAgreeIff(p, earlier);
      PrefixSteady(p, log);
      PrefixSame(p, log);
      if SameListsThroughout(p, earlier) && log[|log| - 1].kind == p.kind {
        SameAlerts(p, earlier);
        DequeIsNaiveIff(p, log);
        MatchingSnoc(p, SinceAlert(p, earlier), log[|log| - 1]);
      }
      AgreeSoFar(p, log);
    }
  }

  lemma AgreeSoFar(p: Pattern, log: seq<Tick>)
    ensures SameListsThroughout(p, log) ==> forall n :: 0 <= n <= |log| ==>
              (Fires(p, log[..n]) <==> NaiveFires(p, log[..n]))
  {
    if SameListsThroughout(p, log) {
      forall n | 0 <= n <= |log|
        ensures Fires(p, log[..n]) <==> NaiveFires(p, log[..n])
      {
        assert forall m :: 0 <= m <= n ==> log[..n][..m] == log[..m];
        forall m | 0 < m <= n && log[..n][m - 1].kind == p.kind
          ensures AtLast(p, log[..n][..m]) == Recount(p, log[..n][..m])
        {
          assert AtLast(p, log[..m]) == Recount(p, log[..m]);
        }
        SameAlerts(p, log[..n]);
      }
    }
  }

  /** A clock that never steps back is steady. */
  lemma OrderedIsSteady(p: Pattern, log: seq<Tick>)
    requires Plausible(p) && Ordered(log)
    ensures SteadyThroughout(p, log)
  {
    forall n | 0 < n <= |log| && log[n - 1].kind == p.kind
      ensures AtLast(p, log[..n]) == Recount(p, log[..n])
    {
      AlertsAreTheNaiveOnes(p, log[..n]);
    }
    DetectorsAgreeIff(p, log);
  }

  const POLICY := Pattern(SecurityPolicyChanges, SecuritySettingChange, 3, 300.0, High)
  const FIRST := Tick(SecuritySettingChange, 1000.0)
  const SECOND := Tick(SecuritySettingChange, 0.0)
  const THIRD := Tick(SecuritySettingChange, 1200.0)

  lemma OneTick()
    ensures Counter(POLICY, [FIRST]) == [1000.0] && SinceAlert(POLICY, [FIRST]) == [FIRST]
  {
    assert [FIRST][..0] == [];
    assert Counter(POLICY, []) == [] && SinceAlert(POLICY, []) == [];
    assert Pushed([], COUNTER_CAP, 1000.0) == [1000.0];
    assert |Matching(POLICY, [] + [FIRST])| <= 1;
  }

  lemma SteppedBackCounter()
    ensures Counter(POLICY, [FIRST, SECOND]) == [1000.0, 0.0]
  {
    OneTick();
    assert [FIRST, SECOND][..1] == [FIRST];
    assert Pushed([1000.0], COUNTER_CAP, 0.0) == [1000.0, 0.0];
    assert Pruned([1000.0, 0.0], -300.0) == [1000.0, 0.0];
  }

  lemma SteppedBackSince()
    ensures SinceAlert(POLICY, [FIRST, SECOND]) == [FIRST, SECOND]
  {
    OneTick();
    assert [FIRST, SECOND][..1] == [FIRST];
    assert |Matching(POLICY, [FIRST] + [SECOND])| <= 2;
  }

  lemma SteppedBackRecount()
    ensures |Within(Matching(POLICY, [FIRST, SECOND] + [THIRD]), 900.0)| < 3
  {
    assert [FIRST, SECOND][..1] == [FIRST];
    var two := Matching(POLICY, [FIRST, SECOND]);
    assert |two| == 2 && two[1] == 0.0;
    assert |Within(two, 900.0)| < 2;
    MatchingMore(POLICY, [FIRST, SECOND], THIRD);
  }

  /** A clock that steps back hides stale entries behind a newer front: the two then disagree. */
  lemma SteppingBackBreaksTheWindow()
    ensures Fires(POLICY, [FIRST, SECOND, THIRD]) && !NaiveFires(POLICY, [FIRST, SECOND, THIRD])
  {
    SteppedBackCounter();
    SteppedBackSince();
    SteppedBackRecount();
    assert [FIRST, SECOND, THIRD][..2] == [FIRST, SECOND];
    assert [FIRST, SECOND] + [THIRD] == [FIRST, SECOND, THIRD];
  }
}
