/**
 * The capacity check of `submit` and its recording step are two critical sections with a network
 * call between them, so submits overlap. How far past `max_blocks` that can go, exactly.
 */
module Capacity {
  import opened Collections
  import opened ProviderModel

  /** `inFlight` submits have passed their check and have not recorded their resource yet. */
  datatype Overlap = Overlap(st: ProviderState, inFlight: set<JobId>)

  datatype Move =
    | Check(job: JobId)
    | Commit(job: JobId, launch: Launch)
    | Poll(keys: seq<Option<JobId>>, answer: ModeAnswer, pollRun: CleanupRun)
    | ScaleIn(blocks: int, answer: ModeAnswer, scaleRun: CleanupRun)

  /** At most `k` submits are ever between their check and their recording step. */
  ghost predicate Allowed(cfg: Config, k: nat, s: Overlap, m: Move) {
    match m
    case Check(job) => |s.st.order| < cfg.maxBlocks && job !in s.inFlight && |s.inFlight| < k
    case Commit(job, launch) => job in s.inFlight && LaunchPossible(cfg, s.st, launch)
    case Poll(_, _, _) => PoolSizable(cfg, s.st)
    case ScaleIn(_, _, _) => PoolSizable(cfg, s.st)
  }

  ghost function Moved(cfg: Config, k: nat, s: Overlap, m: Move): Overlap
    requires Allowed(cfg, k, s, m)
  {
    match m
    case Check(job) => s.(inFlight := s.inFlight + {job})
    case Commit(job, launch) => Overlap(AfterLaunch(cfg, s.st, job, launch), s.inFlight - {job})
    case Poll(keys, answer, run) => s.(st := StatusStep(cfg, Unsaved(s.st), keys, answer, NEITHER, run).live)
    case ScaleIn(blocks, answer, run) => s.(st := ScaleInStep(cfg, Unsaved(s.st), blocks, answer, run, NEITHER).live)
  }

  /** Saves change nothing that counts here. */
  const NEITHER := Saves(false, false)

  function Unsaved(st: ProviderState): System {
    System(st, None, None)
  }

  ghost predicate Interleaving(cfg: Config, k: nat, s: Overlap, moves: seq<Move>)
    decreases |moves|
  {
    moves == [] || (Allowed(cfg, k, s, moves[0]) && Interleaving(cfg, k, Moved(cfg, k, s, moves[0]), moves[1..]))
  }

  ghost function Final(cfg: Config, k: nat, s: Overlap, moves: seq<Move>): Overlap
    requires Interleaving(cfg, k, s, moves)
    decreases |moves|
  {
    if moves == [] then s else Final(cfg, k, Moved(cfg, k, s, moves[0]), moves[1..])
  }

  const QUIET := Overlap(EMPTY, {})

  /** Tracked resources and reserved places together. */
  ghost predicate Bounded(cfg: Config, k: nat, s: Overlap) {
    |s.st.order| + |s.inFlight| <= cfg.maxBlocks + k - 1
  }

  lemma CleanupNeverGrows(cfg: Config, s: System, run: CleanupRun)
    requires PoolSizable(cfg, s.live)
    ensures |CleanupStep(cfg, s, run).live.order| <= |s.live.order|
  {
  }

  lemma MoveKeepsBound(cfg: Config, k: nat, s: Overlap, m: Move)
    requires Bounded(cfg, k, s) && Allowed(cfg, k, s, m)
    ensures Bounded(cfg, k, Moved(cfg, k, s, m))
  {
    match m
    case Check(job) =>
    case Commit(job, launch) =>
      assert s.inFlight == (s.inFlight - {job}) + {job};
    case Poll(keys, answer, run) =>
      CleanupNeverGrows(cfg, PollStep(Unsaved(s.st), keys, answer, NEITHER), run);
    case ScaleIn(blocks, answer, run) =>
      if blocks > 0 && answer.Answered? {
        var jobs := Known(s.st, Keys(Victims(s.st, blocks)));
        CleanupNeverGrows(cfg, Unsaved(WriteBack(s.st, jobs, answer.statuses)), run);
      }
  }

  lemma {:induction false} RunKeepsBound(cfg: Config, k: nat, s: Overlap, moves: seq<Move>)
    requires Bounded(cfg, k, s) && Interleaving(cfg, k, s, moves)
    ensures Bounded(cfg, k, Final(cfg, k, s, moves))
    decreases |moves|
  {
    if moves != [] {
      MoveKeepsBound(cfg, k, s, moves[0]);
      RunKeepsBound(cfg, k, Moved(cfg, k, s, moves[0]), moves[1..]);
    }
  }

  /** With at most k overlapping submits, max_blocks is exceeded by at most k - 1; serial ones never exceed it. */
  lemma OverlapBound(cfg: Config, k: nat, moves: seq<Move>)
    requires k >= 1 && Interleaving(cfg, k, QUIET, moves)
    ensures |Final(cfg, k, QUIET, moves).st.order| <= cfg.maxBlocks + k - 1
    ensures k == 1 ==> |Final(cfg, k, QUIET, moves).st.order| <= cfg.maxBlocks
  {
    RunKeepsBound(cfg, k, QUIET, moves);
  }

  // ---------------------------------------------------------------- the bound is reached

  function Name(n: nat): string {
    seq(n, i => 'x')
  }

  lemma NamesDiffer(m: nat, n: nat)
    ensures Name(m) == Name(n) <==> m == n
  {
    assert |Name(m)| == m && |Name(n)| == n;
  }

  lemma {:induction false} FinalOf(cfg: Config, k: nat, s: Overlap, a: seq<Move>, b: seq<Move>)
    requires Interleaving(cfg, k, s, a) && Interleaving(cfg, k, Final(cfg, k, s, a), b)
    ensures Interleaving(cfg, k, s, a + b) && Final(cfg, k, s, a + b) == Final(cfg, k, Final(cfg, k, s, a), b)
    decreases |a|
  {
    if a == [] {
      assert a + b == b;
    } else {
      assert (a + b)[0] == a[0] && (a + b)[1..] == a[1..] + b;
      FinalOf(cfg, k, Moved(cfg, k, s, a[0]), a[1..], b);
    }
  }

  /** Only `from` resources so far, all with short names. */
  ghost predicate UsedBelow(s: Overlap, n: nat) {
    && |s.st.order| == |s.st.resources| == n
    && (forall r :: r in s.st.resources ==> exists i: nat :: i < n && r == Name(i))
  }

  lemma FreshRecord(cfg: Config, s: Overlap, job: JobId, n: nat)
    requires UsedBelow(s, n)
    ensures UsedBelow(s.(st := AfterLaunch(cfg, s.st, job, Fresh(Name(n)))), n + 1)
  {
    forall i: nat | i < n
      ensures Name(i) != Name(n)
    {
      NamesDiffer(i, n);
    }
    assert Name(n) !in s.st.resources;
    assert AfterLaunch(cfg, s.st, job, Fresh(Name(n))).resources.Keys == s.st.resources.Keys + {Name(n)};
  }

  ghost function Names(n: nat): (r: set<JobId>)
    ensures forall j :: j in r ==> |j| < n
    ensures |r| == n
  {
    if n == 0 then {} else Names(n - 1) + {Name(n - 1)}
  }

  lemma LastName(n: nat)
    requires n > 0
    ensures Name(n - 1) in Names(n) && Names(n) - {Name(n - 1)} == Names(n - 1)
  {
    assert |Name(n - 1)| == n - 1;
  }

  lemma ConsMove(cfg: Config, k: nat, s: Overlap, m: Move, rest: seq<Move>)
    requires Allowed(cfg, k, s, m) && Interleaving(cfg, k, Moved(cfg, k, s, m), rest)
    ensures Interleaving(cfg, k, s, [m] + rest) &&
              Final(cfg, k, s, [m] + rest) == Final(cfg, k, Moved(cfg, k, s, m), rest)
  {
    assert ([m] + rest)[1..] == rest;
  }

  /** `n` checks in a row, none recorded. */
  lemma Checks(cfg: Config, k: nat, s: Overlap, n: nat) returns (moves: seq<Move>)
    requires n <= k && s.inFlight == {} && |s.st.order| < cfg.maxBlocks
    ensures Interleaving(cfg, k, s, moves) && Final(cfg, k, s, moves) == s.(inFlight := Names(n))
  {
    if n == 0 {
      moves := [];
    } else {
      var earlier := Checks(cfg, k, s, n - 1);
      var t := s.(inFlight := Names(n - 1));
      var one := [Check(Name(n - 1))];
      assert one[1..] == [];
      assert Interleaving(cfg, k, Moved(cfg, k, t, one[0]), one[1..]);
      assert Final(cfg, k, t, one) == s.(inFlight := Names(n));
      FinalOf(cfg, k, s, earlier, one);
      moves := earlier + one;
    }
  }

  /** Recording all `n` reservations, each with a fresh resource. */
  lemma Records(cfg: Config, k: nat, s: Overlap, n: nat, used: nat) returns (moves: seq<Move>)
    requires s.inFlight == Names(n) && UsedBelow(s, used)
    ensures Interleaving(cfg, k, s, moves)
    ensures var t := Final(cfg, k, s, moves); t.inFlight == {} && UsedBelow(t, used + n)
    decreases n
  {
    if n == 0 {
      moves := [];
    } else {
      var m := Commit(Name(n - 1), Fresh(Name(used)));
      FreshRecord(cfg, s, Name(n - 1), used);
      LastName(n);
      var t := Moved(cfg, k, s, m);
      var rest := Records(cfg, k, t, n - 1, used + 1);
      ConsMove(cfg, k, s, m, rest);
      moves := [m] + rest;
    }
  }

  lemma Serial(cfg: Config, k: nat, n: nat) returns (moves: seq<Move>)
    requires k >= 1 && n <= cfg.maxBlocks
    ensures Interleaving(cfg, k, QUIET, moves)
    ensures var t := Final(cfg, k, QUIET, moves); t.inFlight == {} && UsedBelow(t, n)
  {
    if n == 0 {
      moves := [];
    } else {
      var earlier := Serial(cfg, k, n - 1);
      var s := Final(cfg, k, QUIET, earlier);
      var checks := Checks(cfg, k, s, 1);
      var records := Records(cfg, k, Final(cfg, k, s, checks), 1, n - 1);
      FinalOf(cfg, k, s, checks, records);
      FinalOf(cfg, k, QUIET, earlier, checks + records);
      moves := earlier + (checks + records);
    }
  }

  /** The bound is tight: for every max_blocks and k some interleaving tracks max_blocks + k - 1. */
  lemma OverlapBoundReached(cfg: Config, k: nat)
    requires k >= 1 && cfg.maxBlocks >= 1
    ensures exists moves :: Interleaving(cfg, k, QUIET, moves) &&
              |Final(cfg, k, QUIET, moves).st.order| == cfg.maxBlocks + k - 1
  {
    var serial := Serial(cfg, k, cfg.maxBlocks - 1);
    var s := Final(cfg, k, QUIET, serial);
    var checks := Checks(cfg, k, s, k);
    var records := Records(cfg, k, Final(cfg, k, s, checks), k, cfg.maxBlocks - 1);
    FinalOf(cfg, k, s, checks, records);
    FinalOf(cfg, k, QUIET, serial, checks + records);
    var moves := serial + (checks + records);
    assert Interleaving(cfg, k, QUIET, moves) && |Final(cfg, k, QUIET, moves).st.order| == cfg.maxBlocks + k - 1;
  }

  /** A submit nobody overlaps is its check followed by its recording step. */
  lemma SerialSubmit(cfg: Config, k: nat, st: ProviderState, job: JobId, launch: Launch)
    requires k >= 1 && |st.order| < cfg.maxBlocks && LaunchPossible(cfg, st, launch)
    ensures var moves := [Check(job), Commit(job, launch)];
            && Interleaving(cfg, k, Overlap(st, {}), moves)
            && Final(cfg, k, Overlap(st, {}), moves) ==
                 Overlap(SubmitStep(cfg, Unsaved(st), job, launch, NEITHER).0.live, {})
  {
    var a, b := Check(job), Commit(job, launch);
    var s := Overlap(st, {});
    var t := Moved(cfg, k, s, a);
    assert [a, b][1..] == [b] && [b][1..] == [];
    assert t.inFlight == {job};
    var u := Moved(cfg, k, t, b);
    assert u.inFlight == {};
    assert Final(cfg, k, t, [b]) == Final(cfg, k, u, []) == u;
    assert Final(cfg, k, s, [a, b]) == Final(cfg, k, t, [b]);
  }
}
