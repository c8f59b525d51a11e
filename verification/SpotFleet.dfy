/**
 * Creating blocks of spot capacity, one EC2 Fleet and one launch template each, with rollback
 * (parsl_ephemeral_provider/compute/spot_fleet.py).
 */
module SpotFleet {
  import opened Collections

  type BlockId = string
  type FleetId = string
  type TemplateId = string
  type InstanceId = string

  datatype BlockStatus = Running | Pending | Cancelled

  datatype Block = Block(fleet: Option<FleetId>, status: BlockStatus, instances: seq<InstanceId>)
  datatype FleetRequest = FleetRequest(block: BlockId, capacity: nat, status: BlockStatus, instances: seq<InstanceId>)
  datatype Instance = Instance(block: BlockId, fleet: FleetId, terminated: bool)

  /** The manager's records, and the fleets and templates that exist in EC2. */
  datatype Site = Site(
    blocks: map<BlockId, Block>,
    fleetRequests: map<FleetId, FleetRequest>,
    instances: map<InstanceId, Instance>,
    launchTemplates: map<BlockId, TemplateId>,
    fleets: set<FleetId>,
    templates: set<TemplateId>)

  /** A block that was launched. An instant fleet names its instances at once, possibly none. */
  datatype Made = Made(block: BlockId, template: TemplateId, fleet: FleetId, instances: seq<InstanceId>)

  /** How one launch goes: `CreateFleet` may raise a `ClientError`, or something else. */
  datatype Launch =
    | TemplateFails(id: BlockId)
    | FleetRefused(id: BlockId, template: TemplateId)
    | FleetCrashes(id: BlockId, template: TemplateId)
    | Launched(made: Made)

  /** Whether EC2 lets go of a fleet or template when asked to delete it; an absent one is no error. */
  datatype Deletions = Deletions(fleet: FleetId -> bool, template: TemplateId -> bool)

  // ---------------------------------------------------------------- the steps on values

  function StatusFor(instances: seq<InstanceId>): BlockStatus {
    if instances != [] then Running else Pending
  }

  function WithInstances(known: map<InstanceId, Instance>, m: Made, n: nat): map<InstanceId, Instance>
    requires n <= |m.instances|
  {
    if n == 0 then known else WithInstances(known, m, n - 1)[m.instances[n - 1] := Instance(m.block, m.fleet, false)]
  }

  function WithTemplate(s: Site, b: BlockId, t: TemplateId): Site {
    s.(launchTemplates := s.launchTemplates[b := t], templates := s.templates + {t})
  }

  function WithBlock(s: Site, m: Made, capacity: nat): Site {
    var status := StatusFor(m.instances);
    s.(fleets := s.fleets + {m.fleet},
       fleetRequests := s.fleetRequests[m.fleet := FleetRequest(m.block, capacity, status, m.instances)],
       instances := WithInstances(s.instances, m, |m.instances|),
       blocks := s.blocks[m.block := Block(Some(m.fleet), status, m.instances)])
  }

  /** The record is popped before the deletion is tried, and a failed deletion is only logged. */
  function DropTemplate(s: Site, b: BlockId, d: Deletions): Site {
    if b !in s.launchTemplates then s
    else
      var t := s.launchTemplates[b];
      s.(launchTemplates := s.launchTemplates - {b},
        templates := if d.template(t) then s.templates - {t} else s.templates)
  }

  function Terminated(known: map<InstanceId, Instance>, ids: seq<InstanceId>, n: nat): (r: map<InstanceId, Instance>)
    requires n <= |ids|
    ensures r.Keys == known.Keys
  {
    if n == 0 then known
    else
      var rest := Terminated(known, ids, n - 1);
      if ids[n - 1] in rest then rest[ids[n - 1] := rest[ids[n - 1]].(terminated := true)] else rest
  }

  function TerminateStep(s: Site, b: BlockId, d: Deletions): Site {
    if b !in s.blocks then s
    else if s.blocks[b].fleet.None? then DropTemplate(s, b, d)
    else if !d.fleet(s.blocks[b].fleet.value) then s
    else
      var f := s.blocks[b].fleet.value;
      var gone := s.(
        fleets := s.fleets - {f},
        fleetRequests := if f in s.fleetRequests then s.fleetRequests[f := s.fleetRequests[f].(status := Cancelled)]
          else s.fleetRequests,
        blocks := s.blocks[b := s.blocks[b].(status := Cancelled)],
        instances := Terminated(s.instances, s.blocks[b].instances, |s.blocks[b].instances|));
      DropTemplate(gone, b, d)
  }

  function Built(s: Site, made: seq<Made>, capacity: nat): Site {
    if made == [] then s
    else
      var m := made[|made| - 1];
      WithBlock(WithTemplate(Built(s, made[..|made| - 1], capacity), m.block, m.template), m, capacity)
  }

  /** What a failed launch leaves behind. */
  function Attempted(s: Site, launch: Launch, d: Deletions): Site {
    match launch
    case TemplateFails(_) => s
    case FleetRefused(b, t) => DropTemplate(WithTemplate(s, b, t), b, d)
    case FleetCrashes(b, t) => WithTemplate(s, b, t)
    case Launched(_) => s
  }

  /** The first `k` blocks terminated in the order they were made; refusals are only logged. */
  function RolledBack(s: Site, made: seq<Made>, k: nat, d: Deletions): Site
    requires k <= |made|
  {
    if k == 0 then s else TerminateStep(RolledBack(s, made, k - 1, d), made[k - 1].block, d)
  }

  // ---------------------------------------------------------------- the manager

  class SpotFleetManager {
    var blocks: map<BlockId, Block>
    var fleetRequests: map<FleetId, FleetRequest>
    var instances: map<InstanceId, Instance>
    var launchTemplates: map<BlockId, TemplateId>
    var liveFleets: set<FleetId>
    var liveTemplates: set<TemplateId>
    const nodesPerBlock: nat

    function Contents(): Site
      reads this
    {
      Site(blocks, fleetRequests, instances, launchTemplates, liveFleets, liveTemplates)
    }

    constructor (nodesPerBlock: nat)
      ensures Contents() == Site(map[], map[], map[], map[], {}, {}) && this.nodesPerBlock == nodesPerBlock
    {
      blocks, fleetRequests, instances, launchTemplates := map[], map[], map[], map[];
      liveFleets, liveTemplates := {}, {};
      this.nodesPerBlock := nodesPerBlock;
    }

    method DeleteLaunchTemplateForBlock(b: BlockId, d: Deletions)
      modifies this`launchTemplates, this`liveTemplates
      ensures Contents() == DropTemplate(old(Contents()), b, d)
    {
      if b !in launchTemplates {
        return;
      }
      var t := launchTemplates[b];
      launchTemplates := launchTemplates - {b};
      if d.template(t) {
        liveTemplates := liveTemplates - {t};
      }
    }

    /** True when the block's fleet and instances are recorded; false when the launch raised. */
    method CreateFleet(launch: Launch, d: Deletions) returns (created: Option<Made>)
      modifies this
      ensures created == if launch.Launched? then Some(launch.made) else None
      ensures var before := old(Contents());
              match launch
              case Launched(m) => Contents() ==
                WithBlock(WithTemplate(before, m.block, m.template), m, nodesPerBlock).(blocks := before.blocks)
              case _ => Contents() == Attempted(before, launch, d)
      ensures launch.Launched? ==>
                var m := launch.made;
                && liveFleets == old(liveFleets) + {m.fleet} && liveTemplates == old(liveTemplates) + {m.template}
                && launchTemplates == old(launchTemplates)[m.block := m.template]
                && fleetRequests == old(fleetRequests)[m.fleet :=
                     FleetRequest(m.block, nodesPerBlock, if m.instances != [] then Running else Pending, m.instances)]
    {
      created := None;
      match launch {
        case TemplateFails(_) =>
        case FleetRefused(b, t) =>
          AddTemplate(b, t);
          DeleteLaunchTemplateForBlock(b, d);
        case FleetCrashes(b, t) =>
          AddTemplate(b, t);
        case Launched(m) =>
          AddTemplate(m.block, m.template);
          liveFleets := liveFleets + {m.fleet};
          fleetRequests := fleetRequests[
            m.fleet := FleetRequest(m.block, nodesPerBlock, StatusFor(m.instances), m.instances)];
          RecordInstances(m);
          created := Some(m);
      }
    }

    method AddTemplate(b: BlockId, t: TemplateId)
      modifies this`launchTemplates, this`liveTemplates
      ensures Contents() == WithTemplate(old(Contents()), b, t)
    {
      liveTemplates := liveTemplates + {t};
      launchTemplates := launchTemplates[b := t];
    }

    method RecordInstances(m: Made)
      modifies this`instances
      ensures instances == WithInstances(old(instances), m, |m.instances|)
    {
      for k := 0 to |m.instances|
        invariant instances == WithInstances(old(instances), m, k)
      {
        instances := instances[m.instances[k] := Instance(m.block, m.fleet, false)];
      }
    }

    method MarkTerminated(ids: seq<InstanceId>)
      modifies this`instances
      ensures instances == Terminated(old(instances), ids, |ids|)
    {
      for k := 0 to |ids|
        invariant instances == Terminated(old(instances), ids, k)
      {
        if ids[k] in instances {
          instances := instances[ids[k] := instances[ids[k]].(terminated := true)];
        }
      }
    }

    /** False when EC2 refused to delete the fleet, which `terminate_block` raises. */
    method TerminateBlock(b: BlockId, d: Deletions) returns (ok: bool)
      modifies this
      ensures Contents() == TerminateStep(old(Contents()), b, d)
      ensures !ok <==> b in old(blocks) && old(blocks)[b].fleet.Some? && !d.fleet(old(blocks)[b].fleet.value)
      ensures !ok || b !in old(blocks) ==> Contents() == old(Contents())
      ensures ok && b in old(blocks) ==>
                && launchTemplates == old(launchTemplates) - {b}
                && liveTemplates == old(liveTemplates) -
                     (if b in old(launchTemplates) && d.template(old(launchTemplates)[b])
                      then {old(launchTemplates)[b]} else {})
                && (match old(blocks)[b].fleet
                    case None => blocks == old(blocks) && liveFleets == old(liveFleets)
                    case Some(f) =>
                      && blocks == old(blocks)[b := old(blocks)[b].(status := Cancelled)]
                      && liveFleets == old(liveFleets) - {f})
    {
      if b !in blocks {
        return true;
      }
      if blocks[b].fleet.None? {
        DeleteLaunchTemplateForBlock(b, d);
        return true;
      }
      var f := blocks[b].fleet.value;
      if !d.fleet(f) {
        return false;
      }
      liveFleets := liveFleets - {f};
      if f in fleetRequests {
        fleetRequests := fleetRequests[f := fleetRequests[f].(status := Cancelled)];
      }
      blocks := blocks[b := blocks[b].(status := Cancelled)];
      MarkTerminated(blocks[b].instances);
      DeleteLaunchTemplateForBlock(b, d);
      return true;
    }

    method RollBack(made: seq<Made>, d: Deletions)
      modifies this
      ensures Contents() == RolledBack(old(Contents()), made, |made|, d)
    {
      for k := 0 to |made|
        invariant Contents() == RolledBack(old(Contents()), made, k, d)
      {
        var _ := TerminateBlock(made[k].block, d);
      }
    }

    /**
     * `launch(i)` is how the i-th launch goes. The blocks made so far are rolled back when one
     * fails; without its network nothing is launched at all.
     */
    method CreateBlocks(count: nat, networkReady: bool, launch: nat -> Launch, d: Deletions)
        returns (ok: bool, made: seq<Made>)
      modifies this
      ensures |made| <= count && forall i :: 0 <= i < |made| ==> launch(i) == Launched(made[i])
      ensures ok <==> networkReady && |made| == count
      ensures ok ==> Contents() == Built(old(Contents()), made, nodesPerBlock)
      ensures !networkReady ==> made == [] && Contents() == old(Contents())
      ensures !ok && networkReady ==>
                && !launch(|made|).Launched?
                && Contents() == RolledBack(Attempted(Built(old(Contents()), made, nodesPerBlock), launch(|made|), d),
                     made, |made|, d)
    {
      made := [];
      if !networkReady {
        return false, made;
      }
      while |made| < count
        invariant |made| <= count && forall i :: 0 <= i < |made| ==> launch(i) == Launched(made[i])
        invariant Contents() == Built(old(Contents()), made, nodesPerBlock)
        decreases count - |made|
      {
        var created := CreateFleet(launch(|made|), d);
        if created.None? {
          RollBack(made, d);
          return false, made;
        }
        var m := created.value;
        blocks := blocks[m.block := Block(Some(m.fleet), StatusFor(m.instances), m.instances)];
        assert (made + [m])[..|made|] == made;
        made := made + [m];
      }
      ok := true;
    }
  }

  // ---------------------------------------------------------------- all or nothing

  ghost predicate Unused(s: Site, b: BlockId, t: TemplateId) {
    b !in s.blocks && b !in s.launchTemplates && t !in s.templates
  }

  ghost predicate Apart(m: Made, n: Made) {
    m.block != n.block && m.fleet != n.fleet && m.template != n.template
  }

  /** Block ids are UUIDs, and EC2 never issues an id that is in use. */
  ghost predicate Distinct(s: Site, made: seq<Made>) {
    && (forall i :: 0 <= i < |made| ==> Unused(s, made[i].block, made[i].template) && made[i].fleet !in s.fleets)
    && (forall i, j :: 0 <= i < j < |made| ==> Apart(made[i], made[j]))
  }

  /** The ids a failing launch uses are new as well. */
  ghost predicate DistinctFrom(s: Site, made: seq<Made>, launch: Launch) {
    match launch
    case TemplateFails(_) => true
    case FleetRefused(b, t) => Unused(s, b, t) && forall i :: 0 <= i < |made| ==>
      made[i].block != b && made[i].template != t
    case FleetCrashes(b, t) => Unused(s, b, t) && forall i :: 0 <= i < |made| ==>
      made[i].block != b && made[i].template != t
    case Launched(_) => false
  }

  function FleetsOf(made: seq<Made>): set<FleetId> {
    set i | 0 <= i < |made| :: made[i].fleet
  }

  function TemplatesOf(made: seq<Made>): set<TemplateId> {
    set i | 0 <= i < |made| :: made[i].template
  }

  /** Fleet `f` is deleted once its block is among the first `k` rolled back, unless EC2 refuses. */
  predicate FleetGone(m: Made, rolled: bool, d: Deletions) {
    rolled && d.fleet(m.fleet)
  }

  predicate TemplateGone(m: Made, rolled: bool, d: Deletions) {
    rolled && d.fleet(m.fleet) && d.template(m.template)
  }

  /** What the records say of one made block, rolled back or not. */
  ghost predicate BlockShape(s: Site, m: Made, rolled: bool, d: Deletions) {
    && m.block in s.blocks && s.blocks[m.block].fleet == Some(m.fleet) && s.blocks[m.block].instances == m.instances
    && s.blocks[m.block].status == (if FleetGone(m, rolled, d) then Cancelled else StatusFor(m.instances))
    && (m.fleet in s.fleets <==> !FleetGone(m, rolled, d))
    && m.fleet in s.fleetRequests && (s.fleetRequests[m.fleet].status.Cancelled? <==> FleetGone(m, rolled, d))
    && (m.block in s.launchTemplates <==> !FleetGone(m, rolled, d))
    && (m.block in s.launchTemplates ==> s.launchTemplates[m.block] == m.template)
    && (m.template in s.templates <==> !TemplateGone(m, rolled, d))
  }

  /** The site with the first `k` of the made blocks rolled back, over the given live sets. */
  ghost predicate Shape(s: Site, fleets: set<FleetId>, templates: set<TemplateId>, made: seq<Made>, k: nat,
          d: Deletions) {
    && (forall i :: 0 <= i < |made| ==> BlockShape(s, made[i], i < k, d))
    && s.fleets - FleetsOf(made) == fleets && s.templates - TemplatesOf(made) == templates
  }

  lemma OneMoreOf(made: seq<Made>)
    requires made != []
    ensures FleetsOf(made) == FleetsOf(made[..|made| - 1]) + {made[|made| - 1].fleet}
    ensures TemplatesOf(made) == TemplatesOf(made[..|made| - 1]) + {made[|made| - 1].template}
  {
    var rest := made[..|made| - 1];
    assert made == rest + [made[|made| - 1]];
    forall f | f in FleetsOf(made)
      ensures f in FleetsOf(rest) + {made[|made| - 1].fleet}
    {
      var i :| 0 <= i < |made| && made[i].fleet == f;
      assert i < |rest| ==> rest[i].fleet in FleetsOf(rest);
    }
    forall t | t in TemplatesOf(made)
      ensures t in TemplatesOf(rest) + {made[|made| - 1].template}
    {
      var i :| 0 <= i < |made| && made[i].template == t;
      assert i < |rest| ==> rest[i].template in TemplatesOf(rest);
    }
    assert forall i :: 0 <= i < |rest| ==> rest[i] == made[i];
  }

  lemma WithBlockKeeps(s: Site, m: Made, capacity: nat, n: Made, d: Deletions)
    requires BlockShape(s, n, false, d) && Apart(n, m)
    ensures BlockShape(WithBlock(WithTemplate(s, m.block, m.template), m, capacity), n, false, d)
  {
  }

  lemma WithBlockShapes(s: Site, m: Made, capacity: nat, d: Deletions)
    ensures BlockShape(WithBlock(WithTemplate(s, m.block, m.template), m, capacity), m, false, d)
  {
  }

  lemma {:induction false} BuiltShape(s: Site, made: seq<Made>, capacity: nat, d: Deletions)
    requires Distinct(s, made)
    ensures Shape(Built(s, made, capacity), s.fleets, s.templates, made, 0, d)
    decreases |made|
  {
    if made != [] {
      var rest, m := made[..|made| - 1], made[|made| - 1];
      var t := Built(s, rest, capacity);
      BuiltShape(s, rest, capacity, d);
      forall i | 0 <= i < |made|
        ensures BlockShape(Built(s, made, capacity), made[i], false, d)
      {
        if i < |rest| {
          assert BlockShape(t, rest[i], false, d);
          WithBlockKeeps(t, m, capacity, made[i], d);
        } else {
          WithBlockShapes(t, m, capacity, d);
        }
      }
      OneMoreOf(made);
    }
  }

  /** The template a failed launch leaves in EC2. */
  function Leak(launch: Launch, d: Deletions): set<TemplateId> {
    match launch
    case TemplateFails(_) => {}
    case FleetRefused(_, t) => if d.template(t) then {} else {t}
    case FleetCrashes(_, t) => {t}
    case Launched(_) => {}
  }

  lemma AttemptKeepsBlock(s: Site, launch: Launch, n: Made, d: Deletions)
    requires BlockShape(s, n, false, d)
    requires (launch.FleetRefused? || launch.FleetCrashes?) ==> n.block != launch.id && n.template != launch.template
    ensures BlockShape(Attempted(s, launch, d), n, false, d)
  {
  }

  lemma AttemptShape(s: Site, fleets: set<FleetId>, templates: set<TemplateId>, made: seq<Made>, launch: Launch,
          d: Deletions)
    requires Shape(s, fleets, templates, made, 0, d)
    requires (launch.FleetRefused? || launch.FleetCrashes?) ==>
               forall i :: 0 <= i < |made| ==> made[i].block != launch.id && made[i].template != launch.template
    requires (launch.FleetRefused? || launch.FleetCrashes?) ==> launch.template !in s.templates
    ensures Shape(Attempted(s, launch, d), fleets, templates + Leak(launch, d), made, 0, d)
  {
    var t := Attempted(s, launch, d);
    forall i | 0 <= i < |made|
      ensures BlockShape(t, made[i], i < 0, d)
    {
      assert BlockShape(s, made[i], i < 0, d);
      AttemptKeepsBlock(s, launch, made[i], d);
    }
    assert t.templates == s.templates + Leak(launch, d);
    assert Leak(launch, d) !! TemplatesOf(made);
  }

  lemma TerminateShapes(s: Site, m: Made, d: Deletions)
    requires BlockShape(s, m, false, d)
    ensures BlockShape(TerminateStep(s, m.block, d), m, true, d)
  {
  }

  lemma TerminateKeepsBlock(s: Site, m: Made, n: Made, rolled: bool, d: Deletions)
    requires BlockShape(s, m, false, d) && BlockShape(s, n, rolled, d) && Apart(m, n)
    ensures BlockShape(TerminateStep(s, m.block, d), n, rolled, d)
  {
  }

  lemma TerminateTouches(s: Site, m: Made, d: Deletions, fleets: set<FleetId>, templates: set<TemplateId>)
    requires BlockShape(s, m, false, d) && m.fleet in fleets && m.template in templates
    ensures TerminateStep(s, m.block, d).fleets - fleets == s.fleets - fleets
    ensures TerminateStep(s, m.block, d).templates - templates == s.templates - templates
  {
  }

  ghost predicate AllApart(made: seq<Made>) {
    forall i, j :: 0 <= i < j < |made| ==> Apart(made[i], made[j])
  }

  lemma RollOneBlocks(t: Site, made: seq<Made>, k: nat, d: Deletions)
    requires AllApart(made) && 0 < k <= |made|
    requires forall i :: 0 <= i < |made| ==> BlockShape(t, made[i], i < k - 1, d)
    ensures forall i :: 0 <= i < |made| ==> BlockShape(TerminateStep(t, made[k - 1].block, d), made[i], i < k, d)
  {
    forall i: nat | i < |made|
      ensures BlockShape(TerminateStep(t, made[k - 1].block, d), made[i], i < k, d)
    {
      assert BlockShape(t, made[k - 1], false, d) && BlockShape(t, made[i], i < k - 1, d);
      if i == k - 1 {
        TerminateShapes(t, made[i], d);
      } else {
        assert Apart(made[k - 1], made[i]);
        TerminateKeepsBlock(t, made[k - 1], made[i], i < k, d);
      }
    }
  }

  lemma {:induction false} RolledBackShape(s: Site, fleets: set<FleetId>, templates: set<TemplateId>, made: seq<Made>,
          k: nat, d: Deletions)
    requires AllApart(made) && k <= |made| && Shape(s, fleets, templates, made, 0, d)
    ensures Shape(RolledBack(s, made, k, d), fleets, templates, made, k, d)
    decreases k
  {
    if k > 0 {
      var t, m := RolledBack(s, made, k - 1, d), made[k - 1];
      RolledBackShape(s, fleets, templates, made, k - 1, d);
      RollOneBlocks(t, made, k, d);
      assert BlockShape(t, m, false, d);
      assert m.fleet in FleetsOf(made) && m.template in TemplatesOf(made);
      TerminateTouches(t, m, d, FleetsOf(made), TemplatesOf(made));
    }
  }

  /** The site a failed `CreateBlocks` ends in. */
  function Failed(s: Site, made: seq<Made>, launch: Launch, d: Deletions, capacity: nat): Site {
    RolledBack(Attempted(Built(s, made, capacity), launch, d), made, |made|, d)
  }

  lemma AttemptedShape(s: Site, made: seq<Made>, launch: Launch, d: Deletions, capacity: nat)
    requires Distinct(s, made) && DistinctFrom(s, made, launch)
    ensures Shape(Attempted(Built(s, made, capacity), launch, d), s.fleets, s.templates + Leak(launch, d), made, 0, d)
  {
    var built := Built(s, made, capacity);
    BuiltShape(s, made, capacity, d);
    if launch.FleetRefused? || launch.FleetCrashes? {
      var x := launch.template;
      assert x !in TemplatesOf(made) && x !in built.templates - TemplatesOf(made);
    }
    AttemptShape(built, s.fleets, s.templates, made, launch, d);
  }

  lemma FailedShape(s: Site, made: seq<Made>, launch: Launch, d: Deletions, capacity: nat)
    requires Distinct(s, made) && DistinctFrom(s, made, launch)
    ensures Shape(Failed(s, made, launch, d, capacity), s.fleets, s.templates + Leak(launch, d), made, |made|, d)
  {
    AttemptedShape(s, made, launch, d, capacity);
    RolledBackShape(Attempted(Built(s, made, capacity), launch, d), s.fleets, s.templates + Leak(launch, d), made,
      |made|, d);
  }

  ghost predicate EverythingDeleted(made: seq<Made>, launch: Launch, d: Deletions) {
    Leak(launch, d) == {} && forall i :: 0 <= i < |made| ==> d.fleet(made[i].fleet) && d.template(made[i].template)
  }

  /**
   * All or nothing: after a failed `CreateBlocks` the live fleets and templates are those from
   * before the call exactly when every deletion went through and the launch did not die of anything
   * but a `ClientError` once its template existed.
   */
  lemma AllOrNothingIff(s: Site, made: seq<Made>, launch: Launch, d: Deletions, capacity: nat)
    requires Distinct(s, made) && DistinctFrom(s, made, launch)
    ensures var t := Failed(s, made, launch, d, capacity);
            t.fleets == s.fleets && t.templates == s.templates <==> EverythingDeleted(made, launch, d)
  {
    var t := Failed(s, made, launch, d, capacity);
    FailedShape(s, made, launch, d, capacity);
    if EverythingDeleted(made, launch, d) {
      NothingLeft(t, s.fleets, s.templates, made, d);
    }
    if t.fleets == s.fleets && t.templates == s.templates {
      forall i | 0 <= i < |made|
        ensures d.fleet(made[i].fleet) && d.template(made[i].template)
      {
        assert BlockShape(t, made[i], i < |made|, d);
        assert Unused(s, made[i].block, made[i].template);
      }
      LeakIsNew(s, made, launch, d);
      assert t.templates - TemplatesOf(made) == s.templates + Leak(launch, d);
    }
  }

  lemma LeakIsNew(s: Site, made: seq<Made>, launch: Launch, d: Deletions)
    requires DistinctFrom(s, made, launch)
    ensures Leak(launch, d) !! s.templates
  {
  }

  lemma NothingLeft(t: Site, fleets: set<FleetId>, templates: set<TemplateId>, made: seq<Made>, d: Deletions)
    requires Shape(t, fleets, templates, made, |made|, d)
    requires forall i :: 0 <= i < |made| ==> d.fleet(made[i].fleet) && d.template(made[i].template)
    ensures t.fleets == fleets && t.templates == templates
  {
    forall f | f in FleetsOf(made)
      ensures f !in t.fleets
    {
      var i :| 0 <= i < |made| && made[i].fleet == f;
      assert BlockShape(t, made[i], i < |made|, d);
    }
    forall x | x in TemplatesOf(made)
      ensures x !in t.templates
    {
      var i :| 0 <= i < |made| && made[i].template == x;
      assert BlockShape(t, made[i], i < |made|, d);
    }
  }

  /**
   * Whatever deletions fail, the records stay true: a rolled-back block is CANCELLED exactly when
   * its fleet is gone, and a fleet that could not be deleted is still tracked with its template, so
   * a later cleanup can find both.
   */
  lemma LeftoversAreTracked(s: Site, made: seq<Made>, launch: Launch, d: Deletions, capacity: nat, i: nat)
    requires Distinct(s, made) && DistinctFrom(s, made, launch) && i < |made|
    ensures var t, m := Failed(s, made, launch, d, capacity), made[i];
            && m.block in t.blocks && (t.blocks[m.block].status.Cancelled? <==> m.fleet !in t.fleets)
            && (m.fleet in t.fleets ==>
                  && t.blocks[m.block].fleet == Some(m.fleet) && m.fleet in t.fleetRequests
                  && m.block in t.launchTemplates && t.launchTemplates[m.block] == m.template &&
                       m.template in t.templates)
  {
    FailedShape(s, made, launch, d, capacity);
    assert BlockShape(Failed(s, made, launch, d, capacity), made[i], i < |made|, d);
  }

  lemma PlusOne(before: Site, after: Site, m: Made, n: nat, s: Site)
    requires after.fleets == before.fleets + {m.fleet} && after.templates == before.templates + {m.template}
    requires after.blocks.Keys == before.blocks.Keys + {m.block}
    requires m.fleet !in before.fleets && m.template !in before.templates && m.block !in before.blocks
    requires Larger(s, before, n)
    ensures Larger(s, after, n + 1)
  {
  }

  ghost predicate Larger(s: Site, t: Site, n: nat) {
    |t.fleets| == |s.fleets| + n && |t.templates| == |s.templates| + n && |t.blocks.Keys| == |s.blocks.Keys| + n
  }

  lemma {:induction false} BuiltSizes(s: Site, made: seq<Made>, capacity: nat)
    requires Distinct(s, made)
    ensures Larger(s, Built(s, made, capacity), |made|)
    decreases |made|
  {
    if made != [] {
      var rest, m := made[..|made| - 1], made[|made| - 1];
      BuiltSizes(s, rest, capacity);
      NewOne(s, made, capacity);
      PlusOne(Built(s, rest, capacity), Built(s, made, capacity), m, |rest|, s);
    }
  }

  lemma {:induction false} BuiltSets(s: Site, made: seq<Made>, capacity: nat)
    ensures Built(s, made, capacity).fleets == s.fleets + FleetsOf(made)
    ensures Built(s, made, capacity).templates == s.templates + TemplatesOf(made)
    decreases |made|
  {
    if made != [] {
      BuiltSets(s, made[..|made| - 1], capacity);
      OneMoreOf(made);
    }
  }

  /**
   * Success: as many new fleets, templates and blocks as asked for, and in EC2 nothing but those
   * fleets and templates is new.
   */
  lemma SuccessCounts(s: Site, made: seq<Made>, capacity: nat)
    requires Distinct(s, made)
    ensures var t := Built(s, made, capacity);
            && Larger(s, t, |made|)
            && t.fleets == s.fleets + FleetsOf(made) && t.templates == s.templates + TemplatesOf(made)
  {
    BuiltSizes(s, made, capacity);
    BuiltSets(s, made, capacity);
  }

  lemma NewOne(s: Site, made: seq<Made>, capacity: nat)
    requires Distinct(s, made) && made != []
    ensures var t, m := Built(s, made[..|made| - 1], capacity), made[|made| - 1];
            m.fleet !in t.fleets && m.template !in t.templates && m.block !in t.blocks
  {
    var rest, m := made[..|made| - 1], made[|made| - 1];
    assert Distinct(s, rest);
    BuiltAdds(s, rest, capacity);
    assert forall i :: 0 <= i < |rest| ==> Apart(rest[i], m);
  }

  lemma {:induction false} BuiltAdds(s: Site, made: seq<Made>, capacity: nat)
    ensures var t := Built(s, made, capacity);
            && (forall f :: f in t.fleets ==> f in s.fleets || exists i :: 0 <= i < |made| && made[i].fleet == f)
            && (forall x :: x in t.templates ==>
                 x in s.templates || exists i :: 0 <= i < |made| && made[i].template == x)
            && (forall b :: b in t.blocks ==> b in s.blocks || exists i :: 0 <= i < |made| && made[i].block == b)
    decreases |made|
  {
    if made != [] {
      var rest := made[..|made| - 1];
      BuiltAdds(s, rest, capacity);
      assert forall i :: 0 <= i < |rest| ==> rest[i] == made[i];
    }
  }

  /** Every launched block keeps its own fleet and its own template. */
  lemma SuccessRecords(s: Site, made: seq<Made>, capacity: nat, i: nat, j: nat)
    requires Distinct(s, made) && i < |made| && j < |made|
    ensures var t, m, n := Built(s, made, capacity), made[i], made[j];
            && m.block in t.blocks && m.fleet in t.fleets
            && t.blocks[m.block] == Block(Some(m.fleet), if m.instances != [] then Running else Pending, m.instances)
            && m.block in t.launchTemplates && t.launchTemplates[m.block] == m.template && m.template in t.templates
            && (m.block == n.block || m.fleet == n.fleet || m.template == n.template ==> i == j)
  {
    var never := Deletions(_ => false, _ => false);
    BuiltShape(s, made, capacity, never);
    assert BlockShape(Built(s, made, capacity), made[i], i < 0, never);
    if i < j {
      assert Apart(made[i], made[j]);
    } else if j < i {
      assert Apart(made[j], made[i]);
    }
  }

  // ---------------------------------------------------------------- instance records

  lemma {:induction false} WithInstancesIff(known: map<InstanceId, Instance>, m: Made, n: nat)
    requires n <= |m.instances|
    ensures var r := WithInstances(known, m, n);
            && r.Keys == known.Keys + Elems(m.instances[..n])
            && forall x :: x in r ==>
                 r[x] == if x in m.instances[..n] then Instance(m.block, m.fleet, false) else known[x]
  {
    if n > 0 {
      WithInstancesIff(known, m, n - 1);
      assert m.instances[..n] == m.instances[..n - 1] + [m.instances[n - 1]];
    }
  }

  lemma {:induction false} TerminatedIff(known: map<InstanceId, Instance>, ids: seq<InstanceId>, n: nat)
    requires n <= |ids|
    ensures forall x :: x in known ==>
              Terminated(known, ids, n)[x] == if x in ids[..n] then known[x].(terminated := true) else known[x]
  {
    if n > 0 {
      TerminatedIff(known, ids, n - 1);
      assert ids[..n] == ids[..n - 1] + [ids[n - 1]];
    }
  }

  /** A block's instances are recorded under its fleet, as terminated exactly when the fleet is gone. */
  ghost predicate InstancesShape(s: Site, m: Made, rolled: bool, d: Deletions) {
    forall x :: x in m.instances ==>
      x in s.instances && s.instances[x] == Instance(m.block, m.fleet, FleetGone(m, rolled, d))
  }

  /** EC2 never issues one instance id to two fleets. */
  ghost predicate OwnInstances(made: seq<Made>) {
    forall i, j, x :: 0 <= i < j < |made| && x in made[i].instances ==> x !in made[j].instances
  }

  lemma WithBlockInstances(s: Site, m: Made, capacity: nat)
    ensures WithBlock(WithTemplate(s, m.block, m.template), m, capacity).instances ==
              WithInstances(s.instances, m, |m.instances|)
    ensures forall d :: InstancesShape(WithBlock(WithTemplate(s, m.block, m.template), m, capacity), m, false, d)
  {
    WithInstancesIff(s.instances, m, |m.instances|);
    assert m.instances[..|m.instances|] == m.instances;
  }

  lemma WithBlockKeepsInstances(s: Site, m: Made, capacity: nat, n: Made, d: Deletions)
    requires InstancesShape(s, n, false, d) && forall x :: x in n.instances ==> x !in m.instances
    ensures InstancesShape(WithBlock(WithTemplate(s, m.block, m.template), m, capacity), n, false, d)
  {
    WithInstancesIff(s.instances, m, |m.instances|);
    assert m.instances[..|m.instances|] == m.instances;
  }

  lemma {:induction false} BuiltInstances(s: Site, made: seq<Made>, capacity: nat, d: Deletions)
    requires OwnInstances(made)
    ensures forall i :: 0 <= i < |made| ==> InstancesShape(Built(s, made, capacity), made[i], false, d)
    decreases |made|
  {
    if made != [] {
      var rest, m := made[..|made| - 1], made[|made| - 1];
      BuiltInstances(s, rest, capacity, d);
      forall i | 0 <= i < |made|
        ensures InstancesShape(Built(s, made, capacity), made[i], false, d)
      {
        if i < |rest| {
          assert InstancesShape(Built(s, rest, capacity), rest[i], false, d);
          WithBlockKeepsInstances(Built(s, rest, capacity), m, capacity, made[i], d);
        } else {
          WithBlockInstances(Built(s, rest, capacity), m, capacity);
        }
      }
    }
  }

  lemma TerminateInstances(s: Site, m: Made, d: Deletions)
    requires BlockShape(s, m, false, d) && InstancesShape(s, m, false, d)
    ensures InstancesShape(TerminateStep(s, m.block, d), m, true, d)
  {
    TerminatedIff(s.instances, m.instances, |m.instances|);
    assert m.instances[..|m.instances|] == m.instances;
  }

  lemma TerminateKeepsInstances(s: Site, m: Made, n: Made, rolled: bool, d: Deletions)
    requires BlockShape(s, m, false, d) && InstancesShape(s, n, rolled, d)
    requires forall x :: x in n.instances ==> x !in m.instances
    ensures InstancesShape(TerminateStep(s, m.block, d), n, rolled, d)
  {
    TerminatedIff(s.instances, m.instances, |m.instances|);
    assert m.instances[..|m.instances|] == m.instances;
  }

  lemma DisjointInstances(made: seq<Made>, i: nat, j: nat)
    requires OwnInstances(made) && i < |made| && j < |made| && i != j
    ensures forall x :: x in made[i].instances ==> x !in made[j].instances
  {
  }

  lemma RollOneInstances(t: Site, made: seq<Made>, k: nat, d: Deletions)
    requires OwnInstances(made) && 0 < k <= |made| && BlockShape(t, made[k - 1], false, d)
    requires forall i :: 0 <= i < |made| ==> InstancesShape(t, made[i], i < k - 1, d)
    ensures forall i :: 0 <= i < |made| ==> InstancesShape(TerminateStep(t, made[k - 1].block, d), made[i], i < k, d)
  {
    forall i: nat | i < |made|
      ensures InstancesShape(TerminateStep(t, made[k - 1].block, d), made[i], i < k, d)
    {
      assert InstancesShape(t, made[i], i < k - 1, d);
      if i == k - 1 {
        TerminateInstances(t, made[i], d);
      } else {
        DisjointInstances(made, i, k - 1);
        TerminateKeepsInstances(t, made[k - 1], made[i], i < k, d);
      }
    }
  }

  lemma {:induction false} RolledBackInstances(s: Site, fleets: set<FleetId>, templates: set<TemplateId>,
          made: seq<Made>, k: nat, d: Deletions)
    requires AllApart(made) && OwnInstances(made) && k <= |made| && Shape(s, fleets, templates, made, 0, d)
    requires forall i :: 0 <= i < |made| ==> InstancesShape(s, made[i], false, d)
    ensures forall i :: 0 <= i < |made| ==> InstancesShape(RolledBack(s, made, k, d), made[i], i < k, d)
    decreases k
  {
    if k > 0 {
      var t := RolledBack(s, made, k - 1, d);
      RolledBackInstances(s, fleets, templates, made, k - 1, d);
      assert BlockShape(t, made[k - 1], false, d) by {
        RolledBackShape(s, fleets, templates, made, k - 1, d);
      }
      RollOneInstances(t, made, k, d);
    }
  }

  /** After a failed call the instance records are true too: terminated exactly with their fleet. */
  lemma InstancesFollowTheirFleet(s: Site, made: seq<Made>, launch: Launch, d: Deletions, capacity: nat, i: nat)
    requires Distinct(s, made) && OwnInstances(made) && DistinctFrom(s, made, launch) && i < |made|
    ensures var t, m := Failed(s, made, launch, d, capacity), made[i];
            forall x :: x in m.instances ==>
              x in t.instances && t.instances[x] == Instance(m.block, m.fleet, m.fleet !in t.fleets)
  {
    var built := Built(s, made, capacity);
    BuiltInstances(s, made, capacity, d);
    var attempted := Attempted(built, launch, d);
    AttemptedShape(s, made, launch, d, capacity);
    assert attempted.instances == built.instances;
    assert forall n :: 0 <= n < |made| ==> InstancesShape(built, made[n], false, d);
    forall n | 0 <= n < |made|
      ensures InstancesShape(attempted, made[n], false, d)
    {
      assert InstancesShape(built, made[n], false, d);
    }
    RolledBackInstances(attempted, s.fleets, s.templates + Leak(launch, d), made, |made|, d);
    FailedShape(s, made, launch, d, capacity);
    assert BlockShape(Failed(s, made, launch, d, capacity), made[i], i < |made|, d);
  }
}
