/**
 * Fleet-backed jobs of the serverless mode: submission, its clean-up when it fails, and reclaim
 * (parsl_ephemeral_provider/modes/serverless.py).
 */
module ServerlessFleet {
  import opened Collections

  type ResourceId = string
  type JobId = string
  type FleetId = string
  type TemplateId = string
  type InstanceId = string

  /** The ids are there once the fleet is: only then does the record name a fleet at all. */
  datatype JobResource = JobResource(jobId: JobId, backing: Option<Backing>)
  datatype Backing = Backing(fleet: FleetId, template: TemplateId, instances: seq<InstanceId>)

  /** How the launch of one job's fleet goes; EC2 may launch a fleet that holds no instance. */
  datatype Launch =
    | Refused
    | TemplateFails
    | FleetFails(template: TemplateId)
    | Launched(backing: Backing)

  /** What comes after a filled fleet: registering it for interruptions, if handled, and saving. */
  datatype Bookkeeping = Bookkeeping(handling: bool, registerRaises: bool, saveRaises: bool)

  /**
   * Whether EC2 grants a deletion: of the template of a fleet that failed, an unfilled fleet
   * on the spot, and each fleet and template on reclaim. `client(k)` is false when a clean-up
   * cannot even get its EC2 client for the k-th id, which raises out of it.
   */
  datatype Deletions = Deletions(
    failedTemplate: bool, unfilledFleet: bool, fleet: FleetId -> bool, template: TemplateId -> bool,
    client: nat -> bool)

  predicate Succeeds(launch: Launch, b: Bookkeeping) {
    launch.Launched? && launch.backing.instances != [] && !(b.handling && b.registerRaises) && !b.saveRaises
  }

  /** The clean-up of a failed submission needs an EC2 client only for a record that names a fleet. */
  predicate CleanupRuns(launch: Launch, d: Deletions) {
    launch.Launched? ==> d.client(0)
  }

  predicate Blocked(resources: map<ResourceId, JobResource>, ids: seq<ResourceId>, k: nat, d: Deletions)
    requires k < |ids|
  {
    ids[k] in resources && ids[k] !in ids[..k] && resources[ids[k]].backing.Some? && !d.client(k)
  }

  lemma ElemsSnoc(ids: seq<ResourceId>, k: nat)
    requires k < |ids|
    ensures Elems(ids[..k + 1]) == Elems(ids[..k]) + {ids[k]}
  {
    assert ids[..k + 1] == ids[..k] + [ids[k]];
  }

  lemma BlockedHere(resources: map<ResourceId, JobResource>, ids: seq<ResourceId>, k: nat, d: Deletions)
    requires k < |ids|
    ensures var left := resources - Elems(ids[..k]);
            Blocked(resources, ids, k, d) <==> ids[k] in left && left[ids[k]].backing.Some? && !d.client(k)
  {
    assert ids[k] in Elems(ids[..k]) <==> ids[k] in ids[..k];
  }

  /** The fleet a failed submission leaves running. */
  function FleetLeft(launch: Launch, d: Deletions): set<FleetId> {
    if !launch.Launched? || d.fleet(launch.backing.fleet) || (launch.backing.instances == [] && d.unfilledFleet) then {}
    else {launch.backing.fleet}
  }

  /** The launch template a failed submission leaves behind. */
  function TemplateLeft(launch: Launch, d: Deletions): set<TemplateId> {
    match launch
    case Refused => {}
    case TemplateFails => {}
    case FleetFails(t) => if d.failedTemplate then {} else {t}
    case Launched(b) => if d.template(b.template) then {} else {b.template}
  }

  function FleetsOf(resources: map<ResourceId, JobResource>, ids: set<ResourceId>): set<FleetId> {
    set r | r in ids && r in resources && resources[r].backing.Some? :: resources[r].backing.value.fleet
  }

  function TemplatesOf(resources: map<ResourceId, JobResource>, ids: set<ResourceId>): set<TemplateId> {
    set r | r in ids && r in resources && resources[r].backing.Some? :: resources[r].backing.value.template
  }

  function Granted(ids: set<string>, allowed: string -> bool): set<string> {
    set x | x in ids && allowed(x)
  }

  function Withheld(ids: set<string>, allowed: string -> bool): set<string> {
    set x | x in ids && !allowed(x)
  }

  /** The fleets and templates this mode created that still exist, and those EC2 would not delete. */
  datatype Ec2 = Ec2(fleets: set<FleetId>, templates: set<TemplateId>, refused: set<string>)

  /** Everything the records name is asked to be deleted; what EC2 refuses stays. */
  function Reclaim(e: Ec2, resources: map<ResourceId, JobResource>, ids: set<ResourceId>, d: Deletions): Ec2 {
    Ec2(e.fleets - Granted(FleetsOf(resources, ids), d.fleet),
        e.templates - Granted(TemplatesOf(resources, ids), d.template),
        e.refused + Withheld(FleetsOf(resources, ids), d.fleet) + Withheld(TemplatesOf(resources, ids), d.template))
  }

  /** Nothing is lost: what exists is named by a record, or EC2 refused to delete it once. */
  ghost predicate Tracked(e: Ec2, resources: map<ResourceId, JobResource>) {
    && e.fleets <= FleetsOf(resources, resources.Keys) + e.refused
    && e.templates <= TemplatesOf(resources, resources.Keys) + e.refused
  }

  class ServerlessMode {
    var resources: map<ResourceId, JobResource>
    var registered: set<FleetId>
    var liveFleets: set<FleetId>
    var liveTemplates: set<TemplateId>
    ghost var refused: set<string>

    ghost function Live(): Ec2
      reads this
    {
      Ec2(liveFleets, liveTemplates, refused)
    }

    ghost predicate Valid()
      reads this
    {
      Tracked(Live(), resources)
    }

    constructor ()
      ensures Valid() && resources == map[] && Live() == Ec2({}, {}, {}) && registered == {}
    {
      resources, registered, liveFleets, liveTemplates, refused := map[], {}, {}, {}, {};
    }

    method DeleteFleet(f: FleetId, granted: bool)
      modifies this`liveFleets, this`refused
      ensures liveFleets == (if granted then old(liveFleets) - {f} else old(liveFleets))
      ensures refused == (if granted then old(refused) else old(refused) + {f})
    {
      if granted {
        liveFleets := liveFleets - {f};
      } else {
        refused := refused + {f};
      }
    }

    method DeleteTemplate(t: TemplateId, granted: bool)
      modifies this`liveTemplates, this`refused
      ensures liveTemplates == (if granted then old(liveTemplates) - {t} else old(liveTemplates))
      ensures refused == (if granted then old(refused) else old(refused) + {t})
    {
      if granted {
        liveTemplates := liveTemplates - {t};
      } else {
        refused := refused + {t};
      }
    }

    /** `_reclaim_fleet`: both deletions are tried and neither failure is raised. */
    method ReclaimFleet(b: Backing, d: Deletions)
      modifies this`liveFleets, this`liveTemplates, this`refused
      ensures liveFleets == old(liveFleets) - Granted({b.fleet}, d.fleet)
      ensures liveTemplates == old(liveTemplates) - Granted({b.template}, d.template)
      ensures refused == old(refused) + Withheld({b.fleet}, d.fleet) + Withheld({b.template}, d.template)
    {
      DeleteFleet(b.fleet, d.fleet(b.fleet));
      DeleteTemplate(b.template, d.template(b.template));
    }

    method CleanupOne(r: ResourceId, d: Deletions)
      modifies this
      ensures resources == old(resources) - {r} && registered == old(registered)
      ensures Live() == Reclaim(old(Live()), old(resources), {r}, d)
    {
      OneRecord(resources, r);
      if r !in resources {
        return;
      }
      if resources[r].backing.Some? {
        ReclaimFleet(resources[r].backing.value, d);
      }
      resources := resources - {r};
    }

    /** One more id of a clean-up that began with `was` and `held`, and went through `ids[..n]`. */
    method CleanupNext(ids: seq<ResourceId>, n: nat, d: Deletions, ghost was: Ec2,
            ghost held: map<ResourceId, JobResource>)
      requires n < |ids|
      requires resources == held - Elems(ids[..n]) && Live() == Reclaim(was, held, Elems(ids[..n]), d)
      modifies this
      ensures resources == held - Elems(ids[..n + 1]) && Live() == Reclaim(was, held, Elems(ids[..n + 1]), d)
      ensures registered == old(registered)
    {
      CleanupOne(ids[n], d);
      ReclaimMore(was, held, Elems(ids[..n]), ids[n], d);
      ElemsSnoc(ids, n);
    }

    /** `n` is where a clean-up that raises stops; the ids from there on are left as they are. */
    method CleanupResources(ids: seq<ResourceId>, d: Deletions) returns (n: nat)
      modifies this
      ensures n <= |ids| && (forall k :: 0 <= k < n ==> !Blocked(old(resources), ids, k, d))
      ensures n < |ids| ==> Blocked(old(resources), ids, n, d)
      ensures resources == old(resources) - Elems(ids[..n]) && registered == old(registered)
      ensures Live() == Reclaim(old(Live()), old(resources), Elems(ids[..n]), d)
      ensures old(Valid()) ==> Valid()
    {
      ReclaimNothing(Live(), resources, d);
      n := 0;
      while n < |ids|
        invariant n <= |ids| && (forall k :: 0 <= k < n ==> !Blocked(old(resources), ids, k, d))
        invariant resources == old(resources) - Elems(ids[..n]) && registered == old(registered)
        invariant Live() == Reclaim(old(Live()), old(resources), Elems(ids[..n]), d)
      {
        BlockedHere(old(resources), ids, n, d);
        if ids[n] in resources && resources[ids[n]].backing.Some? && !d.client(n) {
          break;
        }
        CleanupNext(ids, n, d, old(Live()), old(resources));
        n := n + 1;
      }
      ReclaimTracked(old(Live()), old(resources), Elems(ids[..n]), d);
    }

    /** Cleaning up the one record of a submission that failed. */
    method CleanupFailed(r: ResourceId, launch: Launch, d: Deletions, ghost was: Ec2,
            ghost held: map<ResourceId, JobResource>, ghost job: JobId)
      requires r !in held && Unseen(was, launch)
      requires resources == Submitted(held, r, job, launch) && Live() == AfterLaunch(was, launch, d)
      modifies this
      ensures registered == old(registered)
      ensures resources == if CleanupRuns(launch, d) then held else Submitted(held, r, job, launch)
      ensures Live() == AfterFailure(was, held, r, job, launch, d)
    {
      OneId(held, r, job, launch, d);
      FailureOf(was, held, r, job, launch, d);
      var n := CleanupResources([r], d);
      assert n == 0 || n == 1;
    }

    /** `_create_job_fleet`: true when the fleet holds instances and is registered. */
    method CreateJobFleet(r: ResourceId, launch: Launch, b: Bookkeeping, d: Deletions) returns (ok: bool)
      requires r in resources && Unseen(Live(), launch)
      modifies this
      ensures ok <==> launch.Launched? && launch.backing.instances != [] && !(b.handling && b.registerRaises)
      ensures resources == Annotated(old(resources), r, launch)
      ensures Live() == AfterLaunch(old(Live()), launch, d)
      ensures registered == if ok && b.handling then old(registered) + {launch.backing.fleet} else old(registered)
    {
      match launch {
        case Refused =>
          return false;
        case TemplateFails =>
          return false;
        case FleetFails(t) =>
          liveTemplates := liveTemplates + {t};
          DeleteTemplate(t, d.failedTemplate);
          return false;
        case Launched(backing) =>
          liveTemplates := liveTemplates + {backing.template};
          liveFleets := liveFleets + {backing.fleet};
          resources := resources[r := resources[r].(backing := Some(backing))];
          if backing.instances == [] {
            DeleteFleet(backing.fleet, d.unfilledFleet);
            return false;
          }
          if b.handling {
            if b.registerRaises {
              return false;
            }
            registered := registered + {backing.fleet};
          }
          return true;
      }
    }

    /**
     * The record goes in first and comes out again when anything raises, after a reclaim that only
     * tries; what a failed submission leaves in EC2 is exactly what EC2 would not delete. Only a
     * clean-up that cannot start leaves the record, with the ids to try again.
     */
    method SubmitJob(r: ResourceId, job: JobId, launch: Launch, b: Bookkeeping, d: Deletions) returns (ok: bool)
      requires r !in resources && Unseen(Live(), launch)
      modifies this
      ensures ok <==>
                && launch.Launched? && launch.backing.instances != []
                && !(b.handling && b.registerRaises) && !b.saveRaises
      ensures ok <==> Succeeds(launch, b)
      ensures registered == old(registered) +
                if launch.Launched? && launch.backing.instances != [] && b.handling && !b.registerRaises
                then {launch.backing.fleet} else {}
      ensures ok ==>
                && resources == old(resources)[r := JobResource(job, Some(launch.backing))]
                && liveFleets == old(liveFleets) + {launch.backing.fleet}
                && liveTemplates == old(liveTemplates) + {launch.backing.template}
      ensures !ok && CleanupRuns(launch, d) ==>
                && resources == old(resources)
                && liveFleets == old(liveFleets) + FleetLeft(launch, d)
                && liveTemplates == old(liveTemplates) + TemplateLeft(launch, d)
      ensures !ok && !CleanupRuns(launch, d) ==>
                && resources == old(resources)[r := JobResource(job, Some(launch.backing))]
                && Live() == AfterLaunch(old(Live()), launch, d)
      ensures old(Valid()) ==> Valid()
    {
      resources := resources[r := JobResource(job, None)];
      ok := CreateJobFleet(r, launch, b, d);
      if ok && b.saveRaises {
        ok := false;
      }
      if !ok {
        CleanupFailed(r, launch, d, old(Live()), old(resources), job);
      }
      Accounted(old(Live()), old(resources), r, job, launch, d);
    }
  }

  /** EC2 issues ids that are not in use. */
  ghost predicate Unseen(e: Ec2, launch: Launch) {
    match launch
    case Refused => true
    case TemplateFails => true
    case FleetFails(t) => t !in e.templates
    case Launched(b) => b.fleet !in e.fleets && b.template !in e.templates
  }

  function Annotated(resources: map<ResourceId, JobResource>, r: ResourceId,
          launch: Launch): map<ResourceId, JobResource>
    requires r in resources
  {
    if launch.Launched? then resources[r := resources[r].(backing := Some(launch.backing))] else resources
  }

  function AfterLaunch(e: Ec2, launch: Launch, d: Deletions): Ec2 {
    match launch
    case Refused => e
    case TemplateFails => e
    case FleetFails(t) => if d.failedTemplate then e else e.(templates := e.templates + {t}, refused := e.refused + {t})
    case Launched(b) =>
      var made := e.(templates := e.templates + {b.template}, fleets := e.fleets + {b.fleet});
      if b.instances != [] then made
      else if d.unfilledFleet then made.(fleets := e.fleets)
      else made.(refused := made.refused + {b.fleet})
  }

  lemma OneRecord(resources: map<ResourceId, JobResource>, r: ResourceId)
    ensures FleetsOf(resources, {r}) ==
              if r in resources && resources[r].backing.Some? then {resources[r].backing.value.fleet} else {}
    ensures TemplatesOf(resources, {r}) ==
              if r in resources && resources[r].backing.Some? then {resources[r].backing.value.template} else {}
  {
  }

  lemma OneMoreRecord(resources: map<ResourceId, JobResource>, ids: set<ResourceId>, r: ResourceId)
    ensures FleetsOf(resources, ids + {r}) == FleetsOf(resources, ids) + FleetsOf(resources - ids, {r})
    ensures TemplatesOf(resources, ids + {r}) == TemplatesOf(resources, ids) + TemplatesOf(resources - ids, {r})
  {
  }

  lemma ReclaimNothing(e: Ec2, resources: map<ResourceId, JobResource>, d: Deletions)
    ensures Reclaim(e, resources, {}, d) == e
  {
  }

  lemma ReclaimMore(e: Ec2, resources: map<ResourceId, JobResource>, ids: set<ResourceId>, r: ResourceId, d: Deletions)
    ensures Reclaim(Reclaim(e, resources, ids, d), resources - ids, {r}, d) == Reclaim(e, resources, ids + {r}, d)
  {
    OneMoreRecord(resources, ids, r);
  }

  lemma Names(resources: map<ResourceId, JobResource>, ids: set<ResourceId>, r: ResourceId)
    requires r in ids && r in resources && resources[r].backing.Some?
    ensures resources[r].backing.value.fleet in FleetsOf(resources, ids)
    ensures resources[r].backing.value.template in TemplatesOf(resources, ids)
  {
  }

  /** What is named after `ids` are dropped, or was named by them, is all that was named. */
  lemma DroppedOrNamed(resources: map<ResourceId, JobResource>, ids: set<ResourceId>)
    ensures var rest := resources - ids;
            && FleetsOf(resources, resources.Keys) <= FleetsOf(resources, ids) + FleetsOf(rest, rest.Keys)
            && TemplatesOf(resources, resources.Keys) <= TemplatesOf(resources, ids) + TemplatesOf(rest, rest.Keys)
  {
    var rest := resources - ids;
    forall r | r in resources && resources[r].backing.Some?
      ensures resources[r].backing.value.fleet in FleetsOf(resources, ids) + FleetsOf(rest, rest.Keys)
      ensures resources[r].backing.value.template in TemplatesOf(resources, ids) + TemplatesOf(rest, rest.Keys)
    {
      if r in ids {
        Names(resources, ids, r);
      } else {
        Names(rest, rest.Keys, r);
      }
    }
  }

  lemma ReclaimTracked(e: Ec2, resources: map<ResourceId, JobResource>, ids: set<ResourceId>, d: Deletions)
    ensures Tracked(e, resources) ==> Tracked(Reclaim(e, resources, ids, d), resources - ids)
  {
    DroppedOrNamed(resources, ids);
  }

  /** The record in place, with the ids once there are any. */
  function Submitted(resources: map<ResourceId, JobResource>, r: ResourceId, job: JobId,
          launch: Launch): map<ResourceId, JobResource> {
    Annotated(resources[r := JobResource(job, None)], r, launch)
  }

  lemma SubmittedNames(resources: map<ResourceId, JobResource>, r: ResourceId, job: JobId, launch: Launch)
    requires r !in resources
    ensures var after := Submitted(resources, r, job, launch);
            && FleetsOf(resources, resources.Keys) <= FleetsOf(after, after.Keys)
            && TemplatesOf(resources, resources.Keys) <= TemplatesOf(after, after.Keys)
            && (launch.Launched? ==>
                 && launch.backing.fleet in FleetsOf(after, after.Keys)
                 && launch.backing.template in TemplatesOf(after, after.Keys))
  {
    var after := Submitted(resources, r, job, launch);
    forall q | q in resources && resources[q].backing.Some?
      ensures resources[q].backing.value.fleet in FleetsOf(after, after.Keys)
      ensures resources[q].backing.value.template in TemplatesOf(after, after.Keys)
    {
      Names(after, after.Keys, q);
    }
    if launch.Launched? {
      Names(after, after.Keys, r);
    }
  }

  lemma LaunchTracked(e: Ec2, resources: map<ResourceId, JobResource>, r: ResourceId, job: JobId, launch: Launch,
          d: Deletions)
    requires r !in resources
    ensures Tracked(e, resources) ==> Tracked(AfterLaunch(e, launch, d), Submitted(resources, r, job, launch))
  {
    SubmittedNames(resources, r, job, launch);
  }

  lemma LeftOf(e: Ec2, launch: Launch, d: Deletions)
    requires Unseen(e, launch)
    ensures var after := AfterLaunch(e, launch, d);
            && after.fleets - Granted(if launch.Launched? then {launch.backing.fleet} else {}, d.fleet) ==
                 e.fleets + FleetLeft(launch, d)
            && after.templates - Granted(if launch.Launched? then {launch.backing.template} else {}, d.template) ==
                 e.templates + TemplateLeft(launch, d)
  {
    match launch
    case Refused =>
    case TemplateFails =>
    case FleetFails(_) =>
    case Launched(b) =>
      assert Granted({b.fleet}, d.fleet) == if d.fleet(b.fleet) then {b.fleet} else {};
      assert Granted({b.template}, d.template) == if d.template(b.template) then {b.template} else {};
  }

  lemma LeftAfterReclaim(e: Ec2, resources: map<ResourceId, JobResource>, r: ResourceId, job: JobId, launch: Launch,
          d: Deletions)
    requires r !in resources && Unseen(e, launch)
    ensures var t := Reclaim(AfterLaunch(e, launch, d), Submitted(resources, r, job, launch), {r}, d);
            && t.fleets == e.fleets + FleetLeft(launch, d) && t.templates == e.templates + TemplateLeft(launch, d)
    ensures Submitted(resources, r, job, launch) - {r} == resources
  {
    OneRecord(Submitted(resources, r, job, launch), r);
    LeftOf(e, launch, d);
  }

  /** Every deletion a failed submission needs went through: its template, and its fleet on the spot or on reclaim. */
  predicate AllGranted(launch: Launch, d: Deletions) {
    match launch
    case Refused => true
    case TemplateFails => true
    case FleetFails(_) => d.failedTemplate
    case Launched(b) => d.template(b.template) && (d.fleet(b.fleet) || (b.instances == [] && d.unfilledFleet))
  }

  /** EC2 after a failed submission. */
  function AfterFailure(e: Ec2, resources: map<ResourceId, JobResource>, r: ResourceId, job: JobId, launch: Launch,
          d: Deletions): Ec2
  {
    if CleanupRuns(launch, d) then Reclaim(AfterLaunch(e, launch, d), Submitted(resources, r, job, launch), {r}, d)
    else AfterLaunch(e, launch, d)
  }

  lemma OneId(resources: map<ResourceId, JobResource>, r: ResourceId, job: JobId, launch: Launch, d: Deletions)
    ensures Elems([r][..0]) == {} && Elems([r][..1]) == {r}
    ensures Blocked(Submitted(resources, r, job, launch), [r], 0, d) <==> !CleanupRuns(launch, d)
  {
    assert [r][..0] == [] && [r][..1] == [r];
  }

  lemma FailureOf(e: Ec2, resources: map<ResourceId, JobResource>, r: ResourceId, job: JobId, launch: Launch,
          d: Deletions)
    requires r !in resources && Unseen(e, launch)
    ensures var held := Submitted(resources, r, job, launch);
            && held - {r} == resources && held - {} == held
            && AfterFailure(e, resources, r, job, launch, d)
                 == Reclaim(AfterLaunch(e, launch, d), held, if CleanupRuns(launch, d) then {r} else {}, d)
  {
    LeftAfterReclaim(e, resources, r, job, launch, d);
    ReclaimNothing(AfterLaunch(e, launch, d), Submitted(resources, r, job, launch), d);
  }

  /** Nothing is lost whichever way the submission goes. */
  lemma Accounted(e: Ec2, resources: map<ResourceId, JobResource>, r: ResourceId, job: JobId, launch: Launch,
          d: Deletions)
    requires r !in resources && Unseen(e, launch)
    ensures Tracked(e, resources) ==> Tracked(AfterLaunch(e, launch, d), Submitted(resources, r, job, launch))
    ensures Tracked(e, resources) && CleanupRuns(launch, d) ==>
              Tracked(AfterFailure(e, resources, r, job, launch, d), resources)
    ensures CleanupRuns(launch, d) ==>
              var t := AfterFailure(e, resources, r, job, launch, d);
              t.fleets == e.fleets + FleetLeft(launch, d) && t.templates == e.templates + TemplateLeft(launch, d)
  {
    LaunchTracked(e, resources, r, job, launch, d);
    LeftAfterReclaim(e, resources, r, job, launch, d);
    ReclaimTracked(AfterLaunch(e, launch, d), Submitted(resources, r, job, launch), {r}, d);
  }

  /**
   * All or nothing: a failed submission leaves EC2 as it was exactly when its clean-up could start
   * and those deletions went through.
   */
  lemma FailedSubmitLeavesNothingIff(e: Ec2, resources: map<ResourceId, JobResource>, r: ResourceId, job: JobId,
          launch: Launch, d: Deletions)
    requires r !in resources && Unseen(e, launch)
    ensures var t := AfterFailure(e, resources, r, job, launch, d);
            t.fleets == e.fleets && t.templates == e.templates <==> CleanupRuns(launch, d) && AllGranted(launch, d)
  {
    LeftAfterReclaim(e, resources, r, job, launch, d);
    if !CleanupRuns(launch, d) {
      assert launch.backing.template in AfterLaunch(e, launch, d).templates;
    } else {
      match launch
      case Refused =>
      case TemplateFails =>
      case FleetFails(t) =>
        assert !d.failedTemplate ==> t in TemplateLeft(launch, d);
      case Launched(b) =>
        assert FleetLeft(launch, d) != {} ==> b.fleet in FleetLeft(launch, d);
        assert !d.template(b.template) ==> b.template in TemplateLeft(launch, d);
    }
  }
}
