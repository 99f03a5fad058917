/**
 The multi-cluster test environment: Setup and Execute register a compensation before every change
 they make on the hub or a spoke, and Cleanup undoes them last first, stopping at the first failure.
 */
module KueueEnvironment {
  import opened Wrappers
  import opened Clusters
  import opened Scheduler
  import opened CleanupLog
  import opened FleetRecords
  import Json
  import F = KueueFrameworks

  const KUEUE_NAMESPACE := "openshift-kueue-operator"
  // retry.DefaultRetry makes at most this many attempts.
  const RETRY_STEPS := 5

  /** `configured` says that the clients and the REST configuration are present. */
  datatype Cluster = Cluster(name: string, host: string, configured: bool)

  function WorkerName(prefix: string, spoke: Cluster): string {
    prefix + "-" + spoke.name
  }

  function TrimSlash(host: string): string {
    if host != "" && host[|host| - 1] == '/' then host[..|host| - 1] else host
  }

  predicate IsLowerAlphanumeric(c: char) {
    'a' <= c <= 'z' || '0' <= c <= '9'
  }

  predicate IsDNS1123Label(s: string) {
    && 0 < |s| <= 63
    && (forall i | 0 <= i < |s| :: IsLowerAlphanumeric(s[i]) || s[i] == '-')
    && s[0] != '-' && s[|s| - 1] != '-'
  }

  function NamespaceLoc(c: nat, prefix: string): Loc {
    Loc(c, Namespace, "", prefix)
  }

  function SecretLoc(prefix: string, spoke: Cluster): Loc {
    Loc(0, Secret, KUEUE_NAMESPACE, WorkerName(prefix, spoke))
  }

  ghost predicate DistinctNames(spokes: seq<Cluster>) {
    forall i, j | 0 <= i < j < |spokes| :: spokes[i].name != spokes[j].name
  }

  /** Some object this run made at `loc` exists. */
  ghost predicate Holds(live: map<Loc, Obj>, created: set<(Loc, nat)>, loc: Loc) {
    exists made | made in created :: made.0 == loc && Alive(live, made)
  }

  /** Where the objects stand that the run and its waits go by. */
  lemma Places(c: nat, prefix: string, workload: string, spoke: Cluster)
    ensures RunLoc(c, prefix) == Loc(c, PipelineRun, prefix, prefix + "-run")
    ensures WorkloadLoc(c, prefix, workload) == Loc(c, Kind.Workload, prefix, workload)
    ensures NamespaceLoc(c, prefix) == Loc(c, Namespace, "", prefix)
    ensures KueueLoc(c) == Loc(c, KueueCR, "", "cluster")
    ensures SecretLoc(prefix, spoke) == Loc(0, Secret, "openshift-kueue-operator", prefix + "-" + spoke.name)
    ensures WorkerLoc(prefix, spoke) == Loc(0, MultiKueueCluster, "", prefix + "-" + spoke.name)
  {
  }

  predicate Complete(clusters: seq<Cluster>) {
    forall i | 0 <= i < |clusters| :: clusters[i].name != "" && clusters[i].configured
  }

  predicate DistinctServers(clusters: seq<Cluster>) {
    forall i, j | 0 <= i < j < |clusters| :: TrimSlash(clusters[i].host) != TrimSlash(clusters[j].host)
  }

  lemma LabelMeans(s: string)
    ensures IsDNS1123Label(s) <==>
            && 1 <= |s| <= 63 && s[0] != '-' && s[|s| - 1] != '-'
            && forall i | 0 <= i < |s| :: 'a' <= s[i] <= 'z' || '0' <= s[i] <= '9' || s[i] == '-'
  {
  }

  predicate EndsInSlash(host: string) {
    host != "" && host[|host| - 1] == '/'
  }

  /** Two hosts are the same server exactly when they differ in nothing but one slash at the end. */
  lemma SameServerIff(a: string, b: string)
    ensures TrimSlash(a) == TrimSlash(b) <==>
            a == b || (a == b + "/" && !EndsInSlash(b)) || (b == a + "/" && !EndsInSlash(a))
  {
    assert EndsInSlash(a) ==> a == TrimSlash(a) + "/";
    assert EndsInSlash(b) ==> b == TrimSlash(b) + "/";
  }

  /** What validation asks for: a DNS label as prefix and complete clusters on distinct servers. */
  predicate Acceptable(hub: Cluster, spokes: seq<Cluster>, prefix: string) {
    IsDNS1123Label(prefix) && spokes != [] && Complete([hub] + spokes) && DistinctServers([hub] + spokes)
  }

  /** An answer about something else than the execution of the run. */
  predicate NoRunLook(sighting: Sighting) {
    sighting.SectionRead? ||
    (sighting.Saw? && !sighting.loc.kind.PipelineRun? && !sighting.loc.kind.Workload?)
  }

  /** Since `from` neither PipelineRuns nor Workloads were looked at, and no TaskRuns listed. */
  ghost predicate NoRunLooks(sightings: seq<Sighting>, from: nat) {
    forall k | from <= k < |sightings| :: NoRunLook(sightings[k])
  }

  /** An object stands where Setup would create one, or the Kueue object cannot be edited. */
  predicate Hinders(sighting: Sighting) {
    && sighting.Saw? && sighting.found.Some?
    && (sighting.loc.kind.KueueCR? ==> !F.Editable(sighting.found.value.content))
  }

  ghost predicate Hindered(sightings: seq<Sighting>, from: nat) {
    exists k | from <= k < |sightings| :: Hinders(sightings[k])
  }

  lemma HinderedBy(sightings: seq<Sighting>, from: nat, k: nat)
    requires from <= k < |sightings| && Hinders(sightings[k])
    ensures Hindered(sightings, from)
  {
  }

  /** The namespaces of the first `n` clusters are in `targets`. */
  ghost predicate Targeted(targets: set<Loc>, prefix: string, n: nat) {
    forall c | 0 <= c < n :: NamespaceLoc(c, prefix) in targets
  }

  ghost predicate HoldSecrets(live: map<Loc, Obj>, created: set<(Loc, nat)>, prefix: string, spokes: seq<Cluster>,
      n: nat)
    requires n <= |spokes|
  {
    forall k | 0 <= k < n :: Holds(live, created, SecretLoc(prefix, spokes[k]))
  }

  /** Where the run created something. */
  ghost function MadeAt(created: set<(Loc, nat)>): set<Loc> {
    set made | made in created :: made.0
  }

  function QueueLocs(c: nat, prefix: string): set<Loc> {
    {Loc(c, ResourceFlavor, "", prefix), Loc(c, ClusterQueue, "", prefix), Loc(c, LocalQueue, prefix, prefix)}
  }

  function ClusterRBACLocs(c: nat, name: string): set<Loc> {
    {Loc(c, ClusterRole, "", name), Loc(c, ClusterRoleBinding, "", name)}
  }

  function NamespaceLocs(c: nat, prefix: string): set<Loc> {
    {NamespaceLoc(c, prefix)} + ClusterRBACLocs(c, prefix + "-kueue-controller")
  }

  /** The identity a spoke's worker credential belongs to. */
  function IdentityLocs(c: nat, prefix: string, name: string): set<Loc> {
    ClusterRBACLocs(c, name) +
    {Loc(c, ServiceAccount, prefix, name), Loc(c, Kind.Role, prefix, name), Loc(c, RoleBinding, prefix, name)}
  }

  function SpokeLocs(prefix: string, spokes: seq<Cluster>, i: nat): set<Loc>
    requires i < |spokes|
  {
    QueueLocs(i + 1, prefix) + IdentityLocs(i + 1, prefix, WorkerName(prefix, spokes[i])) +
        {SecretLoc(prefix, spokes[i])}
  }

  function WorkerLoc(prefix: string, spoke: Cluster): Loc {
    Loc(0, MultiKueueCluster, "", WorkerName(prefix, spoke))
  }

  lemma KindOfWorker(prefix: string, spoke: Cluster)
    ensures WorkerLoc(prefix, spoke).kind.MultiKueueCluster?
  {
  }

  function HubLocs(prefix: string): set<Loc> {
    QueueLocs(0, prefix) +
    {Loc(0, MultiKueueConfig, "", prefix), Loc(0, AdmissionCheck, "", prefix), Loc(0, NetworkPolicy, KUEUE_NAMESPACE,
        prefix)}
  }

  ghost predicate NamespacesMade(made: set<Loc>, prefix: string, n: nat) {
    forall c | 0 <= c < n :: NamespaceLocs(c, prefix) <= made
  }

  ghost predicate SpokesMade(made: set<Loc>, prefix: string, spokes: seq<Cluster>, n: nat)
    requires n <= |spokes|
  {
    forall i | 0 <= i < n :: SpokeLocs(prefix, spokes, i) <= made
  }

  ghost predicate WorkersMade(made: set<Loc>, prefix: string, spokes: seq<Cluster>, n: nat)
    requires n <= |spokes|
  {
    forall i | 0 <= i < n :: WorkerLoc(prefix, spokes[i]) in made
  }

  /** The run created every object the environment is made of. */
  ghost predicate Provisioned(made: set<Loc>, prefix: string, spokes: seq<Cluster>) {
    && NamespacesMade(made, prefix, |spokes| + 1)
    && SpokesMade(made, prefix, spokes, |spokes|)
    && WorkersMade(made, prefix, spokes, |spokes|)
    && HubLocs(prefix) <= made
  }

  lemma ProvisionedStays(made: set<Loc>, made': set<Loc>, prefix: string, spokes: seq<Cluster>)
    requires Provisioned(made, prefix, spokes) && made <= made'
    ensures Provisioned(made', prefix, spokes)
  {
    hide NamespaceLocs, SpokeLocs, WorkerLoc, HubLocs;
  }

  /**
   The scheduler section of cluster `c` was written with the scheduler and the multi-cluster mode on, the role and the
   queue of the test, the MultiKueue override exactly on the hub, and everything else as it was found.
   */
  ghost predicate Enabled(writes: seq<SectionWrite>, c: nat, role: MultiClusterRole, prefix: string) {
    exists w | w in writes ::
      w.cluster == c && w.value == Scheduler(Some(false), false, role, prefix, role == Hub, w.found.rest)
  }

  function RoleOf(hub: Cluster, spokes: seq<Cluster>, c: nat): MultiClusterRole
    requires c <= |spokes|
  {
    if ([hub] + spokes)[c].name == hub.name then Hub else Spoke
  }

  function SpokeRole(hub: Cluster, spokes: seq<Cluster>, i: nat): MultiClusterRole
    requires i < |spokes|
  {
    RoleOf(hub, spokes, i + 1)
  }

  /** Roles go by name: every spoke is enabled as one exactly when none shares the hub's name. */
  lemma SpokesEnabledAsSpokes(hub: Cluster, spokes: seq<Cluster>)
    ensures RoleOf(hub, spokes, 0) == Hub
    ensures (forall i | 0 <= i < |spokes| :: SpokeRole(hub, spokes, i) == Spoke) <==>
            (forall i | 0 <= i < |spokes| :: spokes[i].name != hub.name)
  {
    forall i | 0 <= i < |spokes|
      ensures SpokeRole(hub, spokes, i) == if spokes[i].name == hub.name then Hub else Spoke
    {
    }
  }

  /** Such a configuration passes validation: any hub, and a spoke of its name on another server. */
  lemma HubNameIsAdmitted(name: string, host: string, other: string, prefix: string)
    requires name != "" && TrimSlash(host) != TrimSlash(other) && IsDNS1123Label(prefix)
    ensures
      var hub, spoke := Cluster(name, host, true), Cluster(name, other, true);
      Acceptable(hub, [spoke], prefix) && RoleOf(hub, [spoke], 1) == Hub
  {
    hide IsDNS1123Label, TrimSlash;
    var hub, spoke := Cluster(name, host, true), Cluster(name, other, true);
    assert [hub] + [spoke] == [hub, spoke];
  }

  ghost predicate EnabledUpTo(writes: seq<SectionWrite>, hub: Cluster, spokes: seq<Cluster>, n: nat, prefix: string)
    requires n <= |spokes| + 1
  {
    forall c | 0 <= c < n ::
      Enabled(writes, c, if ([hub] + spokes)[c].name == hub.name then Hub else Spoke, prefix)
  }

  /** After Setup the hub has the hub's section, and a spoke a spoke's unless it shares the hub's name. */
  lemma EnabledByName(writes: seq<SectionWrite>, hub: Cluster, spokes: seq<Cluster>, prefix: string, i: nat)
    requires EnabledUpTo(writes, hub, spokes, |spokes| + 1, prefix) && i < |spokes|
    ensures Enabled(writes, 0, Hub, prefix)
    ensures Enabled(writes, i + 1, if spokes[i].name == hub.name then Hub else Spoke, prefix)
  {
    hide Enabled;
    assert ([hub] + spokes)[0] == hub && ([hub] + spokes)[i + 1] == spokes[i];
  }

  class Environment {
    const fleet: Fleet
    const hub: Cluster
    const spokes: seq<Cluster>
    const prefix: string
    var workloadName: string
    var cleanups: seq<Cleanup>
    ghost var ids: seq<nat>
    ghost var log: Log

    constructor (fleet: Fleet, hub: Cluster, spokes: seq<Cluster>, prefix: string)
      requires fleet.Valid() && fleet.created == {} && fleet.confirmed == {}
      requires fleet.deletions == [] && fleet.strips == [] && fleet.replacements == [] && fleet.sectionWrites == []
      ensures this.fleet == fleet && this.hub == hub && this.spokes == spokes && this.prefix == prefix
      ensures Inv() && cleanups == [] && log == []
    {
      this.fleet, this.hub, this.spokes, this.prefix := fleet, hub, spokes, prefix;
      workloadName, cleanups, ids, log := "", [], [], [];
    }

    /** The clusters, the stack `cs` and the history agree. */
    ghost predicate Base(cs: seq<Cleanup>, ns: seq<nat>)
      reads this, fleet
    {
      && fleet.Valid()
      && Covered(fleet.live, fleet.created, Targets(cs))
      && Lawful(log, ns, cs, 1 + |spokes|, prefix)
      && workloadName == RecordedWorkload(log)
    }

    /** The history `entries` tells of exactly what the run did to the clusters, and of what they answered. */
    ghost predicate Recording(entries: Log)
      reads this, fleet
    {
      Records(entries, Known())
    }

    /** What the clusters did for the run and told it. */
    ghost function Known(): Facts
      reads this, fleet
    {
      Facts(fleet.created, fleet.confirmed, Changed(), fleet.sightings)
    }

    ghost function Changed(): Changes
      reads this, fleet
    {
      Changes(fleet.deletions, fleet.strips, fleet.replacements, fleet.sectionWrites)
    }

    /** What holds at every point between two calls, for the pending list `cs`. */
    ghost predicate InvFor(cs: seq<Cleanup>, ns: seq<nat>)
      reads this, fleet
    {
      Base(cs, ns) && Recording(log)
    }

    /** The same when no cleanup is running. */
    ghost predicate Inv()
      reads this, fleet
    {
      InvFor(cleanups, ids) && Current(log) == None
    }

    /** What every step of Setup and Execute does to the world and the stack. */
    twostate predicate Progress()
      reads this, fleet
    {
      && old(Targets(cleanups)) <= Targets(cleanups)
      && old(fleet.created) <= fleet.created
      && old(MadeAt(fleet.created)) <= MadeAt(fleet.created)
      && fleet.deletions == old(fleet.deletions) && fleet.strips == old(fleet.strips)
      && old(fleet.sectionWrites) <= fleet.sectionWrites
      && old(fleet.sightings) <= fleet.sightings && NoRunLooks(fleet.sightings, |old(fleet.sightings)|)
      && old(log) <= log
      && old(fleet.errors) <= fleet.errors && old(fleet.timeouts) <= fleet.timeouts
      && (!fleet.disturbed ==> !old(fleet.disturbed) && Kept(old(fleet.live), old(fleet.created), fleet.live))
    }

    /** Nothing that was seen is forgotten. */
    twostate predicate Forward()
      reads this, fleet
    {
      && old(fleet.sightings) <= fleet.sightings
      && old(fleet.errors) <= fleet.errors && old(fleet.timeouts) <= fleet.timeouts
    }

    /** What a step of Setup may fail for: a call reported an error, a wait ran out, or an answer was in the way. */
    twostate predicate Excused()
      reads this, fleet
    {
      || old(fleet.errors) < fleet.errors || old(fleet.timeouts) < fleet.timeouts
      || Hindered(fleet.sightings, |old(fleet.sightings)|)
    }

    /** What a cleanup may fail for. */
    twostate predicate Stuck(c: Cleanup)
      reads this, fleet
    {
      || old(fleet.errors) < fleet.errors || old(fleet.timeouts) < fleet.timeouts
      || Blocked(c, fleet.sightings, |old(fleet.sightings)|, prefix)
    }

    /** The same, with registrations of one stage only. */
    twostate predicate Grew(stage: nat)
      reads this, fleet
    {
      Progress() && (old(Staged(log) && UpTo(log, stage)) ==> Staged(log) && UpTo(log, stage))
    }

    /** Reads one object; other actors may have changed anything before the answer. */
    method Look(loc: Loc, ghost cs: seq<Cleanup>, ghost ns: seq<nat>) returns (r: Lookup)
      requires InvFor(cs, ns)
      modifies fleet`live, fleet`next, fleet`disturbed, fleet`scheduler, fleet`sightings, fleet`errors
      ensures InvFor(cs, ns)
      ensures old(fleet.next) <= fleet.next && NoResurrection(old(fleet.live), old(fleet.next), fleet.live)
      ensures !fleet.disturbed ==> !old(fleet.disturbed) && Kept(old(fleet.live), fleet.created, fleet.live)
      ensures r.Found? ==> loc in fleet.live && r.obj == fleet.live[loc]
      ensures r.Found? && loc.kind.KueueCR? ==> r.obj.content.Object?
      ensures r.NotFound? ==> loc !in fleet.live && Vacated(fleet.live, fleet.created, loc)
      ensures fleet.sightings == old(fleet.sightings) + Answer(loc, r) && Clock(log) <= |old(fleet.sightings)|
      ensures forall l | Vacated(old(fleet.live), fleet.created, l) :: Vacated(fleet.live, fleet.created, l)
      ensures fleet.errors == old(fleet.errors) + (if !r.Failed? then 0 else 1)
    {
      hide Lawful, Records, Current, Clock, RecordedWorkload;
      ghost var known := Known();
      r := fleet.Get(loc);
      RecordsSee(log, known, fleet.sightings);
    }

    /** Reads the scheduler section of a cluster. */
    method LookAtSection(c: nat, ghost cs: seq<Cleanup>, ghost ns: seq<nat>) returns (value: Option<Scheduler>)
      requires InvFor(cs, ns)
      modifies fleet`live, fleet`next, fleet`disturbed, fleet`scheduler, fleet`sightings, fleet`errors
      ensures InvFor(cs, ns)
      ensures !fleet.disturbed ==> !old(fleet.disturbed) && Kept(old(fleet.live), fleet.created, fleet.live)
      ensures value.Some? ==> c in fleet.scheduler && fleet.scheduler[c] == value.value
      ensures fleet.sightings == old(fleet.sightings) + (if value.Some? then [SectionRead(c, value.value)] else [])
      ensures Clock(log) <= |old(fleet.sightings)|
      ensures fleet.errors == old(fleet.errors) + (if value.Some? then 0 else 1)
    {
      hide Lawful, Records, Current, Clock, RecordedWorkload;
      ghost var known := Known();
      value := fleet.ReadSection(c);
      RecordsSee(log, known, fleet.sightings);
    }

    /** Adds an event to the history; what the run just did to the clusters must be told by it. */
    ghost method Note(e: Event, cs: seq<Cleanup>, ns: seq<nat>)
      requires Base(cs, ns) && Recording(log + [e])
      requires Quiet(e) && !e.Recorded? && Law(log, e, 1 + |spokes|, prefix)
      modifies this`log
      ensures log == old(log) + [e]
      ensures InvFor(cs, ns) && Extends(old(log), log)
    {
      hide Lawful, Law, Records, Covered, Current, Clock, RecordedWorkload;
      Observe(log, ns, cs, 1 + |spokes|, prefix, e);
      LastOf(log, e);
      log := log + [e];
    }

    /** Notes something that was only seen, as the clusters answered it. */
    ghost method NoteSeen(e: Event, cs: seq<Cleanup>, ns: seq<nat>)
      requires InvFor(cs, ns) && Told(e, fleet.sightings) && !IsChange(e)
      requires Quiet(e) && !e.Recorded? && Law(log, e, 1 + |spokes|, prefix)
      modifies this`log
      ensures log == old(log) + [e]
      ensures InvFor(cs, ns) && Extends(old(log), log)
    {
      hide Law, Records, Covered, AllLawful, Pending, Current, Clock, RecordedWorkload;
      RecordsNext(log, e, 1 + |spokes|, prefix, Known());
      Note(e, cs, ns);
    }

    /** Notes that the latest answer of the clusters was an absence. */
    ghost method NoteAbsent(loc: Loc, cs: seq<Cleanup>, ns: seq<nat>)
      requires InvFor(cs, ns) && Current(log).Some?
      requires Clock(log) < |fleet.sightings| && fleet.sightings[|fleet.sightings| - 1] == Saw(loc, None)
      modifies this`log
      ensures log == old(log) + [Absent(loc, |fleet.sightings| - 1)]
      ensures InvFor(cs, ns) && Extends(old(log), log)
    {
      hide InvFor, Lawful, Records, Covered, Current, Clock, RecordedWorkload, Targets;
      NoteSeen(Absent(loc, |fleet.sightings| - 1), cs, ns);
    }

    method AddCleanup(c: Cleanup)
      requires Inv() && MayRegister(log, c, prefix)
      modifies this`cleanups, this`ids, this`log
      ensures Inv()
      ensures cleanups == old(cleanups) + [c] && ids == old(ids) + [|old(log)|]
      ensures log == old(log) + [Registered(c)]
      ensures Targets(cleanups) == old(Targets(cleanups)) + if c.Remove? then {c.loc} else {}
      ensures c.RestoreScheduler? || (old(Staged(log) && UpTo(log, Stage(c))) ==> Staged(log) && UpTo(log, Stage(c)))
      ensures c.RestoreScheduler? && old(Staged(log) && UpTo(log, 2) && SavedBelow(log, c.cluster)) ==>
                Staged(log) && UpTo(log, 2) && SavedBelow(log, c.cluster + 1)
    {
      hide AllLawful, Pending, Covered, Records, Staged, UpTo, SavedBelow, Targets, MayRegister, Current, Clock,
           RecordedWorkload;
      if c.RestoreScheduler? ==> SavedBelow(log, c.cluster) {
        StagesNext(log, c);
      }
      Register(log, ids, cleanups, 1 + |spokes|, prefix, c);
      RecordsNext(log, Registered(c), 1 + |spokes|, prefix, Known());
      LastOf(log, Registered(c));
      TargetsOfPush(cleanups, c);
      CoveredByMore(fleet.live, fleet.created, Targets(cleanups), Targets(cleanups + [c]));
      cleanups, ids, log := cleanups + [c], ids + [|log|], log + [Registered(c)];
    }

    /** Remembers the workload that belongs to the run. */
    method RecordWorkload(name: string)
      requires Inv()
      modifies this`log, this`workloadName
      ensures Inv() && Extends(old(log), log)
      ensures log == old(log) + [Recorded(name)] && workloadName == name
    {
      hide AllLawful, Pending, Covered, Records, Current, Clock, RecordedWorkload;
      ghost var e := Recorded(name);
      Observe(log, ids, cleanups, 1 + |spokes|, prefix, e);
      RecordsNext(log, e, 1 + |spokes|, prefix, Known());
      LastOf(log, e);
      workloadName, log := name, log + [e];
    }

    /** A wait for readiness, or another check outside of this model. */
    method Await(ghost cs: seq<Cleanup>, ghost ns: seq<nat>) returns (ok: bool)
      requires InvFor(cs, ns)
      modifies fleet`timeouts
      ensures InvFor(cs, ns) && fleet.timeouts == old(fleet.timeouts) + (if ok then 0 else 1)
    {
      hide Lawful, Covered, Records, Current, Clock, RecordedWorkload, Targets;
      ok := fleet.Check();
    }

    ghost method GiveUp(cs: seq<Cleanup>, ns: seq<nat>)
      requires InvFor(cs, ns)
      modifies fleet`timeouts
      ensures InvFor(cs, ns) && fleet.timeouts == old(fleet.timeouts) + 1
    {
      hide Lawful, Covered, Records, Current, Clock, RecordedWorkload, Targets;
      fleet.RunOut();
    }

    method ListTaskRuns(c: nat) returns (count: Option<nat>)
      requires Inv()
      modifies fleet`sightings, fleet`errors
      ensures Inv()
      ensures fleet.sightings == old(fleet.sightings) + (if count.Some? then [TaskRunsListed(c, count.value)] else [])
      ensures fleet.errors == old(fleet.errors) + (if count.Some? then 0 else 1)
    {
      hide Lawful, Covered, Records, Current, Clock, RecordedWorkload, Targets;
      ghost var known := Known();
      count := fleet.ListTaskRuns(c);
      RecordsSee(log, known, fleet.sightings);
    }

    method ReadLogs(c: nat) returns (text: Option<string>)
      requires Inv()
      modifies fleet`sightings, fleet`errors
      ensures Inv()
      ensures fleet.sightings == old(fleet.sightings) + (if text.Some? then [LogsRead(c, text.value)] else [])
      ensures fleet.errors == old(fleet.errors) + (if text.Some? then 0 else 1)
    {
      hide Lawful, Covered, Records, Current, Clock, RecordedWorkload, Targets;
      ghost var known := Known();
      text := fleet.ReadLogs(c);
      RecordsSee(log, known, fleet.sightings);
    }

    /** Lists the workloads of the run's namespace on the hub. */
    method ListHubWorkloads() returns (items: Option<seq<(string, Obj)>>)
      requires Inv()
      modifies fleet`live, fleet`next, fleet`disturbed, fleet`scheduler, fleet`errors
      ensures Inv()
      ensures !fleet.disturbed ==> !old(fleet.disturbed) && Kept(old(fleet.live), fleet.created, fleet.live)
      ensures items.Some? ==> ListsWorkloads(fleet.live, 0, prefix, items.value)
      ensures fleet.errors == old(fleet.errors) + (if items.Some? then 0 else 1)
    {
      hide Lawful, Records, ListsWorkloads, Current, Clock, RecordedWorkload;
      items := fleet.ListWorkloads(0, prefix);
    }

    // ---- Setup ----

    /** Puts the id a create returned into the cleanup registered just before it. */
    method CaptureUid(uid: nat)
      requires Base(cleanups, ids) && log != [] && Recording(log + [Confirmed(|log| - 1, uid)]) && Current(log) == None
      requires cleanups != [] && cleanups[|cleanups| - 1].Remove? && |ids| == |cleanups| && ids[|ids| - 1] + 1 == |log|
      modifies this`cleanups, this`log
      ensures Inv()
      ensures cleanups == old(cleanups)[|old(cleanups)| - 1 := Remove(old(cleanups)[|old(cleanups)| - 1].loc,
                Some(uid))]
      ensures Targets(cleanups) == old(Targets(cleanups)) && log == old(log) + [Confirmed(|old(log)| - 1, uid)]
    {
      hide AllLawful, Pending, Covered, Records, Targets, Current, Clock, RecordedWorkload;
      var top := |cleanups| - 1;
      Capture(log, ids, cleanups, 1 + |spokes|, prefix, uid);
      CaptureKeepsTargets(cleanups, uid);
      LastOf(log, Confirmed(|log| - 1, uid));
      cleanups, log := cleanups[top := Remove(cleanups[top].loc, Some(uid))], log + [Confirmed(|log| - 1, uid)];
    }

    /** Creates an object that a pending cleanup covers, its own or its namespace's. */
    method CreateCovered(loc: Loc, content: Json.Json) returns (uid: Option<nat>)
      requires Inv() && (loc.kind.KueueCR? ==> content.Object?)
      requires loc in Targets(cleanups) || (loc.ns != "" && Home(loc) in Targets(cleanups))
      modifies fleet`live, fleet`next, fleet`disturbed, fleet`scheduler, fleet`created, fleet`confirmed, fleet`errors
      ensures Base(cleanups, ids) && Progress()
      ensures fleet.confirmed == old(fleet.confirmed) + if uid.Some? then {(loc, uid.value)} else {}
      ensures uid.Some? ==> (loc, uid.value) in fleet.created && loc in MadeAt(fleet.created)
      ensures uid.Some? ==> loc in fleet.live && fleet.live[loc].content == content
      ensures uid.Some? && !fleet.disturbed ==>
        && Holds(fleet.live, fleet.created, loc)
        && !Holds(old(fleet.live), old(fleet.created), loc)
      ensures !uid.Some? ==> old(fleet.errors) < fleet.errors
      ensures uid.Some? ==> Labelled(fleet.live[loc].labels, prefix)
    {
      hide Lawful, Records, Labelled, Current, Clock, RecordedWorkload;
      LabelsTellRunsApart(prefix, prefix);
      uid := fleet.Create(loc, OwnedLabels(prefix), content);
      assert uid.Some? ==> ((loc, uid.value)) in fleet.created;
    }

    /**
     Registers the removal of `loc`, creates it and captures the id of a confirmed create: the cleanup on top
     of the stack then holds it, and without a confirmation none.
     */
    method RegisterThenCreate(loc: Loc, content: Json.Json) returns (ok: bool, uid: nat)
      requires Inv() && !InsideNamespace(loc.kind) && (loc.kind.KueueCR? ==> content.Object?)
      requires loc.kind.PipelineRun? ==> loc == RunLoc(0, prefix)
      modifies this`cleanups, this`ids, this`log, fleet`live, fleet`next, fleet`disturbed, fleet`scheduler,
               fleet`created, fleet`confirmed, fleet`errors
      ensures Inv() && Grew(Stage(Remove(loc, None)))
      ensures cleanups == old(cleanups) + [Remove(loc, if ok then Some(uid) else None)]
      ensures ok ==> (loc, uid) in fleet.created && fleet.confirmed == old(fleet.confirmed) + {(loc, uid)}
      ensures !ok ==> fleet.confirmed == old(fleet.confirmed)
      ensures loc in Targets(cleanups) && (ok ==> loc in MadeAt(fleet.created))
      ensures ok ==> loc in fleet.live && fleet.live[loc].content == content
      ensures ok && !fleet.disturbed ==>
        && Holds(fleet.live, fleet.created, loc)
        && !Holds(old(fleet.live), old(fleet.created), loc)
      ensures !ok ==> old(fleet.errors) < fleet.errors
      ensures ok ==> Labelled(fleet.live[loc].labels, prefix)
    {
      hide InvFor, Lawful, Covered, Records, Holds, Alive, MadeAt, Staged, UpTo, SavedBelow, Labelled, Current, Clock,
           RecordedWorkload;
      AddCleanup(Remove(loc, None));
      ok, uid := CreateCaptured(loc, content);
    }

    /** Creates the object whose removal was just registered and captures the id of a confirmed create. */
    method CreateCaptured(loc: Loc, content: Json.Json) returns (ok: bool, uid: nat)
      requires Inv() && (loc.kind.KueueCR? ==> content.Object?) && log != [] && cleanups != []
      requires log[|log| - 1] == Registered(Remove(loc, None)) && cleanups[|cleanups| - 1] == Remove(loc, None)
      requires ids != [] && ids[|ids| - 1] == |log| - 1 && loc in Targets(cleanups)
      modifies this`cleanups, this`log, fleet`live, fleet`next, fleet`disturbed, fleet`scheduler, fleet`created,
               fleet`confirmed, fleet`errors
      ensures Inv() && Progress() && KeepsStages(old(log), log)
      ensures cleanups == old(cleanups)[|old(cleanups)| - 1 := Remove(loc, if ok then Some(uid) else None)]
      ensures ok ==> (loc, uid) in fleet.created && fleet.confirmed == old(fleet.confirmed) + {(loc, uid)}
      ensures !ok ==> fleet.confirmed == old(fleet.confirmed)
      ensures loc in Targets(cleanups) && (ok ==> loc in MadeAt(fleet.created))
      ensures ok ==> loc in fleet.live && fleet.live[loc].content == content
      ensures ok && !fleet.disturbed ==>
        && Holds(fleet.live, fleet.created, loc)
        && !Holds(old(fleet.live), old(fleet.created), loc)
      ensures !ok ==> old(fleet.errors) < fleet.errors
      ensures ok ==> Labelled(fleet.live[loc].labels, prefix)
    {
      hide AllLawful, Pending, Covered, Records, Holds, Alive, MadeAt, Targets, KeepsStages, Labelled, Current, Clock,
           RecordedWorkload;
      uid := 0;
      ghost var known := Known();
      var id := CreateCovered(loc, content);
      RecordsCreate(log, known, fleet.created, known.confirmed);
      if id.None? {
        assert fleet.confirmed == known.confirmed;
        ExtendsKeepsStages(log, log);
        return false, uid;
      }
      RecordsCapture(log, 1 + |spokes|, prefix, loc, id.value, known.(created := fleet.created));
      PendingLength(log, ids, cleanups, 1 + |spokes|, prefix);
      CaptureUid(id.value);
      ConfirmedKeepsStages(old(log), id.value);
      ok, uid := true, id.value;
    }

    /** Creates an owned object under a name that must be free. */
    method CreateOwned(loc: Loc) returns (ok: bool)
      requires Inv() && !loc.kind.PipelineRun? && !loc.kind.Workload? && !loc.kind.KueueCR?
      requires !InsideNamespace(loc.kind)
      modifies this`cleanups, this`ids, this`log, fleet
      ensures Inv() && Grew(Stage(Remove(loc, None)))
      ensures ok ==> loc in Targets(cleanups) && loc in MadeAt(fleet.created)
      ensures !ok ==> Excused()
    {
      hide InvFor, Lawful, Current, Clock, RecordedWorkload;
      var r := Look(loc, cleanups, ids);
      if !r.NotFound? {
        if r.Found? {
          HinderedBy(fleet.sightings, |old(fleet.sightings)|, |fleet.sightings| - 1);
        }
        return false;
      }
      var uid;
      ok, uid := RegisterThenCreate(loc, Json.Null);
    }

    /** Creates an object that has no cleanup of its own and goes away with its namespace. */
    method CreateInside(loc: Loc) returns (ok: bool)
      requires Inv() && InsideNamespace(loc.kind)
      requires loc.ns != "" && Home(loc) in Targets(cleanups)
      modifies fleet`live, fleet`next, fleet`disturbed, fleet`scheduler, fleet`created, fleet`confirmed, fleet`errors
      ensures Inv() && Progress()
      ensures ok ==> loc in MadeAt(fleet.created)
      ensures !ok ==> old(fleet.errors) < fleet.errors
    {
      hide Lawful, Covered, Records, Targets, MadeAt, Alive, Current, Clock, RecordedWorkload;
      ghost var known := Known();
      var uid := CreateCovered(loc, Json.Null);
      RecordsCreate(log, known, fleet.created, fleet.confirmed);
      ok := uid.Some?;
    }

    /**
     Creates the Kueue CR, or adds the entry to the framework lists of the existing one that lack it. On
     success the object, as it is on the cluster, lacks nothing.
     */
    method EnsureKueue(c: nat) returns (ok: bool)
      requires Inv()
      modifies this`cleanups, this`ids, this`log, fleet
      ensures Inv() && Grew(0)
      ensures ok ==> KueueLoc(c) in fleet.live && F.Integrated(fleet.live[KueueLoc(c)].content)
      ensures !ok ==> Excused()
    {
      hide InvFor, Lawful, Covered, Records, F.Lacking, F.RequiredKueue, F.Integrated, F.ListsPipelineRuns, F.Editable,
           MadeAt, Staged, UpTo, SavedBelow, Targets, Current, Clock, RecordedWorkload;
      var r := Look(KueueLoc(c), cleanups, ids);
      match r {
        case NotFound =>
          F.RequiredIsComplete(LabelsDocument(prefix));
          var uid;
          ok, uid := RegisterThenCreate(KueueLoc(c), F.RequiredKueue(LabelsDocument(prefix)));
          F.LackingMeans(F.RequiredKueue(LabelsDocument(prefix)), []);
        case Failed =>
          ok := false;
        case Found(obj) =>
          if !F.Editable(obj.content) {
            HinderedBy(fleet.sightings, |old(fleet.sightings)|, |fleet.sightings| - 1);
          }
          ok := IntegrateKueue(c, obj);
          if ok {
            F.LackingMeans(fleet.live[KueueLoc(c)].content, []);
          }
      }
    }

    /** The update is sent once; a cleanup for the lists found lacking is registered before. */
    method IntegrateKueue(c: nat, obj: Obj) returns (ok: bool)
      requires Inv() && KueueLoc(c) in fleet.live && fleet.live[KueueLoc(c)] == obj && obj.content.Object?
      modifies this`cleanups, this`ids, this`log, fleet`live, fleet`next, fleet`disturbed, fleet`scheduler,
               fleet`replacements, fleet`errors
      ensures Inv() && Grew(0)
      ensures ok ==> KueueLoc(c) in fleet.live && F.Lacking(fleet.live[KueueLoc(c)].content, F.THE_LISTS) == []
      ensures log == old(log) || (|old(log)| < |log| &&
                log[|old(log)|] == Registered(RemoveFrameworks(c, F.Lacking(obj.content, F.THE_LISTS))))
      ensures log == old(log) || F.Lacking(obj.content, F.THE_LISTS) == [] ==>
                log == old(log) && fleet.replacements == old(fleet.replacements)
      ensures !ok ==> old(fleet.errors) < fleet.errors || !F.Editable(obj.content)
    {
      hide InvFor, Lawful, Covered, Records, F.Lacking, F.AddAll, F.Editable, F.Integrated, F.ListsPipelineRuns,
           F.Apart, MadeAt, Staged, UpTo, SavedBelow, Targets, Current, Clock, RecordedWorkload;
      var copy := new F.Unstructured(obj.content);
      var changed := F.EnsurePipelineRunIntegration(copy);
      if changed.None? {
        return false;
      }
      if changed.value == [] {
        return true;
      }
      LackingIsApart(obj.content);
      AddCleanup(RemoveFrameworks(c, changed.value));
      JustRegistered();
      ok := SendIntegration(c, obj, copy.doc);
    }

    method SendIntegration(c: nat, obj: Obj, doc: Json.Json) returns (ok: bool)
      requires Inv() && KueueLoc(c) in fleet.live && fleet.live[KueueLoc(c)] == obj && doc.Object?
      requires log != [] && Links(log, |log| - 1, c, obj.content, doc)
      modifies this`log, fleet`live, fleet`next, fleet`disturbed, fleet`scheduler, fleet`replacements, fleet`errors
      ensures Inv() && Progress() && KeepsStages(old(log), log)
      ensures ok ==> KueueLoc(c) in fleet.live && F.Lacking(fleet.live[KueueLoc(c)].content, F.THE_LISTS) == []
      ensures if log == old(log) then fleet.replacements == old(fleet.replacements)
              else log == old(log) + [Linked(c, obj.content, doc)] &&
                   fleet.replacements == old(fleet.replacements) + [Replacement(KueueLoc(c), obj.content, doc)]
      ensures !ok ==> old(fleet.errors) < fleet.errors
    {
      hide InvFor, Lawful, Records, Covered, F.Lacking, F.AddAll, KeepsStages, Current, Clock, RecordedWorkload;
      var a;
      ghost var effective;
      assert Links(log, |log| - 1, c, obj.content, doc);
      a, effective := WriteKueue(c, obj, doc, Linked(c, obj.content, doc), cleanups, ids);
      LinkedLacksNothing(old(log), c, obj.content, doc);
      ExtendsKeepsStages(old(log), log);
      ok := a.Done?;
    }

    /** Sends a Kueue object that was just read and changed; the history tells if that took effect. */
    method WriteKueue(c: nat, obj: Obj, doc: Json.Json, ghost e: Event, ghost cs: seq<Cleanup>, ghost ns: seq<nat>)
      returns (a: Attempt, ghost effective: bool)
      requires InvFor(cs, ns) && KueueLoc(c) in fleet.live && fleet.live[KueueLoc(c)] == obj && doc.Object?
      requires e == Linked(c, obj.content, doc) || e == Unlinked(c, obj.content, doc)
      requires Law(log, e, 1 + |spokes|, prefix)
      modifies this`log, fleet`live, fleet`next, fleet`disturbed, fleet`scheduler, fleet`replacements, fleet`errors
      ensures InvFor(cs, ns) && Extends(old(log), log)
      ensures !fleet.disturbed ==> !old(fleet.disturbed) && Kept(old(fleet.live), fleet.created, fleet.live)
      ensures (a.Done? ==> effective) && (a.Retry? ==> !effective)
      ensures log == old(log) + if effective then [e] else []
      ensures fleet.replacements ==
              old(fleet.replacements) + if effective then [Replacement(KueueLoc(c), obj.content, doc)] else []
      ensures effective ==> KueueLoc(c) in fleet.live && fleet.live[KueueLoc(c)].content == doc
      ensures fleet.errors == old(fleet.errors) + (if a.Done? then 0 else 1)
    {
      hide Lawful, Law, Records, Covered, Current, Clock, RecordedWorkload, Targets;
      ghost var known := Known();
      a, effective := UpdateCovered(KueueLoc(c), obj, doc, cs, ns);
      if effective {
        RecordsChange(log, e, 1 + |spokes|, prefix, ns, cs, known);
        Note(e, cs, ns);
      } else {
        assert fleet.replacements == known.changes.replacements;
      }
    }

    /** An update of an object that was just read. */
    method UpdateCovered(loc: Loc, obj: Obj, doc: Json.Json, ghost cs: seq<Cleanup>, ghost ns: seq<nat>)
      returns (a: Attempt, ghost effective: bool)
      requires Base(cs, ns) && loc in fleet.live && fleet.live[loc] == obj && doc.Object?
      modifies fleet`live, fleet`next, fleet`disturbed, fleet`scheduler, fleet`replacements, fleet`errors
      ensures Base(cs, ns)
      ensures !fleet.disturbed ==> !old(fleet.disturbed) && Kept(old(fleet.live), fleet.created, fleet.live)
      ensures (a.Done? ==> effective) && (a.Retry? ==> !effective)
      ensures fleet.replacements ==
              old(fleet.replacements) + if effective then [Replacement(loc, obj.content, doc)] else []
      ensures effective ==> loc in fleet.live && fleet.live[loc].content == doc
      ensures fleet.errors == old(fleet.errors) + (if a.Done? then 0 else 1)
    {
      hide Lawful, Current, Clock, RecordedWorkload;
      a, effective := fleet.Update(loc, obj, doc);
    }

    method CreateQueues(c: nat) returns (ok: bool)
      requires Inv()
      modifies this`cleanups, this`ids, this`log, fleet
      ensures Inv() && Grew(1)
      ensures ok ==> QueueLocs(c, prefix) <= MadeAt(fleet.created)
      ensures !ok ==> Excused()
    {
      hide InvFor, Lawful, Covered, Records, MadeAt, Staged, UpTo, Current, Clock, RecordedWorkload;
      ok := CreateOwned(Loc(c, ResourceFlavor, "", prefix));
      if ok {
        ok := CreateOwned(Loc(c, ClusterQueue, "", prefix));
      }
      if ok {
        ok := CreateOwned(Loc(c, LocalQueue, prefix, prefix));
      }
    }

    /** The scoped identity on the spoke and its credential on the hub. */
    method CreateWorkerCredential(i: nat) returns (ok: bool)
      requires Inv() && i < |spokes| && prefix != ""
      requires NamespaceLoc(i + 1, prefix) in Targets(cleanups)
      modifies this`cleanups, this`ids, this`log, fleet
      ensures Inv() && Grew(1)
      ensures ok && !fleet.disturbed ==>
        && Holds(fleet.live, fleet.created, SecretLoc(prefix, spokes[i]))
        && !Holds(old(fleet.live), old(fleet.created), SecretLoc(prefix, spokes[i]))
      ensures ok ==> IdentityLocs(i + 1, prefix, WorkerName(prefix, spokes[i])) <= MadeAt(fleet.created)
      ensures ok ==> SecretLoc(prefix, spokes[i]) in MadeAt(fleet.created)
      ensures !ok ==> Excused()
    {
      hide InvFor, Lawful, Covered, Records, MadeAt, Staged, UpTo, IdentityLocs, Current, Clock, RecordedWorkload;
      ok := CreateWorkerIdentity(i);
      if !ok {
        return;
      }
      ok := Await(cleanups, ids);
      if !ok {
        return;
      }
      var uid;
      ok, uid := RegisterThenCreate(SecretLoc(prefix, spokes[i]), Json.Null);
    }

    method CreateWorkerIdentity(i: nat) returns (ok: bool)
      requires Inv() && i < |spokes| && prefix != ""
      requires NamespaceLoc(i + 1, prefix) in Targets(cleanups)
      modifies this`cleanups, this`ids, this`log, fleet
      ensures Inv() && Grew(1)
      ensures ok ==> IdentityLocs(i + 1, prefix, WorkerName(prefix, spokes[i])) <= MadeAt(fleet.created)
      ensures !ok ==> Excused()
    {
      hide InvFor, Lawful, Covered, Records, MadeAt, Staged, UpTo, Current, Clock, RecordedWorkload;
      var name := WorkerName(prefix, spokes[i]);
      ok := CreateInside(Loc(i + 1, ServiceAccount, prefix, name));
      if ok {
        ok := CreateClusterRBAC(i + 1, name);
      }
      if ok {
        ok := CreateNamespacedRBAC(i + 1, name);
      }
    }

    method CreateClusterRBAC(c: nat, name: string) returns (ok: bool)
      requires Inv()
      modifies this`cleanups, this`ids, this`log, fleet
      ensures Inv() && Grew(1)
      ensures ok ==> ClusterRBACLocs(c, name) <= MadeAt(fleet.created)
      ensures !ok ==> Excused()
    {
      hide InvFor, Lawful, Covered, Records, MadeAt, Staged, UpTo, Current, Clock, RecordedWorkload;
      ok := CreateOwned(Loc(c, ClusterRole, "", name));
      if ok {
        ok := CreateOwned(Loc(c, ClusterRoleBinding, "", name));
      }
    }

    method CreateNamespacedRBAC(c: nat, name: string) returns (ok: bool)
      requires Inv() && prefix != ""
      requires NamespaceLoc(c, prefix) in Targets(cleanups)
      modifies fleet`live, fleet`next, fleet`disturbed, fleet`scheduler, fleet`created, fleet`confirmed, fleet`errors
      ensures Inv() && Progress()
      ensures ok ==> {Loc(c, Kind.Role, prefix, name), Loc(c, RoleBinding, prefix, name)} <= MadeAt(fleet.created)
      ensures !ok ==> Excused()
    {
      hide InvFor, Lawful, Current, Clock, RecordedWorkload;
      ok := CreateInside(Loc(c, Kind.Role, prefix, name));
      if ok {
        ok := CreateInside(Loc(c, RoleBinding, prefix, name));
      }
    }

    method CreateHubMultiKueueResources() returns (ok: bool)
      requires Inv()
      modifies this`cleanups, this`ids, this`log, fleet
      ensures Inv() && Grew(1)
      ensures ok ==> WorkersMade(MadeAt(fleet.created), prefix, spokes, |spokes|)
      ensures ok ==> {Loc(0, MultiKueueConfig, "", prefix), Loc(0, AdmissionCheck, "", prefix)} <= MadeAt(fleet.created)
      ensures !ok ==> Excused()
    {
      hide InvFor, Lawful, Covered, Records, MadeAt, Staged, UpTo, Current, Clock, RecordedWorkload;
      ok := CreateWorkers();
      if ok {
        ok := CreateOwned(Loc(0, MultiKueueConfig, "", prefix));
      }
      if ok {
        ok := CreateOwned(Loc(0, AdmissionCheck, "", prefix));
      }
    }

    method CreateWorkers() returns (ok: bool)
      requires Inv()
      modifies this`cleanups, this`ids, this`log, fleet
      ensures Inv() && Grew(1)
      ensures ok ==> WorkersMade(MadeAt(fleet.created), prefix, spokes, |spokes|)
      ensures !ok ==> Excused()
    {
      hide InvFor, Lawful, Covered, Records, MadeAt, Staged, UpTo, WorkerLoc, Current, Clock, RecordedWorkload;
      for i := 0 to |spokes|
        invariant Inv() && Grew(1)
        invariant WorkersMade(MadeAt(fleet.created), prefix, spokes, i)
      {
        KindOfWorker(prefix, spokes[i]);
        ok := CreateOwned(WorkerLoc(prefix, spokes[i]));
        if !ok {
          return;
        }
      }
      ok := true;
    }

    method CreateKueueEgressPolicy() returns (ok: bool)
      requires Inv()
      modifies this`cleanups, this`ids, this`log, fleet
      ensures Inv() && Grew(1)
      ensures ok ==> Loc(0, NetworkPolicy, KUEUE_NAMESPACE, prefix) in MadeAt(fleet.created)
      ensures ok ==> Loc(0, NetworkPolicy, KUEUE_NAMESPACE, prefix) in Targets(cleanups)
      ensures !ok ==> Excused()
    {
      hide InvFor, Lawful, Current, Clock, RecordedWorkload;
      var resolved := Await(cleanups, ids);
      if !resolved {
        return false;
      }
      var uid;
      ok, uid := RegisterThenCreate(Loc(0, NetworkPolicy, KUEUE_NAMESPACE, prefix), Json.Null);
    }

    /** One attempt to write the test's values over the section as it is now. */
    method InstallOnce(c: nat, role: MultiClusterRole, ghost j: nat) returns (a: Attempt)
      requires Inv() && Saves(log, j, c, role)
      modifies this`log, fleet`live, fleet`next, fleet`disturbed, fleet`scheduler, fleet`sightings,
               fleet`sectionWrites, fleet`errors
      ensures Inv() && Progress() && KeepsStages(old(log), log) && Saves(log, j, c, role)
      ensures a.Done? ==> Enabled(fleet.sectionWrites, c, role, prefix) && log != old(log)
      ensures log == old(log) ==> fleet.sectionWrites == old(fleet.sectionWrites)
      ensures log != old(log) ==> exists found ::
                log == old(log) + [Wrote(c, found, Install(found, role, prefix))] &&
                fleet.sectionWrites == old(fleet.sectionWrites) + [SectionWrite(c, found, Install(found, role, prefix))]
      ensures !a.Done? ==> old(fleet.errors) < fleet.errors
    {
      hide InvFor, Lawful, Covered, Records, Enabled, Targets, MadeAt, KeepsStages, Saves, Law, Current, Clock,
           RecordedWorkload;
      ExtendsKeepsStages(log, log);
      var latest := LookAtSection(c, cleanups, ids);
      if latest.None? {
        return Error;
      }
      var found := latest.value;
      ghost var effective;
      InstallEvent(log, j, c, found, role, 1 + |spokes|, prefix);
      a, effective := SendSection(c, Install(found, role, prefix), Wrote(c, found, Install(found, role, prefix)),
          cleanups, ids);
      assert !effective ==> log == old(log);
      JustEnabled(old(fleet.sectionWrites), c, found, role, prefix);
      ExtendsKeepsStages(old(log), log);
    }

    /** Sends a scheduler section that was just read; the history tells if that took effect. */
    method SendSection(c: nat, value: Scheduler, ghost e: Event, ghost cs: seq<Cleanup>, ghost ns: seq<nat>)
      returns (a: Attempt, ghost effective: bool)
      requires InvFor(cs, ns) && c in fleet.scheduler && Law(log, e, 1 + |spokes|, prefix)
      requires e == Wrote(c, fleet.scheduler[c], value) || e == WroteBack(c, fleet.scheduler[c], value)
      modifies this`log, fleet`scheduler, fleet`sectionWrites, fleet`errors
      ensures InvFor(cs, ns) && Extends(old(log), log)
      ensures (a.Done? ==> effective) && (a.Retry? ==> !effective)
      ensures log == old(log) + if effective then [e] else []
      ensures fleet.sectionWrites ==
              old(fleet.sectionWrites) + if effective then [SectionWrite(c, old(fleet.scheduler)[c], value)] else []
      ensures fleet.errors == old(fleet.errors) + (if a.Done? then 0 else 1)
    {
      hide Lawful, Law, Records, Covered, Current, Clock, RecordedWorkload, Targets;
      ghost var known := Known();
      a, effective := fleet.WriteSection(c, value);
      if effective {
        RecordsChange(log, e, 1 + |spokes|, prefix, ns, cs, known);
        Note(e, cs, ns);
      } else {
        assert fleet.sectionWrites == known.changes.writes;
      }
    }

    /** Reads the scheduler section and registers its restoration. */
    method SaveScheduler(c: nat, role: MultiClusterRole) returns (ok: bool, ghost j: nat)
      requires Inv()
      modifies this`cleanups, this`ids, this`log, fleet`live, fleet`next, fleet`disturbed, fleet`scheduler,
               fleet`sightings, fleet`errors
      ensures Inv() && Progress()
      ensures old(Staged(log) && UpTo(log, 2) && SavedBelow(log, c)) ==>
                Staged(log) && UpTo(log, 2) && SavedBelow(log, c + 1)
      ensures ok ==> Saves(log, j, c, role)
      ensures ok ==> exists original ::
                && fleet.sightings == old(fleet.sightings) + [SectionRead(c, original)]
                && log == old(log) + [Read(c, original, |old(fleet.sightings)|),
                                      Registered(RestoreScheduler(c, original, role))]
      ensures !ok ==> old(fleet.errors) < fleet.errors
    {
      hide InvFor, Lawful, Covered, Records, MadeAt, Targets, Staged, UpTo, SavedBelow, Saves, Current, Clock,
           RecordedWorkload;
      j := 0;
      var current := LookAtSection(c, cleanups, ids);
      if current.None? {
        if SavedBelow(log, c) {
          SavedBelowNext(log, c);
        }
        return false, j;
      }
      var original := current.value;
      NoteSeen(Read(c, original, |old(fleet.sightings)|), cleanups, ids);
      ExtendsKeepsStages(old(log), log);
      AddCleanup(RestoreScheduler(c, original, role));
      JustRegistered();
      SavedNow(log, c, original, role);
      ok, j := true, |log| - 1;
    }

    /** What was just registered has not succeeded. */
    lemma JustRegistered()
      requires Inv() && log != [] && ids != [] && ids[|ids| - 1] == |log| - 1
      ensures log[|log| - 1].Registered? ==> !Succeeded(log, |log| - 1)
    {
      hide AllLawful, Covered, Records, Current, Clock, RecordedWorkload;
      assert ids[|ids| - 1] in ids;
    }

    /** Saves the scheduler section, registers its restoration and installs the test's values. */
    method EnableScheduler(c: nat, role: MultiClusterRole) returns (ok: bool)
      requires Inv()
      modifies this`cleanups, this`ids, this`log, fleet
      ensures Inv() && Progress()
      ensures old(Staged(log) && UpTo(log, 2) && SavedBelow(log, c)) ==>
                Staged(log) && UpTo(log, 2) && SavedBelow(log, c + 1)
      ensures ok ==> Enabled(fleet.sectionWrites, c, role, prefix)
      ensures !ok ==> Excused()
    {
      hide InvFor, Lawful, Covered, Records, MadeAt, Enabled, Targets, Staged, UpTo, SavedBelow, Saves, Current, Clock,
           RecordedWorkload;
      ghost var j;
      ok, j := SaveScheduler(c, role);
      if !ok {
        return;
      }
      var a := InstallOnce(c, role, j);
      var attempts := 1;
      while a.Retry? && attempts < RETRY_STEPS
        invariant Inv() && Progress() && Saves(log, j, c, role)
        invariant old(Staged(log) && UpTo(log, 2) && SavedBelow(log, c)) ==>
                    Staged(log) && UpTo(log, 2) && SavedBelow(log, c + 1)
        invariant !a.Done? ==> old(fleet.errors) < fleet.errors
        invariant a.Done? ==> Enabled(fleet.sectionWrites, c, role, prefix)
      {
        a := InstallOnce(c, role, j);
        attempts := attempts + 1;
      }
      if !a.Done? {
        return false;
      }
      ok := Await(cleanups, ids);
    }

    /** The configuration is usable: a DNS label as prefix and complete clusters on distinct servers. */
    method Validate() returns (ok: bool)
      ensures ok <==> Acceptable(hub, spokes, prefix)
      ensures ok ==> 1 <= |prefix| <= 63 && prefix[0] != '-' && prefix[|prefix| - 1] != '-'
      ensures ok ==> forall i | 0 <= i < |prefix| ::
                'a' <= prefix[i] <= 'z' || '0' <= prefix[i] <= '9' || prefix[i] == '-'
    {
      hide IsDNS1123Label, TrimSlash;
      if !IsDNS1123Label(prefix) || |spokes| == 0 {
        return false;
      }
      var clusters := [hub] + spokes;
      var hosts: map<string, string> := map[];
      for i := 0 to |clusters|
        invariant Complete(clusters[..i]) && DistinctServers(clusters[..i])
        invariant hosts.Keys == set k | 0 <= k < i :: TrimSlash(clusters[k].host)
      {
        var cluster := clusters[i];
        if cluster.name == "" || !cluster.configured {
          return false;
        }
        var host := TrimSlash(cluster.host);
        if host in hosts {
          return false;
        }
        hosts := hosts[host := cluster.name];
      }
      assert clusters[..|clusters|] == clusters;
      LabelMeans(prefix);
      ok := true;
    }

    method ConfigureKueue() returns (ok: bool)
      requires Inv()
      modifies this`cleanups, this`ids, this`log, fleet
      ensures Inv() && Grew(0)
      ensures !ok ==> Excused()
    {
      hide InvFor, Lawful, Current, Clock, RecordedWorkload;
      for c := 0 to |spokes| + 1
        invariant Inv() && Grew(0)
      {
        ok := EnsureKueue(c);
        if !ok {
          return;
        }
      }
      ok := Await(cleanups, ids);
    }

    method CreateNamespace(c: nat) returns (ok: bool)
      requires Inv()
      modifies this`cleanups, this`ids, this`log, fleet
      ensures Inv() && Grew(1)
      ensures ok ==> NamespaceLoc(c, prefix) in Targets(cleanups)
      ensures ok ==> NamespaceLocs(c, prefix) <= MadeAt(fleet.created)
      ensures !ok ==> Excused()
    {
      hide InvFor, Lawful, Covered, Records, MadeAt, Staged, UpTo, Current, Clock, RecordedWorkload;
      ok := CreateOwned(NamespaceLoc(c, prefix));
      if ok {
        ok := CreateClusterRBAC(c, prefix + "-kueue-controller");
      }
    }

    method CreateNamespaces() returns (ok: bool)
      requires Inv()
      modifies this`cleanups, this`ids, this`log, fleet
      ensures Inv() && Grew(1)
      ensures ok ==> Targeted(Targets(cleanups), prefix, |spokes| + 1)
      ensures ok ==> NamespacesMade(MadeAt(fleet.created), prefix, |spokes| + 1)
      ensures !ok ==> Excused()
    {
      hide InvFor, Lawful, Covered, Records, MadeAt, Staged, UpTo, NamespaceLocs, Current, Clock, RecordedWorkload;
      for c := 0 to |spokes| + 1
        invariant Inv() && Grew(1)
        invariant Targeted(Targets(cleanups), prefix, c)
        invariant NamespacesMade(MadeAt(fleet.created), prefix, c)
      {
        ghost var targets := Targets(cleanups);
        ok := CreateNamespace(c);
        if !ok {
          return;
        }
        TargetedNext(targets, Targets(cleanups), prefix, c);
      }
      ok := true;
    }

    method ConfigureSpoke(i: nat) returns (ok: bool)
      requires Inv() && i < |spokes| && prefix != ""
      requires NamespaceLoc(i + 1, prefix) in Targets(cleanups)
      modifies this`cleanups, this`ids, this`log, fleet
      ensures Inv() && Grew(1)
      ensures ok && !fleet.disturbed ==>
        && Holds(fleet.live, fleet.created, SecretLoc(prefix, spokes[i]))
        && !Holds(old(fleet.live), old(fleet.created), SecretLoc(prefix, spokes[i]))
      ensures ok ==> SpokeLocs(prefix, spokes, i) <= MadeAt(fleet.created)
      ensures !ok ==> Excused()
    {
      hide InvFor, Lawful, Covered, Records, MadeAt, Staged, UpTo, IdentityLocs, QueueLocs, Current, Clock,
           RecordedWorkload;
      ok := CreateQueues(i + 1);
      if ok {
        ok := CreateWorkerCredential(i);
      }
    }

    /** The credentials of two spokes with one name would share one Secret on the hub. */
    method ConfigureSpokes() returns (ok: bool)
      requires Inv() && prefix != ""
      requires Targeted(Targets(cleanups), prefix, |spokes| + 1)
      modifies this`cleanups, this`ids, this`log, fleet
      ensures Inv() && Grew(1)
      ensures ok && !fleet.disturbed ==> DistinctNames(spokes)
      ensures ok ==> SpokesMade(MadeAt(fleet.created), prefix, spokes, |spokes|)
      ensures !ok ==> Excused()
    {
      hide InvFor, Lawful, Covered, Records, MadeAt, SpokeLocs, Staged, UpTo, Current, Clock, RecordedWorkload;
      for i := 0 to |spokes|
        invariant Inv() && Grew(1)
        invariant Targeted(Targets(cleanups), prefix, |spokes| + 1)
        invariant SpokesMade(MadeAt(fleet.created), prefix, spokes, i)
        invariant !fleet.disturbed ==> HoldSecrets(fleet.live, fleet.created, prefix, spokes, i)
        invariant !fleet.disturbed ==> DistinctNames(spokes[..i])
      {
        ghost var live, created := fleet.live, fleet.created;
        ok := ConfigureSpoke(i);
        if !ok {
          return;
        }
        if !fleet.disturbed {
          NextSpoke(live, created, fleet.live, fleet.created, prefix, spokes, i);
        }
      }
      assert spokes[..|spokes|] == spokes;
      ok := true;
    }

    method ConfigureHub() returns (ok: bool)
      requires Inv()
      modifies this`cleanups, this`ids, this`log, fleet
      ensures Inv() && Grew(1)
      ensures ok ==> HubLocs(prefix) <= MadeAt(fleet.created)
      ensures ok ==> WorkersMade(MadeAt(fleet.created), prefix, spokes, |spokes|)
      ensures !ok ==> Excused()
    {
      hide InvFor, Lawful, Covered, Records, MadeAt, Staged, UpTo, WorkerLoc, QueueLocs, Current, Clock,
           RecordedWorkload;
      ok := CreateHubMultiKueueResources();
      if ok {
        ok := CreateQueues(0);
      }
      if ok {
        ok := CreateKueueEgressPolicy();
      }
    }

    method EnableSchedulers() returns (ok: bool)
      requires Inv()
      modifies this`cleanups, this`ids, this`log, fleet
      ensures Inv() && Progress()
      ensures old(Staged(log) && UpTo(log, 1)) ==> Staged(log) && UpTo(log, 2)
      ensures ok ==> EnabledUpTo(fleet.sectionWrites, hub, spokes, |spokes| + 1, prefix)
      ensures !ok ==> Excused()
    {
      hide InvFor, Lawful, Covered, Records, MadeAt, Enabled, Current, Clock, RecordedWorkload;
      if Staged(log) && UpTo(log, 1) {
        NoSchedulerSaved(log);
      }
      for c := 0 to |spokes| + 1
        invariant Inv() && Progress()
        invariant old(Staged(log) && UpTo(log, 1)) ==> Staged(log) && UpTo(log, 2) && SavedBelow(log, c)
        invariant EnabledUpTo(fleet.sectionWrites, hub, spokes, c, prefix)
      {
        ghost var before := fleet.sectionWrites;
        var cluster := ([hub] + spokes)[c];
        ok := EnableScheduler(c, if cluster.name == hub.name then Hub else Spoke);
        if !ok {
          return;
        }
        EnabledNext(before, fleet.sectionWrites, hub, spokes, c, prefix);
      }
      ok := Await(cleanups, ids);
    }

    /**
     Wherever Setup stops, everything it made is covered by a pending cleanup and nothing was deleted.
     A completed Setup created every object of the environment and enabled every scheduler in its role;
     if nobody disturbed it, it also shows that the spokes have distinct names, which
     validation does not look at.
     */
    method Setup() returns (ok: bool)
      requires Inv()
      modifies this`cleanups, this`ids, this`log, fleet
      ensures Inv()
      ensures fleet.deletions == old(fleet.deletions) && fleet.strips == old(fleet.strips)
      ensures old(Staged(log) && UpTo(log, 0)) ==> Staged(log) && UpTo(log, 2)
      ensures ok ==> spokes != [] && Provisioned(MadeAt(fleet.created), prefix, spokes)
      ensures ok ==> EnabledUpTo(fleet.sectionWrites, hub, spokes, |spokes| + 1, prefix)
      ensures ok && !fleet.disturbed ==> DistinctNames(spokes)
      ensures old(fleet.sightings) <= fleet.sightings && NoRunLooks(fleet.sightings, |old(fleet.sightings)|)
      ensures !ok ==> !Acceptable(hub, spokes, prefix) || Excused()
    {
      hide InvFor, Lawful, Covered, Records, MadeAt, Provisioned, EnabledUpTo, Current, Clock, RecordedWorkload;
      ok := Validate();
      if ok {
        ok := ConfigureKueue();
      }
      if ok {
        ok := Provision();
      }
      ghost var made := MadeAt(fleet.created);
      if ok {
        ok := EnableSchedulers();
        ProvisionedStays(made, MadeAt(fleet.created), prefix, spokes);
      }
    }

    /** The namespaces, the spokes with their credentials, and the hub. */
    method Provision() returns (ok: bool)
      requires Inv() && prefix != ""
      modifies this`cleanups, this`ids, this`log, fleet
      ensures Inv() && Grew(1)
      ensures ok ==> Provisioned(MadeAt(fleet.created), prefix, spokes)
      ensures ok && !fleet.disturbed ==> DistinctNames(spokes)
      ensures !ok ==> Excused()
    {
      hide InvFor, Lawful, Covered, Records, MadeAt, NamespaceLocs, SpokeLocs, WorkerLoc, HubLocs, Staged, UpTo,
           Current,
           Clock, RecordedWorkload;
      ok := CreateNamespaces();
      if ok {
        ok := ConfigureSpokes();
      }
      if ok {
        ok := ConfigureHub();
      }
    }

    // ---- Cleanup ----

    method WaitForNotFound(loc: Loc, ghost cs: seq<Cleanup>, ghost ns: seq<nat>) returns (ok: bool)
      requires InvFor(cs, ns) && Current(log).Some?
      modifies this`log, fleet`live, fleet`next, fleet`disturbed, fleet`scheduler, fleet`sightings, fleet`errors,
               fleet`timeouts
      ensures InvFor(cs, ns) && Extends(old(log), log)
      ensures ok ==> Vacated(fleet.live, fleet.created, loc) && log != [] && Ends(log[|log| - 1], loc)
      ensures Forward()
      ensures !ok ==> old(fleet.errors) < fleet.errors || old(fleet.timeouts) < fleet.timeouts
    {
      hide InvFor, Lawful, Records, Covered, Current, Clock, RecordedWorkload;
      var budget: nat := *;
      while budget > 0
        invariant InvFor(cs, ns) && log == old(log) && Forward()
      {
        var r := PollGone(loc, cs, ns);
        match r {
          case NotFound => return true;
          case Failed => return false;
          case Found(_) =>
        }
        budget := budget - 1;
      }
      GiveUp(cs, ns);
      ok := false;
    }

    /**
     Reads the object, refuses unless it carries the run's labels and the captured id, and deletes it.
     A binding is first stripped of its subjects by an update that can lose a race.
     */
    method DeleteOwned(loc: Loc, uid: Option<nat>, ghost id: nat, ghost cs: seq<Cleanup>, ghost ns: seq<nat>)
      returns (a: Attempt, absent: bool)
      requires InvFor(cs, ns) && Executing(log, id, Remove(loc, uid))
      modifies this`log, fleet`live, fleet`next, fleet`disturbed, fleet`scheduler, fleet`sightings, fleet`deletions,
               fleet`strips, fleet`errors
      ensures InvFor(cs, ns) && Executing(log, id, Remove(loc, uid)) && Extends(old(log), log)
      ensures a.Done? ==> log != [] && |old(log)| < |log| && Gives(log[|log| - 1], loc)
      ensures a.Done? && absent ==> log[|log| - 1].Absent?
      ensures a.Done? && (absent || !(Waits(loc.kind) || loc.kind.PipelineRun?)) ==>
                Vacated(fleet.live, fleet.created, loc)
      ensures Forward()
      ensures !a.Done? ==>
                old(fleet.errors) < fleet.errors ||
                Blocked(Remove(loc, uid), fleet.sightings, |old(fleet.sightings)|, prefix)
    {
      hide InvFor, Lawful, Records, Covered, Executing, CapturedFor, Current, Clock, RecordedWorkload, Waits;
      absent := false;
      assert Current(log).Some? by { ExecutingIsCurrent(log, id, Remove(loc, uid)); }
      var r := Look(loc, cs, ns);
      if r.NotFound? {
        ExecutingNext(log, id, Remove(loc, uid), Absent(loc, |fleet.sightings| - 1));
        NoteAbsent(loc, cs, ns);
        return Done, true;
      }
      if r.Failed? {
        return Error, absent;
      }
      OwnsIffLabelled(r.obj.labels, prefix);
      if !Owns(r.obj.labels, prefix) || (uid.Some? && r.obj.uid != uid.value) {
        BlockedBy(Remove(loc, uid), fleet.sightings, |old(fleet.sightings)|, |fleet.sightings| - 1, prefix);
        return Error, absent;
      }
      if loc.kind.ClusterRoleBinding? {
        var updated := StripSubjects(loc, r.obj, uid, id, cs, ns);
        if !updated.Done? {
          return updated, absent;
        }
      }
      a := DeleteFound(loc, uid, id, cs, ns);
    }

    /** Takes the subjects off a binding that was just found to be the run's own. */
    method StripSubjects(loc: Loc, obj: Obj, uid: Option<nat>, ghost id: nat, ghost cs: seq<Cleanup>,
                         ghost ns: seq<nat>) returns (a: Attempt)
      requires InvFor(cs, ns) && Executing(log, id, Remove(loc, uid)) && loc.kind.ClusterRoleBinding?
      requires loc in fleet.live && fleet.live[loc] == obj && Labelled(obj.labels, prefix)
      requires uid.Some? ==> obj.uid == uid.value
      modifies this`log, fleet`live, fleet`next, fleet`disturbed, fleet`scheduler, fleet`strips, fleet`errors
      ensures InvFor(cs, ns) && Executing(log, id, Remove(loc, uid)) && Extends(old(log), log)
      ensures log == old(log) || log == old(log) + [Stripped(Deletion(loc, obj, uid))]
      ensures a.Done? ==>
        && log != old(log) && loc in fleet.live && fleet.live[loc].content == WithoutSubjects(obj.content)
        && fleet.live[loc].labels == obj.labels && fleet.live[loc].uid == obj.uid
      ensures Forward()
      ensures !a.Done? ==> old(fleet.errors) < fleet.errors
    {
      hide AllLawful, Pending, Records, Waits, Labelled, RecordedWorkload;
      ghost var d := Deletion(loc, obj, uid);
      ghost var known := Known();
      RecordsNext(log, Stripped(d), 1 + |spokes|, prefix, known);
      a := fleet.Strip(loc, obj, uid);
      if fleet.strips != known.changes.strips {
        ExecutingNext(log, id, Remove(loc, uid), Stripped(d));
        assert MayDelete(log, d, prefix);
        Note(Stripped(d), cs, ns);
      }
    }

    /** Deletes an object that was just found to be the run's own. */
    method DeleteFound(loc: Loc, uid: Option<nat>, ghost id: nat, ghost cs: seq<Cleanup>, ghost ns: seq<nat>)
      returns (a: Attempt)
      requires InvFor(cs, ns) && Executing(log, id, Remove(loc, uid))
      requires loc in fleet.live && Labelled(fleet.live[loc].labels, prefix)
      requires uid.Some? ==> fleet.live[loc].uid == uid.value
      requires loc.kind.ClusterRoleBinding? ==> log != [] && StrippedFor(log[|log| - 1], loc, fleet.live[loc].uid)
      modifies this`log, fleet`live, fleet`deletions, fleet`errors
      ensures InvFor(cs, ns) && Executing(log, id, Remove(loc, uid)) && Extends(old(log), log)
      ensures a.Done? || a.Error?
      ensures a.Done? ==> |old(log)| < |log| && log[|log| - 1].Deleted? && log[|log| - 1].deletion.loc == loc
      ensures a.Done? && !(Waits(loc.kind) || loc.kind.PipelineRun?) ==> Vacated(fleet.live, fleet.created, loc)
      ensures Forward()
      ensures !a.Done? ==> old(fleet.errors) < fleet.errors
    {
      hide AllLawful, Pending, Records, Waits, MayLinger, Labelled, RecordedWorkload;
      LingeringIsPolled(loc.kind);
      ghost var d := Deletion(loc, fleet.live[loc], uid);
      ghost var known := Known();
      RecordsNext(log, Deleted(d), 1 + |spokes|, prefix, known);
      var ok := fleet.Delete(loc, uid);
      if fleet.deletions != known.changes.deletions {
        ExecutingNext(log, id, Remove(loc, uid), Deleted(d));
        assert MayDelete(log, d, prefix);
        Note(Deleted(d), cs, ns);
      }
      a := if ok then Done else Error;
    }

    method RunRemove(loc: Loc, uid: Option<nat>, ghost id: nat, ghost cs: seq<Cleanup>, ghost ns: seq<nat>)
      returns (ok: bool)
      requires InvFor(cs, ns) && !loc.kind.PipelineRun? && Executing(log, id, Remove(loc, uid))
      modifies this`log, fleet`live, fleet`next, fleet`disturbed, fleet`scheduler, fleet`sightings, fleet`deletions,
               fleet`strips, fleet`errors, fleet`timeouts
      ensures InvFor(cs, ns) && Extends(old(log), log)
      ensures ok ==> Vacated(fleet.live, fleet.created, loc) && log != [] && Ends(log[|log| - 1], loc)
      ensures Forward()
      ensures !ok ==> Stuck(Remove(loc, uid))
    {
      hide InvFor, Lawful, Records, Covered, Executing, Current, Clock, RecordedWorkload, Waits;
      var a, absent := DeleteOwned(loc, uid, id, cs, ns);
      var attempts := 1;
      while a.Retry? && attempts < RETRY_STEPS
        invariant InvFor(cs, ns) && Extends(old(log), log) && Executing(log, id, Remove(loc, uid))
        invariant a.Done? ==> log != [] && Gives(log[|log| - 1], loc) && (absent ==> log[|log| - 1].Absent?)
        invariant Forward()
        invariant !a.Done? ==>
          old(fleet.errors) < fleet.errors || Blocked(Remove(loc, uid), fleet.sightings, |old(fleet.sightings)|, prefix)
        invariant a.Done? && (absent || !Waits(loc.kind)) ==> Vacated(fleet.live, fleet.created, loc)
      {
        a, absent := DeleteOwned(loc, uid, id, cs, ns);
        attempts := attempts + 1;
      }
      ok := a.Done?;
      if ok && !absent && Waits(loc.kind) {
        ExecutingIsCurrent(log, id, Remove(loc, uid));
        ok := WaitForNotFound(loc, cs, ns);
      }
    }

    /** One execution object as the sweep polls it: gone, still there, or unreadable. */
    method PollGone(loc: Loc, ghost cs: seq<Cleanup>, ghost ns: seq<nat>) returns (r: Lookup)
      requires InvFor(cs, ns) && Current(log).Some?
      modifies this`log, fleet`live, fleet`next, fleet`disturbed, fleet`scheduler, fleet`sightings, fleet`errors
      ensures InvFor(cs, ns) && Extends(old(log), log)
      ensures r.NotFound? ==> |fleet.sightings| > 0 && log == old(log) + [Absent(loc, |fleet.sightings| - 1)]
      ensures !r.NotFound? ==> log == old(log)
      ensures r.NotFound? ==> Vacated(fleet.live, fleet.created, loc)
      ensures forall l | Vacated(old(fleet.live), fleet.created, l) :: Vacated(fleet.live, fleet.created, l)
      ensures Forward()
      ensures r.Failed? ==> old(fleet.errors) < fleet.errors
    {
      hide InvFor, Lawful, Records, Covered, Current, Clock, RecordedWorkload;
      r := Look(loc, cs, ns);
      if r.NotFound? {
        NoteAbsent(loc, cs, ns);
      }
    }

    /** The run and its workload on one cluster. */
    method SweepCluster(c: nat, ghost since: nat, ghost cs: seq<Cleanup>, ghost ns: seq<nat>) returns (r: Lookup)
      requires InvFor(cs, ns) && Current(log).Some?
      requires since <= |log| && Swept(log, since, c, prefix, workloadName)
      modifies this`log, fleet`live, fleet`next, fleet`disturbed, fleet`scheduler, fleet`sightings, fleet`errors
      ensures InvFor(cs, ns) && Extends(old(log), log)
      ensures r.NotFound? ==> Swept(log, since, c + 1, prefix, workloadName)
      ensures r.NotFound? ==> Vacated(fleet.live, fleet.created, RunLoc(c, prefix))
      ensures forall l | Vacated(old(fleet.live), fleet.created, l) :: Vacated(fleet.live, fleet.created, l)
      ensures Forward()
      ensures r.Failed? ==> old(fleet.errors) < fleet.errors
    {
      hide InvFor, Lawful, Records, Covered, AbsentSince, Current, Clock, RecordedWorkload;
      r := PollGone(RunLoc(c, prefix), cs, ns);
      if !r.NotFound? {
        return;
      }
      ghost var gone := Absent(RunLoc(c, prefix), |fleet.sightings| - 1);
      SweptNext(old(log), gone, since, c, prefix, workloadName);
      AbsentNext(old(log), gone, since, RunLoc(c, prefix));
      if workloadName != "" {
        ghost var before := log;
        r := PollGone(WorkloadLoc(c, prefix, workloadName), cs, ns);
        if r.NotFound? {
          ghost var e := Absent(WorkloadLoc(c, prefix, workloadName), |fleet.sightings| - 1);
          SweptNext(before, e, since, c, prefix, workloadName);
          AbsentNext(before, e, since, RunLoc(c, prefix));
          AbsentNext(before, e, since, WorkloadLoc(c, prefix, workloadName));
        }
      }
    }

    /** The barrier: nothing registered before the run is undone until all of this was seen gone. */
    method WaitForExecutionObjectsGone(ghost cs: seq<Cleanup>, ghost ns: seq<nat>) returns (ok: bool)
      requires InvFor(cs, ns) && Current(log).Some?
      modifies this`log, fleet`live, fleet`next, fleet`disturbed, fleet`scheduler, fleet`sightings, fleet`errors,
               fleet`timeouts
      ensures InvFor(cs, ns) && Extends(old(log), log)
      ensures ok ==> log != [] && log[|log| - 1].Gone? && |old(log)| <= log[|log| - 1].since < |log|
      ensures ok ==> Vacated(fleet.live, fleet.created, RunLoc(0, prefix))
      ensures Forward()
      ensures !ok ==> old(fleet.errors) < fleet.errors || old(fleet.timeouts) < fleet.timeouts
    {
      hide Lawful, Records, Covered, Current, Clock, RecordedWorkload;
      var budget: nat := *;
      while budget > 0
        invariant InvFor(cs, ns) && Extends(old(log), log) && Forward()
      {
        ghost var since := |log|;
        var r, c := NotFound, 0;
        while c <= |spokes| && r.NotFound?
          invariant InvFor(cs, ns) && Extends(old(log), log) && since <= |log| && 0 <= c <= |spokes| + 1
          invariant Forward() && (r.Failed? ==> old(fleet.errors) < fleet.errors)
          invariant r.NotFound? ==> Swept(log, since, c, prefix, workloadName)
          invariant r.NotFound? && c > 0 ==> Vacated(fleet.live, fleet.created, RunLoc(0, prefix))
          decreases |spokes| + 1 - c, r.NotFound?
        {
          r := SweepCluster(c, since, cs, ns);
          if r.NotFound? {
            c := c + 1;
          }
        }
        if r.NotFound? {
          NoteSeen(Gone(since, workloadName), cs, ns);
          return true;
        }
        if r.Failed? {
          return false;
        }
        budget := budget - 1;
      }
      GiveUp(cs, ns);
      ok := false;
    }

    method RunRemoveRun(uid: Option<nat>, ghost id: nat, ghost cs: seq<Cleanup>, ghost ns: seq<nat>) returns (ok: bool)
      requires InvFor(cs, ns) && Executing(log, id, Remove(RunLoc(0, prefix), uid))
      modifies this`log, fleet`live, fleet`next, fleet`disturbed, fleet`scheduler, fleet`sightings, fleet`deletions,
               fleet`strips, fleet`errors, fleet`timeouts
      ensures InvFor(cs, ns) && Extends(old(log), log)
      ensures ok ==> log != [] && log[|log| - 1].Gone? && |old(log)| <= log[|log| - 1].since < |log|
      ensures ok ==> GivenSince(log[..log[|log| - 1].since], |old(log)|, RunLoc(0, prefix))
      ensures ok ==> Vacated(fleet.live, fleet.created, RunLoc(0, prefix))
      ensures Forward()
      ensures !ok ==> Stuck(Remove(RunLoc(0, prefix), uid))
    {
      hide InvFor, Lawful, Records, Covered, Executing, Current, Clock, RecordedWorkload;
      var a, absent := DeleteOwned(RunLoc(0, prefix), uid, id, cs, ns);
      if !a.Done? {
        return false;
      }
      ghost var before := log;
      ExecutingIsCurrent(log, id, Remove(RunLoc(0, prefix), uid));
      ok := WaitForExecutionObjectsGone(cs, ns);
      if ok {
        GivenStays(before, log, |old(log)|, RunLoc(0, prefix));
      }
    }

    /** Reads, merges and writes the scheduler section once. */
    method RestoreOnce(c: nat, original: Scheduler, role: MultiClusterRole, ghost id: nat, ghost cs: seq<Cleanup>,
                       ghost ns: seq<nat>)
      returns (a: Attempt, conflicts: set<Field>, ghost found: Scheduler)
      requires InvFor(cs, ns) && Executing(log, id, RestoreScheduler(c, original, role))
      modifies this`log, fleet`live, fleet`next, fleet`disturbed, fleet`scheduler, fleet`sightings,
               fleet`sectionWrites, fleet`errors
      ensures InvFor(cs, ns) && Extends(old(log), log)
      ensures if log == old(log) then fleet.sectionWrites == old(fleet.sectionWrites)
              else
                var merged := Restored(found, original, role, prefix);
                log == old(log) + [WroteBack(c, found, merged)] &&
                fleet.sectionWrites == old(fleet.sectionWrites) + [SectionWrite(c, found, merged)]
      ensures a.Retry? ==> log == old(log)
      ensures a.Done? ==> log != old(log) && conflicts == Conflicts(found, original, role, prefix)
      ensures Forward()
      ensures !a.Done? ==> old(fleet.errors) < fleet.errors
      ensures a.Done? ==> |old(fleet.sightings)| < |fleet.sightings|
      ensures a.Done? ==> fleet.sightings[|fleet.sightings| - 1] == SectionRead(c, found)
    {
      hide InvFor, Lawful, Covered, Records, Restored, Conflicts, Current, Clock, RecordedWorkload;
      found := original;
      conflicts := {};
      var answer := LookAtSection(c, cs, ns);
      if answer.None? {
        return Error, conflicts, found;
      }
      var latest := answer.value;
      found := latest;
      conflicts := Conflicts(latest, original, role, prefix);
      var merged := Restored(latest, original, role, prefix);
      ghost var effective;
      assert MayWriteBack(log, c, latest, merged, prefix);
      a, effective := SendSection(c, merged, WroteBack(c, latest, merged), cs, ns);
    }

    /** Restores one scheduler, retrying lost races; a reported conflict or an unready operator is a failure. */
    method RunRestoreScheduler(c: nat, original: Scheduler, role: MultiClusterRole, ghost id: nat,
                               ghost cs: seq<Cleanup>, ghost ns: seq<nat>) returns (ok: bool)
      requires InvFor(cs, ns) && Executing(log, id, RestoreScheduler(c, original, role))
      modifies this`log, fleet`live, fleet`next, fleet`disturbed, fleet`scheduler, fleet`sightings,
               fleet`sectionWrites, fleet`errors, fleet`timeouts
      ensures InvFor(cs, ns) && Extends(old(log), log)
      ensures ok ==> exists found ::
                var merged := Restored(found, original, role, prefix);
                && log == old(log) + [WroteBack(c, found, merged)] && SameFields(merged, original)
                && fleet.sectionWrites == old(fleet.sectionWrites) + [SectionWrite(c, found, merged)]
      ensures Forward()
      ensures !ok ==> Stuck(RestoreScheduler(c, original, role))
    {
      hide InvFor, Lawful, Records, Covered, Executing, Restored, SameFields, Conflicts, Current, Clock,
           RecordedWorkload;
      var a, conflicts;
      ghost var found;
      a, conflicts, found := RestoreOnce(c, original, role, id, cs, ns);
      var attempts := 1;
      while a.Retry? && attempts < RETRY_STEPS
        invariant InvFor(cs, ns) && Extends(old(log), log)
        invariant log == old(log) ==> fleet.sectionWrites == old(fleet.sectionWrites)
        invariant a.Retry? ==> log == old(log)
        invariant Forward() && (!a.Done? ==> old(fleet.errors) < fleet.errors)
        invariant a.Done? ==> |old(fleet.sightings)| < |fleet.sightings|
        invariant a.Done? ==> fleet.sightings[|fleet.sightings| - 1] == SectionRead(c, found)
        invariant a.Done? ==>
          var merged := Restored(found, original, role, prefix);
          && log == old(log) + [WroteBack(c, found, merged)] && conflicts == Conflicts(found, original, role, prefix)
          && fleet.sectionWrites == old(fleet.sectionWrites) + [SectionWrite(c, found, merged)]
      {
        a, conflicts, found := RestoreOnce(c, original, role, id, cs, ns);
        attempts := attempts + 1;
      }
      var ready := Await(cs, ns);
      ok := a.Done? && ready && conflicts == {};
      ConflictIffDisputed(found, original, role, prefix);
      if a.Done? && conflicts != {} {
        BlockedBy(RestoreScheduler(c, original, role), fleet.sightings, |old(fleet.sightings)|,
                  |fleet.sightings| - 1, prefix);
      }
      NoConflictIffRestored(found, original, role, prefix);
    }

    /** One attempt to take the entry out of the lists it was added to, on the object as it is now. */
    method UnlinkOnce(c: nat, lists: F.Lists, ghost id: nat, ghost cs: seq<Cleanup>, ghost ns: seq<nat>)
        returns (a: Attempt)
      requires InvFor(cs, ns) && Executing(log, id, RemoveFrameworks(c, lists)) && F.Apart(lists)
      modifies this`log, fleet`live, fleet`next, fleet`disturbed, fleet`scheduler, fleet`sightings, fleet`replacements,
               fleet`errors
      ensures InvFor(cs, ns) && Extends(old(log), log)
      ensures a.Retry? ==> log == old(log)
      ensures log == old(log) ==> fleet.replacements == old(fleet.replacements)
      ensures a.Done? ==> exists before ::
                Removed(old(log), log, old(fleet.replacements), fleet.replacements, |fleet.sightings|, c, before, lists)
      ensures Forward()
      ensures !a.Done? ==>
                old(fleet.errors) < fleet.errors ||
                Blocked(RemoveFrameworks(c, lists), fleet.sightings, |old(fleet.sightings)|, prefix)
    {
      hide InvFor, Lawful, Covered, Records, Blocked, Blocks, F.RemoveAll, F.Apart, F.Unreadable, F.Items, F.Holds,
           Current, Clock, RecordedWorkload;
      var r := Look(KueueLoc(c), cs, ns);
      if !r.Found? {
        if r.NotFound? {
          KueueBlocks(c, lists, fleet.sightings, |old(fleet.sightings)|, None, prefix);
        }
        return Error;
      }
      a := UnlinkFrom(c, r.obj, lists, id, cs, ns);
      if !a.Done? && exists p | p in lists :: F.Unreadable(r.obj.content, p) {
        KueueBlocks(c, lists, fleet.sightings, |old(fleet.sightings)|, Some(r.obj), prefix);
      }
    }

    /** Takes the entry out of the object that was just read. */
    method UnlinkFrom(c: nat, obj: Obj, lists: F.Lists, ghost id: nat, ghost cs: seq<Cleanup>, ghost ns: seq<nat>)
        returns (a: Attempt)
      requires InvFor(cs, ns) && Executing(log, id, RemoveFrameworks(c, lists)) && F.Apart(lists)
      requires KueueLoc(c) in fleet.live && fleet.live[KueueLoc(c)] == obj && obj.content.Object?
      requires Clock(log) < |fleet.sightings| && fleet.sightings[|fleet.sightings| - 1] == Saw(KueueLoc(c), Some(obj))
      modifies this`log, fleet`live, fleet`next, fleet`disturbed, fleet`scheduler, fleet`replacements, fleet`errors
      ensures InvFor(cs, ns) && Extends(old(log), log)
      ensures a.Retry? ==> log == old(log)
      ensures log == old(log) ==> fleet.replacements == old(fleet.replacements)
      ensures a.Done? ==> Removed(old(log), log, old(fleet.replacements), fleet.replacements, |fleet.sightings|, c,
                                  obj.content, lists)
      ensures Forward()
      ensures !a.Done? ==> old(fleet.errors) < fleet.errors || exists p | p in lists :: F.Unreadable(obj.content, p)
    {
      hide InvFor, Lawful, Covered, Records, F.RemoveAll, F.Apart, F.Unreadable, F.Items, F.Holds,
           Current, Clock, RecordedWorkload;
      var before := obj.content;
      var copy := new F.Unstructured(before);
      var changed := F.RemoveFrameworks(copy, lists);
      if changed.None? {
        return Error;
      }
      assert MayUnlink(log, c, before, copy.doc) by { ExecutingIsCurrent(log, id, RemoveFrameworks(c, lists)); }
      if !changed.value {
        F.RemoveNothing(before, lists);
        NoteSeen(FoundUnlinked(c, before, |fleet.sightings| - 1), cs, ns);
        return Done;
      }
      ghost var effective;
      a, effective := WriteKueue(c, obj, copy.doc, Unlinked(c, before, copy.doc), cs, ns);
    }

    method RunRemoveFrameworks(c: nat, lists: F.Lists, ghost id: nat, ghost cs: seq<Cleanup>, ghost ns: seq<nat>)
      returns (ok: bool)
      requires InvFor(cs, ns) && Executing(log, id, RemoveFrameworks(c, lists)) && F.Apart(lists)
      modifies this`log, fleet`live, fleet`next, fleet`disturbed, fleet`scheduler, fleet`sightings, fleet`replacements,
               fleet`errors
      ensures InvFor(cs, ns) && Extends(old(log), log)
      ensures ok ==> exists before ::
                Removed(old(log), log, old(fleet.replacements), fleet.replacements, |fleet.sightings|, c, before, lists)
      ensures Forward()
      ensures !ok ==> Stuck(RemoveFrameworks(c, lists))
    {
      hide InvFor, Lawful, Records, Covered, Executing, F.RemoveAll, F.Apart, Current, Clock, RecordedWorkload;
      var a := UnlinkOnce(c, lists, id, cs, ns);
      var attempts := 1;
      while a.Retry? && attempts < RETRY_STEPS
        invariant InvFor(cs, ns) && Extends(old(log), log)
        invariant a.Retry? ==> log == old(log)
        invariant Forward()
        invariant !a.Done? ==>
          old(fleet.errors) < fleet.errors ||
          Blocked(RemoveFrameworks(c, lists), fleet.sightings, |old(fleet.sightings)|, prefix)
        invariant log == old(log) ==> fleet.replacements == old(fleet.replacements)
        invariant a.Done? ==> exists before ::
          Removed(old(log), log, old(fleet.replacements), fleet.replacements, |fleet.sightings|, c, before, lists)
      {
        a := UnlinkOnce(c, lists, id, cs, ns);
        attempts := attempts + 1;
      }
      ok := a.Done?;
    }

    /** Runs the cleanup that has just begun; success comes with its evidence and an empty place. */
    method RunCleanup(c: Cleanup, ghost id: nat, ghost cs: seq<Cleanup>, ghost ns: seq<nat>) returns (ok: bool)
      requires InvFor(cs, ns) && Executing(log, id, c)
      modifies this`log, fleet
      ensures InvFor(cs, ns) && Extends(old(log), log)
      ensures fleet.created == old(fleet.created)
      ensures ok ==> log != [] && Witnesses(c, id, log[|log| - 1])
      ensures ok && c.Remove? ==> Vacated(fleet.live, fleet.created, c.loc)
      ensures Forward()
      ensures !ok ==> Stuck(c)
    {
      hide AllLawful, Pending, Records, Covered, CapturedFor, F.RemoveAll, F.Apart, Current, Clock, RecordedWorkload;
      RegisteredProperly(log, 1 + |spokes|, prefix, id);
      match c {
        case Remove(loc, uid) =>
          if loc.kind.PipelineRun? {
            ok := RunRemoveRun(uid, id, cs, ns);
          } else {
            ok := RunRemove(loc, uid, id, cs, ns);
          }
        case RemoveFrameworks(cluster, lists) =>
          ok := RunRemoveFrameworks(cluster, lists, id, cs, ns);
        case RestoreScheduler(cluster, original, role) =>
          ok := RunRestoreScheduler(cluster, original, role, id, cs, ns);
      }
    }

    /** Marks the start or the end of the top cleanup. */
    ghost method NoteMark(pending: seq<Cleanup>, ns: seq<nat>, e: Event)
      requires pending != [] && |ns| == |pending| && InvFor(pending, ns)
      requires e == Began(ns[|pending| - 1], |fleet.sightings|) || e == Ran(ns[|pending| - 1], false)
      requires Current(log) == if e.Began? then None else Some(ns[|pending| - 1])
      modifies this`log
      ensures log == old(log) + [e] && Current(log) == if e.Began? then Some(ns[|pending| - 1]) else None
      ensures InvFor(pending, ns)
    {
      hide AllLawful, Pending, Records, Covered, Current, Clock, RecordedWorkload;
      RecordsSee(log, Known(), fleet.sightings);
      if e.Began? {
        TopBegins(log, ns, pending, 1 + |spokes|, prefix, |fleet.sightings|);
      } else {
        TopFails(log, ns, pending, 1 + |spokes|, prefix);
      }
      RecordsNext(log, e, 1 + |spokes|, prefix, Known());
      LastOf(log, e);
      log := log + [e];
    }

    ghost method NoteSuccess(pending: seq<Cleanup>, ns: seq<nat>)
      requires pending != [] && |ns| == |pending| && InvFor(pending, ns) && Current(log) == Some(ns[|pending| - 1])
      requires log != [] && Witnesses(pending[|pending| - 1], ns[|pending| - 1], log[|log| - 1])
      requires pending[|pending| - 1].Remove? ==> Vacated(fleet.live, fleet.created, pending[|pending| - 1].loc)
      modifies this`log
      ensures log == old(log) + [Ran(ns[|pending| - 1], true)] && Current(log) == None
      ensures InvFor(pending[..|pending| - 1], ns[..|pending| - 1])
    {
      hide AllLawful, Pending, Records, Covered, Witnesses, Vacated, Current, Clock, RecordedWorkload;
      ghost var e := Ran(ns[|pending| - 1], true);
      TopSucceeds(log, ns, pending, 1 + |spokes|, prefix);
      RecordsNext(log, e, 1 + |spokes|, prefix, Known());
      LastOf(log, e);
      PopKeeps(fleet.live, fleet.created, pending);
      log := log + [e];
    }

    /** Runs the top cleanup of a pending list and accounts for the outcome. */
    method RunTopmost(pending: seq<Cleanup>, ghost ns: seq<nat>) returns (ok: bool)
      requires pending != [] && |ns| == |pending| && InvFor(pending, ns) && Current(log) == None
      modifies this`log, fleet
      ensures if ok then InvFor(pending[..|pending| - 1], ns[..|pending| - 1]) else InvFor(pending, ns)
      ensures Extends(old(log), log) && |old(log)| < |log|
      ensures log[|log| - 1] == Ran(ns[|pending| - 1], ok)
      ensures fleet.created == old(fleet.created)
      ensures Forward()
      ensures !ok ==> Stuck(pending[|pending| - 1])
    {
      hide AllLawful, Pending, Records, Covered, Witnesses, CapturedFor, Current, Clock, RecordedWorkload;
      ghost var top := ns[|pending| - 1];
      NoteMark(pending, ns, Began(top, |fleet.sightings|));
      TopOf(log, ns, pending);
      ok := RunCleanup(pending[|pending| - 1], top, pending, ns);
      if ok {
        NoteSuccess(pending, ns);
      } else {
        NoteMark(pending, ns, Ran(top, false));
      }
    }

    /**
     Undoes what is pending, last registered first, and stops at the first failure with the failed
     cleanup and everything below it still pending.
     */
    method Cleanup() returns (ok: bool)
      requires Inv()
      modifies this`cleanups, this`ids, this`log, fleet
      ensures Inv()
      ensures cleanups <= old(cleanups)
      ensures ok <==> cleanups == []
      ensures !ok ==> |ids| == |cleanups| && |old(log)| < |log| && log[|log| - 1] == Ran(ids[|ids| - 1], false)
      ensures fleet.created == old(fleet.created)
      ensures Extends(old(log), log)
      ensures Forward()
      ensures !ok ==> cleanups != [] && Stuck(cleanups[|cleanups| - 1])
    {
      hide Lawful, Covered, Records, Current, Clock, RecordedWorkload;
      var pending := cleanups;
      ghost var ns := ids;
      PendingLength(log, ns, pending, 1 + |spokes|, prefix);
      cleanups, ids := [], [];
      var i := |pending| - 1;
      assert pending[..i + 1] == pending && ns[..i + 1] == ns;
      while i >= 0
        invariant -1 <= i < |pending| == |ns|
        invariant InvFor(pending[..i + 1], ns[..i + 1])
        invariant Forward()
        invariant cleanups == [] && ids == [] && Extends(old(log), log) && Current(log) == None
        invariant fleet.created == old(fleet.created)
      {
        ok := RunTopmost(pending[..i + 1], ns[..i + 1]);
        if !ok {
          cleanups, ids := pending[..i + 1], ns[..i + 1];
          return;
        }
        assert pending[..i + 1][..i] == pending[..i] && ns[..i + 1][..i] == ns[..i];
        i := i - 1;
      }
      ok := true;
    }
  }

  lemma PendingLength(log: Log, ids: seq<nat>, cs: seq<Cleanup>, n: nat, prefix: string)
    requires Lawful(log, ids, cs, n, prefix)
    ensures |ids| == |cs|
  {
    hide AllLawful, Current, Clock, RecordedWorkload;
  }

  lemma PopKeeps(live: map<Loc, Obj>, created: set<(Loc, nat)>, cs: seq<Cleanup>)
    requires Covered(live, created, Targets(cs)) && cs != []
    requires cs[|cs| - 1].Remove? ==> Vacated(live, created, cs[|cs| - 1].loc)
    ensures Covered(live, created, Targets(cs[..|cs| - 1]))
  {
    assert cs == cs[..|cs| - 1] + [cs[|cs| - 1]];
    TargetsOfPush(cs[..|cs| - 1], cs[|cs| - 1]);
  }

  lemma CoveredByMore(live: map<Loc, Obj>, created: set<(Loc, nat)>, targets: set<Loc>, more: set<Loc>)
    requires Covered(live, created, targets) && targets <= more
    ensures Covered(live, created, more)
  {
  }

  /** A spoke whose Secret could be created has another name than all spokes before it. */
  lemma NextSpoke(live: map<Loc, Obj>, created: set<(Loc, nat)>, live': map<Loc, Obj>, created': set<(Loc, nat)>,
                  prefix: string, spokes: seq<Cluster>, i: nat)
    requires i < |spokes| && created <= created' && Kept(live, created, live')
    requires HoldSecrets(live, created, prefix, spokes, i) && DistinctNames(spokes[..i])
    requires Holds(live', created', SecretLoc(prefix, spokes[i])) && !Holds(live, created, SecretLoc(prefix, spokes[i]))
    ensures HoldSecrets(live', created', prefix, spokes, i + 1) && DistinctNames(spokes[..i + 1])
  {
    forall k | 0 <= k < i
      ensures Holds(live', created', SecretLoc(prefix, spokes[k])) && spokes[k].name != spokes[i].name
    {
      assert Holds(live, created, SecretLoc(prefix, spokes[k]));
    }
  }

  /** Registration `j` is the pending restoration of the scheduler of cluster `c` after its use in this role. */
  predicate Saves(log: Log, j: nat, c: nat, role: MultiClusterRole) {
    && j < |log| && log[j].Registered? && log[j].what.RestoreScheduler?
    && log[j].what.cluster == c && log[j].what.role == role && !Succeeded(log, j)
  }

  lemma SavedNow(log: Log, c: nat, original: Scheduler, role: MultiClusterRole)
    requires log != [] && log[|log| - 1] == Registered(RestoreScheduler(c, original, role))
    requires !Succeeded(log, |log| - 1)
    ensures Saves(log, |log| - 1, c, role)
  {
  }

  /** Recording that the test's values were written, with their restoration pending. */
  lemma InstallEvent(log: Log, j: nat, c: nat, found: Scheduler, role: MultiClusterRole, n: nat, prefix: string)
    requires Saves(log, j, c, role) && Current(log) == None
    ensures var e := Wrote(c, found, Install(found, role, prefix));
            Law(log, e, n, prefix) && Saves(log + [e], j, c, role)
  {
    var value := Install(found, role, prefix);
    var e := Wrote(c, found, value);
    assert Enables(log, j, c, found, value, prefix);
    assert (log + [e])[|log|] == e;
  }

  lemma SavedBelowNext(log: Log, c: nat)
    requires SavedBelow(log, c)
    ensures SavedBelow(log, c + 1)
  {
  }

  lemma NoSchedulerSaved(log: Log)
    requires UpTo(log, 1)
    ensures SavedBelow(log, 0) && UpTo(log, 2)
  {
  }

  lemma ConfirmedKeepsStages(log: Log, uid: nat)
    requires log != []
    ensures KeepsStages(log, log + [Confirmed(|log| - 1, uid)])
  {
    LastOf(log, Confirmed(|log| - 1, uid));
    ExtendsKeepsStages(log, log + [Confirmed(|log| - 1, uid)]);
  }

  /**
   The entry was taken out of the lists: by an update that replaced the object's content `before`, or, when that has
   no such entry, by the latest answer alone.
   */
  predicate Removed(log: Log, log': Log, replacements: seq<Replacement>, replacements': seq<Replacement>, seen: nat,
                    c: nat, before: Json.Json, lists: F.Lists)
  {
    if replacements' == replacements
    then seen > 0 && F.RemoveAll(before, lists) == before && log' == log + [FoundUnlinked(c, before, seen - 1)]
    else
      var doc := F.RemoveAll(before, lists);
      && log' == log + [Unlinked(c, before, doc)]
      && replacements' == replacements + [Replacement(KueueLoc(c), before, doc)]
  }

  lemma RecordsChange(log: Log, e: Event, n: nat, prefix: string, ids: seq<nat>, cs: seq<Cleanup>, f: Facts)
    requires Lawful(log, ids, cs, n, prefix) && Records(log, f) && IsChange(e)
    ensures Records(log + [e], f.(changes := WithChange(f.changes, e)))
  {
    hide AllLawful, Pending, Records;
    RecordsNext(log, e, n, prefix, f);
  }

  /** An object whose only kind of change is this update lacks nothing afterwards. */
  lemma LinkedLacksNothing(log: Log, c: nat, before: Json.Json, doc: Json.Json)
    requires log != [] && Links(log, |log| - 1, c, before, doc)
    ensures F.Lacking(doc, F.THE_LISTS) == []
  {
    F.TheListsAreApart();
    F.AddTwice(before, F.THE_LISTS);
  }

  lemma LackingIsApart(doc: Json.Json)
    ensures F.Apart(F.Lacking(doc, F.THE_LISTS))
  {
    F.TheListsAreApart();
    F.LackingApart(doc, F.THE_LISTS);
  }

  /** The metadata labels of the Kueue object, as JSON. */
  function LabelsDocument(prefix: string): Json.Json {
    Json.Object(map k | k in OwnedLabels(prefix) :: Json.String(OwnedLabels(prefix)[k]))
  }

  lemma RegisteredProperly(log: Log, n: nat, prefix: string, id: nat)
    requires AllLawful(log, n, prefix) && id < |log| && log[id].Registered?
    ensures log[id].what.RemoveFrameworks? ==> F.Apart(log[id].what.lists)
    ensures log[id].what.Remove? && log[id].what.loc.kind.PipelineRun? ==> log[id].what.loc == RunLoc(0, prefix)
  {
    LawAt(log, n, prefix, id);
  }

  lemma ExecutingIsCurrent(log: Log, id: nat, c: Cleanup)
    requires Executing(log, id, c)
    ensures Current(log) == Some(id)
  {
  }

  /** The object was seen absent or its deletion accepted. */
  predicate Gives(e: Event, loc: Loc) {
    (e.Absent? && e.loc == loc) || (e.Deleted? && e.deletion.loc == loc)
  }

  ghost predicate GivenSince(log: Log, since: nat, loc: Loc) {
    exists q | since <= q < |log| :: Gives(log[q], loc)
  }

  lemma GivenStays(log: Log, log': Log, since: nat, loc: Loc)
    requires log <= log' && log' != [] && log'[|log'| - 1].Gone?
    requires since < |log| && Gives(log[|log| - 1], loc)
    requires |log| <= log'[|log'| - 1].since <= |log'|
    ensures GivenSince(log'[..log'[|log'| - 1].since], since, loc)
  {
    assert log'[..log'[|log'| - 1].since][|log| - 1] == log[|log| - 1];
  }

  lemma JustEnabled(writes: seq<SectionWrite>, c: nat, found: Scheduler, role: MultiClusterRole, prefix: string)
    ensures Enabled(writes + [SectionWrite(c, found, Install(found, role, prefix))], c, role, prefix)
  {
    var w := SectionWrite(c, found, Install(found, role, prefix));
    InstalledValues(found, role, prefix);
    assert w in writes + [w];
  }

  lemma EnabledNext(writes: seq<SectionWrite>, writes': seq<SectionWrite>, hub: Cluster, spokes: seq<Cluster>, c: nat,
                    prefix: string)
    requires c <= |spokes| && writes <= writes' && EnabledUpTo(writes, hub, spokes, c, prefix)
    requires Enabled(writes', c, if ([hub] + spokes)[c].name == hub.name then Hub else Spoke, prefix)
    ensures EnabledUpTo(writes', hub, spokes, c + 1, prefix)
  {
    forall k | 0 <= k < c
      ensures Enabled(writes', k, if ([hub] + spokes)[k].name == hub.name then Hub else Spoke, prefix)
    {
      var role := if ([hub] + spokes)[k].name == hub.name then Hub else Spoke;
      var w :| w in writes && w.cluster == k &&
          w.value == Scheduler(Some(false), false, role, prefix, role == Hub, w.found.rest);
      assert w in writes';
    }
  }

  lemma TargetedNext(targets: set<Loc>, targets': set<Loc>, prefix: string, n: nat)
    requires Targeted(targets, prefix, n) && targets <= targets' && NamespaceLoc(n, prefix) in targets'
    ensures Targeted(targets', prefix, n + 1)
  {
  }

  lemma CaptureKeepsTargets(cs: seq<Cleanup>, uid: nat)
    requires cs != [] && cs[|cs| - 1].Remove?
    ensures Targets(cs[|cs| - 1 := Remove(cs[|cs| - 1].loc, Some(uid))]) == Targets(cs)
  {
    var top := cs[|cs| - 1];
    assert cs[|cs| - 1 := Remove(top.loc, Some(uid))] == cs[..|cs| - 1] + [Remove(top.loc, Some(uid))];
    assert cs == cs[..|cs| - 1] + [top];
    TargetsOfPush(cs[..|cs| - 1], Remove(top.loc, Some(uid)));
    TargetsOfPush(cs[..|cs| - 1], top);
  }

  lemma TargetsOfPush(cs: seq<Cleanup>, c: Cleanup)
    ensures Targets(cs + [c]) == Targets(cs) + if c.Remove? then {c.loc} else {}
  {
    var pushed := Targets(cs + [c]);
    assert forall x | x in cs + [c] :: x in cs || x == c;
    assert forall x | x in cs :: x in cs + [c];
    assert c in cs + [c];
  }
}
