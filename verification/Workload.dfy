/**
 The observation protocol of the multi-cluster test: one PipelineRun created on the hub must execute
 on exactly one spoke and complete there, as seen through polls that other actors interleave with.
 */
module KueueWorkload {
  import opened Wrappers
  import opened Clusters
  import opened CleanupLog
  import opened KueueEnvironment
  import opened FleetRecords
  import Json

  const LOG_MARKER := "multi-cluster-execution-ok"

  datatype Result = Result(run: string, spoke: string, logs: string)

  /** Whether a reported condition is terminal and whether it is a success. */
  function RunState(condition: Option<ConditionStatus>): (bool, bool) {
    match condition
    case Some(True) => (true, true)
    case Some(False) => (true, false)
    case _ => (false, false)
  }

  predicate Contains(s: string, part: string) {
    exists i | 0 <= i <= |s| :: part <= s[i..]
  }

  predicate LooksAt(sighting: Sighting, loc: Loc) {
    sighting.Saw? && sighting.loc == loc
  }

  /** The object was returned with its condition reported as true ... */
  predicate ShowsSuccess(sighting: Sighting) {
    sighting.Saw? && sighting.found.Some? && sighting.found.value.condition == Some(True)
  }

  /** ... or as false; one that is unknown or not reported shows neither. */
  predicate ShowsFailure(sighting: Sighting) {
    sighting.Saw? && sighting.found.Some? && sighting.found.value.condition == Some(False)
  }

  /** Every sighting of the run on a spoke since `from` was of a spoke named in `seen`. */
  ghost predicate SeenIn(s: seq<Sighting>, from: nat, prefix: string, spokes: seq<Cluster>, seen: set<string>) {
    forall k, i | from <= k < |s| && 0 <= i < |spokes| && LooksAt(s[k], RunLoc(i + 1, prefix)) && s[k].found.Some? ::
      spokes[i].name in seen
  }

  /** Watching only adds sightings; interference is remembered. */
  twostate predicate Watched(e: Environment)
    reads e, e.fleet
  {
    && old(e.fleet.sightings) <= e.fleet.sightings && (!e.fleet.disturbed ==> !old(e.fleet.disturbed))
    && old(e.fleet.errors) <= e.fleet.errors && old(e.fleet.timeouts) <= e.fleet.timeouts
  }

  /** The hub's run was not looked at since `from`. */
  ghost predicate NoHubLook(s: seq<Sighting>, from: nat, prefix: string) {
    forall k | from <= k < |s| :: !LooksAt(s[k], RunLoc(0, prefix))
  }

  /** The `n` answers right before `k` are a round: the run was looked for on every spoke, in order. */
  ghost predicate RoundBefore(s: seq<Sighting>, from: nat, k: nat, prefix: string, n: nat) {
    from + n <= k <= |s| && forall m | k - n <= m < k :: LooksAt(s[m], RunLoc(m - (k - n) + 1, prefix))
  }

  /** An answer by which a wait goes on or ends: the hub's run, a workload, or the TaskRuns on a spoke. */
  predicate Decides(sighting: Sighting, prefix: string) {
    || LooksAt(sighting, RunLoc(0, prefix))
    || (sighting.Saw? && sighting.loc.kind.Workload?)
    || (sighting.TaskRunsListed? && sighting.cluster > 0)
  }

  /** Logs, or the run on some spoke: what a poll may read between its round and the answer that decides. */
  predicate ReadMeanwhile(sighting: Sighting, prefix: string) {
    || sighting.LogsRead?
    || (sighting.Saw? && sighting.loc.cluster > 0 && sighting.loc == RunLoc(sighting.loc.cluster, prefix))
  }

  /** The answer at `k` belongs to a poll that began with a round `r`. */
  ghost predicate PolledAt(s: seq<Sighting>, from: nat, r: nat, k: nat, prefix: string, n: nat) {
    && r <= k <= r + 2 && k < |s| && RoundBefore(s, from, r, prefix, n)
    && forall m | r <= m < k :: ReadMeanwhile(s[m], prefix)
  }

  /** Every poll since `from` looked at every spoke before it decided anything. */
  ghost predicate Polled(s: seq<Sighting>, from: nat, prefix: string, n: nat) {
    forall k: nat | from <= k < |s| && Decides(s[k], prefix) :: exists r: nat :: PolledAt(s, from, r, k, prefix, n)
  }

  /** What the waits after completion are for: the hub's workload finished, then the worker's objects gone at once. */
  ghost predicate WoundUp(s: seq<Sighting>, from: nat, prefix: string, worker: nat, workload: string) {
    exists k: nat, m: nat ::
      from <= k && k + 1 < m && FinishedAt(s, k, prefix, workload) && GoneAt(s, m, prefix, worker, workload)
  }

  predicate FinishedAt(s: seq<Sighting>, k: nat, prefix: string, workload: string) {
    k < |s| && LooksAt(s[k], WorkloadLoc(0, prefix, workload)) && ShowsSuccess(s[k])
  }

  /** Two adjacent answers: neither the run nor the workload is on the worker. */
  predicate GoneAt(s: seq<Sighting>, m: nat, prefix: string, worker: nat, workload: string) {
    && 0 < m < |s| && s[m - 1] == Saw(RunLoc(worker, prefix), None)
    && s[m] == Saw(WorkloadLoc(worker, prefix, workload), None)
  }

  /** Whenever the hub's TaskRuns of the run were listed, there were none. */
  ghost predicate NoHubTaskRuns(s: seq<Sighting>, from: nat) {
    forall k | from <= k < |s| && s[k].TaskRunsListed? && s[k].cluster == 0 :: s[k].count == 0
  }

  ghost predicate NoLists(s: seq<Sighting>, from: nat) {
    forall k | from <= k < |s| :: !s[k].TaskRunsListed?
  }

  ghost predicate TaskRunsCheckedTwice(s: seq<Sighting>, from: nat) {
    exists k, l | from <= k < l < |s| :: s[k] == TaskRunsListed(0, 0) && s[l] == TaskRunsListed(0, 0)
  }

  /** TaskRuns of the run were found on this cluster. */
  ghost predicate ExecutedOn(s: seq<Sighting>, from: nat, cluster: nat) {
    exists k | from <= k < |s| :: s[k].TaskRunsListed? && s[k].cluster == cluster && s[k].count > 0
  }

  ghost predicate LogsFrom(s: seq<Sighting>, from: nat, cluster: nat, text: string) {
    exists k | from <= k < |s| :: s[k] == LogsRead(cluster, text)
  }

  /** The look at the hub's run at `k` comes right after one at the worker's, and neither shows a failed run. */
  ghost predicate CheckedAt(s: seq<Sighting>, from: nat, k: nat, prefix: string, worker: nat) {
    && from < k < |s| && LooksAt(s[k], RunLoc(0, prefix)) && LooksAt(s[k - 1], RunLoc(worker, prefix))
    && !ShowsFailure(s[k - 1]) && !ShowsFailure(s[k])
  }

  /** All looks at the hub's run since `from` are like that. */
  ghost predicate NeverFailed(s: seq<Sighting>, from: nat, prefix: string, worker: nat) {
    forall k | from <= k < |s| && LooksAt(s[k], RunLoc(0, prefix)) :: CheckedAt(s, from, k, prefix, worker)
  }

  /** One of them was preceded by the sight of a worker's run that has succeeded. */
  ghost predicate WorkerSucceeded(s: seq<Sighting>, from: nat, prefix: string, worker: nat) {
    exists k: nat :: CheckedAt(s, from, k, prefix, worker) && ShowsSuccess(s[k - 1])
  }

  /**
   The worker was seen succeeded at some poll, the hub at the last, and whenever the worker and the hub were
   checked neither was seen failed.
   */
  ghost predicate Completed(s: seq<Sighting>, from: nat, prefix: string, worker: nat) {
    && NeverFailed(s, from, prefix, worker)
    && WorkerSucceeded(s, from, prefix, worker)
    && exists k | from <= k < |s| ::
         LooksAt(s[k], RunLoc(0, prefix)) && ShowsSuccess(s[k]) && NoHubLook(s, k + 1, prefix)
  }

  // ---- What an execution may fail for ----

  /** The answer at `k` shows the run on spoke number `i`, which has this name. */
  predicate SightedAt(s: seq<Sighting>, k: nat, prefix: string, spokes: seq<Cluster>, i: nat, name: string) {
    && k < |s| && i < |spokes| && LooksAt(s[k], RunLoc(i + 1, prefix)) && s[k].found.Some?
    && spokes[i].name == name
  }

  ghost predicate Sighted(s: seq<Sighting>, from: nat, prefix: string, spokes: seq<Cluster>, name: string) {
    exists k: nat, i: nat :: from <= k && SightedAt(s, k, prefix, spokes, i, name)
  }

  ghost predicate AllSighted(s: seq<Sighting>, from: nat, prefix: string, spokes: seq<Cluster>, names: set<string>) {
    forall name | name in names :: Sighted(s, from, prefix, spokes, name)
  }

  /** The run was seen under two names ... */
  ghost predicate SeenTwice(s: seq<Sighting>, from: nat, prefix: string, spokes: seq<Cluster>) {
    exists a, b :: a != b && Sighted(s, from, prefix, spokes, a) && Sighted(s, from, prefix, spokes, b)
  }

  /** ... or under another name than this one. */
  ghost predicate Elsewhere(s: seq<Sighting>, from: nat, prefix: string, spokes: seq<Cluster>, name: string) {
    exists other :: other != name && Sighted(s, from, prefix, spokes, other)
  }

  /** The run failed somewhere, is not on the hub any more, or has TaskRuns there. */
  predicate Stops(sighting: Sighting, prefix: string) {
    || (ShowsFailure(sighting) && sighting.loc.kind.PipelineRun?)
    || sighting == Saw(RunLoc(0, prefix), None)
    || (sighting.TaskRunsListed? && sighting.cluster == 0 && sighting.count > 0)
  }

  ghost predicate Stopped(s: seq<Sighting>, from: nat, prefix: string) {
    exists k | from <= k < |s| :: Stops(s[k], prefix)
  }

  /** A call reported an error or a wait ran out. */
  twostate predicate Hampered(e: Environment)
    reads e, e.fleet
  {
    old(e.fleet.errors) < e.fleet.errors || old(e.fleet.timeouts) < e.fleet.timeouts
  }

  /** What a wait may fail for once the spoke is known. */
  twostate predicate Lost(e: Environment, name: string)
    reads e, e.fleet
  {
    || Hampered(e) || Stopped(e.fleet.sightings, |old(e.fleet.sightings)|, e.prefix)
    || Elsewhere(e.fleet.sightings, |old(e.fleet.sightings)|, e.prefix, e.spokes, name)
  }

  lemma AllSightedGrows(s: seq<Sighting>, s': seq<Sighting>, from: nat, since: nat, prefix: string,
                        spokes: seq<Cluster>, names: set<string>)
    requires s <= s' && since <= from && AllSighted(s, from, prefix, spokes, names)
    ensures AllSighted(s', since, prefix, spokes, names)
  {
    forall name | name in names ensures Sighted(s', since, prefix, spokes, name) {
      assert Sighted(s, from, prefix, spokes, name);
      var k: nat, i: nat :| from <= k && SightedAt(s, k, prefix, spokes, i, name);
      assert SightedAt(s', k, prefix, spokes, i, name);
    }
  }

  lemma OneMoreSighted(s: seq<Sighting>, s': seq<Sighting>, from: nat, prefix: string, spokes: seq<Cluster>,
                       names: set<string>, i: nat)
    requires from <= |s| < |s'| && s' == s + [s'[|s|]] && i < |spokes|
    requires AllSighted(s, from, prefix, spokes, names)
    requires LooksAt(s'[|s|], RunLoc(i + 1, prefix)) && s'[|s|].found.Some?
    ensures AllSighted(s', from, prefix, spokes, names + {spokes[i].name})
  {
    AllSightedGrows(s, s', from, from, prefix, spokes, names);
    assert SightedAt(s', |s|, prefix, spokes, i, spokes[i].name);
  }

  lemma TwoSighted(s: seq<Sighting>, from: nat, prefix: string, spokes: seq<Cluster>, names: set<string>)
    requires AllSighted(s, from, prefix, spokes, names) && |names| > 1
    ensures SeenTwice(s, from, prefix, spokes)
  {
    hide Sighted;
    var a :| a in names;
    assert |names - {a}| > 0;
    var b :| b in names - {a};
  }

  lemma OtherSighted(s: seq<Sighting>, from: nat, prefix: string, spokes: seq<Cluster>, name: string,
                     names: set<string>)
    requires AllSighted(s, from, prefix, spokes, names - {name}) && |names| > 1
    ensures Elsewhere(s, from, prefix, spokes, name)
  {
    hide Sighted;
    assert name in names ==> |names - {name}| == |names| - 1;
    assert name !in names ==> names - {name} == names;
    var other :| other in names - {name};
  }

  /** Answers that count since a later point count since an earlier one. */
  lemma LostEarlier(s: seq<Sighting>, later: nat, from: nat, prefix: string, spokes: seq<Cluster>, name: string)
    requires from <= later
    ensures Stopped(s, later, prefix) ==> Stopped(s, from, prefix)
    ensures Elsewhere(s, later, prefix, spokes, name) ==> Elsewhere(s, from, prefix, spokes, name)
  {
    hide SightedAt, Stops;
    if Elsewhere(s, later, prefix, spokes, name) {
      var other :| other != name && Sighted(s, later, prefix, spokes, other);
      assert Sighted(s, from, prefix, spokes, other);
    }
  }

  lemma SeenTwiceEarlier(s: seq<Sighting>, later: nat, from: nat, prefix: string, spokes: seq<Cluster>)
    requires from <= later && SeenTwice(s, later, prefix, spokes)
    ensures SeenTwice(s, from, prefix, spokes)
  {
    hide SightedAt;
    var a, b :| a != b && Sighted(s, later, prefix, spokes, a) && Sighted(s, later, prefix, spokes, b);
    assert Sighted(s, from, prefix, spokes, a) && Sighted(s, from, prefix, spokes, b);
  }

  /** A spoke that was known and another name together. */
  lemma ElsewhereIsTwice(s: seq<Sighting>, first: seq<Sighting>, later: nat, from: nat, prefix: string,
                         spokes: seq<Cluster>, name: string)
    requires from <= later && first <= s && Sighted(first, from, prefix, spokes, name)
    requires Elsewhere(s, later, prefix, spokes, name)
    ensures SeenTwice(s, from, prefix, spokes)
  {
    AllSightedGrows(first, s, from, from, prefix, spokes, {name});
    hide SightedAt;
    var other :| other != name && Sighted(s, later, prefix, spokes, other);
    assert Sighted(s, from, prefix, spokes, other);
    assert name in {name};
  }

  lemma StoppedBy(s: seq<Sighting>, from: nat, k: nat, prefix: string)
    requires from <= k < |s| && Stops(s[k], prefix)
    ensures Stopped(s, from, prefix)
  {
  }

  /** The run with this id owns the workload of that name on the hub. */
  ghost predicate OwnsWorkload(live: map<Loc, Obj>, prefix: string, name: string, uid: nat) {
    WorkloadLoc(0, prefix, name) in live && uid in live[WorkloadLoc(0, prefix, name)].owners
  }

  /** The first listed workload with an owner reference to the run. */
  method FindOwned(items: seq<(string, Obj)>, uid: nat) returns (name: Option<string>)
    ensures name.Some? ==> exists i | 0 <= i < |items| :: items[i].0 == name.value && uid in items[i].1.owners
    ensures name.None? ==> forall i | 0 <= i < |items| :: uid !in items[i].1.owners
  {
    for i := 0 to |items|
      invariant forall k | 0 <= k < i :: uid !in items[k].1.owners
    {
      var owners := items[i].1.owners;
      for j := 0 to |owners|
        invariant forall k | 0 <= k < j :: owners[k] != uid
      {
        if owners[j] == uid {
          return Some(items[i].0);
        }
      }
    }
    return None;
  }

  /** Polls the hub for the workload the run owns and records its name. */
  method WaitForHubWorkload(e: Environment, uid: nat) returns (ok: bool)
    requires e.Inv()
    modifies e`log, e`workloadName, e.fleet`live, e.fleet`next, e.fleet`disturbed, e.fleet`scheduler, e.fleet`errors,
             e.fleet`timeouts
    ensures e.Inv() && Extends(old(e.log), e.log) && Watched(e)
    ensures ok ==> e.log == old(e.log) + [Recorded(e.workloadName)]
    ensures ok ==> OwnsWorkload(e.fleet.live, e.prefix, e.workloadName, uid)
    ensures !ok ==> e.log == old(e.log) && e.workloadName == old(e.workloadName)
    ensures !ok ==> Hampered(e)
  {
    hide Lawful, Records, Covered, Current, Clock, RecordedWorkload, Targets;
    var budget: nat := *;
    while budget > 0
      invariant e.Inv() && e.log == old(e.log) && e.workloadName == old(e.workloadName) && Watched(e)
    {
      var items := e.ListHubWorkloads();
      if items.Some? {
        var name := FindOwned(items.value, uid);
        if name.Some? {
          e.RecordWorkload(name.value);
          return true;
        }
      }
      budget := budget - 1;
    }
    GiveUpOn(e);
    ok := false;
  }

  /** The wait runs out. */
  ghost method GiveUpOn(e: Environment)
    requires e.Inv()
    modifies e.fleet`timeouts
    ensures e.Inv() && e.fleet.timeouts == old(e.fleet.timeouts) + 1
  {
    hide Environment.InvFor, Lawful, Covered, Records, Current, Clock, RecordedWorkload, Targets;
    e.GiveUp(e.cleanups, e.ids);
  }

  /** Looks for the run on every spoke and adds the names of those that hold it to `seen`. */
  method RecordSpokes(e: Environment, seen: set<string>) returns (ok: bool, seen': set<string>, selected: Option<nat>)
    requires e.Inv()
    modifies e.fleet`live, e.fleet`next, e.fleet`disturbed, e.fleet`scheduler, e.fleet`sightings, e.fleet`errors
    ensures e.Inv() && Watched(e)
    ensures seen <= seen'
    ensures SeenIn(e.fleet.sightings, |old(e.fleet.sightings)|, e.prefix, e.spokes, seen')
    ensures NoHubLook(e.fleet.sightings, |old(e.fleet.sightings)|, e.prefix)
    ensures NoLists(e.fleet.sightings, |old(e.fleet.sightings)|)
    ensures ok ==> |seen'| <= 1
    ensures ok ==> |e.fleet.sightings| == |old(e.fleet.sightings)| + |e.spokes|
    ensures ok ==>
      RoundBefore(e.fleet.sightings, |old(e.fleet.sightings)|, |e.fleet.sightings|, e.prefix, |e.spokes|)
    ensures selected.Some? ==> selected.value < |e.spokes| && e.spokes[selected.value].name in seen'
    ensures selected.None? ==> seen' == seen
    ensures AllSighted(e.fleet.sightings, |old(e.fleet.sightings)|, e.prefix, e.spokes, seen' - seen)
    ensures !ok ==> old(e.fleet.errors) < e.fleet.errors || |seen'| > 1
  {
    hide Environment.InvFor, Lawful, Covered, Records, Current, Clock, RecordedWorkload, Targets;
    seen', selected := seen, None;
    for i := 0 to |e.spokes|
      invariant e.Inv() && Watched(e) && seen <= seen'
      invariant SeenIn(e.fleet.sightings, |old(e.fleet.sightings)|, e.prefix, e.spokes, seen')
      invariant NoHubLook(e.fleet.sightings, |old(e.fleet.sightings)|, e.prefix)
      invariant NoLists(e.fleet.sightings, |old(e.fleet.sightings)|)
      invariant selected.Some? ==> selected.value < |e.spokes| && e.spokes[selected.value].name in seen'
      invariant selected.None? ==> seen' == seen
      invariant |e.fleet.sightings| == |old(e.fleet.sightings)| + i
      invariant AllSighted(e.fleet.sightings, |old(e.fleet.sightings)|, e.prefix, e.spokes, seen' - seen)
      invariant RoundBefore(e.fleet.sightings, |old(e.fleet.sightings)|, |e.fleet.sightings|, e.prefix, i)
    {
      ghost var before, names := e.fleet.sightings, seen' - seen;
      var r := e.Look(RunLoc(i + 1, e.prefix), e.cleanups, e.ids);
      match r {
        case Found(_) =>
          OneMoreSighted(before, e.fleet.sightings, |old(e.fleet.sightings)|, e.prefix, e.spokes, names, i);
          seen' := seen' + {e.spokes[i].name};
          selected := Some(i);
        case NotFound =>
          AllSightedGrows(before, e.fleet.sightings, |old(e.fleet.sightings)|, |old(e.fleet.sightings)|, e.prefix,
                          e.spokes, names);
        case Failed =>
          AllSightedGrows(before, e.fleet.sightings, |old(e.fleet.sightings)|, |old(e.fleet.sightings)|, e.prefix,
                          e.spokes, names);
          return false, seen', selected;
      }
    }
    ok := |seen'| <= 1;
  }

  /** What holds after every poll for the execution, with the names seen so far. */
  ghost predicate Searching(s: seq<Sighting>, from: nat, prefix: string, spokes: seq<Cluster>, seen: set<string>) {
    && SeenIn(s, from, prefix, spokes, seen) && Polled(s, from, prefix, |spokes|)
    && NoHubTaskRuns(s, from) && NoHubLook(s, from, prefix)
  }

  lemma SearchingOn(s: seq<Sighting>, s': seq<Sighting>, from: nat, prefix: string, spokes: seq<Cluster>,
                    seen: set<string>, seen': set<string>)
    requires from <= |s| && s <= s' && seen <= seen'
    requires Searching(s, from, prefix, spokes, seen) && Searching(s', |s|, prefix, spokes, seen')
    ensures Searching(s', from, prefix, spokes, seen')
  {
    PolledGrows(s, s', from, prefix, |spokes|);
    hide Polled;
    assert forall k | from <= k < |s| :: s'[k] == s[k];
  }

  /** One poll for the execution: done once TaskRuns are found on the spoke where the run was seen last. */
  method PollExecution(e: Environment, seen: set<string>, selected: nat)
      returns (a: Attempt, seen': set<string>, selected': nat)
    requires e.Inv() && (seen != {} ==> selected < |e.spokes| && e.spokes[selected].name in seen)
    modifies e.fleet`live, e.fleet`next, e.fleet`disturbed, e.fleet`scheduler, e.fleet`sightings, e.fleet`errors
    ensures e.Inv() && Watched(e)
    ensures seen <= seen' && (seen' != {} ==> selected' < |e.spokes| && e.spokes[selected'].name in seen')
    ensures !a.Error? ==>
      |seen'| <= 1 && Searching(e.fleet.sightings, |old(e.fleet.sightings)|, e.prefix, e.spokes, seen')
    ensures a.Done? ==> seen' != {} && ExecutedOn(e.fleet.sightings, |old(e.fleet.sightings)|, selected' + 1)
    ensures AllSighted(e.fleet.sightings, |old(e.fleet.sightings)|, e.prefix, e.spokes, seen' - seen)
    ensures a.Error? ==> Hampered(e) || |seen'| > 1
  {
    hide Environment.InvFor, Lawful, Covered, Records, RoundBefore, Polled, Current, Clock, RecordedWorkload, Targets;
    ghost var before := e.fleet.sightings;
    var ok, latest;
    ok, seen', latest := RecordSpokes(e, seen);
    selected' := if latest.Some? then latest.value else selected;
    if !ok {
      return Error, seen', selected';
    }
    ghost var looked := e.fleet.sightings;
    a := Retry;
    ghost var names := seen' - seen;
    if |seen'| > 0 {
      var taskRuns := e.ListTaskRuns(selected' + 1);
      AllSightedGrows(looked, e.fleet.sightings, |before|, |before|, e.prefix, e.spokes, names);
      if taskRuns.None? {
        return Error, seen', selected';
      }
      assert e.fleet.sightings[|looked|] == TaskRunsListed(selected' + 1, taskRuns.value);
      if taskRuns.value > 0 {
        a := Done;
      }
    }
    RoundStays(looked, e.fleet.sightings, |before|, |looked|, e.prefix, |e.spokes|);
    SinglePoll(e.fleet.sightings, |before|, e.prefix, |e.spokes|);
  }

  /** Waits until the run executes on a spoke; the same set of sightings spans all polls. */
  method WaitForSpokeExecution(e: Environment) returns (ok: bool, selected: nat)
    requires e.Inv()
    modifies e.fleet`live, e.fleet`next, e.fleet`disturbed, e.fleet`scheduler, e.fleet`sightings, e.fleet`errors,
             e.fleet`timeouts
    ensures e.Inv() && Watched(e)
    ensures ok ==>
      && selected < |e.spokes|
      && Searching(e.fleet.sightings, |old(e.fleet.sightings)|, e.prefix, e.spokes, {e.spokes[selected].name})
      && ExecutedOn(e.fleet.sightings, |old(e.fleet.sightings)|, selected + 1)
      && |old(e.fleet.sightings)| < |e.fleet.sightings|
      && e.fleet.sightings[|e.fleet.sightings| - 1] == TaskRunsListed(0, 0)
    ensures ok ==>
      Sighted(e.fleet.sightings, |old(e.fleet.sightings)|, e.prefix, e.spokes, e.spokes[selected].name)
    ensures !ok ==>
      || Hampered(e) || Stopped(e.fleet.sightings, |old(e.fleet.sightings)|, e.prefix)
      || SeenTwice(e.fleet.sightings, |old(e.fleet.sightings)|, e.prefix, e.spokes)
  {
    hide Environment.InvFor, Lawful, Covered, Records, Searching, ExecutedOn, Current, Clock, RecordedWorkload, Targets;
    ghost var from := |e.fleet.sightings|;
    var seen: set<string>, a, budget: nat := {}, Retry, *;
    selected := 0;
    NotSearching(e.fleet.sightings, e.prefix, e.spokes);
    while budget > 0 && a.Retry?
      invariant e.Inv() && Watched(e)
      invariant seen != {} ==> selected < |e.spokes| && e.spokes[selected].name in seen
      invariant AllSighted(e.fleet.sightings, from, e.prefix, e.spokes, seen)
      invariant a.Error? ==> Hampered(e) || |seen| > 1
      invariant !a.Error? ==> Searching(e.fleet.sightings, from, e.prefix, e.spokes, seen)
      invariant a.Done? ==> seen != {} && |seen| <= 1 && ExecutedOn(e.fleet.sightings, from, selected + 1)
    {
      ghost var before, names := e.fleet.sightings, seen;
      a, seen, selected := PollExecution(e, seen, selected);
      AllSightedGrows(before, e.fleet.sightings, from, from, e.prefix, e.spokes, names);
      AllSightedGrows(e.fleet.sightings, e.fleet.sightings, |before|, from, e.prefix, e.spokes, seen - names);
      if !a.Error? {
        SearchingOn(before, e.fleet.sightings, from, e.prefix, e.spokes, names, seen);
      }
      if a.Done? {
        ExecutedStays(e.fleet.sightings, e.fleet.sightings, |before|, from, selected + 1);
      }
      budget := budget - 1;
    }
    if !a.Done? {
      if |seen| > 1 {
        TwoSighted(e.fleet.sightings, from, e.prefix, e.spokes, seen);
      } else if a.Retry? {
        GiveUpOn(e);
      }
      return false, selected;
    }
    Singleton(seen, e.spokes[selected].name);
    ghost var polled := e.fleet.sightings;
    var hubTaskRuns := e.ListTaskRuns(0);
    ok := hubTaskRuns == Some(0);
    if hubTaskRuns.Some? && !ok {
      StoppedBy(e.fleet.sightings, from, |polled|, e.prefix);
    }
    AllSightedGrows(polled, e.fleet.sightings, from, from, e.prefix, e.spokes, seen);
    if ok {
      HubSearched(polled, e.fleet.sightings, from, e.prefix, e.spokes, seen);
      ExecutedStays(polled, e.fleet.sightings, from, from, selected + 1);
    }
  }

  lemma NotSearching(s: seq<Sighting>, prefix: string, spokes: seq<Cluster>)
    ensures Searching(s, |s|, prefix, spokes, {})
  {
    NoPolls(s, prefix, |spokes|);
  }

  lemma HubSearched(s: seq<Sighting>, s': seq<Sighting>, from: nat, prefix: string, spokes: seq<Cluster>,
                    seen: set<string>)
    requires from <= |s| && s' == s + [TaskRunsListed(0, 0)] && Searching(s, from, prefix, spokes, seen)
    ensures Searching(s', from, prefix, spokes, seen)
  {
    PolledStays(s, s', from, prefix, |spokes|);
    hide Polled;
    assert forall k | from <= k < |s| :: s'[k] == s[k];
  }

  /** Reads the state of the run on one cluster; a failed run is an error, a missing one only if `required`. */
  method CheckState(e: Environment, c: nat, required: bool) returns (a: Attempt, succeeded: bool)
    requires e.Inv()
    modifies e.fleet`live, e.fleet`next, e.fleet`disturbed, e.fleet`scheduler, e.fleet`sightings, e.fleet`errors
    ensures e.Inv() && Watched(e)
    ensures !a.Error? ==>
      && |e.fleet.sightings| == |old(e.fleet.sightings)| + 1
      && LooksAt(e.fleet.sightings[|old(e.fleet.sightings)|], RunLoc(c, e.prefix))
      && !ShowsFailure(e.fleet.sightings[|old(e.fleet.sightings)|])
      && (succeeded <==> ShowsSuccess(e.fleet.sightings[|old(e.fleet.sightings)|]))
      && (required ==> e.fleet.sightings[|old(e.fleet.sightings)|].found.Some?)
    ensures a.Error? ==>
      || old(e.fleet.errors) < e.fleet.errors
      || (|e.fleet.sightings| == |old(e.fleet.sightings)| + 1 &&
          LooksAt(e.fleet.sightings[|old(e.fleet.sightings)|], RunLoc(c, e.prefix)) &&
          (ShowsFailure(e.fleet.sightings[|old(e.fleet.sightings)|]) ||
           (required && e.fleet.sightings[|old(e.fleet.sightings)|].found.None?)))
    ensures a.Retry? ==> !required && e.fleet.sightings[|old(e.fleet.sightings)|].found.None?
  {
    hide Environment.InvFor, Lawful, Covered, Records, Current, Clock, RecordedWorkload, Targets;
    var r := e.Look(RunLoc(c, e.prefix), e.cleanups, e.ids);
    if !r.Found? {
      return if r.Failed? || required then Error else Retry, false;
    }
    var (terminal, success) := RunState(r.obj.condition);
    a, succeeded := if terminal && !success then Error else Done, success;
  }

  /** The logs of the run on the worker, once they hold the marker. */
  method CaptureLogs(e: Environment, worker: nat, logs: string) returns (logs': string)
    requires e.Inv()
    modifies e.fleet`sightings, e.fleet`errors
    ensures e.Inv() && Watched(e)
    ensures forall k | |old(e.fleet.sightings)| <= k < |e.fleet.sightings| :: e.fleet.sightings[k].LogsRead?
    ensures |e.fleet.sightings| <= |old(e.fleet.sightings)| + 1
    ensures logs' == logs ||
            (Contains(logs', LOG_MARKER) && LogsFrom(e.fleet.sightings, |old(e.fleet.sightings)|, worker, logs'))
  {
    hide Environment.InvFor, Lawful, Covered, Records, Contains, Current, Clock, RecordedWorkload, Targets;
    logs' := logs;
    if logs == "" {
      var candidate := e.ReadLogs(worker);
      if candidate.Some? && Contains(candidate.value, LOG_MARKER) {
        logs' := candidate.value;
        assert e.fleet.sightings[|old(e.fleet.sightings)|] == LogsRead(worker, logs');
      }
    }
  }

  /** One poll of the completion wait. */
  method PollCompletion(e: Environment, spoke: nat, observed: bool, logs: string)
      returns (a: Attempt, observed': bool, logs': string)
    requires e.Inv() && spoke < |e.spokes|
    modifies e.fleet`live, e.fleet`next, e.fleet`disturbed, e.fleet`scheduler, e.fleet`sightings, e.fleet`errors
    ensures e.Inv() && Watched(e)
    ensures !a.Error? ==>
      && SeenIn(e.fleet.sightings, |old(e.fleet.sightings)|, e.prefix, e.spokes, {e.spokes[spoke].name})
      && NeverFailed(e.fleet.sightings, |old(e.fleet.sightings)|, e.prefix, spoke + 1)
      && NoLists(e.fleet.sightings, |old(e.fleet.sightings)|)
      && Polled(e.fleet.sightings, |old(e.fleet.sightings)|, e.prefix, |e.spokes|)
    ensures !a.Error? && observed' ==>
      observed || WorkerSucceeded(e.fleet.sightings, |old(e.fleet.sightings)|, e.prefix, spoke + 1)
    ensures logs' == logs || (Contains(logs', LOG_MARKER) &&
      LogsFrom(e.fleet.sightings, |old(e.fleet.sightings)|, spoke + 1, logs'))
    ensures a.Done? ==>
      && observed' && logs' != "" && |e.fleet.sightings| > |old(e.fleet.sightings)|
      && LooksAt(e.fleet.sightings[|e.fleet.sightings| - 1], RunLoc(0, e.prefix))
      && ShowsSuccess(e.fleet.sightings[|e.fleet.sightings| - 1])
    ensures a.Error? ==> Lost(e, e.spokes[spoke].name)
  {
    hide Environment.InvFor, Lawful, Covered, Records, Current, Clock, RecordedWorkload, Targets, Contains, SeenIn,
         NeverFailed, NoLists, NoHubLook, Polled, RoundBefore, WorkerSucceeded, LogsFrom, Stopped, Elsewhere,
         SeenTwice, Sighted, AllSighted;
    ghost var from := |e.fleet.sightings|;
    observed', logs' := observed, logs;
    var ok, seen, _ := RecordSpokes(e, {e.spokes[spoke].name});
    if !ok {
      if |seen| > 1 {
        OtherSighted(e.fleet.sightings, from, e.prefix, e.spokes, e.spokes[spoke].name, seen);
      }
      return Error, observed', logs';
    }
    Singleton(seen, e.spokes[spoke].name);
    ghost var looked := e.fleet.sightings;
    logs' := CaptureLogs(e, spoke + 1, logs);
    ghost var captured, errors := e.fleet.sightings, e.fleet.errors;
    var worker, succeeded := CheckState(e, spoke + 1, false);
    if logs' != logs {
      LogsStay(captured, e.fleet.sightings, |looked|, from, spoke + 1, logs');
    }
    if worker.Error? {
      if e.fleet.errors == errors {
        StoppedBy(e.fleet.sightings, from, |captured|, e.prefix);
      }
      return Error, observed', logs';
    }
    observed' := observed || succeeded;
    ghost var checked := e.fleet.sightings;
    errors := e.fleet.errors;
    var hubState, hubSucceeded := CheckState(e, 0, true);
    if logs' != logs {
      LogsStay(checked, e.fleet.sightings, from, from, spoke + 1, logs');
    }
    if hubState.Error? {
      if e.fleet.errors == errors {
        StoppedBy(e.fleet.sightings, from, |checked|, e.prefix);
      }
      return Error, observed', logs';
    }
    RoundStays(looked, e.fleet.sightings, from, |looked|, e.prefix, |e.spokes|);
    PollJoined(looked, |captured|, e.fleet.sightings, from, e.prefix, e.spokes, spoke);
    a := if hubSucceeded && observed' && logs' != "" then Done else Retry;
  }

  /** The sightings of one poll: the spokes, then perhaps logs, then the worker and the hub. */
  lemma PollJoined(looked: seq<Sighting>, m: nat, s: seq<Sighting>, from: nat, prefix: string, spokes: seq<Cluster>,
                   spoke: nat)
    requires |looked| == from + |spokes| <= m <= |looked| + 1 && looked <= s && |s| == m + 2 && spoke < |spokes|
    requires RoundBefore(s, from, |looked|, prefix, |spokes|)
    requires SeenIn(looked, from, prefix, spokes, {spokes[spoke].name})
    requires NoHubLook(looked, from, prefix) && NoLists(looked, from)
    requires forall k | |looked| <= k < m :: s[k].LogsRead?
    requires LooksAt(s[m], RunLoc(spoke + 1, prefix)) && LooksAt(s[m + 1], RunLoc(0, prefix))
    requires !ShowsFailure(s[m]) && !ShowsFailure(s[m + 1])
    ensures SeenIn(s, from, prefix, spokes, {spokes[spoke].name})
    ensures NeverFailed(s, from, prefix, spoke + 1) && NoLists(s, from)
    ensures ShowsSuccess(s[m]) ==> WorkerSucceeded(s, from, prefix, spoke + 1)
    ensures Polled(s, from, prefix, |spokes|)
  {
    hide ShowsFailure, ShowsSuccess, Polled, RoundBefore;
    SinglePoll(s, from, prefix, |spokes|);
    assert forall k | from <= k < |looked| :: s[k] == looked[k];
    assert CheckedAt(s, from, m + 1, prefix, spoke + 1);
  }

  lemma LogsStay(s: seq<Sighting>, s': seq<Sighting>, from: nat, since: nat, cluster: nat, text: string)
    requires s <= s' && since <= from && LogsFrom(s, from, cluster, text)
    ensures LogsFrom(s', since, cluster, text)
  {
    var k :| from <= k < |s| && s[k] == LogsRead(cluster, text);
    assert s'[k] == s[k];
  }

  lemma ExecutedStays(s: seq<Sighting>, s': seq<Sighting>, from: nat, since: nat, cluster: nat)
    requires s <= s' && since <= from && ExecutedOn(s, from, cluster)
    ensures ExecutedOn(s', since, cluster)
  {
    var k :| from <= k < |s| && s[k].TaskRunsListed? && s[k].cluster == cluster && s[k].count > 0;
    assert s'[k] == s[k];
  }

  /** Polls until the hub reports success, the worker was seen to succeed and the logs are captured. */
  method WaitForRunSuccess(e: Environment, spoke: nat) returns (ok: bool, logs: string)
    requires e.Inv() && spoke < |e.spokes|
    modifies e.fleet`live, e.fleet`next, e.fleet`disturbed, e.fleet`scheduler, e.fleet`sightings, e.fleet`errors,
             e.fleet`timeouts
    ensures e.Inv() && Watched(e)
    ensures ok ==>
      && Succeeding(e.fleet.sightings, |old(e.fleet.sightings)|, e.prefix, e.spokes, spoke, true, logs)
      && |e.fleet.sightings| > |old(e.fleet.sightings)|
      && LooksAt(e.fleet.sightings[|e.fleet.sightings| - 1], RunLoc(0, e.prefix))
      && ShowsSuccess(e.fleet.sightings[|e.fleet.sightings| - 1])
      && logs != ""
    ensures !ok ==> Lost(e, e.spokes[spoke].name)
  {
    hide Environment.InvFor, Lawful, Covered, Records, Contains, Current, Clock, RecordedWorkload, Targets, Succeeding,
         SeenIn, NeverFailed, NoLists, Polled, WorkerSucceeded, LogsFrom, ShowsSuccess,
         Stopped, Elsewhere;
    ghost var from := |e.fleet.sightings|;
    var observed, budget: nat := false, *;
    logs := "";
    var a := Retry;
    SucceedingAtFirst(e.fleet.sightings, e.prefix, e.spokes, spoke);
    while budget > 0 && a.Retry?
      invariant e.Inv() && Watched(e)
      invariant a.Error? ==> Lost(e, e.spokes[spoke].name)
      invariant !a.Error? ==> Succeeding(e.fleet.sightings, from, e.prefix, e.spokes, spoke, observed, logs)
      invariant a.Done? ==>
        && observed && logs != "" && |e.fleet.sightings| > from
        && LooksAt(e.fleet.sightings[|e.fleet.sightings| - 1], RunLoc(0, e.prefix))
        && ShowsSuccess(e.fleet.sightings[|e.fleet.sightings| - 1])
    {
      ghost var before, seen, text := e.fleet.sightings, observed, logs;
      a, observed, logs := PollCompletion(e, spoke, observed, logs);
      LostEarlier(e.fleet.sightings, |before|, from, e.prefix, e.spokes, e.spokes[spoke].name);
      if !a.Error? {
        SucceedingOn(before, e.fleet.sightings, from, e.prefix, e.spokes, spoke, seen, text, observed, logs);
      }
      budget := budget - 1;
    }
    if a.Retry? {
      GiveUpOn(e);
    }
    ok := a.Done?;
  }

  /** What holds after every poll of the completion wait, with its two latches. */
  ghost predicate Succeeding(s: seq<Sighting>, from: nat, prefix: string, spokes: seq<Cluster>, spoke: nat,
                             observed: bool, logs: string)
    requires spoke < |spokes|
  {
    && SeenIn(s, from, prefix, spokes, {spokes[spoke].name})
    && NeverFailed(s, from, prefix, spoke + 1) && NoLists(s, from) && Polled(s, from, prefix, |spokes|)
    && (observed ==> WorkerSucceeded(s, from, prefix, spoke + 1))
    && (logs == "" || (Contains(logs, LOG_MARKER) && LogsFrom(s, from, spoke + 1, logs)))
  }

  lemma SucceedingAtFirst(s: seq<Sighting>, prefix: string, spokes: seq<Cluster>, spoke: nat)
    requires spoke < |spokes|
    ensures Succeeding(s, |s|, prefix, spokes, spoke, false, "")
  {
  }

  lemma SucceedingOn(s: seq<Sighting>, s': seq<Sighting>, from: nat, prefix: string, spokes: seq<Cluster>, spoke: nat,
                     observed: bool, logs: string, observed': bool, logs': string)
    requires from <= |s| && s <= s' && spoke < |spokes| && Succeeding(s, from, prefix, spokes, spoke, observed, logs)
    requires SeenIn(s', |s|, prefix, spokes, {spokes[spoke].name})
    requires NeverFailed(s', |s|, prefix, spoke + 1) && NoLists(s', |s|) && Polled(s', |s|, prefix, |spokes|)
    requires observed' ==> observed || WorkerSucceeded(s', |s|, prefix, spoke + 1)
    requires logs' == logs || (Contains(logs', LOG_MARKER) && LogsFrom(s', |s|, spoke + 1, logs'))
    ensures Succeeding(s', from, prefix, spokes, spoke, observed', logs')
  {
    hide Contains, ShowsFailure, ShowsSuccess, Polled;
    PolledGrows(s, s', from, prefix, |spokes|);
    assert forall k | from <= k < |s| :: s'[k] == s[k];
    assert NeverFailed(s', from, prefix, spoke + 1) by {
      forall k | from <= k < |s'| && LooksAt(s'[k], RunLoc(0, prefix))
        ensures CheckedAt(s', from, k, prefix, spoke + 1)
      {
        if k < |s| {
          assert CheckedAt(s, from, k, prefix, spoke + 1);
        } else {
          assert CheckedAt(s', |s|, k, prefix, spoke + 1);
        }
      }
    }
    if observed' {
      if observed {
        WorkerSucceededStays(s, s', from, from, prefix, spoke + 1);
      } else {
        WorkerSucceededStays(s', s', |s|, from, prefix, spoke + 1);
      }
    }
    if logs' != "" {
      if logs' == logs {
        LogsStay(s, s', from, from, spoke + 1, logs);
      } else {
        LogsStay(s', s', |s|, from, spoke + 1, logs');
      }
    }
  }

  lemma WorkerSucceededStays(s: seq<Sighting>, s': seq<Sighting>, from: nat, since: nat, prefix: string, worker: nat)
    requires s <= s' && since <= from && WorkerSucceeded(s, from, prefix, worker)
    ensures WorkerSucceeded(s', since, prefix, worker)
  {
    hide ShowsFailure, ShowsSuccess;
    var k: nat :| CheckedAt(s, from, k, prefix, worker) && ShowsSuccess(s[k - 1]);
    assert s'[k] == s[k] && s'[k - 1] == s[k - 1];
    assert CheckedAt(s', since, k, prefix, worker);
  }

  /** The polls after completion only watch for further spokes, their end is some other condition. */
  method WatchSpokes(e: Environment, spoke: nat) returns (ok: bool)
    requires e.Inv() && spoke < |e.spokes|
    modifies e.fleet`live, e.fleet`next, e.fleet`disturbed, e.fleet`scheduler, e.fleet`sightings, e.fleet`errors
    ensures e.Inv() && Watched(e)
    ensures ok ==>
      && SeenIn(e.fleet.sightings, |old(e.fleet.sightings)|, e.prefix, e.spokes, {e.spokes[spoke].name})
      && NoHubLook(e.fleet.sightings, |old(e.fleet.sightings)|, e.prefix)
      && NoLists(e.fleet.sightings, |old(e.fleet.sightings)|)
      && |e.fleet.sightings| == |old(e.fleet.sightings)| + |e.spokes|
      && RoundBefore(e.fleet.sightings, |old(e.fleet.sightings)|, |e.fleet.sightings|, e.prefix, |e.spokes|)
    ensures !ok ==> Lost(e, e.spokes[spoke].name)
  {
    hide Environment.InvFor, Lawful, Covered, Records, RoundBefore, Current, Clock, RecordedWorkload, Targets;
    var seen, latest;
    ok, seen, latest := RecordSpokes(e, {e.spokes[spoke].name});
    if |seen| > 1 {
      OtherSighted(e.fleet.sightings, |old(e.fleet.sightings)|, e.prefix, e.spokes, e.spokes[spoke].name, seen);
    }
    if ok {
      Singleton(seen, e.spokes[spoke].name);
    }
  }

  /** What holds after every poll of the waits that follow the completion. */
  ghost predicate Watching(s: seq<Sighting>, from: nat, prefix: string, spokes: seq<Cluster>, name: string) {
    && SeenIn(s, from, prefix, spokes, {name}) && NoHubLook(s, from, prefix) && NoLists(s, from)
    && Polled(s, from, prefix, |spokes|)
  }

  lemma NotWatching(s: seq<Sighting>, prefix: string, spokes: seq<Cluster>, name: string)
    ensures Watching(s, |s|, prefix, spokes, name)
  {
    NoPolls(s, prefix, |spokes|);
  }

  /** One more poll: the round, then up to two looks, at the run where it is known to be and at a workload. */
  lemma WatchingOn(s: seq<Sighting>, looked: seq<Sighting>, s': seq<Sighting>, from: nat, prefix: string,
                   spokes: seq<Cluster>, spoke: nat)
    requires from <= |s| && s <= looked <= s' && |looked| == |s| + |spokes| && |s'| <= |looked| + 2 && spoke < |spokes|
    requires Watching(s, from, prefix, spokes, spokes[spoke].name)
    requires SeenIn(looked, |s|, prefix, spokes, {spokes[spoke].name}) && NoHubLook(looked, |s|, prefix)
    requires NoLists(looked, |s|) && RoundBefore(looked, |s|, |looked|, prefix, |spokes|)
    requires forall m | |looked| <= m < |s'| :: s'[m].Saw? &&
               (s'[m].loc == RunLoc(spoke + 1, prefix) || (m == |s'| - 1 && s'[m].loc.kind.Workload?))
    ensures Watching(s', from, prefix, spokes, spokes[spoke].name)
  {
    RoundStays(looked, s', |s|, |looked|, prefix, |spokes|);
    OnePoll(s, s', from, prefix, |spokes|);
    hide Polled, RoundBefore;
    assert forall k | from <= k < |s| :: s'[k] == s[k];
    assert forall k | |s| <= k < |looked| :: s'[k] == looked[k];
  }

  method WaitForWorkloadFinished(e: Environment, spoke: nat) returns (ok: bool)
    requires e.Inv() && spoke < |e.spokes|
    modifies e.fleet`live, e.fleet`next, e.fleet`disturbed, e.fleet`scheduler, e.fleet`sightings, e.fleet`errors,
             e.fleet`timeouts
    ensures e.Inv() && Watched(e)
    ensures ok ==>
      && Watching(e.fleet.sightings, |old(e.fleet.sightings)|, e.prefix, e.spokes, e.spokes[spoke].name)
      && |old(e.fleet.sightings)| < |e.fleet.sightings|
      && LooksAt(e.fleet.sightings[|e.fleet.sightings| - 1], WorkloadLoc(0, e.prefix, e.workloadName))
      && ShowsSuccess(e.fleet.sightings[|e.fleet.sightings| - 1])
    ensures !ok ==> Lost(e, e.spokes[spoke].name)
  {
    hide Environment.InvFor, Lawful, Covered, Records, Watching, SeenIn, NoHubLook, NoLists, RoundBefore, Stopped,
         Elsewhere, Current, Clock, RecordedWorkload, Targets;
    ghost var from := |e.fleet.sightings|;
    NotWatching(e.fleet.sightings, e.prefix, e.spokes, e.spokes[spoke].name);
    var budget: nat := *;
    while budget > 0
      invariant e.Inv() && Watched(e)
      invariant Watching(e.fleet.sightings, from, e.prefix, e.spokes, e.spokes[spoke].name)
    {
      ghost var before := e.fleet.sightings;
      ok := WatchSpokes(e, spoke);
      if !ok {
        LostEarlier(e.fleet.sightings, |before|, from, e.prefix, e.spokes, e.spokes[spoke].name);
        return;
      }
      ghost var looked := e.fleet.sightings;
      var r := e.Look(WorkloadLoc(0, e.prefix, e.workloadName), e.cleanups, e.ids);
      WatchingOn(before, looked, e.fleet.sightings, from, e.prefix, e.spokes, spoke);
      if r.Found? && r.obj.condition == Some(True) {
        return true;
      }
      budget := budget - 1;
    }
    GiveUpOn(e);
    ok := false;
  }

  method WaitForWorkerCleanup(e: Environment, spoke: nat) returns (ok: bool)
    requires e.Inv() && spoke < |e.spokes|
    modifies e.fleet`live, e.fleet`next, e.fleet`disturbed, e.fleet`scheduler, e.fleet`sightings, e.fleet`errors,
             e.fleet`timeouts
    ensures e.Inv() && Watched(e)
    ensures ok ==>
      && Watching(e.fleet.sightings, |old(e.fleet.sightings)|, e.prefix, e.spokes, e.spokes[spoke].name)
      && |old(e.fleet.sightings)| + 1 < |e.fleet.sightings|
      && e.fleet.sightings[|e.fleet.sightings| - 2] == Saw(RunLoc(spoke + 1, e.prefix), None)
      && e.fleet.sightings[|e.fleet.sightings| - 1] == Saw(WorkloadLoc(spoke + 1, e.prefix, e.workloadName), None)
    ensures !ok ==> Lost(e, e.spokes[spoke].name)
  {
    hide Environment.InvFor, Lawful, Covered, Records, Watching, SeenIn, NoHubLook, NoLists, RoundBefore, Stopped,
         Elsewhere, Current, Clock, RecordedWorkload, Targets;
    ghost var from := |e.fleet.sightings|;
    NotWatching(e.fleet.sightings, e.prefix, e.spokes, e.spokes[spoke].name);
    var budget: nat := *;
    while budget > 0
      invariant e.Inv() && Watched(e)
      invariant Watching(e.fleet.sightings, from, e.prefix, e.spokes, e.spokes[spoke].name)
    {
      ghost var before := e.fleet.sightings;
      ok := WatchSpokes(e, spoke);
      if !ok {
        LostEarlier(e.fleet.sightings, |before|, from, e.prefix, e.spokes, e.spokes[spoke].name);
        return;
      }
      ghost var looked := e.fleet.sightings;
      var run := e.Look(RunLoc(spoke + 1, e.prefix), e.cleanups, e.ids);
      var workload := e.Look(WorkloadLoc(spoke + 1, e.prefix, e.workloadName), e.cleanups, e.ids);
      WatchingOn(before, looked, e.fleet.sightings, from, e.prefix, e.spokes, spoke);
      if run.NotFound? && workload.NotFound? {
        return true;
      }
      budget := budget - 1;
    }
    GiveUpOn(e);
    ok := false;
  }

  /** The waits after the completion, and the last look at the hub's TaskRuns. */
  lemma WatchedOut(done: seq<Sighting>, waited: seq<Sighting>, cleaned: seq<Sighting>, s: seq<Sighting>,
                   prefix: string, spokes: seq<Cluster>, name: string)
    requires done <= waited <= cleaned && s == cleaned + [TaskRunsListed(0, 0)]
    requires Watching(waited, |done|, prefix, spokes, name) && Watching(cleaned, |waited|, prefix, spokes, name)
    ensures Searching(s, |done|, prefix, spokes, {name})
  {
    PolledGrows(waited, cleaned, |done|, prefix, |spokes|);
    PolledStays(cleaned, s, |done|, prefix, |spokes|);
    hide Polled;
    assert forall k | |done| <= k < |waited| :: s[k] == waited[k];
    assert forall k | |waited| <= k < |cleaned| :: s[k] == cleaned[k];
  }

  /** What is known after the completion wait stays, and what was seen in the later ones adds to it. */
  lemma BothSeen(done: seq<Sighting>, s: seq<Sighting>, from: nat, prefix: string, spokes: seq<Cluster>, name: string)
    requires from <= |done| && done <= s && Searching(s, |done|, prefix, spokes, {name})
    requires SeenIn(done, from, prefix, spokes, {name}) && NoLists(done, from) && Polled(done, from, prefix, |spokes|)
    ensures SeenIn(s, from, prefix, spokes, {name}) && NoHubTaskRuns(s, from) && Polled(s, from, prefix, |spokes|)
  {
    PolledGrows(done, s, from, prefix, |spokes|);
    hide Polled;
    assert forall k | from <= k < |done| :: s[k] == done[k];
  }

  lemma Concluded(done: seq<Sighting>, s: seq<Sighting>, from: nat, prefix: string, spokes: seq<Cluster>, spoke: nat,
                  logs: string)
    requires from < |done| && done <= s && spoke < |spokes| && logs != ""
    requires Succeeding(done, from, prefix, spokes, spoke, true, logs)
    requires LooksAt(done[|done| - 1], RunLoc(0, prefix)) && ShowsSuccess(done[|done| - 1])
    requires Searching(s, |done|, prefix, spokes, {spokes[spoke].name})
    ensures SeenIn(s, from, prefix, spokes, {spokes[spoke].name}) && NoHubTaskRuns(s, from)
    ensures Completed(s, from, prefix, spoke + 1) && Polled(s, from, prefix, |spokes|)
    ensures Contains(logs, LOG_MARKER) && LogsFrom(s, from, spoke + 1, logs)
  {
    hide Contains, Completed, Polled, ShowsFailure, ShowsSuccess, NeverFailed, WorkerSucceeded, LogsFrom, SeenIn,
         NoHubTaskRuns, NoHubLook, NoLists;
    BothSeen(done, s, from, prefix, spokes, spokes[spoke].name);
    CompletedStays(done, s, from, prefix, spokes, spoke, logs);
  }

  method WaitForCompletion(e: Environment, spoke: nat) returns (ok: bool, logs: string)
    requires e.Inv() && spoke < |e.spokes|
    modifies e.fleet`live, e.fleet`next, e.fleet`disturbed, e.fleet`scheduler, e.fleet`sightings, e.fleet`errors,
             e.fleet`timeouts
    ensures e.Inv() && Watched(e)
    ensures ok ==>
      && Contains(logs, LOG_MARKER)
      && LogsFrom(e.fleet.sightings, |old(e.fleet.sightings)|, spoke + 1, logs)
      && SeenIn(e.fleet.sightings, |old(e.fleet.sightings)|, e.prefix, e.spokes, {e.spokes[spoke].name})
      && Completed(e.fleet.sightings, |old(e.fleet.sightings)|, e.prefix, spoke + 1)
      && WoundUp(e.fleet.sightings, |old(e.fleet.sightings)|, e.prefix, spoke + 1, e.workloadName)
      && NoHubTaskRuns(e.fleet.sightings, |old(e.fleet.sightings)|)
      && Polled(e.fleet.sightings, |old(e.fleet.sightings)|, e.prefix, |e.spokes|)
      && |old(e.fleet.sightings)| < |e.fleet.sightings|
      && e.fleet.sightings[|e.fleet.sightings| - 1] == TaskRunsListed(0, 0)
    ensures !ok ==> Lost(e, e.spokes[spoke].name)
  {
    hide Environment.InvFor, Lawful, Covered, Records, Contains, WoundUp, Polled, Watching, Succeeding, SeenIn,
         Completed, NoHubTaskRuns, LogsFrom, Stopped, Elsewhere, ShowsSuccess, Current, Clock, RecordedWorkload,
         Targets;
    ghost var from, name := |e.fleet.sightings|, e.spokes[spoke].name;
    ok, logs := WaitForRunSuccess(e, spoke);
    if !ok {
      return;
    }
    ghost var done := e.fleet.sightings;
    ok := WaitForWorkloadFinished(e, spoke);
    if !ok {
      LostEarlier(e.fleet.sightings, |done|, from, e.prefix, e.spokes, name);
      return;
    }
    ghost var waited := e.fleet.sightings;
    ok := WaitForWorkerCleanup(e, spoke);
    if !ok {
      LostEarlier(e.fleet.sightings, |waited|, from, e.prefix, e.spokes, name);
      return;
    }
    ghost var cleaned := e.fleet.sightings;
    var hubTaskRuns := e.ListTaskRuns(0);
    ok := hubTaskRuns == Some(0);
    if ok {
      WatchedOut(done, waited, cleaned, e.fleet.sightings, e.prefix, e.spokes, name);
      Concluded(done, e.fleet.sightings, from, e.prefix, e.spokes, spoke, logs);
      WoundUpAt(e.fleet.sightings, from, e.prefix, spoke + 1, e.workloadName, |waited| - 1, |cleaned| - 1);
    } else if hubTaskRuns.Some? {
      StoppedBy(e.fleet.sightings, from, |cleaned|, e.prefix);
    }
  }

  /**
   What the clusters' answers since `from` show of a successful execution on a spoke: every poll of every wait looked
   at every spoke and none under another name held the run; its TaskRuns ran there and, at both looks, not on the
   hub; it completed and was wound up; and the logs are the worker's.
   */
  ghost predicate Executed(s: seq<Sighting>, from: nat, prefix: string, spokes: seq<Cluster>, spoke: nat,
                           workload: string, logs: string)
    requires spoke < |spokes|
  {
    && Polled(s, from, prefix, |spokes|) && SeenIn(s, from, prefix, spokes, {spokes[spoke].name})
    && ExecutedOn(s, from, spoke + 1) && NoHubTaskRuns(s, from) && TaskRunsCheckedTwice(s, from)
    && Completed(s, from, prefix, spoke + 1) && WoundUp(s, from, prefix, spoke + 1, workload)
    && LogsFrom(s, from, spoke + 1, logs)
  }

  /** Looks that were not at PipelineRuns change nothing about that when they are taken into account. */
  lemma ExecutedSince(s: seq<Sighting>, from: nat, later: nat, prefix: string, spokes: seq<Cluster>, spoke: nat,
                      workload: string, logs: string)
    requires from <= later <= |s| && spoke < |spokes| && NoRunLooks(s[..later], from)
    requires Executed(s, later, prefix, spokes, spoke, workload, logs)
    ensures Executed(s, from, prefix, spokes, spoke, workload, logs)
  {
    hide NoRunLooks, SeenIn, NoHubTaskRuns, NoHubLook, Completed, WoundUp, LogsFrom, ExecutedOn, Polled,
         TaskRunsCheckedTwice;
    OtherLooks(s, from, later, prefix, spokes, {spokes[spoke].name});
    CompletedLater(s[..later], s, from, prefix, spoke + 1);
    WoundUpEarlier(s, from, later, prefix, spoke + 1, workload);
    LogsStay(s, s, later, from, spoke + 1, logs);
    ExecutedStays(s, s, later, from, spoke + 1);
    NothingPolled(s[..later], from, prefix, |spokes|);
    PolledGrows(s[..later], s, from, prefix, |spokes|);
    CheckedTwiceEarlier(s, from, later);
  }

  lemma OtherLooks(s: seq<Sighting>, from: nat, later: nat, prefix: string, spokes: seq<Cluster>, seen: set<string>)
    requires from <= later <= |s| && NoRunLooks(s[..later], from)
    requires SeenIn(s, later, prefix, spokes, seen) && NoHubTaskRuns(s, later)
    ensures SeenIn(s, from, prefix, spokes, seen) && NoHubTaskRuns(s, from) && NoHubLook(s[..later], from, prefix)
  {
    assert forall k | from <= k < later :: s[k] == s[..later][k];
  }

  lemma CheckedTwiceEarlier(s: seq<Sighting>, from: nat, later: nat)
    requires from <= later && TaskRunsCheckedTwice(s, later)
    ensures TaskRunsCheckedTwice(s, from)
  {
    var k, l :| later <= k < l < |s| && s[k] == TaskRunsListed(0, 0) && s[l] == TaskRunsListed(0, 0);
  }

  lemma MarkerIsThere(logs: string)
    requires Contains(logs, LOG_MARKER)
    ensures exists i :: 0 <= i <= |logs| && "multi-cluster-execution-ok" <= logs[i..]
  {
  }

  /** Creates the run on the hub and waits for the workload it owns there. */
  method SubmitRun(e: Environment) returns (ok: bool)
    requires e.Inv()
    modifies e`cleanups, e`ids, e`log, e`workloadName, e.fleet
    ensures e.Inv() && e.fleet.deletions == old(e.fleet.deletions) && Watched(e)
    ensures old(Staged(e.log) && UpTo(e.log, 3)) ==> Staged(e.log) && UpTo(e.log, 3)
    ensures e.fleet.sightings == old(e.fleet.sightings)
    ensures ok ==> RunLoc(0, e.prefix) in MadeAt(e.fleet.created)
    ensures ok ==> exists made | made in e.fleet.confirmed ::
              made.0 == RunLoc(0, e.prefix) && OwnsWorkload(e.fleet.live, e.prefix, e.workloadName, made.1)
    ensures !ok ==> Hampered(e)
  {
    hide Environment.InvFor, Lawful, Covered, Records, MadeAt, Staged, UpTo, SavedBelow, Holds, Current,
         RecordedWorkload, Targets;
    var uid;
    ok, uid := e.RegisterThenCreate(RunLoc(0, e.prefix), Json.Null);
    if !ok {
      return;
    }
    assert ((RunLoc(0, e.prefix), uid)) in e.fleet.confirmed;
    ghost var created := e.log;
    ok := WaitForHubWorkload(e, uid);
    ExtendsKeepsStages(created, e.log);
  }

  /**
   If Execute succeeds, then in every poll of every wait no spoke under another name than the
   reported one was seen holding the run, the run completed as `Completed` says, its logs hold the
   marker and both looks at the hub found no TaskRuns.
   */
  method Execute(e: Environment) returns (ok: bool, result: Result, ghost spoke: nat)
    requires e.Inv()
    modifies e`cleanups, e`ids, e`log, e`workloadName, e.fleet
    ensures e.Inv() && e.fleet.deletions == old(e.fleet.deletions) && Watched(e)
    ensures old(Staged(e.log) && UpTo(e.log, 3)) ==> Staged(e.log) && UpTo(e.log, 3)
    ensures ok ==> RunLoc(0, e.prefix) in MadeAt(e.fleet.created)
    ensures ok ==>
      && spoke < |e.spokes| && result == Result(e.prefix + "-run", e.spokes[spoke].name, result.logs)
      && Contains(result.logs, LOG_MARKER)
      && Executed(e.fleet.sightings, |old(e.fleet.sightings)|, e.prefix, e.spokes, spoke, e.workloadName, result.logs)
    ensures !ok ==>
      || Hampered(e) || Stopped(e.fleet.sightings, |old(e.fleet.sightings)|, e.prefix)
      || SeenTwice(e.fleet.sightings, |old(e.fleet.sightings)|, e.prefix, e.spokes)
    ensures ok ==> exists i :: 0 <= i <= |result.logs| && "multi-cluster-execution-ok" <= result.logs[i..]
  {
    hide Environment.InvFor, Lawful, Covered, Records, Contains, WoundUp, SeenIn, NoHubTaskRuns, NoHubLook, Completed,
         LogsFrom, ExecutedOn, TaskRunsCheckedTwice, Polled, Stopped, Elsewhere, SeenTwice, Sighted, MadeAt, Staged,
         UpTo, Current, Clock, RecordedWorkload, Targets;
    spoke, result := 0, Result("", "", "");
    ghost var from := |e.fleet.sightings|;
    ok := SubmitRun(e);
    if !ok {
      return;
    }
    var selected, logs;
    ok, selected := WaitForSpokeExecution(e);
    if !ok {
      return;
    }
    ghost var first := e.fleet.sightings;
    ok, logs := WaitForCompletion(e, selected);
    if !ok {
      LostEarlier(e.fleet.sightings, |first|, from, e.prefix, e.spokes, e.spokes[selected].name);
      if Elsewhere(e.fleet.sightings, |first|, e.prefix, e.spokes, e.spokes[selected].name) {
        ElsewhereIsTwice(e.fleet.sightings, first, |first|, from, e.prefix, e.spokes, e.spokes[selected].name);
      }
      return;
    }
    CompletedLater(first, e.fleet.sightings, from, e.prefix, selected + 1);
    LogsStay(e.fleet.sightings, e.fleet.sightings, |first|, from, selected + 1, logs);
    ExecutedStays(first, e.fleet.sightings, from, from, selected + 1);
    WoundUpEarlier(e.fleet.sightings, from, |first|, e.prefix, selected + 1, e.workloadName);
    PolledGrows(first, e.fleet.sightings, from, e.prefix, |e.spokes|);
    BothPhases(first, e.fleet.sightings, from, e.prefix, e.spokes, {e.spokes[selected].name});
    MarkerIsThere(logs);
    spoke, result := selected, Result(e.prefix + "-run", e.spokes[selected].name, logs);
  }

  lemma Singleton(s: set<string>, x: string)
    requires |s| <= 1 && x in s
    ensures s == {x}
  {
    assert |s - {x}| == |s| - 1;
  }

  lemma RoundStays(s: seq<Sighting>, s': seq<Sighting>, from: nat, k: nat, prefix: string, n: nat)
    requires s <= s' && RoundBefore(s, from, k, prefix, n)
    ensures RoundBefore(s', from, k, prefix, n)
  {
  }

  lemma NoPolls(s: seq<Sighting>, prefix: string, n: nat)
    ensures Polled(s, |s|, prefix, n)
  {
  }

  lemma NothingPolled(s: seq<Sighting>, from: nat, prefix: string, n: nat)
    requires NoRunLooks(s, from)
    ensures Polled(s, from, prefix, n)
  {
  }

  /** A round and at most three more answers, of which only the last decides, make a poll. */
  lemma SinglePoll(s: seq<Sighting>, from: nat, prefix: string, n: nat)
    requires from + n <= |s| <= from + n + 3 && RoundBefore(s, from, from + n, prefix, n)
    requires forall m | from + n <= m < |s| - 1 :: ReadMeanwhile(s[m], prefix)
    ensures Polled(s, from, prefix, n)
  {
    forall k: nat | from <= k < |s| && Decides(s[k], prefix)
      ensures exists r: nat :: PolledAt(s, from, r, k, prefix, n)
    {
      assert PolledAt(s, from, from + n, k, prefix, n);
    }
  }

  /** One more poll. */
  lemma OnePoll(s: seq<Sighting>, s': seq<Sighting>, from: nat, prefix: string, n: nat)
    requires from <= |s| && s <= s' && Polled(s, from, prefix, n)
    requires |s| + n <= |s'| <= |s| + n + 3 && RoundBefore(s', |s|, |s| + n, prefix, n)
    requires forall m | |s| + n <= m < |s'| - 1 :: ReadMeanwhile(s'[m], prefix)
    ensures Polled(s', from, prefix, n)
  {
    hide Polled, RoundBefore, ReadMeanwhile;
    SinglePoll(s', |s|, prefix, n);
    PolledGrows(s, s', from, prefix, n);
  }

  lemma PolledGrows(s: seq<Sighting>, s': seq<Sighting>, from: nat, prefix: string, n: nat)
    requires from <= |s| && s <= s' && Polled(s, from, prefix, n) && Polled(s', |s|, prefix, n)
    ensures Polled(s', from, prefix, n)
  {
    hide Decides, ReadMeanwhile;
    forall k: nat | from <= k < |s'| && Decides(s'[k], prefix)
      ensures exists r: nat :: PolledAt(s', from, r, k, prefix, n)
    {
      if k < |s| {
        var r: nat :| PolledAt(s, from, r, k, prefix, n);
        assert PolledAt(s', from, r, k, prefix, n);
      } else {
        var r: nat :| PolledAt(s', |s|, r, k, prefix, n);
        assert PolledAt(s', from, r, k, prefix, n);
      }
    }
  }

  /** Listing TaskRuns on the hub is no part of a poll. */
  lemma PolledStays(s: seq<Sighting>, s': seq<Sighting>, from: nat, prefix: string, n: nat)
    requires from <= |s| && s <= s' && Polled(s, from, prefix, n)
    requires forall k | |s| <= k < |s'| :: s'[k].TaskRunsListed? && s'[k].cluster == 0
    ensures Polled(s', from, prefix, n)
  {
    assert Polled(s', |s|, prefix, n);
    hide Polled;
    PolledGrows(s, s', from, prefix, n);
  }

  /** What holds of the sightings up to `first` and of those after it holds of all of them. */
  lemma BothPhases(first: seq<Sighting>, s: seq<Sighting>, from: nat, prefix: string, spokes: seq<Cluster>,
      seen: set<string>)
    requires from < |first| && first <= s && |first| < |s|
    requires SeenIn(first, from, prefix, spokes, seen) && SeenIn(s, |first|, prefix, spokes, seen)
    requires NoHubTaskRuns(first, from) && NoHubTaskRuns(s, |first|)
    requires first[|first| - 1] == TaskRunsListed(0, 0) && s[|s| - 1] == TaskRunsListed(0, 0)
    ensures SeenIn(s, from, prefix, spokes, seen) && NoHubTaskRuns(s, from) && TaskRunsCheckedTwice(s, from)
  {
    assert forall k | from <= k < |first| :: s[k] == first[k];
    assert s[|first| - 1] == TaskRunsListed(0, 0);
  }

  lemma WoundUpEarlier(s: seq<Sighting>, from: nat, later: nat, prefix: string, worker: nat, workload: string)
    requires from <= later && WoundUp(s, later, prefix, worker, workload)
    ensures WoundUp(s, from, prefix, worker, workload)
  {
    hide FinishedAt, GoneAt;
  }

  lemma WoundUpAt(s: seq<Sighting>, from: nat, prefix: string, worker: nat, workload: string, k: nat, m: nat)
    requires from <= k && k + 1 < m && FinishedAt(s, k, prefix, workload) && GoneAt(s, m, prefix, worker, workload)
    ensures WoundUp(s, from, prefix, worker, workload)
  {
  }

  /** The waits after the completion do not look at the hub's run, so what was seen of it stays the last. */
  lemma CompletedStays(s: seq<Sighting>, s': seq<Sighting>, from: nat, prefix: string, spokes: seq<Cluster>, spoke: nat,
                       logs: string)
    requires from < |s| && s <= s' && NoHubLook(s', |s|, prefix) && spoke < |spokes| && logs != ""
    requires Succeeding(s, from, prefix, spokes, spoke, true, logs)
    requires LooksAt(s[|s| - 1], RunLoc(0, prefix)) && ShowsSuccess(s[|s| - 1])
    ensures Completed(s', from, prefix, spoke + 1) && Contains(logs, LOG_MARKER) && LogsFrom(s', from, spoke + 1, logs)
  {
    hide Contains, ShowsFailure, ShowsSuccess;
    WorkerSucceededStays(s, s', from, from, prefix, spoke + 1);
    LogsStay(s, s', from, from, spoke + 1, logs);
    forall k | from <= k < |s'| && LooksAt(s'[k], RunLoc(0, prefix)) ensures CheckedAt(s', from, k, prefix, spoke + 1) {
      assert s'[k] == s[k] && CheckedAt(s, from, k, prefix, spoke + 1);
    }
    assert s'[|s| - 1] == s[|s| - 1];
  }

  lemma CompletedLater(s: seq<Sighting>, s': seq<Sighting>, from: nat, prefix: string, worker: nat)
    requires from <= |s| && s <= s' && NoHubLook(s, from, prefix) && Completed(s', |s|, prefix, worker)
    ensures Completed(s', from, prefix, worker)
  {
    hide ShowsFailure, ShowsSuccess;
    WorkerSucceededStays(s', s', |s|, from, prefix, worker);
    assert forall m | from <= m < |s| :: s'[m] == s[m];
    forall k | from <= k < |s'| && LooksAt(s'[k], RunLoc(0, prefix)) ensures CheckedAt(s', from, k, prefix, worker) {
      assert CheckedAt(s', |s|, k, prefix, worker);
    }
  }
}
