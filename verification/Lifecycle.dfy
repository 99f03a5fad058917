/** What holds of whole runs of the multi-cluster test, however its steps interleave and fail. */
module KueueLifecycle {
  import opened Clusters
  import opened CleanupLog
  import opened KueueEnvironment
  import opened FleetRecords
  import opened KueueWorkload
  import F = KueueFrameworks

  /** With nothing pending, nothing the run made exists any more. */
  lemma NothingPendingNothingLeft(live: map<Loc, Obj>, created: set<(Loc, nat)>, made: (Loc, nat))
    requires Covered(live, created, Targets([])) && made in created
    ensures !Alive(live, made)
  {
    assert Targets([]) == {};
  }

  /**
   Two spokes with one name cannot be told apart by the names in `seen`, so the single name Execute
   reports stands for a single spoke only because Setup would have failed on such a pair.
   */
  lemma OneSpoke(s: seq<Sighting>, from: nat, prefix: string, spokes: seq<Cluster>, spoke: nat, k: nat, i: nat)
    requires DistinctNames(spokes) && spoke < |spokes|
    requires SeenIn(s, from, prefix, spokes, {spokes[spoke].name})
    requires from <= k < |s| && i < |spokes| && LooksAt(s[k], RunLoc(i + 1, prefix)) && s[k].found.Some?
    ensures i == spoke
  {
    assert spokes[i].name == spokes[spoke].name;
  }

  /** A look at spokes 1 to `n` that found the run there. */
  predicate FoundOnSpoke(sighting: Sighting, prefix: string, n: nat) {
    && sighting.Saw? && sighting.found.Some?
    && 0 < sighting.loc.cluster <= n && sighting.loc == RunLoc(sighting.loc.cluster, prefix)
  }

  /** Whenever the run was found on a spoke, it was number `spoke`. */
  ghost predicate SeenOnly(s: seq<Sighting>, from: nat, prefix: string, spokes: seq<Cluster>, spoke: nat) {
    forall k | from <= k < |s| && FoundOnSpoke(s[k], prefix, |spokes|) :: s[k].loc.cluster == spoke + 1
  }

  /**
   Setup followed by Execute: all of what `Executed` says holds of everything the run has seen since the
   beginning, and unless another actor removed something of the run meanwhile, exactly one spoke was ever seen
   holding it.
   */
  method SetupAndExecute(e: Environment) returns (ok: bool, result: Result, ghost spoke: nat)
    requires e.Inv()
    modifies e`cleanups, e`ids, e`log, e`workloadName, e.fleet
    ensures e.Inv() && e.fleet.deletions == old(e.fleet.deletions) && old(e.fleet.sightings) <= e.fleet.sightings
    ensures ok ==>
      && spoke < |e.spokes| && result.spoke == e.spokes[spoke].name
      && Executed(e.fleet.sightings, |old(e.fleet.sightings)|, e.prefix, e.spokes, spoke, e.workloadName, result.logs)
      && Contains(result.logs, LOG_MARKER)
    ensures ok && !e.fleet.disturbed ==>
      SeenOnly(e.fleet.sightings, |old(e.fleet.sightings)|, e.prefix, e.spokes, spoke)
  {
    hide Environment.InvFor, Lawful, Covered, Records, MadeAt, Staged, UpTo, Provisioned, Contains, Executed,
         NoRunLooks,
         Current, Clock, RecordedWorkload;
    spoke, result := 0, Result("", "", "");
    ghost var from := |e.fleet.sightings|;
    ok := e.Setup();
    if !ok {
      return;
    }
    ghost var first := e.fleet.sightings;
    ok, result, spoke := Execute(e);
    if ok {
      assert e.fleet.sightings[..|first|] == first;
      ExecutedSince(e.fleet.sightings, from, |first|, e.prefix, e.spokes, spoke, e.workloadName, result.logs);
      if !e.fleet.disturbed {
        OnlyThatSpoke(e.fleet.sightings, from, e.prefix, e.spokes, spoke, e.workloadName, result.logs);
      }
    }
  }

  lemma OnlyThatSpoke(s: seq<Sighting>, from: nat, prefix: string, spokes: seq<Cluster>, spoke: nat, workload: string,
                      logs: string)
    requires DistinctNames(spokes) && spoke < |spokes| && Executed(s, from, prefix, spokes, spoke, workload, logs)
    ensures SeenOnly(s, from, prefix, spokes, spoke)
  {
    forall k | from <= k < |s| && FoundOnSpoke(s[k], prefix, |spokes|) ensures s[k].loc.cluster == spoke + 1 {
      OneSpoke(s, from, prefix, spokes, spoke, k, s[k].loc.cluster - 1);
    }
  }

  /** Every scheduler the run wrote was read before its first write and ends with its last write undone. */
  ghost predicate SchedulersRestored(log: Log) {
    forall p | 0 <= p < |log| && (log[p].Wrote? || log[p].WroteBack?) ::
      exists j: nat, w: nat :: RestoredFrom(log, log[p].cluster, j, w)
  }

  /** Every entry that was added to a Kueue object was taken out of the lists it had been added to, or found gone. */
  ghost predicate EntriesRemoved(log: Log) {
    forall p | 0 <= p < |log| && log[p].Linked? :: exists w: nat :: TakesOut(log, p, w)
  }

  ghost predicate TakesOut(log: Log, p: nat, w: nat) {
    && p < w < |log| && log[p].Linked?
    && TakenOut(log[w], log[p].cluster, F.Lacking(log[p].before, F.THE_LISTS))
  }

  lemma NothingPendingAllUndone(log: Log, n: nat, prefix: string)
    requires Lawful(log, [], [], n, prefix) && Staged(log)
    ensures SchedulersRestored(log) && EntriesRemoved(log)
  {
    hide Lawful, Staged, F.RemoveAll, F.Lacking, F.AddAll, Current, RecordedWorkload;
    forall p | 0 <= p < |log| && (log[p].Wrote? || log[p].WroteBack?)
        ensures exists j: nat, w: nat :: RestoredFrom(log, log[p].cluster, j, w) {
      NothingPendingSchedulersRestored(log, n, prefix, p);
    }
    forall p | 0 <= p < |log| && log[p].Linked? ensures exists w: nat :: TakesOut(log, p, w) {
      NothingPendingNoEntryLeft(log, n, prefix, p);
      var w: nat :| p < w < |log| && TakenOut(log[w], log[p].cluster, F.Lacking(log[p].before, F.THE_LISTS));
      assert TakesOut(log, p, w);
    }
  }

  /** What the history says of the schedulers holds of the sections the clusters had written for the run. */
  lemma NothingPendingSectionsRestored(log: Log, sightings: seq<Sighting>)
    requires SchedulersRestored(log) && AnswersGiven(log, sightings)
    ensures SectionsRestored(ChangesIn(log).writes, sightings)
  {
    hide RestoredFrom, AnswersGiven, SectionRestored, ChangesIn;
    var writes := ChangesIn(log).writes;
    forall i | 0 <= i < |writes| ensures SectionRestored(writes, sightings, writes[i].cluster) {
      var p := WriteOf(log, i);
      var j: nat, w: nat :| RestoredFrom(log, log[p].cluster, j, w);
      RestoredOnClusters(log, sightings, log[p].cluster, j, w);
    }
  }

  /**
   One Setup, then Execute and Cleanup in any order and number, with every call free to fail anywhere.
   The history tells of exactly the changes made to the clusters, and what it says of their answers is what they
   answered; whatever was deleted or stripped was the run's own, by the id captured for it wherever its create was
   confirmed; the history obeys the laws and stages that `ActsInOrder`, `SchedulersRestoredAfterLooks` and
   `KueueRemovedLast` draw their conclusions from; and whenever nothing is pending, nothing of the run is left behind
   and the shared configuration is restored, the scheduler sections by the clusters' own record of writes and reads.
   */
  method TestRun(e: Environment, steps: nat)
    requires e.Inv() && e.log == []
    modifies e`cleanups, e`ids, e`log, e`workloadName, e.fleet
    ensures e.Inv()
    ensures forall d | d in e.fleet.deletions || d in e.fleet.strips :: Own(e.log, d, e.fleet.created, e.prefix)
    ensures AllCaptured(e.log, e.fleet.confirmed) && AnswersGiven(e.log, e.fleet.sightings)
    ensures ChangesIn(e.log) ==
            Changes(e.fleet.deletions, e.fleet.strips, e.fleet.replacements, e.fleet.sectionWrites)
    ensures AllLawful(e.log, 1 + |e.spokes|, e.prefix) && Staged(e.log)
    ensures e.cleanups == [] ==> forall made | made in e.fleet.created :: !Alive(e.fleet.live, made)
    ensures e.cleanups == [] ==> SchedulersRestored(e.log) && EntriesRemoved(e.log)
    ensures e.cleanups == [] ==> SectionsRestored(e.fleet.sectionWrites, e.fleet.sightings)
  {
    hide AllLawful, Pending, Covered, AllCaptured, Genuine, ChangesIn, AnswersGiven, Own, SchedulersRestored,
         EntriesRemoved, SectionsRestored, Current, Clock, RecordedWorkload;
    StagedAtFirst(e.log);
    hide Staged, UpTo;
    var setUp := e.Setup();
    StagesUpTo(e.log);
    for step := 0 to steps
      invariant e.Inv() && Staged(e.log) && UpTo(e.log, 3)
    {
      if * {
        ghost var before := e.log;
        var clean := e.Cleanup();
        ExtendsKeepsStages(before, e.log);
      } else {
        var ok, result, spoke := Execute(e);
      }
    }
    forall d | d in e.fleet.deletions || d in e.fleet.strips ensures Own(e.log, d, e.fleet.created, e.prefix) {
      DeletedOwn(e.log, 1 + |e.spokes|, e.prefix, e.Known(), d);
    }
    if e.cleanups == [] {
      PendingLength(e.log, e.ids, e.cleanups, 1 + |e.spokes|, e.prefix);
      assert e.ids == [];
      NothingPendingAllUndone(e.log, 1 + |e.spokes|, e.prefix);
      NothingPendingSectionsRestored(e.log, e.fleet.sightings);
      forall made | made in e.fleet.created ensures !Alive(e.fleet.live, made) {
        NothingPendingNothingLeft(e.fleet.live, e.fleet.created, made);
      }
    }
  }

  lemma StagedAtFirst(log: Log)
    requires log == []
    ensures Staged(log) && UpTo(log, 0)
  {
  }

  lemma StagesUpTo(log: Log)
    ensures UpTo(log, 2) ==> UpTo(log, 3)
  {
  }
}
