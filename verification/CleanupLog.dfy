/**
 The history of one environment's cleanup stack, and the laws every such history obeys.
 A registered cleanup is identified by the position of its registration in the log.
 */
module CleanupLog {
  import opened Wrappers
  import opened Clusters
  import opened Scheduler
  import Json
  import F = KueueFrameworks

  /**
   `uid` is the id captured once the create that follows the registration has returned, `lists` are the
   framework lists that lacked the entry when the Kueue object was read.
   */
  datatype Cleanup =
    | Remove(loc: Loc, uid: Option<nat>)
    | RemoveFrameworks(cluster: nat, lists: F.Lists)
    | RestoreScheduler(cluster: nat, original: Scheduler, role: MultiClusterRole)

  datatype Event =
    | Registered(what: Cleanup)
    // The create that follows registration `id` returned this id.
    | Confirmed(id: nat, uid: nat)
    // The cleanup began when the run had seen this many answers of the clusters.
    | Began(id: nat, seen: nat)
    | Ran(id: nat, ok: bool)
    // The workload that belongs to the run became known.
    | Recorded(workload: string)
    // The clusters' answer number `at` was that the object does not exist.
    | Absent(loc: Loc, at: nat)
    // Every execution object was seen absent by observations made from position `since` on.
    | Gone(since: nat, workload: string)
    // The subjects were taken off a binding that is to be deleted.
    | Stripped(deletion: Deletion)
    // A deletion was requested and accepted.
    | Deleted(deletion: Deletion)
    // The clusters' answer number `at` was this scheduler section.
    | Read(cluster: nat, value: Scheduler, at: nat)
    // The scheduler section of a cluster was enabled or restored; the old and the new value.
    | Wrote(cluster: nat, found: Scheduler, value: Scheduler)
    | WroteBack(cluster: nat, found: Scheduler, value: Scheduler)
    // An existing Kueue object got the missing framework entries, or lost them again.
    | Linked(cluster: nat, before: Json.Json, doc: Json.Json)
    | Unlinked(cluster: nat, before: Json.Json, doc: Json.Json)
    // The clusters' answer number `at` was a Kueue object with nothing to remove.
    | FoundUnlinked(cluster: nat, before: Json.Json, at: nat)

  type Log = seq<Event>

  /** A cleanup as it is when registered, before an id is captured. */
  function Erase(c: Cleanup): Cleanup {
    if c.Remove? then Remove(c.loc, None) else c
  }

  function Targets(cs: seq<Cleanup>): set<Loc> {
    set c | c in cs && c.Remove? :: c.loc
  }

  /** The setup stage that registers a cleanup. Kueue itself comes first, the PipelineRun last. */
  function Stage(c: Cleanup): nat {
    match c
    case Remove(loc, _) => if loc.kind.KueueCR? then 0 else if loc.kind.PipelineRun? then 3 else 1
    case RemoveFrameworks(_, _) => 0
    case RestoreScheduler(_, _, _) => 2
  }

  function RunLoc(cluster: nat, prefix: string): Loc {
    Loc(cluster, PipelineRun, prefix, prefix + "-run")
  }

  function WorkloadLoc(cluster: nat, prefix: string, workload: string): Loc {
    Loc(cluster, Kind.Workload, prefix, workload)
  }

  // ---- What keeps a cleanup from its work ----

  /** The object is not under the run's labels, or is not the one that was created. */
  predicate Foreign(obj: Obj, uid: Option<nat>, prefix: string) {
    !Labelled(obj.labels, prefix) || (uid.Some? && obj.uid != uid.value)
  }

  /** The answer that a cleanup has to refuse: somebody else's object, a document or a section it cannot restore. */
  ghost predicate Blocks(c: Cleanup, sighting: Sighting, prefix: string) {
    match c
    case Remove(loc, uid) =>
      sighting.Saw? && sighting.loc == loc && sighting.found.Some? && Foreign(sighting.found.value, uid, prefix)
    case RemoveFrameworks(cluster, lists) =>
      sighting.Saw? && sighting.loc == KueueLoc(cluster) &&
      (sighting.found.Some? ==> exists p | p in lists :: F.Unreadable(sighting.found.value.content, p))
    case RestoreScheduler(cluster, original, role) =>
      sighting.SectionRead? && sighting.cluster == cluster && Disputed(sighting.value, original, role, prefix)
  }

  /** One of the answers since `from` is such an answer. */
  ghost predicate Blocked(c: Cleanup, sightings: seq<Sighting>, from: nat, prefix: string) {
    exists k | from <= k < |sightings| :: Blocks(c, sightings[k], prefix)
  }

  lemma BlockedBy(c: Cleanup, sightings: seq<Sighting>, from: nat, k: nat, prefix: string)
    requires from <= k < |sightings| && Blocks(c, sightings[k], prefix)
    ensures Blocked(c, sightings, from, prefix)
  {
  }

  lemma KueueBlocks(cluster: nat, lists: F.Lists, sightings: seq<Sighting>, from: nat, found: Option<Obj>,
                    prefix: string)
    requires from < |sightings| && sightings[|sightings| - 1] == Saw(KueueLoc(cluster), found)
    requires found.Some? ==> exists p | p in lists :: F.Unreadable(found.value.content, p)
    ensures Blocked(RemoveFrameworks(cluster, lists), sightings, from, prefix)
  {
    BlockedBy(RemoveFrameworks(cluster, lists), sightings, from, |sightings| - 1, prefix);
  }

  // ---- What a history says ----

  predicate Succeeded(log: Log, id: nat) {
    Ran(id, true) in log
  }

  /** The cleanup that is running at the end of the history. */
  function Current(log: Log): Option<nat> {
    if log == [] then None
    else
      match log[|log| - 1]
      case Began(id, _) => Some(id)
      case Ran(_, _) => None
      case _ => Current(log[..|log| - 1])
  }

  /** How many of the clusters' answers had been given at the latest point the history dates. */
  function Clock(log: Log): nat {
    if log == [] then 0
    else
      match log[|log| - 1]
      case Began(_, seen) => seen
      case Absent(_, at) => at + 1
      case Read(_, _, at) => at + 1
      case FoundUnlinked(_, _, at) => at + 1
      case _ => Clock(log[..|log| - 1])
  }

  /** The workload most recently recorded, empty when there is none. */
  function RecordedWorkload(log: Log): string {
    if log == [] then ""
    else if log[|log| - 1].Recorded? then log[|log| - 1].workload
    else RecordedWorkload(log[..|log| - 1])
  }

  /** `uid` is the id captured for registration `id`, None as long as no create was confirmed. */
  ghost predicate CapturedFor(log: Log, id: nat, uid: Option<nat>) {
    forall u: nat :: Confirmed(id, u) in log <==> uid == Some(u)
  }

  ghost predicate AbsentSince(log: Log, since: nat, loc: Loc) {
    exists a :: since <= a < |log| && log[a].Absent? && log[a].loc == loc
  }

  /** The observations made since `since` show the run and its workload absent on clusters below `n`. */
  ghost predicate Swept(log: Log, since: nat, n: nat, prefix: string, workload: string) {
    forall c | 0 <= c < n ::
      && AbsentSince(log, since, RunLoc(c, prefix))
      && (workload != "" ==> AbsentSince(log, since, WorkloadLoc(c, prefix, workload)))
  }

  // ---- The laws ----

  /** Registered, not succeeded yet, and every cleanup registered after it has succeeded. */
  ghost predicate RunAllowed(log: Log, id: nat) {
    && id < |log| && log[id].Registered? && !Succeeded(log, id)
    && forall j | id < j < |log| && log[j].Registered? :: Succeeded(log, j)
  }

  /** The object was seen absent, or is of a kind whose accepted deletion is trusted. */
  predicate Ends(e: Event, loc: Loc) {
    (e.Absent? && e.loc == loc) || (e.Deleted? && e.deletion.loc == loc && !Waits(loc.kind))
  }

  /** The entry is in none of these lists: it was taken out, or the object was found without it. */
  predicate TakenOut(e: Event, c: nat, lists: F.Lists) {
    match e
    case Unlinked(cluster, before, doc) => cluster == c && doc == F.RemoveAll(before, lists)
    case FoundUnlinked(cluster, before, _) => cluster == c && before == F.RemoveAll(before, lists)
    case _ => false
  }

  /** What a cleanup must have established, as the last event before it reports success. */
  ghost predicate Witnesses(what: Cleanup, id: nat, last: Event) {
    match what
    case Remove(loc, _) => if loc.kind.PipelineRun? then last.Gone? && id < last.since else Ends(last, loc)
    case RemoveFrameworks(c, lists) => TakenOut(last, c, lists)
    case RestoreScheduler(c, original, _) => last.WroteBack? && last.cluster == c && SameFields(last.value, original)
  }

  predicate JustRead(e: Event, c: nat, value: Scheduler) {
    e.Read? && e.cluster == c && e.value == value
  }

  /** What is restored is what was read right before, and the only run ever targeted is the hub's. */
  ghost predicate MayRegister(log: Log, what: Cleanup, prefix: string) {
    && Current(log) == None && Erase(what) == what
    && (what.Remove? && what.loc.kind.PipelineRun? ==> what.loc == RunLoc(0, prefix))
    && (what.RemoveFrameworks? ==> F.Apart(what.lists))
    && (what.RestoreScheduler? ==> log != [] && JustRead(log[|log| - 1], what.cluster, what.original))
  }

  /** A deletion of the running cleanup: an object under the run's labels with the captured id. */
  ghost predicate MayDelete(log: Log, d: Deletion, prefix: string) {
    && Current(log).Some? && Current(log).value < |log|
    && log[Current(log).value] == Registered(Remove(d.loc, None))
    && CapturedFor(log, Current(log).value, d.captured)
    && Labelled(d.obj.labels, prefix)
    && (d.captured.Some? ==> d.obj.uid == d.captured.value)
  }

  predicate StrippedFor(e: Event, loc: Loc, uid: nat) {
    e.Stripped? && e.deletion.loc == loc && e.deletion.obj.uid == uid
  }

  /** Registration `j` is the pending restoration of the section that is being enabled in its role. */
  predicate Enables(log: Log, j: nat, c: nat, found: Scheduler, value: Scheduler, prefix: string) {
    && j < |log| && log[j].Registered? && log[j].what.RestoreScheduler? && log[j].what.cluster == c
    && !Succeeded(log, j) && value == Install(found, log[j].what.role, prefix)
  }

  /** Registration `j` is the pending removal of exactly the entries that are being added. */
  predicate Links(log: Log, j: nat, c: nat, found: Json.Json, doc: Json.Json) {
    && j < |log| && log[j] == Registered(RemoveFrameworks(c, F.Lacking(found, F.THE_LISTS)))
    && !Succeeded(log, j) && doc == F.AddAll(found, F.THE_LISTS)
  }

  /** The running cleanup is the restoration of this section, and writes the three-way merge. */
  predicate MayWriteBack(log: Log, c: nat, found: Scheduler, value: Scheduler, prefix: string) {
    && Current(log).Some? && Current(log).value < |log| && log[Current(log).value].Registered?
    && var what := log[Current(log).value].what;
    && what.RestoreScheduler? && what.cluster == c && value == Restored(found, what.original, what.role, prefix)
  }

  predicate MayUnlink(log: Log, c: nat, found: Json.Json, doc: Json.Json) {
    && Current(log).Some? && Current(log).value < |log| && log[Current(log).value].Registered?
    && var what := log[Current(log).value].what;
    && what.RemoveFrameworks? && what.cluster == c && doc == F.RemoveAll(found, what.lists)
  }

  /** The event may follow the history. */
  ghost predicate Law(log: Log, e: Event, n: nat, prefix: string) {
    match e
    case Registered(what) => MayRegister(log, what, prefix)
    case Confirmed(id, _) =>
      Current(log) == None && id + 1 == |log| && log[id].Registered? && log[id].what.Remove?
    case Began(id, seen) => Current(log) == None && RunAllowed(log, id) && Clock(log) <= seen
    case Ran(id, ok) =>
      && Current(log) == Some(id) && id < |log| && log[id].Registered?
      && (ok ==> Witnesses(log[id].what, id, log[|log| - 1]))
    case Absent(_, at) => Current(log).Some? && Clock(log) <= at
    case Gone(since, workload) => workload == RecordedWorkload(log) && Swept(log, since, n, prefix, workload)
    case Stripped(d) => d.loc.kind.ClusterRoleBinding? && MayDelete(log, d, prefix)
    case Deleted(d) =>
      MayDelete(log, d, prefix) &&
      (d.loc.kind.ClusterRoleBinding? ==> log != [] && StrippedFor(log[|log| - 1], d.loc, d.obj.uid))
    case Read(_, _, at) => Current(log) == None && Clock(log) <= at
    case Wrote(c, found, value) => Current(log) == None && exists j: nat :: Enables(log, j, c, found, value, prefix)
    case WroteBack(c, found, value) => MayWriteBack(log, c, found, value, prefix)
    case Linked(c, found, doc) => Current(log) == None && exists j: nat :: Links(log, j, c, found, doc)
    case Unlinked(c, found, doc) => MayUnlink(log, c, found, doc)
    case FoundUnlinked(c, found, at) => MayUnlink(log, c, found, found) && Clock(log) <= at
    case _ => true
  }

  /** Every event obeys its law at the point where it happened. */
  ghost predicate AllLawful(log: Log, n: nat, prefix: string) {
    forall p | 0 <= p < |log| :: Law(log[..p], log[p], n, prefix)
  }

  /** The pending list is exactly what was registered and has not succeeded, in order, with the captured ids. */
  ghost predicate Pending(log: Log, ids: seq<nat>, cs: seq<Cleanup>) {
    && |ids| == |cs|
    && (forall k | 0 <= k < |ids| :: ids[k] < |log| && log[ids[k]] == Registered(Erase(cs[k])))
    && (forall k | 0 <= k < |ids| && cs[k].Remove? :: CapturedFor(log, ids[k], cs[k].uid))
    && (forall k, l | 0 <= k < l < |ids| :: ids[k] < ids[l])
    && (forall j | 0 <= j < |log| && log[j].Registered? :: j in ids <==> !Succeeded(log, j))
  }

  /** Everything a history keeps, for a stack `cs` and `n` clusters. */
  ghost predicate Lawful(log: Log, ids: seq<nat>, cs: seq<Cleanup>, n: nat, prefix: string) {
    AllLawful(log, n, prefix) && Pending(log, ids, cs)
  }

  /** Registrations follow the setup stages, and each scheduler is saved at most once. */
  ghost predicate Staged(log: Log) {
    forall i, j | 0 <= i < j < |log| && log[i].Registered? && log[j].Registered? :: InStage(log[i].what, log[j].what)
  }

  predicate InStage(first: Cleanup, second: Cleanup) {
    && Stage(first) <= Stage(second)
    && (first.RestoreScheduler? && second.RestoreScheduler? ==> first.cluster < second.cluster)
  }

  ghost predicate UpTo(log: Log, stage: nat) {
    forall i | 0 <= i < |log| && log[i].Registered? :: Stage(log[i].what) <= stage
  }

  /** Only schedulers of clusters below `c` are saved. */
  ghost predicate SavedBelow(log: Log, c: nat) {
    forall i | 0 <= i < |log| && log[i].Registered? && log[i].what.RestoreScheduler? :: log[i].what.cluster < c
  }

  /** Neither a registration nor a mark of a running cleanup. */
  predicate Quiet(e: Event) {
    !e.Registered? && !e.Confirmed? && !e.Began? && !e.Ran?
  }

  /** Events were added, none of them a registration, and the same cleanup is running as before. */
  ghost predicate Extends(before: Log, after: Log) {
    before <= after && Current(before) == Current(after) && forall k | |before| <= k < |after| :: !after[k].Registered?
  }

  /** Registration `id` is the running cleanup, with the id captured for it. */
  ghost predicate Executing(log: Log, id: nat, c: Cleanup) {
    && Current(log) == Some(id) && id < |log| && log[id] == Registered(Erase(c))
    && (c.Remove? ==> CapturedFor(log, id, c.uid))
  }

  /** What the staging of `before` says holds of `after` too. */
  ghost predicate KeepsStages(before: Log, after: Log) {
    && (Staged(before) ==> Staged(after))
    && (forall stage :: UpTo(before, stage) ==> UpTo(after, stage))
    && (forall c :: SavedBelow(before, c) ==> SavedBelow(after, c))
  }

  // ---- One more event ----

  lemma ClockOf(log: Log, e: Event)
    ensures Clock(log + [e]) ==
            match e
            case Began(_, seen) => seen
            case Absent(_, at) => at + 1
            case Read(_, _, at) => at + 1
            case FoundUnlinked(_, _, at) => at + 1
            case _ => Clock(log)
  {
    assert (log + [e])[..|log|] == log;
  }

  lemma LastOf(log: Log, e: Event)
    ensures (log + [e])[..|log|] == log && (log + [e])[|log|] == e
    ensures Current(log + [e]) == match e case Began(id, _) => Some(id) case Ran(_, _) => None case _ => Current(log)
    ensures Clock(log + [e]) ==
            match e
            case Began(_, seen) => seen
            case Absent(_, at) => at + 1
            case Read(_, _, at) => at + 1
            case FoundUnlinked(_, _, at) => at + 1
            case _ => Clock(log)
    ensures RecordedWorkload(log + [e]) == if e.Recorded? then e.workload else RecordedWorkload(log)
  {
    hide Clock;
    ClockOf(log, e);
    assert (log + [e])[..|log|] == log;
  }

  lemma ExecutingNext(log: Log, id: nat, c: Cleanup, e: Event)
    requires Executing(log, id, c) && Quiet(e)
    ensures Executing(log + [e], id, c)
  {
    LastOf(log, e);
    assert forall i, u :: Confirmed(i, u) in log + [e] <==> Confirmed(i, u) in log;
  }

  lemma ExtendsKeepsStages(before: Log, after: Log)
    requires Extends(before, after)
    ensures KeepsStages(before, after)
  {
    assert forall i | 0 <= i < |after| && after[i].Registered? :: i < |before| && after[i] == before[i];
  }

  lemma StagesNext(log: Log, what: Cleanup)
    requires what.RestoreScheduler? ==> SavedBelow(log, what.cluster)
    ensures Staged(log) && UpTo(log, Stage(what)) ==>
              Staged(log + [Registered(what)]) && UpTo(log + [Registered(what)], Stage(what))
    ensures what.RestoreScheduler? ==> SavedBelow(log + [Registered(what)], what.cluster + 1)
  {
  }

  lemma SweptNext(log: Log, e: Event, since: nat, n: nat, prefix: string, workload: string)
    requires Swept(log, since, n, prefix, workload)
    ensures Swept(log + [e], since, n, prefix, workload)
  {
    forall c | 0 <= c < n
      ensures AbsentSince(log + [e], since, RunLoc(c, prefix))
      ensures workload != "" ==> AbsentSince(log + [e], since, WorkloadLoc(c, prefix, workload))
    {
      AbsentNext(log, e, since, RunLoc(c, prefix));
      if workload != "" {
        AbsentNext(log, e, since, WorkloadLoc(c, prefix, workload));
      }
    }
  }

  lemma AbsentNext(log: Log, e: Event, since: nat, loc: Loc)
    requires AbsentSince(log, since, loc) || (e.Absent? && e.loc == loc && since <= |log|)
    ensures AbsentSince(log + [e], since, loc)
  {
    if AbsentSince(log, since, loc) {
      var a :| since <= a < |log| && log[a].Absent? && log[a].loc == loc;
      assert (log + [e])[a] == log[a];
    } else {
      assert (log + [e])[|log|] == e;
    }
  }

  lemma LawfulNext(log: Log, e: Event, n: nat, prefix: string)
    requires AllLawful(log, n, prefix) && Law(log, e, n, prefix)
    ensures AllLawful(log + [e], n, prefix)
  {
    hide Law;
    var log' := log + [e];
    forall p | 0 <= p < |log'| ensures Law(log'[..p], log'[p], n, prefix) {
      if p < |log| {
        assert log'[..p] == log[..p] && log'[p] == log[p];
      } else {
        assert log'[..p] == log;
      }
    }
  }

  lemma PendingQuiet(log: Log, ids: seq<nat>, cs: seq<Cleanup>, e: Event)
    requires Pending(log, ids, cs) && (Quiet(e) || e.Began? || (e.Ran? && !e.ok))
    ensures Pending(log + [e], ids, cs)
  {
    assert forall j :: Succeeded(log + [e], j) <==> Succeeded(log, j);
    assert forall id, u :: Confirmed(id, u) in log + [e] <==> Confirmed(id, u) in log;
  }

  lemma PendingRegister(log: Log, ids: seq<nat>, cs: seq<Cleanup>, c: Cleanup, n: nat, prefix: string)
    requires Pending(log, ids, cs) && AllLawful(log, n, prefix) && Erase(c) == c
    ensures Pending(log + [Registered(c)], ids + [|log|], cs + [c])
  {
    var log' := log + [Registered(c)];
    assert forall j :: Succeeded(log', j) <==> Succeeded(log, j);
    assert forall id, u :: Confirmed(id, u) in log' <==> Confirmed(id, u) in log;
    NothingAhead(log, n, prefix);
    hide AllLawful, Law;
    var ids', cs' := ids + [|log|], cs + [c];
    forall k | 0 <= k < |ids'| && cs'[k].Remove? ensures CapturedFor(log', ids'[k], cs'[k].uid) {
      assert k < |ids| ==> ids'[k] == ids[k] && cs'[k] == cs[k] && CapturedFor(log, ids[k], cs[k].uid);
    }
  }

  /** No event speaks of a registration that has not happened. */
  lemma NothingAhead(log: Log, n: nat, prefix: string)
    requires AllLawful(log, n, prefix)
    ensures !Succeeded(log, |log|) && CapturedFor(log, |log|, None)
  {
    forall p | 0 <= p < |log| && (log[p].Ran? || log[p].Confirmed?) ensures log[p].id < |log| {
      assert Law(log[..p], log[p], n, prefix);
    }
  }

  /** Registering a cleanup puts it on top of the stack. */
  lemma Register(log: Log, ids: seq<nat>, cs: seq<Cleanup>, n: nat, prefix: string, c: Cleanup)
    requires Lawful(log, ids, cs, n, prefix) && MayRegister(log, c, prefix)
    ensures Lawful(log + [Registered(c)], ids + [|log|], cs + [c], n, prefix)
  {
    LawfulNext(log, Registered(c), n, prefix);
    PendingRegister(log, ids, cs, c, n, prefix);
  }

  /** The id of a confirmed create goes into the cleanup registered just before it. */
  lemma Capture(log: Log, ids: seq<nat>, cs: seq<Cleanup>, n: nat, prefix: string, uid: nat)
    requires Lawful(log, ids, cs, n, prefix) && Current(log) == None && cs != [] && cs[|cs| - 1].Remove?
    requires ids[|ids| - 1] + 1 == |log|
    ensures Lawful(log + [Confirmed(|log| - 1, uid)], ids, cs[|cs| - 1 := Remove(cs[|cs| - 1].loc, Some(uid))], n,
              prefix)
  {
    hide AllLawful, Pending, CapturedFor;
    TopOf(log, ids, cs);
    NotYetConfirmed(log, n, prefix);
    PendingCapture(log, ids, cs, uid);
    LawfulNext(log, Confirmed(|log| - 1, uid), n, prefix);
  }

  lemma NotYetConfirmed(log: Log, n: nat, prefix: string)
    requires AllLawful(log, n, prefix) && log != [] && log[|log| - 1].Registered?
    ensures CapturedFor(log, |log| - 1, None)
  {
    forall p | 0 <= p < |log| && log[p].Confirmed? ensures log[p].id < |log| - 1 {
      assert Law(log[..p], log[p], n, prefix);
    }
  }

  lemma PendingCapture(log: Log, ids: seq<nat>, cs: seq<Cleanup>, uid: nat)
    requires Pending(log, ids, cs) && cs != [] && cs[|cs| - 1].Remove?
    requires ids[|ids| - 1] + 1 == |log| && CapturedFor(log, |log| - 1, None)
    ensures Pending(log + [Confirmed(|log| - 1, uid)], ids, cs[|cs| - 1 := Remove(cs[|cs| - 1].loc, Some(uid))])
  {
    var top, e := |cs| - 1, Confirmed(|log| - 1, uid);
    var log', captured := log + [e], cs[top := Remove(cs[top].loc, Some(uid))];
    assert forall j :: Succeeded(log', j) <==> Succeeded(log, j);
    assert forall id, u :: Confirmed(id, u) in log' <==> Confirmed(id, u) in log || Confirmed(id, u) == e;
    forall k | 0 <= k < |ids| && captured[k].Remove? ensures CapturedFor(log', ids[k], captured[k].uid) {
      if k < top {
        assert ids[k] < ids[top] && CapturedFor(log, ids[k], cs[k].uid);
      } else {
        assert ids[k] == |log| - 1 && captured[k].uid == Some(uid);
      }
    }
  }

  /** An event that is quiet leaves the stack alone. */
  lemma Observe(log: Log, ids: seq<nat>, cs: seq<Cleanup>, n: nat, prefix: string, e: Event)
    requires Lawful(log, ids, cs, n, prefix) && Quiet(e) && Law(log, e, n, prefix)
    ensures Lawful(log + [e], ids, cs, n, prefix)
  {
    LawfulNext(log, e, n, prefix);
    PendingQuiet(log, ids, cs, e);
  }

  /** The top of the stack is registered, and the only one that may run. */
  lemma TopOf(log: Log, ids: seq<nat>, cs: seq<Cleanup>)
    requires Pending(log, ids, cs) && cs != []
    ensures |ids| == |cs| && RunAllowed(log, ids[|ids| - 1])
    ensures log[ids[|ids| - 1]] == Registered(Erase(cs[|cs| - 1]))
    ensures cs[|cs| - 1].Remove? ==> CapturedFor(log, ids[|ids| - 1], cs[|cs| - 1].uid)
  {
    hide CapturedFor;
    var top := ids[|ids| - 1];
    assert top in ids;
    forall j | top < j < |log| && log[j].Registered? ensures Succeeded(log, j) {
      assert j !in ids;
    }
  }

  /** When nothing is running, the top cleanup may begin ... */
  lemma TopBegins(log: Log, ids: seq<nat>, cs: seq<Cleanup>, n: nat, prefix: string, seen: nat)
    requires Lawful(log, ids, cs, n, prefix) && cs != [] && Current(log) == None && Clock(log) <= seen
    ensures Lawful(log + [Began(ids[|ids| - 1], seen)], ids, cs, n, prefix)
  {
    hide AllLawful, Pending;
    TopOf(log, ids, cs);
    LawfulNext(log, Began(ids[|ids| - 1], seen), n, prefix);
    PendingQuiet(log, ids, cs, Began(ids[|ids| - 1], seen));
  }

  /** ... it stays on the stack when it fails ... */
  lemma TopFails(log: Log, ids: seq<nat>, cs: seq<Cleanup>, n: nat, prefix: string)
    requires Lawful(log, ids, cs, n, prefix) && cs != [] && Current(log) == Some(ids[|ids| - 1])
    ensures Lawful(log + [Ran(ids[|ids| - 1], false)], ids, cs, n, prefix)
  {
    hide AllLawful, Pending;
    TopOf(log, ids, cs);
    LawfulNext(log, Ran(ids[|ids| - 1], false), n, prefix);
    PendingQuiet(log, ids, cs, Ran(ids[|ids| - 1], false));
  }

  /** ... and leaves it when it succeeds. */
  lemma TopSucceeds(log: Log, ids: seq<nat>, cs: seq<Cleanup>, n: nat, prefix: string)
    requires Lawful(log, ids, cs, n, prefix) && cs != [] && Current(log) == Some(ids[|ids| - 1])
    requires Witnesses(cs[|cs| - 1], ids[|ids| - 1], log[|log| - 1])
    ensures Lawful(log + [Ran(ids[|ids| - 1], true)], ids[..|cs| - 1], cs[..|cs| - 1], n, prefix)
  {
    hide AllLawful, Pending;
    TopOf(log, ids, cs);
    LawfulNext(log, Ran(ids[|ids| - 1], true), n, prefix);
    PendingSuccess(log, ids, cs);
  }

  lemma PendingSuccess(log: Log, ids: seq<nat>, cs: seq<Cleanup>)
    requires Pending(log, ids, cs) && cs != []
    ensures Pending(log + [Ran(ids[|ids| - 1], true)], ids[..|cs| - 1], cs[..|cs| - 1])
  {
    var top := ids[|ids| - 1];
    var log' := log + [Ran(top, true)];
    assert forall j :: Succeeded(log', j) <==> Succeeded(log, j) || j == top;
    assert forall id, u :: Confirmed(id, u) in log' <==> Confirmed(id, u) in log;
    WithoutTop(ids);
  }

  lemma WithoutTop(ids: seq<nat>)
    requires ids != [] && forall k, l | 0 <= k < l < |ids| :: ids[k] < ids[l]
    ensures forall j :: j in ids[..|ids| - 1] <==> j in ids && j != ids[|ids| - 1]
  {
    assert ids == ids[..|ids| - 1] + [ids[|ids| - 1]];
  }

  // ---- What follows from the laws ----

  /** What a cleanup does to the clusters. */
  predicate IsAct(e: Event) {
    e.Stripped? || e.Deleted? || e.WroteBack? || e.Unlinked?
  }

  /** A running cleanup began before, and nothing was registered, begun or ended since. */
  lemma {:induction false} BegunAt(log: Log, n: nat, prefix: string, p: nat) returns (b: nat)
    requires AllLawful(log, n, prefix) && p <= |log| && Current(log[..p]).Some?
    ensures b < p && log[b].Began? && log[b].id == Current(log[..p]).value
    ensures forall k | b < k < p :: !log[k].Registered? && !log[k].Began? && !log[k].Ran?
    decreases p
  {
    hide AllLawful;
    var last := log[p - 1];
    assert log[..p] == log[..p - 1] + [last];
    LastOf(log[..p - 1], last);
    if last.Began? {
      b := p - 1;
    } else {
      LawAt(log, n, prefix, p - 1);
      b := BegunAt(log, n, prefix, p - 1);
    }
  }

  lemma LawAt(log: Log, n: nat, prefix: string, p: nat)
    requires AllLawful(log, n, prefix) && p < |log|
    ensures Law(log[..p], log[p], n, prefix)
  {
  }

  lemma {:induction false} ClockAdvances(log: Log, n: nat, prefix: string, p: nat, q: nat)
    requires AllLawful(log, n, prefix) && p <= q <= |log|
    ensures Clock(log[..p]) <= Clock(log[..q])
    decreases q
  {
    hide AllLawful;
    if p < q {
      ClockAdvances(log, n, prefix, p, q - 1);
      LawAt(log, n, prefix, q - 1);
      assert log[..q] == log[..q - 1] + [log[q - 1]];
      LastOf(log[..q - 1], log[q - 1]);
    }
  }

  /** An absence noted after a registration was seen after the beginning of a cleanup that began after it. */
  lemma SeenAfterBegin(log: Log, n: nat, prefix: string, a: nat, j: nat) returns (b: nat)
    requires AllLawful(log, n, prefix) && j < a < |log| && log[a].Absent? && log[j].Registered?
    ensures j < b < a && log[b].Began? && log[b].seen <= log[a].at
  {
    hide AllLawful;
    LawAt(log, n, prefix, a);
    b := BegunAt(log, n, prefix, a);
    ClockAdvances(log, n, prefix, b + 1, a);
    assert log[..b + 1] == log[..b] + [log[b]];
    LastOf(log[..b], log[b]);
  }

  /** The cleanup that does something is registered. */
  lemma Actor(log: Log, n: nat, prefix: string, p: nat)
    requires AllLawful(log, n, prefix) && p < |log| && IsAct(log[p])
    ensures Current(log[..p]).Some? && Current(log[..p]).value < p && log[Current(log[..p]).value].Registered?
    ensures var what := log[Current(log[..p]).value].what;
            match log[p]
            case Stripped(d) => what == Remove(d.loc, None)
            case Deleted(d) => what == Remove(d.loc, None)
            case WroteBack(c, _, _) => what.RestoreScheduler? && what.cluster == c
            case Unlinked(c, _, _) => what.RemoveFrameworks? && what.cluster == c
            case _ => true
  {
    assert Law(log[..p], log[p], n, prefix);
  }

  /** A cleanup does nothing at all before every cleanup registered after it has succeeded. */
  lemma ActsInOrder(log: Log, n: nat, prefix: string, p: nat, j: nat)
    requires AllLawful(log, n, prefix) && p < |log| && IsAct(log[p])
    requires j < p && log[j].Registered? && Current(log[..p]) != None && Current(log[..p]).value < j
    ensures Succeeded(log[..p], j)
  {
    var b := BegunAt(log, n, prefix, p);
    assert Law(log[..b], log[b], n, prefix);
    assert j < b;
    assert log[..b][j] == log[j];
    var r :| 0 <= r < b && log[..b][r] == Ran(j, true);
    assert log[..p][r] == Ran(j, true);
  }

  lemma StageOrder(log: Log, i: nat, j: nat)
    requires Staged(log) && i < |log| && j < |log| && log[i].Registered? && log[j].Registered?
    requires Stage(log[i].what) < Stage(log[j].what)
    ensures i < j
  {
  }

  /** A cleanup that succeeded never begins again. */
  lemma SucceededNeverRunsAgain(log: Log, n: nat, prefix: string, p: nat, q: nat)
    requires AllLawful(log, n, prefix)
    requires p < q < |log| && log[p].Ran? && log[p].ok && log[q].Began?
    ensures log[q].id != log[p].id
  {
    assert Law(log[..q], log[q], n, prefix);
    assert log[..q][p] == log[p];
  }

  /** A success comes after the evidence for it. */
  lemma SuccessWitnessed(log: Log, n: nat, prefix: string, r: nat)
    requires AllLawful(log, n, prefix) && r < |log| && log[r].Ran? && log[r].ok
    ensures 0 < r && log[r].id < r && log[log[r].id].Registered?
    ensures Current(log[..r]) == Some(log[r].id) && Witnesses(log[log[r].id].what, log[r].id, log[r - 1])
  {
    assert Law(log[..r], log[r], n, prefix);
    assert log[..r][|log[..r]| - 1] == log[r - 1];
  }

  /**
   Nothing is written to restore a scheduler before the PipelineRun and the workload recorded for it were
   observed absent on the hub and on every spoke, by observations made after the run's registration and before
   the cleanup that writes began.
   */
  lemma ExecutionGoneBeforeSchedulers(log: Log, n: nat, prefix: string, p: nat, j: nat)
    requires AllLawful(log, n, prefix) && Staged(log)
    requires p < |log| && log[p].WroteBack?
    requires j < p && log[j].Registered? && log[j].what.Remove? && log[j].what.loc.kind.PipelineRun?
    ensures exists g: nat, b: nat ::
              && j < g < b && BeganFor(log, b, p)
              && log[g].Gone? && j < log[g].since
              && log[g].workload == RecordedWorkload(log[..g])
              && Swept(log[..g], log[g].since, n, prefix, log[g].workload)
  {
    hide AllLawful, Swept, RecordedWorkload;
    Actor(log, n, prefix, p);
    var i := Current(log[..p]).value;
    StageOrder(log, i, j);
    ActsInOrder(log, n, prefix, p, j);
    var r :| 0 <= r < p && log[..p][r] == Ran(j, true);
    assert log[r] == Ran(j, true);
    SuccessWitnessed(log, n, prefix, r);
    SweptBefore(log, n, prefix, r - 1);
    var b := BegunAt(log, n, prefix, p);
    assert r - 1 < b && BeganFor(log, b, p);
  }

  /** The cleanup that is running at `p` began at `b`. */
  ghost predicate BeganFor(log: Log, b: nat, p: nat) {
    b < p < |log| && log[b].Began? && Current(log[..p]) == Some(log[b].id)
  }

  lemma SweptBefore(log: Log, n: nat, prefix: string, g: nat)
    requires AllLawful(log, n, prefix) && g < |log| && log[g].Gone?
    ensures log[g].workload == RecordedWorkload(log[..g])
    ensures Swept(log[..g], log[g].since, n, prefix, log[g].workload)
  {
    assert Law(log[..g], log[g], n, prefix);
  }

  /** No Kueue CR is deleted and no framework entry removed before every cleanup of a later stage has succeeded. */
  lemma KueueRemovedLast(log: Log, n: nat, prefix: string, p: nat, j: nat)
    requires AllLawful(log, n, prefix) && Staged(log)
    requires p < |log| && (log[p].Unlinked? || (log[p].Deleted? && log[p].deletion.loc.kind.KueueCR?))
    requires j < p && log[j].Registered? && !log[j].what.RemoveFrameworks?
    requires log[j].what.Remove? ==> !log[j].what.loc.kind.KueueCR?
    ensures Succeeded(log[..p], j)
  {
    hide AllLawful;
    Actor(log, n, prefix, p);
    var i := Current(log[..p]).value;
    StageOrder(log, i, j);
    ActsInOrder(log, n, prefix, p, j);
  }

  /**
   Every deletion, and every stripping, is of the cleanup registered for that object, hits an object under the run's
   labels, and one with the id of the create that followed the registration. Only where that create was never
   confirmed, in all of the history, are the labels the only check. A binding is stripped right before its deletion.
   */
  lemma DeletionsAreOwn(log: Log, n: nat, prefix: string, p: nat)
    requires AllLawful(log, n, prefix) && p < |log| && (log[p].Deleted? || log[p].Stripped?)
    ensures exists id: nat :: id < p && Deletes(log, id, log[p].deletion, prefix)
    ensures log[p].Deleted? && log[p].deletion.loc.kind.ClusterRoleBinding? ==>
              p > 0 && StrippedFor(log[p - 1], log[p].deletion.loc, log[p].deletion.obj.uid)
  {
    hide AllLawful;
    LawAt(log, n, prefix, p);
    assert p > 0 ==> log[..p][|log[..p]| - 1] == log[p - 1];
    var id := Current(log[..p]).value;
    assert log[..p][id] == log[id];
    forall u: nat ensures Confirmed(id, u) in log <==> Confirmed(id, u) in log[..p] {
      ConfirmedAt(log, n, prefix, p, id, u);
    }
    assert Deletes(log, id, log[p].deletion, prefix);
  }

  /** A create is confirmed right after its registration or never. */
  lemma ConfirmedAt(log: Log, n: nat, prefix: string, p: nat, id: nat, u: nat)
    requires AllLawful(log, n, prefix) && id < p < |log| && !log[p].Confirmed?
    ensures Confirmed(id, u) in log <==> Confirmed(id, u) in log[..p]
  {
    hide AllLawful;
    if Confirmed(id, u) in log {
      var q :| 0 <= q < |log| && log[q] == Confirmed(id, u);
      LawAt(log, n, prefix, q);
      assert log[..p][q] == log[q];
    }
  }

  ghost predicate Deletes(log: Log, id: nat, d: Deletion, prefix: string) {
    && id < |log| && log[id] == Registered(Remove(d.loc, None)) && Labelled(d.obj.labels, prefix)
    && CapturedFor(log, id, d.captured) && (d.captured.Some? ==> d.obj.uid == d.captured.value)
  }

  lemma AllSucceeded(log: Log, j: nat)
    requires Pending(log, [], []) && j < |log| && log[j].Registered?
    ensures Succeeded(log, j)
  {
  }

  /** Once nothing is pending, a registration succeeded; one that was pending at `p` did so after `p`. */
  lemma SucceededAfter(log: Log, n: nat, prefix: string, p: nat, j: nat) returns (r: nat)
    requires Lawful(log, [], [], n, prefix) && p < |log| && !log[p].Ran?
    requires j < p && log[j].Registered? && !Succeeded(log[..p], j)
    ensures p < r < |log| && log[r] == Ran(j, true)
    ensures Current(log[..r]) == Some(j) && Witnesses(log[j].what, j, log[r - 1])
  {
    hide AllLawful, Witnesses;
    AllSucceeded(log, j);
    assert log == log[..p] + log[p..] && Ran(j, true) in log[p..];
    var k :| 0 <= k < |log[p..]| && log[p..][k] == Ran(j, true);
    r := p + k;
    SuccessWitnessed(log, n, prefix, r);
  }

  /**
   Once nothing is pending, what an update added to a Kueue object was taken out of the object as it was by
   then, along exactly the lists that had lacked the entry, or found not to be in any of them.
   */
  lemma NothingPendingNoEntryLeft(log: Log, n: nat, prefix: string, p: nat)
    requires Lawful(log, [], [], n, prefix) && p < |log| && log[p].Linked?
    ensures log[p].doc == F.AddAll(log[p].before, F.THE_LISTS)
    ensures exists w ::
              p < w < |log| && TakenOut(log[w], log[p].cluster, F.Lacking(log[p].before, F.THE_LISTS))
  {
    hide AllLawful, Pending, F.AddAll, F.RemoveAll, F.Lacking;
    LawAt(log, n, prefix, p);
    var j: nat :| Links(log[..p], j, log[p].cluster, log[p].before, log[p].doc);
    assert log[j] == log[..p][j];
    var r := SucceededAfter(log, n, prefix, p, j);
    assert TakenOut(log[r - 1], log[p].cluster, F.Lacking(log[p].before, F.THE_LISTS)) && r - 1 != p;
  }

  predicate WritesTo(e: Event, c: nat) {
    (e.Wrote? || e.WroteBack?) && e.cluster == c
  }

  /** Registered at `j` and restored at `w` to what was read before, with every write to the cluster in between. */
  ghost predicate RestoredFrom(log: Log, c: nat, j: nat, w: nat) {
    && 0 < j < w < |log| && log[j].Registered? && log[j].what.RestoreScheduler? && log[j].what.cluster == c
    && JustRead(log[j - 1], c, log[j].what.original)
    && log[w].WroteBack? && log[w].cluster == c && SameFields(log[w].value, log[j].what.original)
    && forall q | 0 <= q < |log| && WritesTo(log[q], c) :: j < q <= w
  }

  /** A write is guarded by the one registration its cluster has. */
  lemma WriterOf(log: Log, n: nat, prefix: string, q: nat, j: nat)
    requires AllLawful(log, n, prefix) && Staged(log) && q < |log| && (log[q].Wrote? || log[q].WroteBack?)
    requires j < |log| && log[j].Registered? && log[j].what.RestoreScheduler? && log[j].what.cluster == log[q].cluster
    ensures j < q
    ensures log[q].Wrote? ==> !Succeeded(log[..q], j)
    ensures log[q].WroteBack? ==> Current(log[..q]) == Some(j)
  {
    assert Law(log[..q], log[q], n, prefix);
    var i: nat;
    if log[q].Wrote? {
      i :| Enables(log[..q], i, log[q].cluster, log[q].found, log[q].value, prefix);
    } else {
      i := Current(log[..q]).value;
    }
    assert log[..q][i] == log[i];
    assert i < j ==> InStage(log[i].what, log[j].what);
    assert j < i ==> InStage(log[j].what, log[i].what);
  }

  /** No write of cleanup `j` comes after its success. */
  lemma WritesEnd(log: Log, n: nat, prefix: string, q: nat, j: nat, r: nat)
    requires AllLawful(log, n, prefix) && r < q < |log| && log[r] == Ran(j, true)
    requires log[q].Wrote? ==> !Succeeded(log[..q], j)
    requires log[q].WroteBack? ==> Current(log[..q]) == Some(j)
    ensures !log[q].Wrote? && !log[q].WroteBack?
  {
    assert log[..q][r] == Ran(j, true);
    if log[q].WroteBack? {
      var b := BegunAt(log, n, prefix, q);
      assert r < b;
      SucceededNeverRunsAgain(log, n, prefix, r, b);
    }
  }

  /**
   Once nothing is pending, each scheduler the run wrote was read before the run's first write to it, and the
   run's last write to it put the five fields back that had been read.
   */
  lemma NothingPendingSchedulersRestored(log: Log, n: nat, prefix: string, p: nat)
    requires Lawful(log, [], [], n, prefix) && Staged(log) && p < |log| && (log[p].Wrote? || log[p].WroteBack?)
    ensures exists j: nat, w: nat :: RestoredFrom(log, log[p].cluster, j, w) && j < p <= w
  {
    hide AllLawful, Pending, Staged;
    var c := log[p].cluster;
    var j := SavedFor(log, n, prefix, p);
    var r := SucceededAfter(log, n, prefix, p, j);
    SavedBefore(log, n, prefix, j);
    forall q | 0 <= q < |log| && WritesTo(log[q], c) ensures j < q <= r - 1 {
      WriterOf(log, n, prefix, q, j);
      if r < q {
        WritesEnd(log, n, prefix, q, j, r);
      }
    }
    assert RestoredFrom(log, c, j, r - 1);
  }

  /** The registration a write goes back to, which has not succeeded by then. */
  lemma SavedFor(log: Log, n: nat, prefix: string, p: nat) returns (j: nat)
    requires AllLawful(log, n, prefix) && p < |log| && (log[p].Wrote? || log[p].WroteBack?)
    ensures j < p && log[j].Registered? && log[j].what.RestoreScheduler? && log[j].what.cluster == log[p].cluster
    ensures !Succeeded(log[..p], j)
  {
    hide AllLawful;
    LawAt(log, n, prefix, p);
    if log[p].Wrote? {
      j :| Enables(log[..p], j, log[p].cluster, log[p].found, log[p].value, prefix);
    } else {
      j := Current(log[..p]).value;
      var b := BegunAt(log, n, prefix, p);
      LawAt(log, n, prefix, b);
      forall r | 0 <= r < p ensures log[..p][r] != Ran(j, true) {
        assert r < b ==> log[..b][r] == log[..p][r];
      }
    }
    assert log[j] == log[..p][j];
  }

  lemma SavedBefore(log: Log, n: nat, prefix: string, j: nat)
    requires AllLawful(log, n, prefix) && j < |log| && log[j].Registered? && log[j].what.RestoreScheduler?
    ensures 0 < j && JustRead(log[j - 1], log[j].what.cluster, log[j].what.original)
  {
    assert Law(log[..j], log[j], n, prefix);
    assert j > 0 ==> log[..j][|log[..j]| - 1] == log[j - 1];
  }
}
