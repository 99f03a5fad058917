/** The history tells of what the run did to the clusters and what they answered: all of it, and nothing else. */
module FleetRecords {
  import opened Wrappers
  import opened Clusters
  import opened CleanupLog
  import opened Scheduler
  import Json

  /** Objects of these kinds have no cleanup of their own and go away with their namespace. */
  predicate InsideNamespace(kind: Kind) {
    kind.ServiceAccount? || kind.Role? || kind.RoleBinding?
  }

  ghost predicate ConfirmedAs(log: Log, p: nat, made: (Loc, nat)) {
    0 < p < |log| && log[p - 1] == Registered(Remove(made.0, None)) && log[p] == Confirmed(p - 1, made.1)
  }

  /** Every create that was confirmed had its id captured right after the registration of its cleanup. */
  ghost predicate AllCaptured(log: Log, confirmed: set<(Loc, nat)>) {
    forall made | made in confirmed && !InsideNamespace(made.0.kind) :: exists p: nat :: ConfirmedAs(log, p, made)
  }

  /** A captured id is the id of an object the run created where its cleanup looks for it. */
  ghost predicate Genuine(log: Log, created: set<(Loc, nat)>) {
    forall p | 0 <= p < |log| && log[p].Confirmed? && log[p].id < |log| && log[log[p].id].Registered?
      && log[log[p].id].what.Remove? :: (log[log[p].id].what.loc, log[p].uid) in created
  }

  /** What the run changed on the clusters, each kind in order. */
  datatype Changes = Changes(deletions: seq<Deletion>, strips: seq<Deletion>, replacements: seq<Replacement>,
                             writes: seq<SectionWrite>)

  function WithChange(changes: Changes, e: Event): Changes {
    match e
    case Deleted(d) => changes.(deletions := changes.deletions + [d])
    case Stripped(d) => changes.(strips := changes.strips + [d])
    case Linked(c, before, doc) =>
      changes.(replacements := changes.replacements + [Replacement(KueueLoc(c), before, doc)])
    case Unlinked(c, before, doc) =>
      changes.(replacements := changes.replacements + [Replacement(KueueLoc(c), before, doc)])
    case Wrote(c, found, value) => changes.(writes := changes.writes + [SectionWrite(c, found, value)])
    case WroteBack(c, found, value) => changes.(writes := changes.writes + [SectionWrite(c, found, value)])
    case _ => changes
  }

  /** All changes the history tells of. */
  function ChangesIn(log: Log): Changes {
    if log == [] then Changes([], [], [], []) else WithChange(ChangesIn(log[..|log| - 1]), log[|log| - 1])
  }

  predicate IsChange(e: Event) {
    e.Deleted? || e.Stripped? || e.Linked? || e.Unlinked? || e.Wrote? || e.WroteBack?
  }

  predicate Shows(sighting: Sighting, c: nat, doc: Json.Json) {
    sighting.Saw? && sighting.loc == KueueLoc(c) && sighting.found.Some? && sighting.found.value.content == doc
  }

  /** What the event says the clusters answered is what they answered. */
  predicate Told(e: Event, sightings: seq<Sighting>) {
    match e
    case Absent(loc, at) => at < |sightings| && sightings[at] == Saw(loc, None)
    case Read(c, value, at) => at < |sightings| && sightings[at] == SectionRead(c, value)
    case FoundUnlinked(c, before, at) => at < |sightings| && Shows(sightings[at], c, before)
    case Began(_, seen) => seen <= |sightings|
    case _ => true
  }

  /** The history reports the clusters' answers as they were and does not run ahead of them. */
  ghost predicate AnswersGiven(log: Log, sightings: seq<Sighting>) {
    Clock(log) <= |sightings| && forall a | 0 <= a < |log| :: Told(log[a], sightings)
  }

  /** Everything the clusters did for the run and told it, as far as the history speaks of it. */
  datatype Facts = Facts(created: set<(Loc, nat)>, confirmed: set<(Loc, nat)>, changes: Changes,
                         sightings: seq<Sighting>)

  /**
   The history tells of exactly the changes the run made, in order, and of nothing the clusters did not answer;
   it has the id of every confirmed create, and only ids of objects the run created.
   */
  ghost predicate Records(log: Log, f: Facts) {
    && AllCaptured(log, f.confirmed) && Genuine(log, f.created)
    && ChangesIn(log) == f.changes && AnswersGiven(log, f.sightings)
  }

  lemma AllCapturedGrows(log: Log, e: Event, confirmed: set<(Loc, nat)>)
    requires AllCaptured(log, confirmed)
    ensures AllCaptured(log + [e], confirmed)
  {
    forall made | made in confirmed && !InsideNamespace(made.0.kind)
        ensures exists p: nat :: ConfirmedAs(log + [e], p, made) {
      var p: nat :| ConfirmedAs(log, p, made);
      assert ConfirmedAs(log + [e], p, made);
    }
  }

  lemma GenuineGrows(log: Log, e: Event, created: set<(Loc, nat)>, created': set<(Loc, nat)>)
    requires Genuine(log, created) && created <= created'
    requires forall p | 0 <= p < |log| && log[p].Confirmed? :: log[p].id < |log|
    requires e.Confirmed? && e.id < |log| && log[e.id].Registered? && log[e.id].what.Remove? ==>
               (log[e.id].what.loc, e.uid) in created'
    ensures Genuine(log + [e], created')
  {
  }

  lemma ConfirmedBehind(log: Log, n: nat, prefix: string)
    requires AllLawful(log, n, prefix)
    ensures forall p | 0 <= p < |log| && log[p].Confirmed? :: log[p].id < |log|
  {
    forall p | 0 <= p < |log| && log[p].Confirmed? ensures log[p].id < |log| {
      LawAt(log, n, prefix, p);
    }
  }

  lemma AnswersNext(log: Log, e: Event, sightings: seq<Sighting>)
    requires AnswersGiven(log, sightings) && Told(e, sightings)
    ensures AnswersGiven(log + [e], sightings)
  {
    LastOf(log, e);
  }

  lemma ChangesNext(log: Log, e: Event)
    ensures ChangesIn(log + [e]) == WithChange(ChangesIn(log), e)
  {
    assert (log + [e])[..|log|] == log;
  }

  /** One more event, with the change it tells of if it is one. */
  lemma RecordsNext(log: Log, e: Event, n: nat, prefix: string, f: Facts)
    requires AllLawful(log, n, prefix) && Records(log, f) && !e.Confirmed? && Told(e, f.sightings)
    ensures Records(log + [e], f.(changes := WithChange(f.changes, e)))
    ensures !IsChange(e) ==> Records(log + [e], f)
  {
    hide AllLawful;
    AllCapturedGrows(log, e, f.confirmed);
    ConfirmedBehind(log, n, prefix);
    GenuineGrows(log, e, f.created, f.created);
    AnswersNext(log, e, f.sightings);
    ChangesNext(log, e);
    hide AllCaptured, Genuine, AnswersGiven, ChangesIn;
  }

  /** The create that follows a registration is accounted for by capturing its id. */
  lemma RecordsCapture(log: Log, n: nat, prefix: string, loc: Loc, uid: nat, f: Facts)
    requires AllLawful(log, n, prefix) && Records(log, f) && (loc, uid) in f.created
    requires log != [] && log[|log| - 1] == Registered(Remove(loc, None))
    ensures Records(log + [Confirmed(|log| - 1, uid)], f.(confirmed := f.confirmed + {(loc, uid)}))
  {
    hide AllLawful;
    var e := Confirmed(|log| - 1, uid);
    AllCapturedGrows(log, e, f.confirmed);
    assert AllCaptured(log + [e], f.confirmed + {(loc, uid)}) by {
      assert ConfirmedAs(log + [e], |log|, (loc, uid));
    }
    ConfirmedBehind(log, n, prefix);
    GenuineGrows(log, e, f.created, f.created);
    AnswersNext(log, e, f.sightings);
    ChangesNext(log, e);
  }

  /** Creating something more, confirmed only if it has no cleanup of its own. */
  lemma RecordsCreate(log: Log, f: Facts, created: set<(Loc, nat)>, confirmed: set<(Loc, nat)>)
    requires Records(log, f) && f.created <= created
    requires forall made | made in confirmed - f.confirmed :: InsideNamespace(made.0.kind)
    ensures Records(log, f.(created := created, confirmed := confirmed))
  {
    assert AllCaptured(log, confirmed) by {
      forall made | made in confirmed && !InsideNamespace(made.0.kind)
        ensures exists p: nat :: ConfirmedAs(log, p, made)
      {
        assert made in f.confirmed;
      }
    }
  }

  /** Further answers change nothing about the earlier ones. */
  lemma RecordsSee(log: Log, f: Facts, sightings: seq<Sighting>)
    requires Records(log, f) && f.sightings <= sightings
    ensures Records(log, f.(sightings := sightings)) && Clock(log) <= |f.sightings|
  {
    hide AllCaptured, Genuine, ChangesIn;
  }

  /** What the run deleted, or stripped of its subjects, was an object of its own. */
  ghost predicate Own(log: Log, d: Deletion, created: set<(Loc, nat)>, prefix: string) {
    && Labelled(d.obj.labels, prefix)
    && (exists id: nat :: Deletes(log, id, d, prefix))
    && (d.captured.Some? ==> d.obj.uid == d.captured.value && (d.loc, d.obj.uid) in created)
  }

  lemma {:induction false} DeletionLogged(log: Log, d: Deletion)
    requires d in ChangesIn(log).deletions || d in ChangesIn(log).strips
    ensures Deleted(d) in log || Stripped(d) in log
  {
    if log[|log| - 1] != Deleted(d) && log[|log| - 1] != Stripped(d) {
      DeletionLogged(log[..|log| - 1], d);
    }
  }

  lemma DeletedOwn(log: Log, n: nat, prefix: string, f: Facts, d: Deletion)
    requires AllLawful(log, n, prefix) && Records(log, f) && (d in f.changes.deletions || d in f.changes.strips)
    ensures Own(log, d, f.created, prefix)
  {
    DeletionLogged(log, d);
    hide AllLawful, AllCaptured, AnswersGiven, ChangesIn;
    var p :| 0 <= p < |log| && (log[p] == Deleted(d) || log[p] == Stripped(d));
    DeletionsAreOwn(log, n, prefix, p);
    var id: nat :| id < p && Deletes(log, id, d, prefix);
    if d.captured.Some? {
      var q :| 0 <= q < |log| && log[q] == Confirmed(id, d.captured.value);
      assert log[log[q].id].what.loc == d.loc;
    }
  }

  /**
   The clusters answered that nothing is at `loc`, after a cleanup had begun behind position `j` and among their
   first `seen` answers.
   */
  ghost predicate SeenGone(log: Log, sightings: seq<Sighting>, j: nat, seen: nat, loc: Loc) {
    exists b: nat, k: nat ::
      j < b < |log| && log[b].Began? && log[b].seen <= k < seen && k < |sightings| && sightings[k] == Saw(loc, None)
  }

  lemma AbsenceWasSeen(log: Log, n: nat, prefix: string, sightings: seq<Sighting>, since: nat, g: nat, b: nat, j: nat,
                       loc: Loc)
    requires AllLawful(log, n, prefix) && AnswersGiven(log, sightings)
    requires j < since && j < g <= b < |log| && log[b].Began? && log[j].Registered?
    requires AbsentSince(log[..g], since, loc)
    ensures SeenGone(log, sightings, j, log[b].seen, loc)
  {
    hide AllLawful;
    var a: nat :| since <= a < g && log[..g][a].Absent? && log[..g][a].loc == loc;
    assert log[a] == log[..g][a] && Told(log[a], sightings);
    var began := SeenAfterBegin(log, n, prefix, a, j);
    ClockAdvances(log, n, prefix, a + 1, b);
    assert log[..a + 1] == log[..a] + [log[a]];
    LastOf(log[..a], log[a]);
    LawAt(log, n, prefix, b);
  }

  /**
   Nothing is written to restore a scheduler before the clusters have answered, for the hub and every spoke, that
   the run and the workload recorded for it are not there: these answers came after a cleanup had begun behind the
   run's registration and before the cleanup that writes began.
   */
  lemma SchedulersRestoredAfterLooks(log: Log, n: nat, prefix: string, sightings: seq<Sighting>, p: nat, j: nat)
    requires AllLawful(log, n, prefix) && Staged(log) && AnswersGiven(log, sightings)
    requires p < |log| && log[p].WroteBack?
    requires j < p && log[j].Registered? && log[j].what.Remove? && log[j].what.loc.kind.PipelineRun?
    ensures exists g: nat, b: nat ::
              && j < g < b && BeganFor(log, b, p)
              && log[g].Gone? && log[g].workload == RecordedWorkload(log[..g])
              && AllSeenGone(log, n, prefix, sightings, j, log[b].seen, log[g].workload)
  {
    ExecutionGoneBeforeSchedulers(log, n, prefix, p, j);
    hide AllLawful, AnswersGiven, SeenGone, RecordedWorkload, AbsentSince;
    var g: nat, b: nat :| j < g < b && BeganFor(log, b, p) && log[g].Gone? && j < log[g].since
      && log[g].workload == RecordedWorkload(log[..g])
      && Swept(log[..g], log[g].since, n, prefix, log[g].workload);
    forall c | 0 <= c < n
      ensures SeenGone(log, sightings, j, log[b].seen, RunLoc(c, prefix))
      ensures log[g].workload != "" ==>
                SeenGone(log, sightings, j, log[b].seen, WorkloadLoc(c, prefix, log[g].workload))
    {
      AbsenceWasSeen(log, n, prefix, sightings, log[g].since, g, b, j, RunLoc(c, prefix));
      if log[g].workload != "" {
        AbsenceWasSeen(log, n, prefix, sightings, log[g].since, g, b, j, WorkloadLoc(c, prefix, log[g].workload));
      }
    }
  }

  ghost predicate AllSeenGone(log: Log, n: nat, prefix: string, sightings: seq<Sighting>, j: nat, seen: nat,
                              workload: string)
  {
    forall c | 0 <= c < n ::
      && SeenGone(log, sightings, j, seen, RunLoc(c, prefix))
      && (workload != "" ==> SeenGone(log, sightings, j, seen, WorkloadLoc(c, prefix, workload)))
  }

  // ---- The clusters' own record of the scheduler sections ----

  /** Write number `l` is the last one to its cluster. */
  ghost predicate LastTo(writes: seq<SectionWrite>, l: nat) {
    l < |writes| && forall i | l < i < |writes| :: writes[i].cluster != writes[l].cluster
  }

  /** The last write to the section of cluster `c` put the five fields back that the cluster had answered. */
  ghost predicate SectionRestored(writes: seq<SectionWrite>, sightings: seq<Sighting>, c: nat) {
    exists l: nat, original :: LastTo(writes, l) && writes[l].cluster == c
                               && SectionRead(c, original) in sightings && SameFields(writes[l].value, original)
  }

  /** That holds of every section that was written. */
  ghost predicate SectionsRestored(writes: seq<SectionWrite>, sightings: seq<Sighting>) {
    forall i | 0 <= i < |writes| :: SectionRestored(writes, sightings, writes[i].cluster)
  }

  /** The number of section writes before a position. */
  function WritesBefore(log: Log, p: nat): nat
    requires p <= |log|
  {
    |ChangesIn(log[..p]).writes|
  }

  lemma {:induction false} WritesGrow(log: Log, p: nat, q: nat)
    requires p <= q <= |log|
    ensures ChangesIn(log[..p]).writes <= ChangesIn(log[..q]).writes
    decreases q
  {
    if p < q {
      WritesGrow(log, p, q - 1);
      assert log[..q][..q - 1] == log[..q - 1];
    }
  }

  /** The write event at `p` is the write of that number. */
  lemma WriteAt(log: Log, p: nat)
    requires p < |log| && (log[p].Wrote? || log[p].WroteBack?)
    ensures WritesBefore(log, p) < |ChangesIn(log).writes|
    ensures ChangesIn(log).writes[WritesBefore(log, p)] == SectionWrite(log[p].cluster, log[p].found, log[p].value)
  {
    assert log[..p + 1] == log[..p] + [log[p]] && log[..|log|] == log;
    ChangesNext(log[..p], log[p]);
    WritesGrow(log, p + 1, |log|);
  }

  /** Every write has its event. */
  lemma {:induction false} WriteOf(log: Log, i: nat) returns (p: nat)
    requires i < |ChangesIn(log).writes|
    ensures p < |log| && (log[p].Wrote? || log[p].WroteBack?) && WritesBefore(log, p) == i
    ensures ChangesIn(log).writes[i] == SectionWrite(log[p].cluster, log[p].found, log[p].value)
  {
    var front := log[..|log| - 1];
    if i < |ChangesIn(front).writes| {
      p := WriteOf(front, i);
      assert front[..p] == log[..p];
    } else {
      p := |log| - 1;
    }
  }

  /** The restoration in the history is one of the sections on the clusters. */
  lemma RestoredOnClusters(log: Log, sightings: seq<Sighting>, c: nat, j: nat, w: nat)
    requires AnswersGiven(log, sightings) && RestoredFrom(log, c, j, w)
    ensures SectionRestored(ChangesIn(log).writes, sightings, c)
  {
    hide SameFields, ChangesIn, Clock;
    var writes, l := ChangesIn(log).writes, WritesBefore(log, w);
    WriteAt(log, w);
    forall i | l < i < |writes| ensures writes[i].cluster != c {
      var q := WriteOf(log, i);
      if q <= w {
        WritesGrow(log, q, w);
      } else {
        assert !WritesTo(log[q], c);
      }
    }
    assert Told(log[j - 1], sightings);
    assert LastTo(writes, l) && SectionRead(c, log[j].what.original) in sightings;
  }
}
