/**
 The API servers of one hub (cluster 0) and its spokes (clusters 1, 2, ...), as the
 multi-cluster environment sees them: a store of labelled objects with unique ids that other
 actors keep changing between any two calls.
 */
module Clusters {
  import opened Wrappers
  import opened Scheduler
  import Json

  const MANAGED_BY := "app.kubernetes.io/managed-by"
  const INSTANCE := "app.kubernetes.io/instance"

  datatype Kind =
    | Namespace | KueueCR | ClusterRole | ClusterRoleBinding | Role | RoleBinding | ServiceAccount
    | Secret | NetworkPolicy | ResourceFlavor | ClusterQueue | LocalQueue | AdmissionCheck
    | MultiKueueConfig | MultiKueueCluster | PipelineRun | Workload

  /** Where an object lives; `ns` is empty for cluster-scoped kinds. */
  datatype Loc = Loc(cluster: nat, kind: Kind, ns: string, name: string)

  datatype ConditionStatus = True | False | Unknown

  /**
   `version` grows with every change, `condition` is the Succeeded condition of a PipelineRun or the Finished
   one of a Workload, None when not reported, `owners` are the ids of the owner references and `content` is the
   rest of the document.
   */
  datatype Obj = Obj(uid: nat, version: nat, labels: map<string, string>, condition: Option<ConditionStatus>,
                     owners: seq<nat>, content: Json.Json)

  /** The one Kueue object of a cluster. */
  function KueueLoc(c: nat): Loc {
    Loc(c, KueueCR, "", "cluster")
  }

  function OwnedLabels(prefix: string): map<string, string> {
    map[MANAGED_BY := "release-tests-ginkgo", INSTANCE := prefix]
  }

  function Label(labels: map<string, string>, key: string): string {
    if key in labels then labels[key] else ""
  }

  predicate Owns(labels: map<string, string>, prefix: string) {
    Label(labels, MANAGED_BY) == "release-tests-ginkgo" && Label(labels, INSTANCE) == prefix
  }

  /** The labels of the run's objects, as they are written; a missing label is read as an empty one. */
  predicate Labelled(labels: map<string, string>, prefix: string) {
    && "app.kubernetes.io/managed-by" in labels && labels["app.kubernetes.io/managed-by"] == "release-tests-ginkgo"
    && (if "app.kubernetes.io/instance" in labels then labels["app.kubernetes.io/instance"] else "") == prefix
  }

  lemma OwnsIffLabelled(labels: map<string, string>, prefix: string)
    ensures Owns(labels, prefix) <==> Labelled(labels, prefix)
  {
    var name := "release-tests-ginkgo";
    assert |name| == 20;
  }

  /** What is labelled by one run is another one's exactly if they have the same prefix. */
  lemma LabelsTellRunsApart(p: string, q: string)
    ensures Labelled(OwnedLabels(p), q) <==> p == q
  {
    var a, b := "app.kubernetes.io/managed-by", "app.kubernetes.io/instance";
    assert |a| == 28 && |b| == 26;
  }

  datatype Lookup = Found(obj: Obj) | NotFound | Failed

  /** One answer the clusters gave the run: an object or its absence, a scheduler section, TaskRuns, or logs. */
  datatype Sighting =
    | Saw(loc: Loc, found: Option<Obj>)
    | SectionRead(cluster: nat, value: Scheduler)
    | TaskRunsListed(cluster: nat, count: nat)
    | LogsRead(cluster: nat, text: string)

  /** What a lookup adds to what the run has seen. */
  function Answer(loc: Loc, r: Lookup): seq<Sighting> {
    match r
    case Found(obj) => [Saw(loc, Some(obj))]
    case NotFound => [Saw(loc, None)]
    case Failed => []
  }

  /** Cleanups of these kinds poll until the object is gone; the others trust the delete. */
  predicate Waits(kind: Kind) {
    kind in {Namespace, KueueCR, ResourceFlavor, ClusterQueue, LocalQueue, AdmissionCheck, MultiKueueConfig,
             MultiKueueCluster}
  }

  /** Deleting objects of these kinds may only mark them, and finalizers end them later. */
  predicate MayLinger(kind: Kind) {
    kind in {Namespace, KueueCR, ResourceFlavor, ClusterQueue, LocalQueue, AdmissionCheck, MultiKueueConfig,
             MultiKueueCluster, PipelineRun}
  }

  /** Cleanups poll wherever a deletion may not be the end; the one of a run has its own sweep. */
  lemma LingeringIsPolled(kind: Kind)
    ensures MayLinger(kind) <==> Waits(kind) || kind.PipelineRun?
  {
  }

  /**
   A deletion the run requested, or the update that takes the subjects off a binding before it, with the object it
   hit and the id its cleanup had captured.
   */
  datatype Deletion = Deletion(loc: Loc, obj: Obj, captured: Option<nat>)

  /** An update of the run that took effect: the content it replaced and the new one. */
  datatype Replacement = Replacement(loc: Loc, found: Json.Json, doc: Json.Json)

  /** The same for the scheduler section of a cluster's TektonConfig. */
  datatype SectionWrite = SectionWrite(cluster: nat, found: Scheduler, value: Scheduler)

  /** A binding as its cleanup writes it, so that it grants nothing any more. */
  function WithoutSubjects(doc: Json.Json): Json.Json {
    if doc.Object? then Json.Object(doc.members - {"subjects"}) else doc
  }

  datatype Attempt = Done | Retry | Error

  /** The namespace object that contains `loc`. */
  function Home(loc: Loc): Loc {
    Loc(loc.cluster, Namespace, "", loc.ns)
  }

  /** Removing `outer` removes `inner`: the object itself, or a namespace and its contents. */
  predicate Within(inner: Loc, outer: Loc) {
    inner == outer || (inner.ns != "" && Home(inner) == outer)
  }

  /** The very object that was created as `made` still exists. */
  predicate Alive(live: map<Loc, Obj>, made: (Loc, nat)) {
    made.0 in live && live[made.0].uid == made.1
  }

  /** Every object the run made and that still exists has a target in `targets` that removes it. */
  ghost predicate Covered(live: map<Loc, Obj>, created: set<(Loc, nat)>, targets: set<Loc>) {
    forall made | made in created && Alive(live, made) ::
      made.0 in targets || (made.0.ns != "" && Home(made.0) in targets)
  }

  /** None of the objects the run made at or inside `loc` exists any more. */
  ghost predicate Vacated(live: map<Loc, Obj>, created: set<(Loc, nat)>, loc: Loc) {
    forall made | made in created && Within(made.0, loc) :: !Alive(live, made)
  }

  /** Ids are never reused and no object comes back from the dead, only labels and status change. */
  predicate NoResurrection(before: map<Loc, Obj>, next: nat, after: map<Loc, Obj>) {
    forall l | l in after && after[l].uid < next :: l in before && before[l].uid == after[l].uid
  }

  predicate Consistent(live: map<Loc, Obj>, next: nat) {
    forall l | l in live ::
      live[l].uid < next && (l.ns != "" ==> Home(l) in live) && (l.kind.KueueCR? ==> live[l].content.Object?)
  }

  /** An object that has changed has a later version. */
  predicate Versioned(before: map<Loc, Obj>, after: map<Loc, Obj>) {
    forall l | l in before && l in after && before[l].uid == after[l].uid ::
      before[l].version <= after[l].version && (before[l].version == after[l].version ==> before[l] == after[l])
  }

  /** The listed items are exactly the workloads of one namespace. */
  ghost predicate ListsWorkloads(live: map<Loc, Obj>, c: nat, ns: string, items: seq<(string, Obj)>) {
    && (forall i | 0 <= i < |items| ::
          Loc(c, Workload, ns, items[i].0) in live && live[Loc(c, Workload, ns, items[i].0)] == items[i].1)
    && (forall l | l in live && l == Loc(c, Workload, ns, l.name) :: (l.name, live[l]) in items)
  }

  ghost predicate Kept(before: map<Loc, Obj>, created: set<(Loc, nat)>, after: map<Loc, Obj>) {
    forall made | made in created && Alive(before, made) :: Alive(after, made)
  }

  /** An object with a new id in a free place, seen from any earlier state. */
  lemma Placed(live: map<Loc, Obj>, next: nat, loc: Loc, obj: Obj, before: map<Loc, Obj>, n: nat,
               created: set<(Loc, nat)>)
    requires Consistent(live, next) && obj.uid == next && (loc.ns != "" ==> Home(loc) in live) && loc !in live
    requires loc.kind.KueueCR? ==> obj.content.Object?
    requires n <= next && NoResurrection(before, n, live)
    ensures Consistent(live[loc := obj], next + 1) && NoResurrection(before, n, live[loc := obj])
    ensures Kept(before, created, live) ==> Kept(before, created, live[loc := obj])
  {
  }

  /** The same object with other content. */
  lemma Rewritten(live: map<Loc, Obj>, next: nat, loc: Loc, obj: Obj, before: map<Loc, Obj>, n: nat,
                  created: set<(Loc, nat)>)
    requires Consistent(live, next) && loc in live && obj.uid == live[loc].uid
    requires loc.kind.KueueCR? ==> obj.content.Object?
    requires NoResurrection(before, n, live)
    ensures Consistent(live[loc := obj], next) && NoResurrection(before, n, live[loc := obj])
    ensures Kept(before, created, live) ==> Kept(before, created, live[loc := obj])
  {
  }

  class Fleet {
    var live: map<Loc, Obj>
    var next: nat
    var scheduler: map<nat, Scheduler>
    ghost var created: set<(Loc, nat)>
    // Those of them whose create returned without an error.
    ghost var confirmed: set<(Loc, nat)>
    ghost var deletions: seq<Deletion>
    ghost var strips: seq<Deletion>
    ghost var replacements: seq<Replacement>
    ghost var sectionWrites: seq<SectionWrite>
    ghost var sightings: seq<Sighting>
    // How many calls reported an error, and how many waits ran out.
    ghost var errors: nat
    ghost var timeouts: nat
    // Set when another actor removed an object this run had made.
    ghost var disturbed: bool

    ghost predicate Valid()
      reads this
    {
      && Consistent(live, next)
      && forall made | made in created :: made.1 < next
    }

    /** Other actors do whatever the API server's identity rules allow. */
    method Interfere()
      requires Valid()
      modifies this`live, this`next, this`disturbed, this`scheduler
      ensures Valid()
      ensures old(next) <= next && NoResurrection(old(live), old(next), live) && Versioned(old(live), live)
      ensures !disturbed ==> !old(disturbed) && Kept(old(live), created, live)
    {
      var after, issued :|
        Consistent(after, issued) && next <= issued && NoResurrection(live, next, after) && Versioned(live, after);
      disturbed := disturbed || !Kept(live, created, after);
      live, next := after, issued;
      scheduler := *;
    }

    method Get(loc: Loc) returns (r: Lookup)
      requires Valid()
      modifies this`live, this`next, this`disturbed, this`scheduler, this`sightings, this`errors
      ensures Valid() && errors == old(errors) + (if r.Failed? then 1 else 0)
      ensures old(next) <= next && NoResurrection(old(live), old(next), live)
      ensures !disturbed ==> !old(disturbed) && Kept(old(live), created, live)
      ensures r.Found? ==> loc in live && r.obj == live[loc]
      ensures r.NotFound? ==> loc !in live
      ensures sightings == old(sightings) + Answer(loc, r)
    {
      Interfere();
      if * {
        errors := errors + 1;
        return Failed;
      }
      r := if loc in live then Found(live[loc]) else NotFound;
      sightings := sightings + Answer(loc, r);
    }

    /**
     A create either takes effect or not, and its caller may see an error in both cases. It is
     rejected when the name is taken or the namespace is missing.
     */
    method Create(loc: Loc, labels: map<string, string>, content: Json.Json) returns (uid: Option<nat>)
      requires Valid() && (loc.kind.KueueCR? ==> content.Object?)
      modifies this`live, this`next, this`disturbed, this`scheduler, this`created, this`confirmed, this`errors
      ensures Valid() && errors == old(errors) + (if uid.None? then 1 else 0)
      ensures confirmed == old(confirmed) + if uid.Some? then {(loc, uid.value)} else {}
      ensures old(next) <= next
      ensures old(created) <= created
      ensures forall made | made in created - old(created) :: made.0 == loc && old(next) <= made.1
      ensures NoResurrection(old(live), old(next), live)
      ensures uid.Some? ==> (loc, uid.value) in created && Alive(live, (loc, uid.value))
      ensures uid.Some? ==> loc in live && live[loc].labels == labels && live[loc].content == content
      ensures !disturbed ==> !old(disturbed) && Kept(old(live), old(created), live)
      ensures uid.Some? && !disturbed ==>
        forall made | made in old(created) && made.0 == loc :: !Alive(old(live), made)
    {
      hide Versioned, Consistent, NoResurrection;
      uid := None;
      Interfere();
      var accepted: bool := *;
      if accepted && loc !in live && (loc.ns != "" ==> Home(loc) in live) {
        var obj := Obj(next, 0, labels, None, [], content);
        Placed(live, next, loc, obj, old(live), old(next), created);
        live, created, next := live[loc := obj], created + {(loc, next)}, next + 1;
        var answered: bool := *;
        if answered {
          confirmed := confirmed + {(loc, next - 1)};
          uid := Some(next - 1);
        }
      }
      errors := errors + if uid.None? then 1 else 0;
    }

    /**
     Updates an object right after a Get that found it. It is rejected if the object has changed since,
     and the caller may see an error although the update took effect.
     */
    method Rewrite(loc: Loc, seen: Obj, content: Json.Json) returns (a: Attempt, ghost effective: bool)
      requires Valid() && loc in live && live[loc] == seen && (loc.kind.KueueCR? ==> content.Object?)
      modifies this`live, this`next, this`disturbed, this`scheduler, this`errors
      ensures Valid() && errors == old(errors) + (if a.Done? then 0 else 1)
      ensures old(next) <= next && NoResurrection(old(live), old(next), live)
      ensures !disturbed ==> !old(disturbed) && Kept(old(live), created, live)
      ensures (a.Done? ==> effective) && (a.Retry? ==> !effective)
      ensures effective ==> loc in live && live[loc] == seen.(version := seen.version + 1, content := content)
    {
      hide Consistent, NoResurrection, Kept;
      effective, a := false, Error;
      Interfere();
      if loc in live && live[loc].uid == seen.uid {
        var accepted: bool := *;
        if live[loc].version != seen.version {
          a := Retry;
        } else if accepted {
          assert live[loc] == seen;
          var obj := live[loc].(version := live[loc].version + 1, content := content);
          Rewritten(live, next, loc, obj, old(live), old(next), created);
          live, effective := live[loc := obj], true;
          var confirmed: bool := *;
          a := if confirmed then Done else Error;
        }
      }
      errors := errors + if a.Done? then 0 else 1;
    }

    method Update(loc: Loc, seen: Obj, content: Json.Json) returns (a: Attempt, ghost effective: bool)
      requires Valid() && loc in live && live[loc] == seen && (loc.kind.KueueCR? ==> content.Object?)
      modifies this`live, this`next, this`disturbed, this`scheduler, this`replacements, this`errors
      ensures Valid() && errors == old(errors) + (if a.Done? then 0 else 1)
      ensures old(next) <= next && NoResurrection(old(live), old(next), live)
      ensures !disturbed ==> !old(disturbed) && Kept(old(live), created, live)
      ensures (a.Done? ==> effective) && (a.Retry? ==> !effective)
      ensures replacements == old(replacements) + if effective then [Replacement(loc, seen.content, content)] else []
      ensures effective ==> loc in live && live[loc].content == content
    {
      hide Consistent, NoResurrection, Kept;
      a, effective := Rewrite(loc, seen, content);
      if effective {
        replacements := replacements + [Replacement(loc, seen.content, content)];
      }
    }

    /** Takes the subjects off a binding that was just found, under the same rules as any update. */
    method Strip(loc: Loc, seen: Obj, ghost captured: Option<nat>) returns (a: Attempt)
      requires Valid() && loc in live && live[loc] == seen && loc.kind.ClusterRoleBinding?
      modifies this`live, this`next, this`disturbed, this`scheduler, this`strips, this`errors
      ensures Valid() && errors == old(errors) + (if a.Done? then 0 else 1)
      ensures old(next) <= next && NoResurrection(old(live), old(next), live)
      ensures !disturbed ==> !old(disturbed) && Kept(old(live), created, live)
      ensures strips == old(strips) || strips == old(strips) + [Deletion(loc, seen, captured)]
      ensures a.Done? ==> strips == old(strips) + [Deletion(loc, seen, captured)]
      ensures a.Done? ==> loc in live && live[loc] == seen.(version := seen.version + 1,
                                                            content := WithoutSubjects(seen.content))
    {
      hide Consistent, NoResurrection, Kept;
      ghost var effective;
      a, effective := Rewrite(loc, seen, WithoutSubjects(seen.content));
      if effective {
        strips := strips + [Deletion(loc, seen, captured)];
      }
    }

    /** Reads the scheduler section of a cluster's TektonConfig. */
    method ReadSection(c: nat) returns (value: Option<Scheduler>)
      requires Valid()
      modifies this`live, this`next, this`disturbed, this`scheduler, this`sightings, this`errors
      ensures Valid() && errors == old(errors) + (if value.None? then 1 else 0)
      ensures old(next) <= next && NoResurrection(old(live), old(next), live)
      ensures !disturbed ==> !old(disturbed) && Kept(old(live), created, live)
      ensures value.Some? ==> c in scheduler && scheduler[c] == value.value
      ensures sightings == old(sightings) + (if value.Some? then [SectionRead(c, value.value)] else [])
    {
      Interfere();
      var answered: bool := *;
      if !answered || c !in scheduler {
        errors := errors + 1;
        return None;
      }
      sightings := sightings + [SectionRead(c, scheduler[c])];
      value := Some(scheduler[c]);
    }

    /** Updates a scheduler section that was just read; a lost race changes nothing. */
    method WriteSection(c: nat, value: Scheduler) returns (a: Attempt, ghost effective: bool)
      requires c in scheduler
      modifies this`scheduler, this`sectionWrites, this`errors
      ensures errors == old(errors) + (if a.Done? then 0 else 1)
      ensures (a.Done? ==> effective) && (a.Retry? ==> !effective)
      ensures scheduler == if effective then old(scheduler)[c := value] else old(scheduler)
      ensures sectionWrites == old(sectionWrites) +
              if effective then [SectionWrite(c, old(scheduler)[c], value)] else []
    {
      a := *;
      var takesEffect: bool := *;
      errors := errors + if a.Done? then 0 else 1;
      effective := a.Done? || (a.Error? && takesEffect);
      if a.Done? || (a.Error? && takesEffect) {
        sectionWrites := sectionWrites + [SectionWrite(c, scheduler[c], value)];
        scheduler := scheduler[c := value];
      }
    }

    method ListWorkloads(c: nat, ns: string) returns (items: Option<seq<(string, Obj)>>)
      requires Valid()
      modifies this`live, this`next, this`disturbed, this`scheduler, this`errors
      ensures Valid() && errors == old(errors) + (if items.None? then 1 else 0)
      ensures old(next) <= next && NoResurrection(old(live), old(next), live)
      ensures !disturbed ==> !old(disturbed) && Kept(old(live), created, live)
      ensures items.Some? ==> ListsWorkloads(live, c, ns, items.value)
    {
      Interfere();
      if * {
        errors := errors + 1;
        return None;
      }
      var todo := set l | l in live && l == Loc(c, Workload, ns, l.name);
      var list: seq<(string, Obj)> := [];
      while todo != {}
        invariant todo <= live.Keys && forall l | l in todo :: l == Loc(c, Workload, ns, l.name)
        invariant forall i | 0 <= i < |list| ::
                    Loc(c, Workload, ns, list[i].0) in live && live[Loc(c, Workload, ns, list[i].0)] == list[i].1
        invariant forall l | l in live && l == Loc(c, Workload, ns, l.name) :: l in todo || (l.name, live[l]) in list
        decreases |todo|
      {
        var l :| l in todo;
        todo, list := todo - {l}, list + [(l.name, live[l])];
      }
      items := Some(list);
    }

    /**
     Deletes right after a Get that found the object. An accepted request of a kind that may have
     finalizers can leave the object in place until another actor finishes it; the caller may see
     an error although the request was accepted.
     */
    method Delete(loc: Loc, ghost captured: Option<nat>) returns (ok: bool)
      requires Valid()
      requires loc in live
      modifies this`live, this`deletions, this`errors
      ensures Valid() && errors == old(errors) + (if ok then 0 else 1)
      ensures NoResurrection(old(live), next, live)
      ensures ok && !MayLinger(loc.kind) ==> loc !in live
      ensures deletions == old(deletions) ||
              deletions == old(deletions) + [Deletion(loc, old(live)[loc], captured)]
      ensures ok || live != old(live) ==>
              deletions == old(deletions) + [Deletion(loc, old(live)[loc], captured)]
    {
      if * {
        errors := errors + 1;
        return false;
      }
      deletions := deletions + [Deletion(loc, live[loc], captured)];
      var lingers: bool := *;
      if !MayLinger(loc.kind) || !lingers {
        live := map l | l in live && !Within(l, loc) :: live[l];
      }
      ok := *;
      errors := errors + if ok then 0 else 1;
    }

    /** The logs of the run's pods on a cluster. */
    method ReadLogs(cluster: nat) returns (text: Option<string>)
      modifies this`sightings, this`errors
      ensures errors == old(errors) + (if text.None? then 1 else 0)
      ensures sightings == old(sightings) + (if text.Some? then [LogsRead(cluster, text.value)] else [])
    {
      if * {
        errors := errors + 1;
        return None;
      }
      var logs: string := *;
      sightings := sightings + [LogsRead(cluster, logs)];
      text := Some(logs);
    }

    method ListTaskRuns(cluster: nat) returns (count: Option<nat>)
      modifies this`sightings, this`errors
      ensures errors == old(errors) + (if count.None? then 1 else 0)
      ensures sightings == old(sightings) +
              (if count.Some? then [TaskRunsListed(cluster, count.value)] else [])
    {
      if * {
        errors := errors + 1;
        return None;
      }
      var n: nat := *;
      sightings := sightings + [TaskRunsListed(cluster, n)];
      count := Some(n);
    }

    /** A wait gives up. */
    ghost method RunOut()
      modifies this`timeouts
      ensures timeouts == old(timeouts) + 1
    {
      timeouts := timeouts + 1;
    }

    /** A wait for readiness, or another check that is not modelled: it succeeds, or it does not and runs out. */
    method Check() returns (ok: bool)
      modifies this`timeouts
      ensures timeouts == old(timeouts) + (if ok then 0 else 1)
    {
      ok := *;
      if !ok {
        RunOut();
      }
    }
  }
}
