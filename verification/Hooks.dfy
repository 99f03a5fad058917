/** One namespace per Describe block: created on entry, shared, and deleted on exit unless a spec failed. */
module Hooks {
  import opened Strings
  import opened Wrappers

  /** What the hooks read of the current spec. `attempts` counts the present attempt. */
  datatype Spec = Spec(texts: seq<string>, labels: seq<seq<string>>, attempts: nat)

  const OPT_OUT := "no-auto-namespace"

  /** The key of a container; a retry gets a key of its own. */
  function PathOf(spec: Spec): string {
    var base := Join(spec.texts, " > ");
    if spec.attempts > 1 then base + " [attempt-" + Decimal(spec.attempts) + "]" else base
  }

  /** The spec lies in a container, and no container's text has a `>` or a `[` in it. */
  predicate Titled(spec: Spec) {
    spec.texts != [] && forall i | 0 <= i < |spec.texts| :: Free(spec.texts[i], '>') && Free(spec.texts[i], '[')
  }

  /** The same containers in the same attempt; what was not retried is in its first one. */
  predicate SameContainer(a: Spec, b: Spec) {
    a.texts == b.texts && (a.attempts == b.attempts || (a.attempts <= 1 && b.attempts <= 1))
  }

  /** Specs get the same key exactly when they run in the same containers and the same attempt. */
  lemma SameKeyIff(a: Spec, b: Spec)
    requires Titled(a) && Titled(b)
    ensures PathOf(a) == PathOf(b) <==> SameContainer(a, b)
  {
    if PathOf(a) == PathOf(b) {
      var x, y := Join(a.texts, " > "), Join(b.texts, " > ");
      JoinFree(a.texts);
      JoinFree(b.texts);
      hide Join;
      var p, q := PathOf(a), PathOf(b);
      assert a.attempts > 1 ==> p[|x| + 1] == '[';
      assert b.attempts > 1 ==> q[|y| + 1] == '[';
      assert (a.attempts > 1) == (b.attempts > 1);
      if a.attempts > 1 {
        assert p == x + " [attempt-" + (Decimal(a.attempts) + "]");
        assert q == y + " [attempt-" + (Decimal(b.attempts) + "]");
        SameBase(x, Decimal(a.attempts) + "]", y, Decimal(b.attempts) + "]");
        DecimalInjective(a.attempts, b.attempts);
      }
      assert x == y;
      JoinInjective(a.texts, b.texts);
    }
  }

  /** Other texts can share a key: one that looks like two, or like a retry. */
  lemma AmbiguousTexts(x: string, y: string, labels: seq<seq<string>>, attempts: nat)
    ensures PathOf(Spec([x + " > " + y], labels, attempts)) == PathOf(Spec([x, y], labels, attempts))
    ensures PathOf(Spec([x + " [attempt-" + Decimal(attempts + 2) + "]"], labels, 1)) ==
            PathOf(Spec([x], labels, attempts + 2))
  {
    hide Decimal;
    assert [x, y][1..] == [y];
    assert Join([x, y], " > ") == x + " > " + Join([y], " > ");
  }

  /** The first bracket ends the base. */
  lemma SameBase(x: string, r: string, y: string, t: string)
    requires Free(x, '[') && Free(y, '[') && x + " [attempt-" + r == y + " [attempt-" + t
    ensures x == y && r == t
  {
    var p, q := x + " [attempt-" + r, y + " [attempt-" + t;
    assert p[|x| + 1] == '[' && q[|y| + 1] == '[';
    assert |x| == |y|;
    assert p[..|x|] == x && q[..|y|] == y;
    assert p[|x| + 10..] == r && q[|y| + 10..] == t;
  }

  lemma {:induction false} JoinFree(texts: seq<string>)
    requires forall i | 0 <= i < |texts| :: Free(texts[i], '[')
    ensures Free(Join(texts, " > "), '[')
  {
    if |texts| > 1 {
      JoinFree(texts[1..]);
    }
  }

  lemma {:induction false} JoinInjective(a: seq<string>, b: seq<string>)
    requires a != [] && b != [] && Join(a, " > ") == Join(b, " > ")
    requires forall i | 0 <= i < |a| :: Free(a[i], '>')
    requires forall i | 0 <= i < |b| :: Free(b[i], '>')
    ensures a == b
  {
    var s := Join(a, " > ");
    assert |a| > 1 ==> s == a[0] + (" > " + Join(a[1..], " > ")) && s[|a[0]| + 1] == '>';
    assert |b| > 1 ==> s == b[0] + (" > " + Join(b[1..], " > ")) && s[|b[0]| + 1] == '>';
    assert (|a| > 1) == (|b| > 1);
    if |a| > 1 {
      assert |a[0]| == |b[0]|;
      assert s[..|a[0]|] == a[0] && s[..|b[0]|] == b[0];
      assert s[|a[0]| + 3..] == Join(a[1..], " > ") && s[|b[0]| + 3..] == Join(b[1..], " > ");
      JoinInjective(a[1..], b[1..]);
      assert a == [a[0]] + a[1..] && b == [b[0]] + b[1..];
    }
  }

  lemma {:induction false} DecimalInjective(n: nat, m: nat)
    requires Decimal(n) + "]" == Decimal(m) + "]"
    ensures n == m
  {
    var s, t := Decimal(n), Decimal(m);
    assert s == (s + "]")[..|s|] && t == (t + "]")[..|t|];
    assert |s + "]"| == |t + "]"|;
    assert s == t && s[|s| - 1] == t[|t| - 1];
    assert n % 10 == m % 10;
    var front, other := s[..|s| - 1], t[..|t| - 1];
    assert front == (if n < 10 then "" else Decimal(n / 10)) && other == if m < 10 then "" else Decimal(m / 10);
    if n >= 10 {
      assert |front| > 0;
      DecimalInjective(n / 10, m / 10);
    }
  }

  predicate OptsOut(spec: Spec) {
    exists i | 0 <= i < |spec.labels| :: OPT_OUT in spec.labels[i]
  }

  method FindOptOut(spec: Spec) returns (optOut: bool)
    ensures optOut <==> OptsOut(spec)
    ensures optOut <==> exists i | 0 <= i < |spec.labels| :: "no-auto-namespace" in spec.labels[i]
  {
    optOut := false;
    for i := 0 to |spec.labels|
      invariant !optOut && forall k | 0 <= k < i :: OPT_OUT !in spec.labels[k]
    {
      for l := 0 to |spec.labels[i]|
        invariant !optOut && OPT_OUT !in spec.labels[i][..l]
      {
        if spec.labels[i][l] == OPT_OUT {
          optOut := true;
          break;
        }
        assert spec.labels[i][..l + 1] == spec.labels[i][..l] + [spec.labels[i][l]];
      }
      if optOut {
        break;
      }
      assert spec.labels[i][..|spec.labels[i]|] == spec.labels[i];
    }
  }

  /** What became of the namespaces: how often each was deleted, and which were left for inspection. */
  datatype Fate = Fate(created: set<string>, deleted: multiset<string>, preserved: set<string>, failed: set<string>)

  /** Preserved if a spec failed while it was in use, otherwise deleted exactly once. */
  ghost predicate Settled(fate: Fate, ns: string) {
    if ns in fate.failed then ns in fate.preserved && fate.deleted[ns] == 0
    else ns !in fate.preserved && fate.deleted[ns] == 1
  }

  ghost predicate Untouched(fate: Fate, ns: string) {
    ns in fate.created && ns !in fate.preserved && fate.deleted[ns] == 0
  }

  function Lookup(m: map<string, bool>, k: string): bool {
    if k in m then m[k] else false
  }

  ghost predicate Consistent(spaces: map<string, string>, failed: map<string, bool>, fate: Fate) {
    && (forall k | k in spaces :: Untouched(fate, spaces[k]) && (Lookup(failed, k) <==> spaces[k] in fate.failed))
    && (forall k, l | k in spaces && l in spaces && k != l :: spaces[k] != spaces[l])
    && (forall ns | ns in fate.created && ns !in spaces.Values :: Settled(fate, ns))
    && fate.preserved <= fate.created && fate.failed <= fate.created
    && (forall ns | ns in fate.deleted :: ns in fate.created)
  }

  /** The fate of a namespace that is given up. */
  ghost function GiveUp(fate: Fate, ns: string, failed: bool): Fate {
    if failed then fate.(preserved := fate.preserved + {ns}) else fate.(deleted := fate.deleted + multiset{ns})
  }

  /** Every key is the last container's, or the empty one if a spec without text ran. */
  ghost predicate Current(spaces: map<string, string>, last: string, untitled: bool) {
    forall k | k in spaces :: if k == "" then untitled else k == last
  }

  class NamespaceManager {
    var containerToNS: map<string, string>
    var containerFailed: map<string, bool>
    var lastContainerPath: string
    // The suite's namespace variable and the store's, which the helpers read.
    var pointer: string
    var stored: string
    ghost var fate: Fate
    // A spec without any container text ran; leaving such a container goes unnoticed.
    ghost var untitled: bool

    constructor ()
      ensures Valid() && fate == Fate({}, multiset{}, {}, {}) && containerToNS == map[] && !untitled
    {
      untitled := false;
      containerToNS, containerFailed, lastContainerPath, pointer, stored := map[], map[], "", "", "";
      fate := Fate({}, multiset{}, {}, {});
    }

    /** Between two specs only the last container holds a namespace, or one without any text if there was one. */
    ghost predicate Valid()
      reads this
    {
      && Consistent(containerToNS, containerFailed, fate)
      && Current(containerToNS, lastContainerPath, untitled)
    }

    /** Gives up the namespace of the container that was left, if it has one. */
    method LeaveContainer()
      requires Valid() && lastContainerPath != ""
      modifies this`containerToNS, this`containerFailed, this`fate
      ensures Consistent(containerToNS, containerFailed, fate)
      ensures containerToNS == old(containerToNS) - {lastContainerPath}
      ensures fate.created == old(fate.created) && fate.failed == old(fate.failed)
    {
      if lastContainerPath !in containerToNS {
        assert containerToNS == containerToNS - {lastContainerPath};
      } else {
        var ns := containerToNS[lastContainerPath];
        var failed := Lookup(containerFailed, lastContainerPath);
        GiveUpKeeps(containerToNS, containerFailed, fate, lastContainerPath);
        fate := GiveUp(fate, ns, failed);
        containerToNS := containerToNS - {lastContainerPath};
        containerFailed := containerFailed - {lastContainerPath};
      }
    }

    method EnterContainer(path: string, name: string)
      requires Consistent(containerToNS, containerFailed, fate) && path !in containerToNS && name !in fate.created
      modifies this`containerToNS, this`containerFailed, this`fate
      ensures Consistent(containerToNS, containerFailed, fate) && containerToNS == old(containerToNS)[path := name]
      ensures fate == old(fate).(created := old(fate.created) + {name})
    {
      EnterKeeps(containerToNS, containerFailed, fate, path, name);
      containerToNS := containerToNS[path := name];
      containerFailed := containerFailed[path := false];
      fate := fate.(created := fate.created + {name});
    }

    /**
     Runs before every spec. `name` is the generated namespace name; `clientsReady` is false when the
     suite's clients are missing, which fails the spec. A spec that does not opt out finds a namespace
     that exists, under both names the helpers use.
     */
    method BeforeEach(spec: Spec, name: string, clientsReady: bool) returns (ok: bool)
      requires Valid() && name !in fate.created
      modifies this
      ensures Valid() && untitled == (old(untitled) || PathOf(spec) == "")
      ensures ok ==> lastContainerPath == PathOf(spec)
      ensures clientsReady || OptsOut(spec) ==> ok
      ensures forall k | k in containerToNS ::
                (k in old(containerToNS) && containerToNS[k] == old(containerToNS)[k]) ||
                (k == PathOf(spec) && containerToNS[k] == name)
      ensures ok && !OptsOut(spec) ==>
        && pointer == stored && PathOf(spec) in containerToNS && containerToNS[PathOf(spec)] == pointer
        && Untouched(fate, pointer)
      ensures PathOf(spec) in old(containerToNS) ==>
                PathOf(spec) in containerToNS && containerToNS[PathOf(spec)] == old(containerToNS)[PathOf(spec)]
      ensures old(fate.created) <= fate.created <= old(fate.created) + {name}
      ensures fate.failed == old(fate.failed)
    {
      hide PathOf, OptsOut, Consistent, Untouched;
      var path := PathOf(spec);
      untitled := untitled || path == "";
      if lastContainerPath != "" && lastContainerPath != path {
        LeaveContainer();
      }
      var optOut := FindOptOut(spec);
      if optOut {
        lastContainerPath := path;
        return true;
      }
      if path !in containerToNS {
        if !clientsReady {
          return false;
        }
        EnterContainer(path, name);
      }
      InUse(containerToNS, containerFailed, fate, path);
      lastContainerPath := path;
      pointer := containerToNS[path];
      stored := containerToNS[path];
      ok := true;
    }

    /** Runs after every spec and remembers a failure under the container's key. */
    method AfterEach(spec: Spec, failed: bool)
      requires Valid()
      modifies this`containerFailed, this`fate
      ensures Valid()
      ensures fate == if failed then NoteFailure(old(fate), containerToNS, PathOf(spec)) else old(fate)
    {
      hide PathOf;
      if failed {
        var path := PathOf(spec);
        FailKeeps(containerToNS, containerFailed, fate, path);
        containerFailed := containerFailed[path := true];
        fate := NoteFailure(fate, containerToNS, path);
      }
    }

    /** Runs once after the suite and settles what is left. */
    method CleanupNamespaces()
      requires Valid()
      modifies this`fate
      ensures forall ns | ns in fate.created :: Settled(fate, ns)
      ensures fate.created == old(fate.created) && fate.failed == old(fate.failed)
    {
      var spaces, failed := containerToNS, containerFailed;
      while spaces != map[]
        invariant Consistent(spaces, failed, fate)
        invariant fate.created == old(fate.created) && fate.failed == old(fate.failed)
        decreases |spaces|
      {
        var path :| path in spaces;
        GiveUpKeeps(spaces, failed, fate, path);
        fate := GiveUp(fate, spaces[path], Lookup(failed, path));
        assert (spaces - {path}).Keys == spaces.Keys - {path};
        spaces, failed := spaces - {path}, failed - {path};
      }
    }
  }

  /** One spec of a run: what the hooks see of it, how it ends, and the name generated for it. */
  datatype Step = Step(spec: Spec, failed: bool, name: string, clientsReady: bool)

  /** What an AfterEach finds: the namespace its container has, and whether the spec failed. */
  datatype Report = Report(inUse: Option<string>, failed: bool)

  ghost function Blamed(reports: seq<Report>): set<string> {
    set r | r in reports && r.failed && r.inUse.Some? :: r.inUse.value
  }

  /** The namespace was created for the container of spec `i`, by that spec or an earlier one of the container. */
  ghost predicate MadeFor(steps: seq<Step>, i: nat, ns: string) {
    exists k | 0 <= k <= i < |steps| :: steps[k].name == ns && PathOf(steps[k].spec) == PathOf(steps[i].spec)
  }

  /** A namespace in the map was created by an earlier spec of the container it stands for. */
  ghost predicate Sourced(steps: seq<Step>, n: nat, spaces: map<string, string>) {
    forall path | path in spaces ::
      exists k | 0 <= k < n && n <= |steps| :: steps[k].name == spaces[path] && PathOf(steps[k].spec) == path
  }

  /**
   A whole suite run ended by one cleanup. Every spec that does not opt out and has clients uses a namespace
   that was created for its container; every namespace that was created is either deleted exactly once or
   preserved, and preserved exactly if an AfterEach reported a failure while it was in use.
   */
  method RunSuite(manager: NamespaceManager, steps: seq<Step>) returns (ghost reports: seq<Report>)
    requires manager.Valid() && manager.fate == Fate({}, multiset{}, {}, {}) && manager.containerToNS == map[]
    requires forall i, j | 0 <= i < j < |steps| :: steps[i].name != steps[j].name
    modifies manager
    ensures Reported(steps, |steps|, reports, manager.fate.created)
    ensures Separate(steps, reports) && Shared(steps, reports)
    ensures manager.fate.failed == Blamed(reports)
    ensures forall ns | ns in manager.fate.created ::
              if ns in Blamed(reports) then ns in manager.fate.preserved && manager.fate.deleted[ns] == 0
              else ns !in manager.fate.preserved && manager.fate.deleted[ns] == 1
  {
    reports := [];
    assert Blamed(reports) == {};
    hide Consistent, Blamed, PathOf, OptsOut, MadeFor, Sourced, Reported, Separate, SameContainer, Titled;
    assert Reported(steps, 0, [], {}) by { NothingReported(steps); }
    assert Sourced(steps, 0, manager.containerToNS) by { NothingSourced(steps); }
    for i := 0 to |steps|
      invariant manager.Valid()
      invariant Reported(steps, i, reports, manager.fate.created)
      invariant manager.fate.failed == Blamed(reports)
      invariant Sourced(steps, i, manager.containerToNS)
      invariant i > 0 ==> reports[i - 1].inUse == Get(manager.containerToNS, PathOf(steps[i - 1].spec))
      invariant Shared(steps, reports)
    {
      ghost var spaces, created := manager.containerToNS, manager.fate.created;
      FreshName(steps, i, reports, created);
      ghost var report := RunSpec(manager, steps[i]);
      BlamedStep(reports, report);
      SourcedStep(steps, i, spaces, manager.containerToNS);
      ReportedStep(steps, i, reports, created, report, manager.fate.created);
      SharedStep(steps, i, reports, report, spaces);
      reports := reports + [report];
    }
    NeverShared(steps, reports, manager.fate.created);
    manager.CleanupNamespaces();
  }

  /**
   Every spec was reported on, as failed if it failed, and otherwise only if its clients were missing. Whoever does
   not opt out and has clients uses a namespace;
   all namespaces in use were created for the container they were used in, under names generated for specs.
   */
  ghost predicate Reported(steps: seq<Step>, n: nat, reports: seq<Report>, created: set<string>) {
    && n <= |steps| && |reports| == n
    && (forall i | 0 <= i < n && steps[i].failed :: reports[i].failed)
    && (forall i | 0 <= i < n && reports[i].failed :: steps[i].failed || !steps[i].clientsReady)
    && (forall i | 0 <= i < n && steps[i].clientsReady && !OptsOut(steps[i].spec) :: reports[i].inUse.Some?)
    && (forall i | 0 <= i < n && reports[i].inUse.Some? ::
          reports[i].inUse.value in created && MadeFor(steps, i, reports[i].inUse.value))
    && (forall ns | ns in created :: exists i | 0 <= i < n :: steps[i].name == ns)
  }

  /** Specs of different containers, or of different attempts at one, never use the same namespace ... */
  ghost predicate Separate(steps: seq<Step>, reports: seq<Report>) {
    |reports| == |steps| &&
    forall i, j | 0 <= i < j < |steps| && reports[i].inUse.Some? && reports[j].inUse.Some? &&
                  Titled(steps[i].spec) && Titled(steps[j].spec) && !SameContainer(steps[i].spec, steps[j].spec) ::
      reports[i].inUse.value != reports[j].inUse.value
  }

  /** ... and two that follow each other in one container use the same. */
  ghost predicate Shared(steps: seq<Step>, reports: seq<Report>) {
    |reports| <= |steps| &&
    forall i | 0 <= i < |reports| - 1 && reports[i].inUse.Some? && SameContainer(steps[i].spec, steps[i + 1].spec) ::
      reports[i + 1].inUse == reports[i].inUse
  }

  lemma NeverShared(steps: seq<Step>, reports: seq<Report>, created: set<string>)
    requires Reported(steps, |steps|, reports, created)
    requires forall i, j | 0 <= i < j < |steps| :: steps[i].name != steps[j].name
    ensures Separate(steps, reports)
  {
    hide OptsOut, PathOf, Titled, SameContainer;
    forall i, j | 0 <= i < j < |steps| && reports[i].inUse.Some? && reports[j].inUse.Some? &&
                  Titled(steps[i].spec) && Titled(steps[j].spec) && !SameContainer(steps[i].spec, steps[j].spec)
      ensures reports[i].inUse.value != reports[j].inUse.value
    {
      SameKeyIff(steps[i].spec, steps[j].spec);
      var k :| 0 <= k <= i && steps[k].name == reports[i].inUse.value && PathOf(steps[k].spec) == PathOf(steps[i].spec);
      var l :| 0 <= l <= j && steps[l].name == reports[j].inUse.value && PathOf(steps[l].spec) == PathOf(steps[j].spec);
      assert k != l;
    }
  }

  /** Specs of one container have one key, whatever their texts. */
  lemma SameContainerSameKey(a: Spec, b: Spec)
    requires SameContainer(a, b)
    ensures PathOf(a) == PathOf(b)
  {
  }

  lemma SharedStep(steps: seq<Step>, i: nat, reports: seq<Report>, r: Report, spaces: map<string, string>)
    requires i < |steps| && |reports| == i && Shared(steps, reports)
    requires i > 0 ==> reports[i - 1].inUse == Get(spaces, PathOf(steps[i - 1].spec))
    requires PathOf(steps[i].spec) in spaces ==> r.inUse == Some(spaces[PathOf(steps[i].spec)])
    ensures Shared(steps, reports + [r])
  {
    hide PathOf, SameContainer;
    if i > 0 && SameContainer(steps[i - 1].spec, steps[i].spec) {
      SameContainerSameKey(steps[i - 1].spec, steps[i].spec);
    }
  }

  lemma NothingReported(steps: seq<Step>)
    ensures Reported(steps, 0, [], {})
  {
  }

  lemma FreshName(steps: seq<Step>, n: nat, reports: seq<Report>, created: set<string>)
    requires Reported(steps, n, reports, created) && n < |steps|
    requires forall i, j | 0 <= i < j < |steps| :: steps[i].name != steps[j].name
    ensures steps[n].name !in created
  {
    hide OptsOut, MadeFor;
  }

  lemma ReportedStep(steps: seq<Step>, n: nat, reports: seq<Report>, created: set<string>, r: Report,
      created': set<string>)
    requires Reported(steps, n, reports, created) && n < |steps| && created <= created' <= created + {steps[n].name}
    requires (steps[n].failed ==> r.failed) && (r.failed ==> steps[n].failed || !steps[n].clientsReady)
    requires steps[n].clientsReady && !OptsOut(steps[n].spec) ==> r.inUse.Some?
    requires r.inUse.Some? ==> r.inUse.value in created' && MadeFor(steps, n, r.inUse.value)
    ensures Reported(steps, n + 1, reports + [r], created')
  {
    hide OptsOut, MadeFor;
    forall ns | ns in created' ensures exists i | 0 <= i < n + 1 :: steps[i].name == ns {
      if ns in created {
        var i :| 0 <= i < n && steps[i].name == ns;
      }
    }
  }

  lemma NothingSourced(steps: seq<Step>)
    ensures Sourced(steps, 0, map[])
  {
  }

  lemma SourcedStep(steps: seq<Step>, i: nat, before: map<string, string>, after: map<string, string>)
    requires i < |steps| && Sourced(steps, i, before)
    requires forall k | k in after ::
               (k in before && after[k] == before[k]) || (k == PathOf(steps[i].spec) && after[k] == steps[i].name)
    ensures Sourced(steps, i + 1, after)
    ensures PathOf(steps[i].spec) in after ==> MadeFor(steps, i, after[PathOf(steps[i].spec)])
  {
    hide PathOf;
    forall path | path in after
      ensures exists k | 0 <= k < i + 1 :: steps[k].name == after[path] && PathOf(steps[k].spec) == path
    {
      if path in before && after[path] == before[path] {
        var k :| 0 <= k < i && steps[k].name == before[path] && PathOf(steps[k].spec) == path;
      }
    }
  }

  /** One spec between its two hooks; a BeforeEach that fails makes the spec fail. */
  method RunSpec(manager: NamespaceManager, step: Step) returns (ghost report: Report)
    requires manager.Valid() && step.name !in manager.fate.created
    modifies manager
    ensures manager.Valid()
    ensures old(manager.fate.created) <= manager.fate.created <= old(manager.fate.created) + {step.name}
    ensures (step.failed ==> report.failed) && (report.failed ==> step.failed || !step.clientsReady)
    ensures report.inUse == Get(manager.containerToNS, PathOf(step.spec))
    ensures PathOf(step.spec) in old(manager.containerToNS) ==>
              report.inUse == Some(old(manager.containerToNS)[PathOf(step.spec)])
    ensures report.inUse.Some? ==> report.inUse.value in manager.fate.created
    ensures step.clientsReady && !OptsOut(step.spec) ==> report.inUse.Some?
    ensures forall k | k in manager.containerToNS ::
              (k in old(manager.containerToNS) && manager.containerToNS[k] == old(manager.containerToNS)[k]) ||
              (k == PathOf(step.spec) && manager.containerToNS[k] == step.name)
    ensures manager.fate.failed ==
            old(manager.fate.failed) + if report.failed && report.inUse.Some? then {report.inUse.value} else {}
  {
    hide Consistent, PathOf, OptsOut;
    var ok := manager.BeforeEach(step.spec, step.name, step.clientsReady);
    manager.AfterEach(step.spec, step.failed || !ok);
    report := Report(Get(manager.containerToNS, PathOf(step.spec)), step.failed || !ok);
    if report.inUse.Some? {
      InUse(manager.containerToNS, manager.containerFailed, manager.fate, PathOf(step.spec));
    }
  }

  function Get(spaces: map<string, string>, path: string): Option<string> {
    if path in spaces then Some(spaces[path]) else None
  }

  lemma BlamedStep(reports: seq<Report>, r: Report)
    ensures Blamed(reports + [r]) == Blamed(reports) + if r.failed && r.inUse.Some? then {r.inUse.value} else {}
  {
    assert forall x | x in reports :: x in reports + [r];
    assert r in reports + [r];
  }

  lemma InUse(spaces: map<string, string>, failed: map<string, bool>, fate: Fate, k: string)
    requires Consistent(spaces, failed, fate) && k in spaces
    ensures Untouched(fate, spaces[k])
  {
  }

  lemma GiveUpKeeps(spaces: map<string, string>, failed: map<string, bool>, fate: Fate, k: string)
    requires Consistent(spaces, failed, fate) && k in spaces
    ensures Consistent(spaces - {k}, failed - {k}, GiveUp(fate, spaces[k], Lookup(failed, k)))
  {
    var ns := spaces[k];
    var after := GiveUp(fate, ns, Lookup(failed, k));
    var rest := spaces - {k};
    forall l | l in rest ensures Untouched(after, rest[l]) && (Lookup(failed - {k}, l) <==> rest[l] in after.failed) {
      assert Lookup(failed, l) == Lookup(failed - {k}, l) && spaces[l] != ns;
    }
    forall x | x in after.created && x !in rest.Values ensures Settled(after, x) {
      if x != ns {
        assert x !in spaces.Values by {
          assert forall l | l in spaces && l != k :: rest[l] == spaces[l];
        }
        assert Settled(fate, x);
      }
    }
  }

  lemma EnterKeeps(spaces: map<string, string>, failed: map<string, bool>, fate: Fate, k: string, ns: string)
    requires Consistent(spaces, failed, fate) && k !in spaces && ns !in fate.created
    ensures Consistent(spaces[k := ns], failed[k := false], fate.(created := fate.created + {ns}))
  {
    var after := fate.(created := fate.created + {ns});
    assert fate.deleted[ns] == 0;
    var more := spaces[k := ns];
    forall l | l in more ensures Untouched(after, more[l]) &&
        (Lookup(failed[k := false], l) <==> more[l] in after.failed) {
      assert l != k ==> l in spaces && more[l] == spaces[l];
    }
    forall x | x in after.created && x !in more.Values ensures Settled(after, x) {
      assert more[k] == ns;
      assert x !in spaces.Values by {
        assert forall l | l in spaces :: more[l] == spaces[l];
      }
      assert Settled(fate, x);
    }
  }

  lemma FailKeeps(spaces: map<string, string>, failed: map<string, bool>, fate: Fate, k: string)
    requires Consistent(spaces, failed, fate)
    ensures Consistent(spaces, failed[k := true], NoteFailure(fate, spaces, k))
  {
    forall ns | ns in fate.created && ns !in spaces.Values ensures Settled(NoteFailure(fate, spaces, k), ns) {
      assert k in spaces ==> spaces[k] in spaces.Values;
    }
  }

  /** A failure counts against the namespace its container has at that time. */
  ghost function NoteFailure(fate: Fate, spaces: map<string, string>, path: string): Fate {
    if path in spaces then fate.(failed := fate.failed + {spaces[path]}) else fate
  }
}
