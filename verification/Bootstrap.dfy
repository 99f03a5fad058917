/** Installing operator prerequisites through OLM: every step only adds what is missing. */
module Bootstrap {
  import opened Wrappers

  type Key = (string, string)

  /** A Subscription as far as it matters: its package, None without a spec, and its installed CSV. */
  datatype Subscription = Subscription(package: Option<string>, installed: string)

  datatype Phase = Succeeded | Failed | Other

  datatype Prerequisite = Prerequisite(package: string, namespace: string)

  datatype Poll = Done | Again | Error

  /** What a read found: the Subscription or none, and the phase of a CSV or none. */
  datatype Answer = SubscriptionRead(key: Key, sub: Option<Subscription>) | PhaseRead(csv: Key, phase: Option<Phase>)

  /** The Subscriptions for a package, in any namespace. */
  function Matches(subs: map<Key, Subscription>, package: string): set<Key> {
    set k | k in subs && subs[k].package == Some(package)
  }

  function GroupsIn(groups: set<Key>, namespace: string): set<Key> {
    set g | g in groups && g.0 == namespace
  }

  /** OLM updates status but neither adds, removes nor repurposes Subscriptions. */
  predicate OnlyStatus(subs: map<Key, Subscription>, subs': map<Key, Subscription>) {
    subs'.Keys == subs.Keys && forall k | k in subs :: subs'[k].package == subs[k].package
  }

  /** A package without any Subscription may get one; every other package keeps exactly what it has. */
  ghost predicate SubscriptionsGrew(subs: map<Key, Subscription>, subs': map<Key, Subscription>) {
    && subs.Keys <= subs'.Keys
    && (forall k | k in subs :: subs'[k].package == subs[k].package)
    && forall q :: KeptOrFirst(Matches(subs, q), Matches(subs', q))
  }

  predicate KeptOrFirst(before: set<Key>, after: set<Key>) {
    before == after || (before == {} && exists k | k in after :: after == {k})
  }

  /** A namespace without any OperatorGroup may get one; every other keeps exactly what it has. */
  ghost predicate GroupsGrew(groups: set<Key>, groups': set<Key>) {
    groups <= groups' && forall n :: KeptOrFirst(GroupsIn(groups, n), GroupsIn(groups', n))
  }

  function NamespacesOf(prerequisites: seq<Prerequisite>): set<string> {
    set p | p in prerequisites :: p.namespace
  }

  function GroupsOf(prerequisites: seq<Prerequisite>): set<Key> {
    set p | p in prerequisites :: (p.namespace, p.namespace)
  }

  function SubscriptionsOf(prerequisites: seq<Prerequisite>): set<Key> {
    set p | p in prerequisites :: (p.namespace, p.package)
  }

  class Cluster {
    var namespaces: set<string>
    var groups: set<Key>
    var subs: map<Key, Subscription>
    var phases: map<Key, Phase>
    // What the cluster answered, in order.
    ghost var seen: seq<Answer>
    // How many calls reported an error, and how many waits ran out.
    ghost var errors: nat
    ghost var timeouts: nat

    twostate predicate Grew()
      reads this
    {
      && old(namespaces) <= namespaces && old(seen) <= seen
      && old(errors) <= errors && old(timeouts) <= timeouts
      && GroupsGrew(old(groups), groups) && SubscriptionsGrew(old(subs), subs)
    }

    /** What was added is at most what these prerequisites call for. */
    twostate predicate AddedFor(prerequisites: seq<Prerequisite>)
      reads this
    {
      && namespaces <= old(namespaces) + NamespacesOf(prerequisites)
      && groups <= old(groups) + GroupsOf(prerequisites)
      && subs.Keys <= old(subs).Keys + SubscriptionsOf(prerequisites)
    }

    /** A call reported an error, a wait ran out, or a CSV was read as failed. */
    twostate predicate Hampered()
      reads this
    {
      old(errors) < errors || old(timeouts) < timeouts || FailedSince(seen, |old(seen)|)
    }

    twostate predicate NothingAdded()
      reads this
    {
      namespaces == old(namespaces) && groups == old(groups) && OnlyStatus(old(subs), subs) && old(seen) <= seen
    }

    /** OLM's controllers make progress, in whichever direction. */
    method Reconcile()
      modifies this`subs, this`phases
      ensures OnlyStatus(old(subs), subs)
    {
      assert OnlyStatus(subs, subs);
      var updated :| OnlyStatus(subs, updated);
      subs := updated;
      phases := *;
    }

    /** The answer of a call that may fail. */
    method Call() returns (ok: bool)
      modifies this`errors
      ensures errors == old(errors) + (if ok then 0 else 1)
    {
      ok := *;
      errors := errors + if ok then 0 else 1;
    }

    ghost method RunOut()
      modifies this`timeouts
      ensures timeouts == old(timeouts) + 1
    {
      timeouts := timeouts + 1;
    }

    method EnsureNamespace(namespace: string) returns (ok: bool)
      modifies this`namespaces, this`errors
      ensures old(namespaces) <= namespaces <= old(namespaces) + {namespace}
      ensures ok ==> namespace in namespaces
      ensures ok <==> errors == old(errors)
      ensures old(errors) <= errors
    {
      var reachable := Call();
      if !reachable {
        return false;
      }
      if namespace in namespaces {
        return true;
      }
      var effective: bool := *;
      var confirmed := Call();
      if effective || confirmed {
        namespaces := namespaces + {namespace};
      }
      ok := confirmed;
    }

    method EnsureOperatorGroup(namespace: string) returns (ok: bool)
      modifies this`namespaces, this`groups, this`errors
      ensures old(namespaces) <= namespaces <= old(namespaces) + {namespace}
      ensures GroupsGrew(old(groups), groups) && groups <= old(groups) + {(namespace, namespace)}
      ensures ok ==> namespace in namespaces && |GroupsIn(groups, namespace)| == 1
      ensures old(errors) <= errors
      ensures !ok ==> old(errors) < errors || TwoGroups(groups, namespace)
      ensures ok ==> OnlyGroup(groups, namespace)
    {
      ok := EnsureNamespace(namespace);
      if !ok {
        return;
      }
      ok := Call();
      if !ok {
        return;
      }
      var found := GroupsIn(groups, namespace);
      if |found| > 1 {
        ManyGroups(groups, namespace);
        return false;
      }
      if |found| == 1 {
        OneGroup(groups, namespace);
        return true;
      }
      var effective: bool := *;
      var confirmed := Call();
      if effective || confirmed {
        FirstGroup(groups, namespace);
        OneGroup(groups + {(namespace, namespace)}, namespace);
        groups := groups + {(namespace, namespace)};
      }
      ok := confirmed;
    }

    /** Reads a Subscription, whatever OLM has made of it by then; None is an error of the call. */
    method GetSubscription(key: Key) returns (r: Option<Option<Subscription>>)
      modifies this`subs, this`phases, this`seen, this`errors
      ensures OnlyStatus(old(subs), subs)
      ensures seen == old(seen) + if r.Some? then [SubscriptionRead(key, r.value)] else []
      ensures r.Some? ==> r.value == if key in subs then Some(subs[key]) else None
      ensures errors == old(errors) + (if r.Some? then 0 else 1)
    {
      Reconcile();
      var answered := Call();
      if !answered {
        return None;
      }
      r := Some(if key in subs then Some(subs[key]) else None);
      seen := seen + [SubscriptionRead(key, r.value)];
    }

    method GetPhase(csv: Key) returns (r: Option<Option<Phase>>)
      modifies this`subs, this`phases, this`seen, this`errors
      ensures OnlyStatus(old(subs), subs)
      ensures seen == old(seen) + if r.Some? then [PhaseRead(csv, r.value)] else []
      ensures r.Some? ==> r.value == if csv in phases then Some(phases[csv]) else None
      ensures errors == old(errors) + (if r.Some? then 0 else 1)
    {
      Reconcile();
      var answered := Call();
      if !answered {
        return None;
      }
      r := Some(if csv in phases then Some(phases[csv]) else None);
      seen := seen + [PhaseRead(csv, r.value)];
    }

    /** One poll of the wait for a Subscription's installed CSV. */
    method PollOperator(key: Key) returns (p: Poll)
      modifies this`subs, this`phases, this`seen, this`errors
      ensures OnlyStatus(old(subs), subs) && old(seen) <= seen
      ensures p.Done? ==> SucceededAt(seen, |old(seen)|, key)
      ensures old(errors) <= errors
      ensures p.Error? ==> old(errors) < errors || FailedSince(seen, |old(seen)|)
      ensures p.Again? ==> errors == old(errors) && Unfinished(seen, |old(seen)|, key)
    {
      var found := GetSubscription(key);
      if found.None? {
        return Error;
      }
      if found.value.None? || found.value.value.installed == "" {
        return Again;
      }
      var phase := GetPhase((key.0, found.value.value.installed));
      if phase.None? {
        return Error;
      }
      match phase.value {
        case None => p := Again;
        case Some(Succeeded) => p := Done;
        case Some(Failed) =>
          assert FailedAt(seen, |old(seen)|);
          p := Error;
        case Some(Other) => p := Again;
      }
    }

    method WaitForOperator(key: Key) returns (ok: bool)
      modifies this`subs, this`phases, this`seen, this`errors, this`timeouts
      ensures OnlyStatus(old(subs), subs) && old(seen) <= seen
      ensures ok ==> SeenSince(seen, |old(seen)|, key)
      ensures old(errors) <= errors && old(timeouts) <= timeouts
      ensures !ok ==> Hampered()
    {
      var budget: nat := *;
      while budget > 0
        invariant OnlyStatus(old(subs), subs) && old(seen) <= seen && old(errors) <= errors && old(timeouts) == timeouts
      {
        ghost var start := |seen|;
        var p := PollOperator(key);
        if !p.Again? {
          assert p.Done? ==> SucceededAt(seen, start, key);
          return p.Done?;
        }
        budget := budget - 1;
      }
      RunOut();
      ok := false;
    }

    /** Creates the Subscription for a package that has none. */
    method Subscribe(package: string, namespace: string) returns (ok: bool)
      requires Matches(subs, package) == {}
      modifies this`namespaces, this`groups, this`subs, this`errors
      ensures old(namespaces) <= namespaces && GroupsGrew(old(groups), groups) && SubscriptionsGrew(old(subs), subs)
      ensures AddedFor([Prerequisite(package, namespace)])
      ensures ok ==> Matches(subs, package) == {(namespace, package)}
      ensures ok ==> namespace in namespaces && |GroupsIn(groups, namespace)| == 1
      ensures old(errors) <= errors
      ensures !ok ==> old(errors) < errors || Obstructed(groups, subs, Prerequisite(package, namespace))
    {
      assert Prerequisite(package, namespace) in [Prerequisite(package, namespace)];
      ok := EnsureOperatorGroup(namespace);
      if !ok {
        return;
      }
      var key := (namespace, package);
      if key in subs {
        // The name is taken by a Subscription for another package, or one without a spec.
        assert key !in Matches(subs, package);
        return false;
      }
      var effective: bool := *;
      var confirmed := Call();
      if effective || confirmed {
        FirstSubscription(subs, key, package);
        subs := subs[key := Subscription(Some(package), "")];
      }
      ok := confirmed;
    }

    /** Reuses the package's Subscription, or creates it, and waits for its CSV. */
    method EnsureOperator(package: string, namespace: string) returns (ok: bool)
      modifies this
      ensures Grew() && AddedFor([Prerequisite(package, namespace)])
      ensures ok ==> Ready(subs, seen, |old(seen)|, package)
      ensures old(Matches(subs, package)) != {} ==> NothingAdded()
      ensures !ok ==> Hampered() || Obstructed(groups, subs, Prerequisite(package, namespace))
      ensures ok ==> exists key :: OnlySubscription(subs, package, key)
    {
      hide GroupsGrew, SubscriptionsGrew, Obstructed, FailedSince;
      GrewRefl(groups, subs);
      var listed := Call();
      var matches := Matches(subs, package);
      if |matches| > 1 {
        ManySubscriptions(groups, subs, Prerequisite(package, namespace));
      }
      if !listed || |matches| > 1 {
        return false;
      }
      var key := (namespace, package);
      if |matches| == 1 {
        key :| key in matches;
      } else {
        ok := Subscribe(package, namespace);
        if !ok {
          return;
        }
      }
      ghost var before := subs;
      ok := WaitForOperator(key);
      StatusGrew(old(subs), before, subs);
      SameMatches(before, subs, package);
      if ok {
        Only(Matches(before, package), key);
        assert Matches(subs, package) == {key};
        OneSubscription(subs, package, key);
      }
    }

    /**
     Only ever adds: at most one Subscription per package and only where no namespace had one, at most
     one OperatorGroup and only where there was none. Success means that every package's installed CSV
     was seen Succeeded, and leaves a state in which running it again adds nothing.
     */
    method EnsurePrerequisites(prerequisites: seq<Prerequisite>, waitForAPI: bool) returns (ok: bool)
      modifies this
      ensures Grew() && AddedFor(prerequisites)
      ensures ok ==> AllReady(subs, seen, |old(seen)|, prerequisites)
      ensures old(Installed(subs, prerequisites)) ==> NothingAdded()
      ensures !ok ==>
                Hampered() || exists i | 0 <= i < |prerequisites| :: Obstructed(groups, subs, prerequisites[i])
    {
      hide GroupsGrew, SubscriptionsGrew, NamespacesOf, GroupsOf, SubscriptionsOf, Ready;
      GrewRefl(groups, subs);
      for i := 0 to |prerequisites|
        invariant Grew() && AddedFor(prerequisites[..i])
        invariant AllReady(subs, seen, |old(seen)|, prerequisites[..i])
        invariant old(Installed(subs, prerequisites)) ==> NothingAdded()
      {
        var p := prerequisites[i];
        ghost var groups0, subs0, seen0 := groups, subs, seen;
        if old(Installed(subs, prerequisites)) {
          SameMatches(old(subs), subs, p.package);
        }
        ok := EnsureOperator(p.package, p.namespace);
        GrewTrans(old(groups), old(subs), groups0, subs0, groups, subs);
        OneMore(prerequisites, i);
        if !ok {
          return;
        }
        AllReadyStays(subs0, seen0, subs, seen, |old(seen)|, prerequisites[..i]);
        ReadyEarlier(subs, seen, |old(seen)|, |seen0|, p.package);
        var served: bool := *;
        if waitForAPI && !served {
          RunOut();
          return false;
        }
      }
      assert prerequisites[..|prerequisites|] == prerequisites;
      ok := true;
    }
  }

  /** Two OperatorGroups stand in one namespace. */
  predicate TwoGroups(groups: set<Key>, namespace: string) {
    exists g, h | g in groups && h in groups :: g != h && g.0 == namespace && h.0 == namespace
  }

  /** What stands in the way of a prerequisite: two groups, two Subscriptions, or another one under its name. */
  predicate Obstructed(groups: set<Key>, subs: map<Key, Subscription>, p: Prerequisite) {
    || TwoGroups(groups, p.namespace)
    || (exists k, l | k in subs && l in subs ::
          k != l && subs[k].package == Some(p.package) && subs[l].package == Some(p.package))
    || ((p.namespace, p.package) in subs && subs[(p.namespace, p.package)].package != Some(p.package))
  }

  /** The namespace has one OperatorGroup, and one only ... */
  predicate OnlyGroup(groups: set<Key>, namespace: string) {
    exists g | g in groups :: g.0 == namespace && forall h | h in groups && h.0 == namespace :: h == g
  }

  /** ... and the package one Subscription. */
  predicate OnlySubscription(subs: map<Key, Subscription>, package: string, k: Key) {
    && k in subs && subs[k].package == Some(package)
    && forall l | l in subs && subs[l].package == Some(package) :: l == k
  }

  lemma OneGroup(groups: set<Key>, namespace: string)
    requires |GroupsIn(groups, namespace)| == 1
    ensures OnlyGroup(groups, namespace)
  {
    OneElement(GroupsIn(groups, namespace));
    var g :| g in GroupsIn(groups, namespace) && forall h | h in GroupsIn(groups, namespace) :: h == g;
    assert forall h | h in groups && h.0 == namespace :: h in GroupsIn(groups, namespace);
  }

  lemma ManyGroups(groups: set<Key>, namespace: string)
    requires |GroupsIn(groups, namespace)| > 1
    ensures TwoGroups(groups, namespace)
  {
    TwoElements(GroupsIn(groups, namespace));
  }

  lemma OneSubscription(subs: map<Key, Subscription>, package: string, key: Key)
    requires Matches(subs, package) == {key}
    ensures OnlySubscription(subs, package, key)
  {
    assert key in Matches(subs, package);
    forall k | k in subs && subs[k].package == Some(package) ensures k == key {
      assert k in Matches(subs, package);
    }
  }

  lemma ManySubscriptions(groups: set<Key>, subs: map<Key, Subscription>, p: Prerequisite)
    requires |Matches(subs, p.package)| > 1
    ensures Obstructed(groups, subs, p)
  {
    TwoElements(Matches(subs, p.package));
  }

  lemma TwoElements(s: set<Key>)
    requires |s| > 1
    ensures exists a, b | a in s && b in s :: a != b
  {
    var a :| a in s;
    assert |s - {a}| > 0;
    var b :| b in s - {a};
  }

  lemma OneElement(s: set<Key>)
    requires |s| == 1
    ensures exists a | a in s :: forall b | b in s :: b == a
  {
    var a :| a in s;
    assert |s - {a}| == 0;
    forall b | b in s ensures b == a {
      assert b !in s - {a};
    }
  }

  /** A CSV was read as failed right after it had been read from a Subscription. */
  predicate FailedAt(seen: seq<Answer>, p: nat) {
    && p + 1 < |seen| && seen[p].SubscriptionRead? && seen[p].sub.Some?
    && seen[p + 1] == PhaseRead((seen[p].key.0, seen[p].sub.value.installed), Some(Failed))
  }

  ghost predicate FailedSince(seen: seq<Answer>, from: nat) {
    exists p: nat | from <= p :: FailedAt(seen, p)
  }

  /** A poll that read no installed CSV yet, or one that has neither succeeded nor failed. */
  predicate Unfinished(seen: seq<Answer>, p: nat, key: Key) {
    && p < |seen| && seen[p].SubscriptionRead? && seen[p].key == key
    && if seen[p].sub.None? || seen[p].sub.value.installed == "" then |seen| == p + 1
       else
         && |seen| == p + 2 && seen[p + 1].PhaseRead? && seen[p + 1].csv == (key.0, seen[p].sub.value.installed)
         && seen[p + 1].phase != Some(Succeeded) && seen[p + 1].phase != Some(Failed)
  }

  /** The Subscription was read with an installed CSV, and that CSV's phase, read next, was Succeeded. */
  predicate SucceededAt(seen: seq<Answer>, p: nat, key: Key) {
    && p + 1 < |seen| && seen[p].SubscriptionRead? && seen[p].key == key
    && seen[p].sub.Some? && seen[p].sub.value.installed != ""
    && seen[p + 1] == PhaseRead((key.0, seen[p].sub.value.installed), Some(Succeeded))
  }

  ghost predicate SeenSince(seen: seq<Answer>, from: nat, key: Key) {
    exists p: nat | from <= p :: SucceededAt(seen, p, key)
  }

  /** The package has one Subscription, and the CSV it had installed was seen Succeeded since `from`. */
  ghost predicate Ready(subs: map<Key, Subscription>, seen: seq<Answer>, from: nat, package: string) {
    exists key :: Matches(subs, package) == {key} && SeenSince(seen, from, key)
  }

  ghost predicate AllReady(subs: map<Key, Subscription>, seen: seq<Answer>, from: nat,
                           prerequisites: seq<Prerequisite>) {
    forall i | 0 <= i < |prerequisites| :: Ready(subs, seen, from, prerequisites[i].package)
  }

  /** Each prerequisite's package has exactly one Subscription. */
  predicate Installed(subs: map<Key, Subscription>, prerequisites: seq<Prerequisite>) {
    forall i | 0 <= i < |prerequisites| :: |Matches(subs, prerequisites[i].package)| == 1
  }

  /** In the state a success leaves, whatever happens to the statuses, another run adds nothing. */
  method RerunAddsNothing(cluster: Cluster, prerequisites: seq<Prerequisite>, ghost from: nat) returns (ok: bool)
    requires AllReady(cluster.subs, cluster.seen, from, prerequisites)
    modifies cluster
    ensures cluster.NothingAdded()
  {
    ReadyIsInstalled(cluster.subs, cluster.seen, from, prerequisites);
    ok := cluster.EnsurePrerequisites(prerequisites, true);
  }

  /** Any number of runs, interrupted anywhere, add together only what was missing at first. */
  method RerunUntilDone(cluster: Cluster, prerequisites: seq<Prerequisite>, times: nat) returns (ok: bool)
    modifies cluster
    ensures cluster.Grew() && cluster.AddedFor(prerequisites)
    ensures ok ==> AllReady(cluster.subs, cluster.seen, |old(cluster.seen)|, prerequisites)
  {
    hide GroupsGrew, SubscriptionsGrew, NamespacesOf, GroupsOf, SubscriptionsOf, Ready;
    GrewRefl(cluster.groups, cluster.subs);
    ok := false;
    for i := 0 to times
      invariant cluster.Grew() && cluster.AddedFor(prerequisites) && !ok
    {
      ghost var groups, subs, start := cluster.groups, cluster.subs, |cluster.seen|;
      ok := cluster.EnsurePrerequisites(prerequisites, true);
      GrewTrans(old(cluster.groups), old(cluster.subs), groups, subs, cluster.groups, cluster.subs);
      if ok {
        forall k | 0 <= k < |prerequisites|
          ensures Ready(cluster.subs, cluster.seen, |old(cluster.seen)|, prerequisites[k].package)
        {
          ReadyEarlier(cluster.subs, cluster.seen, |old(cluster.seen)|, start, prerequisites[k].package);
        }
        return;
      }
    }
  }

  lemma ReadyEarlier(subs: map<Key, Subscription>, seen: seq<Answer>, from: nat, later: nat, package: string)
    requires from <= later && Ready(subs, seen, later, package)
    ensures Ready(subs, seen, from, package)
  {
    var key :| Matches(subs, package) == {key} && SeenSince(seen, later, key);
    var p: nat :| later <= p && SucceededAt(seen, p, key);
    assert SeenSince(seen, from, key);
  }

  lemma OneMore(prerequisites: seq<Prerequisite>, i: nat)
    requires i < |prerequisites|
    ensures prerequisites[..i + 1] == prerequisites[..i] + [prerequisites[i]]
    ensures Within(prerequisites[..i], prerequisites[..i + 1]) && Within([prerequisites[i]], prerequisites[..i + 1])
    ensures Within(prerequisites[..i + 1], prerequisites)
  {
    assert prerequisites[..i + 1] == prerequisites[..i] + [prerequisites[i]];
    assert forall p | p in prerequisites[..i + 1] :: p in prerequisites;
  }

  /** What some prerequisites call for is among what others call for. */
  predicate Within(some: seq<Prerequisite>, others: seq<Prerequisite>) {
    && NamespacesOf(some) <= NamespacesOf(others)
    && GroupsOf(some) <= GroupsOf(others)
    && SubscriptionsOf(some) <= SubscriptionsOf(others)
  }

  lemma Only(s: set<Key>, k: Key)
    requires k in s && |s| == 1
    ensures s == {k}
  {
    assert |s - {k}| == 0;
  }

  lemma GrewRefl(groups: set<Key>, subs: map<Key, Subscription>)
    ensures GroupsGrew(groups, groups) && SubscriptionsGrew(subs, subs)
  {
  }

  lemma GrewTrans(g0: set<Key>, s0: map<Key, Subscription>, g1: set<Key>, s1: map<Key, Subscription>,
                  g2: set<Key>, s2: map<Key, Subscription>)
    requires GroupsGrew(g0, g1) && GroupsGrew(g1, g2) && SubscriptionsGrew(s0, s1) && SubscriptionsGrew(s1, s2)
    ensures GroupsGrew(g0, g2) && SubscriptionsGrew(s0, s2)
  {
  }

  lemma SameMatches(subs: map<Key, Subscription>, subs': map<Key, Subscription>, package: string)
    requires OnlyStatus(subs, subs')
    ensures Matches(subs, package) == Matches(subs', package)
  {
  }

  lemma StatusGrew(subs: map<Key, Subscription>, subs': map<Key, Subscription>, subs'': map<Key, Subscription>)
    requires SubscriptionsGrew(subs, subs') && OnlyStatus(subs', subs'')
    ensures SubscriptionsGrew(subs, subs'')
  {
    forall q ensures Matches(subs', q) == Matches(subs'', q) {
      SameMatches(subs', subs'', q);
    }
  }

  lemma FirstGroup(groups: set<Key>, namespace: string)
    requires GroupsIn(groups, namespace) == {}
    ensures GroupsGrew(groups, groups + {(namespace, namespace)})
    ensures GroupsIn(groups + {(namespace, namespace)}, namespace) == {(namespace, namespace)}
  {
    var more := groups + {(namespace, namespace)};
    forall n ensures KeptOrFirst(GroupsIn(groups, n), GroupsIn(more, n)) {
      if n == namespace {
        assert GroupsIn(more, n) == {(namespace, namespace)};
        assert (namespace, namespace) in GroupsIn(more, n);
      } else {
        assert GroupsIn(more, n) == GroupsIn(groups, n);
      }
    }
  }

  lemma FirstSubscription(subs: map<Key, Subscription>, key: Key, package: string)
    requires key !in subs && Matches(subs, package) == {}
    ensures
      var more := subs[key := Subscription(Some(package), "")];
      SubscriptionsGrew(subs, more) && Matches(more, package) == {key}
  {
    var more := subs[key := Subscription(Some(package), "")];
    forall q ensures KeptOrFirst(Matches(subs, q), Matches(more, q)) {
      if q == package {
        assert Matches(more, q) == {key};
        assert key in Matches(more, q);
      } else {
        assert Matches(more, q) == Matches(subs, q);
      }
    }
  }

  lemma AllReadyStays(subs: map<Key, Subscription>, seen: seq<Answer>, subs': map<Key, Subscription>,
                      seen': seq<Answer>, from: nat, prerequisites: seq<Prerequisite>)
    requires SubscriptionsGrew(subs, subs') && seen <= seen' && AllReady(subs, seen, from, prerequisites)
    ensures AllReady(subs', seen', from, prerequisites)
  {
    forall i | 0 <= i < |prerequisites| ensures Ready(subs', seen', from, prerequisites[i].package) {
      var q := prerequisites[i].package;
      assert Ready(subs, seen, from, q);
      assert KeptOrFirst(Matches(subs, q), Matches(subs', q));
      var key :| Matches(subs, q) == {key} && SeenSince(seen, from, key);
      var p: nat :| from <= p && SucceededAt(seen, p, key);
      assert SucceededAt(seen', p, key);
    }
  }

  lemma ReadyIsInstalled(subs: map<Key, Subscription>, seen: seq<Answer>, from: nat, prerequisites: seq<Prerequisite>)
    requires AllReady(subs, seen, from, prerequisites)
    ensures Installed(subs, prerequisites)
  {
    forall i | 0 <= i < |prerequisites| ensures |Matches(subs, prerequisites[i].package)| == 1 {
      assert Ready(subs, seen, from, prerequisites[i].package);
    }
  }
}
