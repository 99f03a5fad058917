/**
 Adding a custom network policy to TektonConfig and taking it back: the snapshot of
 spec.networkPolicy, the patches, and what the restoration really restores.
 */
module NetworkPolicy {
  import opened Wrappers
  import opened Json

  const NETWORK_POLICY: Path := ["spec", "networkPolicy"]
  const DISABLED: Path := NETWORK_POLICY + ["disabled"]
  const POLICIES: Path := NETWORK_POLICY + ["policies"]

  function PolicyPath(name: string): Path {
    NETWORK_POLICY + ["policies", name]
  }

  const CUSTOM_POLICY: Json :=
    Object(map["podSelector" := Object(map[]), "policyTypes" := Array([String("Ingress"), String("Egress")])])

  /** The saved value: None when the field is absent or empty, failure when it is no object. */
  function Snapshot(doc: Json): Result<Option<Json>, ()> {
    match NestedField(doc, NETWORK_POLICY)
    case Missing => Success(None)
    case WrongType => Failure(())
    case Value(np) =>
      if !np.Object? then Failure(()) else if np.members == map[] then Success(None) else Success(Some(np))
  }

  /** The name is free among spec.networkPolicy.policies, and these can be read. */
  predicate NameIsFree(doc: Json, name: string) {
    match NestedField(doc, POLICIES)
    case Missing => true
    case WrongType => false
    case Value(policies) => policies.Object? && name !in policies.members
  }

  function WithCustomPolicy(doc: Json, name: string): Json {
    MergePatch(doc, Nest(PolicyPath(name), CUSTOM_POLICY))
  }

  function Disabled(doc: Json): Json {
    MergePatch(doc, Nest(DISABLED, Bool(true)))
  }

  /** Merges a non-empty snapshot back; for an empty one the field is removed, which needs it present. */
  function Restore(doc: Json, snapshot: Option<Json>): Option<Json> {
    match snapshot
    case None => PatchRemove(doc, NETWORK_POLICY)
    case Some(np) => Some(MergePatch(doc, Nest(NETWORK_POLICY, np)))
  }

  /** What a snapshot of the field is: nothing of an absent or empty one, the field itself of any other object. */
  predicate Saved(found: Nested, original: Option<Json>) {
    match found
    case Missing => original == None
    case WrongType => false
    case Value(np) => np.Object? && original == if np.members == map[] then None else Some(np)
  }

  /** Something on the way to the field, or the field itself, is no object. */
  predicate Unusable(found: Nested) {
    found.WrongType? || (found.Value? && !found.v.Object?)
  }

  predicate Taken(policies: Nested, name: string) {
    policies.WrongType? || (policies.Value? && (!policies.v.Object? || name in policies.v.members))
  }

  lemma SnapshotMeans(doc: Json, name: string)
    ensures
      var found := NestedField(doc, ["spec", "networkPolicy"]);
      && (Snapshot(doc).Success? ==> Saved(found, Snapshot(doc).value))
      && (Snapshot(doc).Failure? ==> Unusable(found))
    ensures NameIsFree(doc, name) <==> !Taken(NestedField(doc, ["spec", "networkPolicy", "policies"]), name)
  {
    hide NestedField;
    assert POLICIES == ["spec", "networkPolicy", "policies"];
  }

  /** A free name is in no document at that place. */
  lemma FreeIsAbsent(doc: Json, name: string)
    requires NameIsFree(doc, name)
    ensures Lookup(doc, PolicyPath(name)) == None
  {
    NestedFound(doc, POLICIES);
    LookupAppend(doc, POLICIES, [name]);
    assert PolicyPath(name) == POLICIES + [name];
    assert [name][1..] == [];
  }

  lemma PolicyAdded(doc: Json, name: string)
    requires NameIsFree(doc, name)
    ensures Lookup(WithCustomPolicy(doc, name), ["spec", "networkPolicy", "policies", name]) ==
            Some(Object(map["podSelector" := Object(map[]),
                            "policyTypes" := Array([String("Ingress"), String("Egress")])]))
  {
    FreeIsAbsent(doc, name);
    MergeNest(doc, PolicyPath(name), CUSTOM_POLICY);
    MergeRestoresIff(Null, CUSTOM_POLICY);
    assert PolicyPath(name) == ["spec", "networkPolicy", "policies", name];
  }

  /** Once disabled the field is there, so its removal is not rejected either. */
  lemma AlwaysRestores(doc: Json, original: Option<Json>)
    ensures Restore(Disabled(doc), original).Some?
  {
    MergeBelow(doc, ["disabled"], Bool(true));
    var np: Json :| Disabled(doc) == SetField(doc, np);
    RemoveAfterSet(doc, np);
  }

  /** The cluster's TektonConfig, patched by the environment; nobody else writes it meanwhile. */
  class TektonConfig {
    var doc: Json
    // How many calls reported an error, and how many waits ran out.
    ghost var errors: nat
    ghost var timeouts: nat

    /** The answer of a call that may fail. */
    method Call() returns (ok: bool)
      modifies this`errors
      ensures errors == old(errors) + (if ok then 0 else 1)
    {
      ok := *;
      errors := errors + if ok then 0 else 1;
    }

    /** A wait for something on the cluster, which may run out. */
    method Wait() returns (ok: bool)
      modifies this`timeouts
      ensures timeouts == old(timeouts) + (if ok then 0 else 1)
    {
      ok := *;
      timeouts := timeouts + if ok then 0 else 1;
    }

    method EnsureCustomPolicy(name: string) returns (original: Result<Option<Json>, ()>)
      modifies this
      ensures original.Success? ==> NameIsFree(old(doc), name) && original == Snapshot(old(doc))
      ensures original.Success? ==> Saved(NestedField(old(doc), ["spec", "networkPolicy"]), original.value)
      ensures original.Success? ==>
                Lookup(doc, ["spec", "networkPolicy", "policies", name]) ==
                Some(Object(map["podSelector" := Object(map[]),
                                "policyTypes" := Array([String("Ingress"), String("Egress")])]))
      ensures original.Failure? ==>
        || old(errors) < errors
        || Unusable(NestedField(old(doc), ["spec", "networkPolicy"]))
        || Taken(NestedField(old(doc), ["spec", "networkPolicy", "policies"]), name)
      ensures doc == old(doc) || doc == WithCustomPolicy(old(doc), name)
      ensures original.Success? ==> doc == WithCustomPolicy(old(doc), name)
    {
      SnapshotMeans(doc, name);
      hide MergePatch, Nest, NestedField, Lookup, Snapshot, NameIsFree, Saved, Unusable, Taken;
      if !NameIsFree(doc, name) {
        return Failure(());
      }
      original := Snapshot(doc);
      if original.Failure? {
        return;
      }
      PolicyAdded(doc, name);
      var effective: bool := *;
      var confirmed := Call();
      if effective || confirmed {
        doc := MergePatch(doc, Nest(PolicyPath(name), CUSTOM_POLICY));
      }
      if !confirmed {
        return Failure(());
      }
    }

    method RemoveCustomPolicyAndRestore(name: string, original: Option<Json>) returns (ok: bool)
      modifies this
      ensures ok ==> Restore(Disabled(old(doc)), original) == Some(doc)
      ensures !ok ==> doc == old(doc) || doc == Disabled(old(doc)) || Restore(Disabled(old(doc)), original) == Some(doc)
      ensures !ok ==> old(errors) < errors || old(timeouts) < timeouts
    {
      AlwaysRestores(doc, original);
      hide MergePatch, Nest, Restore;
      var effective: bool := *;
      ok := Call();
      if effective || ok {
        doc := MergePatch(doc, Nest(DISABLED, Bool(true)));
      }
      if !ok {
        return;
      }
      ok := Wait();
      if !ok {
        return;
      }
      var restored := Restore(doc, original);
      effective := *;
      ok := Call();
      if restored.Some? && (effective || ok) {
        doc := restored.value;
      }
    }
  }

  /**
   Merging a snapshot back gives spec.networkPolicy the saved value exactly when the live one has no
   member, at any object depth, that the saved one lacks.
   */
  lemma RestoreExactIff(doc: Json, np: Json)
    requires np.Object?
    ensures
      var restored := Restore(doc, Some(np)).value;
      Lookup(restored, NETWORK_POLICY) == Some(np) <==> NullFree(np) && NoExtra(Fetch(doc, NETWORK_POLICY), np)
  {
    MergeNest(doc, NETWORK_POLICY, np);
    MergeRestoresIff(Fetch(doc, NETWORK_POLICY), np);
  }

  /** Either way the saved leaves are back, and nothing outside the field changes. */
  lemma RestoreAgrees(doc: Json, np: Json, leaf: Path, other: Path)
    requires np.Object? && NullFree(np) && Lookup(np, leaf).Some? && !Lookup(np, leaf).value.Object?
    requires Diverge(NETWORK_POLICY, other)
    ensures
      var restored := Restore(doc, Some(np)).value;
      Lookup(restored, NETWORK_POLICY + leaf) == Lookup(np, leaf) && Lookup(restored, other) == Lookup(doc, other)
  {
    var restored := Restore(doc, Some(np)).value;
    MergeNest(doc, NETWORK_POLICY, np);
    MergeAgreesOnLeaves(Fetch(doc, NETWORK_POLICY), np, leaf);
    LookupAppend(restored, NETWORK_POLICY, leaf);
    MergeNestFrame(doc, NETWORK_POLICY, np, other);
  }

  /** With an empty snapshot the field is absent afterwards, and the patch is rejected unless it was present. */
  lemma RestoreEmpty(doc: Json)
    ensures Restore(doc, None).Some? <==> Lookup(doc, NETWORK_POLICY).Some?
    ensures Restore(doc, None).Some? ==> Lookup(Restore(doc, None).value, NETWORK_POLICY) == None
  {
    PatchRemoveIff(doc, NETWORK_POLICY);
  }

  /** Below a readable field, a free name is one the field's own policies lack. */
  lemma FreeBelow(doc: Json, name: string)
    requires NameIsFree(doc, name) && Snapshot(doc).Success? && Snapshot(doc).value.Some?
    ensures
      var np := Snapshot(doc).value.value;
      Untouched(np, ["policies", name]) && Lookup(np, ["policies", name]) == None &&
          Lookup(doc, NETWORK_POLICY) == Some(np)
  {
    var np := Snapshot(doc).value.value;
    NestedFound(doc, NETWORK_POLICY);
    NestedAppend(doc, NETWORK_POLICY, ["policies"]);
    assert ["policies", name][1..] == [name] && ["policies"][1..] == [];
    assert "policies" in np.members ==> NestedField(np, ["policies"]) == Value(np.members["policies"]);
  }

  /** A non-empty field keeps the custom policy: the snapshot cannot mention a name that was free. */
  lemma CustomPolicyStays(doc: Json, name: string)
    requires NameIsFree(doc, name) && Snapshot(doc).Success? && Snapshot(doc).value.Some?
    ensures
      var restored := Restore(Disabled(WithCustomPolicy(doc, name)), Snapshot(doc).value).value;
      Lookup(restored, PolicyPath(name)) == Some(CUSTOM_POLICY) && Lookup(doc, PolicyPath(name)) == None
  {
    var np := Snapshot(doc).value.value;
    var policy, added := PolicyPath(name), WithCustomPolicy(doc, name);
    FreeBelow(doc, name);
    LookupAppend(doc, NETWORK_POLICY, ["policies", name]);
    MergeNest(doc, policy, CUSTOM_POLICY);
    MergeRestoresIff(Null, CUSTOM_POLICY);
    DivergeBelow(NETWORK_POLICY, ["disabled"], ["policies", name]);
    MergeNestFrame(added, DISABLED, Bool(true), policy);
    UntouchedBelow(NETWORK_POLICY, np, ["policies", name]);
    MergeKeepsUntouched(Disabled(added), Nest(NETWORK_POLICY, np), policy);
  }

  /** The document with the field set to `np`, the members around it kept. */
  function SetField(doc: Json, np: Json): Json {
    var members := MembersOf(doc);
    Object(members["spec" := Object(MembersOf(Member(members, "spec"))["networkPolicy" := np])])
  }

  function DropField(doc: Json): Json {
    var members := MembersOf(doc);
    Object(members["spec" := Object(MembersOf(Member(members, "spec")) - {"networkPolicy"})])
  }

  /** A merge below the field changes nothing but the field. */
  lemma MergeBelow(doc: Json, rest: Path, value: Json)
    requires rest != []
    ensures exists np: Json :: MergePatch(doc, Nest(NETWORK_POLICY + rest, value)) == SetField(doc, np)
  {
    var members := MembersOf(doc);
    var inner := Nest(rest, value);
    NestAppend(NETWORK_POLICY, rest, value);
    assert NETWORK_POLICY[1..] == ["networkPolicy"] && ["networkPolicy"][1..] == [];
    assert inner.Object?;
    MergeNestStep(doc, NETWORK_POLICY, inner);
    MergeNestStep(Member(members, "spec"), ["networkPolicy"], inner);
    var spec := MembersOf(Member(members, "spec"));
    assert MergePatch(doc, Nest(NETWORK_POLICY, inner)) == SetField(doc, MergePatch(Member(spec, "networkPolicy"),
        inner));
  }

  lemma SetTwice(doc: Json, a: Json, b: Json)
    ensures SetField(SetField(doc, a), b) == SetField(doc, b)
  {
    var members := MembersOf(doc);
    var spec := MembersOf(Member(members, "spec"));
    assert spec["networkPolicy" := a]["networkPolicy" := b] == spec["networkPolicy" := b];
    var inner := Object(spec["networkPolicy" := b]);
    assert members["spec" := Object(spec["networkPolicy" := a])]["spec" := inner] == members["spec" := inner];
  }

  lemma RemoveAfterSet(doc: Json, np: Json)
    ensures PatchRemove(SetField(doc, np), NETWORK_POLICY) == Some(DropField(doc))
  {
    var members := MembersOf(doc);
    var spec := MembersOf(Member(members, "spec"));
    var inner := Object(spec["networkPolicy" := np]);
    assert inner.members - {"networkPolicy"} == spec - {"networkPolicy"};
    assert NETWORK_POLICY[1..] == ["networkPolicy"];
    assert PatchRemove(inner, ["networkPolicy"]) == Some(Object(spec - {"networkPolicy"}));
    var dropped := Object(spec - {"networkPolicy"});
    assert members["spec" := inner]["spec" := dropped] == members["spec" := dropped];
  }

  /** With an empty snapshot the round trip ends with spec as an object without the field. */
  lemma EmptySnapshotRoundTrip(doc: Json, name: string)
    ensures Restore(Disabled(WithCustomPolicy(doc, name)), None) == Some(DropField(doc))
  {
    var added := WithCustomPolicy(doc, name);
    MergeBelow(doc, ["policies", name], CUSTOM_POLICY);
    var a: Json :| added == SetField(doc, a);
    MergeBelow(added, ["disabled"], Bool(true));
    var b: Json :| Disabled(added) == SetField(added, b);
    SetTwice(doc, a, b);
    RemoveAfterSet(doc, b);
  }

  /**
   Adding the policy and removing it again gives the original document back exactly when spec is an
   object without a networkPolicy.
   */
  lemma RoundTripIff(doc: Json, name: string)
    requires NameIsFree(doc, name) && Snapshot(doc).Success? && doc.Object?
    ensures Restore(Disabled(WithCustomPolicy(doc, name)), Snapshot(doc).value) == Some(doc) <==>
            "spec" in doc.members && doc.members["spec"].Object? && "networkPolicy" !in doc.members["spec"].members
  {
    var spec := MembersOf(Member(doc.members, "spec"));
    if Snapshot(doc).value.Some? {
      CustomPolicyStays(doc, name);
      FreeBelow(doc, name);
      assert NETWORK_POLICY[1..] == ["networkPolicy"];
      assert Lookup(doc, NETWORK_POLICY) == Lookup(doc.members["spec"], ["networkPolicy"]);
    } else {
      EmptySnapshotRoundTrip(doc, name);
      if "networkPolicy" !in spec {
        assert spec - {"networkPolicy"} == spec;
        assert "spec" in doc.members && doc.members["spec"].Object? ==>
                 doc.members["spec" := doc.members["spec"]] == doc.members;
      } else {
        assert DropField(doc).members["spec"] != doc.members["spec"];
      }
    }
  }
}
