/** JSON documents and the two ways a patch changes them: RFC 7396 merging and RFC 6902 operations. */
module Json {
  import opened Wrappers

  datatype Json =
    | Null
    | Bool(b: bool)
    | Number(text: string)
    | String(s: string)
    | Array(items: seq<Json>)
    | Object(members: map<string, Json>)

  type Members = map<string, Json>
  type Path = seq<string>

  /** The members a patch is merged into; anything but an object counts as an empty one. */
  function MembersOf(target: Json): Members {
    if target.Object? then target.members else map[]
  }

  function Member(m: Members, k: string): Json {
    if k in m then m[k] else Null
  }

  /** Section 2 of RFC 7396; an absent target is passed as Null, which merges the same way. */
  function MergePatch(target: Json, patch: Json): Json
    decreases patch
  {
    if patch.Object? then
      var base := MembersOf(target);
      Object(map k | k in base.Keys + patch.members.Keys && (k in patch.members ==> patch.members[k] != Null)
             :: if k in patch.members then MergePatch(Member(base, k), patch.members[k]) else base[k])
    else
      patch
  }

  /** The value at the end of a path of member names. */
  function Lookup(doc: Json, path: Path): Option<Json> {
    if path == [] then Some(doc)
    else if doc.Object? && path[0] in doc.members then Lookup(doc.members[path[0]], path[1..])
    else None
  }

  /** The object with nothing but one path, ending in `value`. */
  function Nest(path: Path, value: Json): Json {
    if path == [] then value else Object(map[path[0] := Nest(path[1..], value)])
  }

  /** Section 4.1 of RFC 6902 for a member of an object: the parent must exist, the member may. */
  function PatchAdd(doc: Json, path: Path, value: Json): Option<Json>
    requires path != []
  {
    if !doc.Object? then None
    else if |path| == 1 then Some(Object(doc.members[path[0] := value]))
    else if path[0] !in doc.members then None
    else
      match PatchAdd(doc.members[path[0]], path[1..], value)
      case None => None
      case Some(inner) => Some(Object(doc.members[path[0] := inner]))
  }

  /** Section 4.2 of RFC 6902: the target must exist. */
  function PatchRemove(doc: Json, path: Path): Option<Json>
    requires path != []
  {
    if !doc.Object? || path[0] !in doc.members then None
    else if |path| == 1 then Some(Object(doc.members - {path[0]}))
    else
      match PatchRemove(doc.members[path[0]], path[1..])
      case None => None
      case Some(inner) => Some(Object(doc.members[path[0] := inner]))
  }

  /** `a` and `b` part ways before either of them ends. */
  predicate Diverge(a: Path, b: Path) {
    a != [] && b != [] && (a[0] != b[0] || Diverge(a[1..], b[1..]))
  }

  /** No member is null, at any object depth; a merge would take a null as a deletion. */
  predicate NullFree(doc: Json) {
    doc.Object? ==> forall k | k in doc.members :: doc.members[k] != Null && NullFree(doc.members[k])
  }

  /** `live` has no member, at any object depth it shares with `saved`, that `saved` lacks. */
  predicate NoExtra(live: Json, saved: Json) {
    live.Object? && saved.Object? ==>
      forall k | k in live.members :: k in saved.members && NoExtra(live.members[k], saved.members[k])
  }

  /** Merging a saved value over a live one gives the saved value back exactly under this condition. */
  lemma {:induction false} MergeRestoresIff(live: Json, saved: Json)
    ensures MergePatch(live, saved) == saved <==> NullFree(saved) && NoExtra(live, saved)
    decreases saved
  {
    if saved.Object? {
      var base, merged := MembersOf(live), MergePatch(live, saved).members;
      forall k | k in saved.members
        ensures MergePatch(Member(base, k), saved.members[k]) == saved.members[k] <==>
                NullFree(saved.members[k]) && NoExtra(Member(base, k), saved.members[k])
      {
        MergeRestoresIff(Member(base, k), saved.members[k]);
      }
      if NullFree(saved) && NoExtra(live, saved) {
        assert merged == saved.members;
      }
    }
  }

  /** Whatever was live, every value of the saved document that is not an object is back in place. */
  lemma {:induction false} MergeAgreesOnLeaves(live: Json, saved: Json, path: Path)
    requires NullFree(saved) && Lookup(saved, path).Some? && !Lookup(saved, path).value.Object?
    ensures Lookup(MergePatch(live, saved), path) == Lookup(saved, path)
    decreases saved
  {
    if path != [] {
      MergeAgreesOnLeaves(Member(MembersOf(live), path[0]), saved.members[path[0]], path[1..]);
    }
  }

  /** The value at a path, Null when absent. */
  function Fetch(doc: Json, path: Path): Json {
    match Lookup(doc, path) case Some(v) => v case None => Null
  }

  /** Merging one nested value merges it at exactly that path, and deletes the path when it is null. */
  lemma {:induction false} MergeNest(doc: Json, path: Path, value: Json)
    requires path != []
    ensures Lookup(MergePatch(doc, Nest(path, value)), path) ==
            (if value == Null then None else Some(MergePatch(Fetch(doc, path), value)))
    decreases |path|
  {
    var base := MembersOf(doc);
    var merged := MergePatch(doc, Nest(path, value)).members;
    if |path| == 1 {
      assert path[1..] == [] && Nest(path, value) == Object(map[path[0] := value]);
      assert Lookup(doc, path) == if path[0] in base then Some(base[path[0]]) else None;
      assert Lookup(Object(merged), path) == if path[0] in merged then Some(merged[path[0]]) else None;
    } else {
      MergeNest(Member(base, path[0]), path[1..], value);
      assert Lookup(Null, path[1..]) == None;
      assert Nest(path[1..], value).Object?;
    }
  }

  /** Merging one nested value leaves every path that parts ways with it as it was, on any document. */
  lemma {:induction false} MergeNestFrame(doc: Json, path: Path, value: Json, other: Path)
    requires Diverge(path, other)
    ensures Lookup(MergePatch(doc, Nest(path, value)), other) == Lookup(doc, other)
    decreases |path|
  {
    if path[0] == other[0] {
      MergeNestFrame(Member(MembersOf(doc), path[0]), path[1..], value, other[1..]);
      assert Lookup(Null, other[1..]) == None;
      assert Nest(path[1..], value).Object?;
    }
  }

  /** The patch says nothing about the path: it is an object at every step up to a member it lacks. */
  predicate Untouched(patch: Json, path: Path) {
    patch.Object? && path != [] && (path[0] !in patch.members || Untouched(patch.members[path[0]], path[1..]))
  }

  /** A merge leaves a path alone that its patch does not mention. */
  lemma {:induction false} MergeKeepsUntouched(target: Json, patch: Json, path: Path)
    requires Untouched(patch, path)
    ensures Lookup(MergePatch(target, patch), path) == Lookup(target, path)
    decreases |path|
  {
    if path[0] in patch.members {
      MergeKeepsUntouched(Member(MembersOf(target), path[0]), patch.members[path[0]], path[1..]);
      assert Lookup(Null, path[1..]) == None;
    }
  }

  /** One level of a nested merge: the other members stay, the first step is merged below. */
  lemma MergeNestStep(doc: Json, path: Path, value: Json)
    requires path != [] && (|path| == 1 ==> value != Null)
    ensures
      var base := MembersOf(doc);
      MergePatch(doc, Nest(path, value)) ==
      Object(base[path[0] := MergePatch(Member(base, path[0]), Nest(path[1..], value))])
  {
    var base := MembersOf(doc);
    MergeSingle(doc, path[0], Nest(path[1..], value));
  }

  lemma MergeSingle(doc: Json, k: string, inner: Json)
    requires inner != Null
    ensures MergePatch(doc, Object(map[k := inner])) ==
            Object(MembersOf(doc)[k := MergePatch(Member(MembersOf(doc), k), inner)])
  {
    var base := MembersOf(doc);
    var merged := MergePatch(doc, Object(map[k := inner])).members;
    var expected := base[k := MergePatch(Member(base, k), inner)];
    assert merged.Keys == expected.Keys;
    assert forall j | j in merged :: merged[j] == expected[j];
    assert merged == expected;
  }

  lemma {:induction false} NestAppend(path: Path, rest: Path, value: Json)
    ensures Nest(path + rest, value) == Nest(path, Nest(rest, value))
  {
    if path == [] {
      assert path + rest == rest;
    } else {
      assert (path + rest)[1..] == path[1..] + rest;
      NestAppend(path[1..], rest, value);
    }
  }

  lemma {:induction false} LookupAppend(doc: Json, path: Path, rest: Path)
    ensures Lookup(doc, path + rest) ==
            (match Lookup(doc, path) case Some(v) => Lookup(v, rest) case None => None)
    decreases |path|
  {
    if path == [] {
      assert path + rest == rest;
    } else {
      assert (path + rest)[1..] == path[1..] + rest;
      if doc.Object? && path[0] in doc.members {
        LookupAppend(doc.members[path[0]], path[1..], rest);
      }
    }
  }

  lemma {:induction false} UntouchedBelow(path: Path, patch: Json, rest: Path)
    requires Untouched(patch, rest)
    ensures Untouched(Nest(path, patch), path + rest)
  {
    if path == [] {
      assert path + rest == rest;
    } else {
      assert (path + rest)[1..] == path[1..] + rest;
      UntouchedBelow(path[1..], patch, rest);
    }
  }

  lemma {:induction false} DivergeBelow(path: Path, a: Path, b: Path)
    requires Diverge(a, b)
    ensures Diverge(path + a, path + b)
  {
    if path == [] {
      assert path + a == a && path + b == b;
    } else {
      assert (path + a)[1..] == path[1..] + a && (path + b)[1..] == path[1..] + b;
      DivergeBelow(path[1..], a, b);
    }
  }

  /** A removal needs its target, and afterwards the target is gone. */
  lemma {:induction false} PatchRemoveIff(doc: Json, path: Path)
    requires path != []
    ensures PatchRemove(doc, path).Some? <==> Lookup(doc, path).Some?
    ensures PatchRemove(doc, path).Some? ==> Lookup(PatchRemove(doc, path).value, path) == None
    decreases |path|
  {
    if |path| == 1 {
      assert path[1..] == [];
    } else if doc.Object? && path[0] in doc.members {
      PatchRemoveIff(doc.members[path[0]], path[1..]);
    }
  }

  datatype Nested = Missing | Value(v: Json) | WrongType

  /** How the Kubernetes client walks an untyped object: a null on the way counts as missing. */
  function NestedField(doc: Json, path: Path): Nested {
    if path == [] then Value(doc)
    else if doc == Null then Missing
    else if !doc.Object? then WrongType
    else if path[0] !in doc.members then Missing
    else NestedField(doc.members[path[0]], path[1..])
  }

  lemma {:induction false} NestedAppend(doc: Json, path: Path, rest: Path)
    requires rest != []
    ensures NestedField(doc, path + rest) ==
            (match NestedField(doc, path) case Value(v) => NestedField(v, rest) case failed => failed)
    decreases |path|
  {
    if path == [] {
      assert path + rest == rest;
    } else {
      assert (path + rest)[1..] == path[1..] + rest;
      if doc.Object? && path[0] in doc.members {
        NestedAppend(doc.members[path[0]], path[1..], rest);
      }
    }
  }

  /** A value the client finds is the value at that path. */
  lemma {:induction false} NestedFound(doc: Json, path: Path)
    ensures NestedField(doc, path).Value? <==> Lookup(doc, path).Some?
    ensures NestedField(doc, path).Value? ==> Lookup(doc, path) == Some(NestedField(doc, path).v)
    decreases |path|
  {
    if path != [] && doc.Object? && path[0] in doc.members {
      NestedFound(doc.members[path[0]], path[1..]);
    }
  }

  /** The document with `value` at the path, objects being made of whatever stood on the way. */
  function SetPath(doc: Json, path: Path, value: Json): Json
    decreases |path|
  {
    if path == [] then value
    else
      var base := MembersOf(doc);
      Object(base[path[0] := SetPath(Member(base, path[0]), path[1..], value)])
  }

  lemma {:induction false} SetPathLookup(doc: Json, path: Path, value: Json)
    ensures Lookup(SetPath(doc, path, value), path) == Some(value)
    decreases |path|
  {
    if path != [] {
      SetPathLookup(Member(MembersOf(doc), path[0]), path[1..], value);
    }
  }

  lemma {:induction false} SetPathFrame(doc: Json, path: Path, value: Json, other: Path)
    requires Diverge(path, other)
    ensures Lookup(SetPath(doc, path, value), other) == Lookup(doc, other)
    decreases |path|
  {
    if path[0] == other[0] {
      SetPathFrame(Member(MembersOf(doc), path[0]), path[1..], value, other[1..]);
      assert Lookup(Null, other[1..]) == None;
    }
  }

  lemma {:induction false} SetPathTwice(doc: Json, path: Path, a: Json, b: Json)
    ensures SetPath(SetPath(doc, path, a), path, b) == SetPath(doc, path, b)
    decreases |path|
  {
    if path != [] {
      var base := MembersOf(doc);
      SetPathTwice(Member(base, path[0]), path[1..], a, b);
      var once := SetPath(Member(base, path[0]), path[1..], a);
      var twice := SetPath(Member(base, path[0]), path[1..], b);
      assert base[path[0] := once][path[0] := twice] == base[path[0] := twice];
    }
  }

  lemma SetPathStep(doc: Json, path: Path, v: Json)
    requires path != []
    ensures SetPath(doc, path, v) ==
            Object(MembersOf(doc)[path[0] := SetPath(Member(MembersOf(doc), path[0]), path[1..], v)])
  {}

  /** Merging an empty object along a path makes room for an `add` below it, which then cannot fail. */
  lemma {:induction false} AddAfterMerge(doc: Json, path: Path, last: string, value: Json)
    ensures PatchAdd(MergePatch(doc, Nest(path, Object(map[]))), path + [last], value) ==
            Some(SetPath(doc, path + [last], value))
    decreases |path|
  {
    var base := MembersOf(doc);
    if path == [] {
      assert MergePatch(doc, Object(map[])).members == base;
      assert path + [last] == [last] && [last][1..] == [];
      assert SetPath(Member(base, last), [last][1..], value) == value;
    } else {
      hide MergePatch, Nest, SetPath;
      MergeNestStep(doc, path, Object(map[]));
      SetPathStep(doc, path + [last], value);
      assert (path + [last])[1..] == path[1..] + [last];
      AddAfterMerge(Member(base, path[0]), path[1..], last, value);
      var merged := MergePatch(Member(base, path[0]), Nest(path[1..], Object(map[])));
      var set_ := SetPath(Member(base, path[0]), path[1..] + [last], value);
      assert base[path[0] := merged][path[0] := set_] == base[path[0] := set_];
    }
  }
}
