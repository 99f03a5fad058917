/** The PipelineRun entry in the two external framework lists of a shared Kueue object: put in, and taken out again. */
module KueueFrameworks {
  import opened Wrappers
  import opened Json

  type Lists = seq<Path>

  const INTEGRATIONS: Path := ["spec", "config", "integrations", "externalFrameworks"]
  const MULTI_KUEUE: Path := ["spec", "config", "multiKueue", "externalFrameworks"]
  const THE_LISTS: Lists := [INTEGRATIONS, MULTI_KUEUE]

  function PipelineRunFramework(): (item: Json)
    ensures IsPipelineRunFramework(item)
  {
    Object(map["group" := String("tekton.dev"), "resource" := String("pipelineruns"), "version" := String("v1")])
  }

  predicate IsPipelineRunFramework(item: Json) {
    item.Object? && Member(item.members, "group") == String("tekton.dev") &&
    Member(item.members, "resource") == String("pipelineruns") && Member(item.members, "version") == String("v1")
  }

  /** The Kueue object the environment creates where there is none; `labels` are its metadata's. */
  function RequiredKueue(labels: Json): Json {
    WithBothLists(KueueRest(labels))
  }

  function KueueRest(labels: Json): Json {
    Object(map[
      "apiVersion" := String("kueue.openshift.io/v1"), "kind" := String("Kueue"),
      "metadata" := Object(map["name" := String("cluster"), "labels" := labels]),
      "spec" := Object(map[
        "config" := Object(map["integrations" := Object(map["frameworks" := Array([String("Deployment")])])]),
        "logLevel" := String("Normal"), "managementState" := String("Managed"),
        "operatorLogLevel" := String("Normal")])])
  }

  function WithBothLists(doc: Json): Json {
    var entry := Array([PipelineRunFramework()]);
    SetPath(SetPath(doc, INTEGRATIONS, entry), MULTI_KUEUE, entry)
  }

  predicate Holds(items: seq<Json>) {
    exists i | 0 <= i < |items| :: IsPipelineRunFramework(items[i])
  }

  /** The list at a path; empty when there is none. */
  function Items(doc: Json, path: Path): seq<Json> {
    match Lookup(doc, path)
    case Some(Array(items)) => items
    case _ => []
  }

  /** The list without its first PipelineRun entry. */
  function Without(items: seq<Json>): seq<Json> {
    if items == [] then []
    else if IsPipelineRunFramework(items[0]) then items[1..]
    else [items[0]] + Without(items[1..])
  }

  function AddAt(doc: Json, path: Path): Json {
    if Holds(Items(doc, path)) then doc
    else SetPath(doc, path, Array(Items(doc, path) + [PipelineRunFramework()]))
  }

  function AddAll(doc: Json, lists: Lists): Json
    decreases |lists|
  {
    if lists == [] then doc else AddAll(AddAt(doc, lists[0]), lists[1..])
  }

  function RemoveAt(doc: Json, path: Path): Json {
    if Holds(Items(doc, path)) then SetPath(doc, path, Array(Without(Items(doc, path)))) else doc
  }

  function RemoveAll(doc: Json, lists: Lists): Json
    decreases |lists|
  {
    if lists == [] then doc else RemoveAll(RemoveAt(doc, lists[0]), lists[1..])
  }

  /** The lists of `lists`, in order, that lack the entry in the document as it is found. */
  function Lacking(doc: Json, lists: Lists): Lists {
    if lists == [] then []
    else (if Holds(Items(doc, lists[0])) then [] else [lists[0]]) + Lacking(doc, lists[1..])
  }

  /** The document with an empty list wherever one was missing. */
  function Opened(doc: Json, lists: Lists): Json
    decreases |lists|
  {
    if lists == [] then doc
    else Opened(SetPath(doc, lists[0], Array(Items(doc, lists[0]))), lists[1..])
  }

  /** Paths of different lists part ways. */
  predicate Apart(lists: Lists) {
    lists != [] ==> lists[0] != [] && AllDiverge(lists[0], lists[1..]) && Apart(lists[1..])
  }

  predicate AllDiverge(path: Path, lists: Lists) {
    forall p | p in lists :: Diverge(p, path) && Diverge(path, p)
  }

  /** Objects all the way down as far as anything is there, and a list at the end if it is reached. */
  predicate Walkable(doc: Json, path: Path) {
    doc.Object? && path != [] &&
    (path[0] in doc.members ==>
       if |path| == 1 then doc.members[path[0]].Array? else Walkable(doc.members[path[0]], path[1..]))
  }

  /** Both lists can be read, and written where they are missing. */
  predicate Editable(doc: Json) {
    && Walkable(doc, ["spec", "config", "integrations", "externalFrameworks"])
    && Walkable(doc, ["spec", "config", "multiKueue", "externalFrameworks"])
  }

  lemma EditableMeans(doc: Json)
    ensures Editable(doc) <==> Walkable(doc, INTEGRATIONS) && Walkable(doc, MULTI_KUEUE)
  {
    hide Walkable;
  }

  /** What reading a list can give: an absent one is no error, a value of another type is. */
  function NestedSlice(doc: Json, path: Path): Nested {
    match NestedField(doc, path)
    case Value(v) => if v.Array? then Value(v) else WrongType
    case other => other
  }

  /** Writing a value creates missing objects on the way and refuses to replace anything that is not an object. */
  function SetNested(doc: Json, path: Path, value: Json): Option<Json>
    requires doc.Object? && path != []
  {
    var key, m := path[0], doc.members;
    if |path| == 1 then Some(Object(m[key := value]))
    else if key !in m then Some(Object(m[key := Nest(path[1..], value)]))
    else if !m[key].Object? then None
    else
      match SetNested(m[key], path[1..], value)
      case None => None
      case Some(inner) => Some(Object(m[key := inner]))
  }

  // ---- Reading and writing one list ----

  lemma {:induction false} NestIsSetPath(path: Path, value: Json)
    ensures SetPath(Null, path, value) == Nest(path, value)
  {
    if path != [] {
      NestIsSetPath(path[1..], value);
      assert SetPath(Null, path[1..], value) == Nest(path[1..], value);
      var none: Members := map[];
      assert none[path[0] := Nest(path[1..], value)] == map[path[0] := Nest(path[1..], value)];
    }
  }

  lemma LastStep(doc: Json, path: Path)
    requires doc.Object? && |path| == 1
    ensures var m := doc.members;
            NestedField(doc, path) == (if path[0] in m then Value(m[path[0]]) else Missing) &&
            Lookup(doc, path) == (if path[0] in m then Some(m[path[0]]) else None)
  {
    assert path[1..] == [];
    if path[0] in doc.members {
      assert NestedField(doc, path) == NestedField(doc.members[path[0]], []);
    }
  }

  /** On a walkable path both calls succeed: the read gives the list or nothing, the write sets just that path. */
  lemma {:induction false} WalkableWorks(doc: Json, path: Path, value: Json)
    requires Walkable(doc, path)
    ensures SetNested(doc, path, value) == Some(SetPath(doc, path, value))
    ensures NestedSlice(doc, path) == if Lookup(doc, path).Some? then Value(Array(Items(doc, path))) else Missing
    decreases |path|
  {
    var key, m := path[0], doc.members;
    if |path| == 1 {
      LastStep(doc, path);
    } else if key !in m {
      NestIsSetPath(path[1..], value);
    } else {
      WalkableWorks(m[key], path[1..], value);
    }
  }

  /** On any other path one of them fails: a wrong type is read, or a null is in the way of the write. */
  lemma {:induction false} UnwalkableFails(doc: Json, path: Path, value: Json)
    requires doc.Object? && path != [] && !Walkable(doc, path)
    ensures NestedSlice(doc, path) == WrongType ||
            (NestedSlice(doc, path) == Missing && SetNested(doc, path, value) == None)
    decreases |path|
  {
    var key, m := path[0], doc.members;
    if |path| == 1 {
      LastStep(doc, path);
    } else if m[key].Object? {
      UnwalkableFails(m[key], path[1..], value);
    } else {
      assert NestedField(doc, path) == NestedField(m[key], path[1..]);
    }
  }

  /** Setting one list changes neither what another one reads nor whether it can be written. */
  lemma {:induction false} WalkableFrame(doc: Json, path: Path, value: Json, other: Path)
    requires Diverge(path, other) && Walkable(doc, path)
    ensures Walkable(SetPath(doc, path, value), other) <==> Walkable(doc, other)
    decreases |path|
  {
    if path[0] == other[0] {
      var below := Member(doc.members, path[0]);
      if path[0] in doc.members {
        WalkableFrame(below, path[1..], value, other[1..]);
      } else {
        FreshWalkable(path[1..], value, other[1..]);
      }
    }
  }

  lemma {:induction false} FreshWalkable(path: Path, value: Json, other: Path)
    requires Diverge(path, other)
    ensures Walkable(SetPath(Null, path, value), other)
    decreases |path|
  {
    if path[0] == other[0] {
      FreshWalkable(path[1..], value, other[1..]);
    }
  }

  lemma {:induction false} ReadFrame(doc: Json, path: Path, value: Json, other: Path)
    requires Diverge(path, other) && Lookup(doc, path).Some?
    ensures NestedField(SetPath(doc, path, value), other) == NestedField(doc, other)
    decreases |path|
  {
    if path[0] == other[0] {
      ReadFrame(doc.members[path[0]], path[1..], value, other[1..]);
    }
  }

  lemma {:induction false} HeldIsWalkable(doc: Json, path: Path)
    requires path != [] && Lookup(doc, path).Some? && Lookup(doc, path).value.Array?
    ensures Walkable(doc, path)
    decreases |path|
  {
    if |path| == 1 {
      assert path[1..] == [] && Lookup(doc, path) == Some(doc.members[path[0]]);
    } else {
      HeldIsWalkable(doc.members[path[0]], path[1..]);
    }
  }

  // ---- The lists of one document ----

  /** Writing two members of an object in either order, or one of them twice. */
  lemma PutPut(m: Members, a: string, x: Json, b: string, y: Json)
    ensures a != b ==> m[a := x][b := y] == m[b := y][a := x]
    ensures m[a := x][a := y] == m[a := y]
    ensures Member(m[a := x], a) == x && (a != b ==> Member(m[a := x], b) == Member(m, b))
  {}

  lemma {:induction false} SetPathCommutes(doc: Json, p: Path, v: Json, q: Path, w: Json)
    requires Diverge(p, q)
    ensures SetPath(SetPath(doc, p, v), q, w) == SetPath(SetPath(doc, q, w), p, v)
    decreases |p|
  {
    hide SetPath;
    var base, k, j := MembersOf(doc), p[0], q[0];
    var left, right := SetPath(Member(base, k), p[1..], v), SetPath(Member(base, j), q[1..], w);
    SetPathStep(doc, p, v);
    SetPathStep(doc, q, w);
    SetPathStep(Object(base[k := left]), q, w);
    SetPathStep(Object(base[j := right]), p, v);
    if k == j {
      SetPathCommutes(Member(base, k), p[1..], v, q[1..], w);
      PutPut(base, k, left, k, SetPath(left, q[1..], w));
      PutPut(base, k, right, k, SetPath(left, q[1..], w));
    } else {
      PutPut(base, k, left, j, right);
      PutPut(base, j, right, k, left);
    }
  }

  lemma {:induction false} SetPathSame(doc: Json, path: Path)
    requires Lookup(doc, path).Some?
    ensures SetPath(doc, path, Lookup(doc, path).value) == doc
    decreases |path|
  {
    if path != [] {
      SetPathSame(doc.members[path[0]], path[1..]);
      assert doc.members[path[0] := doc.members[path[0]]] == doc.members;
    }
  }

  /** Adding elsewhere and setting one list can be done in either order, and neither sees the other. */
  lemma {:induction false} AddAllFrame(doc: Json, path: Path, v: Json, lists: Lists)
    requires AllDiverge(path, lists)
    ensures AddAll(SetPath(doc, path, v), lists) == SetPath(AddAll(doc, lists), path, v)
    ensures Lookup(AddAll(doc, lists), path) == Lookup(doc, path)
    ensures Lacking(SetPath(doc, path, v), lists) == Lacking(doc, lists)
    decreases |lists|
  {
    if lists != [] {
      var p := lists[0];
      assert p in lists;
      SetPathFrame(doc, path, v, p);
      var grown := Array(Items(doc, p) + [PipelineRunFramework()]);
      SetPathFrame(doc, p, grown, path);
      SetPathCommutes(doc, path, v, p, grown);
      AddAllFrame(AddAt(doc, p), path, v, lists[1..]);
      AddAllFrame(doc, path, v, lists[1..]);
    }
  }

  lemma {:induction false} RemoveAllFrame(doc: Json, other: Path, lists: Lists)
    requires AllDiverge(other, lists)
    ensures Lookup(RemoveAll(doc, lists), other) == Lookup(doc, other)
    decreases |lists|
  {
    if lists != [] {
      var p := lists[0];
      assert p in lists;
      SetPathFrame(doc, p, Array(Without(Items(doc, p))), other);
      RemoveAllFrame(RemoveAt(doc, p), other, lists[1..]);
    }
  }

  /** A list is lacking exactly when it is one of those asked for and does not hold the entry. */
  lemma {:induction false} LackingIff(doc: Json, lists: Lists, path: Path)
    ensures path in Lacking(doc, lists) <==> path in lists && !Holds(Items(doc, path))
  {
    if lists != [] {
      LackingIff(doc, lists[1..], path);
    }
  }

  /** Adding to every list appends the entry to each that lacks it and leaves one that holds it alone. */
  lemma {:induction false} AddedLists(doc: Json, lists: Lists, path: Path)
    requires Apart(lists) && path in lists
    ensures Holds(Items(doc, path)) ==> Lookup(AddAll(doc, lists), path) == Lookup(doc, path)
    ensures !Holds(Items(doc, path)) ==>
              Lookup(AddAll(doc, lists), path) == Some(Array(Items(doc, path) + [PipelineRunFramework()]))
    decreases |lists|
  {
    hide SetPath, Lookup, IsPipelineRunFramework, PipelineRunFramework, Diverge;
    var p, rest := lists[0], lists[1..];
    var grown := Array(Items(doc, p) + [PipelineRunFramework()]);
    if path == p {
      AddAllFrame(AddAt(doc, p), p, grown, rest);
      SetPathLookup(doc, p, grown);
    } else {
      assert path in rest;
      SetPathFrame(doc, p, grown, path);
      AddedLists(AddAt(doc, p), rest, path);
    }
  }

  /** A path that parts ways with every list that was lacking keeps its value. */
  lemma {:induction false} AddedFrame(doc: Json, lists: Lists, path: Path)
    requires Apart(lists) && AllDiverge(path, Lacking(doc, lists))
    ensures Lookup(AddAll(doc, lists), path) == Lookup(doc, path)
    decreases |lists|
  {
    hide SetPath, Lookup, IsPipelineRunFramework, PipelineRunFramework, Diverge;
    if lists != [] {
      var p, rest := lists[0], lists[1..];
      var grown := Array(Items(doc, p) + [PipelineRunFramework()]);
      AddAllFrame(doc, p, grown, rest);
      if !Holds(Items(doc, p)) {
        assert p in Lacking(doc, lists);
        SetPathFrame(doc, p, grown, path);
      }
      AddedFrame(AddAt(doc, p), rest, path);
    }
  }

  /** Once added, nothing is lacking, so adding again reports nothing and changes nothing. */
  lemma {:induction false} AddTwice(doc: Json, lists: Lists)
    requires Apart(lists)
    ensures Lacking(AddAll(doc, lists), lists) == []
    ensures AddAll(AddAll(doc, lists), lists) == AddAll(doc, lists)
  {
    forall p | p in lists ensures Holds(Items(AddAll(doc, lists), p)) {
      AddedLists(doc, lists, p);
      if !Holds(Items(doc, p)) {
        assert IsPipelineRunFramework(Items(AddAll(doc, lists), p)[|Items(doc, p)|]);
      }
    }
    NothingLacking(AddAll(doc, lists), lists);
  }

  lemma {:induction false} NothingLacking(doc: Json, lists: Lists)
    requires forall p | p in lists :: Holds(Items(doc, p))
    ensures Lacking(doc, lists) == [] && AddAll(doc, lists) == doc
    decreases |lists|
  {
    if lists != [] {
      assert lists[0] in lists;
      NothingLacking(doc, lists[1..]);
    }
  }

  lemma {:induction false} WithoutFirst(before: seq<Json>, item: Json, after: seq<Json>)
    requires !Holds(before) && IsPipelineRunFramework(item)
    ensures Without(before + [item] + after) == before + after
  {
    var all := before + [item] + after;
    if before == [] {
      assert all[0] == item && all[1..] == after;
      assert before + after == after;
    } else {
      assert !IsPipelineRunFramework(before[0]);
      assert !Holds(before[1..]) by {
        assert forall i | 0 <= i < |before| - 1 :: before[1..][i] == before[i + 1];
      }
      WithoutFirst(before[1..], item, after);
      assert all[1..] == before[1..] + [item] + after;
      assert [before[0]] + (before[1..] + after) == before + after;
    }
  }

  /** Taking the entry out along the reported paths undoes the adding, but for empty lists where there were none. */
  lemma {:induction false} AddThenRemove(doc: Json, lists: Lists)
    requires Apart(lists)
    ensures RemoveAll(AddAll(doc, lists), Lacking(doc, lists)) == Opened(doc, Lacking(doc, lists))
    decreases |lists|
  {
    if lists != [] {
      var p, rest := lists[0], lists[1..];
      if Holds(Items(doc, p)) {
        AddThenRemove(doc, rest);
        assert Lacking(doc, lists) == Lacking(doc, rest);
      } else {
        var items := Items(doc, p);
        var grown := items + [PipelineRunFramework()];
        var more := SetPath(doc, p, Array(grown));
        var filled := SetPath(doc, p, Array(items));
        AddAllFrame(more, p, Array(items), rest);
        AddAllFrame(doc, p, Array(items), rest);
        SetPathLookup(doc, p, Array(grown));
        SetPathTwice(doc, p, Array(grown), Array(items));
        WithoutFirst(items, PipelineRunFramework(), []);
        assert items + [PipelineRunFramework()] + [] == grown && items + [] == items;
        assert Holds(grown) by { assert IsPipelineRunFramework(grown[|items|]); }
        assert RemoveAt(AddAll(more, rest), p) == AddAll(filled, rest);
        AddThenRemove(filled, rest);
        assert Lacking(doc, lists)[1..] == Lacking(doc, rest);
      }
    }
  }

  /** So the whole document is given back exactly when every list the entry was added to had been there. */
  lemma {:induction false} AddThenRemoveExactIff(doc: Json, lists: Lists)
    requires Apart(lists)
    ensures RemoveAll(AddAll(doc, lists), Lacking(doc, lists)) == doc <==>
            forall p | p in Lacking(doc, lists) :: Lookup(doc, p).Some? && Lookup(doc, p).value.Array?
  {
    AddThenRemove(doc, lists);
    LackingApart(doc, lists);
    OpenedLists(doc, Lacking(doc, lists));
  }

  lemma {:induction false} LackingApart(doc: Json, lists: Lists)
    requires Apart(lists)
    ensures Apart(Lacking(doc, lists))
    ensures forall p | p in Lacking(doc, lists) :: p in lists
    decreases |lists|
  {
    if lists != [] {
      LackingApart(doc, lists[1..]);
      assert Lacking(doc, lists) == Lacking(doc, lists[1..]) || Lacking(doc, lists)[1..] == Lacking(doc, lists[1..]);
    }
  }

  lemma {:induction false} OpenedFrame(doc: Json, lists: Lists, path: Path)
    requires AllDiverge(path, lists)
    ensures Lookup(Opened(doc, lists), path) == Lookup(doc, path)
    decreases |lists|
  {
    if lists != [] {
      var p := lists[0];
      assert p in lists;
      SetPathFrame(doc, p, Array(Items(doc, p)), path);
      OpenedFrame(SetPath(doc, p, Array(Items(doc, p))), lists[1..], path);
    }
  }

  /** Every list is open afterwards with the items it had, so nothing changed exactly when all were open before. */
  lemma {:induction false} OpenedLists(doc: Json, lists: Lists)
    requires Apart(lists)
    ensures forall p | p in lists :: Lookup(Opened(doc, lists), p) == Some(Array(Items(doc, p)))
    ensures Opened(doc, lists) == doc <==> forall p | p in lists :: Lookup(doc, p).Some? && Lookup(doc, p).value.Array?
    decreases |lists|
  {
    if lists != [] {
      hide SetPath, Lookup, Diverge;
      var p, rest := lists[0], lists[1..];
      var filled := SetPath(doc, p, Array(Items(doc, p)));
      SetPathLookup(doc, p, Array(Items(doc, p)));
      OpenedFrame(filled, rest, p);
      OpenedLists(filled, rest);
      forall q | q in rest ensures Lookup(filled, q) == Lookup(doc, q) {
        SetPathFrame(doc, p, Array(Items(doc, p)), q);
      }
      if forall q | q in lists :: Lookup(doc, q).Some? && Lookup(doc, q).value.Array? {
        assert p in lists;
        SetPathSame(doc, p);
      }
    }
  }

  /** Whatever the document has become by then, removing takes the first entry of each list and nothing else. */
  lemma {:induction false} RemovedLists(doc: Json, lists: Lists, path: Path)
    requires Apart(lists)
    ensures path in lists && Holds(Items(doc, path)) ==>
              Lookup(RemoveAll(doc, lists), path) == Some(Array(Without(Items(doc, path))))
    ensures path in lists && !Holds(Items(doc, path)) ==> Lookup(RemoveAll(doc, lists), path) == Lookup(doc, path)
    ensures AllDiverge(path, lists) ==> Lookup(RemoveAll(doc, lists), path) == Lookup(doc, path)
    decreases |lists|
  {
    if AllDiverge(path, lists) {
      RemoveAllFrame(doc, path, lists);
    }
    if lists != [] {
      var p, rest := lists[0], lists[1..];
      var less := Array(Without(Items(doc, p)));
      if path == p {
        SetPathLookup(doc, p, less);
        RemoveAllFrame(RemoveAt(doc, p), p, rest);
      }
      if path in rest {
        SetPathFrame(doc, p, less, path);
        RemovedLists(RemoveAt(doc, p), rest, path);
      }
    }
  }

  /** What others put before and after the first entry is still there, in order. */
  lemma EditsSurvive(live: Json, lists: Lists, path: Path, before: seq<Json>, item: Json, after: seq<Json>)
    requires Apart(lists) && path in lists && Items(live, path) == before + [item] + after
    requires !Holds(before) && IsPipelineRunFramework(item)
    ensures Lookup(RemoveAll(live, lists), path) == Some(Array(before + after))
  {
    assert IsPipelineRunFramework(Items(live, path)[|before|]);
    WithoutFirst(before, item, after);
    RemovedLists(live, lists, path);
  }

  // ---- Whose entry is removed ----

  /** A list entry together with who put it there. */
  datatype Mark = Mark(item: Json, own: bool)

  function Unmarked(marks: seq<Mark>): seq<Json> {
    seq(|marks|, i requires 0 <= i < |marks| => marks[i].item)
  }

  /** The run's entry stands at `i`, and nobody has put one in front of it. */
  predicate OwnFirst(marks: seq<Mark>, i: nat) {
    i < |marks| && marks[i].own && IsPipelineRunFramework(marks[i].item) && !Holds(Unmarked(marks[..i]))
  }

  /** The mark of the entry that a removal takes, if it takes any. */
  function Taken(marks: seq<Mark>): Option<Mark> {
    if marks == [] then None
    else if IsPipelineRunFramework(marks[0].item) then Some(marks[0])
    else Taken(marks[1..])
  }

  /** That is the entry the removal drops from the list, all others staying in order. */
  lemma {:induction false} TakenIsRemoved(marks: seq<Mark>) returns (i: nat)
    requires Taken(marks).Some?
    ensures i < |marks| && marks[i] == Taken(marks).value
    ensures Without(Unmarked(marks)) == Unmarked(marks[..i] + marks[i + 1..])
    ensures IsPipelineRunFramework(marks[i].item) && !Holds(Unmarked(marks[..i]))
  {
    hide IsPipelineRunFramework;
    assert Unmarked(marks) == [marks[0].item] + Unmarked(marks[1..]);
    if IsPipelineRunFramework(marks[0].item) {
      i := 0;
      assert marks[..0] + marks[1..] == marks[1..];
      assert Unmarked(marks[..0]) == [];
    } else {
      var k := TakenIsRemoved(marks[1..]);
      i := k + 1;
      assert marks[..i] + marks[i + 1..] == [marks[0]] + (marks[1..][..k] + marks[1..][k + 1..]);
      assert Unmarked(marks[..i] + marks[i + 1..]) ==
             [marks[0].item] + Unmarked(marks[1..][..k] + marks[1..][k + 1..]);
      assert Unmarked(marks[..i]) == [marks[0].item] + Unmarked(marks[1..][..k]);
      HoldsBehind(marks[0].item, Unmarked(marks[1..][..k]));
    }
  }

  /**
   What the code takes out of a list, by whom it was put there: the run's own entry exactly when that is there
   and no other matching one precedes it.
   */
  lemma RemovalTakesOwnIff(marks: seq<Mark>)
    ensures Holds(Unmarked(marks)) ==> exists i: nat ::
              && RemovedAt(marks, i)
              && (marks[i].own <==> exists k: nat :: OwnFirst(marks, k))
  {
    TakesOwnIff(marks);
    if Holds(Unmarked(marks)) {
      var i := TakenIsRemoved(marks);
      assert RemovedAt(marks, i);
    }
  }

  /** The removal drops exactly the entry at `i`. */
  ghost predicate RemovedAt(marks: seq<Mark>, i: nat) {
    i < |marks| && Without(Unmarked(marks)) == Unmarked(marks[..i] + marks[i + 1..]) &&
    IsPipelineRunFramework(marks[i].item) && !Holds(Unmarked(marks[..i]))
  }

  /**
   The run reads an object without lists and registers its cleanup, but its update loses to another actor that
   adds the same entry. The cleanup then takes that actor's entry out of both lists.
   */
  lemma LostUpdateTakesTheirs()
    ensures
      var read := Object(map[]);
      var theirs := AddAll(read, THE_LISTS);
      var left := RemoveAll(theirs, Lacking(read, THE_LISTS));
      && Items(theirs, INTEGRATIONS) == [PipelineRunFramework()] && Items(left, INTEGRATIONS) == []
      && Items(theirs, MULTI_KUEUE) == [PipelineRunFramework()] && Items(left, MULTI_KUEUE) == []
  {
    var read := Object(map[]);
    TheListsAreApart();
    forall path | path in THE_LISTS
      ensures Items(AddAll(read, THE_LISTS), path) == [PipelineRunFramework()]
      ensures Items(RemoveAll(AddAll(read, THE_LISTS), Lacking(read, THE_LISTS)), path) == []
    {
      EmptyHasNoList(path);
      LackingIff(read, THE_LISTS, path);
      OnlyEntryIsOwn(read, THE_LISTS, path);
      LackingApart(read, THE_LISTS);
      WithoutFirst([], PipelineRunFramework(), []);
      assert [] + [PipelineRunFramework()] + [] == [PipelineRunFramework()];
      EditsSurvive(AddAll(read, THE_LISTS), Lacking(read, THE_LISTS), path, [], PipelineRunFramework(), []);
    }
    hide AddAll, RemoveAll, Lacking, Items;
  }

  lemma EmptyHasNoList(path: Path)
    requires path != []
    ensures Items(Object(map[]), path) == []
  {
  }

  /**
   Whatever others did to the list, the removal takes the run's own entry exactly when that is still there and
   no other matching entry precedes it. In particular, if the update that was to add the entry did not take
   effect, what is taken is somebody else's.
   */
  lemma {:induction false} TakesOwnIff(marks: seq<Mark>)
    ensures Taken(marks).Some? <==> Holds(Unmarked(marks))
    ensures (exists i: nat :: OwnFirst(marks, i)) <==> Taken(marks).Some? && Taken(marks).value.own
    ensures (forall i | 0 <= i < |marks| :: !marks[i].own) && Holds(Unmarked(marks)) ==> !Taken(marks).value.own
    decreases |marks|
  {
    hide IsPipelineRunFramework;
    if marks != [] {
      var rest := marks[1..];
      TakesOwnIff(rest);
      assert Unmarked(marks) == [marks[0].item] + Unmarked(rest);
      if IsPipelineRunFramework(marks[0].item) {
        assert Unmarked(marks)[0] == marks[0].item;
        assert marks[0].own ==> OwnFirst(marks, 0);
        forall i | 0 < i <= |marks| ensures Holds(Unmarked(marks[..i])) {
          assert IsPipelineRunFramework(Unmarked(marks[..i])[0]);
        }
      } else {
        forall i: nat | i < |rest| ensures OwnFirst(rest, i) <==> OwnFirst(marks, i + 1) {
          assert Unmarked(marks[..i + 1]) == [marks[0].item] + Unmarked(rest[..i]);
          HoldsBehind(marks[0].item, Unmarked(rest[..i]));
          assert rest[i] == marks[i + 1];
        }
        assert !OwnFirst(marks, 0);
        HoldsBehind(marks[0].item, Unmarked(rest));
        if i: nat :| OwnFirst(marks, i) {
          assert OwnFirst(rest, i - 1);
        }
        if i: nat :| OwnFirst(rest, i) {
          assert OwnFirst(marks, i + 1);
        }
      }
    }
  }

  lemma HoldsBehind(item: Json, rest: seq<Json>)
    requires !IsPipelineRunFramework(item)
    ensures Holds([item] + rest) <==> Holds(rest)
  {
    var all := [item] + rest;
    if i :| 0 <= i < |rest| && IsPipelineRunFramework(rest[i]) {
      assert IsPipelineRunFramework(all[i + 1]);
    }
    if i :| 0 <= i < |all| && IsPipelineRunFramework(all[i]) {
      assert IsPipelineRunFramework(rest[i - 1]);
    }
  }

  /** Where the update took effect, the only matching entry of each reported list is the one it appended. */
  lemma OnlyEntryIsOwn(before: Json, lists: Lists, path: Path)
    requires Apart(lists) && path in Lacking(before, lists)
    ensures !Holds(Items(before, path))
    ensures Items(AddAll(before, lists), path) == Items(before, path) + [PipelineRunFramework()]
  {
    LackingIff(before, lists, path);
    AddedLists(before, lists, path);
  }

  /** The created object lacks nothing that would be added to an existing one. */
  lemma RequiredIsComplete(labels: Json)
    ensures Lacking(RequiredKueue(labels), THE_LISTS) == [] && RequiredKueue(labels).Object?
  {
    hide WithBothLists, Lacking, KueueRest;
    BothListsComplete(KueueRest(labels));
  }

  lemma BothListsComplete(doc: Json)
    ensures Lacking(WithBothLists(doc), THE_LISTS) == [] && WithBothLists(doc).Object?
  {
    var entry := Array([PipelineRunFramework()]);
    var one, two := SetPath(doc, INTEGRATIONS, entry), WithBothLists(doc);
    TheListsAreApart();
    assert THE_LISTS[1..] == [MULTI_KUEUE] && MULTI_KUEUE in THE_LISTS[1..];
    SetPathLookup(doc, INTEGRATIONS, entry);
    SetPathFrame(one, MULTI_KUEUE, entry, INTEGRATIONS);
    SetPathLookup(one, MULTI_KUEUE, entry);
    assert two.Object?;
    hide SetPath, WithBothLists, Lookup, PipelineRunFramework;
    assert IsPipelineRunFramework(entry.items[0]);
    NothingLacking(two, THE_LISTS);
  }

  lemma TheListsAreApart()
    ensures Apart(THE_LISTS)
    ensures forall p :: p in THE_LISTS <==> p == INTEGRATIONS || p == MULTI_KUEUE
  {
    var shared := ["spec", "config"];
    var a, b := ["integrations", "externalFrameworks"], ["multiKueue", "externalFrameworks"];
    assert |a[0]| == 12 && |b[0]| == 10;
    DivergeBelow(shared, a, b);
    DivergeBelow(shared, b, a);
    assert shared + a == INTEGRATIONS && shared + b == MULTI_KUEUE;
    var lists := THE_LISTS;
    assert lists[1..] == [MULTI_KUEUE] && [MULTI_KUEUE][1..] == [];
    assert Apart([MULTI_KUEUE]);
  }

  // ---- What the lists hold, member by member ----

  /** An entry is one for PipelineRuns exactly when these three members have these values, whatever else it has. */
  lemma EntryIff(item: Json)
    ensures IsPipelineRunFramework(item) <==>
            && item.Object?
            && "group" in item.members && item.members["group"] == String("tekton.dev")
            && "resource" in item.members && item.members["resource"] == String("pipelineruns")
            && "version" in item.members && item.members["version"] == String("v1")
  {
  }

  /** The list at the path has an entry for version v1 of Tekton's PipelineRuns. */
  predicate ListsPipelineRuns(doc: Json, path: Path) {
    exists i | 0 <= i < |Items(doc, path)| ::
      var item := Items(doc, path)[i];
      && item.Object?
      && "group" in item.members && item.members["group"] == String("tekton.dev")
      && "resource" in item.members && item.members["resource"] == String("pipelineruns")
      && "version" in item.members && item.members["version"] == String("v1")
  }

  lemma HoldsIffListed(doc: Json, path: Path)
    ensures Holds(Items(doc, path)) <==> ListsPipelineRuns(doc, path)
  {
    var items := Items(doc, path);
    hide IsPipelineRunFramework, Items;
    forall i | 0 <= i < |items| ensures IsPipelineRunFramework(items[i]) ==> ListsPipelineRuns(doc, path) {
      EntryIff(items[i]);
    }
    if ListsPipelineRuns(doc, path) {
      var i :| 0 <= i < |items| && items[i].Object?
        && "group" in items[i].members && items[i].members["group"] == String("tekton.dev")
        && "resource" in items[i].members && items[i].members["resource"] == String("pipelineruns")
        && "version" in items[i].members && items[i].members["version"] == String("v1");
      EntryIff(items[i]);
    }
  }

  /** Both lists the test depends on have it. */
  predicate Integrated(doc: Json) {
    && ListsPipelineRuns(doc, ["spec", "config", "integrations", "externalFrameworks"])
    && ListsPipelineRuns(doc, ["spec", "config", "multiKueue", "externalFrameworks"])
  }

  /** Reported are those of the two lists that have no such entry. */
  lemma LackingMeans(doc: Json, path: Path)
    ensures path in Lacking(doc, THE_LISTS) <==>
            (path == ["spec", "config", "integrations", "externalFrameworks"] ||
             path == ["spec", "config", "multiKueue", "externalFrameworks"]) && !ListsPipelineRuns(doc, path)
    ensures Lacking(doc, THE_LISTS) == [] <==> Integrated(doc)
  {
    TheListsAreApart();
    LackingIff(doc, THE_LISTS, path);
    HoldsIffListed(doc, path);
    LackingIff(doc, THE_LISTS, INTEGRATIONS);
    LackingIff(doc, THE_LISTS, MULTI_KUEUE);
    HoldsIffListed(doc, INTEGRATIONS);
    HoldsIffListed(doc, MULTI_KUEUE);
    hide Lacking, ListsPipelineRuns, Holds, Items;
    if Lacking(doc, THE_LISTS) != [] {
      var p := Lacking(doc, THE_LISTS)[0];
      LackingIff(doc, THE_LISTS, p);
    }
  }

  // ---- The operations ----

  /** An untyped object held in memory; it is changed in place. */
  class Unstructured {
    var doc: Json

    constructor (content: Json)
      ensures doc == content
    {
      doc := content;
    }
  }

  /** Adding to one list leaves the others as readable, writable and lacking as they were. */
  lemma AddStep(doc: Json, lists: Lists)
    requires lists != [] && Apart(lists) && Walkable(doc, lists[0])
    ensures Lacking(AddAt(doc, lists[0]), lists[1..]) == Lacking(doc, lists[1..])
    ensures forall q | q in lists[1..] :: Walkable(AddAt(doc, lists[0]), q) <==> Walkable(doc, q)
    ensures AddAt(doc, lists[0]).Object?
  {
    var p := lists[0];
    var grown := Array(Items(doc, p) + [PipelineRunFramework()]);
    AddAllFrame(doc, p, grown, lists[1..]);
    forall q | q in lists[1..] ensures Walkable(SetPath(doc, p, grown), q) <==> Walkable(doc, q) {
      WalkableFrame(doc, p, grown, q);
    }
  }

  method AddFramework(kueue: Unstructured, path: Path) returns (r: Option<bool>)
    requires kueue.doc.Object? && path != []
    modifies kueue
    ensures r.Some? <==> Walkable(old(kueue.doc), path)
    ensures r.Some? ==> kueue.doc == AddAt(old(kueue.doc), path)
    ensures r.Some? ==> r.value == !Holds(Items(old(kueue.doc), path))
    ensures r.None? ==> kueue.doc == old(kueue.doc)
  {
    ghost var grown := Array(Items(kueue.doc, path) + [PipelineRunFramework()]);
    assert Walkable(kueue.doc, path) ==>
             SetNested(kueue.doc, path, grown) == Some(SetPath(kueue.doc, path, grown)) &&
             NestedSlice(kueue.doc, path) ==
             (if Lookup(kueue.doc, path).Some? then Value(Array(Items(kueue.doc, path))) else Missing)
    by {
      if Walkable(kueue.doc, path) { WalkableWorks(kueue.doc, path, grown); }
    }
    assert !Walkable(kueue.doc, path) ==>
             NestedSlice(kueue.doc, path) == WrongType ||
             (NestedSlice(kueue.doc, path) == Missing &&
              SetNested(kueue.doc, path, Array([PipelineRunFramework()])) == None)
    by {
      if !Walkable(kueue.doc, path) { UnwalkableFails(kueue.doc, path, Array([PipelineRunFramework()])); }
    }
    hide SetNested, NestedField, SetPath, Lookup, Walkable, IsPipelineRunFramework, PipelineRunFramework;
    var read := NestedSlice(kueue.doc, path);
    if read.WrongType? {
      return None;
    }
    var items := if read.Value? then read.v.items else [];
    var held := Holds(items);
    if held {
      return Some(false);
    }
    assert read.Missing? ==> items + [PipelineRunFramework()] == [PipelineRunFramework()];
    match SetNested(kueue.doc, path, Array(items + [PipelineRunFramework()]))
    case None => return None;
    case Some(changed) =>
      kueue.doc := changed;
      return Some(true);
  }

  /** Adds the entry to each of the two lists that lacks it and reports those, in order. */
  method EnsurePipelineRunIntegration(kueue: Unstructured) returns (r: Option<Lists>)
    requires kueue.doc.Object?
    modifies kueue
    ensures r.Some? <==> Editable(old(kueue.doc))
    ensures r.Some? ==> kueue.doc == AddAll(old(kueue.doc), THE_LISTS) && kueue.doc.Object?
    ensures r.Some? ==> r.value == Lacking(old(kueue.doc), THE_LISTS) && Integrated(kueue.doc)
    ensures r.Some? ==> forall path :: path in r.value <==>
              (path == ["spec", "config", "integrations", "externalFrameworks"] ||
               path == ["spec", "config", "multiKueue", "externalFrameworks"]) &&
              !ListsPipelineRuns(old(kueue.doc), path)
  {
    hide *;
    EditableMeans(kueue.doc);
    TheListsAreApart();
    r := AddFrameworks(kueue, THE_LISTS);
    AddTwice(old(kueue.doc), THE_LISTS);
    LackingMeans(kueue.doc, []);
    forall path
      ensures path in Lacking(old(kueue.doc), THE_LISTS) <==>
              (path == ["spec", "config", "integrations", "externalFrameworks"] ||
               path == ["spec", "config", "multiKueue", "externalFrameworks"]) &&
              !ListsPipelineRuns(old(kueue.doc), path)
    {
      LackingMeans(old(kueue.doc), path);
    }
  }

  method AddFrameworks(kueue: Unstructured, lists: Lists) returns (r: Option<Lists>)
    requires kueue.doc.Object? && Apart(lists)
    modifies kueue
    ensures r.Some? <==> forall p | p in lists :: Walkable(old(kueue.doc), p)
    ensures r.Some? ==> kueue.doc == AddAll(old(kueue.doc), lists) && kueue.doc.Object?
    ensures r.Some? ==> r.value == Lacking(old(kueue.doc), lists)
  {
    ghost var start := kueue.doc;
    var changed: Lists := [];
    var i := 0;
    assert lists[0..] == lists;
    assert AddingRest(start, kueue.doc, lists, lists, changed);
    hide *;
    while i < |lists|
      invariant 0 <= i <= |lists|
      invariant forall j | 0 <= j < i :: Walkable(start, lists[j])
      invariant AddingRest(start, kueue.doc, lists, lists[i..], changed)
    {
      assert lists[i..][0] == lists[i] && lists[i..][1..] == lists[i + 1..];
      AddingFirst(start, kueue.doc, lists, lists[i..], changed);
      var added := AddFramework(kueue, lists[i]);
      if added.None? {
        return None;
      }
      if added.value {
        changed := changed + [lists[i]];
      }
      i := i + 1;
    }
    AddingDone(start, kueue.doc, lists, changed);
    return Some(changed);
  }

  /** `doc` is on its way from `start` with `rest` still to be added to and `changed` reported so far. */
  ghost predicate AddingRest(start: Json, doc: Json, lists: Lists, rest: Lists, changed: Lists) {
    && doc.Object? && Apart(rest)
    && (forall q | q in rest :: Walkable(doc, q) <==> Walkable(start, q))
    && AddAll(doc, rest) == AddAll(start, lists)
    && changed + Lacking(doc, rest) == Lacking(start, lists)
  }

  lemma AddingFirst(start: Json, doc: Json, lists: Lists, rest: Lists, changed: Lists)
    requires AddingRest(start, doc, lists, rest, changed) && rest != []
    ensures doc.Object? && rest[0] != [] && (Walkable(doc, rest[0]) <==> Walkable(start, rest[0]))
    ensures Walkable(doc, rest[0]) ==>
              AddingRest(start, AddAt(doc, rest[0]), lists, rest[1..],
                         if Holds(Items(doc, rest[0])) then changed else changed + [rest[0]])
  {
    hide Lookup, Holds, Items, AddAt, AllDiverge, Diverge, Walkable, PipelineRunFramework;
    assert rest[0] in rest;
    if Walkable(doc, rest[0]) {
      AddStep(doc, rest);
    }
  }

  lemma AddingDone(start: Json, doc: Json, lists: Lists, changed: Lists)
    requires AddingRest(start, doc, lists, [], changed)
    ensures doc == AddAll(start, lists) && doc.Object? && changed == Lacking(start, lists)
  {
    assert Lacking(doc, []) == [];
  }

  /** Drops the first PipelineRun entry, in place of nothing else. */
  method RemovePipelineRunFramework(items: seq<Json>) returns (rest: seq<Json>, removed: bool)
    ensures removed == Holds(items)
    ensures rest == if removed then Without(items) else items
    ensures removed ==> exists i | 0 <= i < |items| ::
              IsPipelineRunFramework(items[i]) && !Holds(items[..i]) && rest == items[..i] + items[i + 1..]
  {
    for i := 0 to |items|
      invariant !Holds(items[..i])
    {
      if IsPipelineRunFramework(items[i]) {
        WithoutFirst(items[..i], items[i], items[i + 1..]);
        assert items == items[..i] + [items[i]] + items[i + 1..];
        return items[..i] + items[i + 1..], true;
      }
      assert items[..i + 1] == items[..i] + [items[i]];
    }
    assert items[..|items|] == items;
    return items, false;
  }

  /** Reading the list at a path reports a type error, the one way removing it can fail. */
  predicate Unreadable(doc: Json, path: Path) {
    NestedSlice(doc, path) == WrongType
  }

  lemma RemoveStep(doc: Json, lists: Lists)
    requires lists != [] && Apart(lists)
    ensures forall q | q in lists[1..] ::
              Holds(Items(RemoveAt(doc, lists[0]), q)) == Holds(Items(doc, q)) &&
              Unreadable(RemoveAt(doc, lists[0]), q) == Unreadable(doc, q)
  {
    var p := lists[0];
    if Holds(Items(doc, p)) {
      var less := Array(Without(Items(doc, p)));
      forall q | q in lists[1..]
        ensures Lookup(SetPath(doc, p, less), q) == Lookup(doc, q)
        ensures NestedField(SetPath(doc, p, less), q) == NestedField(doc, q)
      {
        SetPathFrame(doc, p, less, q);
        ReadFrame(doc, p, less, q);
      }
    }
  }

  lemma ReadGives(doc: Json, path: Path, value: Json)
    requires doc.Object? && path != [] && !Unreadable(doc, path)
    ensures NestedSlice(doc, path).Value? ==> NestedSlice(doc, path).v == Array(Items(doc, path))
    ensures NestedSlice(doc, path).Missing? ==> Items(doc, path) == []
    ensures Holds(Items(doc, path)) ==> SetNested(doc, path, value) == Some(SetPath(doc, path, value))
  {
    NestedFound(doc, path);
    if Holds(Items(doc, path)) {
      HeldIsWalkable(doc, path);
      WalkableWorks(doc, path, value);
    }
  }

  method RemoveFrom(kueue: Unstructured, path: Path) returns (r: Option<bool>)
    requires kueue.doc.Object? && path != []
    modifies kueue
    ensures r.None? <==> Unreadable(old(kueue.doc), path)
    ensures r.Some? ==> kueue.doc == RemoveAt(old(kueue.doc), path) && kueue.doc.Object?
    ensures r.Some? ==> r.value == Holds(Items(old(kueue.doc), path))
  {
    hide SetNested, NestedField, Lookup, Holds;
    var read := NestedSlice(kueue.doc, path);
    if read.WrongType? {
      return None;
    }
    var found := if read.Value? then read.v.items else [];
    var rest, removed := RemovePipelineRunFramework(found);
    ReadGives(kueue.doc, path, Array(rest));
    if removed {
      match SetNested(kueue.doc, path, Array(rest)) {
        case None => return None;
        case Some(changed) => kueue.doc := changed;
      }
    }
    return Some(removed);
  }

  /** The removal on a document read back: it stops at the first list that is not one. */
  method RemoveFrameworks(kueue: Unstructured, lists: Lists) returns (r: Option<bool>)
    requires kueue.doc.Object? && Apart(lists)
    modifies kueue
    ensures r.Some? <==> forall p | p in lists :: !Unreadable(old(kueue.doc), p)
    ensures r.Some? ==> kueue.doc == RemoveAll(old(kueue.doc), lists) && kueue.doc.Object?
    ensures r.Some? ==> (r.value <==> exists p | p in lists :: Holds(Items(old(kueue.doc), p)))
  {
    hide NestedSlice, NestedField, Lookup, Holds, Items, RemoveAt, AllDiverge, Diverge;
    ghost var start := kueue.doc;
    var changed, i := false, 0;
    assert lists[0..] == lists;
    while i < |lists|
      invariant 0 <= i <= |lists|
      invariant kueue.doc.Object? && Apart(lists[i..])
      invariant forall j | 0 <= j < i :: !Unreadable(start, lists[j])
      invariant forall q | q in lists[i..] ::
                  Unreadable(kueue.doc, q) == Unreadable(start, q) &&
                      Holds(Items(kueue.doc, q)) == Holds(Items(start, q))
      invariant RemoveAll(kueue.doc, lists[i..]) == RemoveAll(start, lists)
      invariant changed <==> exists j | 0 <= j < i :: Holds(Items(start, lists[j]))
    {
      assert lists[i..][0] == lists[i] && lists[i..][1..] == lists[i + 1..];
      assert lists[i] in lists[i..];
      RemoveStep(kueue.doc, lists[i..]);
      var removed := RemoveFrom(kueue, lists[i]);
      if removed.None? {
        return None;
      }
      changed := changed || removed.value;
      i := i + 1;
    }
    return Some(changed);
  }

  lemma {:induction false} RemoveNothing(doc: Json, lists: Lists)
    requires forall p | p in lists :: !Holds(Items(doc, p))
    ensures RemoveAll(doc, lists) == doc
    decreases |lists|
  {
    if lists != [] {
      assert lists[0] in lists;
      RemoveNothing(doc, lists[1..]);
    }
  }
}
