/**
 The cache of per-user kubeconfigs for approval tests. A change of a user's groups marks the user, and
 the mark makes the next use of the cached kubeconfig log in again.
 */
module LoginCache {
  import opened Strings
  import opened Wrappers

  // ---- Comparing memberships ----

  /** Go compares strings byte by byte; on valid UTF-8 that is the order of the code points. */
  predicate AtMost(a: string, b: string) {
    a == "" || (b != "" && (a[0] < b[0] || (a[0] == b[0] && AtMost(a[1..], b[1..]))))
  }

  function Insert(x: string, sorted: seq<string>): seq<string> {
    if sorted == [] || AtMost(x, sorted[0]) then [x] + sorted else [sorted[0]] + Insert(x, sorted[1..])
  }

  function Sort(names: seq<string>): seq<string> {
    if names == [] then [] else Insert(names[0], Sort(names[1..]))
  }

  /** How the code tells memberships apart: sorted, joined with commas and compared as text. */
  predicate LooksSame(a: seq<string>, b: seq<string>) {
    Join(Sort(a), ",") == Join(Sort(b), ",")
  }

  predicate CommaFree(names: seq<string>) {
    forall i | 0 <= i < |names| :: Free(names[i], ',')
  }

  lemma {:induction false} InsertKeeps(x: string, sorted: seq<string>)
    ensures multiset(Insert(x, sorted)) == multiset(sorted) + multiset{x}
  {
    if sorted == [] || AtMost(x, sorted[0]) {
    } else {
      InsertKeeps(x, sorted[1..]);
      assert sorted == [sorted[0]] + sorted[1..];
    }
  }

  lemma {:induction false} SortKeeps(names: seq<string>)
    ensures multiset(Sort(names)) == multiset(names)
  {
    if names != [] {
      SortKeeps(names[1..]);
      InsertKeeps(names[0], Sort(names[1..]));
      assert names == [names[0]] + names[1..];
    }
  }

  lemma SortMembers(names: seq<string>, x: string)
    ensures x in Sort(names) <==> x in names
  {
    SortKeeps(names);
    assert x in multiset(Sort(names)) <==> x in multiset(names);
  }

  // ---- The order is a total one, so sorting has one result ----

  lemma {:induction false} AtMostTotal(a: string, b: string)
    ensures AtMost(a, b) || AtMost(b, a)
    ensures AtMost(a, b) && AtMost(b, a) ==> a == b
  {
    if a != "" && b != "" && a[0] == b[0] {
      AtMostTotal(a[1..], b[1..]);
      assert a == [a[0]] + a[1..] && b == [b[0]] + b[1..];
    }
  }

  lemma {:induction false} AtMostTrans(a: string, b: string, c: string)
    requires AtMost(a, b) && AtMost(b, c)
    ensures AtMost(a, c)
  {
    if a != "" && b != "" && c != "" && a[0] == b[0] == c[0] {
      AtMostTrans(a[1..], b[1..], c[1..]);
    }
  }

  predicate Sorted(names: seq<string>) {
    forall i, j | 0 <= i < j < |names| :: AtMost(names[i], names[j])
  }

  lemma {:induction false} InsertSorted(x: string, sorted: seq<string>)
    requires Sorted(sorted)
    ensures Sorted(Insert(x, sorted))
  {
    hide AtMost;
    var result := Insert(x, sorted);
    if sorted != [] {
      AtMostTotal(x, sorted[0]);
      if AtMost(x, sorted[0]) {
        forall j | 0 < j < |sorted| ensures AtMost(x, sorted[j]) {
          AtMostTrans(x, sorted[0], sorted[j]);
        }
      } else {
        InsertSorted(x, sorted[1..]);
        InsertKeeps(x, sorted[1..]);
        forall y | y in Insert(x, sorted[1..]) ensures AtMost(sorted[0], y) {
          assert y in multiset(Insert(x, sorted[1..]));
          assert y == x || y in sorted[1..];
        }
      }
    }
  }

  lemma {:induction false} SortSorted(names: seq<string>)
    ensures Sorted(Sort(names))
  {
    if names != [] {
      SortSorted(names[1..]);
      InsertSorted(names[0], Sort(names[1..]));
    }
  }

  lemma {:induction false} SortedUnique(a: seq<string>, b: seq<string>)
    requires Sorted(a) && Sorted(b) && multiset(a) == multiset(b)
    ensures a == b
    decreases |a|
  {
    hide AtMost;
    assert |a| == |multiset(a)| == |multiset(b)| == |b|;
    if a != [] {
      assert a[0] in multiset(b) && b[0] in multiset(a);
      AtMostTotal(a[0], a[0]);
      AtMostTotal(a[0], b[0]);
      assert a[0] == b[0];
      assert a == [a[0]] + a[1..] && b == [b[0]] + b[1..];
      assert multiset(a[1..]) == multiset(a) - multiset{a[0]};
      assert multiset(b[1..]) == multiset(b) - multiset{b[0]};
      SortedUnique(a[1..], b[1..]);
    }
  }

  /** The same members in any order look the same; without commas only they do. */
  lemma LooksSameIff(a: seq<string>, b: seq<string>)
    ensures multiset(a) == multiset(b) ==> LooksSame(a, b)
    ensures Tokens(a) && Tokens(b) && CommaFree(a) && CommaFree(b) ==>
              (LooksSame(a, b) <==> multiset(a) == multiset(b))
  {
    SortKeeps(a);
    SortKeeps(b);
    if multiset(a) == multiset(b) {
      SortSorted(a);
      SortSorted(b);
      SortedUnique(Sort(a), Sort(b));
    } else if Tokens(a) && Tokens(b) && CommaFree(a) && CommaFree(b) && LooksSame(a, b) {
      SortedListsEqual(a, b);
    }
  }

  /** Among names without commas, memberships that look the same have the same members. */
  lemma LooksSameIsSame(a: seq<string>, b: seq<string>, x: string)
    requires LooksSame(a, b) && Tokens(a) && Tokens(b) && CommaFree(a) && CommaFree(b)
    ensures x in a <==> x in b
  {
    SortedListsEqual(a, b);
    SortMembers(a, x);
    SortMembers(b, x);
  }

  lemma SortedListsEqual(a: seq<string>, b: seq<string>)
    requires LooksSame(a, b) && Tokens(a) && Tokens(b) && CommaFree(a) && CommaFree(b)
    ensures Sort(a) == Sort(b)
  {
    forall i | 0 <= i < |Sort(a)| ensures Free(Sort(a)[i], ',') && Sort(a)[i] != "" {
      SortMembers(a, Sort(a)[i]);
    }
    forall i | 0 <= i < |Sort(b)| ensures Free(Sort(b)[i], ',') && Sort(b)[i] != "" {
      SortMembers(b, Sort(b)[i]);
    }
    hide Sort;
    JoinInjective(Sort(a), Sort(b));
  }

  lemma JoinInjective(a: seq<string>, b: seq<string>)
    requires Join(a, ",") == Join(b, ",")
    requires forall i | 0 <= i < |a| :: Free(a[i], ',') && a[i] != ""
    requires forall i | 0 <= i < |b| :: Free(b[i], ',') && b[i] != ""
    ensures a == b
  {
    if a != [] {
      SplitJoin(a, ',');
    }
    if b != [] {
      SplitJoin(b, ',');
    }
  }

  /** A comma in a name can hide a change: the group's only member becomes two others. */
  lemma CommaHidesChange()
    ensures LooksSame(["a,b"], ["a", "b"])
  {
    assert Sort(["b"]) == Insert("b", []) == ["b"];
    assert ["a", "b"][1..] == ["b"] && AtMost("a", "b");
    assert Sort(["a", "b"]) == Insert("a", ["b"]) == ["a", "b"];
    assert Sort(["a,b"]) == Insert("a,b", []) == ["a,b"];
    assert Join(["a", "b"], ",") == "a" + "," + "b" == "a,b";
  }

  lemma {:induction false} TokenTrim(name: string)
    requires IsToken(name)
    ensures TrimSpace(name) == name
  {
  }

  // ---- The cache as a function of what happened ----

  /** The cached kubeconfigs, the marks, and the groups as the server has them. */
  datatype State = State(kubeconfigs: map<string, string>, dirty: map<string, bool>, groups: map<string, seq<string>>)

  const START := State(map[], map[], map[])

  /**
   One call that sets a group's members, with what its commands do: whether the group could be read and made,
   and whether the patch took effect and was confirmed. `after` are the members the patch leaves.
   */
  datatype GroupCall = GroupCall(group: string, users: seq<string>, readable: bool, makeable: bool, effective: bool,
                                 confirmed: bool, after: seq<string>)

  datatype Op =
    | Ensure(call: GroupCall)
    | Use(user: string, tempFile: string, loginWorks: bool)
    | CleanUp

  predicate IsSet(m: map<string, bool>, user: string) {
    user in m && m[user]
  }

  predicate Cached(s: State, user: string) {
    user in s.kubeconfigs && TrimSpace(s.kubeconfigs[user]) != ""
  }

  predicate Marked(s: State, user: string) {
    IsSet(s.dirty, user)
  }

  function Members(s: State, group: string): seq<string> {
    if group in s.groups then s.groups[group] else []
  }

  /** Members as the code gets them from a command: printed with spaces between them and split at white space. */
  function Listed(members: seq<string>): seq<string> {
    Fields(Join(members, " "))
  }

  /** The members the call reads first; a group that cannot be read counts as missing. */
  function Seen(s: State, call: GroupCall): Option<seq<string>> {
    if call.readable && call.group in s.groups then Some(Listed(s.groups[call.group])) else None
  }

  function Old(before: Option<seq<string>>): seq<string> {
    if before.Some? then before.value else []
  }

  /** The patch was sent and took effect. */
  predicate Patches(call: GroupCall) {
    call.group != "" && call.makeable && (call.effective || call.confirmed)
  }

  /** The call gets to its end. */
  predicate Completes(call: GroupCall) {
    call.group != "" && call.makeable && call.confirmed && LooksSame(Listed(call.after), call.users)
  }

  /** Everybody in the old and the new membership is marked, unless these look the same. */
  predicate MarksAny(s: State, call: GroupCall) {
    Completes(call) && (Seen(s, call).None? || !LooksSame(Seen(s, call).value, Listed(call.after)))
  }

  predicate Trimmed(users: seq<string>, user: string) {
    user != "" && exists i | 0 <= i < |users| :: TrimSpace(users[i]) == user
  }

  function Mark(dirty: map<string, bool>, users: seq<string>): map<string, bool>
    decreases |users|
  {
    if users == [] then dirty
    else
      var u := TrimSpace(users[0]);
      Mark(if u == "" then dirty else dirty[u := true], users[1..])
  }

  function Grouped(s: State, call: GroupCall): map<string, seq<string>> {
    if call.group == "" || !call.makeable then s.groups
    else if Patches(call) then s.groups[call.group := call.after]
    else s.groups[call.group := Members(s, call.group)]
  }

  function Step(s: State, op: Op): State {
    match op
    case Ensure(call) =>
      State(s.kubeconfigs,
            if MarksAny(s, call) then Mark(s.dirty, Old(Seen(s, call)) + Listed(call.after)) else s.dirty,
            Grouped(s, call))
    case Use(user, tempFile, loginWorks) =>
      if Cached(s, user) then s.(dirty := Popped(s.dirty, user))
      else if loginWorks then
        s.(kubeconfigs := s.kubeconfigs[user := tempFile], dirty := Popped(s.dirty, user))
      else s
    case CleanUp => State(map[], map[], s.groups)
  }

  function Popped(dirty: map<string, bool>, user: string): map<string, bool> {
    if IsSet(dirty, user) then dirty[user := false] else dirty
  }

  /** What a use returns: nothing when a login it needs fails and the test aborts. */
  function Returned(s: State, op: Op): Option<string>
    requires op.Use?
  {
    if Cached(s, op.user) then
      if Marked(s, op.user) && !op.loginWorks then None else Some(s.kubeconfigs[op.user])
    else if op.loginWorks then Some(op.tempFile) else None
  }

  function Run(ops: seq<Op>): State {
    if ops == [] then START else Step(Run(ops[..|ops| - 1]), ops[|ops| - 1])
  }

  // ---- What happens to one user ----

  /** The call added the user to the group or removed it, on the server. */
  predicate Changes(s: State, op: Op, user: string) {
    op.Ensure? && Patches(op.call) && (user in Members(s, op.call.group)) != (user in op.call.after)
  }

  predicate Marks(s: State, op: Op, user: string) {
    op.Ensure? && MarksAny(s, op.call) && Trimmed(Old(Seen(s, op.call)) + Listed(op.call.after), user)
  }

  predicate LogsIn(s: State, op: Op, user: string) {
    op.Use? && op.user == user && op.loginWorks && (!Cached(s, user) || Marked(s, user))
  }

  /** The mark of a cached kubeconfig is consumed by a login that fails. */
  predicate FailsAgain(s: State, op: Op, user: string) {
    op.Use? && op.user == user && !op.loginWorks && Cached(s, user) && Marked(s, user)
  }

  /** From here on nothing calls for a login: a failed one consumed the mark, or a change set none. */
  predicate Loses(s: State, op: Op, user: string) {
    FailsAgain(s, op, user) || (Changes(s, op, user) && !Marks(s, op, user) && !Marked(s, user))
  }

  predicate ChangesAt(ops: seq<Op>, i: nat, user: string) {
    i < |ops| && Changes(Run(ops[..i]), ops[i], user)
  }

  predicate LogsInAt(ops: seq<Op>, i: nat, user: string) {
    i < |ops| && LogsIn(Run(ops[..i]), ops[i], user)
  }

  predicate MarksAt(ops: seq<Op>, i: nat, user: string) {
    i < |ops| && Marks(Run(ops[..i]), ops[i], user)
  }

  predicate LosesAt(ops: seq<Op>, i: nat, user: string) {
    i < |ops| && Loses(Run(ops[..i]), ops[i], user)
  }

  /** The user's groups changed at `c`, and the user has not logged in since. */
  ghost predicate StaleSince(ops: seq<Op>, c: nat, user: string) {
    ChangesAt(ops, c, user) && forall k: nat :: LogsInAt(ops, k, user) ==> k < c
  }

  /** The kubeconfig of the user is from a login before the latest change of its groups. */
  ghost predicate Stale(ops: seq<Op>, user: string) {
    exists c: nat :: StaleSince(ops, c, user)
  }

  /**
   Before the user logged in again after the change at `c`, the mark of its cached kubeconfig was lost at `i`, and
   after that neither was the user marked nor the cache emptied.
   */
  ghost predicate LostSince(ops: seq<Op>, c: nat, i: nat, user: string) {
    && ChangesAt(ops, c, user) && c <= i && LosesAt(ops, i, user) && Cached(Run(ops[..i]), user)
    && (forall k: nat | k < i :: LogsInAt(ops, k, user) ==> k < c)
    && (forall k | i < k < |ops| :: !ops[k].CleanUp?)
    && (forall k: nat :: MarksAt(ops, k, user) ==> k <= i)
  }

  lemma {:induction false} MarkSets(dirty: map<string, bool>, users: seq<string>, user: string)
    ensures IsSet(Mark(dirty, users), user) <==> IsSet(dirty, user) || Trimmed(users, user)
    decreases |users|
  {
    hide TrimSpace;
    if users != [] {
      var u := TrimSpace(users[0]);
      MarkSets(if u == "" then dirty else dirty[u := true], users[1..], user);
      assert Trimmed(users, user) <==> (user != "" && u == user) || Trimmed(users[1..], user) by {
        if i :| 0 <= i < |users| && TrimSpace(users[i]) == user {
          assert i > 0 ==> users[1..][i - 1] == users[i];
        }
        if i :| 0 <= i < |users[1..]| && TrimSpace(users[1..][i]) == user {
          assert users[i + 1] == users[1..][i];
        }
      }
    }
  }

  /** How one operation moves the mark and the cache entry of one user. */
  lemma StepOf(s: State, op: Op, user: string)
    ensures Marked(Step(s, op), user) <==>
              Marks(s, op, user) ||
              (Marked(s, user) && !op.CleanUp? && !FailsAgain(s, op, user) && !LogsIn(s, op, user))
    ensures Cached(Step(s, op), user) ==> !op.CleanUp? && (Cached(s, user) || LogsIn(s, op, user))
    ensures Cached(s, user) && !op.CleanUp? ==> Cached(Step(s, op), user)
  {
    hide TrimSpace, LooksSame, Listed;
    if op.Ensure? {
      MarkSets(s.dirty, Old(Seen(s, op.call)) + Listed(op.call.after), user);
    }
  }

  lemma RunStep(ops: seq<Op>, i: nat)
    requires i < |ops|
    ensures Run(ops[..i + 1]) == Step(Run(ops[..i]), ops[i])
  {
    assert ops[..i + 1][..i] == ops[..i];
  }

  /** As long as nobody logged in or cleaned up since a change, the user is marked or the mark was lost. */
  lemma {:induction false} MarkedOrLost(ops: seq<Op>, c: nat, m: nat, user: string) returns (i: nat)
    requires ChangesAt(ops, c, user) && c < m <= |ops|
    requires forall k: nat :: LogsInAt(ops, k, user) ==> k < c || m <= k
    requires forall k | c < k < m :: !ops[k].CleanUp?
    ensures Marked(Run(ops[..m]), user) ||
            (c <= i < m && LosesAt(ops, i, user) && forall k: nat | k < m :: MarksAt(ops, k, user) ==> k <= i)
    decreases m
  {
    hide Step, Changes, Marks, LogsIn, FailsAgain, Cached, Marked, Run;
    var p := m - 1;
    RunStep(ops, p);
    StepOf(Run(ops[..p]), ops[p], user);
    assert p > c ==> !LogsInAt(ops, p, user);
    if p == c {
      ChangesOnly(Run(ops[..c]), ops[c], user);
      i := c;
    } else {
      i := MarkedOrLost(ops, c, p, user);
      if FailsAgain(Run(ops[..p]), ops[p], user) {
        i := p;
      }
      assert LosesAt(ops, p, user) <== FailsAgain(Run(ops[..p]), ops[p], user);
      assert MarksAt(ops, p, user) <==> Marks(Run(ops[..p]), ops[p], user);
    }
  }

  lemma ChangesOnly(s: State, op: Op, user: string)
    requires Changes(s, op, user)
    ensures op.Ensure? && !LogsIn(s, op, user) && !FailsAgain(s, op, user)
  {
  }

  /** From where a mark was lost, and as long as nothing sets one or empties the cache, nobody logs in. */
  lemma {:induction false} LostStays(ops: seq<Op>, c: nat, i: nat, m: nat, user: string)
    requires LostSince(ops, c, i, user) && i < m <= |ops|
    ensures Cached(Run(ops[..m]), user) && !Marked(Run(ops[..m]), user)
    ensures !LogsInAt(ops, m - 1, user)
    decreases m
  {
    hide Step, Changes, Marks, Run;
    var p := m - 1;
    RunStep(ops, p);
    StepOf(Run(ops[..p]), ops[p], user);
    assert !MarksAt(ops, p, user) || p <= i;
    if p == i {
      LosingStep(Run(ops[..i]), ops[i], user);
    } else {
      LostStays(ops, c, i, p, user);
    }
  }

  lemma LosingStep(s: State, op: Op, user: string)
    requires Loses(s, op, user)
    ensures !Marks(s, op, user) && !LogsIn(s, op, user) && !op.CleanUp?
  {
  }

  /**
   Over any history: when a use returns a kubeconfig, that is stale exactly when, before the user logged in again
   after a change of its groups, the mark of the cached kubeconfig was lost to a failed login or never set, and
   since then neither a mark was set nor the cache emptied.
   */
  lemma StaleIff(ops: seq<Op>, user: string)
    requires ops != [] && ops[|ops| - 1].Use? && ops[|ops| - 1].user == user
    requires Returned(Run(ops[..|ops| - 1]), ops[|ops| - 1]).Some?
    ensures Stale(ops, user) <==> exists c: nat, i: nat :: LostSince(ops, c, i, user)
  {
    if c: nat, i: nat :| LostSince(ops, c, i, user) {
      LostIsStale(ops, c, i, user);
    }
    if c: nat :| StaleSince(ops, c, user) {
      StaleIsLost(ops, c, user);
    }
  }

  lemma LostIsStale(ops: seq<Op>, c: nat, i: nat, user: string)
    requires LostSince(ops, c, i, user)
    ensures StaleSince(ops, c, user)
  {
    hide Changes, Marks, Step, Run, LogsIn, Cached, Marked;
    forall k: nat | LogsInAt(ops, k, user) ensures k < c {
      if i <= k {
        LostStays(ops, c, i, k + 1, user);
      }
    }
  }

  lemma StaleIsLost(ops: seq<Op>, c: nat, user: string)
    requires ops != [] && ops[|ops| - 1].Use? && ops[|ops| - 1].user == user
    requires Returned(Run(ops[..|ops| - 1]), ops[|ops| - 1]).Some? && StaleSince(ops, c, user)
    ensures exists i: nat :: LostSince(ops, c, i, user)
  {
    hide Changes, Marks, Step, Run, LooksSame, TrimSpace;
    var n := |ops| - 1;
    UseChangesNothing(ops, c, n, user);
    assert !LogsInAt(ops, n, user);
    CachedSince(ops, c, n, user);
    var i := MarkedOrLost(ops, c, n, user);
    UseMarksNothing(ops, n, user);
    assert LostSince(ops, c, i, user);
  }

  lemma UseChangesNothing(ops: seq<Op>, c: nat, n: nat, user: string)
    requires n < |ops| && ops[n].Use? && ChangesAt(ops, c, user)
    ensures c != n
  {
  }

  lemma UseMarksNothing(ops: seq<Op>, n: nat, user: string)
    requires n < |ops| && ops[n].Use?
    ensures !MarksAt(ops, n, user)
  {
  }

  /** A kubeconfig that is still cached without a login was cached all the time and not cleaned up. */
  lemma {:induction false} CachedSince(ops: seq<Op>, c: nat, m: nat, user: string)
    requires c < m <= |ops| && Cached(Run(ops[..m]), user)
    requires forall k: nat :: LogsInAt(ops, k, user) ==> k < c || m <= k
    ensures forall k | c <= k < m :: !ops[k].CleanUp? && Cached(Run(ops[..k]), user)
    decreases m
  {
    hide Step, Marks, FailsAgain, LogsIn, Cached, Marked, Run;
    RunStep(ops, m - 1);
    StepOf(Run(ops[..m - 1]), ops[m - 1], user);
    assert !LogsInAt(ops, m - 1, user);
    if c < m - 1 {
      CachedSince(ops, c, m - 1, user);
    }
  }

  // ---- When a mark is missed ----

  /**
   A user whose group membership changed ends unmarked exactly when it was unmarked before and the call was
   aborted after its patch, or saw no difference in the members as text, or did not see the user at all.
   */
  lemma UnmarkedChangeIff(s: State, call: GroupCall, user: string)
    requires Changes(s, Ensure(call), user)
    ensures !Marked(Step(s, Ensure(call)), user) <==>
            !Marked(s, user) &&
            (!Completes(call) || (Seen(s, call).Some? && LooksSame(Seen(s, call).value, Listed(call.after))) ||
             user !in Old(Seen(s, call)) + Listed(call.after))
  {
    StepOf(s, Ensure(call), user);
    ListedAreTokens(call.after);
    ListedAreTokens(Members(s, call.group));
    hide LooksSame, TrimSpace, IsToken, Listed;
    TokensTrimmed(Old(Seen(s, call)) + Listed(call.after), user);
  }

  lemma ListedAreTokens(members: seq<string>)
    ensures Tokens(Listed(members)) && (Tokens(members) ==> Listed(members) == members)
  {
    FieldsAreTokens(Join(members, " "));
    FieldsOfJoined(members);
  }

  /** The last happens to a name with white space, and otherwise only if the group it is removed from is unreadable. */
  lemma UnseenIff(s: State, call: GroupCall, user: string)
    requires Changes(s, Ensure(call), user)
    ensures !IsToken(user) ==> user !in Old(Seen(s, call)) + Listed(call.after)
    ensures Tokens(Members(s, call.group)) && Tokens(call.after) ==>
              (user !in Old(Seen(s, call)) + Listed(call.after) <==> Seen(s, call).None? && user !in call.after)
  {
    ListedAreTokens(call.after);
    ListedAreTokens(Members(s, call.group));
    hide IsToken, Listed;
  }

  /** A confirmed call completes once the group has the members asked for, in whatever order, if they are tokens. */
  lemma MembersSetCompletes(call: GroupCall)
    requires call.group != "" && call.makeable && call.confirmed
    requires Tokens(call.after) && multiset(call.after) == multiset(call.users)
    ensures Completes(call)
  {
    ListedAreTokens(call.after);
    hide Listed, LooksSame;
    LooksSameIff(call.after, call.users);
  }

  predicate Spaced(name: string) {
    exists i | 0 <= i < |name| :: IsSpace(name[i])
  }

  /** Joined names hold white space exactly if one of the names does. */
  lemma {:induction false} JoinedSpaced(names: seq<string>)
    ensures Spaced(Join(names, ",")) <==> exists i | 0 <= i < |names| :: Spaced(names[i])
  {
    if |names| > 1 {
      var rest := Join(names[1..], ",");
      assert !IsSpace(',');
      hide IsSpace, Join;
      JoinedSpaced(names[1..]);
      SpacedAppend(names[0], ",");
      SpacedAppend(names[0] + ",", rest);
      assert !Spaced(",");
      assert Join(names, ",") == names[0] + "," + rest by { JoinUnfolds(names, ","); }
      assert forall i | 0 < i < |names| :: names[i] == names[1..][i - 1];
      assert forall i | 0 <= i < |names[1..]| :: names[1..][i] == names[i + 1];
    }
  }

  lemma JoinUnfolds(names: seq<string>, sep: string)
    requires |names| > 1
    ensures Join(names, sep) == names[0] + sep + Join(names[1..], sep)
  {
  }

  lemma SpacedAppend(a: string, b: string)
    ensures Spaced(a + b) <==> Spaced(a) || Spaced(b)
  {
    hide IsSpace;
    assert forall i | 0 <= i < |b| :: (a + b)[|a| + i] == b[i];
    assert forall i | 0 <= i < |a| :: (a + b)[i] == a[i];
  }

  /** A call that gives a group a member with white space in its name aborts. */
  lemma SpacedNameAborts(call: GroupCall, user: string)
    requires user in call.users && Spaced(user)
    ensures !Completes(call)
  {
    ListedAreTokens(call.after);
    var listed := Sort(Listed(call.after));
    SortMembers(call.users, user);
    hide IsSpace, Sort, Join;
    forall i | 0 <= i < |listed| ensures !Spaced(listed[i]) {
      SortMembers(Listed(call.after), listed[i]);
    }
    JoinedSpaced(listed);
    JoinedSpaced(Sort(call.users));
  }

  lemma TokensTrimmed(names: seq<string>, user: string)
    requires Tokens(names)
    ensures Trimmed(names, user) <==> user in names
  {
    forall i | 0 <= i < |names| ensures TrimSpace(names[i]) == names[i] && names[i] != "" {
      TokenTrim(names[i]);
    }
    hide TrimSpace;
  }

  /** Without commas the second of these never happens: members that differ look different. */
  lemma DifferenceIsSeen(s: State, call: GroupCall, user: string)
    requires Changes(s, Ensure(call), user) && Seen(s, call).Some?
    requires Tokens(Members(s, call.group)) && Tokens(call.after) && CommaFree(Members(s, call.group)) &&
              CommaFree(call.after)
    ensures !LooksSame(Seen(s, call).value, Listed(call.after))
  {
    ListedAreTokens(call.after);
    ListedAreTokens(Members(s, call.group));
    hide Listed;
    if LooksSame(Seen(s, call).value, call.after) {
      LooksSameIsSame(Seen(s, call).value, call.after, user);
    }
  }

  /** Every login works, every patch is one of a call that completes, groups can be read, and no name has a comma. */
  predicate Smooth(op: Op) {
    match op
    case Ensure(call) =>
      Tokens(call.after) && CommaFree(call.after) && (Patches(call) ==> Completes(call) && call.readable)
    case Use(_, _, loginWorks) => loginWorks
    case CleanUp => true
  }

  lemma {:induction false} MembersSmooth(ops: seq<Op>, group: string)
    requires forall i | 0 <= i < |ops| :: Smooth(ops[i])
    ensures Tokens(Members(Run(ops), group)) && CommaFree(Members(Run(ops), group))
  {
    hide Tokens, CommaFree, LooksSame, TrimSpace;
    if ops == [] {
      EmptyIsSmooth();
    } else {
      MembersSmooth(ops[..|ops| - 1], group);
      assert Smooth(ops[|ops| - 1]);
      EmptyIsSmooth();
    }
  }

  lemma EmptyIsSmooth()
    ensures Tokens([]) && CommaFree([])
  {
  }

  lemma SmoothLosesNothing(ops: seq<Op>, i: nat, user: string)
    requires forall k | 0 <= k < |ops| :: Smooth(ops[k])
    ensures !LosesAt(ops, i, user)
  {
    hide Tokens, CommaFree, LooksSame, TrimSpace, Run, Listed;
    if i < |ops| && Changes(Run(ops[..i]), ops[i], user) {
      var s, call := Run(ops[..i]), ops[i].call;
      assert Smooth(ops[i]);
      MembersSmooth(ops[..i], call.group);
      UnmarkedChangeIff(s, call, user);
      UnseenIff(s, call, user);
      StepOf(s, ops[i], user);
      if Seen(s, call).Some? {
        DifferenceIsSeen(s, call, user);
      }
    }
  }

  /** In a history without such mishaps no use ever returns a stale kubeconfig. */
  lemma SmoothNeverStale(ops: seq<Op>, user: string)
    requires forall k | 0 <= k < |ops| :: Smooth(ops[k])
    requires ops != [] && ops[|ops| - 1].Use? && ops[|ops| - 1].user == user
    requires Returned(Run(ops[..|ops| - 1]), ops[|ops| - 1]).Some?
    ensures !Stale(ops, user)
  {
    hide Smooth, Returned, Run;
    StaleIff(ops, user);
    forall c: nat, i: nat ensures !LostSince(ops, c, i, user) {
      SmoothLosesNothing(ops, i, user);
    }
  }

  // ---- Histories that go wrong ----

  function Joins(group: string, user: string, confirmed: bool): Op {
    Ensure(GroupCall(group, [user], true, true, true, confirmed, [user]))
  }

  /** The mark is cleared before the login it calls for: if that fails, the next use returns a stale kubeconfig. */
  lemma FailedLoginLosesMark(user: string, group: string, file: string)
    requires IsToken(user) && group != "" && TrimSpace(file) != ""
    ensures
      var ops := [Use(user, file, true), Joins(group, user, true), Use(user, file, false), Use(user, file, true)];
      Returned(Run(ops[..3]), ops[3]) == Some(file) && Stale(ops, user)
  {
    var ops := [Use(user, file, true), Joins(group, user, true), Use(user, file, false), Use(user, file, true)];
    hide TrimSpace, IsToken;
    FirstUse(ops, user, file);
    JoinedAfter(ops, user, group, file);
    var s := Run(ops[..2]);
    assert Trimmed([user], user) by { TokensTrimmed([user], user); }
    ListedAreTokens([user]);
    MarkSets(START.dirty, Old(None) + [user], user);
    assert Marked(s, user);
    RunStep(ops, 2);
    assert Run(ops[..3]) == Step(s, ops[2]);
    assert !Marked(Run(ops[..3]), user) && Cached(Run(ops[..3]), user);
    OnlyFirstLogsIn(ops, user);
  }

  /** A patch that takes effect in a call that then aborts marks nobody. */
  lemma AbortedCallMarksNobody(user: string, group: string, file: string)
    requires IsToken(user) && group != "" && TrimSpace(file) != ""
    ensures
      var ops := [Use(user, file, true), Joins(group, user, false), Use(user, file, true)];
      Returned(Run(ops[..2]), ops[2]) == Some(file) && Stale(ops, user)
  {
    var ops := [Use(user, file, true), Joins(group, user, false), Use(user, file, true)];
    hide TrimSpace, IsToken;
    FirstUse(ops, user, file);
    JoinedAfter(ops, user, group, file);
    assert !Marked(Run(ops[..2]), user);
    OnlyFirstLogsIn(ops, user);
  }

  /** The operations of one user's test in which a group's only member is replaced by two others. */
  function Splitting(group: string, file: string, joined: string, first: string, second: string): seq<Op> {
    [Use(first, file, true), Joins(group, joined, true),
     Ensure(GroupCall(group, [first, second], true, true, true, true, [first, second])), Use(first, file, true)]
  }

  /** If the two memberships look the same as text, nobody is marked and the next use is stale. */
  lemma HiddenChangeMarksNobody(group: string, file: string, joined: string, first: string, second: string)
    requires group != "" && TrimSpace(file) != "" && Tokens([joined, first, second]) && first != joined
    requires LooksSame([joined], [first, second])
    ensures var ops := Splitting(group, file, joined, first, second);
            Returned(Run(ops[..3]), ops[3]) == Some(file) && Stale(ops, first)
  {
    var ops := Splitting(group, file, joined, first, second);
    assert IsToken([joined, first, second][0]);
    hide TrimSpace, IsToken, LooksSame, Step, Changes, Run;
    FirstUse(ops, first, file);
    RunStep(ops, 1);
    RunStep(ops, 2);
    AfterJoining(group, file, joined, first);
    AfterSplitting(Run(ops[..2]), group, joined, first, second);
    assert !LogsInAt(ops, 2, first) && !LogsInAt(ops, 3, first);
    assert StaleSince(ops, 2, first);
  }

  lemma AfterJoining(group: string, file: string, joined: string, first: string)
    requires group != "" && TrimSpace(file) != "" && IsToken(joined) && first != joined
    ensures
      var s := Step(State(map[first := file], map[], map[]), Joins(group, joined, true));
      !Marked(s, first) && s.kubeconfigs == map[first := file] && s.groups == map[group := [joined]]
  {
    assert !Trimmed([joined], first) by { TokensTrimmed([joined], first); }
    ListedAreTokens([joined]);
    hide TrimSpace, IsToken, LooksSame, Listed;
    MarkSets(map[], [joined], first);
    assert Old(None) + [joined] == [joined];
  }

  lemma AfterSplitting(s: State, group: string, joined: string, first: string, second: string)
    requires group != "" && first != joined && s.groups == map[group := [joined]] && !Marked(s, first)
    requires Tokens([joined, first, second])
    requires LooksSame([joined], [first, second])
    ensures
      var op := Ensure(GroupCall(group, [first, second], true, true, true, true, [first, second]));
      Changes(s, op, first) && !Marked(Step(s, op), first) && Step(s, op).kubeconfigs == s.kubeconfigs
  {
    assert [joined, first, second][0] == joined && [joined, first, second][1] == first;
    assert [joined, first, second][2] == second;
    ListedAreTokens([joined]);
    ListedAreTokens([first, second]);
    hide LooksSame, Listed;
    assert first in [first, second];
  }

  /** Such a pair of memberships exists because of a comma in a name. */
  lemma CommaMarksNobody(group: string, file: string)
    requires group != "" && TrimSpace(file) != ""
    ensures var ops := Splitting(group, file, "a,b", "a", "b");
            Returned(Run(ops[..3]), ops[3]) == Some(file) && Stale(ops, "a")
  {
    var both := "a,b";
    assert both[1] == ',' && both != "a" && Tokens([both, "a", "b"]);
    CommaHidesChange();
    hide *;
    HiddenChangeMarksNobody(group, file, both, "a", "b");
  }

  lemma FirstUse(ops: seq<Op>, user: string, file: string)
    requires |ops| > 0 && ops[0] == Use(user, file, true)
    ensures Run(ops[..1]) == State(map[user := file], map[], map[])
  {
    hide TrimSpace;
    assert ops[..0] == [] && Run([]) == START;
    RunStep(ops, 0);
  }

  lemma JoinedAfter(ops: seq<Op>, user: string, group: string, file: string)
    requires |ops| > 1 && Run(ops[..1]) == State(map[user := file], map[], map[]) && group != "" &&
              TrimSpace(file) != ""
    requires exists confirmed :: ops[1] == Joins(group, user, confirmed)
    ensures ChangesAt(ops, 1, user) && Run(ops[..2]) == Step(State(map[user := file], map[], map[]), ops[1])
    ensures Cached(Run(ops[..2]), user)
  {
    hide TrimSpace;
    RunStep(ops, 1);
  }

  /** A cached user who is not marked does not log in. */
  lemma OnlyFirstLogsIn(ops: seq<Op>, user: string)
    requires |ops| >= 2 && ChangesAt(ops, 1, user)
    requires forall k | 2 <= k < |ops| :: !LogsInAt(ops, k, user)
    ensures Stale(ops, user)
  {
    assert !LogsInAt(ops, 1, user);
    assert StaleSince(ops, 1, user);
  }

  // ---- The code ----

  class Cache {
    var kubeconfigs: map<string, string>
    var dirty: map<string, bool>
    // The server's groups.
    var groups: map<string, seq<string>>

    constructor ()
      ensures Now() == START
    {
      kubeconfigs, dirty, groups := map[], map[], map[];
    }

    function Now(): State
      reads this
    {
      State(kubeconfigs, dirty, groups)
    }

    method MarkUsersAuthDirty(users: seq<string>)
      modifies this`dirty
      ensures dirty == Mark(old(dirty), users)
    {
      hide TrimSpace;
      assert users[0..] == users;
      for i := 0 to |users|
        invariant Mark(dirty, users[i..]) == Mark(old(dirty), users)
      {
        assert users[i..][0] == users[i] && users[i..][1..] == users[i + 1..];
        var u := TrimSpace(users[i]);
        if u == "" {
          continue;
        }
        dirty := dirty[u := true];
      }
    }

    method PopUserAuthDirty(user: string) returns (wasDirty: bool)
      modifies this`dirty
      ensures wasDirty == old(IsSet(dirty, user)) && dirty == Popped(old(dirty), user)
    {
      wasDirty := user in dirty && dirty[user];
      if wasDirty {
        dirty := dirty[user := false];
      }
    }

    /** Sets the group's members; the test aborts when a command fails or the members end up different. */
    method EnsureGroupMembers(call: GroupCall) returns (ok: bool)
      modifies this`dirty, this`groups
      ensures Now() == Step(old(Now()), Ensure(call))
      ensures ok <==> Completes(call)
    {
      hide LooksSame, Mark, Join, TrimSpace, Fields;
      if call.group == "" {
        return false;
      }
      var existed := call.readable && call.group in groups;
      var oldUsers := [];
      if existed {
        oldUsers := Fields(TrimSpace(Join(groups[call.group], " ")));
        FieldsTrimmed(Join(groups[call.group], " "));
      }
      if !call.makeable {
        return false;
      }
      if call.group !in groups {
        groups := groups[call.group := []];
      }
      if call.effective || call.confirmed {
        groups := groups[call.group := call.after];
      } else {
        assert groups == old(groups)[call.group := groups[call.group]];
      }
      var actual := Fields(TrimSpace(Join(call.after, " ")));
      FieldsTrimmed(Join(call.after, " "));
      if !call.confirmed || !LooksSame(actual, call.users) {
        return false;
      }
      if !existed || !LooksSame(oldUsers, actual) {
        MarkUsersAuthDirty(oldUsers + actual);
      }
      ok := true;
    }

    /** The kubeconfig to use for a user, None when a login fails and the test aborts. */
    method EnsureUserKubeconfig(user: string, tempFile: string, loginWorks: bool) returns (path: Option<string>)
      modifies this`kubeconfigs, this`dirty
      ensures Now() == Step(old(Now()), Use(user, tempFile, loginWorks))
      ensures path == Returned(old(Now()), Use(user, tempFile, loginWorks))
    {
      hide TrimSpace;
      if user in kubeconfigs && TrimSpace(kubeconfigs[user]) != "" {
        var wasDirty := PopUserAuthDirty(user);
        if wasDirty && !loginWorks {
          return None;
        }
        return Some(kubeconfigs[user]);
      }
      if !loginWorks {
        return None;
      }
      kubeconfigs := kubeconfigs[user := tempFile];
      var wasDirty := PopUserAuthDirty(user);
      path := Some(tempFile);
    }

    method CleanupUserKubeconfigs()
      modifies this`kubeconfigs, this`dirty
      ensures Now() == Step(old(Now()), CleanUp)
    {
      kubeconfigs, dirty := map[], map[];
    }

    method Do(op: Op) returns (path: Option<string>)
      modifies this
      ensures Now() == Step(old(Now()), op)
      ensures op.Use? ==> path == Returned(old(Now()), op)
    {
      hide Step, Returned;
      path := None;
      match op {
        case Ensure(call) =>
          var ok := EnsureGroupMembers(call);
        case Use(user, tempFile, loginWorks) =>
          path := EnsureUserKubeconfig(user, tempFile, loginWorks);
        case CleanUp =>
          CleanupUserKubeconfigs();
      }
    }
  }

  /** A whole test run: the kubeconfig the last operation returns is stale exactly as `StaleIff` says. */
  method RunHistory(ops: seq<Op>) returns (paths: seq<Option<string>>)
    ensures |paths| == |ops|
    ensures forall i | 0 <= i < |ops| && ops[i].Use? :: paths[i] == Returned(Run(ops[..i]), ops[i])
  {
    hide Step, Returned;
    var cache := new Cache();
    paths := [];
    for i := 0 to |ops|
      invariant |paths| == i && fresh(cache) && cache.Now() == Run(ops[..i])
      invariant forall k | 0 <= k < i && ops[k].Use? :: paths[k] == Returned(Run(ops[..k]), ops[k])
    {
      RunStep(ops, i);
      var path := cache.Do(ops[i]);
      paths := paths + [path];
    }
  }
}
