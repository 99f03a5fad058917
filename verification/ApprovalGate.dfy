/** Counting the responses to a manual approval task. */
module ApprovalGate {

  datatype MemberResponse = MemberResponse(name: string, response: string)

  /** A response by a user, or by the members of a group; an empty type means a user. */
  datatype Approver = Approver(kind: string, name: string, response: string, members: seq<MemberResponse>)

  datatype ApprovalTask = ApprovalTask(required: int, responses: seq<Approver>)

  function DefaultedType(kind: string): string {
    if kind == "" then "User" else kind
  }

  /** Who has responded through this entry. */
  function RespondedBy(a: Approver): set<string> {
    match DefaultedType(a.kind)
    case "User" => {a.name}
    case "Group" => set m | m in a.members && (m.response == "approved" || m.response == "rejected") :: m.name
    case _ => {}
  }

  predicate IsRejection(m: MemberResponse) {
    m.response == "rejected"
  }

  function Rejecting(members: seq<MemberResponse>): set<string> {
    set m | m in members && IsRejection(m) :: m.name
  }

  /** Who has rejected through this entry. */
  function RejectedBy(a: Approver): set<string> {
    match DefaultedType(a.kind)
    case "User" => if a.response == "rejected" then {a.name} else {}
    case "Group" => Rejecting(a.members)
    case _ => {}
  }

  /** Everybody who has responded, directly or through any group. */
  function Responded(responses: seq<Approver>): set<string> {
    set a, user | a in responses && user in RespondedBy(a) :: user
  }

  function Rejected(responses: seq<Approver>): set<string> {
    set a, user | a in responses && user in RejectedBy(a) :: user
  }

  /**
   A user has responded exactly if an entry of its own says so, with any response, or it approved or rejected as a
   member of a group; an entry of any other type counts for nobody.
   */
  lemma RespondedIff(responses: seq<Approver>, user: string)
    ensures user in Responded(responses) <==>
            exists a | a in responses ::
              || ((a.kind == "User" || a.kind == "") && a.name == user)
              || (a.kind == "Group" && exists m | m in a.members ::
                    m.name == user && (m.response == "approved" || m.response == "rejected"))
  {
    forall a | a in responses
      ensures user in RespondedBy(a) <==>
              || ((a.kind == "User" || a.kind == "") && a.name == user)
              || (a.kind == "Group" && exists m | m in a.members ::
                    m.name == user && (m.response == "approved" || m.response == "rejected"))
    {
    }
    hide RespondedBy;
  }

  /** A user has rejected exactly if its own entry or its entry in a group says so. */
  lemma RejectedIff(responses: seq<Approver>, user: string)
    ensures user in Rejected(responses) <==>
            exists a | a in responses ::
              || ((a.kind == "User" || a.kind == "") && a.name == user && a.response == "rejected")
              || (a.kind == "Group" && exists m | m in a.members :: m.name == user && m.response == "rejected")
  {
    forall a | a in responses
      ensures user in RejectedBy(a) <==>
              || ((a.kind == "User" || a.kind == "") && a.name == user && a.response == "rejected")
              || (a.kind == "Group" && exists m | m in a.members :: m.name == user && m.response == "rejected")
    {
    }
    hide RejectedBy;
  }

  method PendingApprovals(task: ApprovalTask) returns (pending: int)
    ensures pending == task.required - |Responded(task.responses)|
  {
    var users: map<string, bool> := map[];
    for i := 0 to |task.responses|
      invariant users.Keys == Responded(task.responses[..i])
    {
      var a := task.responses[i];
      RespondedStep(task.responses, i);
      ghost var before := users.Keys;
      match DefaultedType(a.kind) {
        case "User" =>
          users := users[a.name := true];
        case "Group" =>
          for k := 0 to |a.members|
            invariant users.Keys == before +
              set m | m in a.members[..k] && (m.response == "approved" || m.response == "rejected") :: m.name
          {
            var m := a.members[k];
            assert a.members[..k + 1] == a.members[..k] + [m];
            if m.response == "approved" || m.response == "rejected" {
              users := users[m.name := true];
            }
          }
          assert a.members[..|a.members|] == a.members;
        case _ =>
      }
    }
    assert task.responses[..|task.responses|] == task.responses;
    pending := task.required - |users|;
  }

  predicate Counts(count: nat, users: set<string>) {
    count == |users|
  }

  /** Counts a user once. */
  method CountUser(users: set<string>, count: nat, name: string) returns (users': set<string>, count': nat)
    requires Counts(count, users)
    ensures users' == users + {name} && Counts(count', users')
  {
    users', count' := users, count;
    if name !in users {
      users' := users + {name};
      count' := count + 1;
    } else {
      assert users + {name} == users;
    }
  }

  method CountMembers(users: set<string>, count: nat, members: seq<MemberResponse>)
    returns (users': set<string>, count': nat)
    requires Counts(count, users)
    ensures users' == users + Rejecting(members) && Counts(count', users')
  {
    users', count' := users, count;
    for k := 0 to |members|
      invariant Counts(count', users')
      invariant users' == With(users, members[..k])
    {
      hide Counts, With;
      WithStep(users, members, k);
      if IsRejection(members[k]) {
        users', count' := CountUser(users', count', members[k].name);
      }
    }
    assert members[..|members|] == members;
  }

  function With(users: set<string>, members: seq<MemberResponse>): set<string> {
    users + Rejecting(members)
  }

  lemma WithStep(users: set<string>, members: seq<MemberResponse>, k: nat)
    requires k < |members|
    ensures IsRejection(members[k]) ==> With(users, members[..k + 1]) == With(users, members[..k]) + {members[k].name}
    ensures !IsRejection(members[k]) ==> With(users, members[..k + 1]) == With(users, members[..k])
  {
    RejectingStep(members, k);
  }

  method RejectedCount(task: ApprovalTask) returns (count: nat)
    ensures count == |Rejected(task.responses)|
  {
    count := 0;
    var users := {};
    for i := 0 to |task.responses|
      invariant users == Rejected(task.responses[..i]) && Counts(count, users)
    {
      var a := task.responses[i];
      RejectedStep(task.responses, i);
      if DefaultedType(a.kind) == "User" && a.response == "rejected" {
        users, count := CountUser(users, count, a.name);
      } else if DefaultedType(a.kind) == "Group" {
        users, count := CountMembers(users, count, a.members);
      }
    }
    assert task.responses[..|task.responses|] == task.responses;
  }

  lemma RejectingStep(members: seq<MemberResponse>, k: nat)
    requires k < |members|
    ensures Rejecting(members[..k + 1]) ==
            Rejecting(members[..k]) + if IsRejection(members[k]) then {members[k].name} else {}
  {
    assert members[..k + 1] == members[..k] + [members[k]];
  }

  lemma RespondedStep(responses: seq<Approver>, i: nat)
    requires i < |responses|
    ensures Responded(responses[..i + 1]) == Responded(responses[..i]) + RespondedBy(responses[i])
  {
    assert responses[..i + 1] == responses[..i] + [responses[i]];
  }

  lemma RejectedStep(responses: seq<Approver>, i: nat)
    requires i < |responses|
    ensures Rejected(responses[..i + 1]) == Rejected(responses[..i]) + RejectedBy(responses[i])
  {
    assert responses[..i + 1] == responses[..i] + [responses[i]];
  }

  /** Pending and rejected responses together never exceed the required number. */
  lemma PendingPlusRejected(task: ApprovalTask)
    ensures task.required - |Responded(task.responses)| + |Rejected(task.responses)| <= task.required
  {
    forall user | user in Rejected(task.responses) ensures user in Responded(task.responses) {
      var a :| a in task.responses && user in RejectedBy(a);
      assert user in RespondedBy(a);
    }
    SubsetSize(Rejected(task.responses), Responded(task.responses));
  }

  lemma {:induction false} SubsetSize(a: set<string>, b: set<string>)
    requires a <= b
    ensures |a| <= |b|
  {
    if a != {} {
      var x :| x in a;
      SubsetSize(a - {x}, b - {x});
    }
  }

  /** Both counts depend only on which responses there are, not on their order or repetition. */
  lemma OrderAndRepetitionIrrelevant(a: seq<Approver>, b: seq<Approver>)
    requires forall r :: r in a <==> r in b
    ensures Responded(a) == Responded(b) && Rejected(a) == Rejected(b)
  {
    assert forall user :: user in Responded(a) <==> user in Responded(b);
    assert forall user :: user in Rejected(a) <==> user in Rejected(b);
  }
}
