/**
 The scheduler section of TektonConfig and its restoration, a three-way merge between the value
 found, the value saved before the test and the value the test installed.
 */
module Scheduler {
  import opened Wrappers

  datatype MultiClusterRole = NoRole | Hub | Spoke

  /** `rest` stands for every other member of the section. */
  datatype Scheduler = Scheduler(
    disabled: Option<bool>,
    multiClusterDisabled: bool,
    role: MultiClusterRole,
    queueName: string,
    multiKueueOverride: bool,
    rest: string)

  /** The five fields the test sets; a conflict is reported as the field it concerns. */
  datatype Field = Disabled | MultiClusterDisabled | Role | QueueName | MultiKueueOverride

  datatype FieldValue = Pointer(b: Option<bool>) | Flag(f: bool) | RoleName(r: MultiClusterRole) | Text(s: string)

  function FieldOf(s: Scheduler, field: Field): FieldValue {
    match field
    case Disabled => Pointer(s.disabled)
    case MultiClusterDisabled => Flag(s.multiClusterDisabled)
    case Role => RoleName(s.role)
    case QueueName => Text(s.queueName)
    case MultiKueueOverride => Flag(s.multiKueueOverride)
  }

  /** The five fields are the same. */
  ghost predicate SameFields(a: Scheduler, b: Scheduler) {
    && a.disabled == b.disabled && a.multiClusterDisabled == b.multiClusterDisabled && a.role == b.role
    && a.queueName == b.queueName && a.multiKueueOverride == b.multiKueueOverride
  }

  /** What enabling the scheduler writes over `s`. */
  function Install(s: Scheduler, role: MultiClusterRole, queueName: string): Scheduler {
    s.(disabled := Some(false), multiClusterDisabled := false, role := role, queueName := queueName,
       multiKueueOverride := role == Hub)
  }

  function ThreeWay<T(==)>(current: T, original: T, installed: T): T {
    if current == installed then original else current
  }

  function Restored(s: Scheduler, original: Scheduler, role: MultiClusterRole, queueName: string): Scheduler {
    s.(disabled := ThreeWay(s.disabled, original.disabled, Some(false)),
       multiClusterDisabled := ThreeWay(s.multiClusterDisabled, original.multiClusterDisabled, false),
       role := ThreeWay(s.role, original.role, role),
       queueName := ThreeWay(s.queueName, original.queueName, queueName),
       multiKueueOverride := ThreeWay(s.multiKueueOverride, original.multiKueueOverride, role == Hub))
  }

  /** The fields whose value is somebody else's: neither the saved nor the installed one. */
  function Conflicts(s: Scheduler, original: Scheduler, role: MultiClusterRole, queueName: string): set<Field> {
    set field: Field |
      FieldOf(s, field) != FieldOf(original, field) && FieldOf(s, field) != FieldOf(Install(s, role, queueName), field)
  }

  function Position(field: Field): nat {
    match field
    case Disabled => 0
    case MultiClusterDisabled => 1
    case Role => 2
    case QueueName => 3
    case MultiKueueOverride => 4
  }

  /** Every field at most once, in the order the fields are examined, all before position `bound`. */
  predicate InOrder(conflicts: seq<Field>, bound: nat) {
    && (forall i | 0 <= i < |conflicts| :: Position(conflicts[i]) < bound)
    && forall i, j | 0 <= i < j < |conflicts| :: Position(conflicts[i]) < Position(conflicts[j])
  }

  /** Each of these fields exactly once, in the order the fields are examined. */
  ghost predicate Lists(conflicts: seq<Field>, fields: set<Field>) {
    InOrder(conflicts, 5) && forall f :: f in conflicts <==> f in fields
  }

  class BoolCell {
    var value: bool

    constructor (value: bool)
      ensures this.value == value
    {
      this.value := value;
    }
  }

  /** The section as the client library holds it, `disabled` being a pointer. */
  class SchedulerSpec {
    var disabled: BoolCell?
    var multiClusterDisabled: bool
    var role: MultiClusterRole
    var queueName: string
    var multiKueueOverride: bool
    var rest: string

    function View(): Scheduler
      reads this, disabled
    {
      Scheduler(if disabled == null then None else Some(disabled.value), multiClusterDisabled, role,
                queueName, multiKueueOverride, rest)
    }
  }

  /**
   Restores `current` in place. The pointer it ends with is its own or a new one, so the saved
   original is never shared with a value that is written to the cluster afterwards.
   */
  method RestoreSchedulerFields(current: SchedulerSpec, original: SchedulerSpec, role: MultiClusterRole,
                                queueName: string)
    returns (conflicts: seq<Field>)
    modifies current
    ensures current.View() == Restored(old(current.View()), old(original.View()), role, queueName)
    ensures Lists(conflicts, Conflicts(old(current.View()), old(original.View()), role, queueName))
    ensures conflicts != [] <==> Disputed(old(current.View()), old(original.View()), role, queueName)
    ensures current.disabled == old(current.disabled) || current.disabled == null || fresh(current.disabled)
    ensures current != original ==> unchanged(original)
  {
    hide Disputed;
    ghost var found := current.View();
    var saved := original.View();
    conflicts := RestoreDisabled(current, original);
    DisabledFirst(found, saved, current.View().disabled, role, queueName);
    assert InOrder(conflicts, 1);
    hide Conflicts, InOrder;
    assert original.View() == saved;
    conflicts := RestoreOthers(current, saved, role, queueName, conflicts);
    SomethingListed(conflicts, found, saved, role, queueName);
  }

  lemma SomethingListed(conflicts: seq<Field>, s: Scheduler, original: Scheduler, role: MultiClusterRole,
                        queueName: string)
    requires Lists(conflicts, Conflicts(s, original, role, queueName))
    ensures conflicts != [] <==> Disputed(s, original, role, queueName)
  {
    hide Conflicts, Disputed;
    ConflictIffDisputed(s, original, role, queueName);
    if conflicts != [] {
      assert conflicts[0] in conflicts;
    }
  }

  /** The fields that are plain values. */
  method RestoreOthers(current: SchedulerSpec, original: Scheduler, role: MultiClusterRole, queueName: string,
                       earlier: seq<Field>)
    returns (conflicts: seq<Field>)
    requires InOrder(earlier, 1)
    modifies current`multiClusterDisabled, current`role, current`queueName, current`multiKueueOverride
    ensures current.View() ==
            Restored(old(current.View()), original, role, queueName).(disabled := old(current.View()).disabled)
    ensures InOrder(conflicts, 5)
    ensures forall f :: f in conflicts <==>
              f in earlier || (f != Disabled && f in Conflicts(old(current.View()), original, role, queueName))
  {
    var values;
    values, conflicts := RestoreValues(current.View(), original, role, queueName, earlier);
    current.multiClusterDisabled, current.role, current.queueName, current.multiKueueOverride :=
      values.multiClusterDisabled, values.role, values.queueName, values.multiKueueOverride;
  }

  /** The first field decides about its own conflict and about no other. */
  lemma DisabledFirst(s: Scheduler, original: Scheduler, disabled: Option<bool>, role: MultiClusterRole,
      queueName: string)
    ensures Disabled in Conflicts(s, original, role, queueName) <==>
            s.disabled != original.disabled && s.disabled != Some(false)
    ensures forall f | f != Disabled ::
              f in Conflicts(s.(disabled := disabled), original, role, queueName) <==>
              f in Conflicts(s, original, role, queueName)
  {
  }

  method RestoreValues(s: Scheduler, original: Scheduler, role: MultiClusterRole, queueName: string,
      earlier: seq<Field>)
    returns (restored: Scheduler, conflicts: seq<Field>)
    requires InOrder(earlier, 1)
    ensures restored == Restored(s, original, role, queueName).(disabled := s.disabled)
    ensures InOrder(conflicts, 5)
    ensures forall f :: f in conflicts <==>
              f in earlier || (f != Disabled && f in Conflicts(s, original, role, queueName))
  {
    var multiClusterDisabled, foundRole, foundQueue, override;
    multiClusterDisabled, conflicts :=
      RestoreField(MultiClusterDisabled, s.multiClusterDisabled, original.multiClusterDisabled, false, earlier);
    foundRole, conflicts := RestoreField(Role, s.role, original.role, role, conflicts);
    foundQueue, conflicts := RestoreField(QueueName, s.queueName, original.queueName, queueName, conflicts);
    override, conflicts :=
      RestoreField(MultiKueueOverride, s.multiKueueOverride, original.multiKueueOverride, role == Hub, conflicts);
    restored := s.(multiClusterDisabled := multiClusterDisabled, role := foundRole, queueName := foundQueue,
                   multiKueueOverride := override);
    assert forall i | 0 <= i < |earlier| :: earlier[i] == Disabled;
  }

  method RestoreDisabled(current: SchedulerSpec, original: SchedulerSpec) returns (conflicts: seq<Field>)
    modifies current`disabled
    ensures current.View() ==
            old(current.View()).(disabled := ThreeWay(old(current.View()).disabled, old(original.View()).disabled,
                Some(false)))
    ensures
      var found, saved := old(current.View()).disabled, old(original.View()).disabled;
      conflicts == if found != saved && found != Some(false) then [Disabled] else []
    ensures current.disabled == old(current.disabled) || current.disabled == null || fresh(current.disabled)
  {
    conflicts := [];
    var equalPointers :=
      (current.disabled == null && original.disabled == null) ||
      (current.disabled != null && original.disabled != null && current.disabled.value == original.disabled.value);
    if !equalPointers {
      if current.disabled != null && !current.disabled.value {
        if original.disabled == null {
          current.disabled := null;
        } else {
          current.disabled := new BoolCell(original.disabled.value);
        }
      } else {
        conflicts := [Disabled];
      }
    }
  }

  /** One field of the restoration: keep, put back or report. */
  method RestoreField<T(==)>(field: Field, current: T, original: T, installed: T, conflicts: seq<Field>)
    returns (value: T, reported: seq<Field>)
    requires InOrder(conflicts, Position(field))
    ensures value == ThreeWay(current, original, installed)
    ensures forall f :: f in reported <==> f in conflicts || (f == field && current != original && current != installed)
    ensures InOrder(reported, Position(field) + 1)
  {
    value, reported := current, conflicts;
    if current != original {
      if current == installed {
        value := original;
      } else {
        reported := conflicts + [field];
      }
    }
  }

  /**
   Field by field: a value that is the original or the installed one ends as the original and is not
   reported; any other value survives and is reported exactly once. Nothing else changes.
   */
  lemma RestoreIsThreeWay(s: Scheduler, original: Scheduler, role: MultiClusterRole, queueName: string, field: Field)
    ensures Restored(s, original, role, queueName).rest == s.rest
    ensures
      var ours := FieldOf(s, field) in [FieldOf(original, field), FieldOf(Install(s, role, queueName), field)];
      && FieldOf(Restored(s, original, role, queueName), field) == FieldOf(if ours then original else s, field)
      && (field in Conflicts(s, original, role, queueName) <==> !ours)
  {
    var expected := [FieldOf(original, field), FieldOf(Install(s, role, queueName), field)];
    assert FieldOf(s, field) in expected <==> FieldOf(s, field) == expected[0] || FieldOf(s, field) == expected[1];
  }

  /** What enabling a scheduler writes: the values of the test, the override being set exactly for the hub. */
  lemma InstalledValues(found: Scheduler, role: MultiClusterRole, queueName: string)
    ensures Install(found, role, queueName) == Scheduler(Some(false), false, role, queueName, role == Hub, found.rest)
  {
  }

  /** Some field is neither as it was saved nor as the test set it. */
  predicate Disputed(s: Scheduler, original: Scheduler, role: MultiClusterRole, queueName: string) {
    || (s.disabled != original.disabled && s.disabled != Some(false))
    || (s.multiClusterDisabled != original.multiClusterDisabled && s.multiClusterDisabled)
    || (s.role != original.role && s.role != role)
    || (s.queueName != original.queueName && s.queueName != queueName)
    || (s.multiKueueOverride != original.multiKueueOverride && (s.multiKueueOverride <==> role != Hub))
  }

  /** Field by field, with the values the test sets: what is reported ... */
  lemma EachConflict(s: Scheduler, original: Scheduler, role: MultiClusterRole, queueName: string)
    ensures
      var conflicts := Conflicts(s, original, role, queueName);
      && (Disabled in conflicts <==> s.disabled != original.disabled && s.disabled != Some(false))
      && (MultiClusterDisabled in conflicts <==> s.multiClusterDisabled && !original.multiClusterDisabled)
      && (Role in conflicts <==> s.role != original.role && s.role != role)
      && (QueueName in conflicts <==> s.queueName != original.queueName && s.queueName != queueName)
      && (MultiKueueOverride in conflicts <==>
          s.multiKueueOverride != original.multiKueueOverride && (s.multiKueueOverride <==> role != Hub))
  {
  }

  /** ... and what the section ends with. */
  lemma EachField(s: Scheduler, original: Scheduler, role: MultiClusterRole, queueName: string)
    ensures
      var conflicts, end := Conflicts(s, original, role, queueName), Restored(s, original, role, queueName);
      && end.disabled == (if Disabled in conflicts then s else original).disabled
      && end.multiClusterDisabled == (if MultiClusterDisabled in conflicts then s else original).multiClusterDisabled
      && end.role == (if Role in conflicts then s else original).role
      && end.queueName == (if QueueName in conflicts then s else original).queueName
      && end.multiKueueOverride == (if MultiKueueOverride in conflicts then s else original).multiKueueOverride
      && end.rest == s.rest
  {
    hide Conflicts;
    EachConflict(s, original, role, queueName);
  }

  lemma ConflictIffDisputed(s: Scheduler, original: Scheduler, role: MultiClusterRole, queueName: string)
    ensures Conflicts(s, original, role, queueName) != {} <==> Disputed(s, original, role, queueName)
  {
    hide Conflicts;
    EachConflict(s, original, role, queueName);
    var conflicts := Conflicts(s, original, role, queueName);
    if f :| f in conflicts {
      assert f == Disabled || f == MultiClusterDisabled || f == Role || f == QueueName || f == MultiKueueOverride;
    }
  }

  /** Restoring again changes nothing and reports the same conflicts. */
  lemma RestoreTwice(s: Scheduler, original: Scheduler, role: MultiClusterRole, queueName: string)
    ensures
      var once := Restored(s, original, role, queueName);
      && Restored(once, original, role, queueName) == once
      && Conflicts(once, original, role, queueName) == Conflicts(s, original, role, queueName)
  {
    var once := Restored(s, original, role, queueName);
    forall field ensures field in Conflicts(once, original, role, queueName) <==>
                         field in Conflicts(s, original, role, queueName)
    {
      RestoreIsThreeWay(s, original, role, queueName, field);
      RestoreIsThreeWay(once, original, role, queueName, field);
    }
  }

  /** No conflict is reported exactly when all five fields end as they were before the test. */
  lemma NoConflictIffRestored(s: Scheduler, original: Scheduler, role: MultiClusterRole, queueName: string)
    ensures Conflicts(s, original, role, queueName) == {} <==>
            SameFields(Restored(s, original, role, queueName), original)
  {
    hide Conflicts, Restored;
    ConflictIffDisputed(s, original, role, queueName);
    EachConflict(s, original, role, queueName);
    EachField(s, original, role, queueName);
  }

  /** Installing and restoring is the identity, whatever others did meanwhile to the other members. */
  lemma InstallThenRestore(original: Scheduler, role: MultiClusterRole, queueName: string, rest: string)
    ensures
      var found := Install(original, role, queueName).(rest := rest);
      && Restored(found, original, role, queueName) == original.(rest := rest)
      && Conflicts(found, original, role, queueName) == {}
  {
  }
}
