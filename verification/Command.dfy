/** Injecting the configured Kubernetes connection flags into oc and kubectl command lines. */
module Command {

  datatype Flags = Flags(kubeconfig: string, context: string, cluster: string)

  type Args = seq<string>

  const SEPARATOR := "--"

  /** The flags, in the order they are put in. */
  function Name(i: nat): string
    requires i < 3
  {
    if i == 0 then "--kubeconfig" else if i == 1 then "--context" else "--cluster"
  }

  /** The configured value of the flag `Name(i)`, empty when it is not configured. */
  function ValueOf(flags: Flags, i: nat): string
    requires i < 3
  {
    if i == 0 then flags.kubeconfig else if i == 1 then flags.context else flags.cluster
  }

  predicate Matches(arg: string, name: string) {
    arg == name || name + "=" <= arg
  }

  /** No separator among the first `n` arguments. */
  predicate Open(args: Args, n: nat)
    requires n <= |args|
  {
    forall j | 0 <= j < n :: args[j] != SEPARATOR
  }

  /** The caller gives the flag before any separator. */
  predicate Given(args: Args, name: string) {
    exists i | 0 <= i < |args| :: Matches(args[i], name) && Open(args, i + 1)
  }

  /** What is added for flag `i`: its name and value when it is configured and not given. */
  function Added(flags: Flags, args: Args, i: nat): Args
    requires i < 3
  {
    if ValueOf(flags, i) != "" && !Given(args, Name(i)) then [Name(i), ValueOf(flags, i)] else []
  }

  function AddedUpTo(flags: Flags, args: Args, n: nat): Args
    requires n <= 3
  {
    if n == 0 then [] else AddedUpTo(flags, args, n - 1) + Added(flags, args, n - 1)
  }

  predicate TakesFlags(args: Args) {
    args != [] && (args[0] == "oc" || args[0] == "kubectl")
  }

  /** The command line that is run: the caller's arguments stay as they are behind the added flags. */
  function Complete(flags: Flags, args: Args): Args {
    if TakesFlags(args) then [args[0]] + AddedUpTo(flags, args[1..], 3) + args[1..] else args
  }

  /** Given means the name itself, or with a value behind it, and no separator up to there. */
  lemma GivenIff(args: Args, name: string)
    ensures Given(args, name) <==> exists i | 0 <= i < |args| ::
              (args[i] == name || name + "=" <= args[i]) && forall j | 0 <= j <= i :: args[j] != "--"
  {
    if Given(args, name) {
      var i :| 0 <= i < |args| && Matches(args[i], name) && Open(args, i + 1);
      assert forall j | 0 <= j <= i :: args[j] != "--";
    }
    if i :| 0 <= i < |args| && (args[i] == name || name + "=" <= args[i]) && forall j | 0 <= j <= i :: args[j] != "--" {
      assert Matches(args[i], name) && Open(args, i + 1);
    }
  }

  /** The scan stops at the separator or at the first match. */
  method HasFlag(args: Args, name: string) returns (found: bool)
    ensures found <==> Given(args, name)
    ensures found <==> exists i | 0 <= i < |args| ::
              (args[i] == name || name + "=" <= args[i]) && forall j | 0 <= j <= i :: args[j] != "--"
  {
    GivenIff(args, name);
    hide Matches, Name;
    for i := 0 to |args|
      invariant Open(args, i)
      invariant forall k | 0 <= k < i :: !Matches(args[k], name)
    {
      if args[i] == SEPARATOR {
        return false;
      }
      if Matches(args[i], name) {
        assert Open(args, i + 1);
        return true;
      }
    }
    return false;
  }

  /** What is put in, flag by flag. */
  lemma ThreeFlags(flags: Flags, args: Args)
    requires TakesFlags(args)
    ensures Complete(flags, args) ==
            [args[0]]
            + (if flags.kubeconfig != "" && !Given(args[1..], "--kubeconfig")
               then ["--kubeconfig", flags.kubeconfig] else [])
            + (if flags.context != "" && !Given(args[1..], "--context") then ["--context", flags.context] else [])
            + (if flags.cluster != "" && !Given(args[1..], "--cluster") then ["--cluster", flags.cluster] else [])
            + args[1..]
  {
    hide Given;
    var rest := args[1..];
    assert AddedUpTo(flags, rest, 3) == Added(flags, rest, 0) + Added(flags, rest, 1) + Added(flags, rest, 2) by {
      assert AddedUpTo(flags, rest, 1) == [] + Added(flags, rest, 0);
      assert AddedUpTo(flags, rest, 2) == AddedUpTo(flags, rest, 1) + Added(flags, rest, 1);
      assert AddedUpTo(flags, rest, 3) == AddedUpTo(flags, rest, 2) + Added(flags, rest, 2);
    }
  }

  method Command(flags: Flags, args: Args) returns (command: Args)
    ensures command == Complete(flags, args)
    ensures args != [] && (args[0] == "oc" || args[0] == "kubectl") ==>
      command == [args[0]]
                 + (if flags.kubeconfig != "" && !Given(args[1..], "--kubeconfig")
                    then ["--kubeconfig", flags.kubeconfig] else [])
                 + (if flags.context != "" && !Given(args[1..], "--context") then ["--context", flags.context] else [])
                 + (if flags.cluster != "" && !Given(args[1..], "--cluster") then ["--cluster", flags.cluster] else [])
                 + args[1..]
    ensures args == [] || (args[0] != "oc" && args[0] != "kubectl") ==> command == args
  {
    hide Given, Name;
    if |args| == 0 || (args[0] != "oc" && args[0] != "kubectl") {
      return args;
    }
    ThreeFlags(flags, args);
    command := [args[0]];
    for i := 0 to 3
      invariant command == [args[0]] + AddedUpTo(flags, args[1..], i)
    {
      var value := ValueOf(flags, i);
      if value != "" {
        var given := HasFlag(args[1..], Name(i));
        if !given {
          command := command + [Name(i), value];
        }
      }
    }
    command := command + args[1..];
  }

  /** The per-command override is put first. */
  function OcCommand(context: string, args: Args): Args {
    ["oc"] + (if context != "" then ["--context", context] else []) + args
  }

  /** Flag `i` is configured as the separator itself while another flag is configured too. */
  predicate Hides(flags: Flags, i: nat, j: nat)
    requires i < 3 && j < 3
  {
    i != j && ValueOf(flags, i) == SEPARATOR && ValueOf(flags, j) != ""
  }

  predicate NothingHidden(flags: Flags) {
    forall i, j | 0 <= i < 3 && 0 <= j < 3 :: !Hides(flags, i, j)
  }

  /** What is added before flag `f`, or anywhere if `f` is given, contains no separator. */
  lemma {:induction false} AddedIsOpen(flags: Flags, args: Args, n: nat, f: nat)
    requires n <= 3 && f < 3 && ValueOf(flags, f) != "" && NothingHidden(flags)
    requires n <= f || Given(args, Name(f))
    ensures Open(AddedUpTo(flags, args, n), |AddedUpTo(flags, args, n)|)
  {
    hide Given, Name;
    if n > 0 {
      AddedIsOpen(flags, args, n - 1, f);
      NameIsNoSeparator(n - 1);
      assert !Hides(flags, n - 1, f);
    }
  }

  lemma NameIsNoSeparator(i: nat)
    requires i < 3
    ensures Name(i) != SEPARATOR
  {
    assert |Name(i)| > 2;
  }

  lemma {:induction false} AddedGrows(flags: Flags, args: Args, n: nat, m: nat)
    requires n <= m <= 3
    ensures AddedUpTo(flags, args, n) <= AddedUpTo(flags, args, m)
    decreases m
  {
    hide Given, Name;
    if n < m {
      AddedGrows(flags, args, n, m - 1);
    }
  }

  /** Once completed, every configured flag is given. */
  lemma GivenAfterwards(flags: Flags, args: Args, f: nat)
    requires f < 3 && ValueOf(flags, f) != "" && NothingHidden(flags)
    ensures Given(AddedUpTo(flags, args, 3) + args, Name(f))
  {
    if Given(args, Name(f)) {
      hide *;
      AddedIsOpen(flags, args, 3, f);
      GivenBehind(AddedUpTo(flags, args, 3), args, Name(f));
    } else {
      var before, added := AddedUpTo(flags, args, f), AddedUpTo(flags, args, 3);
      assert AddedUpTo(flags, args, f + 1) == before + [Name(f), ValueOf(flags, f)];
      hide *;
      AddedGrows(flags, args, f + 1, 3);
      AddedIsOpen(flags, args, f, f);
      NameIsNoSeparator(f);
      GivenNext(before, added, args, Name(f), ValueOf(flags, f));
    }
  }

  lemma GivenNext(front: Args, added: Args, args: Args, name: string, value: string)
    requires Open(front, |front|) && front + [name, value] <= added && name != SEPARATOR
    ensures Given(added + args, name)
  {
    hide Matches;
    var all := added + args;
    MatchesItself(name);
    assert all[|front|] == (front + [name, value])[|front|] == name;
    assert forall k | 0 <= k < |front| :: all[k] == (front + [name, value])[k] == front[k];
    assert Open(all, |front| + 1);
  }

  /** Arguments without a separator in front of the others hide nothing. */
  lemma GivenBehind(front: Args, args: Args, name: string)
    requires Open(front, |front|) && Given(args, name)
    ensures Given(front + args, name)
  {
    hide Matches;
    var all := front + args;
    var i :| 0 <= i < |args| && Matches(args[i], name) && Open(args, i + 1);
    assert all[|front| + i] == args[i] && Open(all, |front| + i + 1);
  }

  lemma MatchesItself(name: string)
    ensures Matches(name, name)
  {
  }

  predicate Idempotent(flags: Flags, args: Args) {
    Complete(flags, Complete(flags, args)) == Complete(flags, args)
  }

  /** Completing a command line twice is completing it once, if no flag hides another. */
  lemma CompleteTwice(flags: Flags, args: Args)
    requires NothingHidden(flags)
    ensures Idempotent(flags, args)
  {
    if TakesFlags(args) {
      BehindCommand(flags, args);
      NothingMissing(flags, args[1..]);
    }
    hide AddedUpTo;
    NothingToAdd(flags, Complete(flags, args));
  }

  /** Behind its own additions, a command line needs none. */
  lemma NothingMissing(flags: Flags, args: Args)
    requires NothingHidden(flags)
    ensures AddedUpTo(flags, AddedUpTo(flags, args, 3) + args, 3) == []
  {
    hide Given, Name, AddedUpTo;
    var all := AddedUpTo(flags, args, 3) + args;
    forall f | 0 <= f < 3 ensures Added(flags, all, f) == [] {
      if ValueOf(flags, f) != "" {
        GivenAfterwards(flags, args, f);
      }
    }
    NothingAdded(flags, all);
  }

  lemma NothingToAdd(flags: Flags, args: Args)
    requires TakesFlags(args) ==> AddedUpTo(flags, args[1..], 3) == []
    ensures Complete(flags, args) == args
  {
    hide AddedUpTo;
  }

  lemma ThreeAdded(flags: Flags, args: Args)
    ensures AddedUpTo(flags, args, 3) == Added(flags, args, 0) + Added(flags, args, 1) + Added(flags, args, 2)
  {
    hide Added;
    assert AddedUpTo(flags, args, 1) == Added(flags, args, 0);
    assert AddedUpTo(flags, args, 2) == Added(flags, args, 0) + Added(flags, args, 1);
  }

  /** The flags and their values, in arguments that come in pairs. */
  function Pairs(args: Args): set<(string, string)> {
    if |args| < 2 then {} else {(args[0], args[1])} + Pairs(args[2..])
  }

  lemma {:induction false} PairsAppend(a: Args, b: Args)
    requires |a| % 2 == 0
    ensures Pairs(a + b) == Pairs(a) + Pairs(b)
  {
    if a == [] {
      assert a + b == b;
    } else {
      assert (a + b)[2..] == a[2..] + b;
      PairsAppend(a[2..], b);
    }
  }

  /** What is added are exactly the flags that are configured and that the caller gave none of before a separator. */
  lemma {:induction false} InsertedIff(flags: Flags, args: Args, n: nat)
    requires n <= 3
    ensures |AddedUpTo(flags, args, n)| % 2 == 0
    ensures Pairs(AddedUpTo(flags, args, n)) == Ungiven(flags, args, n)
  {
    if n == 0 {
      assert AddedUpTo(flags, args, 0) == [] && Ungiven(flags, args, 0) == {};
    } else {
      InsertedIff(flags, args, n - 1);
      assert AddedUpTo(flags, args, n) == AddedUpTo(flags, args, n - 1) + Added(flags, args, n - 1);
      hide *;
      UngivenStep(flags, args, n - 1);
      PairsAppend(AddedUpTo(flags, args, n - 1), Added(flags, args, n - 1));
    }
  }

  /** Of the first `n` flags, those that are configured and not given before a separator. */
  function Ungiven(flags: Flags, args: Args, n: nat): set<(string, string)>
    requires n <= 3
  {
    set f | 0 <= f < n && ValueOf(flags, f) != "" && !Given(args, Name(f)) :: (Name(f), ValueOf(flags, f))
  }

  lemma UngivenStep(flags: Flags, args: Args, n: nat)
    requires n < 3
    ensures Ungiven(flags, args, n + 1) == Ungiven(flags, args, n) +
            Pairs(Added(flags, args, n))
    ensures |Added(flags, args, n)| % 2 == 0
  {
    hide Given, ValueOf, Name;
    var pair := Added(flags, args, n);
    assert pair == [] || (pair[2..] == [] && Pairs(pair) == {(pair[0], pair[1])});
  }

  lemma NothingAdded(flags: Flags, args: Args)
    requires forall f | 0 <= f < 3 :: Added(flags, args, f) == []
    ensures AddedUpTo(flags, args, 3) == []
  {
    hide Added;
    ThreeAdded(flags, args);
  }

  /** The command line whose only flags are the ones other than `i`. */
  function Others(i: nat): Args
    requires i < 3
  {
    ["oc", Name((i + 1) % 3), Name((i + 2) % 3)]
  }

  /** A hidden flag is added again: the first pass puts the separator in front of it. */
  lemma HiddenBreaks(flags: Flags, i: nat, j: nat)
    requires i < 3 && j < 3 && Hides(flags, i, j)
    ensures !Idempotent(flags, Others(i))
  {
    var args := Others(i);
    assert TakesFlags(args);
    assert ValueOf(flags, i) == SEPARATOR && ValueOf(flags, j) != "" && i != j;
    hide *;
    OnlyOthersGiven(i);
    OneAdded(flags, args[1..], i);
    BehindCommand(flags, args);
    NamesDiffer(i, j);
    BehindSeparator(Name(i), args[1..], Name(j));
    UngivenBreaks(flags, args, j);
  }

  /** A configured flag that the completed command line still lacks would be added by a second pass. */
  lemma UngivenBreaks(flags: Flags, args: Args, j: nat)
    requires j < 3 && TakesFlags(args) && ValueOf(flags, j) != "" && !Given(Complete(flags, args)[1..], Name(j))
    ensures !Idempotent(flags, args)
  {
    var all := Complete(flags, args)[1..];
    assert Added(flags, all, j) != [];
    hide Given, ValueOf, Added, Name;
    assert AddedUpTo(flags, all, j + 1) != [];
    AddedGrows(flags, all, j + 1, 3);
    hide AddedUpTo;
    assert |Complete(flags, Complete(flags, args))| > |Complete(flags, args)|;
  }

  lemma BehindCommand(flags: Flags, args: Args)
    requires TakesFlags(args)
    ensures Complete(flags, args)[1..] == AddedUpTo(flags, args[1..], 3) + args[1..]
  {
  }

  lemma OneAdded(flags: Flags, args: Args, i: nat)
    requires i < 3 && ValueOf(flags, i) != "" && !Given(args, Name(i))
    requires Given(args, Name((i + 1) % 3)) && Given(args, Name((i + 2) % 3))
    ensures AddedUpTo(flags, args, 3) == [Name(i), ValueOf(flags, i)]
  {
    hide Given, Name;
    ThreeAdded(flags, args);
  }

  lemma BehindSeparator(first: string, rest: Args, name: string)
    requires !Matches(first, name)
    ensures !Given([first, SEPARATOR] + rest, name)
  {
    assert ([first, SEPARATOR] + rest)[1] == SEPARATOR;
  }

  lemma NamesDiffer(i: nat, j: nat)
    requires i < 3 && j < 3 && i != j
    ensures !Matches(Name(i), Name(j))
  {
    assert Name(0)[2] == 'k' && Name(1)[4] == 'n' && Name(2)[4] == 'u' && Name(1)[2] == 'c';
  }

  lemma OnlyOthersGiven(i: nat)
    requires i < 3
    ensures !Given(Others(i)[1..], Name(i))
    ensures Given(Others(i)[1..], Name((i + 1) % 3)) && Given(Others(i)[1..], Name((i + 2) % 3))
  {
    var rest := Others(i)[1..];
    assert rest == [Name((i + 1) % 3), Name((i + 2) % 3)];
    NamesDiffer((i + 1) % 3, i);
    NamesDiffer((i + 2) % 3, i);
    MatchesItself(rest[0]);
    MatchesItself(rest[1]);
    assert Open(rest, 1) && Open(rest, 2);
  }

  /** Completion is idempotent on all command lines exactly when no configured flag hides another. */
  lemma IdempotentIff(flags: Flags)
    ensures (forall args :: Idempotent(flags, args)) <==> NothingHidden(flags)
  {
    if NothingHidden(flags) {
      forall args ensures Idempotent(flags, args) {
        CompleteTwice(flags, args);
      }
    } else {
      var i, j :| 0 <= i < 3 && 0 <= j < 3 && Hides(flags, i, j);
      HiddenBreaks(flags, i, j);
    }
  }

  /** A per-command context always suppresses the configured one, whatever either of them is. */
  lemma OverrideSuppresses(flags: Flags, context: string, args: Args)
    requires context != ""
    ensures Complete(flags, OcCommand(context, args)) == Complete(flags.(context := ""), OcCommand(context, args))
  {
    var rest := OcCommand(context, args)[1..];
    assert rest[0] == Name(1);
    MatchesItself(rest[0]);
    assert Open(rest, 1);
    assert Given(rest, Name(1));
    hide Given, Name;
    var without := flags.(context := "");
    assert Added(flags, rest, 0) == Added(without, rest, 0) && Added(flags, rest, 2) == Added(without, rest, 2);
    ThreeAdded(flags, rest);
    ThreeAdded(without, rest);
  }
}
