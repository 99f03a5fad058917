/**
 The merge patches for TektonConfig's pruners: the texts as they are put together, what they parse to,
 and what merging them does to any document.
 */
module PrunerPatch {
  import opened Wrappers
  import opened Strings
  import Json
  import J = JsonText

  // ---- spec.tektonpruner.global-config ----

  const GLOBAL_CONFIG: Json.Path := ["spec", "tektonpruner", "global-config"]
  const MAX_INT := 0x7FFF_FFFF_FFFF_FFFF

  function Lower(c: char): char {
    if 'A' <= c <= 'Z' then c - 'A' + 'a' else c
  }

  /** strings.EqualFold with "null". */
  predicate IsNullWord(s: string) {
    |s| == 4 && Lower(s[0]) == 'n' && Lower(s[1]) == 'u' && Lower(s[2]) == 'l' && Lower(s[3]) == 'l'
  }

  function Unsigned(s: string): string {
    if s != "" && (s[0] == '-' || s[0] == '+') then s[1..] else s
  }

  function DecimalValue(digits: string): nat
    requires J.Digits(digits)
  {
    if digits == "" then 0
    else DecimalValue(digits[..|digits| - 1]) * 10 + (digits[|digits| - 1] as int - '0' as int)
  }

  /** strconv.Atoi succeeds: an optional sign and digits, within 64 bits. */
  predicate AtoiAccepts(s: string) {
    var digits := Unsigned(s);
    digits != "" && J.Digits(digits) &&
    DecimalValue(digits) <= if s[0] == '-' then MAX_INT + 1 else MAX_INT
  }

  /** The word, in large or small letters. */
  lemma NullWordIff(s: string)
    ensures IsNullWord(s) <==>
            |s| == 4 && s[0] in {'n', 'N'} && s[1] in {'u', 'U'} && s[2] in {'l', 'L'} && s[3] in {'l', 'L'}
  {
  }

  lemma {:induction false} DecimalValueOf(n: nat)
    ensures J.Digits(Decimal(n)) && Decimal(n) != "" && DecimalValue(Decimal(n)) == n
  {
    var s := Decimal(n);
    if n >= 10 {
      DecimalValueOf(n / 10);
      assert s[..|s| - 1] == Decimal(n / 10);
    } else {
      assert s[..|s| - 1] == "" && DecimalValue("") == 0;
    }
    assert s[|s| - 1] == '0' + (n % 10) as char;
  }

  /** Of the numbers as they are printed, those of 64 bits are accepted, with or without a sign ... */
  lemma AcceptedIff(n: nat)
    ensures AtoiAccepts(Decimal(n)) <==> n <= 9223372036854775807
    ensures AtoiAccepts("+" + Decimal(n)) <==> n <= 9223372036854775807
    ensures AtoiAccepts("-" + Decimal(n)) <==> n <= 9223372036854775808
  {
    var digits := Decimal(n);
    DecimalValueOf(n);
    hide Decimal, DecimalValue;
    assert ("+" + digits)[1..] == digits && ("-" + digits)[1..] == digits;
    assert J.IsDigit(digits[0]);
    assert Unsigned(digits) == Unsigned("+" + digits) == Unsigned("-" + digits) == digits;
    hide J.Digits, Unsigned;
  }

  /** ... and whatever is accepted is an optional sign and at least one digit. */
  lemma AcceptedForm(s: string)
    requires AtoiAccepts(s)
    ensures
      var digits := if s[0] == '+' || s[0] == '-' then s[1..] else s;
      digits != "" && forall i | 0 <= i < |digits| :: '0' <= digits[i] <= '9'
  {
  }

  function ValuePart(value: string): string {
    var v := TrimSpace(value);
    if v == "" || IsNullWord(v) then "null"
    else if AtoiAccepts(v) then v
    else "\"" + Printed(v)
  }

  /** The value the caller means. */
  function Meant(value: string): J.Syntax {
    var v := TrimSpace(value);
    if v == "" || IsNullWord(v) then J.Null
    else if AtoiAccepts(v) then J.Number(v)
    else J.String(v)
  }

  /** The printed text of a one-path object. */
  function NestText(path: Json.Path, value: string): string {
    if path == [] then value else J.Braces(J.RawMember(path[0], NestText(path[1..], value)))
  }

  function NestSyntax(path: Json.Path, value: J.Syntax): J.Syntax {
    if path == [] then value else J.Single(path[0], NestSyntax(path[1..], value))
  }

  /** Wraps the dotted parameter's segments inside out. */
  method GlobalConfigPatch(param: string, value: string) returns (patch: string)
    ensures patch == NestText(GLOBAL_CONFIG + Split(param, '.'), ValuePart(value))
  {
    hide J.Braces, J.RawMember, ValuePart;
    var valuePart := ValuePart(value);
    var inner;
    var parts := Split(param, '.');
    if '.' in param {
      inner := J.RawMember(parts[|parts| - 1], valuePart);
      var i := |parts| - 2;
      assert parts[i + 1..] == [parts[|parts| - 1]] && [parts[|parts| - 1]][1..] == [];
      while i >= 0
        invariant -1 <= i <= |parts| - 2
        invariant J.Braces(inner) == NestText(parts[i + 1..], valuePart)
      {
        assert parts[i..][1..] == parts[i + 1..];
        inner := J.RawMember(parts[i], J.Braces(inner));
        i := i - 1;
      }
      assert parts[0..] == parts;
    } else {
      SplitFree(param, '.');
      inner := J.RawMember(param, valuePart);
      assert [param][1..] == [];
    }
    patch := J.Braces(J.RawMember("spec", J.Braces(J.RawMember("tektonpruner", J.Braces(J.RawMember("global-config",
             J.Braces(inner)))))));
    NestTextAppend(GLOBAL_CONFIG, parts, valuePart);
    assert GLOBAL_CONFIG[1..] == ["tektonpruner", "global-config"] && GLOBAL_CONFIG[1..][1..] == ["global-config"];
    assert ["global-config"][1..] == [];
    assert NestText(["global-config"], J.Braces(inner)) == J.Braces(J.RawMember("global-config", J.Braces(inner)));
  }

  lemma {:induction false} NestTextAppend(path: Json.Path, rest: Json.Path, value: string)
    ensures NestText(path + rest, value) == NestText(path, NestText(rest, value))
  {
    if path == [] {
      assert path + rest == rest;
    } else {
      assert (path + rest)[1..] == path[1..] + rest;
      NestTextAppend(path[1..], rest, value);
    }
  }

  predicate PlainPath(path: Json.Path) {
    forall i | 0 <= i < |path| :: J.Plain(path[i])
  }

  /** With plain segments the text prints, parses and denotes exactly that one path. */
  lemma {:induction false} NestTextMeans(path: Json.Path, value: J.Syntax)
    requires PlainPath(path) && J.Printable(value)
    ensures NestText(path, J.Text(value)) == J.Text(NestSyntax(path, value))
    ensures J.Printable(NestSyntax(path, value))
    ensures J.Value(NestSyntax(path, value)) == Json.Nest(path, J.Value(value))
  {
    if path != [] {
      NestTextMeans(path[1..], value);
      var inner := NestSyntax(path[1..], value);
      J.RawMemberText(path[0], inner);
      J.PrintableSingle(path[0], inner);
      SingleValue(path[0], inner);
    }
  }

  lemma SingleValue(key: string, value: J.Syntax)
    ensures J.Value(J.Single(key, value)) == Json.Object(map[key := J.Value(value)])
  {
    assert J.MemberValues(J.NoMembers) == map[];
    assert J.MemberValues(J.Member(key, value, J.NoMembers)) == map[key := J.Value(value)];
  }

  /** A string value is safe without a backslash or control character, a number if JSON would write it so. */
  predicate ValueOk(value: string) {
    match Meant(value)
    case Number(v) => J.IsInteger(v)
    case String(v) => forall i | 0 <= i < |v| :: v[i] != '\\' && !J.IsControl(v[i])
    case _ => true
  }

  /** A string value as it is printed behind its opening quote. */
  function Printed(v: string): string {
    ReplaceAll(v, '"', "\\\"") + "\""
  }

  lemma PrintedStep(v: string)
    ensures Printed("") == "\""
    ensures v != "" ==> Printed(v) == (if v[0] == '"' then "\\\"" else [v[0]]) + Printed(v[1..])
  {
    assert v != "" ==> Printed(v) == (if v[0] == '"' then "\\\"" else [v[0]]) + Printed(v[1..]);
  }

  /** Escaping quotes alone preserves a string exactly when there is no backslash or control character. */
  lemma {:induction false} QuotesOnlyIff(v: string)
    ensures J.ParseString(Printed(v)) == Some((v, "")) <==>
            forall i | 0 <= i < |v| :: v[i] != '\\' && !J.IsControl(v[i])
  {
    hide Printed;
    PrintedStep(v);
    if v != "" {
      var tail := Printed(v[1..]);
      QuotesOnlyIff(v[1..]);
      assert v == [v[0]] + v[1..];
      if v[0] == '"' {
        assert Printed(v)[2..] == tail;
      } else {
        assert Printed(v)[1..] == tail;
        if v[0] == '\\' {
          QuotesOnlyShortens(v);
        }
      }
    }
  }

  /** Every character yields at most one, and a leading backslash swallows one. */
  lemma {:induction false} QuotesOnlyShortens(v: string)
    ensures
      var r := J.ParseString(Printed(v));
      r.Some? ==> |r.value.0| <= |v| && (v != "" && v[0] == '\\' ==> |r.value.0| < |v|)
    decreases |v|, 1
  {
    hide Printed;
    PrintedStep(v);
    if v != "" {
      if v[0] == '"' {
        QuotesOnlyShortens(v[1..]);
        assert Printed(v)[2..] == Printed(v[1..]);
      } else if v[0] != '\\' {
        QuotesOnlyShortens(v[1..]);
        assert Printed(v)[1..] == Printed(v[1..]);
      } else {
        LeadingBackslash(v);
      }
    }
  }

  lemma {:induction false} LeadingBackslash(v: string)
    requires v != "" && v[0] == '\\'
    ensures J.ParseString(Printed(v)).Some? ==> |J.ParseString(Printed(v)).value.0| < |v|
    decreases |v|, 0
  {
    hide Printed, J.ParseString;
    var w := v[1..];
    PrintedStep(v);
    PrintedStep(w);
    if w == "" {
      assert Printed(v) == "\\" + ['"'] + "";
      AfterEscape('"', "");
      NothingToParse("");
    } else if w[0] == '"' {
      var after := "\"" + Printed(w[1..]);
      assert Printed(v) == "\\" + ['\\'] + after;
      AfterEscape('\\', after);
      NothingToParse(after);
    } else {
      var tail := Printed(w[1..]);
      assert Printed(v) == "\\" + [w[0]] + tail;
      AfterEscape(w[0], tail);
      if w[0] != 'u' {
        QuotesOnlyShortens(w[1..]);
        assert tail[0..] == tail;
      } else if J.ParseString(Printed(v)).Some? {
        FourDigits(tail[..4]);
        PrefixKept(w[1..], 4);
        QuotesOnlyShortens(w[1..][4..]);
      }
    }
  }

  lemma NothingToParse(s: string)
    ensures s == "" ==> J.ParseString(s[0..]).None?
    ensures s != "" && s[0] == '"' ==> J.ParseString(s[0..]) == Some(("", s[1..]))
  {
  }

  /** An escape yields one character; the rest of the literal follows it. */
  lemma AfterEscape(c: char, tail: string)
    ensures
      var r := J.ParseString("\\" + [c] + tail);
      r.Some? ==>
        var skipped := if c == 'u' then 4 else 0;
        && skipped <= |tail| && (c == 'u' ==> J.UnicodeEscape(tail[..4]).Some?)
        && var rest := J.ParseString(tail[skipped..]);
        rest.Some? && |r.value.0| == |rest.value.0| + 1
  {
    hide J.UnicodeEscape;
    var s := "\\" + [c] + tail;
    assert s[2..] == tail && tail[0..] == tail;
    if |s| >= 6 {
      assert s[2..6] == tail[..4] && s[6..] == tail[4..];
    }
  }

  lemma FourDigits(s: string)
    requires |s| == 4 && J.UnicodeEscape(s).Some?
    ensures forall i | 0 <= i < 4 :: s[i] != '"' && s[i] != '\\'
  {
  }

  /** Where the printed text shows neither a quote nor a backslash, it is the original text. */
  lemma {:induction false} PrefixKept(x: string, k: nat)
    requires k <= |Printed(x)| && forall i | 0 <= i < k :: Printed(x)[i] != '"' && Printed(x)[i] != '\\'
    ensures k <= |x| && Printed(x)[k..] == Printed(x[k..])
    decreases k
  {
    hide Printed;
    PrintedStep(x);
    if k > 0 {
      assert Printed(x)[0] != '"' && Printed(x)[0] != '\\';
      assert Printed(x)[1..] == Printed(x[1..]);
      PrefixKept(x[1..], k - 1);
      assert x[k..] == x[1..][k - 1..];
    }
  }

  /** The printed value parses to the value meant exactly under this condition. */
  lemma ValueParsesIff(value: string)
    ensures J.Parse(ValuePart(value)) == Some(Meant(value)) <==> ValueOk(value)
  {
    hide J.ParseString, Printed, AtoiAccepts, TrimSpace, IsNullWord;
    var v := TrimSpace(value);
    match Meant(value)
    case Number(_) =>
      NumberParsesIff(v);
    case String(_) =>
      QuotesOnlyIff(v);
      var text := ValuePart(value);
      assert text[0] == '"' && text[1..] == Printed(v);
    case _ =>
      J.RoundTrip(J.Null);
  }

  lemma NumberParsesIff(v: string)
    requires AtoiAccepts(v)
    ensures J.Parse(v) == Some(J.Number(v)) <==> J.IsInteger(v)
  {
    if J.IsInteger(v) {
      J.RoundTrip(J.Number(v));
    } else if v[0] != '+' {
      var sign := if v[0] == '-' then 1 else 0;
      J.DigitRunOf(v[sign..], "");
      assert v[sign..] + "" == v[sign..];
    }
  }

  /** A safe value prints as the text of the value meant. */
  lemma {:induction false} SafeQuote(v: string)
    requires forall i | 0 <= i < |v| :: v[i] != '\\' && !J.IsControl(v[i])
    ensures ReplaceAll(v, '"', "\\\"") == J.Escape(v)
  {
    if v != "" {
      SafeQuote(v[1..]);
    }
  }

  lemma ValueText(value: string)
    requires ValueOk(value)
    ensures ValuePart(value) == J.Text(Meant(value)) && J.Printable(Meant(value))
  {
    if Meant(value).String? {
      SafeQuote(TrimSpace(value));
    }
  }

  /**
   For every document: the patch for a parameter with plain segments parses, sets exactly that leaf of
   global-config, deletes it when the value is null, and changes no path that parts ways with it.
   */
  lemma GlobalConfigEffect(doc: Json.Json, param: string, value: string, other: Json.Path)
    requires PlainPath(Split(param, '.')) && ValueOk(value)
    requires Json.Diverge(GLOBAL_CONFIG + Split(param, '.'), other)
    ensures
      var path := GLOBAL_CONFIG + Split(param, '.');
      var parsed := J.Parse(NestText(path, ValuePart(value)));
      && parsed == Some(NestSyntax(path, Meant(value)))
      && var merged := Json.MergePatch(doc, J.Value(parsed.value));
      && Json.Lookup(merged, path) == (if Meant(value).Null? then None else Some(J.Value(Meant(value))))
      && Json.Lookup(merged, other) == Json.Lookup(doc, other)
  {
    var path := GLOBAL_CONFIG + Split(param, '.');
    GlobalConfigPlain();
    ValueText(value);
    NestTextMeans(path, Meant(value));
    J.RoundTrip(NestSyntax(path, Meant(value)));
    Json.MergeNest(doc, path, J.Value(Meant(value)));
    Json.MergeNestFrame(doc, path, J.Value(Meant(value)), other);
  }

  lemma GlobalConfigPlain()
    ensures PlainPath(GLOBAL_CONFIG)
  {
    assert J.Plain("spec") && J.Plain("tektonpruner") && J.Plain("global-config");
  }

  // ---- spec.pruner ----

  const PRUNER: Json.Path := ["spec", "pruner"]

  function Quoted(s: string): string {
    "\"" + s + "\""
  }

  function Strategy(key: string, selected: bool, value: string): string {
    J.RawMember(key, if selected then value else "null")
  }

  function ResourceNames(parts: seq<string>): seq<string> {
    seq(|parts|, i requires 0 <= i < |parts| => TrimSpace(parts[i]))
  }

  function QuotedNames(names: seq<string>): seq<string> {
    seq(|names|, i requires 0 <= i < |names| => Quoted(names[i]))
  }

  lemma QuotedMeans(s: string)
    ensures Quoted(s) == "\"" + s + "\""
  {
  }

  /** The trimmed resource names, each between quotes. */
  method ResourceTexts(resources: string) returns (texts: seq<string>)
    ensures texts == QuotedNames(ResourceNames(Split(resources, ',')))
    ensures |texts| == |Split(resources, ',')|
    ensures forall i | 0 <= i < |texts| :: texts[i] == "\"" + TrimSpace(Split(resources, ',')[i]) + "\""
  {
    hide TrimSpace, Quoted;
    var parts := Split(resources, ',');
    texts := [];
    for i := 0 to |parts|
      invariant |texts| == i
      invariant forall k | 0 <= k < i :: texts[k] == Quoted(TrimSpace(parts[k]))
      invariant forall k | 0 <= k < i :: texts[k] == "\"" + TrimSpace(parts[k]) + "\""
    {
      QuotedMeans(TrimSpace(parts[i]));
      texts := texts + [Quoted(TrimSpace(parts[i]))];
    }
  }

  function StringItems(names: seq<string>): J.Items {
    if names == [] then J.NoItems else J.Item(J.String(names[0]), StringItems(names[1..]))
  }

  /** The list of names is a list of strings, in order. */
  lemma {:induction false} NamesAsValues(names: seq<string>)
    ensures |J.ItemValues(StringItems(names))| == |names|
    ensures forall i | 0 <= i < |names| :: J.ItemValues(StringItems(names))[i] == Json.String(names[i])
  {
    if names != [] {
      NamesAsValues(names[1..]);
    }
  }

  /** The members the patch is meant to carry: the strategy that is not selected is deleted. */
  function PrunerMembers(keep: string, schedule: string, names: seq<string>, keepSince: string,
                         withKeep: bool, withKeepSince: bool): J.Members {
    J.Member("schedule", J.String(schedule),
      J.Member("resources", J.Array(StringItems(names)),
        J.Member("keep", if withKeep then J.Number(keep) else J.Null,
          J.Member("keep-since", if withKeepSince then J.Number(keepSince) else J.Null, J.NoMembers))))
  }

  function PrunerFields(keep: string, schedule: string, names: seq<string>, keepSince: string,
                        withKeep: bool, withKeepSince: bool): seq<string> {
    [J.RawField("schedule", schedule), J.RawMember("resources", "[" + Join(QuotedNames(names), ",") + "]"),
     Strategy("keep", withKeep, keep), Strategy("keep-since", withKeepSince, keepSince)]
  }

  method BuildPrunerPatch(keep: string, schedule: string, resources: string, keepSince: string,
                          withKeep: bool, withKeepSince: bool)
    returns (patch: string)
    ensures patch == NestText(PRUNER, J.Braces(Join(
                       PrunerFields(keep, schedule, ResourceNames(Split(resources, ',')), keepSince, withKeep,
                           withKeepSince),
                       ",")))
  {
    hide J.RawField, J.RawMember, J.Braces, Join, QuotedNames, ResourceNames, Strategy;
    var fields := [J.RawField("schedule", schedule)];
    var texts := ResourceTexts(resources);
    fields := fields + [J.RawMember("resources", "[" + Join(texts, ",") + "]")];
    fields := fields + [Strategy("keep", withKeep, keep)];
    fields := fields + [Strategy("keep-since", withKeepSince, keepSince)];
    assert fields == PrunerFields(keep, schedule, ResourceNames(Split(resources, ',')), keepSince, withKeep,
        withKeepSince);
    var body := J.Braces(Join(fields, ","));
    patch := J.Braces(J.RawMember("spec", J.Braces(J.RawMember("pruner", body))));
    assert PRUNER[1..] == ["pruner"] && ["pruner"][1..] == [];
    assert NestText(["pruner"], body) == J.Braces(J.RawMember("pruner", NestText([], body)));
  }

  /** Nothing that is printed as it is needs escaping, and the numbers used are numbers. */
  predicate PrunerInputOk(keep: string, schedule: string, resources: string, keepSince: string,
                          withKeep: bool, withKeepSince: bool) {
    && J.Plain(schedule)
    && PlainPath(ResourceNames(Split(resources, ',')))
    && (withKeep ==> J.IsInteger(keep)) && (withKeepSince ==> J.IsInteger(keepSince))
  }

  lemma PlainQuoted(s: string)
    requires J.Plain(s)
    ensures Quoted(s) == J.Text(J.String(s)) && J.Printable(J.String(s))
  {
    J.PlainEscape(s);
  }

  lemma {:induction false} ItemsJoin(names: seq<string>)
    requires PlainPath(names)
    ensures Join(QuotedNames(names), ",") == J.ItemsText(StringItems(names))
    ensures J.PrintableItems(StringItems(names))
  {
    if names != [] {
      PlainQuoted(names[0]);
      ItemsJoin(names[1..]);
      hide J.Plain, Quoted;
      assert QuotedNames(names)[1..] == QuotedNames(names[1..]);
    }
  }

  lemma PrunerKeysPlain()
    ensures J.Plain("schedule") && J.Plain("resources") && J.Plain("keep") && J.Plain("keep-since") && PlainPath(PRUNER)
  {
    assert J.Plain("spec") && J.Plain("pruner");
  }

  lemma PrunerText(keep: string, schedule: string, names: seq<string>, keepSince: string,
                   withKeep: bool, withKeepSince: bool)
    requires J.Plain(schedule) && PlainPath(names)
    ensures
      var members := PrunerMembers(keep, schedule, names, keepSince, withKeep, withKeepSince);
      Join(PrunerFields(keep, schedule, names, keepSince, withKeep, withKeepSince), ",") == J.MembersText(members)
  {
    hide J.Plain, J.RawField, J.RawMember, J.MemberText, StringItems, QuotedNames, PlainPath;
    var items := J.Array(StringItems(names));
    var kept := if withKeep then J.Number(keep) else J.Null;
    var since := if withKeepSince then J.Number(keepSince) else J.Null;
    ItemsJoin(names);
    PrunerKeysPlain();
    J.RawFieldText("schedule", schedule);
    J.RawMemberText("resources", items);
    J.RawMemberText("keep", kept);
    J.RawMemberText("keep-since", since);
    J.JoinFields(PrunerMembers(keep, schedule, names, keepSince, withKeep, withKeepSince));
    FourFields("schedule", J.String(schedule), "resources", items, "keep", kept, "keep-since", since);
  }

  lemma FieldsStep(key: string, value: J.Syntax, rest: J.Members)
    ensures J.FieldsOf(J.Member(key, value, rest)) == [J.MemberText(key, J.Text(value))] + J.FieldsOf(rest)
    ensures J.FieldsOf(J.NoMembers) == []
  {
    hide J.Text, J.MemberText;
  }

  lemma FourFields(k1: string, v1: J.Syntax, k2: string, v2: J.Syntax, k3: string, v3: J.Syntax, k4: string,
      v4: J.Syntax)
    ensures
      J.FieldsOf(J.Member(k1, v1, J.Member(k2, v2, J.Member(k3, v3, J.Member(k4, v4, J.NoMembers))))) ==
      [J.MemberText(k1, J.Text(v1)), J.MemberText(k2, J.Text(v2)), J.MemberText(k3, J.Text(v3)),
       J.MemberText(k4, J.Text(v4))]
  {
    hide J.Text, J.MemberText, J.FieldsOf;
    var m4 := J.Member(k4, v4, J.NoMembers);
    var m3 := J.Member(k3, v3, m4);
    FieldsStep(k4, v4, J.NoMembers);
    FieldsStep(k3, v3, m4);
    FieldsStep(k2, v2, m3);
    FieldsStep(k1, v1, J.Member(k2, v2, m3));
  }

  lemma MemberStep(key: string, value: J.Syntax, rest: J.Members)
    ensures J.MemberValues(J.Member(key, value, rest)) == map[key := J.Value(value)] + J.MemberValues(rest)
    ensures J.MemberValues(J.NoMembers) == map[]
  {
  }

  lemma FourKeys(k1: string, v1: Json.Json, k2: string, v2: Json.Json, k3: string, v3: Json.Json, k4: string,
      v4: Json.Json)
    requires k1 != k2 && k1 != k3 && k1 != k4 && k2 != k3 && k2 != k4 && k3 != k4
    ensures
      var m := map[k1 := v1] + (map[k2 := v2] + (map[k3 := v3] + (map[k4 := v4] + map[])));
      && m.Keys == {k1, k2, k3, k4} && m[k1] == v1 && m[k2] == v2 && m[k3] == v3 && m[k4] == v4
  {
  }

  lemma FourValues(k1: string, v1: J.Syntax, k2: string, v2: J.Syntax, k3: string, v3: J.Syntax, k4: string,
      v4: J.Syntax)
    requires k1 != k2 && k1 != k3 && k1 != k4 && k2 != k3 && k2 != k4 && k3 != k4
    ensures
      var m := J.MemberValues(J.Member(k1, v1, J.Member(k2, v2, J.Member(k3, v3, J.Member(k4, v4, J.NoMembers)))));
      && m.Keys == {k1, k2, k3, k4}
      && m[k1] == J.Value(v1) && m[k2] == J.Value(v2) && m[k3] == J.Value(v3) && m[k4] == J.Value(v4)
  {
    hide J.Value, J.MemberValues;
    var m4 := J.Member(k4, v4, J.NoMembers);
    var m3 := J.Member(k3, v3, m4);
    MemberStep(k4, v4, J.NoMembers);
    MemberStep(k3, v3, m4);
    MemberStep(k2, v2, m3);
    MemberStep(k1, v1, J.Member(k2, v2, m3));
    FourKeys(k1, J.Value(v1), k2, J.Value(v2), k3, J.Value(v3), k4, J.Value(v4));
  }

  lemma PrunerPrintable(keep: string, schedule: string, names: seq<string>, keepSince: string,
                        withKeep: bool, withKeepSince: bool)
    requires J.Plain(schedule) && PlainPath(names)
    requires (withKeep ==> J.IsInteger(keep)) && (withKeepSince ==> J.IsInteger(keepSince))
    ensures J.PrintableMembers(PrunerMembers(keep, schedule, names, keepSince, withKeep, withKeepSince))
  {
    ItemsJoin(names);
    PrunerKeysPlain();
    assert J.PrintableString(schedule) && J.PrintableString("schedule") && J.PrintableString("resources")
           && J.PrintableString("keep") && J.PrintableString("keep-since");
    hide J.PrintableString, J.Plain, PlainPath, J.IsInteger;
    var kept := if withKeep then J.Number(keep) else J.Null;
    var m4 := J.Member("keep-since", if withKeepSince then J.Number(keepSince) else J.Null, J.NoMembers);
    var m3 := J.Member("keep", kept, m4);
    assert J.PrintableMembers(m4);
    assert J.PrintableMembers(m3);
    assert J.PrintableMembers(J.Member("resources", J.Array(StringItems(names)), m3));
  }

  /** What the patch says about spec.pruner. */
  function PrunerPatchValue(keep: string, schedule: string, names: seq<string>, keepSince: string,
                            withKeep: bool, withKeepSince: bool): Json.Json {
    J.Value(J.Object(PrunerMembers(keep, schedule, names, keepSince, withKeep, withKeepSince)))
  }

  /** The text parses to an object with nothing but spec.pruner and those members. */
  lemma PrunerParses(keep: string, schedule: string, resources: string, keepSince: string,
                     withKeep: bool, withKeepSince: bool)
    requires PrunerInputOk(keep, schedule, resources, keepSince, withKeep, withKeepSince)
    ensures
      var names := ResourceNames(Split(resources, ','));
      var parsed := J.Parse(NestText(PRUNER, J.Braces(Join(
                      PrunerFields(keep, schedule, names, keepSince, withKeep, withKeepSince), ","))));
      && parsed.Some?
      && J.Value(parsed.value) ==
         Json.Nest(PRUNER, PrunerPatchValue(keep, schedule, names, keepSince, withKeep, withKeepSince))
  {
    hide J.Text, J.Parse, NestText, NestSyntax, ResourceNames, PlainPath, Join, PrunerFields, StringItems, Split,
         J.Value, PrunerMembers;
    var names := ResourceNames(Split(resources, ','));
    var members := PrunerMembers(keep, schedule, names, keepSince, withKeep, withKeepSince);
    PrunerText(keep, schedule, names, keepSince, withKeep, withKeepSince);
    ObjectText(members);
    PrunerPrintable(keep, schedule, names, keepSince, withKeep, withKeepSince);
    PrunerKeysPlain();
    NestTextMeans(PRUNER, J.Object(members));
    J.RoundTrip(NestSyntax(PRUNER, J.Object(members)));
  }

  lemma ObjectText(members: J.Members)
    ensures J.Text(J.Object(members)) == J.Braces(J.MembersText(members))
  {
  }

  /**
   For every document: once the patch is merged, spec.pruner holds `keep` exactly when it was selected
   and `keep-since` exactly when that was, whatever was there before, together with the given schedule
   and resources; its other members and everything elsewhere stay.
   */
  lemma PrunerEffect(doc: Json.Json, keep: string, schedule: string, names: seq<string>, keepSince: string,
                     withKeep: bool, withKeepSince: bool, other: Json.Path, member: string)
    requires Json.Diverge(PRUNER, other) && member !in {"schedule", "resources", "keep", "keep-since"}
    ensures
      var patch := PrunerPatchValue(keep, schedule, names, keepSince, withKeep, withKeepSince);
      var merged := Json.MergePatch(doc, Json.Nest(PRUNER, patch));
      var before := Json.MembersOf(Json.Fetch(doc, PRUNER));
      var pruner := Json.MembersOf(Json.Fetch(merged, PRUNER));
      && ("keep" in pruner <==> withKeep) && (withKeep ==> pruner["keep"] == Json.Number(keep))
      && ("keep-since" in pruner <==> withKeepSince)
      && (withKeepSince ==> pruner["keep-since"] == Json.Number(keepSince))
      && "schedule" in pruner && pruner["schedule"] == Json.String(schedule)
      && "resources" in pruner && pruner["resources"] == Json.Array(J.ItemValues(StringItems(names)))
      && (member in pruner <==> member in before) && (member in before ==> pruner[member] == before[member])
      && Json.Lookup(merged, other) == Json.Lookup(doc, other)
  {
    var patch := PrunerPatchValue(keep, schedule, names, keepSince, withKeep, withKeepSince);
    PrunerPatchFacts(keep, schedule, names, keepSince, withKeep, withKeepSince);
    hide PrunerPatchValue, StringItems, J.ItemValues, Json.Lookup, Json.Nest, Json.MergePatch, Json.Diverge;
    Json.MergeNest(doc, PRUNER, patch);
    Json.MergeNestFrame(doc, PRUNER, patch, other);
    PrunerMerged(Json.Fetch(doc, PRUNER), patch, member);
  }

  /** The four members of the patch; null marks the strategy to delete. */
  lemma PrunerPatchFacts(keep: string, schedule: string, names: seq<string>, keepSince: string,
                         withKeep: bool, withKeepSince: bool)
    ensures
      var patch := PrunerPatchValue(keep, schedule, names, keepSince, withKeep, withKeepSince);
      && patch.Object? && var m := patch.members;
      && (forall k :: k in m <==> k == "schedule" || k == "resources" || k == "keep" || k == "keep-since")
      && m["schedule"] == Json.String(schedule)
      && m["resources"] == Json.Array(J.ItemValues(StringItems(names)))
      && m["keep"] == (if withKeep then Json.Number(keep) else Json.Null)
      && m["keep-since"] == (if withKeepSince then Json.Number(keepSince) else Json.Null)
  {
    hide J.MemberValues;
    FourValues("schedule", J.String(schedule), "resources", J.Array(StringItems(names)),
               "keep", if withKeep then J.Number(keep) else J.Null,
               "keep-since", if withKeepSince then J.Number(keepSince) else J.Null);
  }

  /** What merging scalar members does to the section itself. */
  lemma PrunerMerged(before: Json.Json, patch: Json.Json, member: string)
    requires patch.Object? && member !in patch.members
    requires forall k | k in patch.members :: !patch.members[k].Object?
    ensures
      var pruner := Json.MergePatch(before, patch);
      && pruner.Object?
      && (forall k | k in patch.members :: k in pruner.members <==> patch.members[k] != Json.Null)
      && (forall k | k in patch.members && k in pruner.members :: pruner.members[k] == patch.members[k])
      && (member in pruner.members <==> member in Json.MembersOf(before))
      && (member in pruner.members ==> pruner.members[member] == Json.MembersOf(before)[member])
  {
  }
}
