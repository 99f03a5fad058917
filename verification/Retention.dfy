/**
 The retention policy of Tekton Results: the text of the two patches ConfigureRetentionPolicy sends
 and what they do to any TektonConfig.
 */
module Retention {
  import opened Wrappers
  import opened Strings
  import Json
  import J = JsonText

  const OPTIONS: Json.Path := ["spec", "result", "options"]
  const CONFIG_MAPS: Json.Path := ["spec", "result", "options", "configMaps"]
  const CONFIG_MAP := "tekton-results-config-" + "results-retention-policy"

  /** The escaping as it is written: three passes, backslashes first. */
  function EscapePolicies(policies: string): string {
    ReplaceAll(ReplaceAll(ReplaceAll(policies, '\\', "\\\\"), '"', "\\\""), '\n', "\\n")
  }

  /** No pass disturbs what an earlier one wrote: together they are the one-pass escaper. */
  lemma {:induction false} ThreePassesAreOne(s: string)
    ensures EscapePolicies(s) == J.Escape(s)
  {
    if s != "" {
      ThreePassesAreOne(s[1..]);
      var first := if s[0] == '\\' then "\\\\" else [s[0]];
      var rest := ReplaceAll(s[1..], '\\', "\\\\");
      ReplaceAllAppend(first, rest, '"', "\\\"");
      ReplaceAllAppend(ReplaceAll(first, '"', "\\\""), ReplaceAll(rest, '"', "\\\""), '\n', "\\n");
      EscapeOne(s[0]);
    }
  }

  lemma EscapeOne(c: char)
    ensures ReplaceAll(ReplaceAll(if c == '\\' then "\\\\" else [c], '"', "\\\""), '\n', "\\n") == J.EscapeChar(c)
  {
    ReplaceAllSingle('\\', '"', "\\\"");
    ReplaceAllSingle('\\', '\n', "\\n");
    ReplaceAllSingle('"', '\n', "\\n");
    ReplaceAllSingle(c, '"', "\\\"");
    ReplaceAllSingle(c, '\n', "\\n");
    assert "\\\\" == "\\" + "\\" && "\\\"" == "\\" + "\"";
    ReplaceAllAppend("\\", "\\", '"', "\\\"");
    ReplaceAllAppend("\\", "\\", '\n', "\\n");
    ReplaceAllAppend("\\", "\"", '\n', "\\n");
  }

  /** The policies text survives escaping and parsing exactly when newline is its only control character. */
  lemma PoliciesRoundTripIff(policies: string)
    ensures J.ParseString(EscapePolicies(policies) + "\"") == Some((policies, "")) <==>
            forall i | 0 <= i < |policies| :: J.IsControl(policies[i]) ==> policies[i] == '\n'
  {
    ThreePassesAreOne(policies);
    J.EscapeRoundTripIff(policies);
  }

  // ---- The text of the patch ----

  /** Only fields with a value are included. */
  method DataFields(runAt: string, defaultRetention: string, maxRetention: string, policies: string)
    returns (fields: seq<string>)
    ensures fields == [J.RawField("runAt", runAt)] +
              Included(defaultRetention, J.RawField("defaultRetention", defaultRetention))
                      + Included(maxRetention, J.RawField("maxRetention", maxRetention))
                      + Included(policies, J.RawField("policies", EscapePolicies(policies)))
  {
    hide J.RawField, EscapePolicies;
    fields := [J.RawField("runAt", runAt)];
    if defaultRetention != "" {
      fields := fields + [J.RawField("defaultRetention", defaultRetention)];
    }
    if maxRetention != "" {
      fields := fields + [J.RawField("maxRetention", maxRetention)];
    }
    if policies != "" {
      fields := fields + [J.RawField("policies", EscapePolicies(policies))];
    }
  }

  function Included(text: string, field: string): seq<string> {
    if text == "" then [] else [field]
  }

  function Optional(key: string, text: string, rest: J.Members): J.Members {
    if text == "" then rest else J.Member(key, J.String(text), rest)
  }

  /** The members the data object is meant to have. */
  function Data(runAt: string, defaultRetention: string, maxRetention: string, policies: string): J.Members {
    J.Member("runAt", J.String(runAt),
      Optional("defaultRetention", defaultRetention,
        Optional("maxRetention", maxRetention, Optional("policies", policies, J.NoMembers))))
  }

  lemma KeysArePlain()
    ensures J.Plain("runAt") && J.Plain("defaultRetention") && J.Plain("maxRetention") && J.Plain("policies")
  {
  }

  lemma OptionalFields(key: string, text: string, rest: J.Members)
    ensures J.FieldsOf(Optional(key, text, rest)) ==
            Included(text, J.MemberText(key, J.Text(J.String(text)))) + J.FieldsOf(rest)
  {
    hide J.MemberText, J.Text;
  }

  /** The fields are the members meant, if the values that are printed as they are need no escaping. */
  lemma FieldsAreData(runAt: string, defaultRetention: string, maxRetention: string, policies: string)
    requires J.Plain(runAt) && J.Plain(defaultRetention) && J.Plain(maxRetention)
    ensures [J.RawField("runAt", runAt)] + Included(defaultRetention, J.RawField("defaultRetention", defaultRetention))
            + Included(maxRetention, J.RawField("maxRetention", maxRetention))
            + Included(policies, J.RawField("policies", EscapePolicies(policies)))
            == J.FieldsOf(Data(runAt, defaultRetention, maxRetention, policies))
  {
    hide J.RawField, EscapePolicies, J.Escape, J.MemberText, J.Text, J.Plain, Optional;
    KeysArePlain();
    J.RawFieldText("runAt", runAt);
    J.RawFieldText("defaultRetention", defaultRetention);
    J.RawFieldText("maxRetention", maxRetention);
    ThreePassesAreOne(policies);
    J.EscapedFieldText("policies", policies);
    var d3 := Optional("policies", policies, J.NoMembers);
    var d2 := Optional("maxRetention", maxRetention, d3);
    OptionalFields("policies", policies, J.NoMembers);
    OptionalFields("maxRetention", maxRetention, d3);
    OptionalFields("defaultRetention", defaultRetention, d2);
  }

  // "/spec/result/options/configMaps"
  const CONFIG_MAPS_LOCATION := "/" + Join(CONFIG_MAPS, "/")

  /** The JSON patch, with the data fields spliced in. */
  function PatchText(body: string): string {
    "[" + J.Braces(J.RawField("op", "add") + "," + (J.RawField("path", CONFIG_MAPS_LOCATION) + ","
                 + J.RawMember("value", J.Braces(J.RawMember(CONFIG_MAP, J.Braces(J.RawMember("data",
                     J.Braces(body)))))))) + "]"
  }

  /** The value the patch installs. */
  function Installed(data: J.Members): J.Syntax {
    J.Single(CONFIG_MAP, J.Single("data", J.Object(data)))
  }

  function PatchSyntax(data: J.Members): J.Syntax {
    J.Array(J.Item(J.Object(
      J.Member("op", J.String("add"),
        J.Member("path", J.String(CONFIG_MAPS_LOCATION), J.Member("value", Installed(data), J.NoMembers)))), J.NoItems))
  }

  lemma WordsArePlain()
    ensures J.Plain("op") && J.Plain("add") && J.Plain("path") && J.Plain("value") && J.Plain("data")
  {
  }

  lemma NamesArePlain()
    ensures J.Plain(CONFIG_MAPS_LOCATION) && J.Plain(CONFIG_MAP)
  {
    assert J.Plain("tekton-results-config-");
    assert J.Plain("results-retention-policy");
    assert J.Plain("spec") && J.Plain("result") && J.Plain("options") && J.Plain("configMaps") && J.Plain("/");
    J.PlainJoin(CONFIG_MAPS, "/");
  }

  lemma PatchTextIsSyntax(data: J.Members)
    ensures PatchText(J.MembersText(data)) == J.Text(PatchSyntax(data))
  {
    hide J.RawField, J.RawMember, J.MemberText, J.Plain, J.Escape;
    WordsArePlain();
    NamesArePlain();
    J.RawFieldText("op", "add");
    J.RawFieldText("path", CONFIG_MAPS_LOCATION);
    J.RawMemberText("data", J.Object(data));
    J.RawMemberText(CONFIG_MAP, J.Single("data", J.Object(data)));
    J.RawMemberText("value", Installed(data));
    assert J.Braces(J.MembersText(data)) == J.Text(J.Object(data));
    var last := J.Member("value", Installed(data), J.NoMembers);
    assert J.MembersText(last) == J.RawMember("value", J.Text(Installed(data)));
    var path := J.Member("path", J.String(CONFIG_MAPS_LOCATION), last);
    assert J.MembersText(path) == J.RawField("path", CONFIG_MAPS_LOCATION) + "," + J.MembersText(last);
    var op := J.Member("op", J.String("add"), path);
    assert J.MembersText(op) == J.RawField("op", "add") + "," + J.MembersText(path);
    assert J.ItemsText(J.Item(J.Object(op), J.NoItems)) == J.Braces(J.MembersText(op));
  }

  // ---- What the server makes of it ----

  /** A JSON pointer without escapes, section 3 of RFC 6901. */
  function JsonPointer(s: string): Option<Json.Path> {
    if s != "" && s[0] == '/' then Some(Split(s[1..], '/')) else None
  }

  /** Applies a JSON patch that is a single `add`. */
  function ApplyAdd(doc: Json.Json, patch: J.Syntax): Option<Json.Json> {
    match patch
    case Array(Item(Object(Member("op", String("add"), Member("path", String(p), Member("value", v, NoMembers)))),
        NoItems)) =>
      if JsonPointer(p).Some? && JsonPointer(p).value != []
          then Json.PatchAdd(doc, JsonPointer(p).value, J.Value(v)) else None
    case _ => None
  }

  /** The text as the server treats it: parsed, then applied; a text that does not parse is rejected. */
  function ApplyText(doc: Json.Json, text: string): Option<Json.Json> {
    match J.Parse(text)
    case Some(patch) => ApplyAdd(doc, patch)
    case None => None
  }

  lemma PointerIsConfigMaps()
    ensures JsonPointer(CONFIG_MAPS_LOCATION) == Some(CONFIG_MAPS)
  {
    SplitJoin(CONFIG_MAPS, '/');
    assert CONFIG_MAPS_LOCATION[1..] == Join(CONFIG_MAPS, "/");
  }

  /** Both patches in sequence; the first one only makes the parents exist. */
  function Configure(doc: Json.Json, text: string): Option<Json.Json> {
    ApplyText(Json.MergePatch(doc, Json.Nest(OPTIONS, Json.Object(map[]))), text)
  }

  predicate PrintableData(runAt: string, defaultRetention: string, maxRetention: string, policies: string) {
    J.Plain(runAt) && J.Plain(defaultRetention) && J.Plain(maxRetention) && J.PrintableString(policies)
  }

  lemma PrintableOptional(key: string, text: string, rest: J.Members)
    requires J.Plain(key) && J.PrintableString(text) && J.PrintableMembers(rest)
    ensures J.PrintableMembers(Optional(key, text, rest))
  {
  }

  lemma DataPrintable(runAt: string, defaultRetention: string, maxRetention: string, policies: string)
    requires PrintableData(runAt, defaultRetention, maxRetention, policies)
    ensures J.Printable(PatchSyntax(Data(runAt, defaultRetention, maxRetention, policies)))
  {
    assert J.PrintableString(runAt) && J.PrintableString(defaultRetention) && J.PrintableString(maxRetention);
    KeysArePlain();
    WordsArePlain();
    NamesArePlain();
    assert J.PrintableString("runAt") && J.PrintableString("op") && J.PrintableString("path");
    assert J.PrintableString("add") && J.PrintableString(CONFIG_MAPS_LOCATION);
    hide J.Plain, J.PrintableString, Optional;
    var d3 := Optional("policies", policies, J.NoMembers);
    PrintableOptional("policies", policies, J.NoMembers);
    var d2 := Optional("maxRetention", maxRetention, d3);
    PrintableOptional("maxRetention", maxRetention, d3);
    PrintableOptional("defaultRetention", defaultRetention, d2);
    var data := Data(runAt, defaultRetention, maxRetention, policies);
    assert J.PrintableMembers(data);
    J.PrintableSingle("data", J.Object(data));
    J.PrintableSingle(CONFIG_MAP, J.Single("data", J.Object(data)));
    J.PrintableSingle("value", Installed(data));
    var last := J.Member("value", Installed(data), J.NoMembers);
    var path := J.Member("path", J.String(CONFIG_MAPS_LOCATION), last);
    assert J.PrintableMembers(path);
    assert J.PrintableMembers(J.Member("op", J.String("add"), path));
    assert J.PrintableItems(PatchSyntax(data).items);
  }

  /** The entry installed under spec.result.options.configMaps. */
  function Entry(runAt: string, defaultRetention: string, maxRetention: string, policies: string): Json.Json {
    J.Value(Installed(Data(runAt, defaultRetention, maxRetention, policies)))
  }

  /** The entry member by member: always runAt, and each of the others exactly when it has a value. */
  lemma EntryMembers(runAt: string, defaultRetention: string, maxRetention: string, policies: string)
    ensures
      var entry := Entry(runAt, defaultRetention, maxRetention, policies);
      && entry.Object? && entry.members.Keys == {"tekton-results-config-" + "results-retention-policy"}
      && var config := entry.members["tekton-results-config-" + "results-retention-policy"];
      && config.Object? && config.members.Keys == {"data"} && config.members["data"].Object?
      && var data := config.members["data"].members;
      && "runAt" in data && data["runAt"] == Json.String(runAt)
      && ("defaultRetention" in data <==> defaultRetention != "")
      && (defaultRetention != "" ==> data["defaultRetention"] == Json.String(defaultRetention))
      && ("maxRetention" in data <==> maxRetention != "")
      && (maxRetention != "" ==> data["maxRetention"] == Json.String(maxRetention))
      && ("policies" in data <==> policies != "")
      && (policies != "" ==> data["policies"] == Json.String(policies))
      && data.Keys <= {"runAt", "defaultRetention", "maxRetention", "policies"}
  {
    var data := Data(runAt, defaultRetention, maxRetention, policies);
    SingleEntry(CONFIG_MAP, J.Single("data", J.Object(data)));
    SingleEntry("data", J.Object(data));
    DataMembers(runAt, defaultRetention, maxRetention, policies);
  }

  lemma SingleEntry(key: string, value: J.Syntax)
    ensures J.Value(J.Single(key, value)) == Json.Object(map[key := J.Value(value)])
  {
    assert J.MemberValues(J.NoMembers) == map[];
  }

  lemma OptionalMembers(key: string, text: string, rest: J.Members)
    ensures
      var m, r := J.MemberValues(Optional(key, text, rest)), J.MemberValues(rest);
      && (forall k :: k in m <==> k in r || (k == key && text != ""))
      && (forall k | k in r :: m[k] == r[k])
      && (text != "" && key !in r ==> m[key] == Json.String(text))
  {
  }

  lemma DataMembers(runAt: string, defaultRetention: string, maxRetention: string, policies: string)
    ensures
      var data := J.MemberValues(Data(runAt, defaultRetention, maxRetention, policies));
      && "runAt" in data && data["runAt"] == Json.String(runAt)
      && ("defaultRetention" in data <==> defaultRetention != "")
      && (defaultRetention != "" ==> data["defaultRetention"] == Json.String(defaultRetention))
      && ("maxRetention" in data <==> maxRetention != "")
      && (maxRetention != "" ==> data["maxRetention"] == Json.String(maxRetention))
      && ("policies" in data <==> policies != "")
      && (policies != "" ==> data["policies"] == Json.String(policies))
      && data.Keys <= {"runAt", "defaultRetention", "maxRetention", "policies"}
  {
    var d3 := Optional("policies", policies, J.NoMembers);
    var d2 := Optional("maxRetention", maxRetention, d3);
    var d1 := Optional("defaultRetention", defaultRetention, d2);
    assert J.MemberValues(J.NoMembers) == map[];
    OptionalMembers("policies", policies, J.NoMembers);
    OptionalMembers("maxRetention", maxRetention, d3);
    OptionalMembers("defaultRetention", defaultRetention, d2);
    var a, b, c, d := "runAt", "defaultRetention", "maxRetention", "policies";
    assert |a| == 5 && |b| == 16 && |c| == 12 && |d| == 8;
    hide Optional;
    assert J.MemberValues(J.Member("runAt", J.String(runAt), d1)) ==
           J.MemberValues(d1) + map["runAt" := Json.String(runAt)] by { FirstMember(a, runAt, d1); }
  }

  lemma FirstMember(key: string, text: string, rest: J.Members)
    requires key !in J.MemberValues(rest)
    ensures J.MemberValues(J.Member(key, J.String(text), rest)) == J.MemberValues(rest) + map[key := Json.String(text)]
  {
  }

  /**
   For every starting document: the patches are accepted, and the result is that document with
   configMaps replaced by exactly the new entry, the path being created where it was missing.
   */
  lemma ConfigureReplaces(doc: Json.Json, runAt: string, defaultRetention: string, maxRetention: string,
      policies: string)
    requires PrintableData(runAt, defaultRetention, maxRetention, policies)
    ensures
      var data := Data(runAt, defaultRetention, maxRetention, policies);
      Configure(doc, PatchText(Join(J.FieldsOf(data), ","))) ==
      Some(Json.SetPath(doc, CONFIG_MAPS, Entry(runAt, defaultRetention, maxRetention, policies)))
  {
    var data := Data(runAt, defaultRetention, maxRetention, policies);
    assert J.Parse(PatchText(Join(J.FieldsOf(data), ","))) == Some(PatchSyntax(data)) by {
      hide *;
      J.JoinFields(data);
      PatchTextIsSyntax(data);
      DataPrintable(runAt, defaultRetention, maxRetention, policies);
      J.RoundTrip(PatchSyntax(data));
    }
    hide J.Parse, J.Text, PatchText, Data, Installed, Json.MergePatch, Json.Nest, Json.SetPath, Json.PatchAdd,
         J.Value, Join;
    AddApplies(Json.MergePatch(doc, Json.Nest(OPTIONS, Json.Object(map[]))), data);
    Json.AddAfterMerge(doc, OPTIONS, "configMaps", J.Value(Installed(data)));
    assert CONFIG_MAPS == OPTIONS + ["configMaps"];
  }

  /** The patch is an `add` at the path its pointer names. */
  lemma AddApplies(doc: Json.Json, data: J.Members)
    ensures ApplyAdd(doc, PatchSyntax(data)) == Json.PatchAdd(doc, CONFIG_MAPS, J.Value(Installed(data)))
  {
    hide J.Value, Json.PatchAdd, JsonPointer, Installed;
    PointerIsConfigMaps();
  }

  /** Nothing outside configMaps changes, and two calls in a row are the last one alone. */
  lemma ConfigureFrameAndLastWins(doc: Json.Json, a: Json.Json, b: Json.Json, other: Json.Path)
    requires Json.Diverge(CONFIG_MAPS, other)
    ensures
      var once := Json.SetPath(doc, CONFIG_MAPS, a);
      && Json.Lookup(once, CONFIG_MAPS) == Some(a)
      && Json.Lookup(once, other) == Json.Lookup(doc, other)
      && Json.SetPath(once, CONFIG_MAPS, b) == Json.SetPath(doc, CONFIG_MAPS, b)
  {
    Json.SetPathLookup(doc, CONFIG_MAPS, a);
    Json.SetPathFrame(doc, CONFIG_MAPS, a, other);
    Json.SetPathTwice(doc, CONFIG_MAPS, a, b);
  }

  /** What a command that patches does: it takes effect, and is seen to, or one of the two or neither. */
  datatype Sent = Sent(effective: bool, confirmed: bool)

  predicate Reaches(sent: Sent) {
    sent.effective || sent.confirmed
  }

  class TektonConfig {
    var doc: Json.Json

    /**
     Sends both patches; the test aborts at the first one that is not confirmed. A patch that reaches the
     server never fails for a missing parent.
     */
    method ConfigureRetentionPolicy(runAt: string, defaultRetention: string, maxRetention: string, policies: string,
                                    first: Sent, second: Sent)
      returns (ok: bool)
      modifies this
      ensures PrintableData(runAt, defaultRetention, maxRetention, policies) ==>
                ok == (first.confirmed && second.confirmed)
      ensures !Reaches(first) ==> doc == old(doc)
      ensures Reaches(first) && !(first.confirmed && Reaches(second)) ==>
                doc == Json.MergePatch(old(doc), Json.Nest(["spec", "result", "options"], Json.Object(map[])))
      ensures first.confirmed && Reaches(second) && PrintableData(runAt, defaultRetention, maxRetention, policies) ==>
                doc == Json.SetPath(old(doc), ["spec", "result", "options", "configMaps"],
                                    Entry(runAt, defaultRetention, maxRetention, policies))
    {
      hide PrintableData, Entry, Json.MergePatch, Json.Nest, Json.SetPath, PatchText, ApplyText, Join, Included,
           J.RawField,
           EscapePolicies;
      var fields := DataFields(runAt, defaultRetention, maxRetention, policies);
      if first.effective || first.confirmed {
        doc := Json.MergePatch(doc, Json.Nest(OPTIONS, Json.Object(map[])));
      }
      if !first.confirmed {
        return false;
      }
      var result := ApplyText(doc, PatchText(Join(fields, ",")));
      if PrintableData(runAt, defaultRetention, maxRetention, policies) {
        Accepted(old(doc), runAt, defaultRetention, maxRetention, policies, fields);
      }
      if result.None? {
        return false;
      }
      if second.effective || second.confirmed {
        doc := result.value;
      }
      ok := second.confirmed;
    }
  }

  lemma Accepted(doc: Json.Json, runAt: string, defaultRetention: string, maxRetention: string, policies: string,
                 fields: seq<string>)
    requires PrintableData(runAt, defaultRetention, maxRetention, policies)
    requires fields == [J.RawField("runAt", runAt)] +
              Included(defaultRetention, J.RawField("defaultRetention", defaultRetention))
                       + Included(maxRetention, J.RawField("maxRetention", maxRetention))
                       + Included(policies, J.RawField("policies", EscapePolicies(policies)))
    ensures ApplyText(Json.MergePatch(doc, Json.Nest(OPTIONS, Json.Object(map[]))), PatchText(Join(fields, ","))) ==
            Some(Json.SetPath(doc, CONFIG_MAPS, Entry(runAt, defaultRetention, maxRetention, policies)))
  {
    FieldsAreData(runAt, defaultRetention, maxRetention, policies);
    hide ApplyText, PatchText, Join, Entry, Included, J.RawField, EscapePolicies, J.FieldsOf, Data;
    ConfigureReplaces(doc, runAt, defaultRetention, maxRetention, policies);
  }
}
