/**
 JSON as text (RFC 8259, without insignificant whitespace, numbers being integers): what the helpers
 print into a patch, and the parser on the other side.
 */
module JsonText {
  import opened Wrappers
  import opened Strings
  import Json

  datatype Syntax =
    | Null
    | Bool(b: bool)
    | Number(text: string)
    | String(s: string)
    | Array(items: Items)
    | Object(members: Members)

  datatype Items = NoItems | Item(head: Syntax, tail: Items)

  /** Members in the order they are written. */
  datatype Members = NoMembers | Member(key: string, value: Syntax, rest: Members)

  // ---- String literals, section 7 of RFC 8259 ----

  predicate IsControl(c: char) {
    c < ' '
  }

  /** Needs no escape and is none. */
  predicate IsPlain(c: char) {
    c != '"' && c != '\\' && !IsControl(c)
  }

  predicate Plain(s: string) {
    forall i | 0 <= i < |s| :: IsPlain(s[i])
  }

  function EscapeChar(c: char): string {
    if c == '\\' then "\\\\" else if c == '"' then "\\\"" else if c == '\n' then "\\n" else [c]
  }

  /** The one-pass escaper. */
  function Escape(s: string): string {
    if s == "" then "" else EscapeChar(s[0]) + Escape(s[1..])
  }

  function Quote(s: string): string {
    "\"" + Escape(s) + "\""
  }

  function HexDigit(c: char): Option<nat> {
    if '0' <= c <= '9' then Some(c as int - '0' as int)
    else if 'a' <= c <= 'f' then Some(c as int - 'a' as int + 10)
    else if 'A' <= c <= 'F' then Some(c as int - 'A' as int + 10)
    else None
  }

  /** The character of a four-digit escape; halves of surrogate pairs are not supported. */
  function UnicodeEscape(s: string): Option<char>
    requires |s| == 4
  {
    match (HexDigit(s[0]), HexDigit(s[1]), HexDigit(s[2]), HexDigit(s[3]))
    case (Some(a), Some(b), Some(c), Some(d)) =>
      var code := ((a * 16 + b) * 16 + c) * 16 + d;
      if code < 0xD800 || 0xE000 <= code < 0x10000 then Some(code as char) else None
    case _ => None
  }

  function SimpleEscape(c: char): Option<char> {
    match c
    case '"' => Some('"')
    case '\\' => Some('\\')
    case '/' => Some('/')
    case 'b' => Some('\U{0008}')
    case 'f' => Some('\U{000C}')
    case 'n' => Some('\n')
    case 'r' => Some('\r')
    case 't' => Some('\t')
    case _ => None
  }

  function Prepend(c: char, r: Option<(string, string)>): Option<(string, string)> {
    match r
    case Some((body, rest)) => Some(([c] + body, rest))
    case None => None
  }

  /** Reads a string literal behind its opening quote: the value and what follows the closing quote. */
  function ParseString(s: string): (r: Option<(string, string)>)
    ensures r.Some? ==> |r.value.0| + |r.value.1| < |s|
  {
    if s == "" then None
    else if s[0] == '"' then Some(("", s[1..]))
    else if IsControl(s[0]) then None
    else if s[0] != '\\' then Prepend(s[0], ParseString(s[1..]))
    else if |s| < 2 then None
    else if s[1] == 'u' then
      if |s| < 6 then None
      else
        match UnicodeEscape(s[2..6])
        case None => None
        case Some(c) => Prepend(c, ParseString(s[6..]))
    else
      match SimpleEscape(s[1])
      case None => None
      case Some(c) => Prepend(c, ParseString(s[2..]))
  }

  /** An escaped character parses back to itself and nothing else is consumed. */
  lemma ParseEscaped(c: char, tail: string)
    requires IsControl(c) ==> c == '\n'
    ensures ParseString(EscapeChar(c) + tail) == Prepend(c, ParseString(tail))
  {
    assert (EscapeChar(c) + tail)[|EscapeChar(c)|..] == tail;
  }

  /** Escaped text parses back to the original, whatever follows the literal. */
  lemma {:induction false} EscapeRoundTrip(s: string, rest: string)
    requires forall i | 0 <= i < |s| :: IsControl(s[i]) ==> s[i] == '\n'
    ensures ParseString(Escape(s) + "\"" + rest) == Some((s, rest))
  {
    if s == "" {
      assert Escape(s) + "\"" + rest == "\"" + rest;
    } else {
      hide ParseString, EscapeChar, IsControl;
      EscapeRoundTrip(s[1..], rest);
      var tail := Escape(s[1..]) + "\"" + rest;
      ParseEscaped(s[0], tail);
      assert Escape(s) + "\"" + rest == EscapeChar(s[0]) + tail;
      assert [s[0]] + s[1..] == s;
    }
  }

  /** Escaping only quotes, backslashes and newlines is enough exactly when there is no other control character. */
  lemma {:induction false} EscapeRoundTripIff(s: string)
    ensures ParseString(Escape(s) + "\"") == Some((s, "")) <==>
            forall i | 0 <= i < |s| :: IsControl(s[i]) ==> s[i] == '\n'
  {
    if forall i | 0 <= i < |s| :: IsControl(s[i]) ==> s[i] == '\n' {
      EscapeRoundTrip(s, "");
      assert Escape(s) + "\"" + "" == Escape(s) + "\"";
    } else {
      EscapeRejects(s, "");
      assert Escape(s) + "\"" + "" == Escape(s) + "\"";
    }
  }

  lemma {:induction false} EscapeRejects(s: string, rest: string)
    requires exists i | 0 <= i < |s| :: IsControl(s[i]) && s[i] != '\n'
    ensures ParseString(Escape(s) + "\"" + rest) == None
  {
    var tail := Escape(s[1..]) + "\"" + rest;
    var text := Escape(s) + "\"" + rest;
    assert text == EscapeChar(s[0]) + tail;
    assert text[|EscapeChar(s[0])|..] == tail;
    if !IsControl(s[0]) || s[0] == '\n' {
      var i :| 0 <= i < |s| && IsControl(s[i]) && s[i] != '\n';
      assert s[1..][i - 1] == s[i];
      EscapeRejects(s[1..], rest);
    }
  }

  /** A raw literal, printed without any escaping, means itself exactly when it is plain. */
  lemma {:induction false} RawLiteralIff(s: string)
    ensures ParseString(s + "\"") == Some((s, "")) <==> Plain(s)
  {
    var text := s + "\"";
    if s != "" {
      assert text[1..] == s[1..] + "\"";
      RawLiteralIff(s[1..]);
      assert Plain(s) <==> IsPlain(s[0]) && Plain(s[1..]);
      assert s == [s[0]] + s[1..];
    }
  }

  /** Plain text is its own escape. */
  lemma {:induction false} PlainEscape(s: string)
    requires Plain(s)
    ensures Escape(s) == s
  {
    if s != "" {
      PlainEscape(s[1..]);
    }
  }

  // ---- Values ----

  predicate IsDigit(c: char) {
    '0' <= c <= '9'
  }

  predicate Digits(s: string) {
    forall i | 0 <= i < |s| :: IsDigit(s[i])
  }

  /** An integer as section 6 of RFC 8259 writes it: no plus sign and no leading zero. */
  predicate IsInteger(s: string) {
    var digits := if s != "" && s[0] == '-' then s[1..] else s;
    digits != "" && Digits(digits) && (digits[0] == '0' ==> |digits| == 1)
  }

  /** How many digits the text starts with. */
  function DigitRun(s: string): (n: nat)
    ensures n <= |s| && Digits(s[..n]) && (n < |s| ==> !IsDigit(s[n]))
  {
    if s == "" || !IsDigit(s[0]) then 0 else 1 + DigitRun(s[1..])
  }

  function ParseNumber(s: string): Option<(string, string)> {
    var sign := if s != "" && s[0] == '-' then 1 else 0;
    var run := DigitRun(s[sign..]);
    if run == 0 then None
    else
      var n := if s[sign] == '0' then 1 else run;
      Some((s[..sign + n], s[sign + n..]))
  }

  function Text(v: Syntax): string {
    match v
    case Null => "null"
    case Bool(b) => if b then "true" else "false"
    case Number(text) => text
    case String(s) => Quote(s)
    case Array(items) => "[" + ItemsText(items) + "]"
    case Object(members) => "{" + MembersText(members) + "}"
  }

  function ItemsText(items: Items): string {
    match items
    case NoItems => ""
    case Item(head, NoItems) => Text(head)
    case Item(head, tail) => Text(head) + "," + ItemsText(tail)
  }

  function MemberText(key: string, value: string): string {
    Quote(key) + ":" + value
  }

  function MembersText(members: Members): string {
    match members
    case NoMembers => ""
    case Member(key, value, NoMembers) => MemberText(key, Text(value))
    case Member(key, value, rest) => MemberText(key, Text(value)) + "," + MembersText(rest)
  }

  /** How values are spelled: plain strings and keys as they are, between quotes. */
  lemma Spelling(s: string, v: Syntax, w: Syntax)
    requires Plain(s)
    ensures Text(Null) == "null" && Text(Bool(true)) == "true" && Text(Bool(false)) == "false"
    ensures Text(Number(s)) == s && Text(String(s)) == "\"" + s + "\""
    ensures Text(Array(NoItems)) == "[]" && Text(Object(NoMembers)) == "{}"
    ensures Text(Array(Item(v, Item(w, NoItems)))) == "[" + (Text(v) + "," + Text(w)) + "]"
  {
    PlainEscape(s);
    hide Escape, Plain;
    assert ItemsText(Item(w, NoItems)) == Text(w);
  }

  lemma MemberSpelling(key: string, other: string, v: Syntax, w: Syntax)
    requires Plain(key) && Plain(other)
    ensures Text(Object(Member(key, v, Member(other, w, NoMembers)))) ==
            "{" + ("\"" + key + "\"" + ":" + Text(v) + "," + ("\"" + other + "\"" + ":" + Text(w))) + "}"
  {
    PlainEscape(key);
    PlainEscape(other);
    hide Escape, Plain;
    assert MembersText(Member(other, w, NoMembers)) == MemberText(other, Text(w));
  }

  datatype Parsed<T> = Bad | Good(value: T, rest: string)

  function Literal(s: string, word: string, v: Syntax): Parsed<Syntax> {
    if word <= s then Good(v, s[|word|..]) else Bad
  }

  function ParseValue(s: string): (r: Parsed<Syntax>)
    ensures r.Good? ==> |r.rest| < |s|
    decreases |s|, 0
  {
    if s == "" then Bad
    else if s[0] == 'n' then Literal(s, "null", Null)
    else if s[0] == 't' then Literal(s, "true", Bool(true))
    else if s[0] == 'f' then Literal(s, "false", Bool(false))
    else if s[0] == '"' then
      match ParseString(s[1..])
      case Some((body, rest)) => Good(String(body), rest)
      case None => Bad
    else if s[0] == '[' then
      if |s| > 1 && s[1] == ']' then Good(Array(NoItems), s[2..])
      else
        match ParseItems(s[1..])
        case Good(items, rest) => Good(Array(items), rest)
        case Bad => Bad
    else if s[0] == '{' then
      if |s| > 1 && s[1] == '}' then Good(Object(NoMembers), s[2..])
      else
        match ParseMembers(s[1..])
        case Good(members, rest) => Good(Object(members), rest)
        case Bad => Bad
    else
      match ParseNumber(s)
      case Some((text, rest)) => Good(Number(text), rest)
      case None => Bad
  }

  /** The items of a non-empty array, up to and including the closing bracket. */
  function ParseItems(s: string): (r: Parsed<Items>)
    ensures r.Good? ==> |r.rest| < |s|
    decreases |s|, 1
  {
    match ParseValue(s)
    case Bad => Bad
    case Good(head, rest) =>
      if rest == "" then Bad
      else if rest[0] == ']' then Good(Item(head, NoItems), rest[1..])
      else if rest[0] != ',' then Bad
      else
        match ParseItems(rest[1..])
        case Bad => Bad
        case Good(tail, after) => Good(Item(head, tail), after)
  }

  /** The members of a non-empty object, up to and including the closing brace. */
  function ParseMembers(s: string): (r: Parsed<Members>)
    ensures r.Good? ==> |r.rest| < |s|
    decreases |s|, 1
  {
    if s == "" || s[0] != '"' then Bad
    else
      match ParseString(s[1..])
      case None => Bad
      case Some((key, colon)) =>
        if colon == "" || colon[0] != ':' then Bad
        else
          match ParseValue(colon[1..])
          case Bad => Bad
          case Good(value, rest) =>
            if rest == "" then Bad
            else if rest[0] == '}' then Good(Member(key, value, NoMembers), rest[1..])
            else if rest[0] != ',' then Bad
            else
              match ParseMembers(rest[1..])
              case Bad => Bad
              case Good(members, after) => Good(Member(key, value, members), after)
  }

  /** A document is one value with nothing behind it. */
  function Parse(s: string): Option<Syntax> {
    match ParseValue(s)
    case Good(v, "") => Some(v)
    case _ => None
  }

  /** What the printer can print: escapable strings and well-formed integers. */
  predicate Printable(v: Syntax) {
    match v
    case Null => true
    case Bool(_) => true
    case Number(text) => IsInteger(text)
    case String(s) => PrintableString(s)
    case Array(items) => PrintableItems(items)
    case Object(members) => PrintableMembers(members)
  }

  predicate PrintableString(s: string) {
    forall i | 0 <= i < |s| :: IsControl(s[i]) ==> s[i] == '\n'
  }

  predicate PrintableItems(items: Items) {
    items.Item? ==> Printable(items.head) && PrintableItems(items.tail)
  }

  predicate PrintableMembers(members: Members) {
    members.Member? ==>
      PrintableString(members.key) && Printable(members.value) && PrintableMembers(members.rest)
  }

  /** What follows a value in a text cannot be taken for more digits of it. */
  predicate Ends(rest: string) {
    rest == "" || !IsDigit(rest[0])
  }

  lemma {:induction false} DigitRunOf(digits: string, rest: string)
    requires Digits(digits) && Ends(rest)
    ensures DigitRun(digits + rest) == |digits|
  {
    if digits == "" {
      assert digits + rest == rest;
    } else {
      assert (digits + rest)[1..] == digits[1..] + rest;
      DigitRunOf(digits[1..], rest);
    }
  }

  lemma NumberRoundTrip(text: string, rest: string)
    requires IsInteger(text) && Ends(rest)
    ensures ParseNumber(text + rest) == Some((text, rest))
  {
    var sign := if text[0] == '-' then 1 else 0;
    DigitRunOf(text[sign..], rest);
    assert (text + rest)[sign..] == text[sign..] + rest;
    assert (text + rest)[..|text|] == text && (text + rest)[|text|..] == rest;
  }

  lemma StringRoundTrip(s: string, rest: string)
    requires PrintableString(s)
    ensures Quote(s) + rest != "" && (Quote(s) + rest)[0] == '"'
    ensures ParseString((Quote(s) + rest)[1..]) == Some((s, rest))
  {
    EscapeRoundTrip(s, rest);
    assert (Quote(s) + rest)[1..] == Escape(s) + "\"" + rest;
  }

  /** Parsing what was printed gives the printed value, and stops exactly behind it. */
  lemma {:induction false} ValueRoundTrip(v: Syntax, rest: string)
    requires Printable(v) && Ends(rest)
    ensures ParseValue(Text(v) + rest) == Good(v, rest)
    decreases v, 0
  {
    if v.Array? {
      if v.items.Item? {
        ItemsRoundTrip(v.items, rest);
      }
      ParseArray(v.items, ItemsText(v.items), rest);
    } else if v.Object? {
      if v.members.Member? {
        MembersRoundTrip(v.members, rest);
      }
      ParseObject(v.members, MembersText(v.members), rest);
    } else {
      ScalarRoundTrip(v, rest);
    }
  }

  lemma ParseArray(items: Items, inner: string, rest: string)
    requires items.NoItems? ==> inner == ""
    requires items.Item? ==> inner != "" && inner[0] != ']' && ParseItems(inner + "]" + rest) == Good(items, rest)
    ensures ParseValue("[" + inner + "]" + rest) == Good(Array(items), rest)
  {
    hide ParseMembers, ParseItems, ParseString, ParseNumber, Literal;
    var text := "[" + inner + "]" + rest;
    assert text[1..] == inner + "]" + rest;
    if items.NoItems? {
      assert text[2..] == rest;
    } else {
      assert text[1] == inner[0];
    }
  }

  lemma ParseObject(members: Members, inner: string, rest: string)
    requires members.NoMembers? ==> inner == ""
    requires members.Member? ==> inner != "" && inner[0] == '"'
    requires members.Member? ==> ParseMembers(inner + "}" + rest) == Good(members, rest)
    ensures ParseValue("{" + inner + "}" + rest) == Good(Object(members), rest)
  {
    hide ParseMembers, ParseItems, ParseString, ParseNumber, Literal;
    var text := "{" + inner + "}" + rest;
    assert text[1..] == inner + "}" + rest;
    if members.NoMembers? {
      assert text[2..] == rest;
    } else {
      assert text[1] == inner[0];
    }
  }

  lemma ScalarRoundTrip(v: Syntax, rest: string)
    requires Printable(v) && Ends(rest) && !v.Array? && !v.Object?
    ensures ParseValue(Text(v) + rest) == Good(v, rest)
  {
    var text := Text(v) + rest;
    match v
    case Null =>
      assert text[..4] == "null" && text[4..] == rest;
    case Bool(b) =>
      if b {
        assert text[..4] == "true" && text[4..] == rest;
      } else {
        assert text[..5] == "false" && text[5..] == rest;
      }
    case Number(n) =>
      NumberRoundTrip(n, rest);
      assert text[0] == n[0];
    case String(s) =>
      StringRoundTrip(s, rest);
  }

  lemma {:induction false} ItemsRoundTrip(items: Items, rest: string)
    requires items.Item? && PrintableItems(items)
    ensures ItemsText(items) != "" && ItemsText(items)[0] != ']'
    ensures ParseItems(ItemsText(items) + "]" + rest) == Good(items, rest)
    decreases items, 1
  {
    hide ParseValue;
    var text := ItemsText(items) + "]" + rest;
    TextStarts(items.head);
    if items.tail.NoItems? {
      ValueRoundTrip(items.head, "]" + rest);
      assert text == Text(items.head) + ("]" + rest);
    } else {
      var after := ItemsText(items.tail) + "]" + rest;
      ValueRoundTrip(items.head, "," + after);
      assert text == Text(items.head) + ("," + after);
      ItemsRoundTrip(items.tail, rest);
    }
  }

  lemma {:induction false} MembersRoundTrip(members: Members, rest: string)
    requires members.Member? && PrintableMembers(members)
    ensures MembersText(members) != "" && MembersText(members)[0] == '"'
    ensures ParseMembers(MembersText(members) + "}" + rest) == Good(members, rest)
    decreases members, 1
  {
    hide ParseValue, ParseString, ParseMembers, MemberText, Quote, PrintableString;
    var value := Text(members.value);
    var first := MemberText(members.key, value);
    if members.rest.NoMembers? {
      ValueRoundTrip(members.value, "}" + rest);
      ParseMember(members.key, value, members.value, "}" + rest);
      assert first + "}" + rest == first + ("}" + rest);
    } else {
      var next := MembersText(members.rest) + "}" + rest;
      ValueRoundTrip(members.value, "," + next);
      ParseMember(members.key, value, members.value, "," + next);
      MembersRoundTrip(members.rest, rest);
      assert first + "," + MembersText(members.rest) + "}" + rest == first + ("," + next);
    }
  }

  /** One member and what the parser does with the character behind it. */
  lemma ParseMember(key: string, text: string, value: Syntax, after: string)
    requires PrintableString(key) && after != "" && ParseValue(text + after) == Good(value, after)
    ensures MemberText(key, text) != "" && MemberText(key, text)[0] == '"'
    ensures after[0] == '}' ==>
              ParseMembers(MemberText(key, text) + after) == Good(Member(key, value, NoMembers), after[1..])
    ensures after[0] == ',' && ParseMembers(after[1..]).Good? ==>
              var more := ParseMembers(after[1..]);
              ParseMembers(MemberText(key, text) + after) == Good(Member(key, value, more.value), more.rest)
  {
    hide ParseValue, ParseString, Escape, PrintableString;
    var colon := ":" + text + after;
    StringRoundTrip(key, colon);
    assert MemberText(key, text) + after == Quote(key) + colon;
    assert colon[1..] == text + after;
  }

  /** No value starts with a closing bracket. */
  lemma TextStarts(v: Syntax)
    requires Printable(v)
    ensures Text(v) != "" && Text(v)[0] != ']' && Text(v)[0] != '}'
  {
  }

  lemma RoundTrip(v: Syntax)
    requires Printable(v)
    ensures Parse(Text(v)) == Some(v)
  {
    ValueRoundTrip(v, "");
    assert Text(v) + "" == Text(v);
  }

  // ---- Meaning ----

  /** The document a text denotes; of two members with one name the later counts. */
  function Value(v: Syntax): Json.Json {
    match v
    case Null => Json.Null
    case Bool(b) => Json.Bool(b)
    case Number(text) => Json.Number(text)
    case String(s) => Json.String(s)
    case Array(items) => Json.Array(ItemValues(items))
    case Object(members) => Json.Object(MemberValues(members))
  }

  function ItemValues(items: Items): seq<Json.Json> {
    match items
    case NoItems => []
    case Item(head, tail) => [Value(head)] + ItemValues(tail)
  }

  function MemberValues(members: Members): map<string, Json.Json> {
    match members
    case NoMembers => map[]
    case Member(key, value, rest) => map[key := Value(value)] + MemberValues(rest)
  }

  // ---- Text put together without escaping, as the helpers do it ----

  /** A member with a string value, printed without any escaping. */
  function RawField(key: string, text: string): string {
    "\"" + key + "\":\"" + text + "\""
  }

  function RawMember(key: string, value: string): string {
    "\"" + key + "\":" + value
  }

  function Braces(body: string): string {
    "{" + body + "}"
  }

  function Single(key: string, value: Syntax): Syntax {
    Object(Member(key, value, NoMembers))
  }

  function FieldsOf(members: Members): seq<string> {
    match members
    case NoMembers => []
    case Member(key, value, rest) => [MemberText(key, Text(value))] + FieldsOf(rest)
  }

  lemma {:induction false} JoinFields(members: Members)
    ensures Join(FieldsOf(members), ",") == MembersText(members)
  {
    if members.Member? {
      JoinFields(members.rest);
      assert FieldsOf(members)[1..] == FieldsOf(members.rest);
    }
  }

  lemma EscapedFieldText(key: string, text: string)
    requires Plain(key)
    ensures RawField(key, Escape(text)) == MemberText(key, Text(String(text)))
  {
    PlainEscape(key);
  }

  lemma RawFieldText(key: string, text: string)
    requires Plain(key) && Plain(text)
    ensures RawField(key, text) == MemberText(key, Text(String(text)))
  {
    PlainEscape(text);
    EscapedFieldText(key, text);
  }

  lemma RawMemberText(key: string, value: Syntax)
    requires Plain(key)
    ensures RawMember(key, Text(value)) == MemberText(key, Text(value))
    ensures Braces(RawMember(key, Text(value))) == Text(Single(key, value))
  {
    PlainEscape(key);
  }

  lemma {:induction false} PlainJoin(parts: seq<string>, sep: string)
    requires Plain(sep) && forall i | 0 <= i < |parts| :: Plain(parts[i])
    ensures Plain(Join(parts, sep))
  {
    if |parts| > 1 {
      PlainJoin(parts[1..], sep);
    }
  }

  lemma PrintableSingle(key: string, value: Syntax)
    requires Plain(key) && Printable(value)
    ensures PrintableMembers(Member(key, value, NoMembers)) && Printable(Single(key, value))
  {
  }
}
