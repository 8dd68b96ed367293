/**
 The header scanner of the checkpoint auditor. It counts brackets outside strings before the
 text is parsed; it must raise exactly when the syntax tree of the text is too deep.

 A JSON text is given by its concrete syntax tree in the grammar of RFC 8259: white space and
 string escapes (section 7) are part of the tree, so that `Print` reaches every well-formed text.
 */
module JsonNesting {
  import opened Common

  // ---------------------------------------------------------------- texts

  datatype StringItem =
    | Plain(c: char)
    | Escape(c: char)
    | Unicode(hex: string)

  /** `name` is the member name of an object entry, with the white space up to the colon. */
  datatype Entry = Entry(lead: string, name: Option<Name>, gap: string, value: Value, trail: string)

  datatype Name = Name(key: seq<StringItem>, gap: string)

  datatype Value =
    | Literal(token: string)
    | Text(items: seq<StringItem>)
    | Container(isObject: bool, pad: string, entries: seq<Entry>)

  predicate White(s: string) {
    forall i :: 0 <= i < |s| ==> s[i] == ' ' || s[i] == '\t' || s[i] == '\n' || s[i] == '\r'
  }

  predicate NumberChar(c: char) {
    '0' <= c <= '9' || c == '+' || c == '-' || c == '.' || c == 'e' || c == 'E'
  }

  predicate HexDigit(c: char) {
    '0' <= c <= '9' || 'a' <= c <= 'f' || 'A' <= c <= 'F'
  }

  predicate LiteralOk(token: string) {
    || token == "true" || token == "false" || token == "null"
    || (token != "" && forall i :: 0 <= i < |token| ==> NumberChar(token[i]))
  }

  predicate ItemOk(item: StringItem) {
    match item
    case Plain(c) => c != '"' && c != '\\' && c >= ' '
    case Escape(c) => c in "\"\\/bfnrt"
    case Unicode(hex) => |hex| == 4 && forall i :: 0 <= i < 4 ==> HexDigit(hex[i])
  }

  predicate ItemsOk(items: seq<StringItem>) {
    forall i :: 0 <= i < |items| ==> ItemOk(items[i])
  }

  predicate WellFormed(v: Value) {
    match v
    case Literal(token) => LiteralOk(token)
    case Text(items) => ItemsOk(items)
    case Container(isObject, pad, entries) => White(pad) && EntriesOk(entries, isObject)
  }

  predicate EntriesOk(entries: seq<Entry>, isObject: bool) {
    entries == [] ||
    (var e := entries[0];
     && White(e.lead) && White(e.gap) && White(e.trail)
     && e.name.Some? == isObject
     && (e.name.Some? ==> ItemsOk(e.name.value.key) && White(e.name.value.gap))
     && WellFormed(e.value) && EntriesOk(entries[1..], isObject))
  }

  function PrintItems(items: seq<StringItem>): string {
    if items == [] then ""
    else
      (match items[0]
       case Plain(c) => [c]
       case Escape(c) => ['\\', c]
       case Unicode(hex) => "\\u" + hex) + PrintItems(items[1..])
  }

  function PrintString(items: seq<StringItem>): string {
    "\"" + PrintItems(items) + "\""
  }

  function PrintName(name: Option<Name>): string {
    if name.None? then "" else PrintString(name.value.key) + name.value.gap + ":"
  }

  function Print(v: Value): string {
    match v
    case Literal(token) => token
    case Text(items) => PrintString(items)
    case Container(isObject, pad, entries) =>
      (if isObject then "{" else "[")
      + (if entries == [] then pad else PrintEntries(entries))
      + (if isObject then "}" else "]")
  }

  function PrintEntries(entries: seq<Entry>): string {
    if entries == [] then ""
    else
      var e := entries[0];
      e.lead + PrintName(e.name) + e.gap + Print(e.value) + e.trail
      + (if |entries| == 1 then "" else "," + PrintEntries(entries[1..]))
  }

  /** Containers on the longest path of the tree. */
  function Height(v: Value): nat {
    match v
    case Literal(_) => 0
    case Text(_) => 0
    case Container(_, _, entries) => 1 + MaxHeight(entries)
  }

  function MaxHeight(entries: seq<Entry>): nat {
    if entries == [] then 0
    else
      var h, rest := Height(entries[0].value), MaxHeight(entries[1..]);
      if h > rest then h else rest
  }

  // ---------------------------------------------------------------- scanner

  datatype Scan = Scan(depth: int, inString: bool, escaped: bool) | Raised

  const OUTSIDE := Scan(0, false, false)

  function ScanChar(st: Scan, c: char, limit: int): Scan {
    if st.Raised? then Raised
    else if st.inString then
      if st.escaped then st.(escaped := false)
      else if c == '\\' then st.(escaped := true)
      else if c == '"' then st.(inString := false)
      else st
    else if c == '"' then st.(inString := true)
    else if c == '[' || c == '{' then
      if st.depth + 1 > limit then Raised else st.(depth := st.depth + 1)
    else if c == ']' || c == '}' then st.(depth := st.depth - 1)
    else st
  }

  function ScanText(st: Scan, text: string, limit: int): Scan
    decreases |text|
  {
    if text == "" then st else ScanText(ScanChar(st, text[0], limit), text[1..], limit)
  }

  lemma {:induction false} ScanConcat(st: Scan, a: string, b: string, limit: int)
    ensures ScanText(st, a + b, limit) == ScanText(ScanText(st, a, limit), b, limit)
    decreases |a|
  {
    if a == "" {
      assert a + b == b;
    } else {
      assert (a + b)[1..] == a[1..] + b;
      ScanConcat(ScanChar(st, a[0], limit), a[1..], b, limit);
    }
  }

  /** The loop of the auditor: `ok` is false where it raises. */
  method ValidateJsonNesting(text: string, maxDepth: int) returns (ok: bool)
    ensures ok <==> !ScanText(OUTSIDE, text, maxDepth).Raised?
  {
    var depth, inString, escaped := 0, false, false;
    for i := 0 to |text|
      invariant ScanText(OUTSIDE, text, maxDepth) == ScanText(Scan(depth, inString, escaped), text[i..], maxDepth)
    {
      var c := text[i];
      ghost var before := Scan(depth, inString, escaped);
      assert text[i..][1..] == text[i + 1..];
      if inString {
        if escaped {
          escaped := false;
        } else if c == '\\' {
          escaped := true;
        } else if c == '"' {
          inString := false;
        }
      } else if c == '"' {
        inString := true;
      } else if c == '[' || c == '{' {
        depth := depth + 1;
        if depth > maxDepth {
          RaisedStays(text[i + 1..], maxDepth);
          return false;
        }
      } else if c == ']' || c == '}' {
        depth := depth - 1;
      }
      assert ScanChar(before, c, maxDepth) == Scan(depth, inString, escaped);
    }
    return true;
  }

  lemma {:induction false} RaisedStays(text: string, limit: int)
    ensures ScanText(Raised, text, limit) == Raised
    decreases |text|
  {
    if text != "" {
      RaisedStays(text[1..], limit);
    }
  }

  // ---------------------------------------------------------------- agreement

  predicate Neutral(s: string) {
    forall i :: 0 <= i < |s| ==> s[i] != '"' && s[i] != '[' && s[i] != ']' && s[i] != '{' && s[i] != '}'
  }

  lemma {:induction false} NeutralIgnored(d: int, s: string, limit: int)
    requires Neutral(s)
    ensures ScanText(Scan(d, false, false), s, limit) == Scan(d, false, false)
    decreases |s|
  {
    if s != "" {
      NeutralIgnored(d, s[1..], limit);
    }
  }

  lemma {:induction false} ItemsIgnored(d: int, items: seq<StringItem>, limit: int)
    requires ItemsOk(items)
    ensures ScanText(Scan(d, true, false), PrintItems(items), limit) == Scan(d, true, false)
    decreases |items|
  {
    if items != [] {
      var rest := PrintItems(items[1..]);
      var inside := Scan(d, true, false);
      match items[0] {
        case Plain(c) =>
          ScanConcat(inside, [c], rest, limit);
          assert ScanText(inside, [c], limit) == ScanText(inside, [], limit);
        case Escape(c) =>
          ScanConcat(inside, ['\\', c], rest, limit);
          assert ['\\', c][1..] == [c] && [c][1..] == [];
        case Unicode(hex) =>
          ScanConcat(inside, "\\u" + hex, rest, limit);
          assert ("\\u" + hex)[1..] == "u" + hex && ("u" + hex)[1..] == hex;
          HexIgnored(d, hex, limit);
      }
      ItemsIgnored(d, items[1..], limit);
    }
  }

  lemma {:induction false} HexIgnored(d: int, s: string, limit: int)
    requires forall i :: 0 <= i < |s| ==> HexDigit(s[i])
    ensures ScanText(Scan(d, true, false), s, limit) == Scan(d, true, false)
    decreases |s|
  {
    if s != "" {
      HexIgnored(d, s[1..], limit);
    }
  }

  lemma StringIgnored(d: int, items: seq<StringItem>, limit: int)
    requires ItemsOk(items)
    ensures ScanText(Scan(d, false, false), PrintString(items), limit) == Scan(d, false, false)
  {
    var outside, inside := Scan(d, false, false), Scan(d, true, false);
    ScanConcat(outside, "\"" + PrintItems(items), "\"", limit);
    ScanConcat(outside, "\"", PrintItems(items), limit);
    assert ScanText(outside, "\"", limit) == ScanText(inside, "", limit);
    ItemsIgnored(d, items, limit);
    assert ScanText(inside, "\"", limit) == ScanText(outside, "", limit);
  }

  lemma NameIgnored(d: int, name: Option<Name>, limit: int)
    requires name.Some? ==> ItemsOk(name.value.key) && White(name.value.gap)
    ensures ScanText(Scan(d, false, false), PrintName(name), limit) == Scan(d, false, false)
  {
    if name.Some? {
      var st := Scan(d, false, false);
      ScanConcat(st, PrintString(name.value.key) + name.value.gap, ":", limit);
      ScanConcat(st, PrintString(name.value.key), name.value.gap, limit);
      StringIgnored(d, name.value.key, limit);
      NeutralIgnored(d, name.value.gap, limit);
      NeutralIgnored(d, ":", limit);
    }
  }

  /** The state after a subtree of height `h` met at depth `d`. */
  function After(d: int, h: nat, limit: int): Scan {
    if h > 0 && d + h > limit then Raised else Scan(d, false, false)
  }

  lemma {:induction false} ScanValue(v: Value, d: int, limit: int)
    requires WellFormed(v)
    ensures ScanText(Scan(d, false, false), Print(v), limit) == After(d, Height(v), limit)
    decreases v
  {
    match v
    case Literal(token) => NeutralIgnored(d, token, limit);
    case Text(items) => StringIgnored(d, items, limit);
    case Container(isObject, pad, entries) =>
      if entries == [] { NeutralIgnored(d + 1, pad, limit); }
      else if d + 1 <= limit { ScanEntries(entries, isObject, d + 1, limit); }
      ScanBrackets(isObject, if entries == [] then pad else PrintEntries(entries), d, MaxHeight(entries), limit);
  }

  lemma ScanBrackets(isObject: bool, body: string, d: int, h: nat, limit: int)
    requires d + 1 <= limit ==> ScanText(Scan(d + 1, false, false), body, limit) == After(d + 1, h, limit)
    ensures var left := if isObject then "{" else "["; var right := if isObject then "}" else "]";
            ScanText(Scan(d, false, false), left + body + right, limit) == After(d, 1 + h, limit)
  {
    var st, inner := Scan(d, false, false), Scan(d + 1, false, false);
    var left := if isObject then "{" else "[";
    var right := if isObject then "}" else "]";
    ScanConcat(st, left + body, right, limit);
    ScanConcat(st, left, body, limit);
    assert left[1..] == "" && right[1..] == "";
    RaisedStays(body, limit);
    RaisedStays(right, limit);
    assert ScanText(st, left, limit) == ScanChar(st, left[0], limit);
    assert ScanText(inner, right, limit) == ScanChar(inner, right[0], limit);
  }

  lemma {:induction false} ScanEntries(entries: seq<Entry>, isObject: bool, d: int, limit: int)
    requires EntriesOk(entries, isObject) && entries != [] && d <= limit
    ensures ScanText(Scan(d, false, false), PrintEntries(entries), limit) == After(d, MaxHeight(entries), limit)
    decreases entries
  {
    var e := entries[0];
    ScanValue(e.value, d, limit);
    if |entries| > 1 { ScanEntries(entries[1..], isObject, d, limit); }
    ScanEntry(e, |entries| > 1, PrintEntries(entries[1..]), d, MaxHeight(entries[1..]), limit);
  }

  lemma ScanFour(st: Scan, a: string, b: string, c: string, e: string, limit: int)
    ensures ScanText(st, a + b + c + e, limit)
            == ScanText(ScanText(ScanText(ScanText(st, a, limit), b, limit), c, limit), e, limit)
  {
    ScanConcat(st, a + b + c, e, limit);
    ScanConcat(st, a + b, c, limit);
    ScanConcat(st, a, b, limit);
  }

  /** One entry and, when there is one, the comma and what follows it. */
  lemma ScanEntry(e: Entry, more: bool, rest: string, d: int, h: nat, limit: int)
    requires White(e.lead) && White(e.gap) && White(e.trail) && d <= limit
    requires e.name.Some? ==> ItemsOk(e.name.value.key) && White(e.name.value.gap)
    requires ScanText(Scan(d, false, false), Print(e.value), limit) == After(d, Height(e.value), limit)
    requires if more then ScanText(Scan(d, false, false), rest, limit) == After(d, h, limit) else h == 0
    ensures ScanText(Scan(d, false, false),
                     e.lead + PrintName(e.name) + e.gap + Print(e.value) + e.trail + (if more then "," + rest else ""),
                     limit)
            == After(d, if Height(e.value) > h then Height(e.value) else h, limit)
  {
    var tail := if more then "," + rest else "";
    ScanFour(Scan(d, false, false), e.lead + PrintName(e.name) + e.gap, Print(e.value), e.trail, tail, limit);
    HeadIgnored(e, d, limit);
    ScanTail(Height(e.value), e.trail, more, rest, d, h, limit);
  }

  lemma ScanTail(height: nat, trail: string, more: bool, rest: string, d: int, h: nat, limit: int)
    requires White(trail) && d <= limit
    requires if more then ScanText(Scan(d, false, false), rest, limit) == After(d, h, limit) else h == 0
    ensures ScanText(ScanText(After(d, height, limit), trail, limit), if more then "," + rest else "", limit)
            == After(d, if height > h then height else h, limit)
  {
    if After(d, height, limit).Raised? {
      RaisedStays(trail, limit);
      RaisedStays(if more then "," + rest else "", limit);
    } else {
      NeutralIgnored(d, trail, limit);
      if more {
        ScanConcat(Scan(d, false, false), ",", rest, limit);
        NeutralIgnored(d, ",", limit);
      }
    }
  }

  lemma HeadIgnored(e: Entry, d: int, limit: int)
    requires White(e.lead) && White(e.gap)
    requires e.name.Some? ==> ItemsOk(e.name.value.key) && White(e.name.value.gap)
    ensures ScanText(Scan(d, false, false), e.lead + PrintName(e.name) + e.gap, limit) == Scan(d, false, false)
  {
    var st := Scan(d, false, false);
    ScanConcat(st, e.lead + PrintName(e.name), e.gap, limit);
    ScanConcat(st, e.lead, PrintName(e.name), limit);
    NeutralIgnored(d, e.lead, limit);
    NameIgnored(d, e.name, limit);
    NeutralIgnored(d, e.gap, limit);
  }

  /** For every well-formed text the scanner raises exactly when the tree is higher than the
      limit; a text without containers never raises, whatever the limit. */
  lemma NestingIsExact(lead: string, v: Value, trail: string, limit: int)
    requires White(lead) && WellFormed(v) && White(trail)
    ensures ScanText(OUTSIDE, lead + Print(v) + trail, limit).Raised? <==> Height(v) > 0 && Height(v) > limit
  {
    ScanConcat(OUTSIDE, lead + Print(v), trail, limit);
    ScanConcat(OUTSIDE, lead, Print(v), limit);
    NeutralIgnored(0, lead, limit);
    ScanValue(v, 0, limit);
    if After(0, Height(v), limit).Raised? {
      RaisedStays(trail, limit);
    } else {
      NeutralIgnored(0, trail, limit);
    }
  }

  /** safetensors accepts at most this many nested containers, the root object included. */
  const MAX_HEADER_JSON_NESTING := 127

  /** The check as the auditor makes it: a header passes exactly when serde_json's limit admits it. */
  method CheckHeaderNesting(lead: string, v: Value, trail: string) returns (ok: bool)
    requires White(lead) && WellFormed(v) && White(trail)
    ensures ok <==> Height(v) < 128
  {
    NestingIsExact(lead, v, trail, MAX_HEADER_JSON_NESTING);
    ok := ValidateJsonNesting(lead + Print(v) + trail, MAX_HEADER_JSON_NESTING);
  }
}
