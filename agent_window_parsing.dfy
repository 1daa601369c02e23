/** What the agent window's hand-written "mcpServers" reader computes, as
    functions over the JSON text: the brace-matching scanner, the server
    definition walk, and the field extractors for "command", "args" and "env".
    The window's methods that run these scans with loops are proved equal to
    them in module AgentWindow. */
module AgentWindowParsing {
  import opened Text
  import opened McpConfiguration

  // ---------------------------------------------------------------------------
  // Brace matching

  /** What one character does to the brace depth. */
  function Delta(c: char): int {
    if c == '{' then 1 else if c == '}' then -1 else 0
  }

  /** Opening minus closing braces in `t`. */
  function Depth(t: string): int {
    if t == [] then 0 else Delta(t[0]) + Depth(t[1..])
  }

  /** Every brace in `t` is matched: the depth ends at zero and no prefix
      closes more braces than it opened. */
  predicate Balanced(t: string) {
    Depth(t) == 0 && forall k :: 0 <= k <= |t| ==> Depth(t[..k]) >= 0
  }

  /** The brace-matching loop: starting at `pos` with `depth` braces open, steps
      over one character at a time until the depth reaches zero or the text
      ends, and gives the final position and depth. */
  function ScanBraces(s: string, pos: nat, depth: nat): (r: (nat, nat))
    requires pos <= |s|
    ensures pos <= r.0 <= |s|
    ensures r.1 > 0 ==> r.0 == |s|
    ensures depth > 0 && r.1 == 0 ==> r.0 > pos
    decreases |s| - pos
  {
    if pos == |s| || depth == 0 then (pos, depth)
    else ScanBraces(s, pos + 1, if s[pos] == '{' then depth + 1 else if s[pos] == '}' then depth - 1 else depth)
  }

  /** When the scan ends at depth zero it stopped just after the brace that
      closes the `depth` open ones, and nothing before it closed them; when it
      ends above zero, no prefix of the rest of the text closes them. */
  lemma {:induction false} ScanBracesMatch(s: string, pos: nat, depth: nat)
    requires pos <= |s| && depth > 0
    ensures var (e, d) := ScanBraces(s, pos, depth);
      (d == 0 ==> s[e - 1] == '}' && depth + Depth(s[pos..e - 1]) == 1
                  && forall k :: pos <= k <= e - 1 ==> depth + Depth(s[pos..k]) >= 1)
      && (d > 0 ==> forall k :: pos <= k <= |s| ==> depth + Depth(s[pos..k]) >= 1)
    decreases |s| - pos
  {
    var (e, d) := ScanBraces(s, pos, depth);
    assert s[pos..pos] == [];
    if pos < |s| {
      var c := s[pos];
      var next := if c == '{' then depth + 1 else if c == '}' then depth - 1 else depth;
      assert next == depth + Delta(c);
      forall k | pos < k <= |s|
        ensures Depth(s[pos..k]) == Delta(c) + Depth(s[pos + 1..k])
      {
        assert s[pos..k][1..] == s[pos + 1..k];
      }
      if next == 0 {
        assert e == pos + 1;
        assert s[pos..e - 1] == [];
      } else {
        ScanBracesMatch(s, pos + 1, next);
        if d == 0 {
          assert e - 1 > pos;
        }
      }
    }
  }

  /** A scan that closes every open brace stops just after a closing brace. */
  lemma {:induction false} ScanEndsAtBrace(s: string, pos: nat, depth: nat)
    requires pos <= |s| && depth > 0 && ScanBraces(s, pos, depth).1 == 0
    ensures s[ScanBraces(s, pos, depth).0 - 1] == '}'
    decreases |s| - pos
  {
    var next := if s[pos] == '{' then depth + 1 else if s[pos] == '}' then depth - 1 else depth;
    if next > 0 {
      ScanEndsAtBrace(s, pos + 1, next);
    }
  }

  /** Scanning from just after an opening brace: the text up to the matching
      closing brace is balanced. */
  lemma MatchedContentBalanced(s: string, pos: nat)
    requires pos <= |s| && ScanBraces(s, pos, 1).1 == 0
    ensures var e := ScanBraces(s, pos, 1).0;
      s[e - 1] == '}' && Balanced(s[pos..e - 1])
  {
    ScanBracesMatch(s, pos, 1);
    var e := ScanBraces(s, pos, 1).0;
    var t := s[pos..e - 1];
    forall k | 0 <= k <= |t|
      ensures Depth(t[..k]) >= 0
    {
      assert t[..k] == s[pos..pos + k];
    }
  }

  // ---------------------------------------------------------------------------
  // ParseServersFromJson

  const ServersKey := "\"mcpServers\":"

  /** `v` is the text between the brace at `b` and the brace just after `v`. */
  predicate EnclosedAt(json: string, b: int, v: string) {
    0 <= b && b + |v| + 1 < |json| && json[b] == '{'
    && json[b + 1..b + 1 + |v|] == v && json[b + 1 + |v|] == '}'
  }

  /** The text between the braces of the "mcpServers" object, or None when the
      key, the opening brace after it, or the matching closing brace is missing. */
  function ServersContent(json: string): Option<string>
  {
    var m := IndexOf(json, ServersKey, 0);
    if m < 0 then None
    else
      var b := IndexOfChar(json, '{', m);
      if b < 0 then None
      else
        var (e, d) := ScanBraces(json, b + 1, 1);
        if d > 0 then None else Some(json[b + 1..e - 1])
  }

  /** The servers read from the object found from the key at `m` and the
      brace at `b`. */
  lemma ServersContentOf(json: string, m: int, b: int, e: int)
    requires m == IndexOf(json, ServersKey, 0) && m >= 0
    requires b == IndexOfChar(json, '{', m) && b >= 0
    requires (e, 0) == ScanBraces(json, b + 1, 1)
    ensures b + 1 <= e - 1 <= |json|
    ensures ParsedServers(json) == Some(ServerDefs(json[b + 1..e - 1], 0))
  {
    assert ServersContent(json) == Some(json[b + 1..e - 1]);
  }

  /** Without the key there is no object; the object found is balanced and
      enclosed by a pair of braces in the text. */
  lemma ServersContentSpec(json: string)
    ensures IndexOf(json, ServersKey, 0) < 0 ==> ServersContent(json).None?
    ensures ServersContent(json).Some? ==> Balanced(ServersContent(json).value)
    ensures ServersContent(json).Some? ==> exists b :: EnclosedAt(json, b, ServersContent(json).value)
  {
    var m := IndexOf(json, ServersKey, 0);
    if m >= 0 {
      var b := IndexOfChar(json, '{', m);
      if b >= 0 && ScanBraces(json, b + 1, 1).1 == 0 {
        var v := json[b + 1..ScanBraces(json, b + 1, 1).0 - 1];
        assert ServersContent(json) == Some(v);
        BraceContentEnclosed(json, b);
        assert Balanced(v) by {
          MatchedContentBalanced(json, b + 1);
        }
      }
    }
  }

  /** The text between the brace at `b` and its matching brace is enclosed by
      the two. */
  lemma BraceContentEnclosed(json: string, b: nat)
    requires b < |json| && json[b] == '{' && ScanBraces(json, b + 1, 1).1 == 0
    ensures EnclosedAt(json, b, json[b + 1..ScanBraces(json, b + 1, 1).0 - 1])
  {
    ScanEndsAtBrace(json, b + 1, 1);
  }

  // ---------------------------------------------------------------------------
  // Field extractors

  /** ExtractStringValue: the text between the first two quotes after the
      first colon that follows `"field"`, or "" when any of them is missing. */
  function StringValue(content: string, field: string): string
  {
    var fieldIndex := IndexOf(content, "\"" + field + "\"", 0);
    if fieldIndex < 0 then ""
    else
      var colon := IndexOfChar(content, ':', fieldIndex);
      if colon < 0 then ""
      else
        var firstQuote := IndexOfChar(content, '"', colon);
        if firstQuote < 0 then ""
        else
          var lastQuote := IndexOfChar(content, '"', firstQuote + 1);
          if lastQuote < 0 then "" else content[firstQuote + 1..lastQuote]
  }

  /** The value read is empty when the key is missing, and never holds a
      quote. */
  lemma StringValueShape(content: string, field: string)
    ensures IndexOf(content, "\"" + field + "\"", 0) < 0 ==> StringValue(content, field) == ""
    ensures '"' !in StringValue(content, field)
  {
    var fieldIndex := IndexOf(content, "\"" + field + "\"", 0);
    if fieldIndex >= 0 {
      var colon := IndexOfChar(content, ':', fieldIndex);
      if colon >= 0 {
        var firstQuote := IndexOfChar(content, '"', colon);
        if firstQuote >= 0 {
          IndexOfCharFirst(content, '"', firstQuote + 1);
        }
      }
    }
  }

  /** How a string field is written: `"field": "value"`. */
  function FieldText(field: string, value: string): string {
    "\"" + field + "\": \"" + value + "\""
  }

  /** A field written as `"field": "value"` after text that does not mention
      the field is read back as `value`. */
  lemma StringValueReadsBack(pre: string, field: string, value: string, post: string)
    requires !Contains(pre + "\"" + field, "\"" + field + "\"")
    requires '"' !in value && ':' !in field
    ensures StringValue(pre + FieldText(field, value) + post, field) == value
  {
    var content := pre + FieldText(field, value) + post;
    var key := |pre| + |field| + 2;
    ReadBackKey(pre, field, value, post);
    ReadBackQuotes(pre, field, value, post);
    StringValueAt(content, field, |pre|, key, key + 2, key + 3 + |value|);
  }

  /** The key search finds the field right after `pre`, and the colon search
      stops just after the key. */
  lemma ReadBackKey(pre: string, field: string, value: string, post: string)
    requires !Contains(pre + "\"" + field, "\"" + field + "\"")
    requires ':' !in field
    ensures var content := pre + FieldText(field, value) + post;
      IndexOf(content, "\"" + field + "\"", 0) == |pre|
      && IndexOfChar(content, ':', |pre|) == |pre| + |field| + 2
  {
    var b := ": \"" + value + "\"" + post;
    KeyLayout(pre, field, value, post);
    KeyFoundAfter(pre, field, b);
    ColonAfterKey(pre, field, b);
  }

  lemma KeyLayout(pre: string, field: string, value: string, post: string)
    ensures pre + FieldText(field, value) + post
         == pre + ("\"" + field + "\"") + (": \"" + value + "\"" + post)
  {
  }

  /** The two quote searches after the colon find the quotes around `value`. */
  lemma ReadBackQuotes(pre: string, field: string, value: string, post: string)
    requires '"' !in value
    ensures var content := pre + FieldText(field, value) + post;
      var key := |pre| + |field| + 2;
      key + 3 + |value| < |content|
      && IndexOfChar(content, '"', key) == key + 2
      && IndexOfChar(content, '"', key + 3) == key + 3 + |value|
      && content[key + 3..key + 3 + |value|] == value
  {
    var content := pre + FieldText(field, value) + post;
    var k := pre + "\"" + field + "\"";
    var close := "\"" + post;
    assert content == k + ": " + ("\"" + value + close);
    IndexOfCharAfter(k, ": ", "\"" + value + close, '"');
    assert content == (k + ": \"") + value + close;
    IndexOfCharAfter(k + ": \"", value, close, '"');
  }

  /** StringValue once the four searches it makes are known. */
  lemma StringValueAt(content: string, field: string, fieldIndex: nat, colon: nat, firstQuote: nat, lastQuote: nat)
    requires fieldIndex <= colon < firstQuote < lastQuote <= |content|
    requires IndexOf(content, "\"" + field + "\"", 0) == fieldIndex
    requires IndexOfChar(content, ':', fieldIndex) == colon
    requires IndexOfChar(content, '"', colon) == firstQuote
    requires IndexOfChar(content, '"', firstQuote + 1) == lastQuote
    ensures StringValue(content, field) == content[firstQuote + 1..lastQuote]
  {
  }

  /** The field's key is first found right after `pre`. */
  lemma KeyFoundAfter(pre: string, field: string, b: string)
    requires !Contains(pre + "\"" + field, "\"" + field + "\"")
    ensures IndexOf(pre + ("\"" + field + "\"") + b, "\"" + field + "\"", 0) == |pre|
  {
    assert pre + "\"" + field == pre + ("\"" + field);
    FirstOccurrence(pre, "\"" + field, "\"", b);
  }

  /** The colon search from the key stops at the first character after it. */
  lemma ColonAfterKey(pre: string, field: string, b: string)
    requires ':' !in field && |b| > 0 && b[0] == ':'
    ensures var pat := "\"" + field + "\"";
      IndexOfChar(pre + pat + b, ':', |pre|) == |pre| + |pat|
  {
    var pat := "\"" + field + "\"";
    assert ':' !in pat;
    IndexOfCharAfter(pre, pat, b, ':');
  }

  /** A pattern that does not occur in `pre` followed by all but the last
      character of the pattern is first found right after `pre`. */
  lemma FirstOccurrence(pre: string, head: string, last: string, rest: string)
    requires |last| == 1 && !Contains(pre + head, head + last)
    ensures IndexOf(pre + (head + last) + rest, head + last, 0) == |pre|
  {
    var pat := head + last;
    var content := pre + pat + rest;
    OccursInMiddle(pre, pat, rest);
    IndexOfFirst(content, pat, 0);
    var fieldIndex := IndexOf(content, pat, 0);
    if fieldIndex < |pre| {
      var h := pre + head;
      AppendAssoc(pre, head, last);
      AppendAssoc(h, last, rest);
      PrefixOfAppend(h, last + rest);
      SliceWithinPrefix(content, h, fieldIndex, fieldIndex + |pat|);
      OccursAtContains(h, pat, fieldIndex);
    }
  }

  lemma OccursAtContains(s: string, pat: string, k: int)
    requires 0 <= k && k + |pat| <= |s| && s[k..k + |pat|] == pat
    ensures Contains(s, pat)
  {
    ContainsAt(s, pat, k);
  }

  /** The elements kept from the comma-separated pieces of an array: pieces
      that, trimmed, start and end with a quote and are longer than one
      character, with those quotes removed. */
  function QuotedItems(parts: seq<string>): (r: seq<string>)
  {
    if parts == [] then []
    else QuotedItems(parts[..|parts| - 1]) + QuotedItem(parts[|parts| - 1])
  }

  function QuotedItem(part: string): seq<string> {
    var t := Trim(part);
    if StartsWith(t, "\"") && EndsWith(t, "\"") && |t| > 1 then [t[1..|t| - 1]] else []
  }

  lemma QuotedItemFromPiece(part: string)
    ensures |QuotedItem(part)| <= 1
    ensures QuotedItem(part) != [] ==> Trim(part) == Quoted(QuotedItem(part)[0])
  {
    var t := Trim(part);
    if StartsWith(t, "\"") && EndsWith(t, "\"") && |t| > 1 {
      var e := t[1..|t| - 1];
      assert t[0] == '"' && t[|t| - 1] == '"';
      assert |t| == |Quoted(e)|;
      forall i | 0 <= i < |t| ensures t[i] == Quoted(e)[i] {
      }
    }
  }

  lemma QuotedItemOfQuoted(part: string, e: string)
    requires Trim(part) == Quoted(e)
    ensures QuotedItem(part) == [e]
  {
    var t := Trim(part);
    assert t[1..|t| - 1] == e;
  }

  /** Every kept element comes from a piece that is that element in quotes,
      up to surrounding white space. */
  lemma {:induction false} QuotedItemsFromPieces(parts: seq<string>)
    ensures forall e :: e in QuotedItems(parts) ==>
      exists i :: 0 <= i < |parts| && Trim(parts[i]) == Quoted(e)
    decreases |parts|
  {
    if parts != [] {
      var init := parts[..|parts| - 1];
      var last := parts[|parts| - 1];
      QuotedItemsFromPieces(init);
      QuotedItemFromPiece(last);
      forall e | e in QuotedItems(parts)
        ensures exists i :: 0 <= i < |parts| && Trim(parts[i]) == Quoted(e)
      {
        if e in QuotedItems(init) {
          var i :| 0 <= i < |init| && Trim(init[i]) == Quoted(e);
          assert parts[i] == init[i];
        } else {
          assert e == QuotedItem(last)[0];
          assert parts[|parts| - 1] == last;
        }
      }
    }
  }

  /** Pieces that each yield one element yield those elements, in order. */
  lemma {:induction false} QuotedItemsAllKept(parts: seq<string>, items: seq<string>)
    requires |parts| == |items|
    requires forall i :: 0 <= i < |parts| ==> QuotedItem(parts[i]) == [items[i]]
    ensures QuotedItems(parts) == items
    decreases |parts|
  {
    if parts != [] {
      var n := |parts| - 1;
      var P, I := parts[..n], items[..n];
      forall i | 0 <= i < |P| ensures QuotedItem(P[i]) == [I[i]] {
        assert P[i] == parts[i] && I[i] == items[i];
      }
      QuotedItemsAllKept(P, I);
      assert QuotedItems(parts) == QuotedItems(P) + QuotedItem(parts[n]);
      assert QuotedItem(parts[n]) == [items[n]];
      assert items == I + [items[n]];
    }
  }

  /** Pieces that are all quoted (after trimming) are all kept, in order. */
  lemma QuotedItemsAllQuoted(parts: seq<string>, items: seq<string>)
    requires |parts| == |items|
    requires forall i {:trigger Quoted(items[i])} :: 0 <= i < |parts| ==> Trim(parts[i]) == Quoted(items[i])
    ensures QuotedItems(parts) == items
  {
    forall i | 0 <= i < |parts| ensures QuotedItem(parts[i]) == [items[i]] {
      QuotedItemOfQuoted(parts[i], items[i]);
    }
    QuotedItemsAllKept(parts, items);
  }

  lemma QuotedItemsStep(parts: seq<string>, i: nat)
    requires i < |parts|
    ensures QuotedItems(parts[..i + 1]) == QuotedItems(parts[..i]) + QuotedItem(parts[i])
  {
    assert parts[..i + 1][..i] == parts[..i];
  }

  function Quoted(e: string): string {
    "\"" + e + "\""
  }

  /** ExtractArrayValue: the quoted elements between the first '[' after the
      first colon that follows `"field"` and the next ']'; empty when any of
      them is missing. */
  function ArrayContent(content: string, field: string): Option<string>
  {
    var fieldIndex := IndexOf(content, "\"" + field + "\"", 0);
    if fieldIndex < 0 then None
    else
      var colon := IndexOfChar(content, ':', fieldIndex);
      if colon < 0 then None
      else
        var arrayStart := IndexOfChar(content, '[', colon);
        if arrayStart < 0 then None
        else
          var arrayEnd := IndexOfChar(content, ']', arrayStart);
          if arrayEnd < 0 then None else Some(content[arrayStart + 1..arrayEnd])
  }

  function ArrayValue(content: string, field: string): (r: seq<string>)
    ensures ArrayContent(content, field).None? ==> r == []
  {
    match ArrayContent(content, field)
    case None => []
    case Some(a) => QuotedItems(Split(a, ','))
  }

  /** One "key: value" line of the env object: both sides trimmed of white
      space and then of quotes; lines without a colon or with an empty key
      give nothing. */
  function EnvEntry(line: string): (r: seq<EnvironmentVariable>)
    ensures |r| <= 1
    ensures r != [] ==> r[0].key != "" && !r[0].isSecret
  {
    var t := Trim(line);
    if t == "" then []
    else
      var colon := IndexOfChar(t, ':', 0);
      if colon < 0 then []
      else
        var key := TrimChar(Trim(t[..colon]), '"');
        var value := TrimChar(Trim(t[colon + 1..]), '"');
        if key != "" then [EnvironmentVariable(key, value, false)] else []
  }

  function EnvEntries(lines: seq<string>): (r: seq<EnvironmentVariable>)
    ensures |r| <= |lines|
    ensures forall v :: v in r ==> v.key != "" && !v.isSecret
  {
    if lines == [] then [] else EnvEntries(lines[..|lines| - 1]) + EnvEntry(lines[|lines| - 1])
  }

  lemma EnvEntriesStep(lines: seq<string>, i: nat)
    requires i < |lines|
    ensures EnvEntries(lines[..i + 1]) == EnvEntries(lines[..i]) + EnvEntry(lines[i])
  {
    assert lines[..i + 1][..i] == lines[..i];
  }

  /** The env object's body: the text between the first '{' after the first
      colon that follows `"env"` and its matching '}'. */
  function EnvContent(content: string): Option<string>
  {
    var envIndex := IndexOf(content, "\"env\"", 0);
    if envIndex < 0 then None
    else
      var colon := IndexOfChar(content, ':', envIndex);
      if colon < 0 then None
      else
        var braceStart := IndexOfChar(content, '{', colon);
        if braceStart < 0 then None
        else
          var (e, d) := ScanBraces(content, braceStart + 1, 1);
          if d > 0 then None else Some(content[braceStart + 1..e - 1])
  }

  const EnvSeparators: set<char> := {',', '\n'}

  /** The environment variables ParseEnvironmentVariables adds for a server's
      configuration text. */
  function EnvVars(content: string): (r: seq<EnvironmentVariable>)
    ensures EnvContent(content).None? ==> r == []
    ensures forall v :: v in r ==> v.key != "" && !v.isSecret
  {
    match EnvContent(content)
    case None => []
    case Some(env) => ReadEnv(env)
  }

  /** The entries read from the text inside an env object: one per non-empty
      piece between commas and line breaks. */
  function ReadEnv(env: string): seq<EnvironmentVariable> {
    EnvEntries(NonEmpty(SplitAny(env, EnvSeparators)))
  }

  /** Text the writer copies verbatim and the reader neither splits nor
      stops at. */
  predicate PlainEnvText(s: string) {
    Unescaped(s) && ',' !in s && '{' !in s && '}' !in s
  }

  /** A variable that comes back from its written line: a non-empty key with
      no colon, plain key and value, not secret. */
  predicate PlainEnvVar(v: EnvironmentVariable) {
    v.key != "" && ':' !in v.key && !v.isSecret && PlainEnvText(v.key) && PlainEnvText(v.value)
  }

  lemma {:induction false} EnvEntriesAppend(a: seq<string>, b: seq<string>)
    ensures EnvEntries(a + b) == EnvEntries(a) + EnvEntries(b)
    decreases |b|
  {
    if b == [] {
      assert a + b == a;
    } else {
      var ab := a + b;
      var b' := b[..|b| - 1];
      assert ab[..|ab| - 1] == a + b' && ab[|ab| - 1] == b[|b| - 1];
      EnvEntriesAppend(a, b');
      AppendAssoc(EnvEntries(a), EnvEntries(b'), EnvEntry(b[|b| - 1]));
    }
  }

  /** A separator splits what is read into what is read on either side. */
  lemma ReadEnvAt(x: string, c: char, y: string)
    requires c in EnvSeparators
    ensures ReadEnv(x + [c] + y) == ReadEnv(x) + ReadEnv(y)
  {
    var px, py := SplitAny(x, EnvSeparators), SplitAny(y, EnvSeparators);
    SplitAnyAt(x, c, y, EnvSeparators);
    NonEmptyAppend(px, py);
    EnvEntriesAppend(NonEmpty(px), NonEmpty(py));
  }

  /** A `"key": "value"` entry after white space reads back as that variable. */
  lemma EnvEntryReadsBack(pad: string, key: string, value: string)
    requires IsBlank(pad) && key != "" && '"' !in key && ':' !in key && '"' !in value
    ensures EnvEntry(pad + FieldText(key, value)) == [EnvironmentVariable(key, value, false)]
  {
    var f := FieldText(key, value);
    var n := |key| + 2;
    FieldLayout(key, value);
    TrimBlankPrefix(pad, f);
    FieldColon(key, value);
    FieldPart("", key, f[..n]);
    FieldPart(" ", value, f[n + 1..]);
    EnvEntryOf(pad + f, f, n, key, value);
  }

  lemma FieldLayout(key: string, value: string)
    ensures var f := FieldText(key, value);
      |f| == |key| + |value| + 6 && f[0] == '"' && f[|f| - 1] == '"'
      && f[..|key| + 2] == "\"" + key + "\"" && f[|key| + 3..] == " \"" + value + "\""
  {
  }

  lemma FieldColon(key: string, value: string)
    requires ':' !in key
    ensures IndexOfChar(FieldText(key, value), ':', 0) == |key| + 2
  {
    var pat := "\"" + key + "\"";
    assert FieldText(key, value) == "" + pat + (": \"" + value + "\"");
    ColonAfterKey("", key, ": \"" + value + "\"");
  }

  /** White space and the quotes around a text without quotes come off. */
  lemma FieldPart(pad: string, s: string, part: string)
    requires IsBlank(pad) && '"' !in s && part == pad + ("\"" + s + "\"")
    ensures TrimChar(Trim(part), '"') == s
  {
    TrimBlankPrefix(pad, "\"" + s + "\"");
    TrimCharEnclosed(s, '"');
  }

  lemma EnvEntryOf(line: string, t: string, colon: nat, key: string, value: string)
    requires Trim(line) == t && colon < |t| && IndexOfChar(t, ':', 0) == colon && key != ""
    requires TrimChar(Trim(t[..colon]), '"') == key && TrimChar(Trim(t[colon + 1..]), '"') == value
    ensures EnvEntry(line) == [EnvironmentVariable(key, value, false)]
  {
  }

  /** One written entry, before its line break and with or without its
      comma, reads as the variable. */
  lemma ReadEnvEntryText(v: EnvironmentVariable, comma: string)
    requires PlainEnvVar(v) && (comma == "" || comma == ",")
    ensures ReadEnv("        " + FieldText(v.key, v.value) + comma) == [v]
  {
    var e := "        " + FieldText(v.key, v.value);
    assert ',' !in e && '\n' !in e;
    forall k | 0 <= k < |e|
      ensures e[k] !in EnvSeparators
    {
      assert e[k] in e;
    }
    SplitAnyNone(e, EnvSeparators);
    assert NonEmpty([e]) == [e];
    EnvEntryReadsBack("        ", v.key, v.value);
    assert ReadEnv(e) == [v];
    if comma == "," {
      ReadEnvAt(e, ',', "");
      assert e + [','] + "" == e + comma;
      assert NonEmpty([""]) == [];
    } else {
      assert e + comma == e;
    }
  }

  /** Reading the entry lines the configuration writer produces gives the
      variables, in order. */
  lemma EnvLinesReadBack(env: seq<EnvironmentVariable>, t: string)
    requires forall i :: 0 <= i < |env| ==> PlainEnvVar(env[i])
    ensures ReadEnv(EnvLines(env, |env|) + t) == env + ReadEnv(t)
  {
    EnvLinesConcat(env, |env|);
    EnvLinesReadAs(env);
    ReadConcatAll(EnvLineSeq(env, |env|), env, EnvLines(env, |env|), t);
  }

  lemma EnvLinesReadAs(env: seq<EnvironmentVariable>)
    requires forall i :: 0 <= i < |env| ==> PlainEnvVar(env[i])
    ensures var ls := EnvLineSeq(env, |env|);
      forall i :: 0 <= i < |env| ==> ReadsAs(ls[i], env[i])
  {
    var ls := EnvLineSeq(env, |env|);
    forall i | 0 <= i < |env|
      ensures ReadsAs(ls[i], env[i])
    {
      EnvLineReadsAs(env, i);
    }
  }

  lemma ReadConcatAll(ls: seq<string>, vs: seq<EnvironmentVariable>, all: string, t: string)
    requires all == Concat(ls) && |ls| == |vs| && forall i :: 0 <= i < |ls| ==> ReadsAs(ls[i], vs[i])
    ensures ReadEnv(all + t) == vs + ReadEnv(t)
  {
    ReadConcat(ls, vs, |ls|, t);
    assert ls[..|ls|] == ls && vs[..|vs|] == vs;
  }

  /** The lines of `ls`, one after the other. */
  function Concat(ls: seq<string>): string {
    if ls == [] then "" else Concat(ls[..|ls| - 1]) + ls[|ls| - 1]
  }

  lemma ConcatTake(ls: seq<string>, n: nat)
    requires 0 < n <= |ls|
    ensures Concat(ls[..n]) == Concat(ls[..n - 1]) + ls[n - 1]
  {
    assert ls[..n][..n - 1] == ls[..n - 1];
  }

  /** The lines written for the first `n` variables, as a sequence. */
  function EnvLineSeq(env: seq<EnvironmentVariable>, n: nat): (r: seq<string>)
    requires n <= |env|
    ensures |r| == n && forall i :: 0 <= i < n ==> r[i] == EnvLine(env, i)
  {
    if n == 0 then [] else EnvLineSeq(env, n - 1) + [EnvLine(env, n - 1)]
  }

  lemma {:induction false} EnvLinesConcat(env: seq<EnvironmentVariable>, n: nat)
    requires n <= |env|
    ensures EnvLines(env, n) == Concat(EnvLineSeq(env, n))
    decreases n
  {
    if n > 0 {
      EnvLinesConcat(env, n - 1);
      ConcatSnoc(EnvLineSeq(env, n - 1), EnvLine(env, n - 1));
    }
  }

  lemma ConcatSnoc(ls: seq<string>, l: string)
    ensures Concat(ls + [l]) == Concat(ls) + l
  {
    assert (ls + [l])[..|ls|] == ls;
  }

  /** An entry text followed by a line break, reading as `v`. */
  predicate ReadsAs(line: string, v: EnvironmentVariable) {
    |line| > 0 && line[|line| - 1] == '\n' && ReadEnv(line[..|line| - 1]) == [v]
  }

  /** Reading the first `n` lines, each of which reads as its variable, gives
      those variables in order. */
  lemma {:induction false} ReadConcat(ls: seq<string>, vs: seq<EnvironmentVariable>, n: nat, t: string)
    requires n <= |ls| == |vs| && forall i :: 0 <= i < |ls| ==> ReadsAs(ls[i], vs[i])
    ensures ReadEnv(Concat(ls[..n]) + t) == vs[..n] + ReadEnv(t)
    decreases n
  {
    if n == 0 {
      assert Concat(ls[..0]) + t == t && vs[..0] + ReadEnv(t) == ReadEnv(t);
    } else {
      ReadConcat(ls, vs, n - 1, ls[n - 1] + t);
      ReadLineThen(ls[n - 1], vs[n - 1], t);
      ConcatTake(ls, n);
      ReadLinesThen(Concat(ls[..n - 1]), ls[n - 1], Concat(ls[..n]), t, vs[..n - 1], vs[n - 1]);
      TakeSnoc(vs, n, ReadEnv(t));
    }
  }

  lemma ReadLineThen(line: string, v: EnvironmentVariable, t: string)
    requires ReadsAs(line, v)
    ensures ReadEnv(line + t) == [v] + ReadEnv(t)
  {
    var c := line[..|line| - 1];
    assert line + t == c + ['\n'] + t;
    ReadEnvAt(c, '\n', t);
  }

  lemma ReadLinesThen(lines: string, line: string, all: string, t: string,
                      read: seq<EnvironmentVariable>, v: EnvironmentVariable)
    requires all == lines + line
    requires ReadEnv(lines + (line + t)) == read + ReadEnv(line + t)
    requires ReadEnv(line + t) == [v] + ReadEnv(t)
    ensures ReadEnv(all + t) == read + [v] + ReadEnv(t)
  {
    AppendAssoc(lines, line, t);
    AppendAssoc(read, [v], ReadEnv(t));
  }

  lemma TakeSnoc(vs: seq<EnvironmentVariable>, n: nat, tail: seq<EnvironmentVariable>)
    requires 0 < n <= |vs|
    ensures vs[..n - 1] + [vs[n - 1]] + tail == vs[..n] + tail
  {
    assert vs[..n - 1] + [vs[n - 1]] == vs[..n];
  }

  /** The line written for a plain variable reads as that variable. */
  lemma EnvLineReadsAs(env: seq<EnvironmentVariable>, j: nat)
    requires j < |env| && PlainEnvVar(env[j])
    ensures ReadsAs(EnvLine(env, j), env[j])
  {
    var v := env[j];
    var comma := if j < |env| - 1 then "," else "";
    var c := "        " + FieldText(v.key, v.value) + comma;
    EnvLineText(env, j);
    ReadEnvEntryText(v, comma);
    assert EnvLine(env, j)[..|EnvLine(env, j)| - 1] == c;
  }

  lemma EnvLineText(env: seq<EnvironmentVariable>, j: nat)
    requires j < |env| && PlainEnvVar(env[j])
    ensures EnvLine(env, j)
      == "        " + FieldText(env[j].key, env[j].value) + (if j < |env| - 1 then "," else "") + "\n"
  {
    EscapeUnescaped(env[j].key);
    EscapeUnescaped(env[j].value);
  }

  /** Neither brace appears in the entry lines of plain variables. */
  lemma {:induction false} EnvLinesBraceFree(env: seq<EnvironmentVariable>, n: nat)
    requires n <= |env| && forall i :: 0 <= i < |env| ==> PlainEnvVar(env[i])
    ensures '{' !in EnvLines(env, n) && '}' !in EnvLines(env, n)
    decreases n
  {
    if n > 0 {
      EnvLinesBraceFree(env, n - 1);
      EnvLineBraceFree(env, n - 1);
      EnvLinesStep(env, n - 1);
      NotInAppend(EnvLines(env, n - 1), EnvLine(env, n - 1), EnvLines(env, n));
    }
  }

  lemma EnvLineBraceFree(env: seq<EnvironmentVariable>, j: nat)
    requires j < |env| && PlainEnvVar(env[j])
    ensures '{' !in EnvLine(env, j) && '}' !in EnvLine(env, j)
  {
    EnvLineText(env, j);
    EntryBraceFree(EnvLine(env, j), env[j].key, env[j].value, if j < |env| - 1 then "," else "");
  }

  lemma EntryBraceFree(line: string, key: string, value: string, comma: string)
    requires line == "        " + FieldText(key, value) + comma + "\n"
    requires '{' !in key + value + comma && '}' !in key + value + comma
    ensures '{' !in line && '}' !in line
  {
  }

  lemma NotInAppend(a: string, b: string, ab: string)
    requires ab == a + b && '{' !in a && '}' !in a && '{' !in b && '}' !in b
    ensures '{' !in ab && '}' !in ab
  {
  }

  /** With no brace before the closing one at `end`, the scan that starts at
      depth one stops just after it. */
  lemma {:induction false} ScanBraceFree(s: string, pos: nat, end: nat)
    requires pos <= end < |s| && s[end] == '}'
    requires forall j :: pos <= j < end ==> s[j] != '{' && s[j] != '}'
    ensures ScanBraces(s, pos, 1) == (end + 1, 0)
    decreases end - pos
  {
    if pos < end {
      ScanBraceFree(s, pos + 1, end);
    }
  }

  /** The env object's body is found after the first `"env"` key, up to the
      brace that closes it. */
  lemma EnvContentOf(pre: string, body: string, post: string)
    requires !Contains(pre + "\"env", "\"env\"") && '{' !in body && '}' !in body
    ensures EnvContent(pre + "\"env\": {" + body + "}" + post) == Some(body)
  {
    var z := "{" + body + "}" + post;
    var content := pre + "\"env\": {" + body + "}" + post;
    EnvObjectLayout(pre, body, post, z, content);
    EnvKeyFirst(pre, ": " + z);
    EnvColonAndBrace(pre + "\"env\"", z);
    EnvContentFound(content, |pre|, |pre| + 5, |pre| + 7, body);
  }

  lemma EnvObjectLayout(pre: string, body: string, post: string, z: string, content: string)
    requires z == "{" + body + "}" + post && content == pre + "\"env\": {" + body + "}" + post
    ensures content == pre + "\"env\"" + (": " + z) && |content| == |pre| + 9 + |body| + |post|
    ensures content[|pre| + 8..|pre| + 8 + |body|] == body && content[|pre| + 8 + |body|] == '}'
  {
  }

  lemma EnvKeyFirst(pre: string, rest: string)
    requires !Contains(pre + "\"env", "\"env\"")
    ensures IndexOf(pre + "\"env\"" + rest, "\"env\"", 0) == |pre|
  {
    assert "\"env" + "\"" == "\"env\"";
    FirstOccurrence(pre, "\"env", "\"", rest);
  }

  lemma EnvColonAndBrace(x: string, z: string)
    requires |x| >= 5 && x[|x| - 5..] == "\"env\"" && |z| > 0 && z[0] == '{'
    ensures IndexOfChar(x + (": " + z), ':', |x| - 5) == |x|
    ensures IndexOfChar(x + (": " + z), '{', |x|) == |x| + 2
  {
    var x' := x[..|x| - 5];
    assert x + (": " + z) == x' + "\"env\"" + (": " + z);
    IndexOfCharAfter(x', "\"env\"", ": " + z, ':');
    assert x + (": " + z) == x + ": " + z;
    IndexOfCharAfter(x, ": ", z, '{');
  }

  lemma EnvContentFound(content: string, envIndex: nat, colon: nat, brace: nat, body: string)
    requires IndexOf(content, "\"env\"", 0) == envIndex && IndexOfChar(content, ':', envIndex) == colon
    requires IndexOfChar(content, '{', colon) == brace && brace + 1 + |body| < |content|
    requires content[brace + 1..brace + 1 + |body|] == body && content[brace + 1 + |body|] == '}'
    requires '{' !in body && '}' !in body
    ensures EnvContent(content) == Some(body)
  {
    var b := brace + 1;
    forall j | b <= j < b + |body|
      ensures content[j] != '{' && content[j] != '}'
    {
      assert content[j] == body[j - b] && body[j - b] in body;
    }
    ScanBraceFree(content, b, b + |body|);
  }

  /** The env object the configuration writer lays out for plain variables
      reads back as those variables, in order, wherever it sits after text
      holding no earlier `"env"` key; `indent` is the white space the writer
      puts before the closing brace. */
  lemma EnvObjectRoundTrip(pre: string, env: seq<EnvironmentVariable>, indent: string, post: string)
    requires !Contains(pre + "\"env", "\"env\"")
    requires forall i :: 0 <= i < |env| ==> PlainEnvVar(env[i])
    requires IsBlank(indent) && '\n' !in indent
    ensures EnvVars(pre + "\"env\": {" + ("\n" + EnvLines(env, |env|) + indent) + "}" + post) == env
  {
    var lines := EnvLines(env, |env|);
    var body := "\n" + lines + indent;
    EnvLinesBraceFree(env, |env|);
    EnvLinesReadBack(env, indent);
    ReadBlank(indent);
    EnvBodyReadBack(env, lines, indent, body);
    EnvContentOf(pre, body, post);
  }

  lemma EnvBodyReadBack(env: seq<EnvironmentVariable>, lines: string, indent: string, body: string)
    requires ReadEnv(lines + indent) == env + ReadEnv(indent) && ReadEnv(indent) == []
    requires body == "\n" + lines + indent && IsBlank(indent)
    requires '{' !in lines && '}' !in lines
    ensures ReadEnv(body) == env && '{' !in body && '}' !in body
  {
    assert body == "\n" + (lines + indent);
    ReadEnvNewline(lines + indent);
    BlankBraceFree(indent);
  }

  lemma BlankBraceFree(indent: string)
    requires IsBlank(indent)
    ensures '{' !in indent && '}' !in indent
  {
    forall k | 0 <= k < |indent|
      ensures indent[k] != '{' && indent[k] != '}'
    {
      assert IsWhiteSpace(indent[k]);
    }
  }

  /** White space without a line break reads as nothing. */
  lemma ReadBlank(indent: string)
    requires IsBlank(indent) && '\n' !in indent
    ensures ReadEnv(indent) == []
  {
    forall k | 0 <= k < |indent|
      ensures indent[k] !in EnvSeparators
    {
      assert IsWhiteSpace(indent[k]) && indent[k] in indent;
    }
    SplitAnyNone(indent, EnvSeparators);
    TrimSpec(indent);
  }

  /** A line break in front of the text adds nothing to what is read. */
  lemma ReadEnvNewline(t: string)
    ensures ReadEnv("\n" + t) == ReadEnv(t)
  {
    assert "\n" + t == [] + ['\n'] + t;
    ReadEnvAt([], '\n', t);
    assert NonEmpty([""]) == [];
  }





  /** CreateServerFromConfig: an enabled stdio server named `name` whose
      command, args and environment come from its configuration text; every
      other field keeps the record's initial value. */
  function ServerFromConfig(name: string, config: string): (r: ServerConfig)
    ensures r.name == name && r.enabled && r.transportType == Stdio
  {
    NewServer().(name := name, enabled := true, transportType := Stdio,
                 command := StringValue(config, "command"),
                 args := ArrayValue(config, "args"),
                 environmentVariables := EnvVars(config))
  }

  // ---------------------------------------------------------------------------
  // ParseServerDefinitions

  /** The positions one turn of the loop looks up from `index`: the quotes
      around the next name, the colon after it and the brace after that; None
      when any of them is missing. */
  function DefinitionAt(c: string, index: nat): (r: Option<(nat, nat, nat, nat)>)
    requires index < |c|
    ensures r.Some? ==> var (nameStart, nameEnd, colon, brace) := r.value;
      index <= nameStart < nameEnd < colon < brace < |c|
      && c[nameStart] == '"' && c[nameEnd] == '"' && '"' !in c[nameStart + 1..nameEnd]
      && c[colon] == ':' && c[brace] == '{'
  {
    var nameStart := IndexOfChar(c, '"', index);
    if nameStart < 0 then None
    else
      var nameEnd := IndexOfChar(c, '"', nameStart + 1);
      IndexOfCharFirst(c, '"', nameStart + 1);
      if nameEnd < 0 then None
      else
        var colon := IndexOfChar(c, ':', nameEnd);
        if colon < 0 then None
        else
          var brace := IndexOfChar(c, '{', colon);
          if brace < 0 then None
          else Some((nameStart, nameEnd, colon, brace))
  }

  /** One turn of ParseServerDefinitions' loop at `index`: None when it stops
      (no further quoted name, colon or brace); otherwise the definition read
      in this turn, if any, and the index of the next turn. */
  function NextDefinition(c: string, index: nat): (r: Option<(Option<(string, string)>, nat)>)
    requires index < |c|
    ensures r.Some? ==> index < r.value.1 <= |c|
    ensures r.Some? && r.value.0.Some? ==> '"' !in r.value.0.value.0
  {
    match DefinitionAt(c, index)
    case None => None
    case Some((nameStart, nameEnd, colon, brace)) => Some(Definition(c, nameStart, nameEnd, colon, brace))
  }

  /** The rest of the turn once the name, colon and brace are found: a name
      followed by anything but white space before its colon is skipped, and
      the scan resumes just after the name; otherwise the braces are matched
      and, when they close, the name and the text between them are read. */
  function Definition(c: string, nameStart: nat, nameEnd: nat, colon: nat, brace: nat): (r: (Option<(string, string)>, nat))
    requires nameStart < nameEnd < colon < brace < |c| && '"' !in c[nameStart + 1..nameEnd]
    ensures nameEnd < r.1 <= |c|
    ensures r.0.Some? ==> '"' !in r.0.value.0
  {
    var gap := c[nameEnd + 1..colon];
    if Trim(gap) != "" then (None, nameEnd + 1)
    else
      var scan := ScanBraces(c, brace + 1, 1);
      var end := scan.0;
      if scan.1 == 0 then (Some((c[nameStart + 1..nameEnd], c[brace + 1..end - 1])), end)
      else (None, end)
  }

  /** The server a definition read by one turn adds, if any. */
  function ServerOf(d: Option<(string, string)>): (r: seq<ServerConfig>)
    ensures |r| <= 1
  {
    match d
    case None => []
    case Some((name, config)) => [ServerFromConfig(name, config)]
  }

  /** The servers ParseServerDefinitions appends when its scan is at `index`. */
  function ServerDefs(c: string, index: nat): (r: seq<ServerConfig>)
    ensures forall s :: s in r ==> s.enabled && s.transportType == Stdio && '"' !in s.name
    decreases |c| - index
  {
    if index >= |c| then []
    else match NextDefinition(c, index)
      case None => []
      case Some((d, next)) => ServerOf(d) + ServerDefs(c, next)
  }

  lemma ServerDefsStep(c: string, index: nat)
    requires index < |c|
    ensures NextDefinition(c, index).None? ==> ServerDefs(c, index) == []
    ensures NextDefinition(c, index).Some? ==>
      ServerDefs(c, index) == ServerOf(NextDefinition(c, index).value.0) + ServerDefs(c, NextDefinition(c, index).value.1)
  {
  }

  /** The servers the whole reader yields for a JSON text, or None when it
      reports failure. */
  function ParsedServers(json: string): (r: Option<seq<ServerConfig>>)
    ensures r.Some? <==> ServersContent(json).Some?
  {
    match ServersContent(json)
    case None => None
    case Some(inner) => Some(ServerDefs(inner, 0))
  }
}
