/** The two text helpers of the agent window that shape JSON for display:
    the one-line preview and the re-indenting pretty printer
    (AIAgentWindow.GetJsonPreview and AIAgentWindow.FormatJsonString). */
module AgentWindowFormat {
  import opened Text

  /** GetJsonPreview: short texts unchanged, longer ones cut to 47 characters
      followed by "...". */
  function JsonPreview(json: string): (r: string)
    ensures |r| <= 50
    ensures |json| <= 50 ==> r == json
    ensures |json| > 50 ==> |r| == 50 && r[..47] == json[..47] && EndsWith(r, "...")
  {
    if json == "" then ""
    else if |json| > 50 then json[..47] + "..."
    else json
  }

  /** The chained String.Replace calls that put line breaks around braces,
      brackets and separators. */
  function Expand(s: string): string
  {
    var a := ReplaceAll(s, "{'", "{\n  '");
    var b := ReplaceAll(a, "\":", "\": ");
    var c := ReplaceAll(b, "',", "',\n  ");
    var d := ReplaceAll(c, "\",", "\",\n  ");
    var e := ReplaceAll(d, "}", "\n}");
    var f := ReplaceAll(e, "[{", "[\n  {");
    var g := ReplaceAll(f, "}]", "}\n]");
    ReplaceAll(g, "}, {", "},\n  {")
  }

  /** The text written so far and the current indentation level. */
  datatype Layout = Layout(text: string, indent: nat)

  predicate Closes(line: string) {
    StartsWith(line, "}") || StartsWith(line, "]")
  }

  predicate Opens(line: string) {
    EndsWith(line, "{") || EndsWith(line, "[")
  }

  /** One iteration of the indentation loop: blank lines are skipped; a line
      starting with a closer is outdented (never below zero) and a line ending
      with an opener indents the lines after it. */
  function FormatLine(acc: Layout, line: string): Layout
  {
    var t := Trim(line);
    if t == "" then acc
    else
      var indent := if Closes(t) then (if acc.indent == 0 then 0 else acc.indent - 1) else acc.indent;
      Layout(acc.text + Spaces(indent * 2) + t + "\n", if Opens(t) then indent + 1 else indent)
  }

  /** The indentation loop over the first lines, from an empty buffer at
      level 0. */
  function FormatLines(lines: seq<string>): Layout
    decreases |lines|
  {
    if lines == [] then Layout("", 0)
    else FormatLine(FormatLines(lines[..|lines| - 1]), lines[|lines| - 1])
  }

  lemma FormatLinesStep(lines: seq<string>, i: nat)
    requires i < |lines|
    ensures FormatLines(lines[..i + 1]) == FormatLine(FormatLines(lines[..i]), lines[i])
  {
    assert lines[..i + 1][..i] == lines[..i];
  }

  /** FormatJsonString: expand, split into lines, re-indent, trim the end. */
  function FormatJson(json: string): string
  {
    if json == "" then "" else TrimEnd(FormatLines(Split(Expand(json), '\n')).text)
  }

  /** The body of FormatJsonString's foreach loop: one line of the buffer. */
  method IndentLine(text: string, indent: nat, line: string) returns (result: string, indentLevel: nat)
    ensures Layout(result, indentLevel) == FormatLine(Layout(text, indent), line)
  {
    result, indentLevel := text, indent;
    var trimmedLine := Trim(line);
    if trimmedLine != "" {
      if Closes(trimmedLine) {
        indentLevel := if indentLevel == 0 then 0 else indentLevel - 1;
      }
      result := result + Spaces(indentLevel * 2) + trimmedLine + "\n";
      if Opens(trimmedLine) {
        indentLevel := indentLevel + 1;
      }
    }
  }

  /** FormatJsonString, with its foreach loop over the lines. */
  method FormatJsonString(jsonContent: string) returns (r: string)
    ensures r == FormatJson(jsonContent)
  {
    if jsonContent == "" {
      return "";
    }
    var formatted := Expand(jsonContent);
    var lines := Split(formatted, '\n');
    var result := "";
    var indentLevel: nat := 0;
    var i := 0;
    while i < |lines|
      invariant 0 <= i <= |lines|
      invariant Layout(result, indentLevel) == FormatLines(lines[..i])
    {
      result, indentLevel := IndentLine(result, indentLevel, lines[i]);
      FormatLinesStep(lines, i);
      i := i + 1;
    }
    TakeAll(lines);
    assert result == FormatLines(lines).text;
    r := TrimEnd(result);
  }

  /** Each replacement of the chain only changes white space. */
  lemma Replace1KeepsText(s: string)
    ensures NonWhite(ReplaceAll(s, "{'", "{\n  '")) == NonWhite(s)
  {
    NonWhiteReplaceAll(s, "{'", "{\n  '");
  }

  lemma Replace2KeepsText(s: string)
    ensures NonWhite(ReplaceAll(s, "\":", "\": ")) == NonWhite(s)
  {
    NonWhiteReplaceAll(s, "\":", "\": ");
  }

  lemma Replace3KeepsText(s: string)
    ensures NonWhite(ReplaceAll(s, "',", "',\n  ")) == NonWhite(s)
  {
    NonWhiteReplaceAll(s, "',", "',\n  ");
  }

  lemma Replace4KeepsText(s: string)
    ensures NonWhite(ReplaceAll(s, "\",", "\",\n  ")) == NonWhite(s)
  {
    NonWhiteReplaceAll(s, "\",", "\",\n  ");
  }

  lemma Replace5KeepsText(s: string)
    ensures NonWhite(ReplaceAll(s, "}", "\n}")) == NonWhite(s)
  {
    NonWhiteReplaceAll(s, "}", "\n}");
  }

  lemma Replace6KeepsText(s: string)
    ensures NonWhite(ReplaceAll(s, "[{", "[\n  {")) == NonWhite(s)
  {
    NonWhiteReplaceAll(s, "[{", "[\n  {");
  }

  lemma Replace7KeepsText(s: string)
    ensures NonWhite(ReplaceAll(s, "}]", "}\n]")) == NonWhite(s)
  {
    NonWhiteReplaceAll(s, "}]", "}\n]");
  }

  lemma Replace8KeepsText(s: string)
    ensures NonWhite(ReplaceAll(s, "}, {", "},\n  {")) == NonWhite(s)
  {
    NonWhiteReplaceAll(s, "}, {", "},\n  {");
  }

  /** The replacements only add white space. */
  lemma ExpandKeepsText(s: string)
    ensures NonWhite(Expand(s)) == NonWhite(s)
  {
    var a := ReplaceAll(s, "{'", "{\n  '");
    var b := ReplaceAll(a, "\":", "\": ");
    var c := ReplaceAll(b, "',", "',\n  ");
    var d := ReplaceAll(c, "\",", "\",\n  ");
    var e := ReplaceAll(d, "}", "\n}");
    var f := ReplaceAll(e, "[{", "[\n  {");
    var g := ReplaceAll(f, "}]", "}\n]");
    Replace1KeepsText(s);
    Replace2KeepsText(a);
    Replace3KeepsText(b);
    Replace4KeepsText(c);
    Replace5KeepsText(d);
    Replace6KeepsText(e);
    Replace7KeepsText(f);
    Replace8KeepsText(g);
  }

  /** One loop step keeps the non-white characters of the line. */
  lemma FormatLineKeepsText(acc: Layout, line: string)
    ensures NonWhite(FormatLine(acc, line).text) == NonWhite(acc.text) + NonWhite(line)
  {
    var t := Trim(line);
    NonWhiteTrim(line);
    if t == "" {
      assert NonWhite(line) == [];
    } else {
      var indent := if Closes(t) then (if acc.indent == 0 then 0 else acc.indent - 1) else acc.indent;
      var pad := Spaces(indent * 2);
      var a := acc.text;
      assert FormatLine(acc, line).text == a + pad + t + "\n";
      assert NonWhite("\n") == [] by {
        NonWhiteBlank("\n");
      }
      NonWhiteBlank(pad);
      NonWhiteAppend(a + pad + t, "\n");
      NonWhiteAppend(a + pad, t);
      NonWhiteAppend(a, pad);
      AppendEmpty(NonWhite(a));
      AppendEmpty(NonWhite(a + pad + t));
    }
  }

  /** Joining one more line adds its non-white characters. */
  lemma JoinLastKeepsText(lines: seq<string>, last: string)
    ensures NonWhite(Join(lines + [last], '\n')) == NonWhite(Join(lines, '\n')) + NonWhite(last)
  {
    if lines == [] {
      assert lines + [last] == [last];
    } else {
      JoinSnoc(lines, last, '\n');
      NonWhiteAppend(Join(lines, '\n') + ['\n'], last);
      NonWhiteAppend(Join(lines, '\n'), ['\n']);
    }
  }

  /** The indentation loop keeps every non-white character of the lines, in
      order, and adds only white space. */
  lemma {:induction false} FormatLinesKeepsText(lines: seq<string>)
    ensures NonWhite(FormatLines(lines).text) == NonWhite(Join(lines, '\n'))
    decreases |lines|
  {
    if lines != [] {
      var init := lines[..|lines| - 1];
      var last := lines[|lines| - 1];
      FormatLinesKeepsText(init);
      FormatLineKeepsText(FormatLines(init), last);
      assert lines == init + [last];
      JoinLastKeepsText(init, last);
    }
  }

  /** FormatJsonString only moves white space around: the non-white
      characters of the output are exactly those of the input. */
  lemma FormatJsonKeepsText(json: string)
    ensures NonWhite(FormatJson(json)) == NonWhite(json)
  {
    if json != "" {
      var e := Expand(json);
      ExpandKeepsText(json);
      JoinSplit(e, '\n');
      FormatLinesKeepsText(Split(e, '\n'));
      NonWhiteTrimEnd(FormatLines(Split(e, '\n')).text);
    }
  }

  /** The first line the loop writes is never indented, so the buffer is
      empty at level 0 or starts with a non-white character. */
  lemma {:induction false} FormatLinesStart(lines: seq<string>)
    ensures var acc := FormatLines(lines);
      (acc.text == "" && acc.indent == 0) || (acc.text != "" && !IsWhiteSpace(acc.text[0]))
    decreases |lines|
  {
    if lines != [] {
      var init := lines[..|lines| - 1];
      FormatLinesStart(init);
      var t := Trim(lines[|lines| - 1]);
      TrimSpec(lines[|lines| - 1]);
      if t != "" && FormatLines(init).text == "" {
        assert FormatLines(lines).text[0] == t[0];
      }
    }
  }

  /** The formatted text has no white space at either end. */
  lemma FormatJsonTrimmed(json: string)
    ensures var r := FormatJson(json);
      r == "" || (!IsWhiteSpace(r[0]) && !IsWhiteSpace(r[|r| - 1]))
  {
    if json != "" {
      var text := FormatLines(Split(Expand(json), '\n')).text;
      FormatLinesStart(Split(Expand(json), '\n'));
      TrimEndSpec(text);
      var r := TrimEnd(text);
      if r != "" {
        assert r[0] == text[0];
      }
    }
  }
}
