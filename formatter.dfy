/**
 * The markdown-to-HTML rewrite applied to generated text before it is shown:
 * bold (`**x**`), then level-1, level-2 and level-3 headings, then line
 * breaks. Each stage is one global regular-expression replacement in the
 * source; here each is a scanner over the string with the regular
 * expression's exact matching rules.
 */
module Formatter {
  import opened Wrappers
  import opened Text
  import opened Lists

  // ---------------------------------------------------------------------------
  // Stage 1: /\*\*(.*?)\*\*/g  ->  <strong>$1</strong>

  /** A closing `**` at `k` can end a bold opened just before `j`: no line terminator lies in between. */
  predicate ClosesAt(s: string, j: nat, k: nat) {
    && j <= k && k + 2 <= |s|
    && s[k] == '*' && s[k + 1] == '*'
    && forall m :: j <= m < k ==> !IsLineTerminator(s[m])
  }

  /** Where the lazy `(.*?)` started at `j` stops: the nearest reachable closing `**`. */
  function FindClose(s: string, j: nat): (r: Option<nat>)
    requires j <= |s|
    decreases |s| - j
    ensures r.Some? ==> ClosesAt(s, j, r.value)
    ensures r.Some? ==> forall k :: j <= k < r.value ==> !ClosesAt(s, j, k)
    ensures r.None? ==> forall k :: !ClosesAt(s, j, k)
  {
    if j + 2 > |s| then None
    else if s[j] == '*' && s[j + 1] == '*' then Some(j)
    else if IsLineTerminator(s[j]) then None
    else
      var r := FindClose(s, j + 1);
      assert forall k :: ClosesAt(s, j, k) ==> k == j || ClosesAt(s, j + 1, k);
      r
  }

  function Bold(s: string): string
    decreases |s|
  {
    if |s| < 2 then s
    else if s[0] == '*' && s[1] == '*' && FindClose(s, 2).Some? then
      var k := FindClose(s, 2).value;
      Strong(s[2..k]) + Bold(s[k + 2..])
    else [s[0]] + Bold(s[1..])
  }

  function LineTerminators(s: string): string {
    Filter(s, IsLineTerminator)
  }

  /** Text on a single line: no line terminator anywhere in it. */
  predicate OneLine(s: string) {
    forall i :: 0 <= i < |s| ==> !IsLineTerminator(s[i])
  }

  lemma OneLineAppend(a: string, b: string)
    requires OneLine(a) && OneLine(b)
    ensures OneLine(a + b)
  {
    assert forall i :: |a| <= i < |a + b| ==> (a + b)[i] == b[i - |a|];
  }

  lemma {:induction false} OneLineHasNoTerminators(s: string)
    requires OneLine(s)
    ensures LineTerminators(s) == []
  {
    if s != [] {
      OneLineHasNoTerminators(s[1..]);
    }
  }

  /** Bold never spans, adds or removes a line: the line terminators come out as they went in. */
  lemma {:induction false} BoldKeepsLines(s: string)
    ensures LineTerminators(Bold(s)) == LineTerminators(s)
    decreases |s|
  {
    if |s| < 2 {
    } else if s[0] == '*' && s[1] == '*' && FindClose(s, 2).Some? {
      var k := FindClose(s, 2).value;
      BoldKeepsLines(s[k + 2..]);
      BoldMatchKeepsLines(s, k);
    } else {
      BoldKeepsLines(s[1..]);
      FilterAppend([s[0]], Bold(s[1..]), IsLineTerminator);
      assert s == [s[0]] + s[1..];
      FilterAppend([s[0]], s[1..], IsLineTerminator);
    }
  }

  /** The matched `**x**` and its `<strong>x</strong>` both lie on one line. */
  lemma BoldMatchKeepsLines(s: string, k: nat)
    requires ClosesAt(s, 2, k) && s[0] == '*' && s[1] == '*'
    requires LineTerminators(Bold(s[k + 2..])) == LineTerminators(s[k + 2..])
    ensures LineTerminators(Strong(s[2..k]) + Bold(s[k + 2..])) == LineTerminators(s)
  {
    var rest := s[k + 2..];
    MatchOffLine(s, k);
    FilterAppend(Strong(s[2..k]), Bold(rest), IsLineTerminator);
    assert s == s[..k + 2] + rest;
    FilterAppend(s[..k + 2], rest, IsLineTerminator);
  }

  /** Neither the matched `**x**` nor its replacement holds a line terminator. */
  lemma MatchOffLine(s: string, k: nat)
    requires ClosesAt(s, 2, k) && s[0] == '*' && s[1] == '*'
    ensures LineTerminators(s[..k + 2]) == []
    ensures LineTerminators(Strong(s[2..k])) == []
  {
    var inner := s[2..k];
    assert OneLine(inner);
    StrongOneLine(inner);
    OneLineHasNoTerminators(Strong(inner));
    assert s[..k + 2] == "**" + inner + "**";
    OneLineAppend("**", inner);
    OneLineAppend("**" + inner, "**");
    OneLineHasNoTerminators(s[..k + 2]);
  }

  /** Text without an asterisk has nothing to embolden. */
  lemma {:induction false} BoldWithoutAsterisk(s: string)
    requires '*' !in s
    ensures Bold(s) == s
    decreases |s|
  {
    if |s| >= 2 {
      BoldWithoutAsterisk(s[1..]);
    }
  }

  /** A character other than `*` is copied and the scan moves on by one. */
  lemma BoldPlainStep(s: string)
    requires s != [] && s[0] != '*'
    ensures Bold(s) == [s[0]] + Bold(s[1..])
  {
    if |s| < 2 {
      assert s == [s[0]];
    }
  }

  /** A prefix without asterisks passes through, and the scan resumes after it. */
  lemma {:induction false} BoldPlainPrefix(a: string, b: string)
    requires '*' !in a
    ensures Bold(a + b) == a + Bold(b)
    decreases |a|
  {
    if a == [] {
      assert a + b == b;
    } else {
      assert '*' !in a[1..] by {
        assert forall i :: 0 <= i < |a[1..]| ==> a[1..][i] == a[i + 1];
      }
      calc {
        Bold(a + b);
        == { BoldPlainStep(a + b); assert (a + b)[1..] == a[1..] + b; }
        [a[0]] + Bold(a[1..] + b);
        == { BoldPlainPrefix(a[1..], b); }
        [a[0]] + (a[1..] + Bold(b));
        == { assert a == [a[0]] + a[1..]; }
        a + Bold(b);
      }
    }
  }

  /** The text between two `**` on one line: no line terminator, no `**`, and no trailing `*`. */
  predicate BoldBody(x: string) {
    && OneLine(x)
    && (forall i :: 0 <= i < |x| - 1 ==> !(x[i] == '*' && x[i + 1] == '*'))
    && (x == [] || x[|x| - 1] != '*')
  }

  /**
   * A single-line `**x**` becomes `<strong>x</strong>`. (If `x` ended in `*`,
   * the lazy match would close one character early and leave a `*` behind.)
   */
  lemma BoldSpan(x: string)
    requires BoldBody(x)
    ensures Bold("**" + x + "**") == Strong(x)
  {
    var s := "**" + x + "**";
    var k := |x| + 2;
    assert ClosesAt(s, 2, k);
    forall m | 2 <= m < k ensures !ClosesAt(s, 2, m) {
      if m + 1 < k {
        assert s[m] == x[m - 2] && s[m + 1] == x[m - 1];
      } else {
        assert s[m] == x[|x| - 1];
      }
    }
    assert FindClose(s, 2) == Some(k);
    assert s[2..k] == x;
    assert s[k + 2..] == [];
  }

  // ---------------------------------------------------------------------------
  // Stages 2-4: /^# (.*$)/gm, /^## (.*$)/gm, /^### (.*$)/gm

  /** The end of the first line: the index of the first line terminator, or the length. */
  function LineEnd(s: string): (k: nat)
    ensures k <= |s|
    ensures forall i :: 0 <= i < k ==> !IsLineTerminator(s[i])
    ensures k < |s| ==> IsLineTerminator(s[k])
  {
    if s == [] || IsLineTerminator(s[0]) then 0 else 1 + LineEnd(s[1..])
  }

  /** One line (no terminator) under `^marker(.*$)`: wrapped in the tags when it starts with the marker. */
  function HeadingLine(line: string, marker: string, open: string, close: string): string {
    if StartsWith(line, marker) then open + line[|marker|..] + close else line
  }

  /** A multi-line global replacement of `^marker(.*$)`, one line at a time; the terminators stay. */
  function Heading(s: string, marker: string, open: string, close: string): string
    decreases |s|
  {
    var k := LineEnd(s);
    var line := HeadingLine(s[..k], marker, open, close);
    if k == |s| then line else line + [s[k]] + Heading(s[k + 1..], marker, open, close)
  }

  /** Text on one line is rewritten as that line alone. */
  lemma HeadingSingleLine(s: string, marker: string, open: string, close: string)
    requires OneLine(s)
    ensures Heading(s, marker, open, close) == HeadingLine(s, marker, open, close)
  {
    assert LineEnd(s) == |s|;
    assert s[..|s|] == s;
  }

  /** Without any `#`, no line can start with a heading marker, and the text is unchanged. */
  lemma {:induction false} HeadingWithoutHash(s: string, marker: string, open: string, close: string)
    requires marker != [] && marker[0] == '#'
    requires '#' !in s
    ensures Heading(s, marker, open, close) == s
    decreases |s|
  {
    var k := LineEnd(s);
    if k < |s| {
      HeadingWithoutHash(s[k + 1..], marker, open, close);
      assert s == s[..k] + [s[k]] + s[k + 1..];
    } else {
      assert s[..k] == s;
    }
  }

  // ---------------------------------------------------------------------------
  // Last stage: /\n/g  ->  br

  /** Every `\n` replaced by `br`; all other characters kept in order. */
  function ReplaceNewlines(s: string, br: string): (r: string)
    ensures '\n' !in br ==> '\n' !in r
  {
    if s == [] then []
    else if s[0] == '\n' then br + ReplaceNewlines(s[1..], br)
    else [s[0]] + ReplaceNewlines(s[1..], br)
  }

  /** The rewrite works piecewise: rewriting a concatenation rewrites each part. */
  lemma {:induction false} ReplaceNewlinesAppend(a: string, b: string, br: string)
    ensures ReplaceNewlines(a + b, br) == ReplaceNewlines(a, br) + ReplaceNewlines(b, br)
  {
    if a == [] {
      assert a + b == b;
    } else {
      var head := if a[0] == '\n' then br else [a[0]];
      calc {
        ReplaceNewlines(a + b, br);
        == { assert (a + b)[0] == a[0]; assert (a + b)[1..] == a[1..] + b; }
        head + ReplaceNewlines(a[1..] + b, br);
        == { ReplaceNewlinesAppend(a[1..], b, br); }
        head + (ReplaceNewlines(a[1..], br) + ReplaceNewlines(b, br));
      }
    }
  }

  /** Text without `\n` is unchanged. */
  lemma {:induction false} ReplaceNewlinesPlain(s: string, br: string)
    ensures '\n' !in s ==> ReplaceNewlines(s, br) == s
  {
    if s != [] && '\n' !in s {
      ReplaceNewlinesPlain(s[1..], br);
    }
  }

  /** Each `\n` grows the text by the width of `br` less the one character it replaces. */
  lemma {:induction false} ReplaceNewlinesLength(s: string, br: string)
    ensures |ReplaceNewlines(s, br)| == |s| + (|br| - 1) * multiset(s)['\n']
  {
    if s != [] {
      ReplaceNewlinesLength(s[1..], br);
      NewlineCountStep(s);
      var c := multiset(s[1..])['\n'];
      if s[0] == '\n' {
        assert (|br| - 1) * (c + 1) == (|br| - 1) * c + (|br| - 1);
      }
    }
  }

  /** The `\n` count of a non-empty text: its head's contribution plus the tail's. */
  lemma NewlineCountStep(s: string)
    requires s != []
    ensures multiset(s)['\n'] == (if s[0] == '\n' then 1 else 0) + multiset(s[1..])['\n']
  {
    assert s == [s[0]] + s[1..];
    assert multiset(s) == multiset([s[0]]) + multiset(s[1..]);
  }

  // ---------------------------------------------------------------------------
  // The pipelines

  /** `formatBlogContent`: bold first, then headings of level 1, 2 and 3, then `<br>`. */
  function FormatBlogContent(content: string): (r: string)
    ensures '\n' !in r
  {
    var bolded := Bold(content);
    var h1 := Heading(bolded, "# ", "<h1>", "</h1>");
    var h2 := Heading(h1, "## ", "<h2>", "</h2>");
    var h3 := Heading(h2, "### ", "<h3>", "</h3>");
    ReplaceNewlines(h3, "<br>")
  }

  /** The render-time rewrite of a generated email: every `\n` becomes `<br />`. */
  function RenderEmail(email: string): (r: string)
    ensures '\n' !in r
    ensures |r| == |email| + 5 * multiset(email)['\n']
    ensures '\n' !in email ==> r == email
  {
    ReplaceNewlinesLength(email, "<br />");
    ReplaceNewlinesPlain(email, "<br />");
    ReplaceNewlines(email, "<br />")
  }

  /** Text with no `*`, `#` or `\n` is shown exactly as it is. */
  lemma PlainTextUnchanged(content: string)
    requires '*' !in content && '#' !in content && '\n' !in content
    ensures FormatBlogContent(content) == content
  {
    BoldWithoutAsterisk(content);
    HeadingWithoutHash(content, "# ", "<h1>", "</h1>");
    HeadingWithoutHash(content, "## ", "<h2>", "</h2>");
    HeadingWithoutHash(content, "### ", "<h3>", "</h3>");
    ReplaceNewlinesPlain(content, "<br>");
  }

  /** The single-line rendering of `**x**`. */
  function Strong(x: string): string {
    "<strong>" + x + "</strong>"
  }

  lemma StrongOneLine(x: string)
    requires OneLine(x)
    ensures OneLine(Strong(x)) && Strong(x)[0] == '<'
  {
    OneLineAppend("<strong>", x);
    OneLineAppend("<strong>" + x, "</strong>");
  }

  /** A line starting with `<` passes the three heading stages and the line-break stage unchanged. */
  lemma StagesKeepTaggedLine(s: string)
    requires OneLine(s) && s != [] && s[0] == '<'
    ensures Heading(s, "# ", "<h1>", "</h1>") == s
    ensures Heading(s, "## ", "<h2>", "</h2>") == s
    ensures Heading(s, "### ", "<h3>", "</h3>") == s
    ensures ReplaceNewlines(s, "<br>") == s
  {
    HeadingSkipsLine(s, "# ", "<h1>", "</h1>");
    HeadingSkipsLine(s, "## ", "<h2>", "</h2>");
    HeadingSkipsLine(s, "### ", "<h3>", "</h3>");
    assert '\n' !in s by {
      assert OneLine(s);
    }
    ReplaceNewlinesPlain(s, "<br>");
  }

  /** A line whose first character differs from the marker's is left alone. */
  lemma HeadingSkipsLine(s: string, marker: string, open: string, close: string)
    requires OneLine(s) && s != [] && marker != [] && s[0] != marker[0]
    ensures Heading(s, marker, open, close) == s
  {
    HeadingSingleLine(s, marker, open, close);
    if |marker| <= |s| {
      assert s[..|marker|][0] == s[0];
    }
  }

  /** A one-line `**x**` is shown as `<strong>x</strong>`. */
  lemma FormatsBoldSpan(x: string)
    requires BoldBody(x)
    ensures FormatBlogContent("**" + x + "**") == Strong(x)
  {
    BoldSpan(x);
    StrongOneLine(x);
    StagesKeepTaggedLine(Strong(x));
    assert FormatBlogContent("**" + x + "**") == ReplaceNewlines(Heading(Heading(Heading(Bold("**" + x + "**"),
      "# ", "<h1>", "</h1>"), "## ", "<h2>", "</h2>"), "### ", "<h3>", "</h3>"), "<br>");
  }

  /** A one-line `marker body` is wrapped whole in the tags. */
  lemma HeadingWrap(marker: string, body: string, open: string, close: string)
    requires OneLine(marker) && OneLine(body)
    ensures OneLine(marker + body)
    ensures Heading(marker + body, marker, open, close) == open + body + close
  {
    var s := marker + body;
    OneLineAppend(marker, body);
    HeadingSingleLine(s, marker, open, close);
    assert s[..|marker|] == marker;
    assert s[|marker|..] == body;
  }

  /** Bold is rewritten before headings: `# **x**` is shown as `<h1><strong>x</strong></h1>`. */
  lemma BoldBeforeHeading(x: string)
    requires BoldBody(x)
    ensures FormatBlogContent("# " + ("**" + x + "**")) == "<h1>" + Strong(x) + "</h1>"
  {
    var h1 := "<h1>" + Strong(x) + "</h1>";
    BoldPlainPrefix("# ", "**" + x + "**");
    BoldSpan(x);
    StrongOneLine(x);
    HeadingWrap("# ", Strong(x), "<h1>", "</h1>");
    OneLineAppend("<h1>", Strong(x));
    OneLineAppend("<h1>" + Strong(x), "</h1>");
    StagesKeepTaggedLine(h1);
    assert FormatBlogContent("# " + ("**" + x + "**")) == ReplaceNewlines(Heading(Heading(Heading(Bold("# " + ("**" + x + "**")),
      "# ", "<h1>", "</h1>"), "## ", "<h2>", "</h2>"), "### ", "<h3>", "</h3>"), "<br>");
  }

  /**
   * The level-1 stage leaves `## ` lines alone (the second character is not a
   * space), so a one-line `## x` is shown as `<h2>x</h2>`.
   */
  lemma LevelTwoHeading(x: string)
    requires OneLine(x) && '*' !in x
    ensures FormatBlogContent("## " + x) == "<h2>" + x + "</h2>"
  {
    var s := "## " + x;
    var h2 := "<h2>" + x + "</h2>";
    BoldWithoutAsterisk(s);
    HeadingWrap("## ", x, "<h2>", "</h2>");
    HeadingSingleLine(s, "# ", "<h1>", "</h1>");
    assert s[..2] != "# " by {
      assert s[..2][1] == '#';
    }
    OneLineAppend("<h2>", x);
    OneLineAppend("<h2>" + x, "</h2>");
    StagesKeepTaggedLine(h2);
    assert FormatBlogContent(s) == ReplaceNewlines(Heading(Heading(Heading(Bold(s),
      "# ", "<h1>", "</h1>"), "## ", "<h2>", "</h2>"), "### ", "<h3>", "</h3>"), "<br>");
  }
}
