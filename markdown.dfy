/**
 * The markdown-to-HTML chain at the top of generateMockDesign: three
 * heading replacements, the bold replacement and the line-break
 * replacement, applied one after the other to the whole content.
 *
 * The first four regular expressions carry the `m` flag or contain `.`,
 * and both `^`/`$` (with `m`) and `.` stop at JavaScript line terminators,
 * so each of those replacements rewrites every line on its own and keeps
 * the terminators: that is `MapLines`. The last one turns every "\n" into
 * "<br>".
 */
module Markdown {
  import opened Text

  /** The four line-local replacements, in the order the chain applies them. */
  datatype Rule = Heading3 | Heading2 | Heading1 | Strong

  predicate StartsWith(s: string, prefix: string)
  {
    |prefix| <= |s| && s[..|prefix|] == prefix
  }

  /** The opening and closing tags of an element. */
  function Open(name: string): string { "<" + name + ">" }
  function Close(name: string): string { "</" + name + ">" }

  /** A heading replacement (`^<marker>(.*$)` into `<name>$1</name>`, flags g and m) on one line. */
  function Heading(line: string, marker: string, name: string): string
  {
    if StartsWith(line, marker) then Open(name) + line[|marker|..] + Close(name) else line
  }

  // The bold replacement (a lazy group between two "**") on one line: at a
  // "**" the lazy group ends at the first "**" after it; when there is
  // none the match fails there and the search moves on by one character.
  function Bold(s: string): string
    decreases |s|
  {
    if |s| == 0 then ""
    else if StartsWith(s, "**") && IndexOf(s[2..], "**").Some? then
      var j := IndexOf(s[2..], "**").value;
      Open("strong") + s[2..2 + j] + Close("strong") + Bold(s[2 + j + 2..])
    else [s[0]] + Bold(s[1..])
  }

  function Apply(r: Rule, line: string): string
  {
    match r
    case Heading3 => Heading(line, "### ", "h3")
    case Heading2 => Heading(line, "## ", "h2")
    case Heading1 => Heading(line, "# ", "h1")
    case Strong => Bold(line)
  }

  predicate OneLine(s: string)
  {
    forall k :: 0 <= k < |s| ==> !IsLineTerminator(s[k])
  }

  /** The index of the first line terminator, if any. */
  function FirstTerminator(s: string): (r: Option<nat>)
    ensures r.Some? ==> r.value < |s| && IsLineTerminator(s[r.value]) && OneLine(s[..r.value])
    ensures r.None? <==> OneLine(s)
    decreases |s|
  {
    if |s| == 0 then None
    else if IsLineTerminator(s[0]) then Some(0)
    else
      match FirstTerminator(s[1..])
      case None => None
      case Some(k) =>
        assert s[..k + 1] == [s[0]] + s[1..][..k];
        Some(k + 1)
  }

  /** One replacement of the chain: the rule applied to every line, terminators kept. */
  function MapLines(r: Rule, s: string): string
    decreases |s|
  {
    match FirstTerminator(s)
    case None => Apply(r, s)
    case Some(i) => Apply(r, s[..i]) + [s[i]] + MapLines(r, s[i + 1..])
  }

  /** The last replacement of the chain: every "\n" becomes "<br>". */
  function ReplaceNewlines(s: string): (r: string)
    ensures '\n' !in r
    ensures |r| == |s| + 3 * multiset(s)['\n']
    decreases |s|
  {
    if |s| == 0 then ""
    else
      assert s == [s[0]] + s[1..];
      (if s[0] == '\n' then "<br>" else [s[0]]) + ReplaceNewlines(s[1..])
  }

  /** The whole chain, applied to the content. */
  function MarkdownToHtml(content: string): (html: string)
    ensures '\n' !in html
  {
    ReplaceNewlines(MapLines(Strong, MapLines(Heading1, MapLines(Heading2, MapLines(Heading3, content)))))
  }

  /** What the four line-local replacements make of one line. */
  function LineHtml(line: string): string
  {
    Apply(Strong, Apply(Heading1, Apply(Heading2, Apply(Heading3, line))))
  }

  function MapRule(r: Rule, lines: seq<string>): seq<string>
  {
    seq(|lines|, k requires 0 <= k < |lines| => Apply(r, lines[k]))
  }

  function MapLineHtml(lines: seq<string>): seq<string>
  {
    seq(|lines|, k requires 0 <= k < |lines| => LineHtml(lines[k]))
  }

  // ------------------------------------------------------------- helpers

  lemma {:induction false} Assoc(x: string, y: string, z: string)
    ensures x + (y + z) == (x + y) + z
  {
  }

  lemma {:induction false} NotStartsWith(s: string, p: string)
    requires |p| > 0 && (|s| == 0 || s[0] != p[0])
    ensures !StartsWith(s, p)
  {
    if |p| <= |s| {
      assert s[..|p|][0] == s[0];
    }
  }

  lemma {:induction false} StartsWithCat(p: string, x: string)
    ensures StartsWith(p + x, p) && (p + x)[|p|..] == x
  {
    assert (p + x)[..|p|] == p;
  }

  /** A line that differs from a marker at one of the marker's positions does not open with it. */
  lemma {:induction false} Mismatch(line: string, marker: string, k: nat)
    requires k < |marker| && (|line| <= k || line[k] != marker[k])
    ensures !StartsWith(line, marker)
  {
    if k < |line| && |marker| <= |line| {
      assert line[..|marker|][k] == line[k];
    }
  }

  /** The line opens with none of the three heading markers. */
  predicate NoMarker(line: string)
  {
    !StartsWith(line, "### ") && !StartsWith(line, "## ") && !StartsWith(line, "# ")
  }

  lemma {:induction false} NoMarkerFirst(line: string)
    requires |line| == 0 || line[0] != '#'
    ensures NoMarker(line)
  {
    Mismatch(line, "### ", 0);
    Mismatch(line, "## ", 0);
    Mismatch(line, "# ", 0);
  }

  lemma {:induction false} OccursAtIndex(s: string, pat: string, i: nat, k: nat)
    requires OccursAt(s, pat, i) && k < |pat|
    ensures s[i + k] == pat[k]
  {
    assert s[i..i + |pat|][k] == s[i + k];
  }

  lemma {:induction false} OneLineCat(a: string, b: string)
    requires OneLine(a) && OneLine(b)
    ensures OneLine(a + b)
  {
    var s := a + b;
    forall k | |a| <= k < |s|
      ensures !IsLineTerminator(s[k])
    {
      assert s[k] == b[k - |a|];
    }
  }

  lemma {:induction false} TagsOneLine(name: string)
    requires OneLine(name)
    ensures OneLine(Open(name)) && OneLine(Close(name))
  {
    OneLineCat("<", name);
    OneLineCat("<" + name, ">");
    OneLineCat("</", name);
    OneLineCat("</" + name, ">");
  }

  lemma {:induction false} TagsNoStar(name: string)
    requires '*' !in name
    ensures '*' !in Open(name) && '*' !in Close(name)
  {
  }

  /**
   * A string that opens with the tag's first character, has it nowhere
   * else, and differs from the tag at some index holds no occurrence of it.
   */
  lemma {:induction false} OpenerFree(s: string, tag: string, k: nat)
    requires |tag| <= |s| && 0 < |tag| && s[0] == tag[0] && tag[0] !in s[1..]
    requires k < |tag| && s[k] != tag[k]
    ensures TagFree(s, tag)
  {
    forall i | 0 < i < |s|
      ensures s[i] != tag[0]
    {
      assert s[i] == s[1..][i - 1];
    }
    assert s[..|tag|][k] == s[k];
  }

  // ------------------------------------------------------------------ bold

  lemma {:induction false} BoldStep(s: string)
    requires |s| > 0 && s[0] != '*'
    ensures Bold(s) == [s[0]] + Bold(s[1..])
  {
    NotStartsWith(s, "**");
  }

  /** Text without an asterisk passes through bold unchanged. */
  lemma {:induction false} BoldPlain(s: string)
    requires '*' !in s
    ensures Bold(s) == s
    decreases |s|
  {
    if |s| > 0 {
      BoldStep(s);
      BoldPlain(s[1..]);
      assert [s[0]] + s[1..] == s;
    }
  }

  /** A prefix without an asterisk is copied and bold goes on after it. */
  lemma {:induction false} BoldSkip(a: string, b: string)
    requires '*' !in a
    ensures Bold(a + b) == a + Bold(b)
    decreases |a|
  {
    if |a| > 0 {
      var s := a + b;
      assert s[0] == a[0];
      BoldStep(s);
      assert s[1..] == a[1..] + b;
      BoldSkip(a[1..], b);
      var tail := Bold(a[1..] + b);
      assert tail == a[1..] + Bold(b);
      assert Bold(s) == [a[0]] + tail;
      assert [a[0]] + a[1..] == a;
      Assoc([a[0]], a[1..], Bold(b));
    } else {
      assert a + b == b;
    }
  }

  /** At an asterisk the bold replacement either opens a strong element or keeps the asterisk. */
  lemma {:induction false} BoldStar(r: string)
    ensures |Bold("*" + r)| >= 1
    ensures Bold("*" + r)[0] == '*' || (|Bold("*" + r)| >= 2 && Bold("*" + r)[..2] == "<s")
  {
    var s := "*" + r;
    if StartsWith(s, "**") && IndexOf(s[2..], "**").Some? {
      var j := IndexOf(s[2..], "**").value;
      assert Bold(s) == Open("strong") + (s[2..2 + j] + Close("strong") + Bold(s[2 + j + 2..]));
    } else {
      assert Bold(s) == [s[0]] + Bold(s[1..]);
    }
  }

  /** A "**" pair around asterisk-free text becomes a strong element. */
  lemma {:induction false} BoldPair(x: string, y: string)
    requires '*' !in x
    ensures Bold("**" + x + "**" + y) == Open("strong") + x + Close("strong") + Bold(y)
  {
    var s := "**" + x + "**" + y;
    assert s == "**" + (x + ("**" + y));
    StartsWithCat("**", x + ("**" + y));
    StartsWithCat("**", y);
    IndexOfIs("**" + y, "**", 0);
    IndexOfSkip(x, "**" + y, "**");
    assert IndexOf(s[2..], "**") == Some(|x|);
    assert s[2..2 + |x|] == x;
    assert s[2 + |x| + 2..] == y;
  }

  /** An opening "**" with no closing one stays as it is. */
  lemma {:induction false} BoldUnclosed(x: string)
    requires '*' !in x
    ensures Bold("**" + x) == "**" + x
  {
    var s := "**" + x;
    StartsWithCat("**", x);
    assert x + "" == x;
    IndexOfSkip(x, "", "**");
    assert IndexOf(s[2..], "**").None?;
    assert s[1..] == "*" + x;
    assert !StartsWith("*" + x, "**") by {
      if |x| >= 1 {
        assert ("*" + x)[..2][1] == x[0];
      }
    }
    assert ("*" + x)[1..] == x;
    BoldPlain(x);
    assert "*" + ("*" + x) == s;
  }

  /**
   * Bold adds only strong tags and moves no '<': for text without '<'
   * followed by tag-free text without asterisks, the result is tag-free for
   * any tag that the two strong tags are free of.
   */
  lemma {:induction false} BoldTagFree(x: string, t: string, tag: string)
    requires |tag| > 0 && tag[0] == '<'
    requires '<' !in x && '*' !in t && TagFree(t, tag)
    requires TagFree(Open("strong"), tag) && TagFree(Close("strong"), tag)
    ensures TagFree(Bold(x + t), tag)
    decreases |x|
  {
    var s := x + t;
    if |x| == 0 {
      assert s == t;
      BoldPlain(t);
    } else if StartsWith(s, "**") && IndexOf(s[2..], "**").Some? {
      var j := IndexOf(s[2..], "**").value;
      IndexOfSpec(s[2..], "**");
      OccursAtIndex(s[2..], "**", j, 1);
      assert s[2 + j + 1] == '*';
      forall k | |x| <= k < |s|
        ensures s[k] != '*'
      {
        assert s[k] == t[k - |x|];
      }
      var inner := s[2..2 + j];
      var rest := x[2 + j + 2..];
      assert inner == x[2..2 + j];
      assert s[2 + j + 2..] == rest + t;
      TagFreeNoStart(inner, tag);
      BoldTagFree(rest, t, tag);
      TagFreeCat(Open("strong"), inner, tag);
      TagFreeCat(Open("strong") + inner, Close("strong"), tag);
      TagFreeCat(Open("strong") + inner + Close("strong"), Bold(rest + t), tag);
    } else {
      assert s[0] == x[0];
      assert s[1..] == x[1..] + t;
      BoldTagFree(x[1..], t, tag);
      TagFreeNoStart([s[0]], tag);
      TagFreeCat([s[0]], Bold(s[1..]), tag);
    }
  }

  lemma {:induction false} BoldOneLine(s: string)
    requires OneLine(s)
    ensures OneLine(Bold(s))
    decreases |s|
  {
    if |s| == 0 {
    } else if StartsWith(s, "**") && IndexOf(s[2..], "**").Some? {
      var j := IndexOf(s[2..], "**").value;
      var inner := s[2..2 + j];
      var rest := s[2 + j + 2..];
      assert OneLine(inner) && OneLine(rest) by {
        forall k | 0 <= k < |inner|
          ensures !IsLineTerminator(inner[k])
        {
          assert inner[k] == s[2 + k];
        }
        forall k | 0 <= k < |rest|
          ensures !IsLineTerminator(rest[k])
        {
          assert rest[k] == s[2 + j + 2 + k];
        }
      }
      BoldOneLine(rest);
      TagsOneLine("strong");
      OneLineCat(Open("strong"), inner);
      OneLineCat(Open("strong") + inner, Close("strong"));
      OneLineCat(Open("strong") + inner + Close("strong"), Bold(rest));
    } else {
      assert OneLine(s[1..]) by {
        forall k | 0 <= k < |s[1..]|
          ensures !IsLineTerminator(s[1..][k])
        {
          assert s[1..][k] == s[k + 1];
        }
      }
      BoldOneLine(s[1..]);
      OneLineCat([s[0]], Bold(s[1..]));
    }
  }

  // ------------------------------------------------------------- headings

  lemma {:induction false} HeadingApplies(x: string, marker: string, name: string)
    ensures Heading(marker + x, marker, name) == Open(name) + x + Close(name)
  {
    StartsWithCat(marker, x);
  }

  /** The three heading rules on a "### " line: the first fires, the other two leave its result alone. */
  lemma {:induction false} HeadingChainH3(x: string)
    ensures Apply(Heading1, Apply(Heading2, Apply(Heading3, "### " + x))) == Open("h3") + x + Close("h3")
  {
    HeadingApplies(x, "### ", "h3");
    var h := Open("h3") + x + Close("h3");
    NotStartsWith(h, "## ");
    NotStartsWith(h, "# ");
  }

  /** The three heading rules on a "## " line: only the second fires. */
  lemma {:induction false} HeadingChainH2(x: string)
    ensures Apply(Heading1, Apply(Heading2, Apply(Heading3, "## " + x))) == Open("h2") + x + Close("h2")
  {
    var line := "## " + x;
    assert !StartsWith(line, "### ") by {
      if 4 <= |line| {
        assert line[..4][2] == ' ';
      }
    }
    HeadingApplies(x, "## ", "h2");
    NotStartsWith(Open("h2") + x + Close("h2"), "# ");
  }

  /** The three heading rules on a "# " line: only the third fires. */
  lemma {:induction false} HeadingChainH1(x: string)
    ensures Apply(Heading1, Apply(Heading2, Apply(Heading3, "# " + x))) == Open("h1") + x + Close("h1")
  {
    var line := "# " + x;
    assert !StartsWith(line, "### ") && !StartsWith(line, "## ") by {
      if 3 <= |line| {
        assert line[..3][1] == ' ';
      }
      if 4 <= |line| {
        assert line[..4][1] == ' ';
      }
    }
    HeadingApplies(x, "# ", "h1");
  }

  /** An asterisk-free "### " line becomes an h3 element. */
  lemma {:induction false} LineHtmlH3(x: string)
    requires '*' !in x
    ensures LineHtml("### " + x) == Open("h3") + x + Close("h3")
  {
    HeadingChainH3(x);
    TagsNoStar("h3");
    BoldPlain(Open("h3") + x + Close("h3"));
  }

  /** A "### " line of any text becomes an h3 opening followed by the bold replacement of the rest. */
  lemma {:induction false} LineHtmlH3Bold(x: string)
    ensures LineHtml("### " + x) == Open("h3") + Bold(x + Close("h3"))
  {
    HeadingChainH3(x);
    TagsNoStar("h3");
    Assoc(Open("h3"), x, Close("h3"));
    BoldSkip(Open("h3"), x + Close("h3"));
  }

  /** An asterisk-free "## " line becomes an h2 element. */
  lemma {:induction false} LineHtmlH2(x: string)
    requires '*' !in x
    ensures LineHtml("## " + x) == Open("h2") + x + Close("h2")
  {
    HeadingChainH2(x);
    TagsNoStar("h2");
    BoldPlain(Open("h2") + x + Close("h2"));
  }

  /** A "## " line of any text becomes an h2 opening followed by the bold replacement of the rest. */
  lemma {:induction false} LineHtmlH2Bold(x: string)
    ensures LineHtml("## " + x) == Open("h2") + Bold(x + Close("h2"))
  {
    HeadingChainH2(x);
    TagsNoStar("h2");
    Assoc(Open("h2"), x, Close("h2"));
    BoldSkip(Open("h2"), x + Close("h2"));
  }

  /** An asterisk-free "# " line becomes an h1 element. */
  lemma {:induction false} LineHtmlH1(x: string)
    requires '*' !in x
    ensures LineHtml("# " + x) == Open("h1") + x + Close("h1")
  {
    HeadingChainH1(x);
    TagsNoStar("h1");
    BoldPlain(Open("h1") + x + Close("h1"));
  }

  /** A "# " line of any text becomes an h1 opening followed by the bold replacement of the rest. */
  lemma {:induction false} LineHtmlH1Bold(x: string)
    ensures LineHtml("# " + x) == Open("h1") + Bold(x + Close("h1"))
  {
    HeadingChainH1(x);
    TagsNoStar("h1");
    Assoc(Open("h1"), x, Close("h1"));
    BoldSkip(Open("h1"), x + Close("h1"));
  }

  /** A line that opens with none of the three markers only goes through bold. */
  lemma {:induction false} LineHtmlPlain(line: string)
    requires !StartsWith(line, "### ") && !StartsWith(line, "## ") && !StartsWith(line, "# ")
    ensures LineHtml(line) == Bold(line)
  {
  }

  /** The element tags the chain writes, other than the h2 tags, hold no "<h2>". */
  lemma {:induction false} OtherTagsFreeOfH2()
    ensures TagFree(Open("strong"), Open("h2")) && TagFree(Close("strong"), Open("h2"))
    ensures TagFree(Open("h1"), Open("h2")) && TagFree(Close("h1"), Open("h2"))
    ensures TagFree(Open("h3"), Open("h2")) && TagFree(Close("h3"), Open("h2"))
  {
    OpenerFree(Open("strong"), Open("h2"), 1);
    OpenerFree(Close("strong"), Open("h2"), 1);
    OpenerFree(Open("h1"), Open("h2"), 2);
    OpenerFree(Close("h1"), Open("h2"), 1);
    OpenerFree(Open("h3"), Open("h2"), 2);
    OpenerFree(Close("h3"), Open("h2"), 1);
  }

  /** The element tags the chain writes, other than the h3 tags, hold no "<h3>". */
  lemma {:induction false} OtherTagsFreeOfH3()
    ensures TagFree(Open("strong"), Open("h3")) && TagFree(Close("strong"), Open("h3"))
    ensures TagFree(Open("h1"), Open("h3")) && TagFree(Close("h1"), Open("h3"))
    ensures TagFree(Open("h2"), Open("h3")) && TagFree(Close("h2"), Open("h3"))
  {
    OpenerFree(Open("strong"), Open("h3"), 1);
    OpenerFree(Close("strong"), Open("h3"), 1);
    OpenerFree(Open("h1"), Open("h3"), 2);
    OpenerFree(Close("h1"), Open("h3"), 1);
    OpenerFree(Open("h2"), Open("h3"), 2);
    OpenerFree(Close("h2"), Open("h3"), 1);
  }

  /** Bold over a heading element whose tags are free of `tag`. */
  lemma {:induction false} HeadingTagFree(x: string, name: string, tag: string)
    requires |tag| > 0 && tag[0] == '<' && '<' !in x && '*' !in name
    requires TagFree(Open(name), tag) && TagFree(Close(name), tag)
    requires TagFree(Open("strong"), tag) && TagFree(Close("strong"), tag)
    ensures TagFree(Bold(Open(name) + x + Close(name)), tag)
  {
    TagsNoStar(name);
    assert Open(name) + x + Close(name) == Open(name) + (x + Close(name));
    BoldSkip(Open(name), x + Close(name));
    BoldTagFree(x, Close(name), tag);
    TagFreeCat(Open(name), Bold(x + Close(name)), tag);
  }

  /**
   * Converting a line without markup or line breaks creates a section
   * heading tag only when the line opens with that heading's marker: with
   * any other opening the converted line holds no "<h2>" (resp. "<h3>"),
   * and no occurrence can start in it and run on into the next line.
   */
  lemma {:induction false} LineHtmlTagFree(line: string, tag: string)
    requires InertText(line)
    requires (tag == Open("h2") && !StartsWith(line, "## ")) || (tag == Open("h3") && !StartsWith(line, "### "))
    ensures TagFree(LineHtml(line), tag)
  {
    InertAvoids(line, '<');
    OtherTagsFreeOfH2();
    OtherTagsFreeOfH3();
    if StartsWith(line, "### ") {
      var x := line[4..];
      assert line == "### " + x;
      assert '<' !in x;
      assert tag == Open("h2");
      HeadingChainH3(x);
      HeadingTagFree(x, "h3", tag);
    } else if StartsWith(line, "## ") {
      var x := line[3..];
      assert line == "## " + x;
      assert '<' !in x;
      assert tag == Open("h3");
      HeadingChainH2(x);
      HeadingTagFree(x, "h2", tag);
    } else if StartsWith(line, "# ") {
      var x := line[2..];
      assert line == "# " + x;
      assert '<' !in x;
      HeadingChainH1(x);
      HeadingTagFree(x, "h1", tag);
    } else {
      assert line + "" == line;
      BoldTagFree(line, "", tag);
    }
  }

  // ----------------------------------------------------------- line structure

  lemma {:induction false} HeadingOneLine(line: string, marker: string, name: string)
    requires OneLine(line) && OneLine(name)
    ensures OneLine(Heading(line, marker, name))
  {
    if StartsWith(line, marker) {
      var x := line[|marker|..];
      assert OneLine(x) by {
        forall k | 0 <= k < |x|
          ensures !IsLineTerminator(x[k])
        {
          assert x[k] == line[|marker| + k];
        }
      }
      TagsOneLine(name);
      OneLineCat(Open(name), x);
      OneLineCat(Open(name) + x, Close(name));
    }
  }

  lemma {:induction false} ApplyOneLine(r: Rule, line: string)
    requires OneLine(line)
    ensures OneLine(Apply(r, line))
  {
    match r
    case Strong => BoldOneLine(line);
    case Heading3 => HeadingOneLine(line, "### ", "h3");
    case Heading2 => HeadingOneLine(line, "## ", "h2");
    case Heading1 => HeadingOneLine(line, "# ", "h1");
  }

  lemma {:induction false} FirstTerminatorAt(s: string, i: nat)
    requires i < |s| && IsLineTerminator(s[i]) && OneLine(s[..i])
    ensures FirstTerminator(s) == Some(i)
    decreases i
  {
    if i > 0 {
      assert s[0] == s[..i][0];
      var tail := s[1..][..i - 1];
      forall k | 0 <= k < |tail|
        ensures !IsLineTerminator(tail[k])
      {
        assert tail[k] == s[..i][k + 1];
      }
      FirstTerminatorAt(s[1..], i - 1);
    }
  }

  /** A rule maps a string holding one line, a terminator, then more text, piece by piece. */
  lemma {:induction false} MapLinesCons(r: Rule, a: string, t: char, b: string)
    requires OneLine(a) && IsLineTerminator(t)
    ensures MapLines(r, a + [t] + b) == Apply(r, a) + [t] + MapLines(r, b)
  {
    var s := a + [t] + b;
    assert s[..|a|] == a;
    assert s[|a|] == t;
    assert s[|a| + 1..] == b;
    FirstTerminatorAt(s, |a|);
  }

  /**
   * On content made of terminator-free lines joined by "\n", one replacement
   * of the chain is the rule applied to every line.
   */
  lemma {:induction false} MapLinesJoin(r: Rule, lines: seq<string>)
    requires |lines| >= 1
    requires forall k :: 0 <= k < |lines| ==> OneLine(lines[k])
    ensures MapLines(r, Join(lines, "\n")) == Join(MapRule(r, lines), "\n")
    decreases |lines|
  {
    var out := MapRule(r, lines);
    if |lines| == 1 {
      assert FirstTerminator(lines[0]).None?;
    } else {
      var rest := lines[1..];
      MapLinesJoin(r, rest);
      assert Join(lines, "\n") == lines[0] + ['\n'] + Join(rest, "\n");
      MapLinesCons(r, lines[0], '\n', Join(rest, "\n"));
      assert MapRule(r, rest) == out[1..];
      assert Join(out, "\n") == out[0] + ['\n'] + Join(out[1..], "\n");
    }
  }

  lemma {:induction false} ReplaceNewlinesStep(s: string)
    requires |s| > 0
    ensures ReplaceNewlines(s) == (if s[0] == '\n' then "<br>" else [s[0]]) + ReplaceNewlines(s[1..])
  {
  }

  lemma {:induction false} ReplaceNewlinesCat(a: string, b: string)
    ensures ReplaceNewlines(a + b) == ReplaceNewlines(a) + ReplaceNewlines(b)
    decreases |a|
  {
    if |a| > 0 {
      var s := a + b;
      assert s[0] == a[0];
      assert s[1..] == a[1..] + b;
      ReplaceNewlinesCat(a[1..], b);
      ReplaceNewlinesStep(s);
      ReplaceNewlinesStep(a);
      var h := if a[0] == '\n' then "<br>" else [a[0]];
      Assoc(h, ReplaceNewlines(a[1..]), ReplaceNewlines(b));
    } else {
      assert a + b == b;
    }
  }

  lemma {:induction false} ReplaceNewlinesPlain(a: string)
    requires '\n' !in a
    ensures ReplaceNewlines(a) == a
    decreases |a|
  {
    if |a| > 0 {
      assert a[0] != '\n';
      ReplaceNewlinesPlain(a[1..]);
      assert [a[0]] + a[1..] == a;
    }
  }

  /** The last replacement turns the "\n" between lines into "<br>". */
  lemma {:induction false} ReplaceNewlinesJoin(lines: seq<string>)
    requires forall k :: 0 <= k < |lines| ==> '\n' !in lines[k]
    ensures ReplaceNewlines(Join(lines, "\n")) == Join(lines, "<br>")
    decreases |lines|
  {
    if |lines| == 1 {
      ReplaceNewlinesPlain(lines[0]);
    } else if |lines| > 1 {
      ReplaceNewlinesJoin(lines[1..]);
      ReplaceNewlinesCat(lines[0] + "\n", Join(lines[1..], "\n"));
      ReplaceNewlinesCat(lines[0], "\n");
      ReplaceNewlinesPlain(lines[0]);
      assert ReplaceNewlines("\n") == "<br>";
    }
  }

  lemma {:induction false} MapRuleOneLine(r: Rule, lines: seq<string>)
    requires forall k :: 0 <= k < |lines| ==> OneLine(lines[k])
    ensures forall k :: 0 <= k < |lines| ==> OneLine(MapRule(r, lines)[k])
  {
    forall k | 0 <= k < |lines|
      ensures OneLine(MapRule(r, lines)[k])
    {
      ApplyOneLine(r, lines[k]);
    }
  }

  /**
   * On content made of terminator-free lines joined by "\n", the chain
   * converts each line on its own and puts "<br>" between the converted lines.
   */
  lemma {:induction false} HtmlOfLines(lines: seq<string>)
    requires |lines| >= 1
    requires forall k :: 0 <= k < |lines| ==> OneLine(lines[k])
    ensures MarkdownToHtml(Join(lines, "\n")) == Join(MapLineHtml(lines), "<br>")
  {
    var l3 := MapRule(Heading3, lines);
    var l2 := MapRule(Heading2, l3);
    var l1 := MapRule(Heading1, l2);
    var lb := MapRule(Strong, l1);
    MapLinesJoin(Heading3, lines);
    MapRuleOneLine(Heading3, lines);
    MapLinesJoin(Heading2, l3);
    MapRuleOneLine(Heading2, l3);
    MapLinesJoin(Heading1, l2);
    MapRuleOneLine(Heading1, l2);
    MapLinesJoin(Strong, l1);
    MapRuleOneLine(Strong, l1);
    assert lb == MapLineHtml(lines);
    forall k | 0 <= k < |lb|
      ensures '\n' !in lb[k]
    {
      assert OneLine(lb[k]);
    }
    ReplaceNewlinesJoin(lb);
  }
}
