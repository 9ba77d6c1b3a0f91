/**
 * The About Me cut applied to the fallback content.
 *
 * The content writes its section headings with "### " (script.js:174), which
 * the markdown chain turns into h3 elements, but the cut at script.js:382
 * searches for an h2 element. The only h2 the content produces is the
 * profession line, so for every ordinary record the search fails and the
 * fallback design throws instead of rendering a page. With the cut reading
 * the h3 markers, the section is exactly the three About Me paragraphs.
 */
module AboutCut {
  import opened Text
  import opened Form
  import opened Color
  import opened Content
  import opened Markdown
  import opened Design

  /** No field holds a tag opening or a line end. */
  predicate InertFields(u: UserData)
  {
    forall c :: !Inert(c) ==> FieldsAvoid(u, c)
  }

  /** No field holds a tag opening, a line end or an asterisk. */
  predicate PlainFields(u: UserData)
  {
    forall c :: !Plain(c) ==> FieldsAvoid(u, c)
  }

  /** The lines of the About Me section of the content: three paragraphs, each followed by a blank line. */
  function AboutLines(u: UserData): seq<string>
  {
    [AboutIntro(u), "", AboutExpertise(u), "", AboutLearning(u), ""]
  }

  /** What the corrected cut yields: the About Me lines with their line breaks converted. */
  function AboutSection(u: UserData): string
  {
    "<br>" + Join(AboutLines(u), "<br>") + "<br>"
  }

  // ------------------------------------------------------------ line openings

  /** Of the header lines, only the profession line opens with "## ". */
  lemma {:induction false} HeadNotH2(u: UserData)
    ensures forall k :: 0 <= k < 13 && k != 3 ==> !StartsWith(HeadLines(u)[k], "## ")
  {
    var h := HeadLines(u);
    forall k | 0 <= k < 13 && k != 3
      ensures !StartsWith(h[k], "## ")
    {
      if k == 1 {
        assert h[1][1] == ' ';
        Mismatch(h[1], "## ", 1);
      } else if k == 5 || k == 12 {
        assert h[k][2] == '#';
        Mismatch(h[k], "## ", 2);
      } else if k == 6 || k == 8 || k == 10 {
        ParagraphMarkers(u);
      } else {
        assert h[k] == "";
        NoMarkerFirst(h[k]);
      }
    }
  }

  /** None of the header lines before the About Me heading opens with "### ". */
  lemma {:induction false} HeadNotH3(u: UserData)
    ensures forall k :: 0 <= k < 5 ==> !StartsWith(HeadLines(u)[k], "### ")
  {
    var h := HeadLines(u);
    NoMarkerFirst(h[0]);
    NoMarkerFirst(h[2]);
    NoMarkerFirst(h[4]);
    assert h[1][1] == ' ' && h[3][2] == ' ';
    Mismatch(h[1], "### ", 1);
    Mismatch(h[3], "### ", 2);
  }

  /** The three paragraphs open with a letter. */
  lemma {:induction false} ParagraphMarkers(u: UserData)
    ensures NoMarker(AboutIntro(u)) && NoMarker(AboutExpertise(u)) && NoMarker(AboutLearning(u))
  {
    assert AboutIntro(u)[0] == 'I';
    assert AboutExpertise(u)[0] == 'T';
    assert AboutLearning(u)[0] == 'I';
    NoMarkerFirst(AboutIntro(u));
    NoMarkerFirst(AboutExpertise(u));
    NoMarkerFirst(AboutLearning(u));
  }

  /** Bullets open with "- ". */
  lemma {:induction false} BulletMarkers(u: UserData)
    ensures forall k :: 0 <= k < |u.skills| ==> NoMarker(SkillBullets(u.skills)[k])
    ensures forall k :: 0 <= k < |u.projects| ==> NoMarker(ProjectBullets(u.projects, u.skills)[k])
  {
    forall k | 0 <= k < |u.skills|
      ensures NoMarker(SkillBullets(u.skills)[k])
    {
      assert SkillBullet(u.skills[k])[0] == '-';
      NoMarkerFirst(SkillBullets(u.skills)[k]);
    }
    forall k | 0 <= k < |u.projects|
      ensures NoMarker(ProjectBullets(u.projects, u.skills)[k])
    {
      assert ProjectBullet(u.projects[k], u.skills)[0] == '-';
      NoMarkerFirst(ProjectBullets(u.projects, u.skills)[k]);
    }
  }

  /** The lines after the bullets open with no h2 marker. */
  lemma {:induction false} TailMarkers(u: UserData)
    ensures forall k :: 0 <= k < |MiddleLines()| ==> !StartsWith(MiddleLines()[k], "## ")
    ensures forall k :: 0 <= k < |ContactLines(u)| ==> !StartsWith(ContactLines(u)[k], "## ")
  {
    var m, c := MiddleLines(), ContactLines(u);
    assert |m| == 2 && |c| == 6;
    NoMarkerFirst(m[0]);
    assert m[1][2] == '#';
    Mismatch(m[1], "## ", 2);
    NoMarkerFirst(c[0]);
    assert c[1][2] == '#';
    Mismatch(c[1], "## ", 2);
    assert c[2][0] == 'E' && c[3][0] == 'P' && c[4][0] == 'L' && c[5][0] == ' ';
    NoMarkerFirst(c[2]);
    NoMarkerFirst(c[3]);
    NoMarkerFirst(c[4]);
    NoMarkerFirst(c[5]);
  }

  /** Of all the document's lines, only the profession line opens with "## ". */
  lemma {:induction false} DocumentMarkers(u: UserData)
    ensures var lines := DocumentLines(u);
      && lines[..13] == HeadLines(u)
      && (forall k :: 0 <= k < |lines| && k != 3 ==> !StartsWith(lines[k], "## "))
  {
    var head, sb, mid, pb, tail := HeadLines(u), SkillBullets(u.skills), MiddleLines(), ProjectBullets(u.projects, u.skills), ContactLines(u);
    HeadNotH2(u);
    BulletMarkers(u);
    TailMarkers(u);
    var lines := DocumentLines(u);
    assert |head| == 13;
    assert lines[..13] == head;
    forall k | 0 <= k < |lines| && k != 3
      ensures !StartsWith(lines[k], "## ")
    {
      if k < |head| {
        assert lines[k] == head[k];
      } else if k < |head| + |sb| {
        assert lines[k] == sb[k - |head|];
      } else if k < |head| + |sb| + |mid| {
        assert lines[k] == mid[k - |head| - |sb|];
      } else if k < |head| + |sb| + |mid| + |pb| {
        assert lines[k] == pb[k - |head| - |sb| - |mid|];
      } else {
        assert lines[k] == tail[k - |head| - |sb| - |mid| - |pb|];
      }
    }
  }

  // ------------------------------------------------------------ converted text

  /** With inert fields the converted content is the converted lines joined by "<br>". */
  lemma {:induction false} ContentHtml(u: UserData)
    requires InertFields(u) && |u.skills| >= 1 && |u.projects| >= 1
    ensures MarkdownToHtml(MockContent(u)) == Join(MapLineHtml(DocumentLines(u)), "<br>")
    ensures forall k :: 0 <= k < |DocumentLines(u)| ==> InertText(DocumentLines(u)[k])
  {
    var lines := DocumentLines(u);
    ContentDocument(u);
    DocumentLinesInert(u);
    forall k | 0 <= k < |lines|
      ensures OneLine(lines[k])
    {
      assert InertText(lines[k]);
    }
    HtmlOfLines(lines);
  }

  /** No "<h2>" or "<h3>" starts in a "<br>". */
  lemma {:induction false} BreakTagFree()
    ensures TagFree("<br>", Open("h2")) && TagFree("<br>", Open("h3"))
  {
    OpenerFree("<br>", Open("h2"), 1);
    OpenerFree("<br>", Open("h3"), 1);
  }

  /** An occurrence of `tag + tail` is an occurrence of `tag`. */
  lemma {:induction false} OccursOpening(s: string, tag: string, tail: string, i: int)
    ensures OccursAt(s, tag + tail, i) ==> OccursAt(s, tag, i)
  {
    if OccursAt(s, tag + tail, i) {
      assert s[i..i + |tag|] == s[i..i + |tag + tail|][..|tag|];
    }
  }

  /**
   * When the only occurrence of `tag` is the one between `a` and `rest`,
   * and `rest` does not go on with `tail`, then `tag + tail` does not occur.
   */
  lemma {:induction false} LoneOpening(a: string, tag: string, rest: string, tail: string)
    requires OpensOnce(tag) && TagFree(a, tag) && TagFree(rest, tag) && !StartsWith(rest, tail)
    ensures !Contains(a + tag + rest, tag + tail)
  {
    var s := a + tag + rest;
    var pat := tag + tail;
    var n := |a| + |tag|;
    assert s == a + (tag + rest);
    assert s[n..] == rest;
    TagFreeNotBefore(a, tag + rest, tag);
    TagFreeNotContains(rest, tag);
    forall i | 0 <= i <= |s|
      ensures !OccursAt(s, pat, i)
    {
      OccursOpening(s, tag, tail, i);
      if i + |pat| > |s| || i < |a| {
      } else if i == |a| {
        assert s[i..i + |pat|][|tag|..] == rest[..|tail|];
        assert pat[|tag|..] == tail;
      } else if i < n {
        assert s[i] == tag[i - |a|] == tag[1..][i - |a| - 1];
        assert s[i..i + |pat|][0] == s[i];
      } else {
        OccursInSuffix(s, tag, n, i - n);
      }
    }
  }

  /** A profession other than "About Me" without a '<' does not make "<h2>About Me</h2>". */
  lemma {:induction false} ProfessionNotAbout(p: string, more: string)
    requires '<' !in p && p != "About Me"
    ensures !StartsWith(p + Close("h2") + more, "About Me" + Close("h2"))
  {
    var s := p + Close("h2") + more;
    var t := "About Me" + Close("h2");
    if |p| < 8 {
      assert s[|p|] == '<';
      assert t[|p|] == "About Me"[|p|] != '<';
      Mismatch(s, t, |p|);
    } else if |p| == 8 {
      var k :| 0 <= k < 8 && p[k] != "About Me"[k];
      assert s[k] == p[k] && t[k] == "About Me"[k];
      Mismatch(s, t, k);
    } else {
      assert s[8] == p[8] && p[8] in p;
      assert t[8] == '<';
      Mismatch(s, t, 8);
    }
  }

  /** The first asterisk of a text that has one. */
  lemma {:induction false} FirstStar(p: string) returns (i: nat)
    requires '*' in p
    ensures i < |p| && p[i] == '*' && '*' !in p[..i]
  {
    ContainsChar(p, '*');
    IndexOfSpec(p, "*");
    i := IndexOf(p, "*").value;
    assert p[i] == p[i..i + 1][0];
    forall k | 0 <= k < i
      ensures p[..i][k] != '*'
    {
      assert !OccursAt(p, "*", k);
      assert p[k..k + 1] == [p[k]];
    }
  }

  /**
   * Text without '<' followed by an asterisk or a strong tag's "<s" does
   * not open with "About Me</h2>".
   */
  lemma {:induction false} StarNotAbout(a: string, c: string, more: string)
    requires '<' !in a && |c| >= 1
    requires c[0] == '*' || (|c| >= 2 && c[..2] == "<s")
    ensures !StartsWith(a + c + more, "About Me" + Close("h2"))
  {
    var s := a + c + more;
    var t := "About Me" + Close("h2");
    var i := |a|;
    assert s[i] == c[0];
    if i < 8 {
      assert t[i] == "About Me"[i];
      Mismatch(s, t, i);
    } else if i == 8 {
      if c[0] == '*' {
        Mismatch(s, t, 8);
      } else {
        assert s[9] == c[..2][1] == 's';
        Mismatch(s, t, 9);
      }
    } else {
      assert s[8] == a[8] && a[8] in a;
      Mismatch(s, t, 8);
    }
  }

  /**
   * The profession line after the bold replacement: a profession other than
   * "About Me" without a '<' still does not make "<h2>About Me</h2>", since
   * bold only removes asterisks and writes strong tags after them.
   */
  lemma {:induction false} ProfessionBoldNotAbout(p: string, more: string)
    requires '<' !in p && p != "About Me"
    ensures !StartsWith(Bold(p + Close("h2")) + more, "About Me" + Close("h2"))
  {
    if '*' !in p {
      assert '*' !in p + Close("h2");
      BoldPlain(p + Close("h2"));
      ProfessionNotAbout(p, more);
    } else {
      var i := FirstStar(p);
      var a, r := p[..i], p[i + 1..] + Close("h2");
      assert p + Close("h2") == a + ("*" + r);
      BoldSkip(a, "*" + r);
      BoldStar(r);
      assert forall k :: 0 <= k < |a| ==> a[k] == p[k];
      StarNotAbout(a, Bold("*" + r), more);
    }
  }

  // ------------------------------------------------------------ as written

  /** The converted lines other than the profession line hold no "<h2>". */
  lemma {:induction false} OtherLinesFreeOfH2(u: UserData)
    requires InertFields(u) && |u.skills| >= 1 && |u.projects| >= 1
    ensures var h := MapLineHtml(DocumentLines(u));
      forall k :: 0 <= k < |h| && k != 3 ==> TagFree(h[k], Open("h2"))
  {
    ContentHtml(u);
    DocumentMarkers(u);
    var lines := DocumentLines(u);
    forall k | 0 <= k < |lines| && k != 3
      ensures TagFree(MapLineHtml(lines)[k], Open("h2"))
    {
      LineHtmlTagFree(lines[k], Open("h2"));
    }
  }

  /** The join around the fourth line, with that line an h2 opening followed by `q`. */
  lemma {:induction false} AroundProfession(h: seq<string>, q: string)
    requires |h| >= 5 && h[3] == Open("h2") + q
    ensures Join(h, "<br>")
         == (Join(h[..3], "<br>") + "<br>") + Open("h2") + (q + ("<br>" + Join(h[4..], "<br>")))
  {
    JoinAround(h, "<br>", 3);
  }

  /** Lines free of `tag`, joined by "<br>" and followed by one more "<br>". */
  lemma {:induction false} JoinBreakFree(parts: seq<string>, tag: string)
    requires tag == Open("h2") || tag == Open("h3")
    requires forall k :: 0 <= k < |parts| ==> TagFree(parts[k], tag)
    ensures TagFree(Join(parts, "<br>") + "<br>", tag)
    ensures TagFree("<br>" + Join(parts, "<br>"), tag)
  {
    BreakTagFree();
    TagFreeJoin(parts, "<br>", tag);
    TagFreeCat(Join(parts, "<br>"), "<br>", tag);
    TagFreeCat("<br>", Join(parts, "<br>"), tag);
  }

  /** What follows the "<h2>" of the profession line holds no other "<h2>" and does not open with "About Me</h2>". */
  lemma {:induction false} AfterProfessionFree(p: string, more: string)
    requires '<' !in p && p != "About Me" && TagFree(more, Open("h2"))
    ensures TagFree(Bold(p + Close("h2")) + more, Open("h2"))
    ensures !StartsWith(Bold(p + Close("h2")) + more, "About Me" + Close("h2"))
  {
    OpenerFree(Close("h2"), Open("h2"), 1);
    OtherTagsFreeOfH2();
    BoldTagFree(p, Close("h2"), Open("h2"));
    TagFreeCat(Bold(p + Close("h2")), more, Open("h2"));
    ProfessionBoldNotAbout(p, more);
  }

  /**
   * Converted lines joined by "<br>" hold no "<h2>About Me</h2>" when the
   * only line with an "<h2>" is an h2 element around another text.
   */
  lemma {:induction false} OnlyOtherH2(h: seq<string>, p: string)
    requires |h| >= 5 && h[3] == Open("h2") + Bold(p + Close("h2")) && '<' !in p && p != "About Me"
    requires forall k :: 0 <= k < |h| && k != 3 ==> TagFree(h[k], Open("h2"))
    ensures !Contains(Join(h, "<br>"), AboutHeading())
  {
    var tag := Open("h2");
    var q := Bold(p + Close("h2"));
    var before, after := h[..3], h[4..];
    AroundProfession(h, q);
    assert forall k :: 0 <= k < |before| ==> before[k] == h[k];
    assert forall k :: 0 <= k < |after| ==> after[k] == h[k + 4];
    JoinBreakFree(before, tag);
    JoinBreakFree(after, tag);
    var more := "<br>" + Join(after, "<br>");
    AfterProfessionFree(p, more);
    LoneOpening(Join(before, "<br>") + "<br>", tag, q + more, "About Me" + Close("h2"));
    assert AboutHeading() == tag + ("About Me" + Close("h2"));
  }

  /** The fourth line of the document is the profession under "## ". */
  lemma {:induction false} ProfessionLine(u: UserData)
    ensures |DocumentLines(u)| >= 13 && DocumentLines(u)[3] == "## " + u.profession
  {
    assert DocumentLines(u)[3] == HeadLines(u)[3];
  }

  /**
   * For a record whose fields hold no '<' and no line break and whose
   * profession is not "About Me", the converted content holds no
   * "<h2>About Me</h2>": its one h2 element is the profession, whatever
   * asterisks it holds.
   */
  lemma {:induction false} AboutHeadingMissing(u: UserData)
    requires InertFields(u) && u.profession != "About Me"
    requires |u.skills| >= 1 && |u.projects| >= 1
    ensures !Contains(MarkdownToHtml(MockContent(u)), AboutHeading())
  {
    ContentHtml(u);
    OtherLinesFreeOfH2(u);
    ProfessionLine(u);
    LineHtmlH2Bold(u.profession);
    assert FieldsAvoid(u, '<');
    OnlyOtherH2(MapLineHtml(DocumentLines(u)), u.profession);
  }

  /**
   * The fallback design as written fails on the fallback content of every
   * such record: the cut finds no heading and reading `.split` of the
   * missing piece throws.
   */
  lemma {:induction false} MockDesignCrashes(u: UserData, year: string)
    requires InertFields(u) && u.profession != "About Me"
    requires |u.skills| >= 1 && |u.projects| >= 1 && IsColor(u.color)
    ensures MockDesign(u, MockContent(u), year) == Failure(SplitOfUndefined)
  {
    AboutHeadingMissing(u);
    ExtractAboutFails(MarkdownToHtml(MockContent(u)));
  }

  /**
   * The one exception: a profession of "About Me" turns the profession line
   * into the very heading the cut looks for.
   */
  lemma {:induction false} AboutProfessionFound(u: UserData)
    requires InertFields(u) && u.profession == "About Me"
    requires |u.skills| >= 1 && |u.projects| >= 1
    ensures Contains(MarkdownToHtml(MockContent(u)), AboutHeading())
  {
    ContentHtml(u);
    ProfessionLine(u);
    LineHtmlH2("About Me");
    var h := MapLineHtml(DocumentLines(u));
    assert h[3] == AboutHeading();
    JoinContains(h, "<br>", 3);
  }

  /** For inert fields, the heading the cut looks for is there exactly when the profession is "About Me". */
  lemma {:induction false} AboutHeadingExactly(u: UserData)
    requires InertFields(u) && |u.skills| >= 1 && |u.projects| >= 1
    ensures Contains(MarkdownToHtml(MockContent(u)), AboutHeading()) <==> u.profession == "About Me"
  {
    if u.profession == "About Me" {
      AboutProfessionFound(u);
    } else {
      AboutHeadingMissing(u);
    }
  }

  /**
   * For inert fields, the fallback design as written renders a page exactly
   * when the profession is "About Me", and otherwise throws.
   */
  lemma {:induction false} MockDesignRendersExactly(u: UserData, year: string)
    requires InertFields(u) && |u.skills| >= 1 && |u.projects| >= 1 && IsColor(u.color)
    ensures MockDesign(u, MockContent(u), year).Success? <==> u.profession == "About Me"
    ensures u.profession != "About Me" ==> MockDesign(u, MockContent(u), year) == Failure(SplitOfUndefined)
  {
    AboutHeadingExactly(u);
    ExtractAboutFails(MarkdownToHtml(MockContent(u)));
    if u.profession != "About Me" {
      MockDesignCrashes(u, year);
    }
  }

  // ------------------------------------------------------------ corrected

  /** Plain fields are inert fields. */
  lemma {:induction false} PlainInert(u: UserData)
    requires PlainFields(u)
    ensures InertFields(u)
  {
    forall c | !Inert(c)
      ensures FieldsAvoid(u, c)
    {
      assert !Plain(c);
    }
  }

  /** Text opening with `tag`, followed by anything, has its first `tag` at 0. */
  lemma {:induction false} FirstAtStart(x: string, rest: string, tag: string)
    requires StartsWith(x, tag)
    ensures IndexOf(x + rest, tag) == Some(0)
  {
    assert (x + rest)[..|tag|] == x[..|tag|];
    IndexOfIs(x + rest, tag, 0);
  }

  /** The stop tag cuts a tag-free prefix off at the next line that opens with it. */
  lemma {:induction false} SectionStops(p: string, x: string, rest: string)
    requires TagFree(p, Open("h3")) && StartsWith(x, Open("h3"))
    ensures Before(p + (x + rest), Open("h3")) == p
  {
    FirstAtStart(x, rest, Open("h3"));
    TagFreeSkip(p, x + rest, Open("h3"));
    assert (p + (x + rest))[..|p|] == p;
  }

  /** After a prefix free of "<h3>", the corrected cut finds the heading and keeps what follows, up to the next "<h3>". */
  lemma {:induction false} CutAtHeading(a: string, rest: string)
    requires TagFree(a, Open("h3"))
    ensures ExtractAboutFixed(a + AboutHeadingH3() + rest) == Success(Before(rest, Open("h3")))
  {
    var tag, heading := Open("h3"), AboutHeadingH3();
    var s := a + heading + rest;
    assert s == a + (heading + rest);
    assert heading == tag + ("About Me" + Close("h3"));
    TagFreeNotBefore(a, heading + rest, tag);
    forall j | 0 <= j < |a|
      ensures !OccursAt(s, heading, j)
    {
      OccursOpening(s, tag, "About Me" + Close("h3"), j);
    }
    assert s[|a|..|a| + |heading|] == heading;
    assert OccursAt(s, heading, |a|);
    IndexOfIs(s, heading, |a|);
    assert s[|a| + |heading|..] == rest;
    assert StartsWith(heading, tag) && tag[1..] == "h3>";
    ExtractSectionSpec(s, heading, tag);
  }

  /** Plain text holds neither an asterisk nor a tag opening. */
  lemma {:induction false} PlainNoMarkup(s: string)
    requires PlainText(s)
    ensures '*' !in s && '<' !in s
  {
    PlainIffAvoids(s);
    assert !Plain('*') && !Plain('<');
  }

  /** A paragraph or blank line of plain text is left as it is by the conversion. */
  lemma {:induction false} PlainLineKept(line: string)
    requires PlainText(line) && NoMarker(line)
    ensures LineHtml(line) == line
  {
    PlainNoMarkup(line);
    LineHtmlPlain(line);
    BoldPlain(line);
  }

  /** The About Me heading, its lines and the Skills heading among the header lines. */
  lemma {:induction false} HeadAbout(u: UserData)
    ensures |HeadLines(u)| == 13
    ensures HeadLines(u)[5] == "### " + "About Me" && HeadLines(u)[12] == "### " + "Skills"
    ensures HeadLines(u)[6..12] == AboutLines(u)
  {
  }

  /** A run of lines that begins with `head` holds its lines at the same places. */
  lemma {:induction false} SamePlaces(lines: seq<string>, head: seq<string>)
    requires |head| <= |lines| && lines[..|head|] == head
    ensures forall k :: 0 <= k < |head| ==> lines[k] == head[k]
    ensures forall i, j :: 0 <= i <= j <= |head| ==> lines[i..j] == head[i..j]
  {
    forall k | 0 <= k < |head|
      ensures lines[k] == head[k]
    {
      assert lines[..|head|][k] == lines[k];
    }
  }

  /** Where the About Me section sits among the document's lines. */
  lemma {:induction false} DocumentAbout(u: UserData)
    ensures var lines := DocumentLines(u);
      && |lines| >= 14
      && (forall k :: 0 <= k < 5 ==> !StartsWith(lines[k], "### "))
      && lines[5] == "### " + "About Me"
      && lines[6..12] == AboutLines(u)
      && lines[12] == "### " + "Skills"
  {
    DocumentOutline(u);
    HeadNotH3(u);
    HeadAbout(u);
    SamePlaces(DocumentLines(u), HeadLines(u));
  }

  /** Three plain paragraphs opening with no marker, each followed by a blank line. */
  lemma {:induction false} ParagraphLines(x: string, y: string, z: string)
    requires PlainText(x) && PlainText(y) && PlainText(z) && NoMarker(x) && NoMarker(y) && NoMarker(z)
    ensures var a := [x, "", y, "", z, ""];
      forall k :: 0 <= k < 6 ==> PlainText(a[k]) && NoMarker(a[k])
  {
    NoMarkerFirst("");
  }

  /** With plain fields, the About Me lines are plain text opening with no heading marker. */
  lemma {:induction false} AboutLinesPlain(u: UserData)
    requires PlainFields(u)
    ensures |AboutLines(u)| == 6
    ensures forall k :: 0 <= k < 6 ==> PlainText(AboutLines(u)[k]) && NoMarker(AboutLines(u)[k])
  {
    AboutPlain(u);
    ParagraphMarkers(u);
    ParagraphLines(AboutIntro(u), AboutExpertise(u), AboutLearning(u));
  }

  /** Converted lines whose first five hold no "<h3>", then the heading, six kept lines and the next h3 heading. */
  lemma {:induction false} HeadHtml(lines: seq<string>)
    requires |lines| >= 14
    requires forall k :: 0 <= k < 5 ==> InertText(lines[k]) && !StartsWith(lines[k], "### ")
    requires lines[5] == "### " + "About Me" && lines[12] == "### " + "Skills"
    ensures var h := MapLineHtml(lines);
      && (forall k :: 0 <= k < 5 ==> TagFree(h[k], Open("h3")))
      && h[5] == AboutHeadingH3()
      && StartsWith(h[12], Open("h3"))
  {
    var h := MapLineHtml(lines);
    forall k | 0 <= k < 5
      ensures TagFree(h[k], Open("h3"))
    {
      LineHtmlTagFree(lines[k], Open("h3"));
    }
    LineHtmlH3("About Me");
    LineHtmlH3("Skills");
    assert h[12][..|Open("h3")|] == Open("h3");
  }

  /** Plain lines opening with no marker come through the conversion unchanged. */
  lemma {:induction false} BodyHtml(lines: seq<string>, about: seq<string>)
    requires |lines| >= 14 && |about| == 6 && lines[6..12] == about
    requires forall k :: 0 <= k < 6 ==> PlainText(about[k]) && NoMarker(about[k])
    ensures MapLineHtml(lines)[6..12] == about
  {
    forall k | 0 <= k < 6
      ensures MapLineHtml(lines)[6 + k] == about[k]
    {
      assert lines[6 + k] == about[k];
      PlainLineKept(about[k]);
    }
  }

  /** Converted lines free of "<h3>" join into an About Me section free of "<h3>". */
  lemma {:induction false} SectionFree(parts: seq<string>)
    requires forall k :: 0 <= k < |parts| ==> '<' !in parts[k]
    ensures TagFree("<br>" + Join(parts, "<br>") + "<br>", Open("h3"))
  {
    forall k | 0 <= k < |parts|
      ensures TagFree(parts[k], Open("h3"))
    {
      TagFreeNoStart(parts[k], Open("h3"));
    }
    JoinBreakFree(parts, Open("h3"));
    BreakTagFree();
    TagFreeCat("<br>" + Join(parts, "<br>"), "<br>", Open("h3"));
  }

  /** A first "<h3>" that is the About Me heading: the corrected cut keeps what follows it, up to the next "<h3>". */
  lemma {:induction false} CutAfterHeading(h: seq<string>)
    requires |h| >= 7 && h[5] == AboutHeadingH3()
    requires forall k :: 0 <= k < 5 ==> TagFree(h[k], Open("h3"))
    ensures ExtractAboutFixed(Join(h, "<br>")) == Success(Before("<br>" + Join(h[6..], "<br>"), Open("h3")))
  {
    var br := "<br>";
    JoinAround(h, br, 5);
    assert forall k :: 0 <= k < 5 ==> h[..5][k] == h[k];
    JoinBreakFree(h[..5], Open("h3"));
    var a := Join(h[..5], br) + br;
    var rest := br + Join(h[6..], br);
    assert Join(h, br) == a + AboutHeadingH3() + rest;
    CutAtHeading(a, rest);
  }

  /** Six lines without markup followed by an h3 heading: the text up to that heading is the six lines. */
  lemma {:induction false} CutBeforeSkills(h: seq<string>, about: seq<string>)
    requires |h| >= 14 && |about| == 6 && h[6..12] == about && StartsWith(h[12], Open("h3"))
    requires forall k :: 0 <= k < 6 ==> '<' !in about[k]
    ensures Before("<br>" + Join(h[6..], "<br>"), Open("h3")) == "<br>" + Join(about, "<br>") + "<br>"
  {
    var br := "<br>";
    assert h[6..] == h[6..12] + h[12..];
    JoinAppend(h[6..12], h[12..], br);
    assert h[12..] == [h[12]] + h[13..];
    JoinCons(h[12], h[13..], br);
    SectionFree(about);
    var section := br + Join(about, br) + br;
    assert br + Join(h[6..], br) == section + (h[12] + (br + Join(h[13..], br)));
    SectionStops(section, h[12], br + Join(h[13..], br));
  }

  /**
   * With the cut reading the h3 markers, the fallback content of every
   * record whose fields hold no markup yields exactly the three About Me
   * paragraphs, each followed by a line break.
   */
  lemma {:induction false} AboutFoundFixed(u: UserData)
    requires PlainFields(u) && |u.skills| >= 1 && |u.projects| >= 1
    ensures ExtractAboutFixed(MarkdownToHtml(MockContent(u))) == Success(AboutSection(u))
  {
    var lines, about := DocumentLines(u), AboutLines(u);
    PlainInert(u);
    ContentHtml(u);
    DocumentAbout(u);
    AboutLinesPlain(u);
    forall k | 0 <= k < 6
      ensures '<' !in about[k]
    {
      PlainNoMarkup(about[k]);
    }
    HeadHtml(lines);
    BodyHtml(lines, about);
    CutAfterHeading(MapLineHtml(lines));
    CutBeforeSkills(MapLineHtml(lines), about);
  }

  /**
   * The corrected design renders the page for every record whose fields
   * hold no markup, with the three About Me paragraphs in its about section.
   */
  lemma {:induction false} MockDesignFixedRenders(u: UserData, year: string)
    requires PlainFields(u) && |u.skills| >= 1 && |u.projects| >= 1 && IsColor(u.color)
    ensures MockDesignFixed(u, MockContent(u), year) == Success(Page(u, AboutSection(u), year))
  {
    AboutFoundFixed(u);
  }
}
