/**
 * generateMockContent: the markdown document the content step falls back to
 * when the remote call fails. The template literal is written as the list
 * of its lines joined by "\n" (the source file's CRLF line ends become LF
 * inside a template literal); each interpolated `map(...).join('\n')` stays
 * one element of that list, exactly as it is one line of the literal.
 */
module Content {
  import opened Text
  import opened Form

  /** `skills.slice(0, 2).join(' and ')`. */
  function LeadSkills(skills: seq<string>): (r: string)
    ensures |skills| == 0 ==> r == ""
    ensures |skills| == 1 ==> r == skills[0]
    ensures |skills| >= 2 ==> r == skills[0] + " and " + skills[1]
  {
    var lead := skills[..Min(2, |skills|)];
    assert |skills| == 1 ==> lead == [skills[0]];
    assert |skills| >= 2 ==> lead == [skills[0], skills[1]] && lead[1..] == [skills[1]]
                             && Join(lead[1..], " and ") == skills[1];
    Join(lead, " and ")
  }

  function SkillBullet(skill: string): string
  {
    ("- " + "**") + skill + ("**" + ": " + "Experienced " + "in " + skill + " with " + "multiple "
    + "projects " + "implementing " + "this " + "technology")
  }

  function ProjectBullet(project: string, skills: seq<string>): string
  {
    ("- " + "**") + project + ("**" + ": " + "Developed a " + project + " using " + LeadSkills(skills))
  }

  function SkillBullets(skills: seq<string>): seq<string>
  {
    seq(|skills|, k requires 0 <= k < |skills| => SkillBullet(skills[k]))
  }

  function ProjectBullets(projects: seq<string>, skills: seq<string>): seq<string>
  {
    seq(|projects|, k requires 0 <= k < |projects| => ProjectBullet(projects[k], skills))
  }

  /** `name.replace(' ', '.').toLowerCase()`: the part of the address before `@`. */
  function EmailUser(name: string): string
  {
    Lower(ReplaceFirst(name, " ", "."))
  }

  /**
   * The lines of the template literal up to the skills heading. Literal
   * text is written as short pieces joined with `+`.
   */
  function HeadLines(u: UserData): seq<string>
  {
    [ "",
      "# " + "Professional " + "Portfolio " + "for " + u.name,
      "",
      "## " + u.profession,
      "",
      "### " + "About Me",
      AboutIntro(u),
      "",
      AboutExpertise(u),
      "",
      AboutLearning(u),
      "",
      "### " + "Skills"
    ]
  }

  function AboutIntro(u: UserData): string
  {
    "I am a " + "passionate " + Lower(u.profession) + " with " + u.experience + " years of "
    + "experience " + "specializing " + "in " + LeadSkills(u.skills) + ". My " + "journey in "
    + "this field " + "began with " + "my " + "education " + "in " + u.education + " and has "
    + "evolved " + "through " + "various " + "challenging " + "projects."
  }

  function AboutExpertise(u: UserData): string
  {
    "Throughout " + "my career, " + "I've " + "developed a " + "strong " + "expertise in "
    + Join(u.skills, ", ") + ". I thrive " + "in " + "environments " + "that require "
    + "problem-" + "solving and " + "creative " + "thinking to " + "deliver " + "efficient, "
    + "user-" + "friendly " + "solutions."
  }

  function AboutLearning(u: UserData): string
  {
    "I'm " + "dedicated to " + "continuous " + "learning and " + "staying " + "updated with "
    + "the latest " + "technologies " + "and best " + "practices " + "in the " + Lower(u.profession)
    + " field."
  }

  /** The lines between the skill bullets and the project bullets. */
  function MiddleLines(): seq<string>
  {
    ["", "### " + "Projects"]
  }

  /** The lines after the project bullets; the last is the indentation before the closing backtick. */
  function ContactLines(u: UserData): seq<string>
  {
    [ "",
      "### " + "Contact",
      "Email: " + EmailUser(u.name) + "@example" + ".com  ",
      "Phone: " + "(555) " + "123-4567  ",
      "Location: " + "San " + "Francisco, " + "CA",
      "        "
    ]
  }

  /** The lines of the template literal, each interpolated bullet list as one element. */
  function TemplateLines(u: UserData): seq<string>
  {
    HeadLines(u) + [Join(SkillBullets(u.skills), "\n")] + MiddleLines()
      + [Join(ProjectBullets(u.projects, u.skills), "\n")] + ContactLines(u)
  }

  /** generateMockContent(userData). */
  function MockContent(u: UserData): string
  {
    Join(TemplateLines(u), "\n")
  }

  /** The document's lines once every bullet is a line of its own. */
  function DocumentLines(u: UserData): seq<string>
  {
    HeadLines(u) + SkillBullets(u.skills) + MiddleLines() + ProjectBullets(u.projects, u.skills) + ContactLines(u)
  }

  /** No field of the record holds the character `c`. */
  predicate FieldsAvoid(u: UserData, c: char)
  {
    && c !in u.name && c !in u.profession && c !in u.experience && c !in u.education
    && (forall k :: 0 <= k < |u.skills| ==> c !in u.skills[k])
    && (forall k :: 0 <= k < |u.projects| ==> c !in u.projects[k])
  }

  /** A list of lines none of which holds the character `c`. */
  predicate LinesFree(lines: seq<string>, c: char)
  {
    forall k :: 0 <= k < |lines| ==> c !in lines[k]
  }

  // ------------------------------------------------------------ structure

  /**
   * With at least one skill and one project (which validation guarantees),
   * the document is its lines joined by "\n", each bullet a line of its own.
   */
  lemma {:induction false} ContentDocument(u: UserData)
    requires |u.skills| >= 1 && |u.projects| >= 1
    ensures MockContent(u) == Join(DocumentLines(u), "\n")
  {
    var head, sb, pb, tail := HeadLines(u), SkillBullets(u.skills), ProjectBullets(u.projects, u.skills), ContactLines(u);
    var mid := MiddleLines();
    JoinFlatten(head, sb, mid + [Join(pb, "\n")] + tail, "\n");
    assert TemplateLines(u) == head + [Join(sb, "\n")] + (mid + [Join(pb, "\n")] + tail);
    JoinFlatten(head + sb + mid, pb, tail, "\n");
    assert head + sb + (mid + [Join(pb, "\n")] + tail) == (head + sb + mid) + [Join(pb, "\n")] + tail;
  }

  // ------------------------------------------------- characters of the text

  lemma {:induction false} LowerFree(s: string, c: char)
    requires c !in s && !('a' <= c <= 'z')
    ensures c !in Lower(s)
  {
  }

  lemma {:induction false} ReplaceFirstFree(s: string, pat: string, rep: string, c: char)
    requires c !in s && c !in rep
    ensures c !in ReplaceFirst(s, pat, rep)
  {
    match IndexOf(s, pat)
    case None =>
    case Some(i) =>
      assert s == s[..i] + s[i..];
  }

  // The template's literals are written in short pieces, and the lemmas below
  // check them piece by piece: a whole literal line at once is too costly for
  // the solver when it has to rule out '<', the line terminators and '*'.

  /** The literal pieces of the template hold only plain characters. */
  lemma {:induction false} HeadTextAvoids(c: char)
    requires !Plain(c)
    ensures c !in "# " && c !in "Professional " && c !in "Portfolio " && c !in "for "
    ensures c !in "## "
  {
  }

  lemma {:induction false} HeadingTextAvoids(c: char)
    requires !Plain(c)
    ensures c !in "### " && c !in "About Me" && c !in "Skills" && c !in "Projects"
    ensures c !in "Contact"
  {
  }

  lemma {:induction false} IntroTextAvoids1(c: char)
    requires !Plain(c)
    ensures c !in "I am a " && c !in "passionate " && c !in " with " && c !in " years of "
    ensures c !in "experience "
  {
  }

  lemma {:induction false} IntroTextAvoids2(c: char)
    requires !Plain(c)
    ensures c !in "specializing " && c !in "in " && c !in ". My " && c !in "journey in "
    ensures c !in "this field "
  {
  }

  lemma {:induction false} IntroTextAvoids3(c: char)
    requires !Plain(c)
    ensures c !in "began with " && c !in "my " && c !in "education " && c !in " and has "
    ensures c !in "evolved "
  {
  }

  lemma {:induction false} IntroTextAvoids4(c: char)
    requires !Plain(c)
    ensures c !in "through " && c !in "various " && c !in "challenging " && c !in "projects."
  {
  }

  lemma {:induction false} ExpertiseTextAvoids1(c: char)
    requires !Plain(c)
    ensures c !in "Throughout " && c !in "my career, " && c !in "I've " && c !in "developed a "
    ensures c !in "strong "
  {
  }

  lemma {:induction false} ExpertiseTextAvoids2(c: char)
    requires !Plain(c)
    ensures c !in "expertise in " && c !in ", " && c !in ". I thrive " && c !in "environments "
    ensures c !in "that require "
  {
  }

  lemma {:induction false} ExpertiseTextAvoids3(c: char)
    requires !Plain(c)
    ensures c !in "problem-" && c !in "solving and " && c !in "creative "
    ensures c !in "thinking to " && c !in "deliver "
  {
  }

  lemma {:induction false} ExpertiseTextAvoids4(c: char)
    requires !Plain(c)
    ensures c !in "efficient, " && c !in "user-" && c !in "friendly " && c !in "solutions."
  {
  }

  lemma {:induction false} LearningTextAvoids1(c: char)
    requires !Plain(c)
    ensures c !in "I'm " && c !in "dedicated to " && c !in "continuous "
    ensures c !in "learning and " && c !in "staying "
  {
  }

  lemma {:induction false} LearningTextAvoids2(c: char)
    requires !Plain(c)
    ensures c !in "updated with " && c !in "the latest " && c !in "technologies "
    ensures c !in "and best " && c !in "practices "
  {
  }

  lemma {:induction false} LearningTextAvoids3(c: char)
    requires !Plain(c)
    ensures c !in "in the " && c !in " field."
  {
  }

  lemma {:induction false} BulletTextAvoids1(c: char)
    requires !Plain(c)
    ensures c !in "- " && c !in ": " && c !in "Experienced " && c !in "in " && c !in " with "
  {
  }

  lemma {:induction false} BulletTextAvoids2(c: char)
    requires !Plain(c)
    ensures c !in "multiple " && c !in "projects " && c !in "implementing " && c !in "this "
    ensures c !in "technology"
  {
  }

  lemma {:induction false} BulletTextAvoids3(c: char)
    requires !Plain(c)
    ensures c !in "Developed a " && c !in " using " && c !in " and "
  {
  }

  lemma {:induction false} ContactTextAvoids1(c: char)
    requires !Plain(c)
    ensures c !in "Email: " && c !in "@example" && c !in ".com  " && c !in "Phone: "
    ensures c !in "(555) "
  {
  }

  lemma {:induction false} ContactTextAvoids2(c: char)
    requires !Plain(c)
    ensures c !in "123-4567  " && c !in "Location: " && c !in "San " && c !in "Francisco, "
    ensures c !in "CA"
  {
  }

  lemma {:induction false} ContactTextAvoids3(c: char)
    requires !Plain(c)
    ensures c !in "        " && c !in "."
  {
  }

  lemma {:induction false} LeadSkillsAvoids(skills: seq<string>, c: char)
    requires !Plain(c)
    requires forall k :: 0 <= k < |skills| ==> c !in skills[k]
    ensures c !in LeadSkills(skills)
  {
    BulletTextAvoids3(c);
    var lead := skills[..Min(2, |skills|)];
    assert forall k :: 0 <= k < |lead| ==> lead[k] == skills[k];
    JoinFree(lead, " and ", c);
  }

  /** The three About Me paragraphs add no character outside the plain ones. */
  lemma {:induction false} AboutAvoids(u: UserData, c: char)
    requires !Plain(c) && FieldsAvoid(u, c)
    ensures c !in AboutIntro(u) && c !in AboutExpertise(u) && c !in AboutLearning(u)
  {
    IntroAvoids(u, c);
    ExpertiseAvoids(u, c);
    LearningAvoids(u, c);
  }

  lemma {:induction false} IntroAvoids(u: UserData, c: char)
    requires !Plain(c) && FieldsAvoid(u, c)
    ensures c !in AboutIntro(u)
  {
    IntroTextAvoids1(c);
    IntroTextAvoids2(c);
    IntroTextAvoids3(c);
    IntroTextAvoids4(c);
    LeadSkillsAvoids(u.skills, c);
    LowerFree(u.profession, c);
  }

  lemma {:induction false} ExpertiseAvoids(u: UserData, c: char)
    requires !Plain(c) && FieldsAvoid(u, c)
    ensures c !in AboutExpertise(u)
  {
    ExpertiseTextAvoids1(c);
    ExpertiseTextAvoids2(c);
    ExpertiseTextAvoids3(c);
    ExpertiseTextAvoids4(c);
    JoinFree(u.skills, ", ", c);
  }

  lemma {:induction false} LearningAvoids(u: UserData, c: char)
    requires !Plain(c) && FieldsAvoid(u, c)
    ensures c !in AboutLearning(u)
  {
    LearningTextAvoids1(c);
    LearningTextAvoids2(c);
    LearningTextAvoids3(c);
    LowerFree(u.profession, c);
  }

  lemma {:induction false} HeadLinesAvoid(u: UserData, c: char)
    requires !Plain(c) && FieldsAvoid(u, c)
    ensures LinesFree(HeadLines(u), c)
  {
    HeadTextAvoids(c);
    HeadingTextAvoids(c);
    AboutAvoids(u, c);
  }

  lemma {:induction false} MiddleLinesAvoid(c: char)
    requires !Plain(c)
    ensures LinesFree(MiddleLines(), c)
  {
    HeadingTextAvoids(c);
  }

  lemma {:induction false} ContactLinesAvoid(u: UserData, c: char)
    requires !Plain(c) && FieldsAvoid(u, c)
    ensures LinesFree(ContactLines(u), c)
  {
    HeadingTextAvoids(c);
    ContactTextAvoids1(c);
    ContactTextAvoids2(c);
    ContactTextAvoids3(c);
    ReplaceFirstFree(u.name, " ", ".", c);
    LowerFree(ReplaceFirst(u.name, " ", "."), c);
  }

  /** The bullets add no character that is neither plain nor an asterisk. */
  lemma {:induction false} BulletsAvoid(u: UserData, c: char)
    requires !Inert(c) && FieldsAvoid(u, c)
    ensures LinesFree(SkillBullets(u.skills), c)
    ensures LinesFree(ProjectBullets(u.projects, u.skills), c)
  {
    BulletTextAvoids1(c);
    BulletTextAvoids2(c);
    BulletTextAvoids3(c);
    LeadSkillsAvoids(u.skills, c);
  }

  /** The document adds no line break and no '<' of its own: whatever the fields avoid, every line avoids. */
  lemma {:induction false} DocumentLinesAvoid(u: UserData, c: char)
    requires !Inert(c) && FieldsAvoid(u, c)
    ensures LinesFree(DocumentLines(u), c)
  {
    var head, sb, mid := HeadLines(u), SkillBullets(u.skills), MiddleLines();
    var pb, tail := ProjectBullets(u.projects, u.skills), ContactLines(u);
    HeadLinesAvoid(u, c);
    BulletsAvoid(u, c);
    MiddleLinesAvoid(c);
    ContactLinesAvoid(u, c);
    var flat := DocumentLines(u);
    forall k | 0 <= k < |flat|
      ensures c !in flat[k]
    {
      if k < |head| {
        assert flat[k] == head[k];
      } else if k < |head| + |sb| {
        assert flat[k] == sb[k - |head|];
      } else if k < |head| + |sb| + |mid| {
        assert flat[k] == mid[k - |head| - |sb|];
      } else if k < |head| + |sb| + |mid| + |pb| {
        assert flat[k] == pb[k - |head| - |sb| - |mid|];
      } else {
        assert flat[k] == tail[k - |head| - |sb| - |mid| - |pb|];
      }
    }
  }

  /** When no field holds a tag opening or a line end, no line of the document does. */
  lemma {:induction false} DocumentLinesInert(u: UserData)
    requires forall c :: !Inert(c) ==> FieldsAvoid(u, c)
    ensures forall k :: 0 <= k < |DocumentLines(u)| ==> InertText(DocumentLines(u)[k])
  {
    var lines := DocumentLines(u);
    forall c | !Inert(c)
      ensures LinesFree(lines, c)
    {
      DocumentLinesAvoid(u, c);
    }
    forall k | 0 <= k < |lines|
      ensures InertText(lines[k])
    {
      InertIffAvoids(lines[k]);
    }
  }

  /** When the fields are plain text, so are the three About Me paragraphs. */
  lemma {:induction false} AboutPlain(u: UserData)
    requires forall c :: !Plain(c) ==> FieldsAvoid(u, c)
    ensures PlainText(AboutIntro(u)) && PlainText(AboutExpertise(u)) && PlainText(AboutLearning(u))
  {
    forall c | !Plain(c)
      ensures c !in AboutIntro(u) && c !in AboutExpertise(u) && c !in AboutLearning(u)
    {
      AboutAvoids(u, c);
    }
    PlainIffAvoids(AboutIntro(u));
    PlainIffAvoids(AboutExpertise(u));
    PlainIffAvoids(AboutLearning(u));
  }

  // ------------------------------------------------------------- lemmas

  /**
   * For a record without line breaks and with at least one skill and one
   * project, splitting the document on "\n" gives back its lines: the fixed
   * header, one bullet per skill in order, the projects heading, one bullet
   * per project in order, and the contact block.
   */
  lemma {:induction false} ContentLines(u: UserData)
    requires FieldsAvoid(u, '\n') && |u.skills| >= 1 && |u.projects| >= 1
    ensures SplitOn(MockContent(u), "\n") == DocumentLines(u)
  {
    ContentDocument(u);
    DocumentLinesAvoid(u, '\n');
    SplitJoin(DocumentLines(u), '\n');
  }

  /** Where each of five concatenated runs sits in the whole. */
  lemma {:induction false} FiveRuns<T>(a: seq<T>, b: seq<T>, c: seq<T>, d: seq<T>, e: seq<T>)
    ensures var s := a + b + c + d + e;
      && s[..|a|] == a
      && (forall k :: 0 <= k < |b| ==> s[|a| + k] == b[k])
      && (forall k :: 0 <= k < |c| ==> s[|a| + |b| + k] == c[k])
      && (forall k :: 0 <= k < |d| ==> s[|a| + |b| + |c| + k] == d[k])
      && (forall k :: 0 <= k < |e| ==> s[|a| + |b| + |c| + |d| + k] == e[k])
  {
  }

  /** The document's lines hold the title, the skills and the projects where the template puts them. */
  lemma {:induction false} DocumentOutline(u: UserData)
    ensures var lines := DocumentLines(u);
      && |lines| == 21 + |u.skills| + |u.projects|
      && lines[..13] == HeadLines(u)
      && (forall k :: 0 <= k < |u.skills| ==> lines[13 + k] == SkillBullet(u.skills[k]))
      && lines[13 + |u.skills|] == ""
      && lines[14 + |u.skills|] == "### " + "Projects"
      && (forall k :: 0 <= k < |u.projects| ==>
            lines[15 + |u.skills| + k] == ProjectBullet(u.projects[k], u.skills))
      && lines[15 + |u.skills| + |u.projects|] == ""
  {
    var head, sb, mid := HeadLines(u), SkillBullets(u.skills), MiddleLines();
    var pb, tail := ProjectBullets(u.projects, u.skills), ContactLines(u);
    assert |head| == 13 && |mid| == 2 && |tail| == 6;
    FiveRuns(head, sb, mid, pb, tail);
    assert mid[0] == "" && mid[1] == "### " + "Projects" && tail[0] == "";
  }

  /** Read line by line, the document has the title, the skills and the projects where the template puts them. */
  lemma {:induction false} ContentOutline(u: UserData)
    requires FieldsAvoid(u, '\n') && |u.skills| >= 1 && |u.projects| >= 1
    ensures var lines := SplitOn(MockContent(u), "\n");
      && |lines| == 21 + |u.skills| + |u.projects|
      && lines[..13] == HeadLines(u)
      && (forall k :: 0 <= k < |u.skills| ==> lines[13 + k] == SkillBullet(u.skills[k]))
      && lines[13 + |u.skills|] == ""
      && lines[14 + |u.skills|] == "### " + "Projects"
      && (forall k :: 0 <= k < |u.projects| ==>
            lines[15 + |u.skills| + k] == ProjectBullet(u.projects[k], u.skills))
      && lines[15 + |u.skills| + |u.projects|] == ""
  {
    ContentLines(u);
    DocumentOutline(u);
  }

  /** Whatever a line contains, the lines joined contain. */
  lemma {:induction false} ContainsWithin(t: seq<string>, i: nat, pat: string)
    requires i < |t| && Contains(t[i], pat)
    ensures Contains(Join(t, "\n"), pat)
  {
    JoinContains(t, "\n", i);
    ContainsTransitive(Join(t, "\n"), t[i], pat);
  }

  /** A bullet list mentions whatever one of its bullets contains. */
  lemma {:induction false} BulletMentions(bullets: seq<string>, k: nat, name: string)
    requires k < |bullets| && Contains(bullets[k], name)
    ensures Contains(Join(bullets, "\n"), name)
  {
    JoinContains(bullets, "\n", k);
    ContainsTransitive(Join(bullets, "\n"), bullets[k], name);
  }

  /** The document names the user, whatever the fields hold. */
  lemma {:induction false} ContentNamesUser(u: UserData)
    ensures Contains(MockContent(u), u.name)
  {
    var t := TemplateLines(u);
    var title := "# " + "Professional " + "Portfolio " + "for ";
    ContainsPiece(title, u.name, "");
    assert title + u.name + "" == t[1];
    ContainsWithin(t, 1, u.name);
  }

  /** The document mentions every skill verbatim, whatever the fields hold. */
  lemma {:induction false} ContentMentionsSkills(u: UserData)
    ensures forall k :: 0 <= k < |u.skills| ==> Contains(MockContent(u), u.skills[k])
  {
    var t := TemplateLines(u);
    var bullets := SkillBullets(u.skills);
    assert t[13] == Join(bullets, "\n");
    forall k | 0 <= k < |u.skills|
      ensures Contains(MockContent(u), u.skills[k])
    {
      var skill := u.skills[k];
      ContainsPiece("- " + "**", skill, "**" + ": " + "Experienced " + "in " + skill + " with " + "multiple "
        + "projects " + "implementing " + "this " + "technology");
      BulletMentions(bullets, k, skill);
      ContainsWithin(t, 13, skill);
    }
  }

  /** The document mentions every project verbatim, whatever the fields hold. */
  lemma {:induction false} ContentMentionsProjects(u: UserData)
    ensures forall k :: 0 <= k < |u.projects| ==> Contains(MockContent(u), u.projects[k])
  {
    var t := TemplateLines(u);
    var items := ProjectBullets(u.projects, u.skills);
    assert t[16] == Join(items, "\n");
    forall k | 0 <= k < |u.projects|
      ensures Contains(MockContent(u), u.projects[k])
    {
      var project := u.projects[k];
      ContainsPiece("- " + "**", project, "**" + ": " + "Developed a " + project + " using " + LeadSkills(u.skills));
      BulletMentions(items, k, project);
      ContainsWithin(t, 16, project);
    }
  }

  /**
   * The address is the name with its first space, and only that one, turned
   * into a dot, then lower-cased.
   */
  lemma {:induction false} EmailUserShape(name: string)
    ensures |EmailUser(name)| == |name|
    ensures forall k :: 0 <= k < |name| ==>
      EmailUser(name)[k] == if IndexOf(name, " ") == Some(k) then '.' else LowerChar(name[k])
  {
    match IndexOf(name, " ")
    case None =>
    case Some(i) =>
      var r := ReplaceFirst(name, " ", ".");
      assert r == name[..i] + "." + name[i + 1..];
      forall k | 0 <= k < |name|
        ensures r[k] == if k == i then '.' else name[k]
      {
        if k < i { assert r[k] == name[..i][k]; }
        else if k > i { assert r[k] == name[i + 1..][k - i - 1]; }
      }
  }
}
