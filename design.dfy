/**
 * generateMockDesign: the page the design step falls back to. It converts
 * the content with the markdown chain, cuts the About Me section out of
 * the converted text, and fills the page template with the record, the
 * shaded colour, that section and the current year.
 *
 * The cut reads `html.split('<h2>About Me</h2>')[1].split('<h2>')[0]`.
 * When the heading is absent the split yields one piece, the second piece
 * is undefined, and reading `.split` of it throws a TypeError: that is the
 * `Failure` of `ExtractSection`.
 */
module Design {
  import opened Text
  import opened Form
  import opened Color
  import opened Content
  import opened Markdown

  /** The TypeError thrown by reading `.split` of the undefined second piece. */
  datatype Fault = SplitOfUndefined

  // ------------------------------------------------------------ section cut

  /** The text of `s` before the first `stop`, or all of `s` when there is none. */
  function Before(s: string, stop: string): string
    requires |stop| > 0
  {
    match IndexOf(s, stop)
    case None => s
    case Some(j) => s[..j]
  }

  /** `html.split(heading)[1].split(stop)[0]`. */
  function ExtractSection(html: string, heading: string, stop: string): Result<string, Fault>
    requires |heading| > 0 && |stop| > 0
  {
    var parts := SplitOn(html, heading);
    if |parts| < 2 then Failure(SplitOfUndefined) else Success(SplitOn(parts[1], stop)[0])
  }

  /** The heading the cut at line 382 searches for. */
  function AboutHeading(): string
  {
    Open("h2") + "About Me" + Close("h2")
  }

  /** The heading the content's "### About Me" line is converted into. */
  function AboutHeadingH3(): string
  {
    Open("h3") + "About Me" + Close("h3")
  }

  /** The cut as written. */
  function ExtractAbout(html: string): Result<string, Fault>
  {
    ExtractSection(html, AboutHeading(), Open("h2"))
  }

  /** The cut with the markers the converted content actually holds. */
  function ExtractAboutFixed(html: string): Result<string, Fault>
  {
    ExtractSection(html, AboutHeadingH3(), Open("h3"))
  }

  /** The text after the first `heading`. */
  function After(s: string, heading: string): string
    requires |heading| > 0 && Contains(s, heading)
  {
    IndexOfSpec(s, heading);
    s[IndexOf(s, heading).value + |heading|..]
  }

  /** A tag whose first character occurs nowhere else in it, so two occurrences never overlap. */
  predicate OpensOnce(tag: string)
  {
    |tag| > 0 && tag[0] !in tag[1..]
  }

  /** The first piece of a split is the text before the first separator. */
  lemma {:induction false} SplitFirst(s: string, sep: string)
    requires |sep| > 0
    ensures SplitOn(s, sep)[0] == Before(s, sep)
  {
    IndexOfSpec(s, sep);
    match IndexOf(s, sep)
    case None => SplitOnAbsent(s, sep);
    case Some(i) => SplitOnFound(s, sep, i);
  }

  /** A split has a second piece exactly when the separator occurs; that piece runs up to the next one. */
  lemma {:induction false} SplitSecond(s: string, sep: string)
    requires |sep| > 0
    ensures |SplitOn(s, sep)| >= 2 <==> Contains(s, sep)
    ensures Contains(s, sep) ==> SplitOn(s, sep)[1] == Before(After(s, sep), sep)
  {
    IndexOfSpec(s, sep);
    match IndexOf(s, sep)
    case None => SplitOnAbsent(s, sep);
    case Some(i) =>
      SplitOnFound(s, sep, i);
      SplitFirst(s[i + |sep|..], sep);
  }

  /**
   * Cutting at a heading and then at a tag the heading opens with is
   * cutting at the tag, provided occurrences of the tag cannot overlap.
   */
  lemma {:induction false} BeforeBefore(s: string, heading: string, stop: string)
    requires |heading| > 0 && OpensOnce(stop) && StartsWith(heading, stop)
    ensures Before(Before(s, heading), stop) == Before(s, stop)
  {
    IndexOfSpec(s, heading);
    match IndexOf(s, heading)
    case None =>
    case Some(j) =>
      assert s[j..j + |stop|] == s[j..j + |heading|][..|stop|];
      assert OccursAt(s, stop, j);
      IndexOfSpec(s, stop);
      var k := IndexOf(s, stop).value;
      forall p | k < p < k + |stop|
        ensures s[p] != stop[0]
      {
        OccursAtIndex(s, stop, k, p - k);
        assert stop[1..][p - k - 1] == stop[p - k];
      }
      OccursAtIndex(s, stop, j, 0);
      if k + |stop| <= j {
        OccursInPrefix(s, stop, j, k);
        forall p | 0 <= p < k
          ensures !OccursAt(s[..j], stop, p)
        {
          OccursInPrefix(s, stop, j, p);
        }
        IndexOfIs(s[..j], stop, k);
        assert s[..j][..k] == s[..k];
      } else {
        assert k == j;
        NoneBefore(s, stop, j);
        IndexOfSpec(s[..j], stop);
      }
  }

  /**
   * The cut fails exactly when the heading is absent; otherwise it yields
   * the text after the first heading up to the next occurrence of the stop
   * tag (or to the end), when the heading opens with that tag.
   */
  lemma {:induction false} ExtractSectionSpec(html: string, heading: string, stop: string)
    requires |heading| > 0 && OpensOnce(stop) && StartsWith(heading, stop)
    ensures ExtractSection(html, heading, stop).Failure? <==> !Contains(html, heading)
    ensures Contains(html, heading) ==>
      ExtractSection(html, heading, stop) == Success(Before(After(html, heading), stop))
  {
    SplitSecond(html, heading);
    if Contains(html, heading) {
      var rest := After(html, heading);
      SplitFirst(Before(rest, heading), stop);
      BeforeBefore(rest, heading, stop);
    }
  }

  // ------------------------------------------------------------------ page

  /** `skills.slice(0, 3).join(', ')`. */
  function HeroSkills(skills: seq<string>): (r: string)
    ensures |skills| == 0 ==> r == ""
    ensures |skills| == 1 ==> r == skills[0]
    ensures |skills| == 2 ==> r == skills[0] + ", " + skills[1]
    ensures |skills| >= 3 ==> r == skills[0] + ", " + skills[1] + ", " + skills[2]
  {
    var lead := skills[..Min(3, |skills|)];
    assert |skills| == 1 ==> lead == [skills[0]];
    assert |skills| == 2 ==> lead == [skills[0], skills[1]] && lead[1..] == [skills[1]]
                             && Join(lead[1..], ", ") == skills[1];
    assert |skills| >= 3 ==> lead == [skills[0], skills[1], skills[2]] && lead[1..] == [skills[1], skills[2]]
                             && lead[1..][1..] == [skills[2]]
                             && Join(lead[1..], ", ") == skills[1] + ", " + skills[2];
    Join(lead, ", ")
  }

  /** The card the skills grid holds for one skill (lines 388-393). */
  function SkillCard(skill: string): string
  {
    Join([ "",
           Indent(16) + "<div " + "class=\"skill-card\">",
           Indent(20) + (Open("h3") + skill + Close("h3")),
           Indent(20) + "<p>Experienced in " + skill + " with " + "multiple projects " + "implementing this " + "technology</p>",
           Indent(16) + "</div>",
           Indent(16)
         ], "\n")
  }

  /** The card the projects grid holds for one project (lines 400-408). */
  function ProjectCard(project: string, skills: seq<string>): string
  {
    Join([ "",
           Indent(16) + "<div " + "class=\"project-card\">",
           Indent(20) + "<div " + "class=\"project-image\">" + "</div>",
           Indent(20) + "<div " + "class=\"project-info\">",
           Indent(24) + (Open("h3") + project + Close("h3")),
           Indent(24) + "<p>Developed a " + project + " using " + LeadSkills(skills) + "</p>",
           Indent(20) + "</div>",
           Indent(16) + "</div>",
           Indent(16)
         ], "\n")
  }

  function SkillCards(skills: seq<string>): seq<string>
  {
    seq(|skills|, k requires 0 <= k < |skills| => SkillCard(skills[k]))
  }

  function ProjectCards(projects: seq<string>, skills: seq<string>): seq<string>
  {
    seq(|projects|, k requires 0 <= k < |projects| => ProjectCard(projects[k], skills))
  }

  /** `skills.map(...).join('')`. */
  function SkillsGrid(skills: seq<string>): string
  {
    Join(SkillCards(skills), "")
  }

  /** `projects.map(...).join('')`. */
  function ProjectsGrid(projects: seq<string>, skills: seq<string>): string
  {
    Join(ProjectCards(projects, skills), "")
  }

  /** A run of `n` spaces, the template's indentation. */
  function Indent(n: nat): string
  {
    seq(n, _ => ' ')
  }

  /** Lines 204-218: the document head up to the colour variables. */
  function PageHead(u: UserData, secondary: string): seq<string>
  {
    [ "",
      "<!DOCTYPE html>",
      "<html " + "lang=\"en\">",
      "<head>",
      Indent(4) + "<meta " + "charset=\"UTF-8\">",
      Indent(4) + "<meta " + "name=\"viewport\" " + "content=\"width="
        + "device-width, " + "initial-scale=1.0\">",
      Indent(4) + "<title>" + (u.name + " | " + u.profession) + "</title>",
      Indent(4) + "<style>"
    ]
    + [ Indent(8) + ":root {",
        Indent(12) + "--primary-color: " + u.color + ";",
        Indent(12) + "--secondary-color: " + secondary + ";",
        Indent(12) + "--dark-color: #2f2e41;",
        Indent(12) + "--light-color: #f8f9fa;",
        Indent(12) + "--white: #ffffff;",
        Indent(8) + "}" ]
  }

  /** The reset, the page and the container. */
  function LayoutRules(): string
  {
    Indent(8) + "\n"
    + Indent(8) + "* {\n"
    + Indent(12) + "margin: 0;\n"
    + Indent(12) + "padding: 0;\n"
    + Indent(12) + "box-sizing: border-box;\n"
    + Indent(12) + "font-family: 'Arial', " + "sans-serif;\n"
    + Indent(8) + "}\n"
    + Indent(8) + "\n"
    + Indent(8) + "body {\n"
    + Indent(12) + "background-color: " + "var(--light-color);\n"
    + Indent(12) + "color: " + "var(--dark-color);\n"
    + Indent(12) + "line-height: 1.6;\n"
    + Indent(8) + "}\n"
    + Indent(8) + "\n"
    + Indent(8) + ".container {\n"
    + Indent(12) + "max-width: 1200px;\n"
    + Indent(12) + "margin: 0 auto;\n"
    + Indent(12) + "padding: 2rem;\n"
    + Indent(8) + "}\n"
  }

  /** The header and its navigation. */
  function HeaderRules(): string
  {
    Indent(8) + "\n"
    + Indent(8) + "header {\n"
    + Indent(12) + "background-color: " + "var(--white);\n"
    + Indent(12) + "box-shadow: 0 2px 10px " + "rgba(0,0,0,0.1);\n"
    + Indent(12) + "padding: 1rem 0;\n"
    + Indent(8) + "}\n"
    + Indent(8) + "\n"
    + Indent(8) + ".header-content {\n"
    + Indent(12) + "display: flex;\n"
    + Indent(12) + "justify-content: " + "space-between;\n"
    + Indent(12) + "align-items: center;\n"
    + Indent(8) + "}\n"
    + Indent(8) + "\n"
    + Indent(8) + ".logo {\n"
    + Indent(12) + "font-size: 1.5rem;\n"
    + Indent(12) + "font-weight: bold;\n"
    + Indent(12) + "color: " + "var(--primary-color);\n"
    + Indent(8) + "}\n"
    + Indent(8) + "\n"
    + Indent(8) + "nav ul {\n"
    + Indent(12) + "display: flex;\n"
    + Indent(12) + "list-style: none;\n"
    + Indent(8) + "}\n"
    + Indent(8) + "\n"
    + Indent(8) + "nav ul li {\n"
    + Indent(12) + "margin-left: 1.5rem;\n"
    + Indent(8) + "}\n"
    + Indent(8) + "\n"
    + Indent(8) + "nav ul li a {\n"
    + Indent(12) + "text-decoration: none;\n"
    + Indent(12) + "color: " + "var(--dark-color);\n"
    + Indent(12) + "font-weight: 500;\n"
    + Indent(8) + "}\n"
  }

  /** The hero section. */
  function HeroRules(): string
  {
    Indent(8) + "\n"
    + Indent(8) + ".hero {\n"
    + Indent(12) + "text-align: center;\n"
    + Indent(12) + "padding: 4rem 0;\n"
    + Indent(8) + "}\n"
    + Indent(8) + "\n"
    + Indent(8) + ".hero h1 {\n"
    + Indent(12) + "font-size: 2.5rem;\n"
    + Indent(12) + "margin-bottom: 1rem;\n"
    + Indent(12) + "color: " + "var(--primary-color);\n"
    + Indent(8) + "}\n"
    + Indent(8) + "\n"
    + Indent(8) + ".hero p {\n"
    + Indent(12) + "font-size: 1.2rem;\n"
    + Indent(12) + "color: " + "var(--dark-color);\n"
    + Indent(12) + "opacity: 0.8;\n"
    + Indent(12) + "max-width: 800px;\n"
    + Indent(12) + "margin: 0 auto;\n"
    + Indent(8) + "}\n"
  }

  /** The sections and their headings. */
  function SectionRules(): string
  {
    Indent(8) + "\n"
    + Indent(8) + "section {\n"
    + Indent(12) + "padding: 3rem 0;\n"
    + Indent(8) + "}\n"
    + Indent(8) + "\n"
    + Indent(8) + "h2 {\n"
    + Indent(12) + "font-size: 2rem;\n"
    + Indent(12) + "margin-bottom: 1.5rem;\n"
    + Indent(12) + "color: " + "var(--primary-color);\n"
    + Indent(8) + "}\n"
  }

  /** The skill and project grids and their cards. */
  function GridRules(): string
  {
    Indent(8) + "\n"
    + Indent(8) + ".skills-grid {\n"
    + Indent(12) + "display: grid;\n"
    + Indent(12) + "grid-template-columns: " + "repeat(auto-fill, " + "minmax(250px, 1fr));\n"
    + Indent(12) + "gap: 1.5rem;\n"
    + Indent(12) + "margin-top: 2rem;\n"
    + Indent(8) + "}\n"
    + Indent(8) + "\n"
    + Indent(8) + ".skill-card {\n"
    + Indent(12) + "background-color: " + "var(--white);\n"
    + Indent(12) + "padding: 1.5rem;\n"
    + Indent(12) + "border-radius: 8px;\n"
    + Indent(12) + "box-shadow: 0 4px 6px " + "rgba(0,0,0,0.05);\n"
    + Indent(8) + "}\n"
    + Indent(8) + "\n"
    + Indent(8) + ".projects-grid {\n"
    + Indent(12) + "display: grid;\n"
    + Indent(12) + "grid-template-columns: " + "repeat(auto-fill, " + "minmax(300px, 1fr));\n"
    + Indent(12) + "gap: 1.5rem;\n"
    + Indent(12) + "margin-top: 2rem;\n"
    + Indent(8) + "}\n"
    + Indent(8) + "\n"
    + Indent(8) + ".project-card {\n"
    + Indent(12) + "background-color: " + "var(--white);\n"
    + Indent(12) + "border-radius: 8px;\n"
    + Indent(12) + "overflow: hidden;\n"
    + Indent(12) + "box-shadow: 0 4px 6px " + "rgba(0,0,0,0.05);\n"
    + Indent(8) + "}\n"
    + Indent(8) + "\n"
    + Indent(8) + ".project-image {\n"
    + Indent(12) + "height: 200px;\n"
    + Indent(12) + "background-color: " + "#f0f0f0;\n"
    + Indent(8) + "}\n"
    + Indent(8) + "\n"
    + Indent(8) + ".project-info {\n"
    + Indent(12) + "padding: 1.5rem;\n"
    + Indent(8) + "}\n"
  }

  /** The footer. */
  function FooterRules(): string
  {
    Indent(8) + "\n"
    + Indent(8) + "footer {\n"
    + Indent(12) + "background-color: " + "var(--dark-color);\n"
    + Indent(12) + "color: var(--white);\n"
    + Indent(12) + "padding: 2rem 0;\n"
    + Indent(12) + "text-align: center;\n"
    + Indent(8) + "}\n"
  }

  /** The responsive rules for narrow screens. */
  function MediaRules(): string
  {
    Indent(8) + "\n"
    + Indent(8) + "@media (max-width: " + "768px) {\n"
    + Indent(12) + ".header-content {\n"
    + Indent(16) + "flex-direction: column;\n"
    + Indent(12) + "}\n"
    + Indent(12) + "\n"
    + Indent(12) + "nav ul {\n"
    + Indent(16) + "margin-top: 1rem;\n"
    + Indent(12) + "}\n"
    + Indent(12) + "\n"
    + Indent(12) + "nav ul li {\n"
    + Indent(16) + "margin: 0 0.5rem;\n"
    + Indent(12) + "}\n"
    + Indent(8) + "}\n"
  }

  /** Lines 219-357: the fixed style rules, which hold no interpolation, one text line per source line. */
  function StyleRules(): string
  {
    LayoutRules() + HeaderRules() + HeroRules() + SectionRules() + GridRules() + FooterRules() + MediaRules()
  }

  /** The end of the head, the page header and its navigation (lines 358-374). */
  function BodyTop(u: UserData): seq<string>
  {
    [ Indent(4) + "</style>",
      "</head>",
      "<body>",
      Indent(4) + "<header>",
      Indent(8) + "<div " + "class=\"container " + "header-content\">",
      Indent(12) + "<div class=\"logo\">" + u.name + "</div>",
      Indent(12) + "<nav>",
      Indent(16) + "<ul>",
      Indent(20) + "<li><a " + "href=\"#about\">About</a></li>",
      Indent(20) + "<li><a " + "href=\"#skills\">Skills</a></li>",
      Indent(20) + "<li><a " + "href=\"#projects\">Projects</a></li>",
      Indent(20) + "<li><a " + "href=\"#contact\">Contact</a></li>",
      Indent(16) + "</ul>",
      Indent(12) + "</nav>",
      Indent(8) + "</div>",
      Indent(4) + "</header>",
      Indent(4)
    ]
  }

  /** The opening of the main element and the hero section (lines 375-380). */
  function HeroLines(u: UserData): seq<string>
  {
    [ Indent(4) + "<main " + "class=\"container\">",
      Indent(8) + "<section " + "class=\"hero\">",
      Indent(12) + "<h1>" + u.name + "</h1>",
      Indent(12) + "<p>" + u.profession + " specializing in " + HeroSkills(u.skills) + "</p>",
      Indent(8) + "</section>",
      Indent(8)
    ]
  }

  /** The about section element around the cut section (lines 381-384). */
  function AboutElement(about: string): seq<string>
  {
    [ Indent(8) + "<section " + "id=\"about\">",
      Indent(12) + about,
      Indent(8) + "</section>",
      Indent(8)
    ]
  }

  /** The skills section and its grid (lines 385-396). */
  function SkillsElement(skills: seq<string>): seq<string>
  {
    [ Indent(8) + "<section " + "id=\"skills\">",
      Indent(12) + "<h2>Skills</h2>",
      Indent(12) + "<div " + "class=\"skills-grid\">",
      Indent(16) + SkillsGrid(skills),
      Indent(12) + "</div>",
      Indent(8) + "</section>",
      Indent(8)
    ]
  }

  /** The projects section and its grid (lines 397-416). */
  function ProjectsElement(projects: seq<string>, skills: seq<string>): seq<string>
  {
    [ Indent(8) + "<section " + "id=\"projects\">",
      Indent(12) + "<h2>Projects</h2>",
      Indent(12) + "<div " + "class=\"projects-grid\">",
      Indent(16) + ProjectsGrid(projects, skills),
      Indent(12) + "</div>",
      Indent(8) + "</section>",
      Indent(8)
    ]
  }

  /** The contact section and the end of the main element (lines 417-424). */
  function ContactElement(name: string): seq<string>
  {
    [ Indent(8) + "<section " + "id=\"contact\">",
      Indent(12) + "<h2>Contact</h2>",
      Indent(12) + "<p>Email: " + EmailUser(name) + "@example.com</p>",
      Indent(12) + "<p>Phone: (555) " + "123-4567</p>",
      Indent(12) + "<p>Location: San " + "Francisco, CA</p>",
      Indent(8) + "</section>",
      Indent(4) + "</main>",
      Indent(4)
    ]
  }

  /** The footer and the end of the document. */
  function FooterLines(name: string, year: string): seq<string>
  {
    [ Indent(4) + "<footer>",
      Indent(8) + "<div " + "class=\"container\">",
      Indent(12) + "<p>&copy; " + year + " " + name + ". All rights " + "reserved.</p>",
      Indent(8) + "</div>",
      Indent(4) + "</footer>",
      "</body>",
      "</html>",
      Indent(8)
    ]
  }

  /** Lines 358-427: the body, one element per section, each section's lines joined. */
  function PageBody(u: UserData, about: string, year: string): seq<string>
  {
    [ Join(BodyTop(u), "\n"),
      Join(HeroLines(u), "\n"),
      Join(AboutElement(about), "\n"),
      Join(SkillsElement(u.skills), "\n"),
      Join(ProjectsElement(u.projects, u.skills), "\n"),
      Join(ContactElement(u.name), "\n"),
      Join(FooterLines(u.name, year), "\n")
    ]
  }

  /** The template's layout: the head lines, the style rules, then the body lines. */
  function Layout(head: seq<string>, style: string, body: seq<string>): string
  {
    Join(head, "\n") + "\n" + style + Join(body, "\n")
  }

  /** The template literal filled in with the record, the About Me section and the year. */
  function Page(u: UserData, about: string, year: string): string
    requires IsColor(u.color)
  {
    Layout(PageHead(u, ShadeColor(u.color, -20)), StyleRules(), PageBody(u, about, year))
  }

  /** generateMockDesign(userData, content); `year` stands for `new Date().getFullYear()`. */
  function MockDesign(u: UserData, content: string, year: string): Result<string, Fault>
    requires IsColor(u.color)
  {
    match ExtractAbout(MarkdownToHtml(content))
    case Failure(e) => Failure(e)
    case Success(about) => Success(Page(u, about, year))
  }

  /** generateMockDesign with the cut reading the h3 markers. */
  function MockDesignFixed(u: UserData, content: string, year: string): Result<string, Fault>
    requires IsColor(u.color)
  {
    match ExtractAboutFixed(MarkdownToHtml(content))
    case Failure(e) => Failure(e)
    case Success(about) => Success(Page(u, about, year))
  }

  // --------------------------------------------------------------- outcome

  /** The cut as written fails exactly when the h2 About Me heading is absent. */
  lemma {:induction false} ExtractAboutFails(html: string)
    ensures ExtractAbout(html).Failure? <==> !Contains(html, AboutHeading())
  {
    SplitSecond(html, AboutHeading());
  }

  /** The corrected cut fails exactly when the h3 About Me heading is absent. */
  lemma {:induction false} ExtractAboutFixedFails(html: string)
    ensures ExtractAboutFixed(html).Failure? <==> !Contains(html, AboutHeadingH3())
  {
    SplitSecond(html, AboutHeadingH3());
  }

  // ------------------------------------------------------------ page text

  /** Each skill gets a card, in order: the grid of a longer list is the shorter grid and one more card. */
  lemma {:induction false} SkillsGridAppend(skills: seq<string>, skill: string)
    ensures SkillsGrid(skills + [skill]) == SkillsGrid(skills) + SkillCard(skill)
  {
    var cards := SkillCards(skills + [skill]);
    assert cards == SkillCards(skills) + [SkillCard(skill)];
    if |skills| > 0 {
      JoinAppend(SkillCards(skills), [SkillCard(skill)], "");
    }
  }

  /** Each project gets a card, in order. */
  lemma {:induction false} ProjectsGridAppend(projects: seq<string>, project: string, skills: seq<string>)
    ensures ProjectsGrid(projects + [project], skills) == ProjectsGrid(projects, skills) + ProjectCard(project, skills)
  {
    var cards := ProjectCards(projects + [project], skills);
    assert cards == ProjectCards(projects, skills) + [ProjectCard(project, skills)];
    if |projects| > 0 {
      JoinAppend(ProjectCards(projects, skills), [ProjectCard(project, skills)], "");
    }
  }

  /** A skill's card holds the skill as an h3 heading. */
  lemma {:induction false} SkillCardHeading(skill: string)
    ensures Contains(SkillCard(skill), Open("h3") + skill + Close("h3"))
  {
    var lines := [ "",
                   Indent(16) + "<div " + "class=\"skill-card\">",
                   Indent(20) + (Open("h3") + skill + Close("h3")),
                   Indent(20) + "<p>Experienced in " + skill + " with " + "multiple projects "
                     + "implementing this " + "technology</p>",
                   Indent(16) + "</div>",
                   Indent(16) ];
    assert SkillCard(skill) == Join(lines, "\n");
    JoinContains(lines, "\n", 2);
    ContainsPiece(Indent(20), Open("h3") + skill + Close("h3"), "");
    assert Indent(20) + (Open("h3") + skill + Close("h3")) + "" == lines[2];
    ContainsTransitive(Join(lines, "\n"), lines[2], Open("h3") + skill + Close("h3"));
  }

  /** The skills grid holds an h3 heading for every skill. */
  lemma {:induction false} SkillsGridHeadings(skills: seq<string>, k: nat)
    requires k < |skills|
    ensures Contains(SkillsGrid(skills), Open("h3") + skills[k] + Close("h3"))
  {
    JoinContains(SkillCards(skills), "", k);
    SkillCardHeading(skills[k]);
    ContainsTransitive(SkillsGrid(skills), SkillCard(skills[k]), Open("h3") + skills[k] + Close("h3"));
  }

  /** A project's card holds the project as an h3 heading and the line naming the lead skills. */
  lemma {:induction false} ProjectCardHeading(project: string, skills: seq<string>)
    ensures Contains(ProjectCard(project, skills), Open("h3") + project + Close("h3"))
    ensures Contains(ProjectCard(project, skills), "<p>Developed a " + project + " using " + LeadSkills(skills) + "</p>")
  {
    var heading := Open("h3") + project + Close("h3");
    var developed := "<p>Developed a " + project + " using " + LeadSkills(skills) + "</p>";
    var lines := [ "",
                   Indent(16) + "<div " + "class=\"project-card\">",
                   Indent(20) + "<div " + "class=\"project-image\">" + "</div>",
                   Indent(20) + "<div " + "class=\"project-info\">",
                   Indent(24) + (Open("h3") + project + Close("h3")),
                   Indent(24) + "<p>Developed a " + project + " using " + LeadSkills(skills) + "</p>",
                   Indent(20) + "</div>",
                   Indent(16) + "</div>",
                   Indent(16) ];
    assert ProjectCard(project, skills) == Join(lines, "\n");
    assert lines[4] == Indent(24) + heading + "";
    assert lines[5] == Indent(24) + developed + "";
    BodyLineShown(lines, 4, Indent(24), heading, "");
    BodyLineShown(lines, 5, Indent(24), developed, "");
  }

  /** The projects grid holds the card of every project. */
  lemma {:induction false} ProjectsGridCards(projects: seq<string>, skills: seq<string>, k: nat)
    requires k < |projects|
    ensures Contains(ProjectsGrid(projects, skills), ProjectCard(projects[k], skills))
  {
    JoinContains(ProjectCards(projects, skills), "", k);
  }

  /** The laid-out page holds the body text whole. */
  lemma {:induction false} LayoutHasBody(head: seq<string>, style: string, body: seq<string>)
    ensures Contains(Layout(head, style, body), Join(body, "\n"))
  {
    ContainsPiece(Join(head, "\n") + "\n" + style, Join(body, "\n"), "");
    assert Layout(head, style, body) == Join(head, "\n") + "\n" + style + Join(body, "\n") + "";
  }

  /** The laid-out page holds the head text whole. */
  lemma {:induction false} LayoutHasHead(head: seq<string>, style: string, body: seq<string>)
    ensures Contains(Layout(head, style, body), Join(head, "\n"))
  {
    ContainsPiece("", Join(head, "\n"), "\n" + style + Join(body, "\n"));
    assert Layout(head, style, body) == "" + Join(head, "\n") + ("\n" + style + Join(body, "\n"));
  }

  /** A line of the body, and so whatever it contains, is in the body text. */
  lemma {:induction false} BodyLineShown(body: seq<string>, k: nat, pad: string, x: string, tail: string)
    requires k < |body| && body[k] == pad + x + tail
    ensures Contains(Join(body, "\n"), x)
  {
    JoinContains(body, "\n", k);
    ContainsPiece(pad, x, tail);
    ContainsTransitive(Join(body, "\n"), body[k], x);
  }

  /** Whatever a section's text contains, the body text contains. */
  lemma {:induction false} SectionShown(u: UserData, about: string, year: string, k: nat, x: string)
    requires k < 7 && Contains(PageBody(u, about, year)[k], x)
    ensures Contains(Join(PageBody(u, about, year), "\n"), x)
  {
    var body := PageBody(u, about, year);
    JoinContains(body, "\n", k);
    ContainsTransitive(Join(body, "\n"), body[k], x);
  }

  /** Whatever the body text contains, the page contains. */
  lemma {:induction false} PageShowsBody(u: UserData, about: string, year: string, x: string)
    requires IsColor(u.color) && Contains(Join(PageBody(u, about, year), "\n"), x)
    ensures Contains(Page(u, about, year), x)
  {
    LayoutHasBody(PageHead(u, ShadeColor(u.color, -20)), StyleRules(), PageBody(u, about, year));
    ContainsTransitive(Page(u, about, year), Join(PageBody(u, about, year), "\n"), x);
  }

  /** Whatever the head text contains, the page contains. */
  lemma {:induction false} PageShowsHead(u: UserData, about: string, year: string, x: string)
    requires IsColor(u.color) && Contains(Join(PageHead(u, ShadeColor(u.color, -20)), "\n"), x)
    ensures Contains(Page(u, about, year), x)
  {
    var head := PageHead(u, ShadeColor(u.color, -20));
    LayoutHasHead(head, StyleRules(), PageBody(u, about, year));
    ContainsTransitive(Page(u, about, year), Join(head, "\n"), x);
  }

  /** The document title is the name and the profession. */
  lemma {:induction false} PageShowsTitle(u: UserData, about: string, year: string)
    requires IsColor(u.color)
    ensures Contains(Page(u, about, year), "<title>" + u.name + " | " + u.profession + "</title>")
  {
    var head := PageHead(u, ShadeColor(u.color, -20));
    var title := "<title>" + u.name + " | " + u.profession + "</title>";
    assert head[6] == Indent(4) + title + "";
    BodyLineShown(head, 6, Indent(4), title, "");
    PageShowsHead(u, about, year, title);
  }

  /** The primary colour variable is the chosen colour and the secondary one is that colour shaded by -20 percent. */
  lemma {:induction false} PageShowsColors(u: UserData, about: string, year: string)
    requires IsColor(u.color)
    ensures Contains(Page(u, about, year), "--primary-color: " + u.color + ";")
    ensures Contains(Page(u, about, year), "--secondary-color: " + ShadeColor(u.color, -20) + ";")
  {
    var head := PageHead(u, ShadeColor(u.color, -20));
    var primary := "--primary-color: " + u.color + ";";
    var secondary := "--secondary-color: " + ShadeColor(u.color, -20) + ";";
    assert head[9] == Indent(12) + primary + "";
    assert head[10] == Indent(12) + secondary + "";
    BodyLineShown(head, 9, Indent(12), primary, "");
    BodyLineShown(head, 10, Indent(12), secondary, "");
    PageShowsHead(u, about, year, primary);
    PageShowsHead(u, about, year, secondary);
  }

  /** The page shows the About Me section it is given, in the about section element. */
  lemma {:induction false} PageShowsAbout(u: UserData, about: string, year: string)
    requires IsColor(u.color)
    ensures Contains(Page(u, about, year), about)
  {
    BodyLineShown(AboutElement(about), 1, Indent(12), about, "");
    SectionShown(u, about, year, 2, about);
    PageShowsBody(u, about, year, about);
  }

  /** The page shows every skill as the heading of a card in the skills grid. */
  lemma {:induction false} PageShowsSkills(u: UserData, about: string, year: string, k: nat)
    requires IsColor(u.color) && k < |u.skills|
    ensures Contains(Page(u, about, year), Open("h3") + u.skills[k] + Close("h3"))
  {
    var heading := Open("h3") + u.skills[k] + Close("h3");
    BodyLineShown(SkillsElement(u.skills), 3, Indent(16), SkillsGrid(u.skills), "");
    SkillsGridHeadings(u.skills, k);
    ContainsTransitive(Join(SkillsElement(u.skills), "\n"), SkillsGrid(u.skills), heading);
    SectionShown(u, about, year, 3, heading);
    PageShowsBody(u, about, year, heading);
  }

  /** The footer carries the year and the name. */
  lemma {:induction false} PageShowsYear(u: UserData, about: string, year: string)
    requires IsColor(u.color)
    ensures Contains(Page(u, about, year), "<p>&copy; " + year + " " + u.name)
  {
    var notice := "<p>&copy; " + year + " " + u.name;
    BodyLineShown(FooterLines(u.name, year), 2, Indent(12), notice, ". All rights " + "reserved.</p>");
    SectionShown(u, about, year, 6, notice);
    PageShowsBody(u, about, year, notice);
  }

  /** The hero section shows the name as the page's h1 heading. */
  lemma {:induction false} PageShowsName(u: UserData, about: string, year: string)
    requires IsColor(u.color)
    ensures Contains(Page(u, about, year), "<h1>" + u.name + "</h1>")
  {
    var heading := "<h1>" + u.name + "</h1>";
    assert HeroLines(u)[2] == Indent(12) + heading + "";
    BodyLineShown(HeroLines(u), 2, Indent(12), heading, "");
    SectionShown(u, about, year, 1, heading);
    PageShowsBody(u, about, year, heading);
  }

  /** The hero section introduces the profession with the first three skills. */
  lemma {:induction false} PageShowsHero(u: UserData, about: string, year: string)
    requires IsColor(u.color)
    ensures Contains(Page(u, about, year), "<p>" + u.profession + " specializing in " + HeroSkills(u.skills) + "</p>")
  {
    var line := "<p>" + u.profession + " specializing in " + HeroSkills(u.skills) + "</p>";
    assert HeroLines(u)[3] == Indent(12) + line + "";
    BodyLineShown(HeroLines(u), 3, Indent(12), line, "");
    SectionShown(u, about, year, 1, line);
    PageShowsBody(u, about, year, line);
  }

  /** The page holds the card of every project, in the projects section. */
  lemma {:induction false} PageShowsProjectCard(u: UserData, about: string, year: string, k: nat)
    requires IsColor(u.color) && k < |u.projects|
    ensures Contains(Page(u, about, year), ProjectCard(u.projects[k], u.skills))
  {
    var grid := ProjectsGrid(u.projects, u.skills);
    var card := ProjectCard(u.projects[k], u.skills);
    BodyLineShown(ProjectsElement(u.projects, u.skills), 3, Indent(16), grid, "");
    ProjectsGridCards(u.projects, u.skills, k);
    ContainsTransitive(Join(ProjectsElement(u.projects, u.skills), "\n"), grid, card);
    SectionShown(u, about, year, 4, card);
    PageShowsBody(u, about, year, card);
  }

  /** The page shows one card per project: its h3 heading and the line naming the lead skills. */
  lemma {:induction false} PageShowsProjects(u: UserData, about: string, year: string, k: nat)
    requires IsColor(u.color) && k < |u.projects|
    ensures Contains(Page(u, about, year), Open("h3") + u.projects[k] + Close("h3"))
    ensures Contains(Page(u, about, year), "<p>Developed a " + u.projects[k] + " using " + LeadSkills(u.skills) + "</p>")
  {
    var card := ProjectCard(u.projects[k], u.skills);
    var heading := Open("h3") + u.projects[k] + Close("h3");
    var developed := "<p>Developed a " + u.projects[k] + " using " + LeadSkills(u.skills) + "</p>";
    PageShowsProjectCard(u, about, year, k);
    ProjectCardHeading(u.projects[k], u.skills);
    ContainsTransitive(Page(u, about, year), card, heading);
    ContainsTransitive(Page(u, about, year), card, developed);
  }
}
