# Portfolio generator: the offline fallback path

This project models the part of the portfolio generator's `script.js` that
runs when the remote language-model service is not reached. It is written
in Dafny and its properties are proved by the Dafny verifier.

- **Generate handler.** It trims and validates the form fields. It splits the skills and projects lists on commas.
- **Content step.** It produces the content, either from the service or from `generateMockContent`.
- **Design step.** It produces the page, either from the service or from `generateMockDesign`. The fallback design does three things:
  - It converts the markdown content to HTML with a chain of five regular-expression replacements.
  - It cuts the "About Me" section out of the converted text.
  - It fills the page template with the record, that section, the current year and a secondary colour computed by `shadeColor(color, -20)`.

The central result is a defect in the fallback path, recorded under
"Findings":

- The fallback content writes its headings as `### About Me`, which the chain turns into `<h3>` elements.
- The cut at line 382 searches for `<h2>About Me</h2>`.
- For every record whose fields hold no `<` and no line break and whose profession is not "About Me", the offline path therefore throws a TypeError, and the user sees the error alert instead of a page.

For fields holding no `<`, no line break and no asterisk, a corrected cut
that reads the h3 markers yields exactly the three About Me paragraphs. With
it, the fallback design renders the page.

Modules, one per file:

- `text.dfy` (`Text`): the JavaScript string built-ins the core relies on. These are `split` with a string separator, `join`, `trim`, `toLowerCase` and `replace` with a string pattern. `IndexOf` is the leftmost search that `split` and `replace` perform; the source never calls `indexOf` itself.
- `color.dfy` (`Color`): `shadeColor`.
- `form.dfy` (`Form`): the field record, validation and the comma split.
- `content.dfy` (`Content`): `generateMockContent`.
- `markdown.dfy` (`Markdown`): the replacement chain.
- `design.dfy` (`Design`): the section cut and the page template of `generateMockDesign`.
- `about.dfy` (`AboutCut`): the cut applied to the fallback content, as written and corrected.
- `pipeline.dfy` (`Pipeline`): the click handler from validation to the displayed page.

How the model represents the source:

- **Service calls.** The service call and the presence of a global `apiKey` binding are parameters: `Remote` is the call and `global` is the binding.
  - Neither `generatePortfolioContent` nor `callOpenAI` declares `apiKey`, so both read a name the click handler's local never reaches.
  - Without a global binding, reading that name throws inside the `try`, and each generator falls back to its mock.
- **Current year.** `new Date().getFullYear()` is the parameter `year`.
- **Template literals.** A template literal is the list of its lines joined by `"\n"`. An interpolated `map(...).join(...)` is one element of that list.
- **Regex replacements.** The first four replacements apply per line, because `^`/`$` with the `m` flag and `.` stop at JavaScript line terminators. The model therefore applies a per-line rule to every line and keeps the terminators (`MapLines`).

Where the code and its design description disagree, the model follows the code:

- **No lower clamp.** `shadeColor` caps channels at 255 but never clamps them below 0. Below -100 percent, a channel can turn negative and prints with a `-`.
- **The cut throws.** A missing About Me heading does not give an empty or truncated section. The cut reads `.split` of `undefined` and throws a TypeError, and the handler catches it and shows its error alert.

## Model

| member | source | states |
|---|---|---|
| Text.IndexOfSpec | script.js:382 | the leftmost search that `split` and `replace` perform finds the leftmost occurrence of the pattern, and finds none exactly when the pattern does not occur |
| Text.SplitOnSpec | script.js:382 | a split has more than one piece exactly when the separator occurs, and no piece contains the separator |
| Text.SplitOnFound | script.js:382 | a split is the text before the first separator followed by the split of the rest |
| Text.JoinSplit | script.js:38 | joining the pieces of a split with its separator gives back the string |
| Text.SplitJoin | script.js:38 | with a one-character separator absent from every piece, splitting the joined pieces gives back the pieces |
| Text.SplitCount | script.js:38 | splitting on a character yields one more piece than the character's occurrences |
| Text.TrimSpec | script.js:14-22 | `trim` returns the infix that starts and ends with a non-space, removes only white space, and is empty exactly for blank input |
| Text.TrimIdempotent | script.js:38 | trimming twice is trimming once |
| Color.HexDigit | script.js:448-450 | the printed digit is lower-case and reads back as the value |
| Color.EncodeRoundTrip | script.js:448-450 | a channel in 0..255 prints as two lower-case digits that parse back to it |
| Color.EncodeNegative | script.js:448-450 | a negative channel prints with a leading minus sign |
| Color.ShadeValue | script.js:436-442 | for percent >= -100 a channel becomes the largest q with 100q <= c(100+percent), capped at 255 |
| Color.ShadeZero | script.js:436-442 | percent 0 leaves a channel unchanged |
| Color.DarkenNeverRaises | script.js:436-442 | a non-positive percent never raises a channel |
| Color.LightenNeverLowers | script.js:436-442 | a non-negative percent never lowers a channel |
| Color.ShadeBelowMinus100 | script.js:436-442 | below -100 percent a channel is negative exactly when c(-100-percent) >= 100, and zero otherwise |
| Color.ShadeColorChannels | script.js:431-453 | for percent >= -100 the output is a lower-case `#rrggbb` colour whose channels read back as the shaded input channels |
| Color.ShadeColorZero | script.js:431-453 | percent 0 returns the input colour with its digits lower-cased |
| Color.ShadeColorBelowMinus100 | script.js:431-453 | below -100 percent the output is a colour exactly when it is black; otherwise it holds a `-` |
| Color.DarkerShade | script.js:214 | the secondary colour is a lower-case colour with no channel brighter than the primary's |
| Color.DarkenWhiteByHalf | script.js:431-453 | `#ffffff` at -50 percent gives `#7f7f7f` (127.5 truncates to 127) |
| Form.SplitList | script.js:38 | the list has one more entry than the commas in the input |
| Form.SplitListPieces | script.js:38 | for any comma-free pieces joined by commas, the list is those pieces trimmed, in order |
| Form.SplitListTrimmed | script.js:38 | every entry is already trimmed |
| Form.SplitListKeepsEmpty | script.js:38 | two adjacent commas give an empty entry |
| Form.Validate | script.js:14-44 | fails with the alert text exactly when a required field is blank after trimming. Otherwise the record holds the trimmed fields, the comma-split lists of the trimmed skills and projects (one entry per comma plus one), style and colour as given, and the trimmed credential |
| Form.ValidateIgnoresOptional | script.js:20-25 | style, colour and credential never change the verdict |
| Form.ValidateIgnoresApiKey | script.js:22-44 | the credential never reaches the user record |
| Content.LeadSkills | script.js:175 | `slice(0, 2).join(' and ')` is empty, the one skill, or the first two joined by " and " |
| Content.ContentDocument | script.js:168-192 | with at least one skill and one project, the content is the document's lines joined by "\n", one bullet per line |
| Content.ContentLines | script.js:168-192 | for fields without line breaks, splitting the content on "\n" gives back exactly its lines |
| Content.ContentOutline | script.js:169-190 | read line by line, the content has the title, the About Me heading and paragraphs, every skill bullet and every project bullet in order, and the Projects heading at their places |
| Content.DocumentLinesInert | script.js:168-192 | the template adds no line break or `<` of its own: with inert fields every line is inert |
| Content.AboutPlain | script.js:175-179 | with plain fields the three About Me paragraphs are plain text |
| Content.ContentNamesUser | script.js:170 | the content holds the user's name, whatever the fields hold |
| Content.ContentMentionsSkills | script.js:182 | the content holds every skill verbatim |
| Content.ContentMentionsProjects | script.js:185 | the content holds every project verbatim |
| Content.EmailUserShape | script.js:188 | the address keeps the name's length, turns only its first space into a dot and lower-cases it |
| Markdown.MarkdownToHtml | script.js:197-202 | the converted text holds no "\n" |
| Markdown.ReplaceNewlines | script.js:202 | no "\n" remains, and the text grows by three characters per "\n" (what each "\n" becomes is stated by ReplaceNewlinesJoin) |
| Markdown.BoldPlain | script.js:201 | text without an asterisk passes through the bold replacement unchanged |
| Markdown.BoldPair | script.js:201 | a "**" pair around asterisk-free text becomes a strong element |
| Markdown.BoldUnclosed | script.js:201 | an unclosed "**" is left as it is |
| Markdown.BoldTagFree | script.js:201 | the bold replacement creates no tag other than the strong tags |
| Markdown.LineHtmlH3 | script.js:198-201 | an asterisk-free "### " line becomes an h3 element |
| Markdown.LineHtmlH3Bold | script.js:198-201 | a "### " line of any text becomes an h3 opening followed by the bold replacement of the rest of the line; the h2 and h1 rules leave it alone |
| Markdown.LineHtmlH2 | script.js:198-201 | an asterisk-free "## " line becomes an h2 element |
| Markdown.LineHtmlH2Bold | script.js:199-201 | a "## " line of any text becomes an h2 opening followed by the bold replacement of the rest of the line |
| Markdown.BoldStar | script.js:201 | at an asterisk the bold replacement either keeps the asterisk or opens a strong element |
| Markdown.LineHtmlH1 | script.js:198-201 | an asterisk-free "# " line becomes an h1 element |
| Markdown.LineHtmlH1Bold | script.js:198-201 | a "# " line of any text becomes an h1 opening followed by the bold replacement of the rest of the line |
| Markdown.LineHtmlPlain | script.js:198-201 | a line opening with none of the markers only goes through bold |
| Markdown.LineHtmlTagFree | script.js:198-201 | a converted line holds an `<h2>` (an `<h3>`) only when it opened with "## " ("### ") |
| Markdown.MapLinesJoin | script.js:198-201 | on lines without terminators, one replacement rewrites each line on its own |
| Markdown.ReplaceNewlinesJoin | script.js:202 | the last replacement turns the "\n" between lines into "<br>" |
| Markdown.HtmlOfLines | script.js:197-202 | the chain converts each line on its own and joins the converted lines with "<br>" |
| Design.SplitSecond | script.js:382 | a split has a second piece exactly when the heading occurs, and that piece runs up to the next heading |
| Design.BeforeBefore | script.js:382 | cutting at the heading, then at the tag the heading opens with, is cutting at the tag |
| Design.ExtractSectionSpec | script.js:382 | the cut fails exactly when the heading is absent; otherwise it is the text after the first heading up to the next stop tag |
| Design.ExtractAboutFails | script.js:382 | the cut as written fails exactly when `<h2>About Me</h2>` is absent |
| Design.ExtractAboutFixedFails | script.js:382 | the corrected cut fails exactly when `<h3>About Me</h3>` is absent |
| Design.HeroSkills | script.js:378 | `slice(0, 3).join(', ')` is the first one to three skills joined by ", " |
| Design.SkillsGridAppend | script.js:388-393 | each skill adds one card to the grid, in order |
| Design.ProjectsGridAppend | script.js:400-408 | each project adds one card to the grid, in order |
| Design.SkillsGridHeadings | script.js:388-393 | the skills grid holds an h3 heading for every skill |
| Design.PageShowsTitle | script.js:210 | the page's title is the name and the profession separated by " \| " |
| Design.PageShowsColors | script.js:213-214 | the primary colour variable is the chosen colour and the secondary one is `shadeColor(color, -20)` |
| Design.PageShowsAbout | script.js:381-383 | the page shows the About Me section it is given |
| Design.PageShowsSkills | script.js:385-395 | the page shows every skill as a card heading |
| Design.ProjectCardHeading | script.js:400-408 | a project's card holds the project as an h3 heading and the line "Developed a" project "using" the first two skills |
| Design.ProjectsGridCards | script.js:400-408 | the projects grid holds the card of every project |
| Design.PageShowsName | script.js:377 | the page shows the name as its h1 heading |
| Design.PageShowsHero | script.js:378 | the page introduces the profession "specializing in" the first three skills |
| Design.PageShowsProjectCard | script.js:397-410 | the page holds the card of every project |
| Design.PageShowsProjects | script.js:397-410 | the page shows every project as a card heading, with the line naming the first two skills |
| Design.PageShowsYear | script.js:422 | the footer carries the year and the name |
| AboutCut.DocumentMarkers | script.js:169-190 | of all the content's lines, only the profession line opens with "## " |
| AboutCut.ContentHtml | script.js:168-202 | with inert fields the converted content is the converted lines joined by "<br>" |
| AboutCut.OnlyOtherH2 | script.js:382 | lines whose only h2 element surrounds a text other than "About Me" hold no `<h2>About Me</h2>` |
| AboutCut.ProfessionBoldNotAbout | script.js:172-201 | a converted profession line holds `<h2>About Me</h2>` only when the profession is "About Me", whatever asterisks it holds |
| AboutCut.AboutHeadingMissing | script.js:172-202 | for records whose fields hold no `<` and no line break and whose profession is not "About Me", the converted fallback content holds no `<h2>About Me</h2>` (AboutHeadingExactly adds the converse) |
| AboutCut.MockDesignCrashes | script.js:195-382 | for the same records, the fallback design as written throws on the fallback content |
| AboutCut.AboutProfessionFound | script.js:172-202 | for fields holding no `<` and no line break, a profession of "About Me" makes the converted content hold `<h2>About Me</h2>` |
| AboutCut.AboutHeadingExactly | script.js:172-202 | for fields holding no `<` and no line break, the converted content holds `<h2>About Me</h2>` exactly when the profession is "About Me" |
| AboutCut.MockDesignRendersExactly | script.js:195-382 | for the same records, the fallback design as written renders a page exactly when the profession is "About Me", and otherwise throws |
| AboutCut.CutAtHeading | script.js:382 | after text free of `<h3>`, the corrected cut keeps what follows the heading up to the next `<h3>` |
| AboutCut.AboutFoundFixed | script.js:174-202 | the corrected cut on the converted fallback content yields exactly the three About Me paragraphs, each followed by a line break |
| AboutCut.MockDesignFixedRenders | script.js:195-427 | the corrected fallback design renders the template page with those paragraphs in its about section |
| Pipeline.Display | script.js:52-72 | the page shown is the design step's result exactly when it returns, and a throw ends in the error alert with its fixed text |
| Pipeline.Generate | script.js:12-73 | the handler stops with the validation alert exactly when validation fails |
| Pipeline.GenerateIgnoresApiKey | script.js:22-52 | the credential typed into the form never changes the outcome |
| Pipeline.AnswerShown | script.js:99-101 | when the service answers both calls, the page shown is the design answer |
| Pipeline.OfflineSteps | script.js:99-133 | without a global credential, both steps take their fallbacks whatever the service would do |
| Pipeline.OfflineFails | script.js:48-72 | without a global credential, every record whose fields hold no `<` and no line break and whose profession is not "About Me" ends in the error alert |

## Left out

- The DOM is not modelled: reading the form, the loading modal and its progress messages, `innerHTML`, the download buttons and `downloadPortfolio`. They are interface effects with no logic of their own beyond what is listed here.
- `callOpenAI`, the prompts and the network are left out. A service call is the parameter `Remote`: it answers with a text or it throws. The prompt texts are never parsed.
- The clock is left out: the year is a parameter.
- `console.error` logging is left out.
- Color.ShadeColor: the colour is required to be `#` plus six hexadecimal digits, because it comes from a colour input. `parseInt` on other text (NaN results) is not modelled.
- Color.ShadeColor: integer arithmetic stands in for the double-precision arithmetic. The two agree for integer percents while |c·(100 + percent)| < 2^53. Up to that bound, the product is exact and the rounded quotient truncates to the same integer. Larger percents are not modelled: the product rounds, and from 1e21 on `parseInt` reads exponential notation (`shadeColor("#ffffff", 1e21)` gives "#020202"). Non-integer percents are not modelled either. The source calls it only with -20 (line 214).
- LightenNeverLowers: holds for the integer model at every percent. It holds for the program only within the bound above on |c·(100 + percent)|.
- Text.Lower: lower-cases only the ASCII letters, not the full Unicode case mapping of `toLowerCase`.
- Pipeline.GenerateIgnoresApiKey: it compares outcomes only. The credential's use as a bearer token in the request is part of `callOpenAI`, which is left out.
- Design.PageShowsAbout: states that the section appears in the page, not its exact position among the surrounding lines.
- AboutHeadingMissing: covers records whose fields hold no `<` and no line break, and whose profession is not "About Me". A field holding `<` can spell the heading itself, and a line break can start a line with "## ". Such records are not covered.
- MockDesignCrashes: the same restriction as AboutHeadingMissing, on which it rests.
- AboutProfessionFound: the same restriction on the fields as AboutHeadingMissing.
- AboutHeadingExactly: the same restriction, for both directions.
- MockDesignRendersExactly: the same restriction, on which AboutHeadingExactly rests.
- OfflineFails: the same restriction, through `Ordinary`.
- AboutFoundFixed: covers records whose fields hold no `<`, no line break and no asterisk. An asterisk pair in a field could otherwise add strong tags inside the About Me paragraphs, and the section would no longer be the plain paragraphs.
- MockDesignFixedRenders: the same restriction as AboutFoundFixed, on which it rests.
- The service's own answers are opaque texts: nothing is proved about the page a real model would return.

## Findings

| source | as written | input that shows it | evidently intended | confidence | as-written member | corrected member |
|---|---|---|---|---|---|---|
| script.js:382 | the About Me cut splits the converted content on `<h2>About Me</h2>`, but the fallback content writes `### About Me` (line 174), which the chain turns into `<h3>About Me</h3>`; the split gives one piece and `[1].split` throws a TypeError, so every offline generation for a record whose fields hold no `<` and no line break and whose profession is not "About Me" ends in the error alert (a profession of "About Me" makes line 172 write the very heading the cut looks for) | no global `apiKey`; name "Ada", profession "Engineer", skills "Go", experience "3", projects "Site", education "BSc" | cut on the heading the content actually produces and stop at the next heading of the same level, so that the three About Me paragraphs are shown | not executed | AboutCut.MockDesignCrashes | AboutCut.MockDesignFixedRenders |
