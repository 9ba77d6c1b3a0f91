/**
 * The Generate click handler from validation to the displayed page.
 *
 * Neither generatePortfolioContent nor callOpenAI lists `apiKey` among its
 * parameters, yet both read it, so the name is looked up outside them:
 * the credential typed into the form is never seen there. When no global
 * binding of that name exists, reading it throws a ReferenceError inside
 * the `try` of each generator, and both fall back to their mock versions.
 * When one exists, the service call goes out with that global value and
 * either answers or is rejected; both outcomes are parameters here.
 */
module Pipeline {
  import opened Text
  import opened Form
  import opened Color
  import opened Content
  import opened Design
  import opened AboutCut

  /** What one call to the service does: it answers with a text, or it throws. */
  datatype Remote = Reply(text: string) | Rejected

  /** Which About Me cut the design fallback uses: the one at line 382, or one reading h3 markers. */
  datatype Cut = AsWritten | Corrected

  /** What the click ends in: the validation alert, the page shown, or the error alert. */
  datatype Outcome = Refused(notice: string) | Shown(html: string) | Failed(notice: string)

  const GenerationErrorNotice := "Error generating portfolio. Please check your API key and try again."

  /** The service's answer when the global credential exists and the call succeeds, else nothing. */
  function Answer(global: Option<string>, call: Remote): Option<string>
  {
    if global.Some? && call.Reply? then Some(call.text) else None
  }

  /** generatePortfolioContent: the answer, or the mock content when the call throws. */
  function ContentStep(u: UserData, global: Option<string>, call: Remote): string
  {
    match Answer(global, call)
    case Some(text) => text
    case None => MockContent(u)
  }

  /** The design fallback with the chosen cut. */
  function Fallback(cut: Cut, u: UserData, content: string, year: string): Result<string, Fault>
    requires IsColor(u.color)
  {
    match cut
    case AsWritten => MockDesign(u, content, year)
    case Corrected => MockDesignFixed(u, content, year)
  }

  /** generatePortfolioDesign: the answer, or the fallback design, which may throw. */
  function DesignStep(cut: Cut, u: UserData, content: string, global: Option<string>, call: Remote, year: string)
    : Result<string, Fault>
    requires IsColor(u.color)
  {
    match Answer(global, call)
    case Some(text) => Success(text)
    case None => Fallback(cut, u, content, year)
  }

  /** How the handler ends once the design step returns: it shows the page, or catches the throw and alerts. */
  function Display(design: Result<string, Fault>): (r: Outcome)
    ensures r.Shown? <==> design.Success?
    ensures r.Shown? ==> r.html == design.value
    ensures design.Failure? ==> r == Failed(GenerationErrorNotice)
  {
    match design
    case Success(html) => Shown(html)
    case Failure(_) => Failed(GenerationErrorNotice)
  }

  /** Everything after validation: the content step, then the design step, then the display. */
  function Proceed(cut: Cut, u: UserData, global: Option<string>, contentCall: Remote, designCall: Remote, year: string)
    : Outcome
    requires IsColor(u.color)
  {
    Display(DesignStep(cut, u, ContentStep(u, global, contentCall), global, designCall, year))
  }

  /**
   * The click handler (lines 12-73): validate, generate the content, then
   * the design, and show the page; any throw after validation ends in the
   * error alert. The colour comes from a colour input, which always holds
   * a `#rrggbb` value.
   */
  function Generate(cut: Cut, f: Fields, global: Option<string>, contentCall: Remote, designCall: Remote, year: string)
    : (r: Outcome)
    requires IsColor(f.color)
    ensures r.Refused? <==> Validate(f).Failure?
    ensures r.Refused? ==> r.notice == MissingFieldsNotice
  {
    match Validate(f)
    case Failure(notice) => Refused(notice)
    case Success(submission) => Proceed(cut, submission.user, global, contentCall, designCall, year)
  }

  /** The credential typed into the form never changes the outcome. */
  lemma {:induction false} GenerateIgnoresApiKey(cut: Cut, f: Fields, key: string, global: Option<string>,
                                                 contentCall: Remote, designCall: Remote, year: string)
    requires IsColor(f.color)
    ensures Generate(cut, f.(apiKey := key), global, contentCall, designCall, year)
         == Generate(cut, f, global, contentCall, designCall, year)
  {
    ValidateIgnoresApiKey(f, key);
  }

  /** When the credential exists and both calls answer, the page shown is the design call's answer. */
  lemma {:induction false} AnswerShown(cut: Cut, u: UserData, key: string, content: string, html: string, year: string)
    requires IsColor(u.color)
    ensures Proceed(cut, u, Some(key), Reply(content), Reply(html), year) == Shown(html)
  {
  }

  /** A record the fallback content converts without markup of its own. */
  predicate Ordinary(u: UserData)
  {
    InertFields(u) && u.profession != "About Me"
  }

  /** Without the global credential both steps take their fallbacks, whatever the service would do. */
  lemma {:induction false} OfflineSteps(cut: Cut, u: UserData, contentCall: Remote, designCall: Remote, year: string)
    requires IsColor(u.color)
    ensures Proceed(cut, u, None, contentCall, designCall, year) == Display(Fallback(cut, u, MockContent(u), year))
  {
  }

  /**
   * As shipped (no global credential), every valid submission of an
   * ordinary record ends in the error alert, whatever the service would do.
   */
  lemma {:induction false} OfflineFails(u: UserData, contentCall: Remote, designCall: Remote, year: string)
    requires IsColor(u.color) && Ordinary(u) && |u.skills| >= 1 && |u.projects| >= 1
    ensures Proceed(AsWritten, u, None, contentCall, designCall, year) == Failed(GenerationErrorNotice)
  {
    OfflineSteps(AsWritten, u, contentCall, designCall, year);
    MockDesignCrashes(u, year);
  }
}
