/**
 * The first step of the Generate click handler: read the form, trim the
 * fields, refuse the submission when a required field is empty, and split
 * the skills and projects lists on commas.
 */
module Form {
  import opened Text

  /** The raw values of the form's inputs. */
  datatype Fields = Fields(
    name: string,
    profession: string,
    skills: string,
    experience: string,
    projects: string,
    education: string,
    style: string,
    color: string,
    apiKey: string)

  /** The userData record handed to both generators. */
  datatype UserData = UserData(
    name: string,
    profession: string,
    skills: seq<string>,
    experience: string,
    projects: seq<string>,
    education: string,
    style: string,
    color: string)

  /** A submission that passed validation, with the trimmed credential beside it. */
  datatype Submission = Submission(user: UserData, apiKey: string)

  const MissingFieldsNotice := "Please fill in all required fields"

  /** `s.split(',').map(x => x.trim())`. */
  function SplitList(s: string): (items: seq<string>)
    ensures |items| == multiset(s)[','] + 1
  {
    SplitCount(s, ',');
    var pieces := SplitOn(s, ",");
    seq(|pieces|, k requires 0 <= k < |pieces| => Trim(pieces[k]))
  }

  /**
   * The list is determined by the comma-free pieces of the input: for any
   * way of writing `s` as comma-free pieces joined by commas, the list holds
   * those pieces, trimmed, in the same order. Empty pieces are kept.
   */
  lemma SplitListPieces(s: string, pieces: seq<string>)
    requires |pieces| >= 1
    requires forall k :: 0 <= k < |pieces| ==> ',' !in pieces[k]
    requires Join(pieces, ",") == s
    ensures |SplitList(s)| == |pieces|
    ensures forall k :: 0 <= k < |pieces| ==> SplitList(s)[k] == Trim(pieces[k])
  {
    SplitJoin(pieces, ',');
  }

  /** Every entry of the list is already trimmed. */
  lemma SplitListTrimmed(s: string)
    ensures forall k :: 0 <= k < |SplitList(s)| ==> Trim(SplitList(s)[k]) == SplitList(s)[k]
  {
    var pieces := SplitOn(s, ",");
    forall k | 0 <= k < |pieces|
      ensures Trim(SplitList(s)[k]) == SplitList(s)[k]
    {
      TrimIdempotent(pieces[k]);
    }
  }

  /** A list of three comma-free pieces. */
  lemma SplitListThree(s: string, pieces: seq<string>)
    requires |pieces| == 3 && Join(pieces, ",") == s
    requires ',' !in pieces[0] && ',' !in pieces[1] && ',' !in pieces[2]
    ensures SplitList(s) == [Trim(pieces[0]), Trim(pieces[1]), Trim(pieces[2])]
  {
    SplitListPieces(s, pieces);
  }

  /** Two adjacent commas give an empty entry between them: "a,,b" gives ["a", "", "b"]. */
  lemma SplitListKeepsEmpty(a: string, b: string)
    requires ',' !in a && ',' !in b
    ensures SplitList(a + ",," + b) == [Trim(a), "", Trim(b)]
  {
    var pieces: seq<string> := [a, "", b];
    assert Join(pieces, ",") == a + ",," + b by {
      assert pieces[1..] == ["", b] && pieces[1..][1..] == [b];
      assert Join(pieces[1..], ",") == "," + b;
    }
    SplitListThree(a + ",," + b, pieces);
    assert TrimStart("") == "";
  }

  /**
   * The click handler's validation and normalisation. It trims every field
   * except style and colour, fails when name, profession, skills,
   * experience, projects or education is empty after trimming, and
   * otherwise builds the user record with comma-split lists.
   */
  function Validate(f: Fields): (r: Result<Submission, string>)
    ensures r.Failure? <==> Blank(f.name) || Blank(f.profession) || Blank(f.skills)
                            || Blank(f.experience) || Blank(f.projects) || Blank(f.education)
    ensures r.Failure? ==> r.error == MissingFieldsNotice
    ensures r.Success? ==> r.value.user.style == f.style && r.value.user.color == f.color
    ensures r.Success? ==> r.value.user.name != "" && r.value.user.profession != ""
                           && r.value.user.experience != "" && r.value.user.education != ""
    ensures r.Success? ==> |r.value.user.skills| == multiset(Trim(f.skills))[','] + 1
                           && |r.value.user.projects| == multiset(Trim(f.projects))[','] + 1
    ensures r.Success? ==> r.value == Submission(
                             UserData(Trim(f.name), Trim(f.profession), SplitList(Trim(f.skills)), Trim(f.experience),
                                      SplitList(Trim(f.projects)), Trim(f.education), f.style, f.color),
                             Trim(f.apiKey))
  {
    TrimSpec(f.name);
    TrimSpec(f.profession);
    TrimSpec(f.skills);
    TrimSpec(f.experience);
    TrimSpec(f.projects);
    TrimSpec(f.education);
    var name, profession, skills := Trim(f.name), Trim(f.profession), Trim(f.skills);
    var experience, projects, education := Trim(f.experience), Trim(f.projects), Trim(f.education);
    if name == "" || profession == "" || skills == "" || experience == "" || projects == "" || education == "" then
      Failure(MissingFieldsNotice)
    else
      Success(Submission(
        UserData(name, profession, SplitList(skills), experience, SplitList(projects), education, f.style, f.color),
        Trim(f.apiKey)))
  }

  /** Style, colour and the credential are never checked: changing them does not change the verdict. */
  lemma ValidateIgnoresOptional(f: Fields, style: string, color: string, apiKey: string)
    ensures Validate(f.(style := style, color := color, apiKey := apiKey)).Success? == Validate(f).Success?
  {
  }

  /** The credential is trimmed into the submission but never into the user record. */
  lemma ValidateIgnoresApiKey(f: Fields, apiKey: string)
    ensures Validate(f.(apiKey := apiKey)).Success? == Validate(f).Success?
    ensures Validate(f).Success? ==> Validate(f.(apiKey := apiKey)).value.user == Validate(f).value.user
  {
  }
}
