/**
 * The string and array primitives the generator relies on, as the browser's
 * String and Array methods define them: split with a string separator,
 * join, trim, replace with a string pattern, and an ASCII toLowerCase,
 * together with the leftmost search that split and replace perform.
 */
module Text {

  datatype Option<+T> = None | Some(value: T)

  datatype Result<+T, +E> = Success(value: T) | Failure(error: E)

  function Min(a: int, b: int): int { if a < b then a else b }

  /** `pat` occurs in `s` starting at index `i`. */
  predicate OccursAt(s: string, pat: string, i: int)
  {
    0 <= i && i + |pat| <= |s| && s[i..i + |pat|] == pat
  }

  predicate Contains(s: string, pat: string)
  {
    exists i :: 0 <= i <= |s| && OccursAt(s, pat, i)
  }

  /** Occurrences in `s[1..]` are the occurrences in `s` shifted by one. */
  lemma {:induction false} OccursShift(s: string, pat: string)
    requires |s| > 0
    ensures forall i :: 1 <= i ==> (OccursAt(s, pat, i) <==> OccursAt(s[1..], pat, i - 1))
  {
    forall i | 1 <= i
      ensures OccursAt(s, pat, i) <==> OccursAt(s[1..], pat, i - 1)
    {
      if i + |pat| <= |s| {
        assert s[1..][i - 1..i - 1 + |pat|] == s[i..i + |pat|];
      }
    }
  }

  /** The leftmost search that split and replace perform: the first index at which `pat` occurs, if any. */
  function IndexOf(s: string, pat: string): (r: Option<nat>)
    ensures r.Some? ==> r.value + |pat| <= |s|
    decreases |s|
  {
    if |s| < |pat| then None
    else if s[..|pat|] == pat then Some(0)
    else
      match IndexOf(s[1..], pat)
      case None => None
      case Some(k) => Some(k + 1)
  }

  /**
   * indexOf finds an occurrence, no earlier occurrence exists, and it finds
   * nothing exactly when the pattern does not occur.
   */
  lemma {:induction false} IndexOfSpec(s: string, pat: string)
    ensures IndexOf(s, pat).Some? ==> OccursAt(s, pat, IndexOf(s, pat).value)
    ensures IndexOf(s, pat).Some? ==>
      forall j :: 0 <= j < IndexOf(s, pat).value ==> !OccursAt(s, pat, j)
    ensures IndexOf(s, pat).None? <==> !Contains(s, pat)
    decreases |s|
  {
    if |s| < |pat| {
    } else if s[..|pat|] == pat {
      assert OccursAt(s, pat, 0);
    } else {
      IndexOfSpec(s[1..], pat);
      OccursShift(s, pat);
      assert !OccursAt(s, pat, 0);
      if Contains(s, pat) {
        var i :| 0 <= i <= |s| && OccursAt(s, pat, i);
        assert OccursAt(s[1..], pat, i - 1);
      }
      if Contains(s[1..], pat) {
        var i :| 0 <= i <= |s[1..]| && OccursAt(s[1..], pat, i);
        assert OccursAt(s, pat, i + 1);
      }
    }
  }

  /** The first occurrence is unique: any occurrence with none before it is the one found. */
  lemma {:induction false} IndexOfIs(s: string, pat: string, i: nat)
    requires OccursAt(s, pat, i)
    requires forall j :: 0 <= j < i ==> !OccursAt(s, pat, j)
    ensures IndexOf(s, pat) == Some(i)
  {
    IndexOfSpec(s, pat);
    assert 0 <= i <= |s| && OccursAt(s, pat, i);
  }

  /** An occurrence inside a prefix is an occurrence in the whole string. */
  lemma {:induction false} OccursInPrefix(s: string, pat: string, n: nat, j: int)
    requires n <= |s|
    ensures OccursAt(s[..n], pat, j) <==> (OccursAt(s, pat, j) && j + |pat| <= n)
  {
    if OccursAt(s[..n], pat, j) {
      assert s[..n][j..j + |pat|] == s[j..j + |pat|];
    }
    if OccursAt(s, pat, j) && j + |pat| <= n {
      assert s[..n][j..j + |pat|] == s[j..j + |pat|];
    }
  }

  /** An occurrence inside a suffix is an occurrence in the whole string. */
  lemma {:induction false} OccursInSuffix(s: string, pat: string, n: nat, j: int)
    requires n <= |s|
    ensures OccursAt(s[n..], pat, j) <==> (j >= 0 && OccursAt(s, pat, n + j))
  {
    if OccursAt(s[n..], pat, j) {
      assert s[n..][j..j + |pat|] == s[n + j..n + j + |pat|];
    }
    if j >= 0 && OccursAt(s, pat, n + j) {
      assert s[n..][j..j + |pat|] == s[n + j..n + j + |pat|];
    }
  }

  /** A piece that ends before the first occurrence does not contain the pattern. */
  lemma {:induction false} NoneBefore(s: string, pat: string, i: nat)
    requires |pat| > 0 && i <= |s|
    requires forall j :: 0 <= j < i ==> !OccursAt(s, pat, j)
    ensures !Contains(s[..i], pat)
  {
    forall j | OccursAt(s[..i], pat, j)
      ensures false
    {
      OccursInPrefix(s, pat, i, j);
    }
  }

  /** If `pat` is found in `a`, appending text does not move the first occurrence. */
  lemma {:induction false} IndexOfAppend(a: string, z: string, pat: string)
    requires IndexOf(a, pat).Some?
    ensures IndexOf(a + z, pat) == IndexOf(a, pat)
  {
    IndexOfSpec(a, pat);
    var i := IndexOf(a, pat).value;
    assert (a + z)[..|a|] == a;
    OccursInPrefix(a + z, pat, |a|, i);
    forall j | 0 <= j < i
      ensures !OccursAt(a + z, pat, j)
    {
      OccursInPrefix(a + z, pat, |a|, j);
    }
    IndexOfIs(a + z, pat, i);
  }

  /** A pattern whose first character is absent from `a` cannot start inside `a`. */
  lemma {:induction false} NotBeforeEnd(a: string, b: string, pat: string)
    requires |pat| > 0 && pat[0] !in a
    ensures forall j :: 0 <= j < |a| ==> !OccursAt(a + b, pat, j)
  {
    forall j | 0 <= j < |a|
      ensures !OccursAt(a + b, pat, j)
    {
      assert (a + b)[j] == a[j] != pat[0];
    }
  }

  /** A pattern whose first character is absent from `a` is first found in `b`, shifted. */
  lemma {:induction false} IndexOfSkip(a: string, b: string, pat: string)
    requires |pat| > 0 && pat[0] !in a
    ensures IndexOf(a + b, pat) == match IndexOf(b, pat)
                                   case None => None
                                   case Some(k) => Some(|a| + k)
  {
    NotBeforeEnd(a, b, pat);
    match IndexOf(b, pat)
    case None => SkipToNone(a, b, pat);
    case Some(k) => SkipToSome(a, b, pat, k);
  }

  /** When no occurrence starts inside `a`, and `b` has none, `a + b` has none. */
  lemma {:induction false} SkipToNone(a: string, b: string, pat: string)
    requires forall j :: 0 <= j < |a| ==> !OccursAt(a + b, pat, j)
    requires IndexOf(b, pat).None?
    ensures IndexOf(a + b, pat).None?
  {
    var s := a + b;
    assert s[|a|..] == b;
    IndexOfSpec(b, pat);
    IndexOfSpec(s, pat);
    forall j | 0 <= j <= |s|
      ensures !OccursAt(s, pat, j)
    {
      if j >= |a| {
        OccursInSuffix(s, pat, |a|, j - |a|);
      }
    }
  }

  /** When no occurrence starts inside `a`, the first one in `a + b` is the first one in `b`, shifted. */
  lemma {:induction false} SkipToSome(a: string, b: string, pat: string, k: nat)
    requires forall j :: 0 <= j < |a| ==> !OccursAt(a + b, pat, j)
    requires IndexOf(b, pat) == Some(k)
    ensures IndexOf(a + b, pat) == Some(|a| + k)
  {
    var s := a + b;
    assert s[|a|..] == b;
    IndexOfSpec(b, pat);
    OccursInSuffix(s, pat, |a|, k);
    forall j | |a| <= j < |a| + k
      ensures !OccursAt(s, pat, j)
    {
      OccursInSuffix(s, pat, |a|, j - |a|);
    }
    IndexOfIs(s, pat, |a| + k);
  }

  /** A single character occurs exactly when it is an element. */
  lemma {:induction false} ContainsChar(s: string, c: char)
    ensures Contains(s, [c]) <==> c in s
  {
    if c in s {
      var i :| 0 <= i < |s| && s[i] == c;
      assert OccursAt(s, [c], i);
    }
    if Contains(s, [c]) {
      var i :| 0 <= i <= |s| && OccursAt(s, [c], i);
      assert s[i] == s[i..i + 1][0];
    }
  }

  /**
   * String.prototype.split with a non-empty string separator and no limit:
   * the pieces between successive leftmost occurrences of `sep`.
   */
  function SplitOn(s: string, sep: string): (parts: seq<string>)
    requires |sep| > 0
    ensures |parts| >= 1
    decreases |s|
  {
    match IndexOf(s, sep)
    case None => [s]
    case Some(i) => [s[..i]] + SplitOn(s[i + |sep|..], sep)
  }

  /** Splitting at the first occurrence: the piece before it, then the split of the rest. */
  lemma {:induction false} SplitOnFound(s: string, sep: string, i: nat)
    requires |sep| > 0 && IndexOf(s, sep) == Some(i)
    ensures i + |sep| <= |s| && s[i..i + |sep|] == sep
    ensures !Contains(s[..i], sep)
    ensures SplitOn(s, sep) == [s[..i]] + SplitOn(s[i + |sep|..], sep)
  {
    IndexOfSpec(s, sep);
    NoneBefore(s, sep, i);
  }

  /** Splitting a string that lacks the separator gives the string alone. */
  lemma {:induction false} SplitOnAbsent(s: string, sep: string)
    requires |sep| > 0 && !Contains(s, sep)
    ensures SplitOn(s, sep) == [s]
  {
    IndexOfSpec(s, sep);
  }

  /**
   * A split has more than one piece exactly when the separator occurs, and
   * no piece contains the separator.
   */
  lemma {:induction false} SplitOnSpec(s: string, sep: string)
    requires |sep| > 0
    ensures |SplitOn(s, sep)| == 1 <==> !Contains(s, sep)
    ensures forall k :: 0 <= k < |SplitOn(s, sep)| ==> !Contains(SplitOn(s, sep)[k], sep)
    decreases |s|
  {
    IndexOfSpec(s, sep);
    match IndexOf(s, sep)
    case None =>
    case Some(i) =>
      var rest := s[i + |sep|..];
      SplitOnFound(s, sep, i);
      SplitOnSpec(rest, sep);
      var parts := SplitOn(s, sep);
      forall k | 0 <= k < |parts|
        ensures !Contains(parts[k], sep)
      {
        if k > 0 {
          assert parts[k] == SplitOn(rest, sep)[k - 1];
        }
      }
  }

  /** Slicing a concatenation within its first part. */
  lemma {:induction false} AppendSlices(a: string, z: string, k: nat)
    requires k <= |a|
    ensures (a + z)[..k] == a[..k]
    ensures (a + z)[k..] == a[k..] + z
  {
  }

  /** Putting one piece in front of a non-empty list puts it and a separator in front of the join. */
  lemma {:induction false} JoinCons(x: string, parts: seq<string>, sep: string)
    requires |parts| >= 1
    ensures Join([x] + parts, sep) == x + sep + Join(parts, sep)
  {
    assert ([x] + parts)[1..] == parts;
  }

  /** Array.prototype.join. */
  function Join(parts: seq<string>, sep: string): string
  {
    if |parts| == 0 then ""
    else if |parts| == 1 then parts[0]
    else parts[0] + sep + Join(parts[1..], sep)
  }

  /** Joining the pieces of a split with the same separator gives back the string. */
  lemma {:induction false} JoinSplit(s: string, sep: string)
    requires |sep| > 0
    ensures Join(SplitOn(s, sep), sep) == s
    decreases |s|
  {
    match IndexOf(s, sep)
    case None =>
    case Some(i) =>
      var rest := s[i + |sep|..];
      SplitOnFound(s, sep, i);
      JoinSplit(rest, sep);
      JoinCons(s[..i], SplitOn(rest, sep), sep);
      assert s == s[..i] + s[i..i + |sep|] + rest;
  }

  /** With a one-character separator, a split distributes over an occurrence of it. */
  lemma {:induction false} SplitAround(a: string, c: char, b: string)
    ensures SplitOn(a + [c] + b, [c]) == SplitOn(a, [c]) + SplitOn(b, [c])
    decreases |a|
  {
    var s := a + [c] + b;
    assert a + ([c] + b) == s;
    match IndexOf(a, [c])
    case None =>
      IndexOfSpec(a, [c]);
      ContainsChar(a, c);
      IndexOfSkip(a, [c] + b, [c]);
      assert ([c] + b)[..1] == [c];
      assert IndexOf([c] + b, [c]) == Some(0);
      SplitOnFound(s, [c], |a|);
      assert s[|a| + 1..] == b;
      assert s[..|a|] == a;
    case Some(i) =>
      IndexOfAppend(a, [c] + b, [c]);
      SplitOnFound(s, [c], i);
      SplitOnFound(a, [c], i);
      AppendSlices(a, [c] + b, i);
      AppendSlices(a, [c] + b, i + 1);
      var rest := a[i + 1..];
      assert s[i + 1..] == rest + [c] + b;
      SplitAround(rest, c, b);
      assert SplitOn(s, [c]) == [a[..i]] + (SplitOn(rest, [c]) + SplitOn(b, [c]));
  }

  /** With a one-character separator absent from every piece, split undoes join. */
  lemma {:induction false} SplitJoin(parts: seq<string>, c: char)
    requires |parts| >= 1
    requires forall k :: 0 <= k < |parts| ==> c !in parts[k]
    ensures SplitOn(Join(parts, [c]), [c]) == parts
    decreases |parts|
  {
    ContainsChar(parts[0], c);
    if |parts| > 1 {
      SplitAround(parts[0], c, Join(parts[1..], [c]));
      assert parts[0] + [c] + Join(parts[1..], [c]) == Join(parts, [c]);
      SplitJoin(parts[1..], c);
      SplitOnAbsent(parts[0], [c]);
      assert [parts[0]] + parts[1..] == parts;
    } else {
      SplitOnAbsent(parts[0], [c]);
    }
  }

  /** Splitting on one character yields one more piece than there are occurrences of it. */
  lemma {:induction false} SplitCount(s: string, c: char)
    ensures |SplitOn(s, [c])| == multiset(s)[c] + 1
    decreases |s|
  {
    IndexOfSpec(s, [c]);
    match IndexOf(s, [c])
    case None =>
      ContainsChar(s, c);
    case Some(i) =>
      SplitOnFound(s, [c], i);
      assert s == s[..i] + [c] + s[i + 1..];
      assert multiset(s) == multiset(s[..i]) + multiset([c]) + multiset(s[i + 1..]);
      ContainsChar(s[..i], c);
      SplitCount(s[i + 1..], c);
  }

  /** Each element of a list is a substring of the joined list. */
  lemma {:induction false} JoinContains(parts: seq<string>, sep: string, k: nat)
    requires k < |parts|
    ensures Contains(Join(parts, sep), parts[k])
    decreases |parts|
  {
    var j := Join(parts, sep);
    if |parts| == 1 {
      assert OccursAt(j, parts[0], 0);
    } else if k == 0 {
      assert j[..|parts[0]|] == parts[0];
      assert OccursAt(j, parts[0], 0);
    } else {
      JoinContains(parts[1..], sep, k - 1);
      var rest := Join(parts[1..], sep);
      var i :| 0 <= i <= |rest| && OccursAt(rest, parts[k], i);
      var n := |parts[0] + sep|;
      assert j[n..] == rest;
      OccursInSuffix(j, parts[k], n, i);
    }
  }

  /** A piece is a substring of any text around it. */
  lemma {:induction false} ContainsPiece(a: string, x: string, b: string)
    ensures Contains(a + x + b, x)
  {
    assert (a + x + b)[|a|..|a| + |x|] == x;
    assert OccursAt(a + x + b, x, |a|);
  }

  /** A substring of a substring is a substring. */
  lemma {:induction false} ContainsTransitive(s: string, mid: string, pat: string)
    requires Contains(s, mid) && Contains(mid, pat)
    ensures Contains(s, pat)
  {
    var i :| 0 <= i <= |s| && OccursAt(s, mid, i);
    var j :| 0 <= j <= |mid| && OccursAt(mid, pat, j);
    forall t | 0 <= t < |pat|
      ensures s[i + j + t] == pat[t]
    {
      assert s[i..i + |mid|][j + t] == mid[j + t];
      assert mid[j..j + |pat|][t] == pat[t];
    }
    assert s[i + j..i + j + |pat|] == pat;
    assert OccursAt(s, pat, i + j);
  }

  /** Joining two non-empty lists: the separator also goes between them. */
  lemma {:induction false} JoinAppend(xs: seq<string>, ys: seq<string>, sep: string)
    requires |xs| >= 1 && |ys| >= 1
    ensures Join(xs + ys, sep) == Join(xs, sep) + sep + Join(ys, sep)
    decreases |xs|
  {
    if |xs| > 1 {
      assert (xs + ys)[1..] == xs[1..] + ys;
      JoinAppend(xs[1..], ys, sep);
    }
  }

  /** The join around an inner piece: what comes before it, the piece, and what comes after it. */
  lemma {:induction false} JoinAround(parts: seq<string>, sep: string, i: nat)
    requires 0 < i < |parts| - 1
    ensures Join(parts, sep) == Join(parts[..i], sep) + sep + parts[i] + sep + Join(parts[i + 1..], sep)
  {
    assert parts == parts[..i] + parts[i..];
    JoinAppend(parts[..i], parts[i..], sep);
    JoinCons(parts[i], parts[i + 1..], sep);
    assert parts[i..] == [parts[i]] + parts[i + 1..];
  }

  /** A joined element can be spliced into the surrounding list when the separators agree. */
  lemma {:induction false} JoinFlatten(xs: seq<string>, mid: seq<string>, ys: seq<string>, sep: string)
    requires |xs| >= 1 && |mid| >= 1 && |ys| >= 1
    ensures Join(xs + [Join(mid, sep)] + ys, sep) == Join(xs + mid + ys, sep)
  {
    var j := Join(mid, sep);
    var l1 := xs + [j] + ys;
    var l2 := xs + mid + ys;
    assert Join(l1, sep) == Join(xs, sep) + sep + Join([j] + ys, sep) by {
      assert l1 == xs + ([j] + ys);
      JoinAppend(xs, [j] + ys, sep);
    }
    assert Join([j] + ys, sep) == Join(mid + ys, sep) by {
      JoinAppend([j], ys, sep);
      JoinAppend(mid, ys, sep);
    }
    assert Join(l2, sep) == Join(xs, sep) + sep + Join(mid + ys, sep) by {
      assert l2 == xs + (mid + ys);
      JoinAppend(xs, mid + ys, sep);
    }
  }

  /** A character absent from the pieces and the separator is absent from the join. */
  lemma {:induction false} JoinFree(parts: seq<string>, sep: string, c: char)
    requires c !in sep
    requires forall k :: 0 <= k < |parts| ==> c !in parts[k]
    ensures c !in Join(parts, sep)
    decreases |parts|
  {
    if |parts| > 1 {
      JoinFree(parts[1..], sep, c);
    }
  }

  // ------------------------------------------------------- markup-free text

  /** The characters at which `^`, `$` and `.` of a multiline regular expression stop. */
  predicate IsLineTerminator(c: char)
  {
    c == '\n' || c == '\r' || c == '\U{2028}' || c == '\U{2029}'
  }

  /** A character that neither opens a tag nor ends a line. */
  predicate Inert(c: char)
  {
    c != '<' && !IsLineTerminator(c)
  }

  predicate InertText(s: string)
  {
    forall k :: 0 <= k < |s| ==> Inert(s[k])
  }

  lemma {:induction false} InertAvoids(s: string, c: char)
    requires InertText(s) && !Inert(c)
    ensures c !in s
  {
  }

  /** Text made only of inert characters is exactly text avoiding every non-inert character. */
  lemma {:induction false} InertIffAvoids(s: string)
    ensures InertText(s) <==> forall c :: !Inert(c) ==> c !in s
  {
    if forall c :: !Inert(c) ==> c !in s {
      forall k | 0 <= k < |s|
        ensures Inert(s[k])
      {
        assert s[k] in s;
      }
    }
  }

  /** An inert character that is not the asterisk of the bold syntax either. */
  predicate Plain(c: char)
  {
    Inert(c) && c != '*'
  }

  predicate PlainText(s: string)
  {
    forall k :: 0 <= k < |s| ==> Plain(s[k])
  }

  /** Text made only of plain characters is exactly text avoiding every other character. */
  lemma {:induction false} PlainIffAvoids(s: string)
    ensures PlainText(s) <==> forall c :: !Plain(c) ==> c !in s
  {
    if forall c :: !Plain(c) ==> c !in s {
      forall k | 0 <= k < |s|
        ensures Plain(s[k])
      {
        assert s[k] in s;
      }
    }
  }

  // ------------------------------------------------------------ tag search

  /**
   * Every place where the first character of `tag` occurs in `s` starts a
   * window of |tag| characters inside `s` that is not `tag`: `s` holds no
   * occurrence of `tag`, and no occurrence can begin in `s` and end in
   * text appended after it.
   */
  predicate TagFree(s: string, tag: string)
    requires |tag| > 0
  {
    forall i :: 0 <= i < |s| && s[i] == tag[0] ==> i + |tag| <= |s| && s[i..i + |tag|] != tag
  }

  lemma {:induction false} TagFreeNoStart(s: string, tag: string)
    requires |tag| > 0 && tag[0] !in s
    ensures TagFree(s, tag)
  {
  }

  lemma {:induction false} TagFreeCat(a: string, b: string, tag: string)
    requires |tag| > 0 && TagFree(a, tag) && TagFree(b, tag)
    ensures TagFree(a + b, tag)
  {
    var s := a + b;
    forall i | 0 <= i < |s| && s[i] == tag[0]
      ensures i + |tag| <= |s| && s[i..i + |tag|] != tag
    {
      if i < |a| {
        assert s[i] == a[i];
        assert s[i..i + |tag|] == a[i..i + |tag|];
      } else {
        assert s[i] == b[i - |a|];
        assert s[i..i + |tag|] == b[i - |a|..i - |a| + |tag|];
      }
    }
  }

  lemma {:induction false} TagFreeJoin(parts: seq<string>, sep: string, tag: string)
    requires |tag| > 0 && TagFree(sep, tag)
    requires forall k :: 0 <= k < |parts| ==> TagFree(parts[k], tag)
    ensures TagFree(Join(parts, sep), tag)
    decreases |parts|
  {
    if |parts| == 0 {
    } else if |parts| > 1 {
      TagFreeJoin(parts[1..], sep, tag);
      TagFreeCat(parts[0], sep, tag);
      TagFreeCat(parts[0] + sep, Join(parts[1..], sep), tag);
    }
  }

  lemma {:induction false} TagFreeNotContains(s: string, tag: string)
    requires |tag| > 0 && TagFree(s, tag)
    ensures !Contains(s, tag)
  {
    forall i | 0 <= i <= |s|
      ensures !OccursAt(s, tag, i)
    {
      if i + |tag| <= |s| {
        assert s[i..i + |tag|][0] == s[i];
      }
    }
  }

  /** No occurrence of `tag` can start inside a tag-free prefix. */
  lemma {:induction false} TagFreeNotBefore(a: string, b: string, tag: string)
    requires |tag| > 0 && TagFree(a, tag)
    ensures forall j :: 0 <= j < |a| ==> !OccursAt(a + b, tag, j)
  {
    var s := a + b;
    forall j | 0 <= j < |a|
      ensures !OccursAt(s, tag, j)
    {
      if j + |tag| <= |s| {
        assert s[j..j + |tag|][0] == s[j] == a[j];
        if a[j] == tag[0] {
          assert s[j..j + |tag|] == a[j..j + |tag|];
        }
      }
    }
  }

  /** A tag-free prefix is skipped: the first occurrence, if any, lies in what follows. */
  lemma {:induction false} TagFreeSkip(a: string, b: string, tag: string)
    requires |tag| > 0 && TagFree(a, tag)
    ensures IndexOf(a + b, tag) == match IndexOf(b, tag)
                                   case None => None
                                   case Some(k) => Some(|a| + k)
  {
    TagFreeNotBefore(a, b, tag);
    match IndexOf(b, tag)
    case None => SkipToNone(a, b, tag);
    case Some(k) => SkipToSome(a, b, tag, k);
  }

  // ---------------------------------------------------------------- trim

  /** The characters String.prototype.trim removes: WhiteSpace and LineTerminator. */
  predicate IsSpace(c: char)
  {
    || c == '\t' || c == '\n' || c == '\U{000B}' || c == '\U{000C}' || c == '\r' || c == ' '
    || c == '\U{00A0}' || c == '\U{1680}' || ('\U{2000}' <= c <= '\U{200A}')
    || c == '\U{2028}' || c == '\U{2029}' || c == '\U{202F}' || c == '\U{205F}'
    || c == '\U{3000}' || c == '\U{FEFF}'
  }

  predicate Blank(s: string)
  {
    forall k :: 0 <= k < |s| ==> IsSpace(s[k])
  }

  function TrimStart(s: string): string
  {
    if |s| > 0 && IsSpace(s[0]) then TrimStart(s[1..]) else s
  }

  function TrimEnd(s: string): string
  {
    if |s| > 0 && IsSpace(s[|s| - 1]) then TrimEnd(s[..|s| - 1]) else s
  }

  /** String.prototype.trim. */
  function Trim(s: string): string
  {
    TrimEnd(TrimStart(s))
  }

  lemma {:induction false} TrimStartSpec(s: string)
    ensures |TrimStart(s)| <= |s|
    ensures TrimStart(s) == s[|s| - |TrimStart(s)|..]
    ensures Blank(s[..|s| - |TrimStart(s)|])
    ensures TrimStart(s) != "" ==> !IsSpace(TrimStart(s)[0])
    decreases |s|
  {
    if |s| > 0 && IsSpace(s[0]) {
      TrimStartSpec(s[1..]);
      var n := |s| - |TrimStart(s)|;
      assert s[..n] == [s[0]] + s[1..][..n - 1];
    }
  }

  lemma {:induction false} TrimEndSpec(s: string)
    ensures |TrimEnd(s)| <= |s|
    ensures TrimEnd(s) == s[..|TrimEnd(s)|]
    ensures Blank(s[|TrimEnd(s)|..])
    ensures TrimEnd(s) != "" ==> !IsSpace(TrimEnd(s)[|TrimEnd(s)| - 1])
    decreases |s|
  {
    if |s| > 0 && IsSpace(s[|s| - 1]) {
      var t := s[..|s| - 1];
      TrimEndSpec(t);
      var n := |TrimEnd(s)|;
      assert s[n..] == t[n..] + [s[|s| - 1]];
    }
  }

  /**
   * Trim removes exactly the leading and trailing white space: the result is
   * the infix of `s` that starts and ends with a non-space, everything cut
   * off is white space, and the result is empty exactly when `s` is blank.
   */
  lemma {:induction false} TrimSpec(s: string)
    ensures |Trim(s)| <= |s|
    ensures exists i :: 0 <= i && i + |Trim(s)| <= |s| && Trim(s) == s[i..i + |Trim(s)|]
                        && Blank(s[..i]) && Blank(s[i + |Trim(s)|..])
    ensures Trim(s) != "" ==> !IsSpace(Trim(s)[0]) && !IsSpace(Trim(s)[|Trim(s)| - 1])
    ensures Trim(s) == "" <==> Blank(s)
  {
    var u := TrimStart(s);
    TrimStartSpec(s);
    TrimEndSpec(u);
    var i := |s| - |u|;
    var t := Trim(s);
    assert t == u[..|t|];
    assert t == s[i..i + |t|];
    assert s[i + |t|..] == u[|t|..];
    if t == "" {
      assert u == "";
      forall k | 0 <= k < |s|
        ensures IsSpace(s[k])
      {
        assert s[k] == s[..i][k];
      }
    } else {
      assert t[0] == u[0] == s[i];
    }
  }

  /** Trimming twice is trimming once. */
  lemma {:induction false} TrimIdempotent(s: string)
    ensures Trim(Trim(s)) == Trim(s)
  {
    TrimSpec(s);
    var t := Trim(s);
    if t != "" {
      assert TrimStart(t) == t;
      assert TrimEnd(t) == t;
    }
  }

  // ---------------------------------------------------- case and replace

  /** String.prototype.toLowerCase on one character, for the ASCII letters. */
  function LowerChar(c: char): char
  {
    if 'A' <= c <= 'Z' then (c as int - 'A' as int + 'a' as int) as char else c
  }

  function Lower(s: string): string
  {
    seq(|s|, k requires 0 <= k < |s| => LowerChar(s[k]))
  }

  /** String.prototype.replace with a string pattern: only the first occurrence is replaced. */
  function ReplaceFirst(s: string, pat: string, rep: string): string
  {
    match IndexOf(s, pat)
    case None => s
    case Some(i) => s[..i] + rep + s[i + |pat|..]
  }
}
