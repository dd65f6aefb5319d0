/**
 * Route matching of the course pages. A course id is three non-empty parts
 * joined by '/' or '+' (`courseIdRegex`); the `show` route is an id with an
 * optional trailing '/', the `edit` route an id followed by '/edit' and an
 * optional '/'; the static routes are the index ('' or '/') and the creation
 * page ('new' or 'new/').
 *
 * Matching is modelled on the fragment the router library hands to the route
 * patterns; the library's removal of a leading '/' or '#' before that and its
 * URI decoding of the extracted id are not part of this model.
 */
module CourseRouter {
  import opened Wrappers
  import opened Strings

  predicate IsSeparator(c: char)
  {
    c == '/' || c == '+'
  }

  /** `[^/+]*`: no separator anywhere in `s`. */
  predicate NoSeparator(s: string)
  {
    forall i :: 0 <= i < |s| ==> !IsSeparator(s[i])
  }

  /** `[^/]*`: no '/' anywhere in `s`. */
  predicate NoSlash(s: string)
  {
    forall i :: 0 <= i < |s| ==> s[i] != '/'
  }

  /** The three parts of a course id and the two separators between them. */
  datatype CourseIdParts = CourseIdParts(org: string, sep1: char, course: string, sep2: char, run: string)

  /** The shape `[^/+]+(/|+)[^/+]+(/|+)[^/]+` asks of the parts. */
  predicate ValidParts(p: CourseIdParts)
  {
    && p.org != [] && NoSeparator(p.org)
    && IsSeparator(p.sep1)
    && p.course != [] && NoSeparator(p.course)
    && IsSeparator(p.sep2)
    && p.run != [] && NoSlash(p.run)
  }

  function JoinParts(p: CourseIdParts): string
  {
    p.org + [p.sep1] + p.course + [p.sep2] + p.run
  }

  /** The position of the first separator in `s`, or `|s|` when there is none. */
  function SeparatorIndex(s: string): (k: nat)
    ensures k <= |s|
    ensures NoSeparator(s[..k])
    ensures k < |s| ==> IsSeparator(s[k])
  {
    if s == [] then 0
    else if IsSeparator(s[0]) then 0
    else
      var k := 1 + SeparatorIndex(s[1..]);
      assert s[..k] == [s[0]] + s[1..][..k - 1];
      k
  }

  /**
   * Matching `courseIdRegex` against a whole string. The first two parts
   * cannot hold a separator, so each ends at the next separator and the
   * match, when there is one, is this one.
   */
  function ParseCourseId(s: string): (r: Option<CourseIdParts>)
    ensures r.Some? ==> ValidParts(r.value)
  {
    var i := SeparatorIndex(s);
    if i == 0 || i == |s| then None
    else
      var rest := s[i + 1..];
      var j := SeparatorIndex(rest);
      if j == 0 || j == |rest| then None
      else
        var run := rest[j + 1..];
        if run == [] || !NoSlash(run) then None
        else Some(CourseIdParts(s[..i], s[i], rest[..j], rest[j], run))
  }

  /** The separator search stops at the end of a separator-free prefix. */
  lemma {:induction false} SeparatorIndexAfterPrefix(a: string, rest: string)
    requires NoSeparator(a)
    requires rest != [] && IsSeparator(rest[0])
    ensures SeparatorIndex(a + rest) == |a|
  {
    if a != [] {
      assert (a + rest)[1..] == a[1..] + rest;
      SeparatorIndexAfterPrefix(a[1..], rest);
    } else {
      assert a + rest == rest;
    }
  }

  /** Splitting `a + rest` at its first separator, when `a` holds none and `rest` starts with one. */
  lemma SplitAtSeparator(s: string, a: string, rest: string)
    requires s == a + rest
    requires NoSeparator(a)
    requires rest != [] && IsSeparator(rest[0])
    ensures SeparatorIndex(s) == |a|
    ensures s[..|a|] == a && s[|a|] == rest[0] && s[|a| + 1..] == rest[1..]
  {
    SeparatorIndexAfterPrefix(a, rest);
  }

  /** Parsing once the two separator positions are known. */
  lemma ParseAtSeparators(s: string, i: nat, j: nat)
    requires 0 < i < |s| && SeparatorIndex(s) == i
    requires 0 < j < |s[i + 1..]| && SeparatorIndex(s[i + 1..]) == j
    ensures var run := s[i + 1..][j + 1..];
            ParseCourseId(s) ==
              if run == [] || !NoSlash(run) then None
              else Some(CourseIdParts(s[..i], s[i], s[i + 1..][..j], s[i + 1..][j], run))
  {
  }

  /** In a valid id followed by any text, the first separator ends the first part. */
  lemma FirstSplit(p: CourseIdParts, t: string)
    requires ValidParts(p)
    ensures var s := JoinParts(p) + t;
            var i := |p.org|;
            && SeparatorIndex(s) == i && s[..i] == p.org && s[i] == p.sep1
            && s[i + 1..] == p.course + ([p.sep2] + (p.run + t))
  {
    var rest := p.course + ([p.sep2] + (p.run + t));
    assert JoinParts(p) + t == p.org + ([p.sep1] + rest);
    SplitAtSeparator(JoinParts(p) + t, p.org, [p.sep1] + rest);
  }

  /** After the first separator, the next one ends the second part. */
  lemma SecondSplit(p: CourseIdParts, t: string)
    requires ValidParts(p)
    ensures var rest := p.course + ([p.sep2] + (p.run + t));
            var j := |p.course|;
            && SeparatorIndex(rest) == j && rest[..j] == p.course && rest[j] == p.sep2
            && rest[j + 1..] == p.run + t
  {
    SplitAtSeparator(p.course + ([p.sep2] + (p.run + t)), p.course, [p.sep2] + (p.run + t));
  }

  /**
   * Parsing a valid id followed by any text keeps the first two parts and
   * appends the text to the third, which must still be free of '/'.
   */
  lemma ParseExtendedId(p: CourseIdParts, t: string)
    requires ValidParts(p)
    ensures ParseCourseId(JoinParts(p) + t) ==
              if NoSlash(p.run + t) then Some(p.(run := p.run + t)) else None
  {
    FirstSplit(p, t);
    SecondSplit(p, t);
    ParseAtSeparators(JoinParts(p) + t, |p.org|, |p.course|);
  }

  /** Every valid id matches, and splits back into exactly its own parts. */
  lemma ParseJoin(p: CourseIdParts)
    requires ValidParts(p)
    ensures ParseCourseId(JoinParts(p)) == Some(p)
  {
    ParseExtendedId(p, "");
    assert JoinParts(p) + "" == JoinParts(p);
    assert p.run + "" == p.run;
  }

  /** The joined id, with its concatenations grouped from the right. */
  lemma JoinPartsNested(p: CourseIdParts)
    ensures JoinParts(p) == p.org + ([p.sep1] + (p.course + ([p.sep2] + p.run)))
  {
  }

  /** A text split around one of its characters. */
  lemma SplitAround(s: string, i: nat)
    requires i < |s|
    ensures s == s[..i] + ([s[i]] + s[i + 1..])
  {
  }

  /** What matches is made of the parts found, put back together. */
  lemma ParsedPartsRejoin(s: string)
    requires ParseCourseId(s).Some?
    ensures JoinParts(ParseCourseId(s).value) == s
  {
    var i := SeparatorIndex(s);
    var rest := s[i + 1..];
    var j := SeparatorIndex(rest);
    ParseAtSeparators(s, i, j);
    var p := ParseCourseId(s).value;
    SplitAround(s, i);
    SplitAround(rest, j);
    JoinPartsNested(p);
  }

  /** Whatever matches is a valid id made of the parts found. */
  lemma JoinParse(s: string)
    requires ParseCourseId(s).Some?
    ensures ValidParts(ParseCourseId(s).value)
    ensures JoinParts(ParseCourseId(s).value) == s
  {
    ParsedPartsRejoin(s);
  }

  /** A course id splits into its parts in one way only. */
  lemma PartsUnique(p: CourseIdParts, q: CourseIdParts)
    requires ValidParts(p) && ValidParts(q)
    requires JoinParts(p) == JoinParts(q)
    ensures p == q
  {
    ParseJoin(p);
    ParseJoin(q);
  }

  predicate IsCourseId(s: string)
  {
    ParseCourseId(s).Some?
  }

  // ---------------------------------------------------------------------------
  // Routes
  // ---------------------------------------------------------------------------

  /** The `show` route, `^ID(/)?$`: the id it passes to its handler, if it matches. */
  function MatchShow(f: string): (r: Option<string>)
    ensures r.Some? ==> IsCourseId(r.value) && (f == r.value || f == r.value + "/")
  {
    if IsCourseId(f) then Some(f)
    else if |f| > 0 && f[|f| - 1] == '/' && IsCourseId(f[..|f| - 1]) then
      assert f == f[..|f| - 1] + "/";
      Some(f[..|f| - 1])
    else None
  }

  /** The `edit` route, `^ID/edit(/)?$`: the id it passes to its handler, if it matches. */
  function MatchEdit(f: string): (r: Option<string>)
    ensures r.Some? ==> IsCourseId(r.value) && (f == r.value + "/edit" || f == r.value + "/edit/")
  {
    if EndsWith(f, "/edit") && IsCourseId(f[..|f| - 5]) then
      assert f == f[..|f| - 5] + "/edit";
      Some(f[..|f| - 5])
    else if EndsWith(f, "/edit/") && IsCourseId(f[..|f| - 6]) then
      assert f == f[..|f| - 6] + "/edit/";
      Some(f[..|f| - 6])
    else None
  }

  /** `show` accepts an id with or without a trailing '/' and passes the id without it. */
  lemma ShowAcceptsId(p: CourseIdParts)
    requires ValidParts(p)
    ensures MatchShow(JoinParts(p)) == Some(JoinParts(p))
    ensures MatchShow(JoinParts(p) + "/") == Some(JoinParts(p))
  {
    var id := JoinParts(p);
    ParseJoin(p);
    ParseExtendedId(p, "/");
    assert !NoSlash(p.run + "/") by {
      assert (p.run + "/")[|p.run|] == '/';
    }
    assert (id + "/")[..|id + "/"| - 1] == id;
  }

  /** `edit` accepts an id followed by '/edit', with or without a final '/', and passes the id. */
  lemma EditAcceptsId(p: CourseIdParts)
    requires ValidParts(p)
    ensures MatchEdit(JoinParts(p) + "/edit") == Some(JoinParts(p))
    ensures MatchEdit(JoinParts(p) + "/edit/") == Some(JoinParts(p))
  {
    var id := JoinParts(p);
    ParseJoin(p);
    assert (id + "/edit")[|id + "/edit"| - 5..] == "/edit";
    assert (id + "/edit")[..|id + "/edit"| - 5] == id;
    assert !EndsWith(id + "/edit/", "/edit") by {
      assert (id + "/edit/")[|id + "/edit/"| - 1] == '/';
    }
    assert (id + "/edit/")[|id + "/edit/"| - 6..] == "/edit/";
    assert (id + "/edit/")[..|id + "/edit/"| - 6] == id;
  }

  /** An id followed by '/edit' never matches `show`: the third part of an id holds no '/'. */
  lemma EditPathIsNotShow(p: CourseIdParts)
    requires ValidParts(p)
    ensures MatchShow(JoinParts(p) + "/edit") == None
    ensures MatchShow(JoinParts(p) + "/edit/") == None
  {
    var id := JoinParts(p);
    ParseExtendedId(p, "/edit");
    assert !NoSlash(p.run + "/edit") by {
      assert (p.run + "/edit")[|p.run|] == '/';
    }
    ParseExtendedId(p, "/edit/");
    assert !NoSlash(p.run + "/edit/") by {
      assert (p.run + "/edit/")[|p.run|] == '/';
    }
    assert (id + "/edit/")[..|id + "/edit/"| - 1] == id + "/edit";
  }

  /** No fragment matches both `show` and `edit`. */
  lemma ShowAndEditDisjoint(f: string)
    ensures !(MatchShow(f).Some? && MatchEdit(f).Some?)
  {
    if MatchEdit(f).Some? {
      var id := MatchEdit(f).value;
      JoinParse(id);
      var p := ParseCourseId(id).value;
      EditPathIsNotShow(p);
    }
  }

  /** The text of a fragment before its first '?'. */
  function PathPart(f: string): (r: string)
    ensures |r| <= |f| && r == f[..|r|]
    ensures forall i :: 0 <= i < |r| ==> r[i] != '?'
    ensures |r| < |f| ==> f[|r|] == '?'
  {
    if f == [] || f[0] == '?' then ""
    else
      var r := [f[0]] + PathPart(f[1..]);
      assert f == [f[0]] + f[1..];
      r
  }

  /** The static route '(/)': an optional '/', then an optional '?' and query. */
  predicate MatchIndex(f: string)
    ensures MatchIndex(f) <==> f == "" || f[0] == '?' || (f[0] == '/' && (|f| == 1 || f[1] == '?'))
  {
    PathPart(f) == "" || PathPart(f) == "/"
  }

  /** The static route 'new(/)': 'new', an optional '/', then an optional '?' and query. */
  predicate MatchNew(f: string)
    ensures MatchNew(f) <==>
              |f| >= 3 && f[..3] == "new" && (|f| == 3 || f[3] == '?' || (f[3] == '/' && (|f| == 4 || f[4] == '?')))
  {
    PathPart(f) == "new" || PathPart(f) == "new/"
  }

  datatype Route = Index | New | Show(id: string) | Edit(id: string) | NoRoute

  /**
   * The handler a fragment reaches. Routes added later are tried first, so
   * `edit` and `show`, added in `initialize`, come before the static routes.
   */
  function Dispatch(f: string): (r: Route)
    ensures r.Edit? <==> MatchEdit(f).Some?
    ensures r.Edit? ==> r.id == MatchEdit(f).value
    ensures r.Show? <==> MatchShow(f).Some?
    ensures r.Show? ==> r.id == MatchShow(f).value
    ensures r == Index <==> MatchEdit(f).None? && MatchShow(f).None? && MatchIndex(f)
    ensures r == New <==> MatchEdit(f).None? && MatchShow(f).None? && MatchNew(f)
    ensures r == NoRoute <==> MatchEdit(f).None? && MatchShow(f).None? && !MatchIndex(f) && !MatchNew(f)
  {
    ShowAndEditDisjoint(f);
    match MatchEdit(f)
    case Some(id) => Edit(id)
    case None =>
      match MatchShow(f)
      case Some(id) => Show(id)
      case None =>
        if MatchIndex(f) then Index
        else if MatchNew(f) then New
        else NoRoute
  }

  /** The separator search and the path part on the literal texts of the creation route. */
  lemma NewLiterals()
    ensures SeparatorIndex("new") == 3 && SeparatorIndex("new/") == 3
    ensures PathPart("new") == "new" && PathPart("new/") == "new/"
  {
    assert "new"[1..] == "ew" && "ew"[1..] == "w" && "w"[1..] == "";
    assert "new/"[1..] == "ew/" && "ew/"[1..] == "w/" && "w/"[1..] == "/" && "/"[1..] == "";
  }

  /** '' and '/' reach the index. */
  lemma IndexRoutes()
    ensures Dispatch("") == Index && Dispatch("/") == Index
  {
    assert PathPart("/") == "/" by {
      assert "/"[1..] == "";
    }
    assert !IsCourseId("/");
    assert !IsCourseId("");
  }

  /** 'new' and 'new/' reach the creation page. */
  lemma NewRoutes()
    ensures Dispatch("new") == New && Dispatch("new/") == New
  {
    NewLiterals();
    assert "new/"[..3] == "new";
    assert "new/"[4..] == "";
  }

  /** Course pages reach `show` and `edit` with the course id, whatever order the routes are tried in. */
  lemma CourseRoutes(p: CourseIdParts)
    requires ValidParts(p)
    ensures Dispatch(JoinParts(p)) == Show(JoinParts(p))
    ensures Dispatch(JoinParts(p) + "/") == Show(JoinParts(p))
    ensures Dispatch(JoinParts(p) + "/edit") == Edit(JoinParts(p))
    ensures Dispatch(JoinParts(p) + "/edit/") == Edit(JoinParts(p))
  {
    ShowAcceptsId(p);
    EditAcceptsId(p);
    ShowAndEditDisjoint(JoinParts(p));
    ShowAndEditDisjoint(JoinParts(p) + "/");
  }
}
