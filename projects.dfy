/**
 * The projects page filter (src/pages/Projects.tsx): a category choice, a
 * free-text search that ignores letter case, and the "Clear Filters" button.
 * Everything here is a pure function of the list and the two filter inputs.
 */
module Projects {

  /** One entry of the page's project list (src/pages/Projects.tsx:24-88). */
  datatype Project = Project(title: string, description: string, tags: seq<string>, category: string)

  /** The page's two pieces of filter state (src/pages/Projects.tsx:93-94). */
  datatype Filters = Filters(selectedCategory: string, searchTerm: string)

  /** The category button that disables the category test. */
  const AllCategory: string := "All"

  /** The category buttons, in display order (src/pages/Projects.tsx:90). */
  const Categories: seq<string> := ["All", "Full-Stack", "Enterprise", "Desktop", "Web", "Integration", "System"]

  /** The state the page starts in. */
  const InitialFilters: Filters := Filters(AllCategory, "")

  // ---------------------------------------------------------------------------
  // Case folding (ASCII stand-in for String.prototype.toLowerCase)
  // ---------------------------------------------------------------------------

  predicate IsUpper(c: char) { 'A' <= c <= 'Z' }

  function LowerChar(c: char): (r: char)
    ensures !IsUpper(r)
    ensures IsUpper(c) ==> r as int - c as int == 'a' as int - 'A' as int
    ensures !IsUpper(c) ==> r == c
  {
    if IsUpper(c) then (c as int - 'A' as int + 'a' as int) as char else c
  }

  function UpperChar(c: char): (r: char)
    ensures LowerChar(r) == LowerChar(c)
  {
    if 'a' <= c <= 'z' then (c as int - 'a' as int + 'A' as int) as char else c
  }

  function ToLower(s: string): (r: string)
    ensures |r| == |s|
    ensures forall i :: 0 <= i < |s| ==> r[i] == LowerChar(s[i])
  {
    seq(|s|, i requires 0 <= i < |s| => LowerChar(s[i]))
  }

  function ToUpper(s: string): (r: string)
    ensures |r| == |s|
    ensures forall i :: 0 <= i < |s| ==> r[i] == UpperChar(s[i])
  {
    seq(|s|, i requires 0 <= i < |s| => UpperChar(s[i]))
  }

  /** Lower-casing twice is lower-casing once, and upper-casing first changes nothing. */
  lemma ToLowerAbsorbs(s: string)
    ensures ToLower(ToLower(s)) == ToLower(s)
    ensures ToLower(ToUpper(s)) == ToLower(s)
  {
    assert forall i :: 0 <= i < |s| ==> ToLower(ToLower(s))[i] == ToLower(s)[i];
    assert forall i :: 0 <= i < |s| ==> ToLower(ToUpper(s))[i] == ToLower(s)[i];
  }

  // ---------------------------------------------------------------------------
  // Substring search (String.prototype.includes)
  // ---------------------------------------------------------------------------

  predicate IsPrefix(t: string, s: string) { |t| <= |s| && s[..|t|] == t }

  /** `t` occurs in `s` starting at position `i`. */
  predicate OccursAt(s: string, t: string, i: int)
  {
    0 <= i && i + |t| <= |s| && s[i..i + |t|] == t
  }

  /** `s.includes(t)`: scans `s` from the left for an occurrence of `t`. */
  function Contains(s: string, t: string): bool
    decreases |s|
  {
    IsPrefix(t, s) || (s != [] && Contains(s[1..], t))
  }

  /** An occurrence at position 0 is a prefix. */
  lemma OccursAtZero(s: string, t: string)
    ensures OccursAt(s, t, 0) <==> IsPrefix(t, s)
  {
    if |t| <= |s| {
      assert s[0..|t|] == s[..|t|];
    }
  }

  /** An occurrence in the tail at `i` is an occurrence in the whole string at `i + 1`. */
  lemma OccursShift(s: string, t: string, i: int)
    requires s != [] && 0 <= i
    ensures OccursAt(s[1..], t, i) <==> OccursAt(s, t, i + 1)
  {
    if i + 1 + |t| <= |s| {
      assert s[1..][i..i + |t|] == s[i + 1..i + 1 + |t|];
    }
  }

  /** `Contains` is exactly "there is a position where `t` occurs". */
  lemma {:induction false} ContainsIffOccurs(s: string, t: string)
    ensures Contains(s, t) <==> exists i :: OccursAt(s, t, i)
    decreases |s|
  {
    OccursAtZero(s, t);
    if IsPrefix(t, s) {
    } else if s == [] {
      assert forall i :: !OccursAt(s, t, i);
    } else {
      ContainsIffOccurs(s[1..], t);
      forall i | OccursAt(s, t, i)
        ensures OccursAt(s[1..], t, i - 1)
      {
        OccursShift(s, t, i - 1);
      }
      if Contains(s[1..], t) {
        var i :| OccursAt(s[1..], t, i);
        OccursShift(s, t, i);
      }
    }
  }

  /** Every string contains the empty string. */
  lemma ContainsEmpty(s: string)
    ensures Contains(s, "")
  {
    assert IsPrefix("", s);
  }

  // ---------------------------------------------------------------------------
  // The filter predicate (src/pages/Projects.tsx:96-102)
  // ---------------------------------------------------------------------------

  predicate CategoryMatches(p: Project, category: string)
  {
    category == AllCategory || p.category == category
  }

  /** Title, description or some tag contains the search term, both sides lower-cased. */
  predicate SearchMatches(p: Project, term: string)
  {
    var q := ToLower(term);
    || Contains(ToLower(p.title), q)
    || Contains(ToLower(p.description), q)
    || exists k :: 0 <= k < |p.tags| && Contains(ToLower(p.tags[k]), q)
  }

  predicate Matches(p: Project, f: Filters)
  {
    CategoryMatches(p, f.selectedCategory) && SearchMatches(p, f.searchTerm)
  }

  /** `b` can be obtained from `a` by deleting elements, keeping the order of the rest. */
  ghost predicate IsSubsequence<T>(a: seq<T>, b: seq<T>)
    decreases |b|
  {
    if a == [] then true
    else if b == [] then false
    else (a[0] == b[0] && IsSubsequence(a[1..], b[1..])) || IsSubsequence(a, b[1..])
  }

  /** `projects.filter(...)`: the entries that match, in their original order. */
  function FilterProjects(projects: seq<Project>, f: Filters): (r: seq<Project>)
    ensures |r| <= |projects|
    ensures forall p :: p in r <==> p in projects && Matches(p, f)
    ensures IsSubsequence(r, projects)
    ensures forall q :: multiset(r)[q] == if Matches(q, f) then multiset(projects)[q] else 0
  {
    if projects == [] then []
    else
      var rest := FilterProjects(projects[1..], f);
      assert projects == [projects[0]] + projects[1..];
      if Matches(projects[0], f) then
        assert ([projects[0]] + rest)[1..] == rest;
        [projects[0]] + rest
      else
        rest
  }

  // ---------------------------------------------------------------------------
  // Filter state changes
  // ---------------------------------------------------------------------------

  function SelectCategory(f: Filters, category: string): (r: Filters)
    ensures r.selectedCategory == category && r.searchTerm == f.searchTerm
  {
    f.(selectedCategory := category)
  }

  function SetSearchTerm(f: Filters, term: string): (r: Filters)
    ensures r.searchTerm == term && r.selectedCategory == f.selectedCategory
  {
    f.(searchTerm := term)
  }

  /** The "Clear Filters" button (src/pages/Projects.tsx:176-179). */
  function ClearFilters(f: Filters): (r: Filters)
    ensures r == InitialFilters
  {
    Filters(AllCategory, "")
  }

  // ---------------------------------------------------------------------------
  // Properties
  // ---------------------------------------------------------------------------

  /** With category "All" the category test passes, so only the search decides. */
  lemma AllCategoryOnlySearches(projects: seq<Project>, term: string)
    ensures forall p :: p in FilterProjects(projects, Filters(AllCategory, term)) <==> p in projects && SearchMatches(p, term)
  {
  }

  /** An empty search term matches every project (through its title). */
  lemma EmptySearchMatchesAll(p: Project)
    ensures SearchMatches(p, "")
  {
    ContainsEmpty(ToLower(p.title));
  }

  /** After "Clear Filters" the page shows the full list, in order. */
  lemma {:induction false} ClearFiltersShowsAll(projects: seq<Project>, f: Filters)
    ensures FilterProjects(projects, ClearFilters(f)) == projects
  {
    if projects != [] {
      EmptySearchMatchesAll(projects[0]);
      ClearFiltersShowsAll(projects[1..], f);
    }
  }

  /** The search ignores the case of the search term. */
  lemma SearchIgnoresTermCase(p: Project, term: string)
    ensures SearchMatches(p, ToLower(term)) == SearchMatches(p, term)
    ensures SearchMatches(p, ToUpper(term)) == SearchMatches(p, term)
  {
    ToLowerAbsorbs(term);
  }

  /** Every tag upper-cased. */
  function UpperTags(tags: seq<string>): (r: seq<string>)
    ensures |r| == |tags|
    ensures forall k :: 0 <= k < |tags| ==> r[k] == ToUpper(tags[k])
  {
    seq(|tags|, k requires 0 <= k < |tags| => ToUpper(tags[k]))
  }

  /** The search ignores the case of the project's title, description and tags. */
  lemma SearchIgnoresProjectCase(p: Project, term: string)
    ensures SearchMatches(Project(ToUpper(p.title), ToUpper(p.description), UpperTags(p.tags), p.category), term) == SearchMatches(p, term)
  {
    ToLowerAbsorbs(p.title);
    ToLowerAbsorbs(p.description);
    var up := UpperTags(p.tags);
    forall k | 0 <= k < |p.tags|
      ensures ToLower(up[k]) == ToLower(p.tags[k])
    {
      ToLowerAbsorbs(p.tags[k]);
    }
  }

  /** Filtering an already filtered list with the same filters changes nothing. */
  lemma {:induction false} FilterIdempotent(projects: seq<Project>, f: Filters)
    ensures FilterProjects(FilterProjects(projects, f), f) == FilterProjects(projects, f)
  {
    if projects != [] {
      FilterIdempotent(projects[1..], f);
      var rest := FilterProjects(projects[1..], f);
      if Matches(projects[0], f) {
        var once := [projects[0]] + rest;
        assert once[0] == projects[0] && once[1..] == rest;
        assert FilterProjects(once, f) == [projects[0]] + FilterProjects(rest, f);
      }
    }
  }
}
