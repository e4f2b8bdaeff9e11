/**
 * `hevycli exercise search <query>`: pages through the exercise templates
 * and collects those that match the query (in the title), the --muscle filter
 * (primary or any secondary muscle group) and the --equipment filter, all
 * case-insensitively, until --limit results are found.
 */
module ExerciseSearch {
  import opened Common
  import opened ApiTypes
  import opened Paging

  const DefaultLimit: int := 20
  const TitleWidth: int := 35
  const EmptyMessage: string := "No exercises found matching your search criteria."

  /** Some secondary muscle group contains `muscle`, ignoring case. */
  predicate SecondaryMatch(ex: ExerciseTemplate, muscle: string)
  {
    exists k :: 0 <= k < |ex.secondaryMuscleGroups| && Contains(Lower(ex.secondaryMuscleGroups[k]), Lower(muscle))
  }

  /**
   * What a template must satisfy: the (already lower-cased) query occurs in
   * the lower-cased title, a muscle filter occurs in the primary or a
   * secondary muscle group, an equipment filter occurs in the equipment. An
   * empty query or filter imposes nothing.
   */
  predicate Matches(ex: ExerciseTemplate, query: string, muscle: string, equipment: string)
  {
    && (query == "" || Contains(Lower(ex.title), query))
    && (muscle == "" || Contains(Lower(ex.primaryMuscleGroup), Lower(muscle)) || SecondaryMatch(ex, muscle))
    && (equipment == "" || Contains(Lower(ex.equipment), Lower(equipment)))
  }

  function Matcher(query: string, muscle: string, equipment: string): ExerciseTemplate -> bool
  {
    ex => Matches(ex, query, muscle, equipment)
  }

  /** matchesSearch, with its early returns and its early exit from the secondary-group loop. */
  method MatchesSearch(ex: ExerciseTemplate, query: string, muscle: string, equipment: string) returns (b: bool)
    ensures b == Matches(ex, query, muscle, equipment)
  {
    if query != "" && !Contains(Lower(ex.title), query) {
      return false;
    }
    if muscle != "" {
      var m := Lower(muscle);
      var primaryMatch := Contains(Lower(ex.primaryMuscleGroup), m);
      var secondaryMatch := false;
      var k := 0;
      while k < |ex.secondaryMuscleGroups|
        invariant 0 <= k <= |ex.secondaryMuscleGroups|
        invariant !secondaryMatch
        invariant forall j :: 0 <= j < k ==> !Contains(Lower(ex.secondaryMuscleGroups[j]), m)
      {
        if Contains(Lower(ex.secondaryMuscleGroups[k]), m) {
          secondaryMatch := true;
          break;
        }
        k := k + 1;
      }
      assert secondaryMatch <==> SecondaryMatch(ex, muscle);
      if !primaryMatch && !secondaryMatch {
        return false;
      }
    }
    if equipment != "" {
      if !Contains(Lower(ex.equipment), Lower(equipment)) {
        return false;
      }
    }
    return true;
  }

  /** Without a query and filters every template matches. */
  lemma NoCriteriaMatchesAll(ex: ExerciseTemplate)
    ensures Matches(ex, "", "", "")
  {
  }

  /** A template is found by its own title, typed in any case, and by any of its secondary muscle groups. */
  lemma OwnNamesMatch(ex: ExerciseTemplate, k: int)
    requires 0 <= k < |ex.secondaryMuscleGroups|
    ensures Matches(ex, Lower(ex.title), "", "")
    ensures Matches(ex, "", ex.secondaryMuscleGroups[k], "")
  {
    ContainsSelf(Lower(ex.title));
    ContainsSelf(Lower(ex.secondaryMuscleGroups[k]));
  }

  /** The matches among the templates of the first `k` pages. */
  function MatchesUpTo(pages: seq<Fetch<ExerciseTemplate>>, k: int, m: ExerciseTemplate -> bool): seq<ExerciseTemplate>
  {
    Filter(Flatten(pages[..Max(0, Min(k, |pages|))]), m)
  }

  /** The matches of `pages[..k]` followed by those of the next page are the matches of `pages[..k + 1]`. */
  lemma MatchesNextPage(pages: seq<Fetch<ExerciseTemplate>>, k: int, m: ExerciseTemplate -> bool)
    requires 0 <= k
    ensures k < |pages| ==> MatchesUpTo(pages, k + 1, m) == MatchesUpTo(pages, k, m) + Filter(Items(pages[k]), m)
    ensures k >= |pages| ==> MatchesUpTo(pages, k + 1, m) == MatchesUpTo(pages, k, m)
  {
    if k < |pages| {
      assert pages[..k + 1] == pages[..k] + [pages[k]];
      FlattenAppend(pages[..k], [pages[k]]);
      assert Flatten([pages[k]]) == Items(pages[k]);
      FilterAppend(Flatten(pages[..k]), Items(pages[k]), m);
    }
  }

  /** The matches of a prefix of the pages come first among the matches of all of them. */
  lemma MatchesUpToPrefix(pages: seq<Fetch<ExerciseTemplate>>, k: int, m: ExerciseTemplate -> bool)
    requires 0 <= k <= |pages|
    ensures exists rest :: MatchesUpTo(pages, |pages|, m) == MatchesUpTo(pages, k, m) + rest
  {
    assert pages == pages[..k] + pages[k..];
    FlattenAppend(pages[..k], pages[k..]);
    FilterAppend(Flatten(pages[..k]), Flatten(pages[k..]), m);
    assert pages[..Max(0, Min(|pages|, |pages|))] == pages;
    assert pages[..Max(0, Min(k, |pages|))] == pages[..k];
    assert MatchesUpTo(pages, |pages|, m) == MatchesUpTo(pages, k, m) + Filter(Flatten(pages[k..]), m);
  }

  /** Once every page is scanned, the matches so far are all the matches. */
  lemma AllPagesScanned(pages: seq<Fetch<ExerciseTemplate>>, k: int, m: ExerciseTemplate -> bool)
    requires k >= |pages|
    ensures MatchesUpTo(pages, k, m) == Filter(Flatten(pages), m)
  {
    assert pages[..Max(0, Min(k, |pages|))] == pages;
  }

  /** Once `limit` matches are held, the later pages cannot change the first `limit`. */
  lemma LimitReached(pages: seq<Fetch<ExerciseTemplate>>, k: int, m: ExerciseTemplate -> bool, limit: int)
    requires 0 <= k <= |pages|
    requires |Take(MatchesUpTo(pages, k, m), limit)| >= limit
    ensures Take(MatchesUpTo(pages, k, m), limit) == Take(Filter(Flatten(pages), m), limit)
  {
    MatchesUpToPrefix(pages, k, m);
    AllPagesScanned(pages, |pages|, m);
    var rest :| MatchesUpTo(pages, |pages|, m) == MatchesUpTo(pages, k, m) + rest;
    TakeLongPrefix(MatchesUpTo(pages, k, m), rest, limit);
  }

  lemma TakeShort<T>(xs: seq<T>, n: int)
    requires |Take(xs, n)| < n
    ensures Take(xs, n) == xs
  {
  }

  lemma FilterStep<T>(t: seq<T>, i: int, m: T -> bool)
    requires 0 <= i < |t|
    ensures Filter(t[..i + 1], m) == Filter(t[..i], m) + (if m(t[i]) then [t[i]] else [])
  {
    assert t[..i + 1][..i] == t[..i];
  }

  /** Scanning one page's templates, stopping as soon as `limit` results are held. */
  method ScanPage(results0: seq<ExerciseTemplate>, t: seq<ExerciseTemplate>, query: string, muscle: string, equipment: string, limit: int)
    returns (results: seq<ExerciseTemplate>)
    requires |results0| < limit
    ensures results == Take(results0 + Filter(t, Matcher(query, muscle, equipment)), limit)
  {
    ghost var m := Matcher(query, muscle, equipment);
    results := results0;
    var i := 0;
    while i < |t| && |results| < limit
      invariant 0 <= i <= |t|
      invariant results == results0 + Filter(t[..i], m)
      invariant |results| <= limit
    {
      FilterStep(t, i, m);
      var ok := MatchesSearch(t[i], query, muscle, equipment);
      if ok {
        results := results + [t[i]];
      }
      i := i + 1;
    }
    ScanStops(results0, t, i, m, limit);
  }

  /** Where the page scan stops, it holds the first `limit` of the matches so far. */
  lemma ScanStops(results0: seq<ExerciseTemplate>, t: seq<ExerciseTemplate>, i: int, m: ExerciseTemplate -> bool, limit: int)
    requires 0 <= i <= |t|
    requires |results0 + Filter(t[..i], m)| <= limit
    requires i == |t| || |results0 + Filter(t[..i], m)| >= limit
    ensures results0 + Filter(t[..i], m) == Take(results0 + Filter(t, m), limit)
  {
    var results := results0 + Filter(t[..i], m);
    if i == |t| {
      assert t[..i] == t;
    } else {
      assert t == t[..i] + t[i..];
      FilterAppend(t[..i], t[i..], m);
      assert results0 + Filter(t, m) == results + Filter(t[i..], m);
      TakeLongPrefix(results, Filter(t[i..], m), limit);
    }
  }

  /**
   * runSearch's loop: the query is lower-cased once, pages are fetched from 1
   * while fewer than `limit` results are held, and the first failed request
   * ends the search. The results are the first `limit` matches over all
   * pages, in page order.
   */
  method Search(pages: seq<Fetch<ExerciseTemplate>>, query: string, muscle: string, equipment: string, limit: int)
    returns (r: Result<seq<ExerciseTemplate>>)
    ensures (forall j :: 0 <= j < |pages| ==> pages[j].Fetched?) ==> r.Ok?
    ensures r.Ok? ==> r.value == Take(Filter(Flatten(pages), Matcher(Lower(query), muscle, equipment)), limit)
    ensures r.Err? ==> exists j :: 0 <= j < |pages| && pages[j].FetchFailed? && r.msg == "failed to fetch exercises: " + pages[j].msg
  {
    var q := Lower(query);
    ghost var m := Matcher(q, muscle, equipment);
    var results: seq<ExerciseTemplate> := [];
    var page := 1;
    while |results| < limit
      invariant 1 <= page <= Max(|pages|, 1)
      invariant results == Take(MatchesUpTo(pages, page - 1, m), limit)
      invariant forall j :: 0 <= j < page - 1 ==> pages[j].Fetched?
      decreases |pages| - page
    {
      var resp := PageAt(pages, page);
      if resp.FetchFailed? {
        assert pages[page - 1].FetchFailed?;
        return Err("failed to fetch exercises: " + resp.msg);
      }
      ghost var before := MatchesUpTo(pages, page - 1, m);
      TakeShort(before, limit);
      MatchesNextPage(pages, page - 1, m);
      assert before + Filter(resp.items, m) == MatchesUpTo(pages, page, m);
      results := ScanPage(results, resp.items, q, muscle, equipment, limit);
      if page >= |pages| {
        AllPagesScanned(pages, page, m);
        return Ok(results);
      }
      page := page + 1;
    }
    LimitReached(pages, page - 1, m, limit);
    return Ok(results);
  }

  /** The search keeps only matches, in order, and never more than the limit. */
  lemma SearchResultsProperties(pages: seq<Fetch<ExerciseTemplate>>, query: string, muscle: string, equipment: string, limit: int)
    ensures var found := Take(Filter(Flatten(pages), Matcher(Lower(query), muscle, equipment)), limit);
      && |found| <= Max(0, limit)
      && (forall x :: x in found ==> x in Flatten(pages) && Matches(x, Lower(query), muscle, equipment))
  {
    FilterMembers(Flatten(pages), Matcher(Lower(query), muscle, equipment));
  }

  /** The table row of a result: ID, title cut to 35 characters, primary muscle group, equipment. */
  function SearchRow(ex: ExerciseTemplate): (row: seq<string>)
    ensures |row| == 4 && row[0] == ex.id && row[2] == ex.primaryMuscleGroup && row[3] == ex.equipment
    ensures |row[1]| <= TitleWidth && (|ex.title| <= TitleWidth ==> row[1] == ex.title)
  {
    [ex.id, Truncate(ex.title, TitleWidth), ex.primaryMuscleGroup, ex.equipment]
  }
}
