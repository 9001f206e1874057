/**
 * `find_alternatives` of tools/packages.py: the registry's search hits for a
 * package name, minus the package itself, ordered by stars (most first, ties
 * in search order) and cut to the first six.
 */
module Alternatives {
  import opened Wrappers
  import opened Seqs
  import opened Text

  /** One search hit: its name and platform (each possibly absent), stars (0 when absent), months since its last release, description. */
  datatype Hit = Hit(name: Option<string>, platform: Option<string>, stars: int, months: Option<int>, description: string)

  /** The name the filter compares, `get("name", "")`: the empty name when it is absent. */
  function NameKey(h: Hit): string {
    match h.name
    case Some(n) => n
    case None => ""
  }

  /** The name the listing prints, `get('name')`: Python's `None` when it is absent. */
  function NameShown(h: Hit): string {
    match h.name
    case Some(n) => n
    case None => "None"
  }

  /** The platform the listing prints, `get('platform', '?')`. */
  function PlatformShown(h: Hit): string {
    match h.platform
    case Some(p) => p
    case None => "?"
  }

  /** The registry's answer to a search: an error dictionary, or the list of hits. */
  datatype SearchReply = SearchFailed(message: string) | SearchHits(hits: seq<Hit>)

  /** The registry search, given the query and the optional `platforms` parameter. */
  type Search = (string, Option<string>) -> SearchReply

  const MaxShown: nat := 6
  const ActiveMonths: int := 12

  /** The `platforms` parameter: sent only when a language is given and is not empty. */
  function PlatformsParam(language: Option<string>): (r: Option<string>)
    ensures r.Some? <==> language.Some? && language.value != ""
    ensures r.Some? ==> r.value == language.value
  {
    match language
    case Some(l) => if l != "" then Some(l) else None
    case None => None
  }

  // ---------------------------------------------------------------- filtering

  /** A hit is an alternative unless its name is the queried name, ignoring case. */
  predicate IsAlternative(query: string, h: Hit) {
    Lower(NameKey(h)) != Lower(query)
  }

  /** `IsAlternative` as a filter. */
  function NotQuery(query: string): Hit -> bool {
    (h: Hit) => IsAlternative(query, h)
  }

  /** The hits that are not the queried package, in search order. */
  function Candidates(query: string, hits: seq<Hit>): seq<Hit> {
    Filter(hits, NotQuery(query))
  }

  /** The candidates are exactly the hits whose name differs from the query ignoring case. */
  lemma CandidatesMembers(query: string, hits: seq<Hit>, h: Hit)
    ensures h in Candidates(query, hits) <==> h in hits && Lower(NameKey(h)) != Lower(query)
  {
    FilterMembers(hits, NotQuery(query), h);
  }

  // ---------------------------------------------------------------- stable sort by stars, most first

  /** Most stars first. */
  predicate Descending(s: seq<Hit>) {
    forall i, j :: 0 <= i < j < |s| ==> s[i].stars >= s[j].stars
  }

  /** Places `x` after every element with at least as many stars, before the first with fewer. */
  function Insert(sorted: seq<Hit>, x: Hit): seq<Hit>
    decreases |sorted|
  {
    if sorted == [] then [x]
    else if sorted[0].stars < x.stars then [x] + sorted
    else [sorted[0]] + Insert(sorted[1..], x)
  }

  /** `sorted(s, key=stars, reverse=True)`: Python's sort is stable, also in reverse. */
  function SortByStars(s: seq<Hit>): seq<Hit>
    decreases |s|
  {
    if s == [] then [] else Insert(SortByStars(s[..|s| - 1]), s[|s| - 1])
  }

  /** Inserting adds exactly `x`. */
  lemma {:induction false} InsertMultiset(sorted: seq<Hit>, x: Hit)
    ensures multiset(Insert(sorted, x)) == multiset(sorted) + multiset{x}
    decreases |sorted|
  {
    if sorted != [] && sorted[0].stars >= x.stars {
      InsertMultiset(sorted[1..], x);
      ConsTail(sorted);
    }
  }

  /** Inserting keeps every element within a star bound that all elements and `x` respect. */
  lemma {:induction false} InsertBound(sorted: seq<Hit>, x: Hit, bound: int)
    requires forall k :: 0 <= k < |sorted| ==> sorted[k].stars <= bound
    requires x.stars <= bound
    ensures forall k :: 0 <= k < |Insert(sorted, x)| ==> Insert(sorted, x)[k].stars <= bound
    decreases |sorted|
  {
    if sorted != [] && sorted[0].stars >= x.stars {
      var rest := sorted[1..];
      assert forall k :: 0 <= k < |rest| ==> rest[k] == sorted[k + 1];
      InsertBound(rest, x, bound);
    }
  }

  /** A hit with at least the stars of a descending rest can go in front. */
  lemma DescendingCons(h: Hit, r: seq<Hit>)
    requires Descending(r)
    requires forall k :: 0 <= k < |r| ==> r[k].stars <= h.stars
    ensures Descending([h] + r)
  {
    var s := [h] + r;
    forall i, j | 0 <= i < j < |s|
      ensures s[i].stars >= s[j].stars
    {
      assert s[j] == r[j - 1];
      if i > 0 {
        assert s[i] == r[i - 1];
      }
    }
  }

  /** Inserting into a descending sequence keeps it descending. */
  lemma {:induction false} InsertDescending(sorted: seq<Hit>, x: Hit)
    requires Descending(sorted)
    ensures Descending(Insert(sorted, x))
    decreases |sorted|
  {
    if sorted == [] {
    } else if sorted[0].stars < x.stars {
      DescendingCons(x, sorted);
    } else {
      var rest := sorted[1..];
      DescendingTail(sorted);
      InsertDescending(rest, x);
      InsertBound(rest, x, sorted[0].stars);
      DescendingCons(sorted[0], Insert(rest, x));
    }
  }

  /** The stars-descending order with the same hits, each as often as before. */
  lemma {:induction false} SortByStarsSorted(s: seq<Hit>)
    ensures Descending(SortByStars(s))
    ensures multiset(SortByStars(s)) == multiset(s)
    decreases |s|
  {
    if s != [] {
      var init := s[..|s| - 1];
      SortByStarsSorted(init);
      InsertDescending(SortByStars(init), s[|s| - 1]);
      InsertMultiset(SortByStars(init), s[|s| - 1]);
      SnocMultiset(s);
    }
  }

  /** Hits with exactly `k` stars. */
  function HasStars(k: int): Hit -> bool {
    (h: Hit) => h.stars == k
  }

  /** A hit with more stars than everything sorted goes first, so it comes after all hits of the other star counts. */
  lemma InsertFrontStable(sorted: seq<Hit>, x: Hit, k: int)
    requires Descending(sorted)
    requires sorted != [] && sorted[0].stars < x.stars
    ensures Filter([x] + sorted, HasStars(k)) == Filter(sorted, HasStars(k)) + (if x.stars == k then [x] else [])
  {
    FilterCons(x, sorted, HasStars(k));
    if x.stars == k {
      FilterDropsAll(sorted, HasStars(k));
    }
  }

  /** A hit placed behind the first sorted hit comes after it in the filter as well. */
  lemma InsertBehindStable(sorted: seq<Hit>, x: Hit, k: int)
    requires sorted != [] && sorted[0].stars >= x.stars
    requires Filter(Insert(sorted[1..], x), HasStars(k)) ==
      Filter(sorted[1..], HasStars(k)) + (if x.stars == k then [x] else [])
    ensures Filter(Insert(sorted, x), HasStars(k)) == Filter(sorted, HasStars(k)) + (if x.stars == k then [x] else [])
  {
    var rest := sorted[1..];
    var a: seq<Hit> := if sorted[0].stars == k then [sorted[0]] else [];
    FilterCons(sorted[0], Insert(rest, x), HasStars(k));
    FilterCons(sorted[0], rest, HasStars(k));
    ConsTail(sorted);
    ConcatAssoc(a, Filter(rest, HasStars(k)), if x.stars == k then [x] else []);
  }

  /** The rest of a descending sequence is descending. */
  lemma DescendingTail(sorted: seq<Hit>)
    requires sorted != [] && Descending(sorted)
    ensures Descending(sorted[1..])
  {
    var rest := sorted[1..];
    assert forall m :: 0 <= m < |rest| ==> rest[m] == sorted[m + 1];
  }

  /** Among hits with `k` stars, an inserted hit goes after those already sorted. */
  lemma {:induction false} InsertStable(sorted: seq<Hit>, x: Hit, k: int)
    requires Descending(sorted)
    ensures Filter(Insert(sorted, x), HasStars(k)) == Filter(sorted, HasStars(k)) + (if x.stars == k then [x] else [])
    decreases |sorted|
  {
    if sorted == [] {
      FilterSingle(x, HasStars(k));
    } else if sorted[0].stars < x.stars {
      InsertFrontStable(sorted, x, k);
    } else {
      DescendingTail(sorted);
      InsertStable(sorted[1..], x, k);
      InsertBehindStable(sorted, x, k);
    }
  }

  /** Stability: the hits with any one number of stars keep their search order. */
  lemma {:induction false} SortByStarsStable(s: seq<Hit>, k: int)
    ensures Filter(SortByStars(s), HasStars(k)) == Filter(s, HasStars(k))
    decreases |s|
  {
    if s != [] {
      var init := s[..|s| - 1];
      SortByStarsStable(init, k);
      SortByStarsSorted(init);
      InsertStable(SortByStars(init), s[|s| - 1], k);
    }
  }

  // ---------------------------------------------------------------- what is shown

  /** The alternatives shown: the candidates by stars, at most six. */
  function ShownHits(query: string, hits: seq<Hit>): seq<Hit> {
    Take(SortByStars(Candidates(query, hits)), MaxShown)
  }

  /**
   * At most six hits are shown, six whenever there are that many candidates;
   * each is a hit other than the queried package, and they come most stars first.
   */
  lemma ShownHitsRule(query: string, hits: seq<Hit>)
    ensures |ShownHits(query, hits)| == if |Candidates(query, hits)| <= MaxShown then |Candidates(query, hits)| else MaxShown
    ensures forall i :: 0 <= i < |ShownHits(query, hits)| ==>
      ShownHits(query, hits)[i] in hits && Lower(NameKey(ShownHits(query, hits)[i])) != Lower(query)
    ensures Descending(ShownHits(query, hits))
  {
    var c := Candidates(query, hits);
    var sorted := SortByStars(c);
    SortByStarsSorted(c);
    assert |sorted| == |multiset(sorted)| == |multiset(c)| == |c|;
    var shown := ShownHits(query, hits);
    forall i | 0 <= i < |shown|
      ensures shown[i] in hits && Lower(NameKey(shown[i])) != Lower(query)
    {
      assert shown[i] == sorted[i];
      assert shown[i] in multiset(c);
      CandidatesMembers(query, hits, shown[i]);
    }
  }

  /** A candidate left out for the cap has no more stars than any hit that is shown. */
  lemma ShownHitsAreTop(query: string, hits: seq<Hit>, h: Hit)
    requires multiset(ShownHits(query, hits))[h] < multiset(Candidates(query, hits))[h]
    ensures forall i :: 0 <= i < |ShownHits(query, hits)| ==> ShownHits(query, hits)[i].stars >= h.stars
  {
    var c := Candidates(query, hits);
    var sorted := SortByStars(c);
    SortByStarsSorted(c);
    var shown := ShownHits(query, hits);
    var n := |shown|;
    assert shown == sorted[..n];
    SplitMultiset(sorted, n);
    var rest := sorted[n..];
    assert h in multiset(rest);
    var j :| 0 <= j < |rest| && rest[j] == h;
    assert sorted[n + j] == h;
  }

  // ---------------------------------------------------------------- the report

  /** What the tool answers: the search error, "no alternatives" for an empty search, or the shown hits. */
  datatype Outcome = SearchError(message: string) | NoAlternatives | Listed(shown: seq<Hit>)

  function FindAlternatives(query: string, language: Option<string>, search: Search): Outcome {
    match search(query, PlatformsParam(language))
    case SearchFailed(m) => SearchError(m)
    case SearchHits(hits) => if hits == [] then NoAlternatives else Listed(ShownHits(query, hits))
  }

  /**
   * An error reply gives the error; "no alternatives" means the search returned
   * nothing at all, so a search whose only hit is the package itself still lists
   * (no) alternatives under the title.
   */
  lemma FindAlternativesRule(query: string, language: Option<string>, search: Search)
    ensures FindAlternatives(query, language, search).SearchError? <==> search(query, PlatformsParam(language)).SearchFailed?
    ensures FindAlternatives(query, language, search).NoAlternatives? <==> search(query, PlatformsParam(language)) == SearchHits([])
    ensures FindAlternatives(query, language, search).Listed? ==>
      FindAlternatives(query, language, search).shown == ShownHits(query, search(query, PlatformsParam(language)).hits)
  {
  }

  /** "Active" exactly when the last release is known to be under twelve months old, "Outdated" otherwise. */
  function Maintained(months: Option<int>): (r: string)
    ensures r == "Active" || r == "Outdated"
    ensures r == "Active" <==> months.Some? && months.value < ActiveMonths
  {
    if months.Some? && months.value < ActiveMonths then "Active" else "Outdated"
  }

  /** The age shown for the last release. */
  function AgeText(months: Option<int>): string {
    match months
    case Some(m) => IntToString(m) + " months ago"
    case None => "unknown"
  }

  /** The name part of an entry's first line. */
  function NamePart(h: Hit): string {
    "  " + NameShown(h) + " ("
  }

  /** The first line up to the maintenance verdict: name, then platform. */
  function Opening(h: Hit): string {
    NamePart(h) + (PlatformShown(h) + ") — ")
  }

  /** An entry of the listing: name, platform and verdict; stars and release age; the description cut to 100 characters. */
  function HitText(h: Hit): string {
    Opening(h) + (Maintained(h.months) + "\n"
    + "    Stars: " + IntToString(h.stars) + " | Last release: " + AgeText(h.months) + "\n"
    + "    " + Take(h.description, 100))
  }

  /**
   * A hit's entry opens with its name and platform. A nameless hit is
   * filtered as the empty name but listed as `None`, and a hit without a
   * platform is listed under `?`.
   */
  lemma HitTextOpening(query: string, h: Hit)
    ensures StartsWith(HitText(h), NamePart(h))
    ensures h.name.None? ==> NamePart(h) == "  None (" && IsAlternative(query, h) == (Lower(query) != "")
    ensures h.name.Some? ==> NamePart(h) == "  " + h.name.value + " ("
    ensures h.platform.None? ==> StartsWith(HitText(h), NamePart(h) + "?) — ")
  {
    var rest := Maintained(h.months) + "\n"
      + "    Stars: " + IntToString(h.stars) + " | Last release: " + AgeText(h.months) + "\n"
      + "    " + Take(h.description, 100);
    StartsWithConcat(Opening(h), rest);
    StartsWithConcat(NamePart(h), PlatformShown(h) + ") — ");
    StartsWithTrans(HitText(h), Opening(h), NamePart(h));
    if h.platform.None? {
      assert Opening(h) == NamePart(h) + "?) — ";
    }
    assert Lower("") == "";
  }

  function HitTexts(shown: seq<Hit>): (r: seq<string>)
    ensures |r| == |shown|
    ensures forall i :: 0 <= i < |shown| ==> r[i] == HitText(shown[i])
  {
    seq(|shown|, i requires 0 <= i < |shown| => HitText(shown[i]))
  }

  function AlternativesText(query: string, outcome: Outcome): string {
    match outcome
    case SearchError(m) => "Error: " + m
    case NoAlternatives => "No alternatives found for '" + query + "'."
    case Listed(shown) => Join(["Alternatives to '" + query + "':\n"] + HitTexts(shown), "\n")
  }

  /** A listing starts with its title, every other answer with its own message. */
  lemma AlternativesTextStart(query: string, outcome: Outcome)
    ensures outcome.SearchError? ==> StartsWith(AlternativesText(query, outcome), "Error: ")
    ensures outcome.NoAlternatives? ==> StartsWith(AlternativesText(query, outcome), "No alternatives found for '")
    ensures outcome.Listed? ==> StartsWith(AlternativesText(query, outcome), "Alternatives to '" + query + "':\n")
  {
    match outcome
    case SearchError(m) =>
      StartsWithConcat("Error: ", m);
    case NoAlternatives =>
      StartsWithConcat("No alternatives found for '", query + "'.");
      assert "No alternatives found for '" + query + "'." == "No alternatives found for '" + (query + "'.");
    case Listed(shown) =>
      JoinHead(["Alternatives to '" + query + "':\n"] + HitTexts(shown), "\n");
  }
}
