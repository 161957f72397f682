/** PaperResearcher (src/collectors/paper_researcher.py) without its network
    backends: the Semantic Scholar, CrossRef and arXiv result lists are
    inputs. Covers the merge, sort and truncate step of `search`, the
    relevance score, the maturity analysis and the year distribution. */
module PaperResearcher {
  import opened Common
  import opened StableSort
  import opened Histogram
  import opened Research

  // ---------------------------------------------------------------------
  // search

  function SemanticPart(semantic: seq<Paper>, sources: Option<seq<string>>): seq<Paper>
  {
    if Selected(sources, "semantic_scholar") then semantic else []
  }

  function CrossrefPart(crossref: seq<Paper>, sources: Option<seq<string>>): seq<Paper>
  {
    if Selected(sources, "crossref") then crossref else []
  }

  function ArxivPart(arxiv: seq<Paper>, sources: Option<seq<string>>): seq<Paper>
  {
    if Selected(sources, "arxiv") then arxiv else []
  }

  /** The list `search` builds before sorting. */
  function Merged(semantic: seq<Paper>, crossref: seq<Paper>, arxiv: seq<Paper>, sources: Option<seq<string>>): seq<Paper>
  {
    SemanticPart(semantic, sources) + CrossrefPart(crossref, sources) + ArxivPart(arxiv, sources)
  }

  predicate HasMissingYear(papers: seq<Paper>)
  {
    exists i :: 0 <= i < |papers| && papers[i].year.None?
  }

  /** The sort key `x.get('year', 0)`. It is only consulted when no year is
      `None`; a `None` key makes the sort raise instead. */
  function YearKey(p: Paper): int
  {
    match p.year
    case Some(y) => y
    case None => 0
  }

  /** `list.sort` compares every element of a list of two or more with some
      other element, and `None` compares with nothing: the sort raises
      exactly when the list has two or more papers and one has no year. */
  predicate SortRaises(papers: seq<Paper>)
  {
    |papers| >= 2 && HasMissingYear(papers)
  }

  const NoneComparison: Error := TypeError("'<' not supported between instances of 'NoneType' and 'int'")

  function SearchResult(semantic: seq<Paper>, crossref: seq<Paper>, arxiv: seq<Paper>,
                        sources: Option<seq<string>>, maxResults: int): Result<seq<Paper>>
  {
    var merged := Merged(semantic, crossref, arxiv, sources);
    if SortRaises(merged) then Err(NoneComparison) else Ok(PyPrefix(SortDesc(merged, YearKey), maxResults))
  }

  method Search(semantic: seq<Paper>, crossref: seq<Paper>, arxiv: seq<Paper>,
                sources: Option<seq<string>>, maxResults: int)
    returns (results: Result<seq<Paper>>)
    ensures results == SearchResult(semantic, crossref, arxiv, sources, maxResults)
  {
    var merged: seq<Paper> := [];
    if Selected(sources, "semantic_scholar") {
      merged := merged + semantic;
    }
    if Selected(sources, "crossref") {
      merged := merged + crossref;
    }
    if Selected(sources, "arxiv") {
      merged := merged + arxiv;
    }
    assert merged == Merged(semantic, crossref, arxiv, sources);
    if |merged| >= 2 && exists i :: 0 <= i < |merged| && merged[i].year.None? {
      return Err(NoneComparison);
    }
    merged := SortDesc(merged, YearKey);
    results := Ok(PyPrefix(merged, maxResults));
  }

  /** A successful search keeps `merged[:max_results]`'s number of papers
      of the merged list, newest first, and drops none newer than a kept
      one; papers of one year keep the Semantic Scholar, CrossRef, arXiv
      order, and each year's papers are the first ones of that year in the
      merged list. */
  lemma SearchOrdered(semantic: seq<Paper>, crossref: seq<Paper>, arxiv: seq<Paper>,
                      sources: Option<seq<string>>, maxResults: int)
    requires SearchResult(semantic, crossref, arxiv, sources, maxResults).Ok?
    ensures var r := SearchResult(semantic, crossref, arxiv, sources, maxResults).value;
      var merged := Merged(semantic, crossref, arxiv, sources);
      (maxResults >= 0 ==> |r| == Min(maxResults, |merged|)) &&
      (maxResults < 0 ==> |r| == Max(0, |merged| + maxResults)) &&
      SortedDesc(r, YearKey) &&
      multiset(r) <= multiset(merged) &&
      (forall p :: p in multiset(merged) - multiset(r) ==> forall i :: 0 <= i < |r| ==> YearKey(p) <= YearKey(r[i])) &&
      forall y :: IsPrefix(WithKey(r, YearKey, y), WithKey(merged, YearKey, y))
  {
    TopOfSortDesc(Merged(semantic, crossref, arxiv, sources), maxResults, YearKey);
  }

  /** The search fails exactly when the sort would compare a missing year. */
  lemma SearchFailsOnMissingYear(semantic: seq<Paper>, crossref: seq<Paper>, arxiv: seq<Paper>,
                                 sources: Option<seq<string>>, maxResults: int)
    ensures SearchResult(semantic, crossref, arxiv, sources, maxResults).Err? <==>
      var merged := Merged(semantic, crossref, arxiv, sources);
      |merged| >= 2 && exists p :: p in merged && p.year.None?
  {
  }

  // ---------------------------------------------------------------------
  // _calculate_relevance, in tenths

  function CitationBonus(citations: int): nat
  {
    if citations > 100 then 2 else if citations > 10 then 1 else 0
  }

  function Score(titleHit: bool, abstractHit: bool, citationCount: int): int
  {
    Min(5 * Indicator(titleHit) + 3 * Indicator(abstractHit) + CitationBonus(citationCount), 10)
  }

  /** `min(0.5·[kw in title] + 0.3·[kw in abstract] + bonus, 1.0)` in tenths. */
  function Relevance(title: string, abstractText: string, citationCount: int, keyword: string): int
  {
    Score(Contains(Lower(title), Lower(keyword)), Contains(Lower(abstractText), Lower(keyword)), citationCount)
  }

  /** Scores a raw Semantic Scholar record by its `title`, `abstract` and
      `citationCount`. */
  method CalculateRelevance(title: string, abstractText: string, citationCount: int, keyword: string)
    returns (score: int)
    ensures score == Relevance(title, abstractText, citationCount, keyword)
  {
    score := 0;
    var t := Lower(title);
    if Contains(t, Lower(keyword)) {
      score := score + 5;
    }
    var a := Lower(abstractText);
    if Contains(a, Lower(keyword)) {
      score := score + 3;
    }
    var citations := citationCount;
    if citations > 100 {
      score := score + 2;
    } else if citations > 10 {
      score := score + 1;
    }
    score := Min(score, 10);
  }

  /** The score lies in [0, 1]; the three parts add up to at most 1.0, so
      the cap never applies; and more citations never lower it. */
  lemma ScoreBounds(titleHit: bool, abstractHit: bool, citationCount: int)
    ensures 0 <= Score(titleHit, abstractHit, citationCount) <= 10
    ensures Score(titleHit, abstractHit, citationCount) ==
      5 * Indicator(titleHit) + 3 * Indicator(abstractHit) + CitationBonus(citationCount)
    ensures titleHit && abstractHit <==> Score(titleHit, abstractHit, citationCount) >= 8
    ensures forall more :: more >= citationCount ==>
      Score(titleHit, abstractHit, more) >= Score(titleHit, abstractHit, citationCount)
  {
  }

  // ---------------------------------------------------------------------
  // analyze_maturity

  datatype MaturityLevel = Unknown | Emerging | Growing | Mature

  /** The analysis dict. `average_citations` is kept as the exact real
      quotient, without `round(…, 2)`. `yearDistribution` is `None` where
      the dict has no `year_distribution` key. */
  datatype PaperMaturity = PaperMaturity(
    level: MaturityLevel,
    totalPapers: nat,
    recentPapers: nat,
    averageCitations: real,
    yearDistribution: Option<seq<(int, nat)>>)

  /** The number of papers with `year >= threshold`. */
  function RecentCount(papers: seq<Paper>, threshold: int): (n: nat)
    ensures n <= |papers|
  {
    if papers == [] then 0
    else RecentCount(papers[..|papers| - 1], threshold) + Indicator(YearKey(papers[|papers| - 1]) >= threshold)
  }

  function TotalCitations(papers: seq<Paper>): int
  {
    if papers == [] then 0 else TotalCitations(papers[..|papers| - 1]) + papers[|papers| - 1].citations
  }

  function PaperLevel(total: nat, recent: nat): MaturityLevel
  {
    if total > 50 && recent > 10 then Mature else if total > 20 then Growing else Emerging
  }

  /** The `year >= current_year - 3` test raises on the first paper without
      a year, and any non-empty list has one to test. */
  function AnalyzeMaturity(papers: seq<Paper>, currentYear: int): (r: Result<PaperMaturity>)
    ensures papers == [] ==> r == Ok(PaperMaturity(Unknown, 0, 0, 0.0, None))
    ensures papers != [] ==> (r.Err? <==> HasMissingYear(papers))
    ensures r.Ok? && papers != [] ==>
      r.value.totalPapers == |papers| &&
      r.value.recentPapers <= r.value.totalPapers &&
      r.value.yearDistribution == Some(YearDistribution(papers))
  {
    if papers == [] then Ok(PaperMaturity(Unknown, 0, 0, 0.0, None))
    else if HasMissingYear(papers) then Err(NoneComparison)
    else
      var recent := RecentCount(papers, currentYear - 3);
      Ok(PaperMaturity(PaperLevel(|papers|, recent), |papers|, recent,
                       TotalCitations(papers) as real / |papers| as real,
                       Some(YearDistribution(papers))))
  }

  /** The level rules: `mature` needs more than 50 papers of which more
      than 10 are recent, `growing` more than 20, anything else is
      `emerging`; only the empty list is `unknown`. */
  lemma MaturityRules(papers: seq<Paper>, currentYear: int)
    requires AnalyzeMaturity(papers, currentYear).Ok? && papers != []
    ensures var m := AnalyzeMaturity(papers, currentYear).value;
      (m.level == Mature <==> |papers| > 50 && m.recentPapers > 10) &&
      (m.level == Growing <==> |papers| > 20 && !(|papers| > 50 && m.recentPapers > 10)) &&
      (m.level == Emerging <==> |papers| <= 20) &&
      m.level != Unknown &&
      m.recentPapers == |set i | 0 <= i < |papers| && papers[i].year.value >= currentYear - 3|
  {
    RecentCountIsSetSize(papers, currentYear - 3);
  }

  /** The count is the size of the set of positions whose year is recent. */
  lemma {:induction false} RecentCountIsSetSize(papers: seq<Paper>, threshold: int)
    requires !HasMissingYear(papers)
    ensures RecentCount(papers, threshold) == |set i | 0 <= i < |papers| && papers[i].year.value >= threshold|
  {
    if papers != [] {
      var init := papers[..|papers| - 1];
      var last := |papers| - 1;
      assert !HasMissingYear(init) by {
        forall i | 0 <= i < |init| ensures init[i].year.Some? { assert init[i] == papers[i]; }
      }
      RecentCountIsSetSize(init, threshold);
      var small := set i | 0 <= i < |init| && init[i].year.value >= threshold;
      var big := set i | 0 <= i < |papers| && papers[i].year.value >= threshold;
      assert papers[last].year.Some?;
      if papers[last].year.value >= threshold {
        assert big == small + {last};
      } else {
        assert big == small;
      }
    }
  }

  // ---------------------------------------------------------------------
  // _get_year_distribution

  /** The year of p if it passes `if year:`. */
  function TruthyYear(p: Paper): seq<int>
  {
    if p.year.Some? && p.year.value != 0 then [p.year.value] else []
  }

  /** The years that pass `if year:`, in list order. */
  function TruthyYears(papers: seq<Paper>): seq<int>
  {
    if papers == [] then [] else TruthyYears(papers[..|papers| - 1]) + TruthyYear(papers[|papers| - 1])
  }

  lemma TruthyYearsStep(papers: seq<Paper>, i: nat)
    requires i < |papers|
    ensures TruthyYears(papers[..i + 1]) == TruthyYears(papers[..i]) + TruthyYear(papers[i])
  {
    assert papers[..i + 1][..i] == papers[..i];
  }

  function EntryYear(e: (int, nat)): int { e.0 }

  /** `dict(sorted(distribution.items(), reverse=True))`: the years are
      distinct, so the tuples sort by year. */
  function YearDistribution(papers: seq<Paper>): seq<(int, nat)>
  {
    SortDesc(Tally(TruthyYears(papers)), EntryYear)
  }

  method GetYearDistribution(papers: seq<Paper>) returns (distribution: seq<(int, nat)>)
    ensures distribution == YearDistribution(papers)
  {
    var counts: seq<(int, nat)> := [];
    for i := 0 to |papers|
      invariant counts == Tally(TruthyYears(papers[..i]))
    {
      TruthyYearsStep(papers, i);
      var year := papers[i].year;
      if year.Some? && year.value != 0 {
        TallySnoc(TruthyYears(papers[..i]), year.value);
        counts := Bump(counts, year.value);
      } else {
        assert TruthyYears(papers[..i]) + [] == TruthyYears(papers[..i]);
      }
    }
    assert papers[..|papers|] == papers;
    distribution := SortDesc(counts, EntryYear);
  }

  /** The distribution lists each truthy year once, newest first, with its
      number of papers; the counts add up to the number of papers with a
      truthy year. */
  lemma YearDistributionCorrect(papers: seq<Paper>)
    ensures var d := YearDistribution(papers);
      SumCounts(d) == |TruthyYears(papers)| &&
      (forall i, j :: 0 <= i < j < |d| ==> d[i].0 > d[j].0) &&
      (forall i :: 0 <= i < |d| ==> d[i].1 == Count(TruthyYears(papers), d[i].0)) &&
      (forall y :: y in TruthyYears(papers) <==> y in Keys(d))
  {
    var d := YearDistribution(papers);
    PermutedTally(TruthyYears(papers), d);
    forall i, j | 0 <= i < j < |d| ensures d[i].0 > d[j].0 {
      assert Keys(d)[i] != Keys(d)[j];
    }
  }
}
