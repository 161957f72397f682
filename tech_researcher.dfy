/** TechResearcher (src/collectors/tech_researcher.py) without its network
    backends: the GitHub and npm result lists are inputs. Covers the
    synthetic PyPI entry, the merge, sort and truncate step of `search`, and
    the maturity analysis with its language tally and recommended stacks.
    Averages are exact reals; Python's `round(…, 2)` is not applied. */
module TechResearcher {
  import opened Common
  import opened StableSort
  import opened Histogram
  import opened Research

  // ---------------------------------------------------------------------
  // _search_pypi

  /** Popularity 0.5, in thousandths. */
  const PypiPopularity := 500

  function PackageItem(name: string, description: string): TechItem
  {
    TechItem(name, description, "https://pypi.org/project/" + name + "/", 0, "", false, PypiPopularity, "PyPI", "package")
  }

  function PypiItem(keyword: string): TechItem
  {
    PackageItem(keyword + "-related-package", keyword + " 관련 Python 패키지")
  }

  method SearchPypi(keyword: string) returns (results: seq<TechItem>)
    ensures results == [PypiItem(keyword)]
  {
    var popularPackages := [(keyword + "-related-package", keyword + " 관련 Python 패키지")];
    results := [];
    for i := 0 to |popularPackages|
      invariant |results| == i
      invariant forall j :: 0 <= j < i ==> results[j] == PackageItem(popularPackages[j].0, popularPackages[j].1)
    {
      results := results + [PackageItem(popularPackages[i].0, popularPackages[i].1)];
    }
  }

  /** The single PyPI item is named after the keyword and links to its own
      project page. */
  lemma PypiItemShape(keyword: string)
    ensures PypiItem(keyword).name == keyword + "-related-package"
    ensures PypiItem(keyword).url == "https://pypi.org/project/" + keyword + "-related-package/"
    ensures PypiItem(keyword).popularity == 500 && PypiItem(keyword).source == "PyPI"
    ensures Contains(PypiItem(keyword).name, keyword)
  {
    assert keyword + "-related-package" == "" + keyword + "-related-package";
    ContainsInfix("", keyword, "-related-package");
    assert ("https://pypi.org/project/" + keyword + "-related-package") + "/" ==
           "https://pypi.org/project/" + keyword + "-related-package/";
  }

  // ---------------------------------------------------------------------
  // search

  function GithubPart(github: seq<TechItem>, sources: Option<seq<string>>): seq<TechItem>
  {
    if Selected(sources, "github") then github else []
  }

  function NpmPart(npm: seq<TechItem>, sources: Option<seq<string>>): seq<TechItem>
  {
    if Selected(sources, "npm") then npm else []
  }

  function PypiPart(keyword: string, sources: Option<seq<string>>): seq<TechItem>
  {
    if Selected(sources, "pypi") then [PypiItem(keyword)] else []
  }

  function Merged(github: seq<TechItem>, npm: seq<TechItem>, keyword: string, sources: Option<seq<string>>): seq<TechItem>
  {
    GithubPart(github, sources) + NpmPart(npm, sources) + PypiPart(keyword, sources)
  }

  /** The sort key `x.get('popularity_score', 0)`; every backend sets it. It is
      in thousandths, which npm's raw registry score is assumed to be. */
  function Popularity(item: TechItem): int { item.popularity }

  method Search(github: seq<TechItem>, npm: seq<TechItem>, keyword: string, sources: Option<seq<string>>, maxResults: int)
    returns (results: seq<TechItem>)
    ensures results == PyPrefix(SortDesc(Merged(github, npm, keyword, sources), Popularity), maxResults)
  {
    results := [];
    if Selected(sources, "github") {
      results := results + github;
    }
    if Selected(sources, "npm") {
      results := results + npm;
    }
    if Selected(sources, "pypi") {
      var found := SearchPypi(keyword);
      results := results + found;
    }
    assert results == Merged(github, npm, keyword, sources);
    results := SortDesc(results, Popularity);
    results := PyPrefix(results, maxResults);
  }

  /** `merged[:max_results]`'s number of items of the selected backends,
      most popular first, none dropped more popular than a kept one; items
      of equal popularity keep the GitHub, npm, PyPI order. */
  lemma SearchOrdered(github: seq<TechItem>, npm: seq<TechItem>, keyword: string, sources: Option<seq<string>>, maxResults: int)
    ensures var r := PyPrefix(SortDesc(Merged(github, npm, keyword, sources), Popularity), maxResults);
      var merged := Merged(github, npm, keyword, sources);
      (maxResults >= 0 ==> |r| == Min(maxResults, |merged|)) &&
      (maxResults < 0 ==> |r| == Max(0, |merged| + maxResults)) &&
      SortedDesc(r, Popularity) &&
      multiset(r) <= multiset(merged) &&
      (forall x :: x in multiset(merged) - multiset(r) ==> forall i :: 0 <= i < |r| ==> Popularity(x) <= Popularity(r[i])) &&
      forall k :: IsPrefix(WithKey(r, Popularity, k), WithKey(merged, Popularity, k))
  {
    TopOfSortDesc(Merged(github, npm, keyword, sources), maxResults, Popularity);
  }

  /** A backend contributes only when `sources` is `None` or names it. */
  lemma SourcesSelectBackends(github: seq<TechItem>, npm: seq<TechItem>, keyword: string, sources: Option<seq<string>>)
    ensures forall x :: x in Merged(github, npm, keyword, sources) <==>
      (x in github && Selected(sources, "github")) ||
      (x in npm && Selected(sources, "npm")) ||
      (x == PypiItem(keyword) && Selected(sources, "pypi"))
  {
  }

  // ---------------------------------------------------------------------
  // analyze_tech_maturity

  datatype MaturityLevel = Unknown | Emerging | Growing | Mature

  /** One entry of `recommended_stacks`. */
  datatype Stack = Stack(name: string, url: string, stars: nat, language: string, description: string)

  /** The analysis dict; the two list entries are `None` where the dict for
      an empty input has no such key. */
  datatype TechMaturity = TechMaturity(
    level: MaturityLevel,
    totalProjects: nat,
    activeProjects: nat,
    averageStars: real,
    topLanguages: Option<seq<(string, nat)>>,
    recommendedStacks: Option<seq<Stack>>)

  function GithubProjects(items: seq<TechItem>): (r: seq<TechItem>)
    ensures |r| <= |items|
    ensures forall x :: x in r <==> x in items && x.source == "GitHub"
  {
    if items == [] then []
    else
      var init := items[..|items| - 1];
      var last := items[|items| - 1];
      assert items == init + [last];
      GithubProjects(init) + (if last.source == "GitHub" then [last] else [])
  }

  function ActiveCount(projects: seq<TechItem>): (n: nat)
    ensures n <= |projects|
  {
    if projects == [] then 0
    else ActiveCount(projects[..|projects| - 1]) + Indicator(projects[|projects| - 1].isActive)
  }

  function TotalStars(projects: seq<TechItem>): nat
  {
    if projects == [] then 0 else TotalStars(projects[..|projects| - 1]) + projects[|projects| - 1].stars
  }

  /** `total_stars / len(github_projects) if github_projects else 0`. */
  function AverageStars(projects: seq<TechItem>): real
  {
    if projects == [] then 0.0 else TotalStars(projects) as real / |projects| as real
  }

  function TechLevel(total: nat, averageStars: real): MaturityLevel
  {
    if total > 20 && averageStars > 1000.0 then Mature
    else if total > 10 && averageStars > 100.0 then Growing
    else Emerging
  }

  function Languages(projects: seq<TechItem>): seq<string>
  {
    seq(|projects|, i requires 0 <= i < |projects| => projects[i].language)
  }

  function EntryCount(e: (string, nat)): int { e.1 }

  /** `dict(sorted(languages.items(), key=lambda x: x[1], reverse=True)[:5])`. */
  function TopLanguages(projects: seq<TechItem>): seq<(string, nat)>
  {
    PyPrefix(SortDesc(Tally(Languages(projects)), EntryCount), 5)
  }

  function StackOf(p: TechItem): Stack
  {
    Stack(p.name, p.url, p.stars, p.language, p.description)
  }

  function RecommendedStacks(projects: seq<TechItem>): seq<Stack>
  {
    var top := PyPrefix(projects, 3);
    seq(|top|, i requires 0 <= i < |top| => StackOf(top[i]))
  }

  function TechMaturityOf(techItems: seq<TechItem>): TechMaturity
  {
    if techItems == [] then TechMaturity(Unknown, 0, 0, 0.0, None, None)
    else
      var github := GithubProjects(techItems);
      TechMaturity(TechLevel(|techItems|, AverageStars(github)), |techItems|, ActiveCount(github),
                   AverageStars(github), Some(TopLanguages(github)), Some(RecommendedStacks(github)))
  }

  method GetRecommendedStacks(projects: seq<TechItem>) returns (stacks: seq<Stack>)
    ensures stacks == RecommendedStacks(projects)
  {
    stacks := [];
    var top := PyPrefix(projects, 3);
    for i := 0 to |top|
      invariant |stacks| == i
      invariant forall j :: 0 <= j < i ==> stacks[j] == StackOf(top[j])
    {
      stacks := stacks + [StackOf(top[i])];
    }
  }

  method AnalyzeTechMaturity(techItems: seq<TechItem>) returns (m: TechMaturity)
    ensures m == TechMaturityOf(techItems)
  {
    if techItems == [] {
      return TechMaturity(Unknown, 0, 0, 0.0, None, None);
    }
    var totalProjects := |techItems|;
    var githubProjects := GithubProjects(techItems);
    var activeProjects := ActiveCount(githubProjects);
    var avgStars := AverageStars(githubProjects);
    var level := TechLevel(totalProjects, avgStars);
    var languages: seq<(string, nat)> := [];
    for i := 0 to |githubProjects|
      invariant languages == Tally(Languages(githubProjects[..i]))
    {
      assert Languages(githubProjects[..i + 1]) == Languages(githubProjects[..i]) + [githubProjects[i].language];
      TallySnoc(Languages(githubProjects[..i]), githubProjects[i].language);
      languages := Bump(languages, githubProjects[i].language);
    }
    assert githubProjects[..|githubProjects|] == githubProjects;
    var top := PyPrefix(SortDesc(languages, EntryCount), 5);
    var stacks := GetRecommendedStacks(githubProjects);
    m := TechMaturity(level, totalProjects, activeProjects, avgStars, Some(top), Some(stacks));
  }

  /** A positive average exceeds t exactly when the total exceeds t per
      project, so the thresholds can be read without division. */
  lemma AverageAbove(projects: seq<TechItem>, t: nat)
    ensures AverageStars(projects) > t as real <==> |projects| > 0 && TotalStars(projects) > t * |projects|
  {
    if projects != [] {
      RealQuotientAbove(TotalStars(projects) as real, |projects| as real, t as real);
      assert (t * |projects|) as real == t as real * |projects| as real;
    }
  }

  lemma RealQuotientAbove(s: real, n: real, t: real)
    requires n > 0.0
    ensures s / n > t <==> s > t * n
  {
    var q := s / n;
    assert q * n == s;
    assert s - t * n == (q - t) * n;
  }

  /** Empty input is `unknown` with zero counts; otherwise the active
      projects are among the GitHub projects, which are among all items,
      and the level follows the two thresholds on the GitHub average. */
  lemma TechMaturityRules(techItems: seq<TechItem>)
    ensures techItems == [] ==> TechMaturityOf(techItems) == TechMaturity(Unknown, 0, 0, 0.0, None, None)
    ensures var m := TechMaturityOf(techItems);
      var github := GithubProjects(techItems);
      techItems != [] ==>
        m.activeProjects <= |github| <= m.totalProjects == |techItems| &&
        (m.level == Mature <==> |techItems| > 20 && |github| > 0 && TotalStars(github) > 1000 * |github|) &&
        (m.level == Growing <==> !(|techItems| > 20 && |github| > 0 && TotalStars(github) > 1000 * |github|) &&
                                 |techItems| > 10 && |github| > 0 && TotalStars(github) > 100 * |github|) &&
        m.level != Unknown
  {
    var github := GithubProjects(techItems);
    AverageAbove(github, 1000);
    AverageAbove(github, 100);
  }

  /** Without GitHub projects the average is 0 and the level `emerging`. */
  lemma NoGithubIsEmerging(techItems: seq<TechItem>)
    requires techItems != [] && forall x :: x in techItems ==> x.source != "GitHub"
    ensures TechMaturityOf(techItems).level == Emerging
    ensures TechMaturityOf(techItems).averageStars == 0.0
  {
  }

  /** As many languages as there are distinct ones, up to five, by
      non-increasing count, each listed once with its number of GitHub
      projects; a language left out is used by no more projects than any
      listed one. */
  lemma TopLanguagesCorrect(projects: seq<TechItem>)
    ensures var top := TopLanguages(projects);
      var langs := Languages(projects);
      |top| == Min(5, |Dedup(langs)|) &&
      (forall i, j :: 0 <= i < j < |top| ==> top[i].1 >= top[j].1) &&
      NoDuplicates(Keys(top)) &&
      (forall i :: 0 <= i < |top| ==> top[i].0 in langs && top[i].1 == Count(langs, top[i].0)) &&
      forall l :: l in langs && l !in Keys(top) ==>
        forall i :: 0 <= i < |top| ==> Count(langs, l) <= top[i].1
  {
    var langs := Languages(projects);
    var sorted := SortDesc(Tally(langs), EntryCount);
    var top := TopLanguages(projects);
    TallyCorrect(langs);
    PermutedTally(langs, sorted);
    assert top == sorted[..|top|];
    forall i | 0 <= i < |top| ensures top[i].0 in langs {
      assert Keys(sorted)[i] == top[i].0;
    }
    LeftOutLanguagesCountLess(langs);
    SortedPrefix(sorted, |top|, EntryCount);
    KeysPrefixDistinct(sorted, |top|);
    forall i, j | 0 <= i < j < |top| ensures top[i].1 >= top[j].1 {
      assert EntryCount(top[i]) >= EntryCount(top[j]);
    }
  }

  /** A language missing from the top five is used no more often than any
      language in it. */
  lemma LeftOutLanguagesCountLess(langs: seq<string>)
    ensures var top := PyPrefix(SortDesc(Tally(langs), EntryCount), 5);
      forall l :: l in langs && l !in Keys(top) ==>
        forall i :: 0 <= i < |top| ==> Count(langs, l) <= top[i].1
  {
    var h := Tally(langs);
    var t := SortDesc(h, EntryCount);
    var top := PyPrefix(t, 5);
    TallyCorrect(langs);
    SortedPrefixOutranks(t, |top|, EntryCount);
    assert top == t[..|top|];
    forall l | l in langs && l !in Keys(top) ensures forall i :: 0 <= i < |top| ==> Count(langs, l) <= top[i].1 {
      var j :| 0 <= j < |h| && Keys(h)[j] == l;
      var e := h[j];
      assert e in multiset(t);
      assert e !in top by {
        forall i | 0 <= i < |top| ensures top[i] != e {
          assert Keys(top)[i] != l;
        }
      }
      assert e in multiset(t) - multiset(top);
      forall i | 0 <= i < |top| ensures Count(langs, l) <= top[i].1 {
        assert EntryCount(e) <= EntryCount(top[i]);
      }
    }
  }

  /** The recommended stacks are the first three GitHub projects, in order. */
  lemma RecommendedStacksArePrefix(projects: seq<TechItem>)
    ensures |RecommendedStacks(projects)| == Min(3, |projects|)
    ensures forall i :: 0 <= i < |RecommendedStacks(projects)| ==>
      RecommendedStacks(projects)[i] == StackOf(projects[i])
  {
  }
}
