/** WebResearcher (src/collectors/web_researcher.py): three placeholder
    generators that describe where to look for a keyword, merged, sorted by
    date and truncated. The clock is the `today` parameter. */
module WebResearcher {
  import opened Common
  import opened StableSort
  import opened Research

  datatype GovernmentSite = GovernmentSite(name: string, url: string, searchPath: string)

  /** A site record: name, url and a `type` no output uses. */
  datatype Site = Site(name: string, url: string)

  const GovernmentSites: seq<GovernmentSite> := [
    GovernmentSite("문화체육관광부", "https://www.mcst.go.kr", "/kor/s_notice/notice/noticeList.jsp"),
    GovernmentSite("KOCCA (한국콘텐츠진흥원)", "https://www.kocca.kr", "/cop/bbs/list/B0000146.do"),
    GovernmentSite("KISA (한국인터넷진흥원)", "https://www.kisa.or.kr", "/2060204")
  ]

  const IndustrySites: seq<Site> := [
    Site("KISDI (정보통신정책연구원)", "https://www.kisdi.re.kr"),
    Site("통계청", "https://kostat.go.kr")
  ]

  const BlogPlatforms: seq<Site> := [
    Site("브런치", "https://brunch.co.kr"),
    Site("미디엄", "https://medium.com"),
    Site("GeekNews", "https://news.hada.io")
  ]

  /** Credibility in percent: 0.95, 0.85 and 0.70. */
  const GovernmentCredibility := 95
  const IndustryCredibility := 85
  const CommunityCredibility := 70

  function GovernmentItem(site: GovernmentSite, keyword: string, today: int): WebItem
  {
    WebItem(site.name + " - " + keyword + " 관련 자료", site.url + site.searchPath, site.name, "government",
            site.name + "에서 " + keyword + "와 관련된 공지사항 및 자료", today, GovernmentCredibility)
  }

  function IndustryItem(site: Site, keyword: string, today: int): WebItem
  {
    WebItem(keyword + " 관련 " + site.name + " 보고서", site.url, site.name, "industry",
            keyword + "에 대한 산업 동향 및 시장 분석", today, IndustryCredibility)
  }

  function CommunityItem(site: Site, keyword: string, today: int): WebItem
  {
    WebItem(keyword + " - " + site.name + " 기술 블로그", site.url, site.name, "community",
            keyword + "에 대한 기술 블로그 및 커뮤니티 글", today, CommunityCredibility)
  }

  function GovernmentItems(keyword: string, today: int): seq<WebItem>
  {
    seq(|GovernmentSites|, i requires 0 <= i < |GovernmentSites| => GovernmentItem(GovernmentSites[i], keyword, today))
  }

  function IndustryItems(keyword: string, today: int): seq<WebItem>
  {
    seq(|IndustrySites|, i requires 0 <= i < |IndustrySites| => IndustryItem(IndustrySites[i], keyword, today))
  }

  function CommunityItems(keyword: string, today: int): seq<WebItem>
  {
    seq(|BlogPlatforms|, i requires 0 <= i < |BlogPlatforms| => CommunityItem(BlogPlatforms[i], keyword, today))
  }

  method SearchGovernmentSites(keyword: string, today: int) returns (results: seq<WebItem>)
    ensures results == GovernmentItems(keyword, today)
  {
    results := [];
    for i := 0 to |GovernmentSites|
      invariant results == GovernmentItems(keyword, today)[..i]
    {
      results := results + [GovernmentItem(GovernmentSites[i], keyword, today)];
    }
  }

  method SearchIndustryReports(keyword: string, today: int) returns (results: seq<WebItem>)
    ensures results == IndustryItems(keyword, today)
  {
    results := [];
    for i := 0 to |IndustrySites|
      invariant results == IndustryItems(keyword, today)[..i]
    {
      results := results + [IndustryItem(IndustrySites[i], keyword, today)];
    }
  }

  method SearchTechBlogs(keyword: string, today: int) returns (results: seq<WebItem>)
    ensures results == CommunityItems(keyword, today)
  {
    results := [];
    for i := 0 to |BlogPlatforms|
      invariant results == CommunityItems(keyword, today)[..i]
    {
      results := results + [CommunityItem(BlogPlatforms[i], keyword, today)];
    }
  }

  /** The sort key `x.get('published_date', '')`. */
  function DateKey(item: WebItem): int { item.publishedDate }

  /** The list `search` builds before sorting. */
  function Merged(keyword: string, sources: Option<seq<string>>, today: int): seq<WebItem>
  {
    GovernmentPart(keyword, sources, today) + IndustryPart(keyword, sources, today) + CommunityPart(keyword, sources, today)
  }

  function GovernmentPart(keyword: string, sources: Option<seq<string>>, today: int): seq<WebItem>
  {
    if Selected(sources, "government") then GovernmentItems(keyword, today) else []
  }

  function IndustryPart(keyword: string, sources: Option<seq<string>>, today: int): seq<WebItem>
  {
    if Selected(sources, "industry") then IndustryItems(keyword, today) else []
  }

  function CommunityPart(keyword: string, sources: Option<seq<string>>, today: int): seq<WebItem>
  {
    if Selected(sources, "community") then CommunityItems(keyword, today) else []
  }

  method Search(keyword: string, sources: Option<seq<string>>, maxResults: int, today: int)
    returns (results: seq<WebItem>)
    ensures results == PyPrefix(SortDesc(Merged(keyword, sources, today), DateKey), maxResults)
  {
    results := [];
    if Selected(sources, "government") {
      var found := SearchGovernmentSites(keyword, today);
      results := results + found;
    }
    assert results == GovernmentPart(keyword, sources, today);
    if Selected(sources, "industry") {
      var found := SearchIndustryReports(keyword, today);
      results := results + found;
    }
    assert results == GovernmentPart(keyword, sources, today) + IndustryPart(keyword, sources, today);
    if Selected(sources, "community") {
      var found := SearchTechBlogs(keyword, today);
      results := results + found;
    }
    assert results == Merged(keyword, sources, today);
    results := SortDesc(results, DateKey);
    results := PyPrefix(results, maxResults);
  }

  /** Every generated item names the keyword verbatim in its title and its
      summary, and carries its group's tag and credibility. */
  lemma GeneratedItemsMentionKeyword(keyword: string, today: int)
    ensures forall w :: w in GovernmentItems(keyword, today) ==>
      Contains(w.title, keyword) && Contains(w.summary, keyword) &&
      w.sourceType == "government" && w.credibility == 95
    ensures forall w :: w in IndustryItems(keyword, today) ==>
      Contains(w.title, keyword) && Contains(w.summary, keyword) &&
      w.sourceType == "industry" && w.credibility == 85
    ensures forall w :: w in CommunityItems(keyword, today) ==>
      Contains(w.title, keyword) && Contains(w.summary, keyword) &&
      w.sourceType == "community" && w.credibility == 70
  {
    forall s | s in GovernmentSites ensures
      Contains(GovernmentItem(s, keyword, today).title, keyword) && Contains(GovernmentItem(s, keyword, today).summary, keyword)
    {
      ContainsInfix(s.name + " - ", keyword, " 관련 자료");
      ContainsInfix(s.name + "에서 ", keyword, "와 관련된 공지사항 및 자료");
    }
    forall s | s in IndustrySites ensures
      Contains(IndustryItem(s, keyword, today).title, keyword) && Contains(IndustryItem(s, keyword, today).summary, keyword)
    {
      ContainsInfix("", keyword, " 관련 " + s.name + " 보고서");
      assert "" + keyword + (" 관련 " + s.name + " 보고서") == keyword + " 관련 " + s.name + " 보고서";
      ContainsInfix("", keyword, "에 대한 산업 동향 및 시장 분석");
      assert "" + keyword + "에 대한 산업 동향 및 시장 분석" == keyword + "에 대한 산업 동향 및 시장 분석";
    }
    forall s | s in BlogPlatforms ensures
      Contains(CommunityItem(s, keyword, today).title, keyword) && Contains(CommunityItem(s, keyword, today).summary, keyword)
    {
      ContainsInfix("", keyword, " - " + s.name + " 기술 블로그");
      assert "" + keyword + (" - " + s.name + " 기술 블로그") == keyword + " - " + s.name + " 기술 블로그";
      ContainsInfix("", keyword, "에 대한 기술 블로그 및 커뮤니티 글");
      assert "" + keyword + "에 대한 기술 블로그 및 커뮤니티 글" == keyword + "에 대한 기술 블로그 및 커뮤니티 글";
    }
  }

  /** All items share today's date, so the stable sort keeps the
      government, industry, community order and `search` is a plain
      truncation of the merged list; with every source it has 3 government,
      2 industry and 3 community items before truncation. */
  lemma SearchKeepsGroupOrder(keyword: string, sources: Option<seq<string>>, maxResults: int, today: int)
    ensures SortDesc(Merged(keyword, sources, today), DateKey) == Merged(keyword, sources, today)
    ensures maxResults >= 0 ==> |PyPrefix(SortDesc(Merged(keyword, sources, today), DateKey), maxResults)| <= maxResults
    ensures sources.None? ==>
      Merged(keyword, sources, today) == GovernmentItems(keyword, today) + IndustryItems(keyword, today) + CommunityItems(keyword, today)
    ensures |GovernmentItems(keyword, today)| == 3 && |IndustryItems(keyword, today)| == 2 &&
            |CommunityItems(keyword, today)| == 3
  {
    var m := Merged(keyword, sources, today);
    forall i | 0 <= i < |m| ensures DateKey(m[i]) == today {
      assert m[i] in m;
    }
    SortAllEqualIsIdentity(m, DateKey, today);
  }

  /** With every source enabled all eight items name the keyword in their titles. */
  lemma MergedTitlesMentionKeyword(keyword: string, today: int)
    ensures |Merged(keyword, None, today)| == 8
    ensures forall i :: 0 <= i < |Merged(keyword, None, today)| ==>
      Contains(Merged(keyword, None, today)[i].title, keyword)
  {
    var g, n, c := GovernmentItems(keyword, today), IndustryItems(keyword, today), CommunityItems(keyword, today);
    var m := Merged(keyword, None, today);
    assert m == g + n + c;
    forall i | 0 <= i < |g| ensures Contains(g[i].title, keyword) {
      ContainsInfix(GovernmentSites[i].name + " - ", keyword, " 관련 자료");
    }
    forall i | 0 <= i < |n| ensures Contains(n[i].title, keyword) {
      ContainsInfix("", keyword, " 관련 " + IndustrySites[i].name + " 보고서");
      assert "" + keyword + (" 관련 " + IndustrySites[i].name + " 보고서") == n[i].title;
    }
    forall i | 0 <= i < |c| ensures Contains(c[i].title, keyword) {
      ContainsInfix("", keyword, " - " + BlogPlatforms[i].name + " 기술 블로그");
      assert "" + keyword + (" - " + BlogPlatforms[i].name + " 기술 블로그") == c[i].title;
    }
    forall i | 0 <= i < |m| ensures Contains(m[i].title, keyword) {
      if i < 3 {
        assert m[i] == g[i];
      } else if i < 5 {
        assert m[i] == n[i - 3];
      } else {
        assert m[i] == c[i - 5];
      }
    }
  }
}
