/** APIResearcher (src/collectors/api_researcher.py): three static
    catalogs of public and free APIs filtered by keyword, a relevance score
    in tenths, and the usage-example lookup. The `category` argument of the
    search methods is accepted and ignored, as in the source. */
module ApiResearcher {
  import opened Common
  import opened Research

  /** A catalog entry, with the `keywords` it is matched on. */
  datatype CatalogApi = CatalogApi(
    name: string,
    category: string,
    description: string,
    provider: string,
    url: string,
    dataFormat: string,
    usagePolicy: string,
    commercialUse: bool,
    keywords: seq<string>)

  /** The three catalogs, which differ in the fixed fields of their items
      and in how they match. */
  datatype ApiGroup = KoreanPublic | International | PopularFree

  const KoreanCatalog: seq<CatalogApi> := [
    CatalogApi("한국콘텐츠진흥원_콘텐츠산업통계조사", "문화", "콘텐츠 산업 관련 통계 데이터 제공", "KOCCA",
               "https://www.data.go.kr/data/15000001/openapi.do", "JSON, XML", "오픈API (키 필요)", true,
               ["콘텐츠", "산업", "통계", "문화"]),
    CatalogApi("문화체육관광부_문화데이터광장_공연전시정보", "문화", "전국 공연 및 전시 정보 제공", "문화체육관광부",
               "http://www.culture.go.kr/openapi", "JSON, XML", "오픈API (키 필요)", true,
               ["공연", "전시", "문화", "이벤트"]),
    CatalogApi("한국저작권위원회_저작권등록정보", "IP/저작권", "저작권 등록 정보 조회", "한국저작권위원회",
               "https://www.copyright.or.kr/openapi", "JSON, XML", "오픈API (키 필요)", true,
               ["저작권", "IP", "등록", "법률"]),
    CatalogApi("한국관광공사_관광지정보", "관광", "전국 관광지 정보 제공", "한국관광공사",
               "http://api.visitkorea.or.kr", "JSON, XML", "오픈API (키 필요)", true,
               ["관광", "여행", "지역", "명소"]),
    CatalogApi("통계청_인구총조사", "인구/통계", "인구 및 가구 통계 데이터", "통계청",
               "https://kosis.kr/openapi", "JSON, XML", "오픈API (키 필요)", true,
               ["인구", "통계", "가구", "인구통계"])
  ]

  const InternationalCatalog: seq<CatalogApi> := [
    CatalogApi("World Bank Open Data API", "경제/통계", "세계 각국의 경제, 인구, 개발 지표 데이터", "World Bank",
               "https://data.worldbank.org/developers", "JSON, XML", "Open Data (무료)", true,
               ["경제", "통계", "국제", "인구", "GDP"]),
    CatalogApi("UN Data API", "국제통계", "UN 통계 데이터베이스", "United Nations",
               "https://data.un.org", "JSON, CSV", "Open Data (무료)", true,
               ["국제", "통계", "UN", "개발", "사회"]),
    CatalogApi("OECD Data API", "경제/통계", "OECD 회원국 경제 및 사회 지표", "OECD",
               "https://data.oecd.org/api", "JSON, XML", "Open Data (무료)", true,
               ["경제", "OECD", "통계", "정책"])
  ]

  const PopularCatalog: seq<CatalogApi> := [
    CatalogApi("YouTube Data API", "미디어", "YouTube 동영상, 채널, 재생목록 데이터", "Google",
               "https://developers.google.com/youtube/v3", "JSON", "무료 할당량 (키 필요)", true,
               ["동영상", "미디어", "youtube", "콘텐츠", "비디오"]),
    CatalogApi("Twitter API", "SNS", "트위터 트윗, 사용자, 트렌드 데이터", "Twitter (X)",
               "https://developer.twitter.com/en/docs", "JSON", "무료/유료 플랜", true,
               ["SNS", "twitter", "소셜미디어", "트렌드"]),
    CatalogApi("News API", "뉴스", "전세계 뉴스 헤드라인 및 기사", "NewsAPI.org",
               "https://newsapi.org", "JSON", "무료 플랜 (키 필요)", false,
               ["뉴스", "기사", "언론", "미디어"]),
    CatalogApi("OpenWeatherMap API", "날씨", "현재 날씨 및 예보 데이터", "OpenWeatherMap",
               "https://openweathermap.org/api", "JSON, XML", "무료 플랜 (키 필요)", true,
               ["날씨", "기상", "예보"])
  ]

  function KeyRequired(g: ApiGroup): bool { g != International }

  function Cost(g: ApiGroup): string
  {
    if g == PopularFree then "Free (with limits)" else "Free"
  }

  function SourceLabel(g: ApiGroup): string
  {
    match g
    case KoreanPublic => "공공데이터포털"
    case International => "International Open Data"
    case PopularFree => "Third-party API"
  }

  function CatalogOf(g: ApiGroup): seq<CatalogApi>
  {
    match g
    case KoreanPublic => KoreanCatalog
    case International => InternationalCatalog
    case PopularFree => PopularCatalog
  }

  // ---------------------------------------------------------------------
  // Matching and scoring

  /** `any(kw in keyword_lower for kw in api['keywords'])`. */
  predicate KeywordHit(api: CatalogApi, keyword: string)
  {
    exists i :: 0 <= i < |api.keywords| && Contains(Lower(keyword), api.keywords[i])
  }

  predicate NameHit(api: CatalogApi, keyword: string)
  {
    Contains(Lower(api.name), Lower(keyword))
  }

  predicate DescriptionHit(api: CatalogApi, keyword: string)
  {
    Contains(Lower(api.description), Lower(keyword))
  }

  /** The Korean catalog also matches on name and description; the other two
      match on the catalog keywords only. */
  predicate Included(api: CatalogApi, keyword: string, g: ApiGroup)
  {
    KeywordHit(api, keyword) || (g == KoreanPublic && (NameHit(api, keyword) || DescriptionHit(api, keyword)))
  }

  /** `min(0.4·[kw in name] + 0.3·[kw in desc] + 0.3·[catalog kw hit], 1.0)` in tenths. */
  function ApiRelevance(api: CatalogApi, keyword: string): int
  {
    Min(4 * Indicator(NameHit(api, keyword)) + 3 * Indicator(DescriptionHit(api, keyword)) +
        3 * Indicator(KeywordHit(api, keyword)), 10)
  }

  method CalculateRelevance(api: CatalogApi, keyword: string) returns (score: int)
    ensures score == ApiRelevance(api, keyword)
  {
    score := 0;
    var keywordLower := Lower(keyword);
    if Contains(Lower(api.name), keywordLower) {
      score := score + 4;
    }
    if Contains(Lower(api.description), keywordLower) {
      score := score + 3;
    }
    if exists i :: 0 <= i < |api.keywords| && Contains(keywordLower, api.keywords[i]) {
      score := score + 3;
    }
    score := Min(score, 10);
  }

  function ToItem(api: CatalogApi, keyword: string, g: ApiGroup): ApiItem
  {
    ApiItem(api.name, api.category, api.description, api.provider, api.url, api.dataFormat, api.usagePolicy,
            api.commercialUse, KeyRequired(g), Cost(g), SourceLabel(g), ApiRelevance(api, keyword))
  }

  /** The items of the catalog entries that match, in catalog order. */
  function Matches(catalog: seq<CatalogApi>, keyword: string, g: ApiGroup): seq<ApiItem>
  {
    if catalog == [] then []
    else
      var last := catalog[|catalog| - 1];
      Matches(catalog[..|catalog| - 1], keyword, g) + (if Included(last, keyword, g) then [ToItem(last, keyword, g)] else [])
  }

  /** The loop shared by `_get_korean_public_apis`, `_get_international_apis`
      and `_get_popular_free_apis`. */
  method CatalogMatches(catalog: seq<CatalogApi>, keyword: string, g: ApiGroup) returns (apis: seq<ApiItem>)
    ensures apis == Matches(catalog, keyword, g)
  {
    apis := [];
    var keywordLower := Lower(keyword);
    for i := 0 to |catalog|
      invariant apis == Matches(catalog[..i], keyword, g)
    {
      var api := catalog[i];
      assert catalog[..i + 1][..i] == catalog[..i];
      assert catalog[..i + 1][i] == api;
      var hit := exists j :: 0 <= j < |api.keywords| && Contains(keywordLower, api.keywords[j]);
      if hit || (g == KoreanPublic && (Contains(Lower(api.name), keywordLower) || Contains(Lower(api.description), keywordLower))) {
        var score := CalculateRelevance(api, keyword);
        apis := apis + [ApiItem(api.name, api.category, api.description, api.provider, api.url, api.dataFormat,
                                api.usagePolicy, api.commercialUse, KeyRequired(g), Cost(g), SourceLabel(g), score)];
      }
    }
    assert catalog[..|catalog|] == catalog;
  }

  method GetKoreanPublicApis(keyword: string, category: Option<string>) returns (apis: seq<ApiItem>)
    ensures apis == Matches(KoreanCatalog, keyword, KoreanPublic)
  {
    apis := CatalogMatches(KoreanCatalog, keyword, KoreanPublic);
  }

  method GetInternationalApis(keyword: string, category: Option<string>) returns (apis: seq<ApiItem>)
    ensures apis == Matches(InternationalCatalog, keyword, International)
  {
    apis := CatalogMatches(InternationalCatalog, keyword, International);
  }

  method GetPopularFreeApis(keyword: string, category: Option<string>) returns (apis: seq<ApiItem>)
    ensures apis == Matches(PopularCatalog, keyword, PopularFree)
  {
    apis := CatalogMatches(PopularCatalog, keyword, PopularFree);
  }

  function SearchResult(keyword: string): seq<ApiItem>
  {
    Matches(KoreanCatalog, keyword, KoreanPublic) + Matches(InternationalCatalog, keyword, International) +
    Matches(PopularCatalog, keyword, PopularFree)
  }

  method Search(keyword: string, category: Option<string>) returns (results: seq<ApiItem>)
    ensures results == SearchResult(keyword)
  {
    var korean := GetKoreanPublicApis(keyword, category);
    var international := GetInternationalApis(keyword, category);
    var popular := GetPopularFreeApis(keyword, category);
    results := korean + international + popular;
  }

  // ---------------------------------------------------------------------
  // Properties

  /** An entry's item is listed iff the entry matches; every listed item
      comes from a matching entry, carries its group's fixed fields and
      scores at least 0.3. */
  lemma {:induction false} MatchesCorrect(catalog: seq<CatalogApi>, keyword: string, g: ApiGroup)
    ensures |Matches(catalog, keyword, g)| <= |catalog|
    ensures forall i :: 0 <= i < |catalog| && Included(catalog[i], keyword, g) ==>
      ToItem(catalog[i], keyword, g) in Matches(catalog, keyword, g)
    ensures forall x :: x in Matches(catalog, keyword, g) ==>
      (exists i :: 0 <= i < |catalog| && Included(catalog[i], keyword, g) && x == ToItem(catalog[i], keyword, g)) &&
      x.apiKeyRequired == KeyRequired(g) && x.cost == Cost(g) && x.source == SourceLabel(g) &&
      3 <= x.relevance <= 10
  {
    MatchesLength(catalog, keyword, g);
    MatchesComplete(catalog, keyword, g);
    MatchesSound(catalog, keyword, g);
    forall x | x in Matches(catalog, keyword, g)
      ensures x.apiKeyRequired == KeyRequired(g) && x.cost == Cost(g) && x.source == SourceLabel(g) &&
              3 <= x.relevance <= 10
    {
      var i :| 0 <= i < |catalog| && Included(catalog[i], keyword, g) && x == ToItem(catalog[i], keyword, g);
    }
  }

  lemma {:induction false} MatchesLength(catalog: seq<CatalogApi>, keyword: string, g: ApiGroup)
    ensures |Matches(catalog, keyword, g)| <= |catalog|
  {
    if catalog != [] {
      MatchesLength(catalog[..|catalog| - 1], keyword, g);
    }
  }

  lemma {:induction false} MatchesComplete(catalog: seq<CatalogApi>, keyword: string, g: ApiGroup)
    ensures forall i :: 0 <= i < |catalog| && Included(catalog[i], keyword, g) ==>
      ToItem(catalog[i], keyword, g) in Matches(catalog, keyword, g)
  {
    if catalog != [] {
      var init := catalog[..|catalog| - 1];
      MatchesComplete(init, keyword, g);
      forall i | 0 <= i < |catalog| && Included(catalog[i], keyword, g)
        ensures ToItem(catalog[i], keyword, g) in Matches(catalog, keyword, g)
      {
        if i < |init| {
          assert init[i] == catalog[i];
        }
      }
    }
  }

  lemma {:induction false} MatchesSound(catalog: seq<CatalogApi>, keyword: string, g: ApiGroup)
    ensures forall x :: x in Matches(catalog, keyword, g) ==>
      exists i :: 0 <= i < |catalog| && Included(catalog[i], keyword, g) && x == ToItem(catalog[i], keyword, g)
  {
    if catalog != [] {
      var init := catalog[..|catalog| - 1];
      var last := catalog[|catalog| - 1];
      MatchesSound(init, keyword, g);
      forall x | x in Matches(catalog, keyword, g)
        ensures exists i :: 0 <= i < |catalog| && Included(catalog[i], keyword, g) && x == ToItem(catalog[i], keyword, g)
      {
        if x in Matches(init, keyword, g) {
          var i :| 0 <= i < |init| && Included(init[i], keyword, g) && x == ToItem(init[i], keyword, g);
          assert catalog[i] == init[i];
        } else {
          assert x == ToItem(last, keyword, g);
        }
      }
    }
  }

  /** The search lists the Korean, then the international, then the popular
      matches, so at most 12 items, each scoring at least 0.3. */
  lemma SearchBounded(keyword: string)
    ensures |SearchResult(keyword)| <= 12
    ensures forall x :: x in SearchResult(keyword) ==> 3 <= x.relevance <= 10
  {
    MatchesCorrect(KoreanCatalog, keyword, KoreanPublic);
    MatchesCorrect(InternationalCatalog, keyword, International);
    MatchesCorrect(PopularCatalog, keyword, PopularFree);
  }

  /** A catalog keyword with an upper-case letter is compared against a
      lower-cased search keyword and can never occur in it. */
  lemma UppercaseKeywordNeverHits(kw: string, keyword: string, c: char)
    requires c in kw && IsUpper(c)
    ensures !Contains(Lower(keyword), kw)
  {
    if Contains(Lower(keyword), kw) {
      ContainsChar(Lower(keyword), kw, c);
      LowerHasNoUpper(keyword, c);
    }
  }

  /** So `IP`, `UN`, `GDP`, `OECD` and `SNS` are dead catalog keywords. */
  lemma DeadCatalogKeywords(keyword: string)
    ensures !Contains(Lower(keyword), "IP") && !Contains(Lower(keyword), "UN") && !Contains(Lower(keyword), "GDP")
    ensures !Contains(Lower(keyword), "OECD") && !Contains(Lower(keyword), "SNS")
  {
    UppercaseKeywordNeverHits("IP", keyword, 'I');
    UppercaseKeywordNeverHits("UN", keyword, 'U');
    UppercaseKeywordNeverHits("GDP", keyword, 'G');
    UppercaseKeywordNeverHits("OECD", keyword, 'O');
    UppercaseKeywordNeverHits("SNS", keyword, 'S');
  }

  /** International and popular entries never match on name or description
      alone: without a catalog-keyword hit they are left out, even when the
      keyword is the entry's own name. */
  lemma NonKoreanNeedKeywordHit(api: CatalogApi, keyword: string, g: ApiGroup)
    requires g != KoreanPublic
    ensures Included(api, keyword, g) <==> KeywordHit(api, keyword)
  {
  }

  // ---------------------------------------------------------------------
  // get_api_examples

  datatype ApiExample = ApiExample(description: string, code: string, documentation: string)

  /** The search endpoint the YouTube example calls. */
  const YouTubeSearchUrl: string := "https://www.googleapis.com/youtube/v3/search"

  const YouTubeCode: string :=
    "\nimport requests\n\napi_key = 'YOUR_API_KEY'\nurl = '" + YouTubeSearchUrl +
    "'\n\nparams = {\n    'part': 'snippet',\n    'q': 'K-POP',\n    'key': api_key,\n    'maxResults': 10\n}\n\nresponse = requests.get(url, params=params)\ndata = response.json()\n                "

  const YouTubeExample: ApiExample := ApiExample(
    "YouTube 동영상 검색 예시",
    YouTubeCode,
    "https://developers.google.com/youtube/v3/docs")

  const PlaceholderExample: ApiExample := ApiExample("예시 코드가 준비되지 않았습니다.", "", "")

  /** `examples.get(api_name, placeholder)`. */
  function GetApiExamples(apiName: string): (r: ApiExample)
    ensures r.code != "" <==> apiName == "YouTube Data API"
    ensures apiName != "YouTube Data API" ==> r.code == "" && r.documentation == ""
    ensures apiName == "YouTube Data API" ==> Contains(r.code, YouTubeSearchUrl)
  {
    if apiName == "YouTube Data API" then
      ContainsInfix("\nimport requests\n\napi_key = 'YOUR_API_KEY'\nurl = '", YouTubeSearchUrl, "'\n\nparams = {\n    'part': 'snippet',\n    'q': 'K-POP',\n    'key': api_key,\n    'maxResults': 10\n}\n\nresponse = requests.get(url, params=params)\ndata = response.json()\n                ");
      YouTubeExample
    else PlaceholderExample
  }
}
