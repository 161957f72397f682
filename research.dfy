/** The records the four collectors produce and the checklist generator
    consumes, restricted to the fields the generator and the maturity
    analyses read. Scores are integers: web credibility in percent, paper
    and API relevance in tenths, tech popularity in thousandths. */
module Research {
  import opened Common

  /** An item of WebResearcher.search. `publishedDate` is the day as
      yyyymmdd, which orders like the '%Y-%m-%d' string it stands for. */
  datatype WebItem = WebItem(
    title: string,
    url: string,
    source: string,
    sourceType: string,
    summary: string,
    publishedDate: int,
    credibility: int)

  /** An item of PaperResearcher.search; `year` is `None` when the backend
      found no date (a stored `None`, not a missing key). */
  datatype Paper = Paper(
    title: string,
    authors: seq<string>,
    year: Option<int>,
    abstractText: string,
    citations: int,
    venue: string,
    url: string,
    source: string,
    relevance: int)

  /** An item of TechResearcher.search. npm and PyPI items carry no stars,
      activity or language; the defaults the readers use (0, false, "")
      stand in for the missing keys. */
  datatype TechItem = TechItem(
    name: string,
    description: string,
    url: string,
    stars: nat,
    language: string,
    isActive: bool,
    popularity: int,
    source: string,
    itemType: string)

  /** An item of APIResearcher.search. */
  datatype ApiItem = ApiItem(
    name: string,
    category: string,
    description: string,
    provider: string,
    url: string,
    dataFormat: string,
    usagePolicy: string,
    commercialUse: bool,
    apiKeyRequired: bool,
    cost: string,
    source: string,
    relevance: int)

  /** The `research_data` dict. Every reader uses `.get(bucket, [])`, so a
      missing bucket and an empty one read alike. */
  datatype ResearchData = ResearchData(web: seq<WebItem>, papers: seq<Paper>, tech: seq<TechItem>, apis: seq<ApiItem>)

  /** `research_data = {}` when collection is switched off. */
  const NoResearch: ResearchData := ResearchData([], [], [], [])

  /** `sources is None or tag in sources`. */
  predicate Selected(sources: Option<seq<string>>, tag: string)
  {
    sources.None? || tag in sources.value
  }
}
