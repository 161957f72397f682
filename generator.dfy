/** ChecklistGenerator (src/checklist/generator.py): it attaches to every
    selected question the research items that mention the facility keyword
    or the question's research keywords, summarises the research, derives
    recommendation lines and renders the result as Markdown. */
module Generator {
  import opened Common
  import opened Research
  import opened StableSort
  import opened Templates
  import WebResearcher
  import PaperResearcher
  import TechResearcher
  import ApiResearcher

  // ---------------------------------------------------------------------
  // _is_relevant

  /** The text `_is_relevant` searches, before lower-casing: the item's
      title, description, summary and name joined by single spaces, a
      missing key reading as ''. */
  function Fields(title: string, description: string, summary: string, name: string): string
  {
    title + " " + description + " " + summary + " " + name
  }

  /** The main keyword or one of the question's keywords, lower-cased,
      occurs in the text. */
  predicate Relevant(text: string, keywords: seq<string>, mainKeyword: string)
  {
    Contains(text, Lower(mainKeyword)) || exists i :: 0 <= i < |keywords| && Contains(text, Lower(keywords[i]))
  }

  /** Web items have a title and a summary, papers a title, tech and API
      items a name and a description. */
  function WebFields(w: WebItem): string { Fields(w.title, "", w.summary, "") }
  function PaperFields(p: Paper): string { Fields(p.title, "", "", "") }
  function TechFields(t: TechItem): string { Fields("", t.description, "", t.name) }
  function ApiFields(a: ApiItem): string { Fields("", a.description, "", a.name) }

  /** `_is_relevant`, given the item's joined fields. */
  method IsRelevant(fields: string, keywords: seq<string>, mainKeyword: string) returns (relevant: bool)
    ensures relevant == Relevant(Lower(fields), keywords, mainKeyword)
  {
    var text := Lower(fields);
    if Contains(text, Lower(mainKeyword)) {
      return true;
    }
    for i := 0 to |keywords|
      invariant forall j :: 0 <= j < i ==> !Contains(text, Lower(keywords[j]))
    {
      if Contains(text, Lower(keywords[i])) {
        return true;
      }
    }
    return false;
  }

  /** A text field that mentions the main keyword, in any ASCII case, makes
      its item relevant, whatever the question's keywords. */
  lemma TitleMentionMakesRelevant(title: string, rest: string, keywords: seq<string>, mainKeyword: string)
    requires Contains(Lower(title), Lower(mainKeyword))
    ensures Relevant(Lower(title + rest), keywords, mainKeyword)
  {
    var needle := Lower(mainKeyword);
    var i := ContainsOffset(Lower(title), needle);
    var hay := Lower(title + rest);
    assert hay[i..i + |needle|] == Lower(title)[i..i + |needle|];
    ContainsAt(hay, needle, i);
  }

  /** An empty main keyword occurs in every text: then every item is relevant. */
  lemma EmptyKeywordMatchesEverything(text: string, keywords: seq<string>)
    ensures Relevant(text, keywords, "")
  {
    assert Lower("") == "";
    assert IsPrefix("", text);
  }

  // ---------------------------------------------------------------------
  // _find_related_resources

  /** The resource dicts, one constructor per `'type'`. */
  datatype Resource =
    | WebResource(title: string, url: string, source: string, summary: string, credibility: int)
    | PaperResource(title: string, url: string, authors: seq<string>, year: Option<int>, citations: int, source: string)
    | TechResource(name: string, url: string, description: string, stars: nat, language: string, source: string)
    | ApiResource(name: string, url: string, description: string, provider: string, usagePolicy: string)

  function WebResourceOf(w: WebItem): Resource { WebResource(w.title, w.url, w.source, w.summary, w.credibility) }
  function PaperResourceOf(p: Paper): Resource { PaperResource(p.title, p.url, p.authors, p.year, p.citations, p.source) }
  function TechResourceOf(t: TechItem): Resource { TechResource(t.name, t.url, t.description, t.stars, t.language, t.source) }
  function ApiResourceOf(a: ApiItem): Resource { ApiResource(a.name, a.url, a.description, a.provider, a.usagePolicy) }

  /** The sort key `x.get('credibility', 0.5)` in percent: only web
      resources carry a credibility. */
  function CredKey(r: Resource): int
  {
    if r.WebResource? then r.credibility else 50
  }

  /** The resources of the relevant items, in list order. */
  function Keep<T>(items: seq<T>, fields: T -> string, resource: T -> Resource,
                   keywords: seq<string>, mainKeyword: string): seq<Resource>
  {
    if items == [] then []
    else
      var last := items[|items| - 1];
      Keep(items[..|items| - 1], fields, resource, keywords, mainKeyword) +
      (if Relevant(Lower(fields(last)), keywords, mainKeyword) then [resource(last)] else [])
  }

  /** The list built before sorting: relevant web items, then papers, then
      tech items, then APIs. */
  function Candidates(research: ResearchData, keywords: seq<string>, mainKeyword: string): seq<Resource>
  {
    Keep(research.web, WebFields, WebResourceOf, keywords, mainKeyword) +
    Keep(research.papers, PaperFields, PaperResourceOf, keywords, mainKeyword) +
    Keep(research.tech, TechFields, TechResourceOf, keywords, mainKeyword) +
    Keep(research.apis, ApiFields, ApiResourceOf, keywords, mainKeyword)
  }

  /** `resources.sort(key=credibility, reverse=True); resources[:5]`. */
  function Related(keywords: seq<string>, research: ResearchData, mainKeyword: string): seq<Resource>
  {
    PyPrefix(SortDesc(Candidates(research, keywords, mainKeyword), CredKey), 5)
  }

  /** One of the four `for item in research_data.get(...)` loops. */
  method KeepRelevant<T>(items: seq<T>, fields: T -> string, resource: T -> Resource,
                         keywords: seq<string>, mainKeyword: string)
    returns (kept: seq<Resource>)
    ensures kept == Keep(items, fields, resource, keywords, mainKeyword)
  {
    kept := [];
    for i := 0 to |items|
      invariant kept == Keep(items[..i], fields, resource, keywords, mainKeyword)
    {
      assert items[..i + 1][..i] == items[..i];
      var relevant := IsRelevant(fields(items[i]), keywords, mainKeyword);
      if relevant {
        kept := kept + [resource(items[i])];
      }
    }
    assert items[..|items|] == items;
  }

  method FindRelatedResources(keywords: seq<string>, research: ResearchData, mainKeyword: string)
    returns (resources: seq<Resource>)
    ensures resources == Related(keywords, research, mainKeyword)
  {
    var web := KeepRelevant(research.web, WebFields, WebResourceOf, keywords, mainKeyword);
    var papers := KeepRelevant(research.papers, PaperFields, PaperResourceOf, keywords, mainKeyword);
    var tech := KeepRelevant(research.tech, TechFields, TechResourceOf, keywords, mainKeyword);
    var apis := KeepRelevant(research.apis, ApiFields, ApiResourceOf, keywords, mainKeyword);
    resources := web + papers + tech + apis;
    resources := SortDesc(resources, CredKey);
    resources := PyPrefix(resources, 5);
  }

  /** x is the resource of a relevant item of the list. */
  predicate FromRelevant<T>(items: seq<T>, fields: T -> string, resource: T -> Resource,
                            keywords: seq<string>, mainKeyword: string, x: Resource)
  {
    exists i :: 0 <= i < |items| && Relevant(Lower(fields(items[i])), keywords, mainKeyword) && x == resource(items[i])
  }

  /** An item's resource is kept iff the item is relevant, and nothing else
      is kept; when every item is relevant, every item is kept. */
  lemma {:induction false} KeepCorrect<T>(items: seq<T>, fields: T -> string, resource: T -> Resource,
                                          keywords: seq<string>, mainKeyword: string)
    ensures |Keep(items, fields, resource, keywords, mainKeyword)| <= |items|
    ensures forall x :: x in Keep(items, fields, resource, keywords, mainKeyword) <==>
      FromRelevant(items, fields, resource, keywords, mainKeyword, x)
    ensures (forall i :: 0 <= i < |items| ==> Relevant(Lower(fields(items[i])), keywords, mainKeyword)) ==>
      |Keep(items, fields, resource, keywords, mainKeyword)| == |items|
  {
    if items != [] {
      var init := items[..|items| - 1];
      var last := items[|items| - 1];
      KeepCorrect(init, fields, resource, keywords, mainKeyword);
      var k := Keep(items, fields, resource, keywords, mainKeyword);
      forall x ensures x in k <==> FromRelevant(items, fields, resource, keywords, mainKeyword, x) {
        if FromRelevant(items, fields, resource, keywords, mainKeyword, x) {
          var i :| 0 <= i < |items| && Relevant(Lower(fields(items[i])), keywords, mainKeyword) && x == resource(items[i]);
          if i < |init| {
            assert init[i] == items[i];
            assert FromRelevant(init, fields, resource, keywords, mainKeyword, x);
          }
        }
        if x in Keep(init, fields, resource, keywords, mainKeyword) {
          var i :| 0 <= i < |init| && Relevant(Lower(fields(init[i])), keywords, mainKeyword) && x == resource(init[i]);
          assert items[i] == init[i];
        }
      }
      if forall i :: 0 <= i < |items| ==> Relevant(Lower(fields(items[i])), keywords, mainKeyword) {
        forall i | 0 <= i < |init| ensures Relevant(Lower(fields(init[i])), keywords, mainKeyword) {
          assert init[i] == items[i];
        }
      }
    }
  }

  /** As many resources as there are candidates, up to five, taken from
      the candidates; higher credibility first, no dropped candidate more
      credible than a kept one, and among equal credibility the first
      candidates in web, paper, tech, API order. */
  lemma RelatedCorrect(keywords: seq<string>, research: ResearchData, mainKeyword: string)
    ensures var r := Related(keywords, research, mainKeyword);
      var c := Candidates(research, keywords, mainKeyword);
      |r| == Min(5, |c|) &&
      (forall x :: x in r ==> x in c) &&
      multiset(r) <= multiset(c) &&
      SortedDesc(r, CredKey) &&
      (forall x :: x in multiset(c) - multiset(r) ==> forall i :: 0 <= i < |r| ==> CredKey(x) <= CredKey(r[i])) &&
      forall k :: IsPrefix(WithKey(r, CredKey, k), WithKey(c, CredKey, k))
  {
    var c := Candidates(research, keywords, mainKeyword);
    var r := Related(keywords, research, mainKeyword);
    TopOfSortDesc(c, 5, CredKey);
    forall x | x in r ensures x in c {
      assert x in multiset(r);
    }
  }

  /** A resource is a candidate iff it comes from a relevant item of one
      of the four lists. */
  lemma CandidatesExactly(research: ResearchData, keywords: seq<string>, mainKeyword: string, x: Resource)
    ensures x in Candidates(research, keywords, mainKeyword) <==>
      FromRelevant(research.web, WebFields, WebResourceOf, keywords, mainKeyword, x) ||
      FromRelevant(research.papers, PaperFields, PaperResourceOf, keywords, mainKeyword, x) ||
      FromRelevant(research.tech, TechFields, TechResourceOf, keywords, mainKeyword, x) ||
      FromRelevant(research.apis, ApiFields, ApiResourceOf, keywords, mainKeyword, x)
  {
    KeepCorrect(research.web, WebFields, WebResourceOf, keywords, mainKeyword);
    KeepCorrect(research.papers, PaperFields, PaperResourceOf, keywords, mainKeyword);
    KeepCorrect(research.tech, TechFields, TechResourceOf, keywords, mainKeyword);
    KeepCorrect(research.apis, ApiFields, ApiResourceOf, keywords, mainKeyword);
  }

  // ---------------------------------------------------------------------
  // _enrich_checklist_with_research

  /** A question dict with `related_resources`, `resource_count` and
      `needs_more_research` added. */
  datatype EnrichedQuestion = EnrichedQuestion(
    question: Question,
    relatedResources: seq<Resource>,
    resourceCount: nat,
    needsMoreResearch: bool)

  datatype EnrichedSection = EnrichedSection(
    categoryId: string,
    info: CategoryInfo,
    questions: seq<EnrichedQuestion>,
    totalResources: nat)

  /** `{**question, 'related_resources': ..., 'resource_count': ...,
      'needs_more_research': len(related) < 3}`. */
  function WithResources(q: Question, related: seq<Resource>): EnrichedQuestion
  {
    EnrichedQuestion(q, related, |related|, |related| < 3)
  }

  /** The related resources a question looks up: `_find_related_resources`
      with its research keywords. */
  function RelatedOf(research: ResearchData, keyword: string): Question -> seq<Resource>
  {
    (q: Question) => Related(q.researchKeywords, research, keyword)
  }

  /** `sum(q['resource_count'] for q in enriched_questions)`. */
  function ResourceTotal(qs: seq<EnrichedQuestion>): nat
  {
    if qs == [] then 0 else ResourceTotal(qs[..|qs| - 1]) + qs[|qs| - 1].resourceCount
  }

  /** The enriched questions of a section, in order, each with the
      resources `related` finds for it. */
  function EnrichedQuestions(questions: seq<Question>, related: Question -> seq<Resource>): seq<EnrichedQuestion>
    decreases |questions|
  {
    if questions == [] then []
    else EnrichedQuestions(questions[..|questions| - 1], related) +
         [WithResources(questions[|questions| - 1], related(questions[|questions| - 1]))]
  }

  /** A section whose questions get the resources `related` finds. */
  function EnrichSectionWith(s: Section, related: Question -> seq<Resource>): EnrichedSection
  {
    var qs := EnrichedQuestions(s.questions, related);
    EnrichedSection(s.categoryId, s.info, qs, ResourceTotal(qs))
  }

  /** The enriched checklist, section by section, in order. */
  function EnrichedWith(template: seq<Section>, related: Question -> seq<Resource>): seq<EnrichedSection>
    decreases |template|
  {
    if template == [] then []
    else EnrichedWith(template[..|template| - 1], related) +
         [EnrichSectionWith(template[|template| - 1], related)]
  }

  function Enriched(template: seq<Section>, research: ResearchData, keyword: string): seq<EnrichedSection>
  {
    EnrichedWith(template, RelatedOf(research, keyword))
  }

  /** One enriched question per question, each from its own question. */
  lemma {:induction false} EnrichedQuestionsAt(questions: seq<Question>, related: Question -> seq<Resource>)
    ensures |EnrichedQuestions(questions, related)| == |questions|
    ensures forall j :: 0 <= j < |questions| ==>
      EnrichedQuestions(questions, related)[j] == WithResources(questions[j], related(questions[j]))
    decreases |questions|
  {
    if questions != [] {
      var init := questions[..|questions| - 1];
      EnrichedQuestionsAt(init, related);
      forall j | 0 <= j < |init| ensures init[j] == questions[j] {
      }
    }
  }

  /** One enriched section per section, each from its own section. */
  lemma {:induction false} EnrichedAt(template: seq<Section>, related: Question -> seq<Resource>)
    ensures |EnrichedWith(template, related)| == |template|
    ensures forall c :: 0 <= c < |template| ==>
      EnrichedWith(template, related)[c] == EnrichSectionWith(template[c], related)
    decreases |template|
  {
    if template != [] {
      var init := template[..|template| - 1];
      EnrichedAt(init, related);
      forall c | 0 <= c < |init| ensures init[c] == template[c] {
      }
    }
  }

  /** The inner loop of `_enrich_checklist_with_research`. */
  method EnrichQuestions(questions: seq<Question>, research: ResearchData, keyword: string)
    returns (enriched: seq<EnrichedQuestion>)
    ensures enriched == EnrichedQuestions(questions, RelatedOf(research, keyword))
  {
    enriched := [];
    for i := 0 to |questions|
      invariant enriched == EnrichedQuestions(questions[..i], RelatedOf(research, keyword))
    {
      var related := FindRelatedResources(questions[i].researchKeywords, research, keyword);
      assert related == RelatedOf(research, keyword)(questions[i]);
      assert questions[..i + 1][..i] == questions[..i];
      enriched := enriched + [WithResources(questions[i], related)];
    }
    assert questions[..|questions|] == questions;
  }

  method EnrichChecklistWithResearch(template: seq<Section>, research: ResearchData, keyword: string)
    returns (enriched: seq<EnrichedSection>)
    ensures enriched == Enriched(template, research, keyword)
  {
    enriched := [];
    for c := 0 to |template|
      invariant enriched == Enriched(template[..c], research, keyword)
    {
      var questions := EnrichQuestions(template[c].questions, research, keyword);
      assert template[..c + 1][..c] == template[..c];
      enriched := enriched + [EnrichedSection(template[c].categoryId, template[c].info, questions, ResourceTotal(questions))];
    }
    assert template[..|template|] == template;
  }

  /** Every count is at most five, so the total is at most five per
      question; all counts zero make the total zero. */
  lemma {:induction false} ResourceTotalBound(qs: seq<EnrichedQuestion>)
    requires forall i :: 0 <= i < |qs| ==> qs[i].resourceCount <= 5
    ensures ResourceTotal(qs) <= 5 * |qs|
    ensures (forall i :: 0 <= i < |qs| ==> qs[i].resourceCount == 0) ==> ResourceTotal(qs) == 0
  {
    if qs != [] {
      var init := qs[..|qs| - 1];
      assert forall i :: 0 <= i < |init| ==> init[i] == qs[i];
      ResourceTotalBound(init);
    }
  }

  /** The enriched checklist keeps the sections, their order, ids, infos and
      questions; each question gets at most five resources, is flagged
      exactly when it has fewer than three, and each section's total is
      the sum of its counts, so at most five per question. */
  lemma EnrichmentFacts(template: seq<Section>, research: ResearchData, keyword: string)
    ensures var e := Enriched(template, research, keyword);
      |e| == |template| &&
      forall c :: 0 <= c < |e| ==>
        e[c].categoryId == template[c].categoryId && e[c].info == template[c].info &&
        |e[c].questions| == |template[c].questions| &&
        e[c].totalResources == ResourceTotal(e[c].questions) &&
        e[c].totalResources <= 5 * |e[c].questions| &&
        forall i :: 0 <= i < |e[c].questions| ==>
          var q := e[c].questions[i];
          q.question == template[c].questions[i] &&
          q.relatedResources == Related(template[c].questions[i].researchKeywords, research, keyword) &&
          q.resourceCount == |q.relatedResources| <= 5 &&
          (q.needsMoreResearch <==> q.resourceCount < 3)
  {
    var related := RelatedOf(research, keyword);
    forall q: Question ensures |related(q)| <= 5 {
      RelatedAtMostFive(q.researchKeywords, research, keyword);
    }
    EnrichedAt(template, related);
    forall c | 0 <= c < |template| ensures
      SectionFacts(template[c], EnrichSectionWith(template[c], related), related) &&
      EnrichSectionWith(template[c], related).totalResources <= 5 * |template[c].questions|
    {
      EnrichSectionFacts(template[c], related);
      ResourceTotalBound(EnrichSectionWith(template[c], related).questions);
    }
  }

  /** What enriching one section with `related` yields. */
  predicate SectionFacts(s: Section, e: EnrichedSection, related: Question -> seq<Resource>)
  {
    e.categoryId == s.categoryId && e.info == s.info &&
    |e.questions| == |s.questions| &&
    e.totalResources == ResourceTotal(e.questions) &&
    forall i :: 0 <= i < |e.questions| ==>
      var q := e.questions[i];
      q.question == s.questions[i] &&
      q.relatedResources == related(s.questions[i]) &&
      q.resourceCount == |q.relatedResources| &&
      (q.needsMoreResearch <==> q.resourceCount < 3)
  }

  lemma EnrichSectionFacts(s: Section, related: Question -> seq<Resource>)
    ensures SectionFacts(s, EnrichSectionWith(s, related), related)
  {
    EnrichedQuestionsAt(s.questions, related);
  }

  lemma RelatedAtMostFive(keywords: seq<string>, research: ResearchData, mainKeyword: string)
    ensures |Related(keywords, research, mainKeyword)| <= 5
  {
    RelatedCorrect(keywords, research, mainKeyword);
  }

  /** Without research every question is flagged with no resources and
      every section totals zero. */
  lemma NoResearchFlagsEverything(template: seq<Section>, keyword: string)
    ensures var e := Enriched(template, NoResearch, keyword);
      forall c :: 0 <= c < |e| ==>
        e[c].totalResources == 0 &&
        forall i :: 0 <= i < |e[c].questions| ==>
          e[c].questions[i].relatedResources == [] && e[c].questions[i].needsMoreResearch
  {
    var related := RelatedOf(NoResearch, keyword);
    forall q: Question ensures related(q) == [] {
      NoResearchRelatesNothing(q.researchKeywords, keyword);
    }
    EnrichedAt(template, related);
    forall c | 0 <= c < |template| ensures
      SectionFacts(template[c], EnrichSectionWith(template[c], related), related) &&
      EnrichSectionWith(template[c], related).totalResources == 0
    {
      EnrichSectionFacts(template[c], related);
      ResourceTotalBound(EnrichSectionWith(template[c], related).questions);
    }
  }

  lemma NoResearchRelatesNothing(keywords: seq<string>, mainKeyword: string)
    ensures Related(keywords, NoResearch, mainKeyword) == []
  {
  }

  /** Five web items whose titles all mention the keyword give any
      keywords five related resources. */
  lemma MentioningWebItemsRelate(research: ResearchData, keyword: string, kws: seq<string>)
    requires |research.web| >= 5
    requires forall i :: 0 <= i < |research.web| ==> Contains(research.web[i].title, keyword)
    ensures |Related(kws, research, keyword)| == 5
  {
    forall i | 0 <= i < |research.web| ensures Relevant(Lower(WebFields(research.web[i])), kws, keyword) {
      MentioningWebItemRelevant(research.web[i], kws, keyword);
    }
    KeepCorrect(research.web, WebFields, WebResourceOf, kws, keyword);
    assert |Candidates(research, kws, keyword)| >= 5;
    RelatedCorrect(kws, research, keyword);
  }

  lemma MentioningWebItemRelevant(w: WebItem, kws: seq<string>, keyword: string)
    requires Contains(w.title, keyword)
    ensures Relevant(Lower(WebFields(w)), kws, keyword)
  {
    ContainsLower(w.title, keyword);
    TitleMentionMakesRelevant(w.title, " " + "" + " " + w.summary + " " + "", kws, keyword);
    assert WebFields(w) == w.title + (" " + "" + " " + w.summary + " " + "");
  }

  /** Five web items whose titles all mention the keyword fill every
      question's five resource slots, so no question is flagged. */
  lemma MentioningWebItemsFillEveryQuestion(template: seq<Section>, research: ResearchData, keyword: string)
    requires |research.web| >= 5
    requires forall i :: 0 <= i < |research.web| ==> Contains(research.web[i].title, keyword)
    ensures var e := Enriched(template, research, keyword);
      forall c, i :: 0 <= c < |e| && 0 <= i < |e[c].questions| ==>
        e[c].questions[i].resourceCount == 5 && !e[c].questions[i].needsMoreResearch
  {
    var related := RelatedOf(research, keyword);
    forall q: Question ensures |related(q)| == 5 {
      MentioningWebItemsRelate(research, keyword, q.researchKeywords);
    }
    EnrichedAt(template, related);
    forall c | 0 <= c < |template| ensures SectionFacts(template[c], EnrichSectionWith(template[c], related), related) {
      EnrichSectionFacts(template[c], related);
    }
  }

  // ---------------------------------------------------------------------
  // _create_research_summary

  datatype ResearchSummary = ResearchSummary(
    webSources: nat,
    papers: nat,
    techProjects: nat,
    apis: nat,
    totalResources: nat,
    paperMaturity: PaperResearcher.PaperMaturity,
    techMaturity: TechResearcher.TechMaturity)

  /** The counts, their sum and both maturity analyses. The paper analysis
      raises on a paper without a year, and the exception reaches the
      caller. */
  function CreateResearchSummary(research: ResearchData, currentYear: int): (r: Result<ResearchSummary>)
    ensures r.Err? <==> research.papers != [] && PaperResearcher.HasMissingYear(research.papers)
    ensures r.Ok? ==>
      r.value.totalResources == |research.web| + |research.papers| + |research.tech| + |research.apis| &&
      r.value.webSources == |research.web| && r.value.papers == |research.papers| &&
      r.value.techProjects == |research.tech| && r.value.apis == |research.apis| &&
      r.value.paperMaturity.totalPapers == |research.papers| &&
      r.value.techMaturity == TechResearcher.TechMaturityOf(research.tech)
  {
    match PaperResearcher.AnalyzeMaturity(research.papers, currentYear)
    case Err(e) => Err(e)
    case Ok(paperMaturity) =>
      Ok(ResearchSummary(|research.web|, |research.papers|, |research.tech|, |research.apis|,
                         |research.web| + |research.papers| + |research.tech| + |research.apis|,
                         paperMaturity, TechResearcher.TechMaturityOf(research.tech)))
  }

  // ---------------------------------------------------------------------
  // _generate_recommendations

  // Each line is written as a short head and a tail, so that the first
  // characters are visible to the verifier.
  const FewPapersWarning: string := "⚠️  관련" + " 연구 자료가 부족합니다. 최신 안전 기준을 별도로 확인하시기 바랍니다."
  const ManyPapersNote: string := "✅ 충분한" + " 연구 자료가 있어 검증된 안전 기준을 참고할 수 있습니다."
  const OpenSourceNote: string := "✅ 관련" + " 오픈소스 도구들이 있어 재난 관리 시스템 구축이 용이합니다."

  function ApiNote(count: nat): string
  {
    "💡 " + NatToString(count) + "개의 공공 API를 활용하여 실시간 재난 정보를 모니터링할 수 있습니다."
  }

  function PaperAdvice(papers: nat): seq<string>
  {
    if papers < 5 then [FewPapersWarning] else if papers > 20 then [ManyPapersNote] else []
  }

  /** `sum(stars) / len(tech) > 500` over every tech item. */
  function TechAdvice(tech: seq<TechItem>): seq<string>
  {
    if tech != [] && TechResearcher.AverageStars(tech) > 500.0 then [OpenSourceNote] else []
  }

  function ApiAdvice(apis: nat): seq<string>
  {
    if apis > 0 then [ApiNote(apis)] else []
  }

  function Recommendations(research: ResearchData): seq<string>
  {
    PaperAdvice(|research.papers|) + TechAdvice(research.tech) + ApiAdvice(|research.apis|)
  }

  method GenerateRecommendations(research: ResearchData) returns (recommendations: seq<string>)
    ensures recommendations == Recommendations(research)
  {
    recommendations := [];
    var papers := research.papers;
    if |papers| < 5 {
      recommendations := recommendations + [FewPapersWarning];
    } else if |papers| > 20 {
      recommendations := recommendations + [ManyPapersNote];
    }
    var tech := research.tech;
    if tech != [] {
      var avgStars := TechResearcher.TotalStars(tech) as real / |tech| as real;
      if avgStars > 500.0 {
        recommendations := recommendations + [OpenSourceNote];
      }
    }
    var apis := research.apis;
    if apis != [] {
      recommendations := recommendations + [ApiNote(|apis|)];
    }
  }

  lemma ApiNoteInjective(m: nat, n: nat)
    requires ApiNote(m) == ApiNote(n)
    ensures m == n
  {
    var a, b := NatToString(m), NatToString(n);
    var tail := "개의 공공 API를 활용하여 실시간 재난 정보를 모니터링할 수 있습니다.";
    assert ApiNote(m) == "💡 " + a + tail && ApiNote(n) == "💡 " + b + tail;
    assert |a| == |b|;
    assert a == ApiNote(m)[2..2 + |a|];
    assert b == ApiNote(n)[2..2 + |b|];
    NatToStringInjective(m, n);
  }

  lemma LinesDistinct()
    ensures FewPapersWarning != ManyPapersNote && FewPapersWarning != OpenSourceNote && ManyPapersNote != OpenSourceNote
  {
    assert FewPapersWarning[0] == '⚠' && ManyPapersNote[0] == '✅';
    assert ManyPapersNote[2] == '충' && OpenSourceNote[2] == '관';
  }

  lemma ApiNoteDistinct(n: nat)
    ensures ApiNote(n) != FewPapersWarning && ApiNote(n) != ManyPapersNote && ApiNote(n) != OpenSourceNote
  {
    assert ApiNote(n)[0] == '💡';
    assert FewPapersWarning[0] == '⚠';
    assert ManyPapersNote[0] == '✅';
    assert OpenSourceNote[0] == '✅';
  }

  /** At most three lines, in the order papers, tech, APIs: the shortage
      warning exactly when there are fewer than five papers, the
      sufficiency note exactly when there are more than twenty, the
      open-source note exactly when the tech items average more than 500
      stars, and an API line exactly when APIs were found, naming their
      number. */
  lemma RecommendationRules(research: ResearchData)
    ensures var r := Recommendations(research);
      |r| <= 3 &&
      (FewPapersWarning in r <==> |research.papers| < 5) &&
      (ManyPapersNote in r <==> |research.papers| > 20) &&
      (OpenSourceNote in r <==> research.tech != [] &&
                                TechResearcher.TotalStars(research.tech) > 500 * |research.tech|) &&
      (forall n: nat :: ApiNote(n) in r <==> n == |research.apis| > 0)
  {
    var r := Recommendations(research);
    TechResearcher.AverageAbove(research.tech, 500);
    LinesDistinct();
    ApiNoteDistinct(|research.apis|);
    forall n: nat ensures ApiNote(n) in r <==> n == |research.apis| > 0 {
      ApiNoteDistinct(n);
      if ApiNote(n) in r {
        ApiNoteInjective(n, |research.apis|);
      }
    }
  }

  /** Without research only the shortage warning is given. */
  lemma NoResearchOnlyWarns()
    ensures Recommendations(NoResearch) == [FewPapersWarning]
  {
  }

  // ---------------------------------------------------------------------
  // _generate_markdown

  datatype Metadata = Metadata(
    keyword: string,
    facilityType: string,
    checkPhase: string,
    focusArea: Option<string>,
    generatedAt: string,
    version: string)

  /** The dict `generate` returns. */
  datatype ChecklistData = ChecklistData(
    metadata: Metadata,
    checklist: seq<EnrichedSection>,
    researchSummary: ResearchSummary,
    recommendations: seq<string>)

  function Badge(importance: Importance): string
  {
    match importance
    case High => "🔴"
    case Medium => "🟡"
    case Low => "🟢"
  }

  /** `res.get('year', 'N/A')`: the key is always set, so a paper without a
      year prints Python's `None`. */
  function YearText(year: Option<int>): string
  {
    match year
    case Some(y) => IntToString(y)
    case None => "None"
  }

  function ResourceLine(r: Resource): string
  {
    match r
    case WebResource(title, url, source, _, _) => "- [" + title + "](" + url + ") - " + source + "\n"
    case PaperResource(title, url, _, year, _, _) => "- 📄 [" + title + "](" + url + ") (" + YearText(year) + ")\n"
    case TechResource(name, url, _, stars, _, _) => "- 💻 [" + name + "](" + url + ") - ⭐ " + NatToString(stars) + "\n"
    case ApiResource(name, url, _, provider, _) => "- 🔌 [" + name + "](" + url + ") - " + provider + "\n"
  }

  const ResourcesHeading: string := "\n**참고 자료:**\n"
  const ResearchNote: string := "\n⚠️" + " *추가 리서치가 필요합니다.*\n"

  function QuestionHeading(number: nat, q: Question): string
  {
    "### " + NatToString(number) + ". " + q.text + " " + Badge(q.importance) + "\n"
  }

  function OptionLine(option: string): string { "- [ ] " + option + "\n" }

  function OptionLines(options: seq<string>): seq<string>
  {
    seq(|options|, i requires 0 <= i < |options| => OptionLine(options[i]))
  }

  function AnswerParts(q: Question): seq<string>
  {
    match q.qtype
    case Select(options) => ["**선택지:**\n"] + OptionLines(options)
    case Text => ["**답변:**\n\n", "```\n\n```\n"]
  }

  function ResourceLines(resources: seq<Resource>): seq<string>
  {
    seq(|resources|, i requires 0 <= i < |resources| => ResourceLine(resources[i]))
  }

  /** The reference block: a heading and the first three resources. */
  function ResourceParts(resources: seq<Resource>): seq<string>
  {
    if resources == [] then [] else [ResourcesHeading] + ResourceLines(PyPrefix(resources, 3))
  }

  function QuestionParts(number: nat, q: EnrichedQuestion): seq<string>
  {
    [QuestionHeading(number, q.question)] + AnswerParts(q.question) + ResourceParts(q.relatedResources) +
    (if q.needsMoreResearch then [ResearchNote] else []) + ["\n"]
  }

  /** The questions of a section, numbered from 1. */
  function QuestionsParts(qs: seq<EnrichedQuestion>): seq<string>
  {
    if qs == [] then [] else QuestionsParts(qs[..|qs| - 1]) + QuestionParts(|qs|, qs[|qs| - 1])
  }

  function SectionHead(s: EnrichedSection): seq<string>
  {
    ["## " + s.info.icon + " " + s.info.name + "\n", "*" + s.info.description + "*\n\n"]
  }

  function SectionParts(s: EnrichedSection): seq<string>
  {
    SectionHead(s) + QuestionsParts(s.questions) + ["---\n\n"]
  }

  function SectionsParts(ss: seq<EnrichedSection>): seq<string>
  {
    if ss == [] then [] else SectionsParts(ss[..|ss| - 1]) + SectionParts(ss[|ss| - 1])
  }

  function Title(keyword: string): string { "# " + keyword + " - 재난·안전 체크리스트\n" }

  function HeaderParts(data: ChecklistData): seq<string>
  {
    var m := data.metadata;
    var s := data.researchSummary;
    [Title(m.keyword),
     "**시설 유형**: " + m.facilityType + "\n",
     "**점검 단계**: " + m.checkPhase + "\n",
     "**생성일시**: " + m.generatedAt + "\n",
     "\n---\n",
     "## 📊 리서치 요약\n",
     "- 웹 자료: " + NatToString(s.webSources) + "건\n",
     "- 논문: " + NatToString(s.papers) + "건\n",
     "- 기술 프로젝트: " + NatToString(s.techProjects) + "건\n",
     "- API: " + NatToString(s.apis) + "건\n",
     "\n"]
  }

  function RecommendationLines(recommendations: seq<string>): seq<string>
  {
    seq(|recommendations|, i requires 0 <= i < |recommendations| => recommendations[i] + "\n")
  }

  function RecommendationParts(recommendations: seq<string>): seq<string>
  {
    if recommendations == [] then [] else ["## 💡 추천 사항\n"] + RecommendationLines(recommendations) + ["\n"]
  }

  /** The pieces `''.join(md)` concatenates. */
  function MarkdownParts(data: ChecklistData): seq<string>
  {
    HeaderParts(data) + RecommendationParts(data.recommendations) + ["---\n\n"] + SectionsParts(data.checklist)
  }

  function Markdown(data: ChecklistData): string
  {
    Concat(MarkdownParts(data))
  }

  /** The body of `for i, question in enumerate(..., 1)`. The lines are
      collected block by block and joined in the order Python appends them. */
  method QuestionMarkdown(number: nat, q: EnrichedQuestion) returns (md: seq<string>)
    ensures md == QuestionParts(number, q)
  {
    var answer: seq<string>;
    match q.question.qtype {
      case Select(options) =>
        var lines: seq<string> := [];
        for i := 0 to |options|
          invariant lines == OptionLines(options[..i])
        {
          assert OptionLines(options[..i + 1]) == OptionLines(options[..i]) + [OptionLine(options[i])];
          lines := lines + [OptionLine(options[i])];
        }
        assert options[..|options|] == options;
        answer := ["**선택지:**\n"] + lines;
      case Text =>
        answer := ["**답변:**\n\n", "```\n\n```\n"];
    }
    var references: seq<string> := [];
    var resources := q.relatedResources;
    if resources != [] {
      var top := PyPrefix(resources, 3);
      var lines: seq<string> := [];
      for i := 0 to |top|
        invariant lines == ResourceLines(top[..i])
      {
        assert ResourceLines(top[..i + 1]) == ResourceLines(top[..i]) + [ResourceLine(top[i])];
        lines := lines + [ResourceLine(top[i])];
      }
      assert top[..|top|] == top;
      references := [ResourcesHeading] + lines;
    }
    var note: seq<string> := [];
    if q.needsMoreResearch {
      note := [ResearchNote];
    }
    md := [QuestionHeading(number, q.question)] + answer + references + note + ["\n"];
  }

  lemma QuestionsPartsSnoc(qs: seq<EnrichedQuestion>, i: nat)
    requires i < |qs|
    ensures QuestionsParts(qs[..i + 1]) == QuestionsParts(qs[..i]) + QuestionParts(i + 1, qs[i])
  {
    assert qs[..i + 1][..i] == qs[..i];
  }

  lemma SectionsPartsSnoc(ss: seq<EnrichedSection>, c: nat)
    requires c < |ss|
    ensures SectionsParts(ss[..c + 1]) == SectionsParts(ss[..c]) + SectionParts(ss[c])
  {
    assert ss[..c + 1][..c] == ss[..c];
  }

  /** The body of `for category_id, category_data in checklist.items()`. */
  method SectionMarkdown(section: EnrichedSection) returns (md: seq<string>)
    ensures md == SectionParts(section)
  {
    var questions := section.questions;
    var body: seq<string> := [];
    for i := 0 to |questions|
      invariant body == QuestionsParts(questions[..i])
    {
      QuestionsPartsSnoc(questions, i);
      var lines := QuestionMarkdown(i + 1, questions[i]);
      body := body + lines;
    }
    assert questions[..|questions|] == questions;
    md := SectionHead(section) + body + ["---\n\n"];
  }

  method GenerateMarkdown(data: ChecklistData) returns (md: string)
    ensures md == Markdown(data)
  {
    var recommendations := data.recommendations;
    var advice: seq<string> := [];
    if recommendations != [] {
      var lines: seq<string> := [];
      for i := 0 to |recommendations|
        invariant lines == RecommendationLines(recommendations[..i])
      {
        assert RecommendationLines(recommendations[..i + 1]) ==
               RecommendationLines(recommendations[..i]) + [recommendations[i] + "\n"];
        lines := lines + [recommendations[i] + "\n"];
      }
      assert recommendations[..|recommendations|] == recommendations;
      advice := ["## 💡 추천 사항\n"] + lines + ["\n"];
    }
    var checklist := data.checklist;
    var body: seq<string> := [];
    for c := 0 to |checklist|
      invariant body == SectionsParts(checklist[..c])
    {
      SectionsPartsSnoc(checklist, c);
      var lines := SectionMarkdown(checklist[c]);
      body := body + lines;
    }
    assert checklist[..|checklist|] == checklist;
    md := Concat(HeaderParts(data) + advice + ["---\n\n"] + body);
  }

  // ---------------------------------------------------------------------
  // Properties of the Markdown

  /** The document opens with the keyword's title line. */
  lemma MarkdownStartsWithTitle(data: ChecklistData)
    ensures IsPrefix(Title(data.metadata.keyword), Markdown(data))
  {
    var parts := MarkdownParts(data);
    var t := Title(data.metadata.keyword);
    assert parts == [t] + parts[1..];
    ConcatAppend([t], parts[1..]);
    assert Concat([t]) == Concat([]) + t;
  }

  /** A piece that cannot be the research note: it does not start with a
      newline followed by the warning sign. */
  predicate NotNote(piece: string)
  {
    |piece| < 2 || piece[0] != '\n' || piece[1] != '⚠'
  }

  lemma NoNote(parts: seq<string>)
    requires forall i :: 0 <= i < |parts| ==> NotNote(parts[i])
    ensures Count(parts, ResearchNote) == 0
  {
    assert ResearchNote[0] == '\n' && ResearchNote[1] == '⚠';
    CountBound(parts, ResearchNote);
  }

  /** The number of flagged questions. */
  function FlaggedCount(qs: seq<EnrichedQuestion>): nat
  {
    if qs == [] then 0 else FlaggedCount(qs[..|qs| - 1]) + Indicator(qs[|qs| - 1].needsMoreResearch)
  }

  function FlaggedInSections(ss: seq<EnrichedSection>): nat
  {
    if ss == [] then 0 else FlaggedInSections(ss[..|ss| - 1]) + FlaggedCount(ss[|ss| - 1].questions)
  }

  lemma AnswerHasNoNote(q: Question)
    ensures Count(AnswerParts(q), ResearchNote) == 0
  {
    var answer := AnswerParts(q);
    match q.qtype {
      case Select(options) =>
        forall i | 0 <= i < |answer| ensures NotNote(answer[i]) {
          if i > 0 {
            assert answer[i] == OptionLine(options[i - 1]);
          }
        }
      case Text =>
    }
    NoNote(answer);
  }

  lemma ReferencesHaveNoNote(resources: seq<Resource>)
    ensures Count(ResourceParts(resources), ResearchNote) == 0
  {
    var references := ResourceParts(resources);
    forall i | 0 <= i < |references| ensures NotNote(references[i]) {
      if i > 0 {
        var r := PyPrefix(resources, 3)[i - 1];
        assert references[i] == ResourceLine(r);
        assert ResourceLine(r)[0] == '-';
      }
    }
    NoNote(references);
  }

  lemma QuestionNoteCount(number: nat, q: EnrichedQuestion)
    ensures Count(QuestionParts(number, q), ResearchNote) == Indicator(q.needsMoreResearch)
  {
    var heading := [QuestionHeading(number, q.question)];
    var answer := AnswerParts(q.question);
    var references := ResourceParts(q.relatedResources);
    var note: seq<string> := if q.needsMoreResearch then [ResearchNote] else [];
    assert heading[0][0] == '#';
    NoNote(heading);
    AnswerHasNoNote(q.question);
    ReferencesHaveNoNote(q.relatedResources);
    NoNote(["\n"]);
    CountAppend(heading, answer, ResearchNote);
    CountAppend(heading + answer, references, ResearchNote);
    CountAppend(heading + answer + references, note, ResearchNote);
    CountAppend(heading + answer + references + note, ["\n"], ResearchNote);
    if q.needsMoreResearch {
      assert Count(note, ResearchNote) == Count([], ResearchNote) + 1 by {
        assert note[..0] == [];
      }
    }
  }

  lemma {:induction false} QuestionsNoteCount(qs: seq<EnrichedQuestion>)
    ensures Count(QuestionsParts(qs), ResearchNote) == FlaggedCount(qs)
  {
    if qs != [] {
      QuestionsNoteCount(qs[..|qs| - 1]);
      QuestionNoteCount(|qs|, qs[|qs| - 1]);
      CountAppend(QuestionsParts(qs[..|qs| - 1]), QuestionParts(|qs|, qs[|qs| - 1]), ResearchNote);
    }
  }

  lemma SectionNoteCount(s: EnrichedSection)
    ensures Count(SectionParts(s), ResearchNote) == FlaggedCount(s.questions)
  {
    var head := SectionHead(s);
    assert head[0][0] == '#' && head[1][0] == '*';
    NoNote(head);
    NoNote(["---\n\n"]);
    QuestionsNoteCount(s.questions);
    CountAppend(head, QuestionsParts(s.questions), ResearchNote);
    CountAppend(head + QuestionsParts(s.questions), ["---\n\n"], ResearchNote);
  }

  /** The checklist body's pieces include the research-note piece once per
      flagged question. This counts pieces: a resource title holding the
      note's text is not counted. */
  lemma {:induction false} SectionsNoteCount(ss: seq<EnrichedSection>)
    ensures Count(SectionsParts(ss), ResearchNote) == FlaggedInSections(ss)
  {
    if ss != [] {
      SectionsNoteCount(ss[..|ss| - 1]);
      SectionNoteCount(ss[|ss| - 1]);
      CountAppend(SectionsParts(ss[..|ss| - 1]), SectionParts(ss[|ss| - 1]), ResearchNote);
    }
  }

  /** Questions are numbered from 1 in their section's order. */
  lemma {:induction false} QuestionNumbering(qs: seq<EnrichedQuestion>)
    ensures forall i :: 0 <= i < |qs| ==> QuestionHeading(i + 1, qs[i].question) in QuestionsParts(qs)
  {
    if qs != [] {
      var init := qs[..|qs| - 1];
      QuestionNumbering(init);
      forall i | 0 <= i < |qs| ensures QuestionHeading(i + 1, qs[i].question) in QuestionsParts(qs) {
        if i < |init| {
          assert init[i] == qs[i];
        } else {
          assert QuestionParts(|qs|, qs[i])[0] == QuestionHeading(i + 1, qs[i].question);
        }
      }
    }
  }

  /** Whatever the answer block shows, the question's Markdown shows. */
  lemma QuestionContainsAnswer(number: nat, q: EnrichedQuestion, needle: string)
    requires Contains(Concat(AnswerParts(q.question)), needle)
    ensures Contains(Concat(QuestionParts(number, q)), needle)
  {
    var head := [QuestionHeading(number, q.question)];
    var answer := AnswerParts(q.question);
    var rest := ResourceParts(q.relatedResources) + (if q.needsMoreResearch then [ResearchNote] else []) + ["\n"];
    assert QuestionParts(number, q) == head + answer + rest;
    ConcatAppend(head + answer, rest);
    ConcatAppend(head, answer);
    ContainsExtend(Concat(head), Concat(answer), Concat(rest), needle);
  }

  /** A select question's text lists every option as a check box; a text
      question's has the empty answer block. */
  lemma QuestionShowsAnswerBlock(number: nat, q: EnrichedQuestion)
    ensures var text := Concat(QuestionParts(number, q));
      (q.question.qtype.Select? ==>
        forall o :: o in q.question.qtype.options ==> Contains(text, "- [ ] " + o + "\n")) &&
      (q.question.qtype.Text? ==> Contains(text, "```\n\n```\n"))
  {
    var answer := AnswerParts(q.question);
    match q.question.qtype {
      case Select(options) =>
        forall o | o in options ensures Contains(Concat(QuestionParts(number, q)), "- [ ] " + o + "\n") {
          var k :| 0 <= k < |options| && options[k] == o;
          assert answer[k + 1] == OptionLine(o);
          ConcatHasPart(answer, k + 1);
          QuestionContainsAnswer(number, q, OptionLine(o));
        }
      case Text =>
        ConcatHasPart(answer, 1);
        QuestionContainsAnswer(number, q, "```\n\n```\n");
    }
  }

  /** The reference block is empty iff there are no resources; otherwise it
      is its heading and the lines of the first three resources, in order. */
  lemma ReferenceBlock(resources: seq<Resource>)
    ensures var b := ResourceParts(resources);
      (b == [] <==> resources == []) &&
      |b| <= 4 &&
      (resources != [] ==>
        (b[0] == ResourcesHeading && |b| == 1 + Min(3, |resources|) &&
         forall i :: 1 <= i < |b| ==> b[i] == ResourceLine(resources[i - 1])))
  {
  }

  // ---------------------------------------------------------------------
  // _collect_research_data and generate

  /** What the network backends answer for one keyword: papers from
      Semantic Scholar, CrossRef and arXiv, packages from GitHub and npm. */
  datatype Backends = Backends(
    semantic: seq<Paper>,
    crossref: seq<Paper>,
    arxiv: seq<Paper>,
    github: seq<TechItem>,
    npm: seq<TechItem>)

  const Version: string := "1.0"

  /** The web, paper, tech and API searches in turn, every source enabled.
      The only failure among them is the paper sort; the handler keeps the
      web results already stored and leaves the other lists empty. */
  function CollectedResearch(keyword: string, maxResults: int, today: int, b: Backends): ResearchData
  {
    var web := PyPrefix(SortDesc(WebResearcher.Merged(keyword, None, today), WebResearcher.DateKey), maxResults);
    match PaperResearcher.SearchResult(b.semantic, b.crossref, b.arxiv, None, maxResults)
    case Err(_) => ResearchData(web, [], [], [])
    case Ok(papers) =>
      ResearchData(web, papers,
        PyPrefix(SortDesc(TechResearcher.Merged(b.github, b.npm, keyword, None), TechResearcher.Popularity), maxResults),
        ApiResearcher.SearchResult(keyword))
  }

  /** `research_data`: empty unless collection was asked for. */
  function ResearchFor(keyword: string, maxResults: int, today: int, collect: Option<Backends>): ResearchData
  {
    match collect
    case None => NoResearch
    case Some(b) => CollectedResearch(keyword, maxResults, today, b)
  }

  /** The dict `generate` returns, or the exception the paper maturity
      analysis raises. */
  function GenerateResult(categories: seq<Category>, templates: seq<TemplateGroup>, keyword: string,
                          facilityType: string, checkPhase: string, focusArea: Option<string>,
                          research: ResearchData, generatedAt: string, currentYear: int): Result<ChecklistData>
    requires |categories| == |templates|
  {
    var checklist := Enriched(SelectTemplate(categories, templates, checkPhase, focusArea), research, keyword);
    match CreateResearchSummary(research, currentYear)
    case Err(e) => Err(e)
    case Ok(summary) =>
      Ok(ChecklistData(Metadata(keyword, facilityType, checkPhase, focusArea, generatedAt, Version),
                       checklist, summary, Recommendations(research)))
  }

  class ChecklistGenerator {
    /** `config.get('max_results_per_source', 10)`, given to the web, paper
        and tech researchers. */
    const maxResults: int
    const templates: ChecklistTemplates

    constructor (maxResultsPerSource: Option<int>)
      ensures maxResults == (if maxResultsPerSource.Some? then maxResultsPerSource.value else 10)
      ensures fresh(templates) && templates.Valid()
      ensures templates.categories == CatalogCategories && templates.templates == CatalogTemplates
    {
      maxResults := if maxResultsPerSource.Some? then maxResultsPerSource.value else 10;
      templates := new ChecklistTemplates();
    }

    method CollectResearchData(keyword: string, today: int, backends: Backends) returns (data: ResearchData)
      ensures data == CollectedResearch(keyword, maxResults, today, backends)
    {
      data := NoResearch;
      var web := WebResearcher.Search(keyword, None, maxResults, today);
      data := data.(web := web);
      var papers := PaperResearcher.Search(backends.semantic, backends.crossref, backends.arxiv, None, maxResults);
      if papers.Err? {
        return;
      }
      data := data.(papers := papers.value);
      var tech := TechResearcher.Search(backends.github, backends.npm, keyword, None, maxResults);
      data := data.(tech := tech);
      var apis := ApiResearcher.Search(keyword, None);
      data := data.(apis := apis);
    }

    /** `collect` carries the backends' answers when data collection is
        asked for; the clock is given as `generatedAt` and `currentYear`. */
    method Generate(keyword: string, facilityType: string, checkPhase: string, focusArea: Option<string>,
                    collect: Option<Backends>, generatedAt: string, today: int, currentYear: int)
      returns (result: Result<ChecklistData>)
      requires templates.Valid()
      modifies templates
      ensures templates.Valid()
      ensures templates.templates == StoreAfterSelect(old(templates.templates), focusArea)
      ensures result == GenerateResult(templates.categories, old(templates.templates), keyword, facilityType,
                                       checkPhase, focusArea, ResearchFor(keyword, maxResults, today, collect),
                                       generatedAt, currentYear)
    {
      var template := templates.GetTemplateByTypeAndStage(facilityType, checkPhase, focusArea);
      var research := NoResearch;
      if collect.Some? {
        research := CollectResearchData(keyword, today, collect.value);
      }
      var enriched := EnrichChecklistWithResearch(template, research, keyword);
      var summary := CreateResearchSummary(research, currentYear);
      if summary.Err? {
        return Err(summary.error);
      }
      var recommendations := GenerateRecommendations(research);
      result := Ok(ChecklistData(Metadata(keyword, facilityType, checkPhase, focusArea, generatedAt, Version),
                                 enriched, summary.value, recommendations));
    }
  }

  // ---------------------------------------------------------------------
  // Properties of generate

  /** Without data collection generation succeeds: the checklist has every
      category in order, no question has a resource, every question is
      flagged for more research, and the only recommendation is the
      few-papers warning. */
  lemma GenerateWithoutResearch(categories: seq<Category>, templates: seq<TemplateGroup>, keyword: string,
                                facilityType: string, checkPhase: string, focusArea: Option<string>,
                                generatedAt: string, currentYear: int)
    requires Aligned(categories, templates)
    ensures var r := GenerateResult(categories, templates, keyword, facilityType, checkPhase, focusArea,
                                    NoResearch, generatedAt, currentYear);
      r.Ok? &&
      r.value.recommendations == [FewPapersWarning] &&
      r.value.researchSummary.totalResources == 0 &&
      |r.value.checklist| == |categories| &&
      (forall c :: 0 <= c < |categories| ==>
        r.value.checklist[c].categoryId == categories[c].id &&
        r.value.checklist[c].totalResources == 0 &&
        forall i :: 0 <= i < |r.value.checklist[c].questions| ==>
          r.value.checklist[c].questions[i].needsMoreResearch)
  {
    var template := SelectTemplate(categories, templates, checkPhase, focusArea);
    SelectKeepsCategories(categories, templates, checkPhase, focusArea);
    NoResearchFlagsEverything(template, keyword);
    NoResearchOnlyWarns();
    EnrichmentFacts(template, NoResearch, keyword);
  }

  /** The papers `_collect_research_data` stores: none when the sort
      raises. */
  function CollectedPapers(b: Backends, maxResults: int): seq<Paper>
  {
    var merged := PaperResearcher.Merged(b.semantic, b.crossref, b.arxiv, None);
    if PaperResearcher.SortRaises(merged) then [] else PyPrefix(SortDesc(merged, PaperResearcher.YearKey), maxResults)
  }

  /** The web results `_collect_research_data` stores. */
  function CollectedWeb(keyword: string, maxResults: int, today: int): seq<WebItem>
  {
    PyPrefix(SortDesc(WebResearcher.Merged(keyword, None, today), WebResearcher.DateKey), maxResults)
  }

  lemma CollectedParts(keyword: string, maxResults: int, today: int, b: Backends)
    ensures CollectedResearch(keyword, maxResults, today, b).papers == CollectedPapers(b, maxResults)
    ensures CollectedResearch(keyword, maxResults, today, b).web == CollectedWeb(keyword, maxResults, today)
  {
  }

  lemma LoneSorted(s: seq<Paper>)
    requires |s| == 1
    ensures SortDesc(s, PaperResearcher.YearKey) == s
  {
    var sorted := SortDesc(s, PaperResearcher.YearKey);
    assert sorted[0] in multiset(s);
  }

  lemma SortedKeepsYears(s: seq<Paper>, n: int)
    requires !PaperResearcher.HasMissingYear(s)
    ensures !PaperResearcher.HasMissingYear(PyPrefix(SortDesc(s, PaperResearcher.YearKey), n))
  {
    var sorted := SortDesc(s, PaperResearcher.YearKey);
    var papers := PyPrefix(sorted, n);
    forall i | 0 <= i < |papers| ensures papers[i].year.Some? {
      assert papers[i] == sorted[i];
      assert sorted[i] in multiset(s);
      var j :| 0 <= j < |s| && s[j] == sorted[i];
    }
  }

  /** The stored papers hold one without a year exactly when a lone paper
      without a year was found and `max_results` keeps it. */
  lemma CollectedPapersMissingYear(b: Backends, maxResults: int)
    ensures var merged := PaperResearcher.Merged(b.semantic, b.crossref, b.arxiv, None);
      var papers := CollectedPapers(b, maxResults);
      (papers != [] && PaperResearcher.HasMissingYear(papers)) <==>
      (|merged| == 1 && merged[0].year.None? && maxResults >= 1)
  {
    var merged := PaperResearcher.Merged(b.semantic, b.crossref, b.arxiv, None);
    if |merged| == 1 {
      LoneSorted(merged);
      if merged[0].year.None? && maxResults >= 1 {
        assert CollectedPapers(b, maxResults)[0] == merged[0];
      }
    } else if !PaperResearcher.SortRaises(merged) {
      SortedKeepsYears(merged, maxResults);
    }
  }

  /** With data collection the only way generation fails is a single paper
      without a year: the sort accepts a one-element list, and the maturity
      analysis then meets the missing year (when `max_results` keeps it). */
  lemma CollectedResearchFails(keyword: string, maxResults: int, today: int, b: Backends, currentYear: int)
    ensures var merged := PaperResearcher.Merged(b.semantic, b.crossref, b.arxiv, None);
      CreateResearchSummary(CollectedResearch(keyword, maxResults, today, b), currentYear).Err? <==>
      |merged| == 1 && merged[0].year.None? && maxResults >= 1
  {
    CollectedParts(keyword, maxResults, today, b);
    CollectedPapersMissingYear(b, maxResults);
  }

  /** The stored web results all name the keyword in their titles, and
      there are at least five of them when `max_results` is at least 5. */
  lemma CollectedWebMentionsKeyword(keyword: string, maxResults: int, today: int)
    ensures forall i :: 0 <= i < |CollectedWeb(keyword, maxResults, today)| ==>
      Contains(CollectedWeb(keyword, maxResults, today)[i].title, keyword)
    ensures maxResults >= 5 ==> |CollectedWeb(keyword, maxResults, today)| >= 5
  {
    var web := CollectedWeb(keyword, maxResults, today);
    var merged := WebResearcher.Merged(keyword, None, today);
    WebResearcher.SearchKeepsGroupOrder(keyword, None, maxResults, today);
    WebResearcher.MergedTitlesMentionKeyword(keyword, today);
    assert web == PyPrefix(merged, maxResults);
    forall i | 0 <= i < |web| ensures Contains(web[i].title, keyword) {
      assert web[i] == merged[i];
    }
  }

  /** With data collection and `max_results` at least 5, the generated web
      items (each naming the keyword in its title) give every question five
      resources, so no question is flagged. */
  lemma CollectedResearchFillsEveryQuestion(template: seq<Section>, keyword: string, maxResults: int,
                                            today: int, b: Backends)
    requires maxResults >= 5
    ensures var e := Enriched(template, CollectedResearch(keyword, maxResults, today, b), keyword);
      forall c, i :: 0 <= c < |e| && 0 <= i < |e[c].questions| ==>
        e[c].questions[i].resourceCount == 5 && !e[c].questions[i].needsMoreResearch
  {
    CollectedParts(keyword, maxResults, today, b);
    CollectedWebMentionsKeyword(keyword, maxResults, today);
    MentioningWebItemsFillEveryQuestion(template, CollectedResearch(keyword, maxResults, today, b), keyword);
  }
}
