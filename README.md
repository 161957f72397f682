# Disaster and safety checklist generator: a verified model

This project models the core of a checklist generator for disaster and safety
inspections of facilities, written in Dafny.

- **Template store (`Templates`).** It holds eight inspection categories and
  their question templates. For an inspection phase it drops low-importance
  questions in the initial phase. Under a focus area it promotes medium
  questions of the emphasised categories to high. That promotion changes the
  stored templates themselves, so later calls see it.
- **Collectors.** These are the web, paper, technology and API researchers.
  Each merges the results of its backends, sorts them stably in descending
  order of a key, and keeps the first `max_results`.
- **Generator (`Generator`).** It puts the pieces together:
  - selects the template;
  - collects research, if asked to;
  - attaches to every question the five most credible resources whose text
    mentions one of its research keywords or the main keyword;
  - flags questions that have fewer than three such resources;
  - summarises the research and derives the recommendations;
  - renders the result as Markdown.
- **Settings (`Config`).** Dot-path access to the nested settings dictionary.
- **Number formatting (`Utils`).** The dashboard's thousands-separator
  formatting of numbers.

Python behaviour the model writes out explicitly:
- Lists sorted with `sort(reverse=True)` are modelled by a stable descending
  insertion sort on an integer key (`StableSort.SortDesc`). Its contract says
  that the result is sorted and a permutation of the input. It also says that
  the elements of each key value keep their original order.
- `s[:n]` is `Common.PyPrefix`, including negative `n`.
- `x in s` on strings is `Common.Contains`.
- `str.lower()` is ASCII lowering.
- Counting dictionaries built with `d[k] = d.get(k, 0) + 1` are association
  lists in insertion order (`Histogram.Tally`).

Python raises `TypeError` in some places, and the model turns each into an
`Err` result:
- sorting papers by `x.get('year', 0)` when one year is `None` and there are at
  least two papers;
- comparing a `None` year in `analyze_maturity`;
- `Config.set` stepping into a stored value that is not a dict.

The generator's `_collect_research_data` catches the first of these. The
research collected before the failure (the web results) is kept, and the
later buckets stay empty.

`src/checklist/templates.py` defines 28 questions (4+4+4+4+3+3+3+3), and
`Templates.CatalogQuestionCount` states that count.

Relevance and credibility scores are fractions in Python. The model keeps
them as integers:
- paper and API relevance are in tenths;
- web credibility is in percent;
- popularity is in thousandths.

The relevance and credibility scores are multiples of these units in Python
too, so their comparisons and every `min(score, 1.0)` stay exact. The caps
never bind: the highest sums are exactly 10 tenths. Popularity is a multiple
of the unit only for GitHub (rounded to three places) and PyPI (the fixed
0.5); npm's registry score is taken to be given in thousandths (see below).

## Model

| member | source | states |
|---|---|---|
| Common.PyPrefix | src/collectors/web_researcher.py:50 | `s[:n]`: the result is a prefix of `s`; its length is `min(n, len(s))` for `n >= 0` and `max(0, len(s) + n)` for negative `n` |
| Common.Lower | src/checklist/generator.py:247-252 | lowering keeps the length and maps every character through the ASCII lowering |
| Common.LowerAppend | src/checklist/generator.py:247-252 | lowering distributes over concatenation, so lowering the joined fields is joining the lowered fields |
| Common.LowerHasNoUpper | src/collectors/api_researcher.py:104-107 | a lowered string holds no upper-case letter |
| Common.ContainsAt | src/checklist/generator.py:255-261 | a needle found at some offset is contained in the text |
| Common.ContainsOffset | src/checklist/generator.py:255-261 | a contained needle occurs at a concrete offset |
| Common.ContainsInfix | src/checklist/generator.py:247-256 | a text built around the needle contains it |
| Common.ContainsExtend | src/checklist/generator.py:247-256 | containment survives adding text on either side |
| Common.ContainsChar | src/collectors/api_researcher.py:107 | every character of a contained needle occurs in the text |
| Common.ContainsLower | src/checklist/generator.py:252-260 | a contained needle is still contained after both sides are lowered |
| Common.NatToString | dashboard/static/js/app.js:26 | `toString()` of a non-negative integer: at least one digit, all characters are digits, one digit exactly below 10, no leading zero |
| Common.DecimalRoundTrip | dashboard/static/js/app.js:26 | reading the decimal string back gives the number |
| Common.NatToStringInjective | dashboard/static/js/app.js:26 | different numbers print differently |
| Common.IntToString | src/checklist/generator.py:413 | the decimal text of an integer: the digits of its absolute value, preceded by `-` when negative |
| Common.ConcatAppend | src/checklist/generator.py:426 | `''.join` of two piece lists in a row is the join of each, concatenated |
| Common.ConcatHasPart | src/checklist/generator.py:426 | every piece appears in the joined Markdown |
| Common.Split | src/utils/config.py:65 | `key.split('.')`: never empty, and no part holds the separator |
| Common.SplitJoin | src/utils/config.py:65 | joining the parts of a split with the separator gives the key back |
| Common.JoinSplit | src/utils/config.py:65 | splitting the join of separator-free parts gives the parts back |
| Common.Dedup | src/checklist/templates.py:464 | `list(set(xs))`: no duplicates, and exactly the elements of `xs` |
| Common.CountAppend | src/checklist/generator.py:419-420 | occurrences in a concatenation add up |
| Common.CountBound | src/checklist/generator.py:419-420 | occurrences never exceed the length, and are positive exactly for members |
| StableSort.SortDesc | src/collectors/web_researcher.py:48 | `sort(key=..., reverse=True)`: the result is in descending key order, a permutation of the input, and elements with equal keys keep their input order |
| StableSort.InsertSorted | src/collectors/tech_researcher.py:48 | inserting into a sorted list keeps it sorted, adds one element and invents no key |
| StableSort.InsertMultiset | src/collectors/tech_researcher.py:48 | insertion is a permutation of the element plus the list |
| StableSort.InsertWithKey | src/collectors/tech_researcher.py:48 | insertion keeps the order of the elements of every key value |
| StableSort.WithKeyAppend | src/collectors/tech_researcher.py:48 | picking one key's elements distributes over concatenation |
| StableSort.WithKeyAll | src/collectors/tech_researcher.py:48 | when every element has the key, picking that key keeps the whole list |
| StableSort.SortAllEqualIsIdentity | src/collectors/web_researcher.py:48 | a stable sort of a list whose keys are all equal leaves it as it is |
| StableSort.WithKeyPrefix | src/collectors/web_researcher.py:50 | the first `n` elements keep, per key, a prefix of that key's elements |
| StableSort.SortedPrefix | src/collectors/tech_researcher.py:267 | a prefix of a sorted list is sorted |
| StableSort.SortedPrefixOutranks | src/collectors/tech_researcher.py:267 | no element after a prefix of a sorted list has a larger key than an element of the prefix |
| StableSort.TopOfSortDesc | src/collectors/paper_researcher.py:42-45 | `sorted(s, reverse=True)[:n]` is sorted, a sub-multiset of `s`, drops nothing with a larger key than something kept, and keeps per key the first elements of `s` |
| Histogram.Keys | src/collectors/tech_researcher.py:267 | the keys of a counting dict, entry by entry |
| Histogram.TallySnoc | src/collectors/tech_researcher.py:258-260 | counting one more element is one `d[k] = d.get(k, 0) + 1` step |
| Histogram.BumpKeys | src/collectors/tech_researcher.py:260 | one counting step keeps the keys, or adds the new key at the end |
| Histogram.BumpSum | src/collectors/tech_researcher.py:260 | one counting step raises the total by one |
| Histogram.BumpCounts | src/collectors/tech_researcher.py:260 | after one counting step every count is still its key's number of occurrences |
| Histogram.BumpAt | src/collectors/tech_researcher.py:260 | one counting step raises exactly that key's count, or appends it with count 1 |
| Histogram.TallyCorrect | src/collectors/tech_researcher.py:257-260 | the counting dict's keys are the distinct elements in first-occurrence order, each count is that element's number of occurrences, and the counts add up to the length |
| Histogram.SumCountsAppend | src/collectors/paper_researcher.py:276 | totals of concatenated dicts add up |
| Histogram.SumCountsRemove | src/collectors/paper_researcher.py:276 | removing one entry removes its count from the total |
| Histogram.MultisetRemove | src/collectors/paper_researcher.py:276 | removing one entry removes it from the multiset |
| Histogram.SumCountsPermutation | src/collectors/paper_researcher.py:276 | reordering the items (as `sorted` does) keeps the total |
| Histogram.NoDuplicatesMultiset | src/collectors/tech_researcher.py:267 | a list without duplicates holds every value at most once |
| Histogram.RepeatedMultiset | src/collectors/tech_researcher.py:267 | a value at two positions occurs at least twice |
| Histogram.KeysDistinctAfterPermutation | src/collectors/tech_researcher.py:267 | a reordering of a dict's items still has distinct keys |
| Histogram.PermutedTally | src/collectors/tech_researcher.py:267 | any reordering of the counting dict keeps distinct keys, correct counts, exactly the counted elements as keys and the total |
| Histogram.PermutedEntries | src/collectors/tech_researcher.py:267 | a reordering keeps every entry and every key |
| Histogram.KeysPrefixDistinct | src/collectors/tech_researcher.py:267 | the first entries of a dict with distinct keys still have distinct keys |
| Templates.CategoryIds | src/checklist/templates.py:45-96 | the category ids in declaration order, one per category |
| Templates.CatalogCategoryOrder | src/checklist/templates.py:45-96 | the eight categories, from risk assessment to cooperation, in that order |
| Templates.CatalogAligned | src/checklist/templates.py:98-367 | the question templates are listed in the order of the categories, one group per category |
| Templates.CatalogQuestionCount | src/checklist/templates.py:98-367 | the templates define 28 questions in all |
| Templates.DropLow | src/checklist/templates.py:419 | the kept questions are a subsequence of the input |
| Templates.DropLowCounts | src/checklist/templates.py:419 | every low question is removed, and every other question keeps its multiplicity |
| Templates.FilterByPhase | src/checklist/templates.py:410-424 | outside the initial phase the questions are returned unchanged; in the initial phase exactly the low ones are removed, the rest kept in order with their multiplicities |
| Templates.InitialPhaseKeepsNonLow | src/checklist/templates.py:417-419 | in the initial phase a question is kept if and only if it is in the input and not low |
| Templates.AdjustPriorityByFocus | src/checklist/templates.py:426-448 | the loop over the focus map yields the focus adjustment of the questions |
| Templates.FocusOnlyPromotesMedium | src/checklist/templates.py:434-446 | the adjustment keeps length and every field but importance; importance never goes down, and it changes exactly for medium questions of a category the focus emphasises, which become high |
| Templates.UnmappedFocusChangesNothing | src/checklist/templates.py:442-443 | a focus that does not emphasise the category leaves the questions as they are |
| Templates.MappedFocusLeavesNoMedium | src/checklist/templates.py:443-446 | under an emphasising focus no medium question remains |
| Templates.PromoteAllIdempotent | src/checklist/templates.py:444-446 | promoting twice is promoting once |
| Templates.FilterPromoteCommute | src/checklist/templates.py:393-401 | filtering by phase and promoting commute, so promoting the stored questions agrees with promoting the filtered view |
| Templates.DropLowPromoteCommute | src/checklist/templates.py:419 | dropping low questions and promoting mediums commute |
| Templates.SelectKeepsCategories | src/checklist/templates.py:387-408 | the checklist has one section per category, in order, carrying that category's id and info |
| Templates.NoFocusOnlyFilters | src/checklist/templates.py:396 | without a (non-empty) focus every section is just the phase filter of its questions, and the store is unchanged |
| Templates.SelectMatchesStore | src/checklist/templates.py:393-406 | every returned section is the phase filter of the store as it is after the call |
| Templates.LaterCallsSeePromotion | src/checklist/templates.py:444-446 | after a call with a focus, any later call, with any phase and any focus, shows no medium question in the emphasised categories |
| Templates.KeywordsOfMembership | src/checklist/templates.py:456-457 | a keyword is gathered if and only if some question lists it |
| Templates.AllKeywordsMembership | src/checklist/templates.py:460-462 | without a category, a keyword is gathered if and only if some category's questions list it |
| Templates.ChecklistTemplates.constructor | src/checklist/templates.py:41-43 | the store starts with the eight categories and their templates, aligned |
| Templates.ChecklistTemplates.GetTemplateByTypeAndStage | src/checklist/templates.py:369-448 | the checklist is the selection from the store before the call; the store afterwards has every medium question of an emphasised category promoted to high |
| Templates.ChecklistTemplates.GetResearchKeywords | src/checklist/templates.py:450-464 | the keywords are distinct and are exactly those of the chosen category (all categories when none is given); an unknown category gives none |
| WebResearcher.SearchGovernmentSites | src/collectors/web_researcher.py:52-92 | the three government-site results for the keyword, dated the given day |
| WebResearcher.SearchIndustryReports | src/collectors/web_researcher.py:94-127 | the two industry-report results for the keyword |
| WebResearcher.SearchTechBlogs | src/collectors/web_researcher.py:129-155 | the three community results for the keyword |
| WebResearcher.Search | src/collectors/web_researcher.py:22-50 | the selected groups, merged, stably sorted newest first and cut to `max_results` |
| WebResearcher.GeneratedItemsMentionKeyword | src/collectors/web_researcher.py:52-155 | every generated title and summary mentions the keyword; each group has its source type and credibility (95, 85, 70 percent) |
| WebResearcher.SearchKeepsGroupOrder | src/collectors/web_researcher.py:22-50 | all items share one date, so sorting keeps the merge order; there are 3 + 2 + 3 items; the result has at most `max_results` |
| WebResearcher.MergedTitlesMentionKeyword | src/collectors/web_researcher.py:22-50 | with all sources there are eight results, and each title mentions the keyword |
| PaperResearcher.Search | src/collectors/paper_researcher.py:20-45 | the selected backends' papers merged, stably sorted newest first and cut to `max_results`, or a `TypeError` when the sort compares a missing year |
| PaperResearcher.SearchOrdered | src/collectors/paper_researcher.py:42-45 | a successful search has the length of `merged[:max_results]` (`min(max_results, len(merged))` for a non-negative limit), is sorted by year, drawn from the merged papers, drops no paper newer than a kept one, and keeps each year's first papers in backend order |
| PaperResearcher.SearchFailsOnMissingYear | src/collectors/paper_researcher.py:43 | the search fails if and only if at least two papers are merged and one of them has no year |
| PaperResearcher.CalculateRelevance | src/collectors/paper_researcher.py:205-226 | the score (in tenths) for title and abstract hits and citations |
| PaperResearcher.ScoreBounds | src/collectors/paper_researcher.py:205-226 | the score lies in 0..10 and is 5 for a title hit, plus 3 for an abstract hit, plus the citation bonus; it reaches 8 exactly when both hit; more citations never lower it |
| PaperResearcher.RecentCount | src/collectors/paper_researcher.py:247 | the number of recent papers never exceeds the number of papers |
| PaperResearcher.RecentCountIsSetSize | src/collectors/paper_researcher.py:247 | the recent count is the number of papers from the threshold year on |
| PaperResearcher.AnalyzeMaturity | src/collectors/paper_researcher.py:228-266 | no papers give the unknown level; otherwise it fails exactly when a year is missing, and on success reports the paper count, a smaller recent count and the year distribution |
| PaperResearcher.MaturityRules | src/collectors/paper_researcher.py:254-258 | mature exactly for more than 50 papers with more than 10 recent; growing exactly for more than 20 that are not mature; emerging exactly for at most 20 |
| PaperResearcher.TruthyYearsStep | src/collectors/paper_researcher.py:271-274 | the loop meets the truthy years one paper at a time |
| PaperResearcher.GetYearDistribution | src/collectors/paper_researcher.py:268-276 | the counting loop followed by the descending sort yields the year distribution |
| PaperResearcher.YearDistributionCorrect | src/collectors/paper_researcher.py:268-276 | years are strictly descending, each count is that year's number of papers, the years are exactly the truthy years of the papers, and the counts add up to the number of truthy years |
| TechResearcher.SearchPypi | src/collectors/tech_researcher.py:165-196 | the one generated PyPI package for the keyword |
| TechResearcher.PypiItemShape | src/collectors/tech_researcher.py:179-191 | the package is named after the keyword, links to its PyPI page, and has popularity 0.5 |
| TechResearcher.Search | src/collectors/tech_researcher.py:25-50 | the selected backends merged, stably sorted by popularity and cut to `max_results` |
| TechResearcher.SearchOrdered | src/collectors/tech_researcher.py:48-50 | the result has the length of `merged[:max_results]`, is sorted by popularity, drawn from the merged items, drops no item more popular than a kept one, and keeps each popularity's first items in backend order |
| TechResearcher.SourcesSelectBackends | src/collectors/tech_researcher.py:38-45 | an item is merged if and only if it comes from a backend named in `sources` (all when none are named) |
| TechResearcher.GithubProjects | src/collectors/tech_researcher.py:240 | exactly the items whose source is GitHub |
| TechResearcher.ActiveCount | src/collectors/tech_researcher.py:243 | the active projects never outnumber the projects |
| TechResearcher.AnalyzeTechMaturity | src/collectors/tech_researcher.py:222-269 | the loops compute the technology maturity report |
| TechResearcher.AverageAbove | src/collectors/tech_researcher.py:247 | the average stars exceed a threshold exactly when there are GitHub projects and the total exceeds threshold times their number |
| TechResearcher.RealQuotientAbove | src/collectors/tech_researcher.py:247 | a quotient exceeds a bound exactly when the dividend exceeds bound times divisor |
| TechResearcher.TechMaturityRules | src/collectors/tech_researcher.py:229-254 | no items give the unknown level; otherwise active ≤ GitHub ≤ total projects, mature exactly for more than 20 items averaging over 1000 stars, growing exactly for more than 10 averaging over 100 that are not mature |
| TechResearcher.NoGithubIsEmerging | src/collectors/tech_researcher.py:247-254 | without GitHub projects the average is 0 and the level is emerging |
| TechResearcher.TopLanguagesCorrect | src/collectors/tech_researcher.py:257-267 | `min(5, distinct languages)` languages, in descending count order, with distinct names, each a used language with its number of GitHub projects, and no left-out language used more often than a listed one |
| TechResearcher.LeftOutLanguagesCountLess | src/collectors/tech_researcher.py:257-267 | a language missing from the top five is used no more often than any listed language |
| TechResearcher.GetRecommendedStacks | src/collectors/tech_researcher.py:271-285 | the loop yields the recommended stacks |
| TechResearcher.RecommendedStacksArePrefix | src/collectors/tech_researcher.py:271-285 | one stack for each of the first three projects, in order |
| ApiResearcher.CalculateRelevance | src/collectors/api_researcher.py:259-276 | the API relevance (in tenths) for name and description hits |
| ApiResearcher.CatalogMatches | src/collectors/api_researcher.py:104-126 | the matching loop yields the catalog's matches |
| ApiResearcher.GetKoreanPublicApis | src/collectors/api_researcher.py:40-126 | the Korean catalog entries matched by keyword list, name or description |
| ApiResearcher.GetInternationalApis | src/collectors/api_researcher.py:128-186 | the international catalog entries matched by keyword list |
| ApiResearcher.GetPopularFreeApis | src/collectors/api_researcher.py:188-257 | the popular free catalog entries matched by keyword list |
| ApiResearcher.Search | src/collectors/api_researcher.py:16-38 | the three groups' matches, in group order |
| ApiResearcher.MatchesCorrect | src/collectors/api_researcher.py:104-126 | every included catalog entry appears, every result comes from an included entry, and every result carries its group's key rule, cost and source, with a relevance in 3..10 |
| ApiResearcher.MatchesLength | src/collectors/api_researcher.py:105-123 | never more results than catalog entries |
| ApiResearcher.MatchesComplete | src/collectors/api_researcher.py:105-123 | every included entry is in the result |
| ApiResearcher.MatchesSound | src/collectors/api_researcher.py:105-123 | every result comes from an included entry |
| ApiResearcher.SearchBounded | src/collectors/api_researcher.py:16-38 | at most twelve results, each with a relevance in 3..10 |
| ApiResearcher.UppercaseKeywordNeverHits | src/collectors/api_researcher.py:104-107 | a catalog keyword with an upper-case letter is never found in the lowered search keyword |
| ApiResearcher.DeadCatalogKeywords | src/collectors/api_researcher.py:40-257 | the catalog keywords IP, UN, GDP, OECD and SNS can never match any search keyword |
| ApiResearcher.NonKoreanNeedKeywordHit | src/collectors/api_researcher.py:168-169 | outside the Korean catalog an entry is included exactly when one of its keywords is in the search keyword |
| ApiResearcher.GetApiExamples | src/collectors/api_researcher.py:278-315 | only the YouTube Data API has example code, which calls the YouTube search URL; any other name gives empty code and documentation |
| Generator.IsRelevant | src/checklist/generator.py:239-263 | the loop decides whether the lowered fields mention the main keyword or a research keyword |
| Generator.TitleMentionMakesRelevant | src/checklist/generator.py:247-256 | an item whose title mentions the main keyword is relevant, whatever its other fields |
| Generator.EmptyKeywordMatchesEverything | src/checklist/generator.py:255-256 | an empty main keyword makes every item relevant |
| Generator.KeepRelevant | src/checklist/generator.py:186-231 | the loop over one research bucket yields its relevant items as resources |
| Generator.FindRelatedResources | src/checklist/generator.py:175-237 | the four buckets' relevant items, stably sorted by credibility and cut to five |
| Generator.KeepCorrect | src/checklist/generator.py:186-231 | a resource is kept if and only if it comes from a relevant item; all relevant items keep every item |
| Generator.RelatedCorrect | src/checklist/generator.py:233-237 | `min(5, candidates)` resources, a sub-multiset of the candidates, sorted by credibility, dropping no candidate more credible than a kept one, and keeping each credibility's first candidates in bucket order |
| Generator.CandidatesExactly | src/checklist/generator.py:186-231 | a resource is a candidate if and only if it comes from a relevant item of one of the four buckets |
| Generator.EnrichedQuestionsAt | src/checklist/generator.py:147-165 | one enriched question per question, in order, each carrying that question's related resources |
| Generator.EnrichedAt | src/checklist/generator.py:134-173 | one enriched section per template section, in order, each built from that section |
| Generator.EnrichSectionFacts | src/checklist/generator.py:143-171 | an enriched section keeps its category id and info, has one entry per question with its resources, their count and the flag set below three, and totals the counts |
| Generator.RelatedAtMostFive | src/checklist/generator.py:233-237 | no question gets more than five related resources |
| Generator.EnrichQuestions | src/checklist/generator.py:147-165 | the loop over a section's questions yields the enriched questions of the specification function |
| Generator.EnrichChecklistWithResearch | src/checklist/generator.py:134-173 | the loop over the sections yields the enriched checklist of the specification function |
| Generator.ResourceTotalBound | src/checklist/generator.py:168-171 | with at most five resources per question, the total is at most five per question, and 0 when none has any |
| Generator.EnrichmentFacts | src/checklist/generator.py:134-173 | sections and questions keep their order, ids and info; each question carries at most five related resources and is flagged exactly when it has fewer than three |
| Generator.NoResearchFlagsEverything | src/checklist/generator.py:71-79 | without research no question has a resource and every question is flagged |
| Generator.NoResearchRelatesNothing | src/checklist/generator.py:175-237 | with every bucket empty no resource is related |
| Generator.MentioningWebItemRelevant | src/checklist/generator.py:239-263 | a web result whose title mentions the keyword is relevant to any question |
| Generator.MentioningWebItemsRelate | src/checklist/generator.py:175-237 | five such web results give any question exactly five related resources |
| Generator.MentioningWebItemsFillEveryQuestion | src/checklist/generator.py:175-237 | five web results whose titles mention the keyword give every question five resources and no flag |
| Generator.CreateResearchSummary | src/checklist/generator.py:265-286 | the counts of each bucket and their total, with both maturity reports; it fails exactly when papers exist and one lacks a year |
| Generator.GenerateRecommendations | src/checklist/generator.py:288-319 | the checks yield the recommendations |
| Generator.RecommendationRules | src/checklist/generator.py:288-319 | at most three lines: the few-papers warning exactly under 5 papers, the many-papers note exactly over 20, the open-source note exactly when technology averages over 500 stars, the API note exactly for the number of APIs when there are any |
| Generator.ApiNoteInjective | src/checklist/generator.py:314-317 | different API counts give different notes |
| Generator.LinesDistinct | src/checklist/generator.py:294-310 | the three fixed recommendation lines differ |
| Generator.ApiNoteDistinct | src/checklist/generator.py:294-317 | the API note differs from the fixed lines |
| Generator.NoResearchOnlyWarns | src/checklist/generator.py:293-297 | without research the only recommendation is the few-papers warning |
| Generator.QuestionMarkdown | src/checklist/generator.py:388-422 | rendering one question yields its Markdown pieces |
| Generator.QuestionsPartsSnoc | src/checklist/generator.py:388 | rendering one more question appends its pieces, numbered by position |
| Generator.SectionsPartsSnoc | src/checklist/generator.py:383 | rendering one more section appends its pieces |
| Generator.SectionMarkdown | src/checklist/generator.py:383-424 | rendering one section yields its heading and its questions' pieces |
| Generator.GenerateMarkdown | src/checklist/generator.py:351-426 | the rendering loops yield the document |
| Generator.MarkdownStartsWithTitle | src/checklist/generator.py:357 | the document starts with the keyword's title line |
| Generator.NoNote | src/checklist/generator.py:419-420 | pieces that do not start the note line contain no note |
| Generator.AnswerHasNoNote | src/checklist/generator.py:397-403 | the answer block never produces a note line |
| Generator.ReferencesHaveNoNote | src/checklist/generator.py:405-417 | the reference block never produces a note line |
| Generator.QuestionNoteCount | src/checklist/generator.py:388-422 | a question's Markdown pieces include the further-research note piece exactly once when flagged and not at all otherwise |
| Generator.QuestionsNoteCount | src/checklist/generator.py:388-422 | a section's question pieces include as many note pieces as there are flagged questions |
| Generator.SectionNoteCount | src/checklist/generator.py:383-424 | a section's pieces include as many note pieces as it has flagged questions |
| Generator.SectionsNoteCount | src/checklist/generator.py:382-424 | the checklist body's pieces include one note piece per flagged question of the whole checklist (the count is of pieces, not of occurrences of the note text in the joined document) |
| Generator.QuestionNumbering | src/checklist/generator.py:388-395 | question `i + 1` of a section is rendered with number `i + 1` |
| Generator.QuestionContainsAnswer | src/checklist/generator.py:388-403 | whatever the answer block contains, the question's Markdown contains |
| Generator.QuestionShowsAnswerBlock | src/checklist/generator.py:397-403 | a choice question shows one checkbox line per option; a text question shows an empty code block |
| Generator.ReferenceBlock | src/checklist/generator.py:405-417 | no block without resources; otherwise the heading followed by the first three resources, one line each, in order |
| Generator.ChecklistGenerator.constructor | src/checklist/generator.py:19-36 | results per source default to 10; a fresh template store holds the catalog |
| Generator.ChecklistGenerator.CollectResearchData | src/checklist/generator.py:99-132 | web, papers, technology and APIs in order; a failing paper search leaves the web results and empty later buckets |
| Generator.ChecklistGenerator.Generate | src/checklist/generator.py:38-97 | the result is built from the template selected from the store before the call, the collected research (none unless asked for), the summary and the recommendations, and fails exactly when the summary fails; the store is promoted as in the template selection |
| Generator.GenerateWithoutResearch | src/checklist/generator.py:38-97 | without research the result is produced, lists one section per category in order with no resources and every question flagged, and recommends only gathering more papers |
| Generator.CollectedParts | src/checklist/generator.py:108-117 | the collected papers and web results are the searches' results (no papers when the paper search fails) |
| Generator.LoneSorted | src/collectors/paper_researcher.py:43 | sorting a single paper does not compare and leaves it as it is |
| Generator.SortedKeepsYears | src/collectors/paper_researcher.py:43-45 | sorting and cutting papers whose years are all present keeps them all present |
| Generator.CollectedPapersMissingYear | src/checklist/generator.py:115-117 | the collected papers include one without a year exactly when a single paper was found, it lacks a year, and at least one result is kept |
| Generator.CollectedResearchFails | src/checklist/generator.py:91 | the summary of collected research fails exactly in that single-paper case |
| Generator.CollectedWebMentionsKeyword | src/checklist/generator.py:110-112 | every collected web title mentions the keyword, and with `max_results >= 5` at least five are collected |
| Generator.CollectedResearchFillsEveryQuestion | src/checklist/generator.py:71-79 | with collection and `max_results >= 5` every question gets five resources and none is flagged |
| Config.Config.constructor | src/utils/config.py:13-18 | the settings are the loaded dictionary |
| Config.Config.Get | src/utils/config.py:63-76 | the value reached along the dot path, or the default as soon as a step is not a dict or a key is missing or `None`; a found value is never `None` |
| Config.Config.Set | src/utils/config.py:78-88 | on success the settings become the assignment along the dot path, creating missing dicts; stepping into a stored non-dict fails and changes nothing |
| Config.ChainExtend | src/utils/config.py:83-86 | one more step of the walk extends the chain of visited dicts, each the child of the previous |
| Config.AssignedStep | src/utils/config.py:83-86 | one step of `set`'s walk fails at a stored non-dict and otherwise descends into the child dict, or a fresh `{}` |
| Config.LookupReadsStored | src/utils/config.py:63-76 | `get` returns the stored value along the path, never `None` for a non-empty path, and the default where nothing is stored |
| Config.AssignedFails | src/utils/config.py:83-86 | `set` fails if and only if some proper prefix of the path leads to a stored value that is not a dict |
| Config.AssignedFresh | src/utils/config.py:84-85 | into an empty dict `set` writes the nested dicts of the path |
| Config.AssignedMissing | src/utils/config.py:84-85 | below a missing first key `set` creates the nested dicts and keeps every other key |
| Config.SetThenGet | src/utils/config.py:63-88 | after a successful `set` of a value other than `None`, `get` of the same key returns it |
| Config.SetKeepsOtherPaths | src/utils/config.py:78-88 | every path that leaves `set`'s path at some level reads as before |
| Utils.FormatNumber | dashboard/static/js/app.js:25-27 | `formatNumber`: the regular-expression replacement on the decimal string equals the reference grouping of the digits in threes from the right |
| Utils.ReplacedLastGroup | dashboard/static/js/app.js:26 | in more than three digits the last three form the final group, with one comma before them |
| Utils.ReplacedDropGroup | dashboard/static/js/app.js:26 | before the last three digits the replacement is the replacement of the digits without them |
| Utils.ReplacedWithoutMatches | dashboard/static/js/app.js:26 | where the pattern does not match, the replacement leaves the text as it is |
| Utils.ModThree | dashboard/static/js/app.js:26 | the arithmetic step `(x + 3) % 3 == x % 3` that `ReplacedDropGroup` uses to shift match positions by one group |
| Utils.ReplacedIsGrouped | dashboard/static/js/app.js:26 | the replacement on a digit string is the grouping in threes |
| Utils.RemoveCommasAppend | dashboard/static/js/app.js:26 | deleting commas distributes over concatenation |
| Utils.RemoveCommasOfDigits | dashboard/static/js/app.js:26 | a digit string has no comma to delete |
| Utils.GroupedDigits | dashboard/static/js/app.js:26 | deleting the commas of a grouping gives the digits back |
| Utils.CommasRemovedGiveDigits | dashboard/static/js/app.js:25-27 | deleting the commas of the output gives the plain decimal string |
| Utils.LayoutStep | dashboard/static/js/app.js:26 | a well-laid-out grouping followed by a comma and three digits is well laid out |
| Utils.GroupedShape | dashboard/static/js/app.js:26 | the grouping starts with a digit, has one to three digits before the first comma, and exactly three digits after each comma |
| Utils.FormatNumberShape | dashboard/static/js/app.js:25-27 | the output has that layout |
| Utils.GroupedCommaCount | dashboard/static/js/app.js:26 | `d` digits are grouped with `(d - 1) / 3` commas |
| Utils.FormatNumberCommaCount | dashboard/static/js/app.js:25-27 | a number with `d` digits is printed with `(d - 1) / 3` commas |
| Utils.NatToStringLength | dashboard/static/js/app.js:26 | a number is below 1000 exactly when it has at most three digits |
| Utils.SmallNumbersUnchanged | dashboard/static/js/app.js:25-27 | below 1000 the output is the plain decimal string; it has a comma exactly from 1000 on |

## Left out

- Network and file I/O: the HTTP searches (Semantic Scholar, Crossref, arXiv, GitHub, npm), `fetch_content`, `_load_config`, `save`, `export_to_markdown` and `export_to_json`. Their results are parameters (`Generator.Backends`, the loaded settings).
- Console output (`print`) in the generator and the collectors has no effect on the results, so it is not modelled.
- Clocks are parameters: `datetime.now().isoformat()` is `generatedAt`, the current year is `currentYear`, and dates are integers of the form yyyymmdd (`today`).
- WebResearcher.Search and WebResearcher.SearchKeepsGroupOrder: one `today` stands for the eight `datetime.now()` reads of `web_researcher.py` (lines 85, 120, 148). If midnight passes during a call, Python gives the later groups the later date and the descending date sort then puts them first; the model does not capture that, so its "all results share one date, groups keep their order" holds by construction.
- `src/main.py`, `example_usage.py`, `run_dashboard.py` and the dashboard server and database are not part of this model. From `dashboard/static/js/app.js` only `formatNumber` is modelled; its date formatting, API calls and DOM code are not.
- TechResearcher.Search: npm's `score.detail.popularity` is a raw float in Python; the model takes it in thousandths like the GitHub score. A value finer than that (0.4996 beside PyPI's 0.5) sorts differently: Python puts PyPI first, while encoded as 500 it ties and the stable sort keeps npm ahead.
- Utils.FormatNumber: exact for non-negative integers below 2^53 only. Fractional and negative numbers are not modelled, and larger JavaScript Numbers print rounded (2^60 as "1152921504606847000") or, from 1e21 on, in exponent form that the regular expression leaves unchanged; the model prints the exact digits.
- Common.Lower: ASCII lowering only. Python's `str.lower()` also lowers non-ASCII cased letters, so the relevance test can differ from Python's on them: with keyword "ÉCOLE" and a title containing "école", Python's `_is_relevant` holds and the model's `Generator.Relevant` does not.
- Floating point is not modelled. Scores are integer tenths, percents or thousandths. Averages are exact reals, rather than Python floats rounded to two places. Both maturity levels compare the unrounded average, as the code does.
- Templates.ChecklistTemplates.GetTemplateByTypeAndStage: `facility_type` is accepted and ignored, as in the code. The lists a call returns alias the stored question dicts, and a later promotion changes them too. The model updates the store but keeps returned checklists as values.
- Templates.ChecklistTemplates.GetResearchKeywords: `list(set(...))` has an unspecified order, so the contract guarantees distinctness and membership, not an order.
- ApiResearcher.Search: the `category` argument is accepted and unused, as in the code.
- Generator.ChecklistGenerator.constructor: the configuration dictionary is reduced to its `max_results_per_source` entry. The API keys and the GitHub token feed only the network backends.
- Generator.ChecklistGenerator.CollectResearchData: the only exception `_collect_research_data` can meet in the model is the paper sort's `TypeError`. Network errors are the backends' business.
- Config.Config.Set: Python mutates the nested dicts in place, so other references to them see the change. Here each level is a map value stored back into its parent. Every non-dict intermediate value raises `TypeError` in Python, for reasons that vary by type. The model returns one error value for all of them.
- Resource and item fields that Python reads with `.get(..., '')` are total strings. A stored `None` description or language is not modelled.
