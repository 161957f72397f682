/** The checklist template catalog and its selector
    (src/checklist/templates.py): the fixed categories and questions, the
    phase filter, the focus-area promotion of `medium` questions to `high`,
    and the research-keyword listing. */
module Templates {
  import opened Common

  datatype Importance = High | Medium | Low

  /** `"type": "text"`, or `"type": "select"` with its `"options"`. */
  datatype QuestionType = Text | Select(options: seq<string>)

  datatype Question = Question(
    id: string,
    text: string,
    qtype: QuestionType,
    importance: Importance,
    required: bool,
    researchKeywords: seq<string>)

  datatype CategoryInfo = CategoryInfo(name: string, description: string, priority: int, icon: string)

  /** One entry of `self.categories`. */
  datatype Category = Category(id: string, info: CategoryInfo)

  /** One entry of `self.templates`: a category id and its question list. */
  datatype TemplateGroup = TemplateGroup(categoryId: string, questions: seq<Question>)

  /** One entry of the returned checklist dict:
      `checklist[category_id] = {"info": ..., "questions": ...}`. */
  datatype Section = Section(categoryId: string, info: CategoryInfo, questions: seq<Question>)

  /** CheckPhase.INITIAL and CheckPhase.ANNUAL. */
  const InitialPhase: string := "초기 평가"
  const AnnualPhase: string := "연간 종합"

  /** `focus_category_map`: focus area (a FocusArea value) to the category ids it emphasises. */
  const FocusCategoryMap: seq<(string, seq<string>)> := [
    ("안전 중심", ["safety_check", "disaster_prep"]),
    ("법규 중심", ["legal_compliance"]),
    ("예방 중심", ["risk_assessment", "monitoring"]),
    ("대응 중심", ["emergency_response", "cooperation"])
  ]

  const CatalogCategories: seq<Category> := [
    Category("risk_assessment", CategoryInfo("위험도 평가", "과거 재난 이력, 지리적 위험, 취약성 분석", 10, "⚠️")),
    Category("disaster_prep", CategoryInfo("재난 대비", "대피 계획, 비상 물품, 교육·훈련", 9, "🛡️")),
    Category("safety_check", CategoryInfo("안전 점검", "시설물 점검, 장비 관리, 위험물 관리", 9, "🔍")),
    Category("emergency_response", CategoryInfo("비상 대응", "비상연락망, 대응 조직, 실시간 모니터링", 10, "🚨")),
    Category("legal_compliance", CategoryInfo("법규·인증", "안전 관련 법규, 의무 인증, 정기 보고", 8, "📋")),
    Category("organization", CategoryInfo("조직·책임", "안전 관리자, 역할 분담, 예산 확보", 7, "👥")),
    Category("monitoring", CategoryInfo("모니터링·개선", "점검 이력 관리, 사후 조치, 개선 활동", 6, "📊")),
    Category("cooperation", CategoryInfo("지역 협력", "소방서·경찰서 협력, 지역 공동 대응, 정보 공유", 5, "🤝"))
  ]

  const CatalogTemplates: seq<TemplateGroup> := [
    TemplateGroup("risk_assessment", [
      Question("risk_01", "최근 5년간 발생한 주요 재난은 무엇인가요? (화재, 침수, 지진 등)", Text,
        High, true, ["재난이력", "과거사고", "재해현황"]),
      Question("risk_02", "해당 지역의 재난 위험도는? (홍수·지진·산사태 등)", Select(["높음", "중간", "낮음", "미파악"]),
        High, true, ["재난위험지도", "지역위험도", "재해위험"]),
      Question("risk_03", "시설의 구조적 취약점은 파악되었나요?", Select(["파악 완료", "파악 중", "미파악"]),
        High, true, ["구조안전", "내진설계", "노후건물"]),
      Question("risk_04", "인근 위험 요소는? (위험물 저장소, 가스 시설 등)", Text,
        Medium, false, ["위험요소", "주변환경", "위험시설"])
    ]),
    TemplateGroup("disaster_prep", [
      Question("prep_01", "대피 계획이 수립되어 있나요? (경로, 대피소, 안내판)", Select(["수립 완료", "수립 중", "미수립"]),
        High, true, ["대피계획", "대피로", "대피소"]),
      Question("prep_02", "비상 물품은 확보되어 있나요? (구호품, 비상식량, 구급약)", Select(["충분", "부족", "없음"]),
        High, true, ["비상물품", "구호물자", "재난용품"]),
      Question("prep_03", "재난 대응 교육·훈련을 실시하고 있나요?", Select(["정기 실시", "비정기 실시", "미실시"]),
        High, true, ["재난훈련", "안전교육", "대피훈련"]),
      Question("prep_04", "소화 설비(소화기, 스프링클러)는 정상 작동하나요?", Select(["정상", "일부 고장", "점검 필요"]),
        High, true, ["소화설비", "소화기", "스프링클러"])
    ]),
    TemplateGroup("safety_check", [
      Question("safety_01", "시설물(건물, 구조물) 안전 점검 주기는?", Select(["월 1회", "분기 1회", "연 1회", "미실시"]),
        High, true, ["시설물안전", "정기점검", "구조물점검"]),
      Question("safety_02", "전기·가스 설비 점검을 정기적으로 하고 있나요?", Select(["정기 점검", "비정기 점검", "미실시"]),
        High, true, ["전기안전", "가스점검", "설비관리"]),
      Question("safety_03", "위험물(화학물질, 인화물)은 안전하게 보관되고 있나요?", Select(["안전 보관", "일부 미흡", "해당 없음"]),
        High, true, ["위험물관리", "화학물질", "안전보관"]),
      Question("safety_04", "CCTV·경보 시스템은 정상 작동하나요?", Select(["정상", "일부 고장", "없음"]),
        Medium, false, ["CCTV", "경보시스템", "감시장비"])
    ]),
    TemplateGroup("emergency_response", [
      Question("emerg_01", "비상연락망(24시간 대응)이 구축되어 있나요?", Select(["구축 완료", "구축 중", "미구축"]),
        High, true, ["비상연락망", "긴급연락", "24시간대응"]),
      Question("emerg_02", "재난 대응 조직 및 역할 분담이 명확한가요?", Select(["명확함", "일부 불명확", "불명확"]),
        High, true, ["재난조직", "역할분담", "지휘체계"]),
      Question("emerg_03", "재난 상황을 실시간 모니터링할 수 있나요?", Select(["가능", "부분 가능", "불가능"]),
        High, true, ["실시간모니터링", "재난감지", "상황파악"]),
      Question("emerg_04", "외부 지원 요청 절차가 마련되어 있나요? (119, 112, 지자체)", Select(["마련됨", "검토 중", "미마련"]),
        Medium, false, ["외부지원", "구조요청", "협력절차"])
    ]),
    TemplateGroup("legal_compliance", [
      Question("legal_01", "관련 안전 법규는 준수하고 있나요? (재난안전법, 소방법 등)", Select(["준수", "일부 미흡", "미준수", "모름"]),
        High, true, ["재난안전법", "소방법", "안전법규"]),
      Question("legal_02", "필요한 안전 인증을 취득했나요? (소방, 가스, 전기)", Select(["취득 완료", "진행 중", "미취득", "해당 없음"]),
        High, true, ["안전인증", "소방인증", "법정인증"]),
      Question("legal_03", "정기 안전 보고는 제출하고 있나요?", Select(["정기 제출", "미제출", "해당 없음"]),
        Medium, false, ["안전보고", "정기보고", "법정보고"])
    ]),
    TemplateGroup("organization", [
      Question("org_01", "전담 안전관리자가 지정되어 있나요?", Select(["지정됨", "겸직", "미지정"]),
        High, true, ["안전관리자", "안전담당", "책임자"]),
      Question("org_02", "안전 관련 예산은 확보되어 있나요?", Select(["충분", "부족", "없음"]),
        High, true, ["안전예산", "재난예산", "투자"]),
      Question("org_03", "재난 대응 매뉴얼이 작성되어 있나요?", Select(["작성 완료", "작성 중", "미작성"]),
        Medium, false, ["대응매뉴얼", "행동요령", "절차서"])
    ]),
    TemplateGroup("monitoring", [
      Question("mon_01", "점검 이력을 체계적으로 관리하고 있나요?", Select(["관리 중", "부분 관리", "미관리"]),
        Medium, true, ["점검이력", "기록관리", "이력추적"]),
      Question("mon_02", "발견된 문제점에 대한 사후 조치는 이루어지고 있나요?", Select(["즉시 조치", "지연 조치", "미조치"]),
        High, true, ["사후조치", "개선조치", "후속관리"]),
      Question("mon_03", "정기적인 안전 개선 활동을 하고 있나요?", Select(["정기 실시", "비정기 실시", "미실시"]),
        Medium, false, ["개선활동", "지속개선", "안전향상"])
    ]),
    TemplateGroup("cooperation", [
      Question("coop_01", "소방서·경찰서와 협력 체계가 있나요?", Select(["구축됨", "구축 중", "미구축"]),
        High, true, ["소방협력", "경찰협력", "유관기관"]),
      Question("coop_02", "주변 시설과 공동 대응 체계를 갖추고 있나요?", Select(["구축됨", "논의 중", "미구축"]),
        Medium, false, ["공동대응", "지역협력", "상호지원"]),
      Question("coop_03", "재난 정보를 지역사회와 공유하고 있나요?", Select(["공유 중", "부분 공유", "미공유"]),
        Low, false, ["정보공유", "지역공유", "재난정보"])
    ])
  ]

  // ---------------------------------------------------------------------
  // The catalog's shape.

  function QuestionCount(groups: seq<TemplateGroup>): nat
  {
    if groups == [] then 0 else QuestionCount(groups[..|groups| - 1]) + |groups[|groups| - 1].questions|
  }

  function CategoryIds(cs: seq<Category>): (r: seq<string>)
    ensures |r| == |cs| && forall i :: 0 <= i < |cs| ==> r[i] == cs[i].id
  {
    seq(|cs|, i requires 0 <= i < |cs| => cs[i].id)
  }

  /** Same length and the same category id at every position. */
  predicate Aligned(categories: seq<Category>, templates: seq<TemplateGroup>)
  {
    |templates| == |categories| &&
    forall i :: 0 <= i < |templates| ==> templates[i].categoryId == categories[i].id
  }

  /** Eight categories in a fixed order. */
  lemma CatalogCategoryOrder()
    ensures CategoryIds(CatalogCategories) == ["risk_assessment", "disaster_prep", "safety_check",
      "emergency_response", "legal_compliance", "organization", "monitoring", "cooperation"]
  {
  }

  /** The question table lists the categories in the same order as the
      category table. */
  lemma CatalogAligned()
    ensures Aligned(CatalogCategories, CatalogTemplates)
  {
  }

  /** 28 questions in all. */
  lemma CatalogQuestionCount()
    ensures QuestionCount(CatalogTemplates) == 28
  {
    var t := CatalogTemplates;
    assert t[..0] == [];
    assert t[..1][..0] == t[..0];
    assert t[..2][..1] == t[..1];
    assert t[..3][..2] == t[..2];
    assert t[..4][..3] == t[..3];
    assert t[..5][..4] == t[..4];
    assert t[..6][..5] == t[..5];
    assert t[..7][..6] == t[..6];
    assert t[..8][..7] == t[..7];
    assert t[..8] == t;
    assert QuestionCount(t[..1]) == 4;
    assert QuestionCount(t[..2]) == 8;
    assert QuestionCount(t[..3]) == 12;
    assert QuestionCount(t[..4]) == 16;
    assert QuestionCount(t[..5]) == 19;
    assert QuestionCount(t[..6]) == 22;
    assert QuestionCount(t[..7]) == 25;
  }

  // ---------------------------------------------------------------------
  // Phase filter (_filter_by_phase).

  /** `[q for q in questions if q.get('importance') != 'low']`. */
  function DropLow(qs: seq<Question>): (r: seq<Question>)
    ensures IsSubsequence(r, qs)
  {
    if qs == [] then []
    else if qs[0].importance == Low then DropLow(qs[1..])
    else [qs[0]] + DropLow(qs[1..])
  }

  /** Each question that is not `low` is kept as often as it occurs; no `low`
      question is kept. */
  lemma {:induction false} DropLowCounts(qs: seq<Question>)
    ensures forall q :: multiset(DropLow(qs))[q] == if q.importance == Low then 0 else multiset(qs)[q]
  {
    if qs != [] {
      DropLowCounts(qs[1..]);
      assert qs == [qs[0]] + qs[1..];
    }
  }

  /** Only the initial-assessment phase filters; CheckPhase.ANNUAL and every
      other string, recognised or not, pass the list through. */
  function FilterByPhase(questions: seq<Question>, phase: string): (r: seq<Question>)
    ensures phase != InitialPhase ==> r == questions
    ensures phase == InitialPhase ==>
      forall q :: multiset(r)[q] == if q.importance == Low then 0 else multiset(questions)[q]
    ensures phase == InitialPhase ==> IsSubsequence(r, questions)
  {
    if phase == InitialPhase then DropLowCounts(questions); DropLow(questions)
    else if phase == AnnualPhase then questions
    else questions
  }

  /** The initial phase keeps exactly the questions that are not `low`, as a
      subsequence of the original list. */
  lemma InitialPhaseKeepsNonLow(questions: seq<Question>)
    ensures IsSubsequence(FilterByPhase(questions, InitialPhase), questions)
    ensures forall q :: q in FilterByPhase(questions, InitialPhase) <==> q in questions && q.importance != Low
  {
    var r := FilterByPhase(questions, InitialPhase);
    forall q ensures q in r <==> q in questions && q.importance != Low {
      assert q in r <==> multiset(r)[q] > 0;
      assert q in questions <==> multiset(questions)[q] > 0;
    }
  }

  // ---------------------------------------------------------------------
  // Focus adjustment (_adjust_priority_by_focus).

  predicate Emphasizes(focus: string, categoryId: string)
  {
    exists m :: 0 <= m < |FocusCategoryMap| && FocusCategoryMap[m].0 == focus && categoryId in FocusCategoryMap[m].1
  }

  /** `medium` becomes `high` when `on`; nothing else changes. */
  function Promoted(q: Question, on: bool): Question
  {
    if on && q.importance == Medium then q.(importance := High) else q
  }

  function PromoteAll(qs: seq<Question>, on: bool): seq<Question>
  {
    seq(|qs|, i requires 0 <= i < |qs| => Promoted(qs[i], on))
  }

  function AdjustedByFocus(questions: seq<Question>, categoryId: string, focusArea: string): seq<Question>
  {
    PromoteAll(questions, Emphasizes(focusArea, categoryId))
  }

  /** The loop over `focus_category_map` and over the questions, promoting in
      place; the mutation of the shared question dicts is modelled by the
      caller, which stores the promoted list back. */
  method AdjustPriorityByFocus(questions: seq<Question>, categoryId: string, focusArea: string)
    returns (r: seq<Question>)
    ensures r == AdjustedByFocus(questions, categoryId, focusArea)
  {
    r := questions;
    ghost var matched := false;
    for m := 0 to |FocusCategoryMap|
      invariant matched <==> exists j :: 0 <= j < m && FocusCategoryMap[j].0 == focusArea && categoryId in FocusCategoryMap[j].1
      invariant r == PromoteAll(questions, matched)
    {
      var (focus, categories) := FocusCategoryMap[m];
      if focus == focusArea && categoryId in categories {
        ghost var before := r;
        for k := 0 to |r|
          invariant |r| == |questions|
          invariant forall j :: 0 <= j < k ==> r[j] == Promoted(questions[j], true)
          invariant forall j :: k <= j < |r| ==> r[j] == before[j]
        {
          if r[k].importance == Medium {
            r := r[k := r[k].(importance := High)];
          }
        }
        matched := true;
      }
    }
  }

  function Rank(i: Importance): nat
  {
    match i
    case Low => 0
    case Medium => 1
    case High => 2
  }

  /** Focus adjustment never changes count, order or any field other than the
      importance, never demotes, and only turns `medium` into `high` inside
      the categories mapped to the focus. */
  lemma FocusOnlyPromotesMedium(questions: seq<Question>, categoryId: string, focusArea: string)
    ensures |AdjustedByFocus(questions, categoryId, focusArea)| == |questions|
    ensures forall i :: 0 <= i < |questions| ==>
      var q, r := questions[i], AdjustedByFocus(questions, categoryId, focusArea)[i];
      r.(importance := q.importance) == q &&
      Rank(r.importance) >= Rank(q.importance) &&
      (r.importance != q.importance <==> q.importance == Medium && Emphasizes(focusArea, categoryId)) &&
      (r.importance != q.importance ==> r.importance == High)
  {
  }

  /** An unmapped focus leaves every question as it was. */
  lemma UnmappedFocusChangesNothing(questions: seq<Question>, categoryId: string, focusArea: string)
    requires !Emphasizes(focusArea, categoryId)
    ensures AdjustedByFocus(questions, categoryId, focusArea) == questions
  {
  }

  /** Inside a mapped category no `medium` question survives. */
  lemma MappedFocusLeavesNoMedium(questions: seq<Question>, categoryId: string, focusArea: string)
    requires Emphasizes(focusArea, categoryId)
    ensures forall q :: q in AdjustedByFocus(questions, categoryId, focusArea) ==> q.importance != Medium
  {
  }

  lemma PromoteAllIdempotent(qs: seq<Question>, on: bool)
    ensures PromoteAll(PromoteAll(qs, on), on) == PromoteAll(qs, on)
  {
  }

  /** Filtering the promoted list is promoting the filtered list: this is why
      writing the promotion back into the stored list matches Python, where
      the filtered list shares the stored question dicts. */
  lemma {:induction false} FilterPromoteCommute(qs: seq<Question>, phase: string, on: bool)
    ensures FilterByPhase(PromoteAll(qs, on), phase) == PromoteAll(FilterByPhase(qs, phase), on)
  {
    if phase == InitialPhase {
      DropLowPromoteCommute(qs, on);
    }
  }

  lemma {:induction false} DropLowPromoteCommute(qs: seq<Question>, on: bool)
    ensures DropLow(PromoteAll(qs, on)) == PromoteAll(DropLow(qs), on)
  {
    if qs != [] {
      var p := PromoteAll(qs, on);
      var tail := qs[1..];
      DropLowPromoteCommute(tail, on);
      assert p[1..] == PromoteAll(tail, on);
      assert p[0] == Promoted(qs[0], on);
      if qs[0].importance != Low {
        var rest := DropLow(tail);
        assert PromoteAll([qs[0]] + rest, on) == [Promoted(qs[0], on)] + PromoteAll(rest, on);
      }
    }
  }

  // ---------------------------------------------------------------------
  // The selector (get_template_by_type_and_stage) as a function of the state.

  /** Python's truth test on the optional `focus_area` / `category_id`. */
  predicate Truthy(s: Option<string>) { s.Some? && s.value != "" }

  function SelectSection(c: Category, g: TemplateGroup, phase: string, focusArea: Option<string>): Section
  {
    var filtered := FilterByPhase(g.questions, phase);
    Section(g.categoryId, c.info,
      if Truthy(focusArea) then AdjustedByFocus(filtered, g.categoryId, focusArea.value) else filtered)
  }

  function SelectTemplate(categories: seq<Category>, templates: seq<TemplateGroup>, phase: string,
                          focusArea: Option<string>): seq<Section>
    requires |categories| == |templates|
  {
    seq(|templates|, i requires 0 <= i < |templates| => SelectSection(categories[i], templates[i], phase, focusArea))
  }

  /** The stored templates after a selection: the focus promotion has been
      written into them. */
  function StoredGroup(g: TemplateGroup, focusArea: Option<string>): TemplateGroup
  {
    if Truthy(focusArea) then TemplateGroup(g.categoryId, AdjustedByFocus(g.questions, g.categoryId, focusArea.value))
    else g
  }

  function StoreAfterSelect(templates: seq<TemplateGroup>, focusArea: Option<string>): seq<TemplateGroup>
  {
    seq(|templates|, i requires 0 <= i < |templates| => StoredGroup(templates[i], focusArea))
  }

  /** For any facility type, phase and focus the checklist has every catalog
      category, in catalog order, each with its info unchanged. */
  lemma SelectKeepsCategories(categories: seq<Category>, templates: seq<TemplateGroup>, phase: string,
                              focusArea: Option<string>)
    requires Aligned(categories, templates)
    ensures |SelectTemplate(categories, templates, phase, focusArea)| == |categories|
    ensures forall i :: 0 <= i < |categories| ==>
      SelectTemplate(categories, templates, phase, focusArea)[i].categoryId == categories[i].id &&
      SelectTemplate(categories, templates, phase, focusArea)[i].info == categories[i].info
  {
  }

  /** Without a focus each section is the phase filter of its stored list. */
  lemma NoFocusOnlyFilters(categories: seq<Category>, templates: seq<TemplateGroup>, phase: string,
                           focusArea: Option<string>)
    requires |categories| == |templates| && !Truthy(focusArea)
    ensures forall i :: 0 <= i < |templates| ==>
      SelectTemplate(categories, templates, phase, focusArea)[i].questions == FilterByPhase(templates[i].questions, phase)
    ensures StoreAfterSelect(templates, focusArea) == templates
  {
  }

  /** What a call returns is what the stored state it leaves behind shows
      through the phase filter. */
  lemma SelectMatchesStore(categories: seq<Category>, templates: seq<TemplateGroup>, phase: string,
                           focusArea: Option<string>)
    requires |categories| == |templates|
    ensures forall i :: 0 <= i < |templates| ==>
      SelectTemplate(categories, templates, phase, focusArea)[i].questions ==
      FilterByPhase(StoreAfterSelect(templates, focusArea)[i].questions, phase)
  {
    forall i | 0 <= i < |templates|
      ensures SelectTemplate(categories, templates, phase, focusArea)[i].questions ==
              FilterByPhase(StoreAfterSelect(templates, focusArea)[i].questions, phase)
    {
      if Truthy(focusArea) {
        FilterPromoteCommute(templates[i].questions, phase, Emphasizes(focusArea.value, templates[i].categoryId));
      }
    }
  }

  /** The promotion leaks into later calls: once a call with focus F has run,
      any later call, whatever its phase and focus, shows no `medium`
      question in F's categories. */
  lemma LaterCallsSeePromotion(categories: seq<Category>, templates: seq<TemplateGroup>, focus: string,
                               phase: string, laterFocus: Option<string>)
    requires |categories| == |templates| && focus != ""
    ensures forall i :: 0 <= i < |templates| && Emphasizes(focus, templates[i].categoryId) ==>
      forall q :: q in SelectTemplate(categories, StoreAfterSelect(templates, Some(focus)), phase, laterFocus)[i].questions ==>
        q.importance != Medium
  {
    var stored := StoreAfterSelect(templates, Some(focus));
    forall i, q | 0 <= i < |templates| && Emphasizes(focus, templates[i].categoryId) &&
                  q in SelectTemplate(categories, stored, phase, laterFocus)[i].questions
      ensures q.importance != Medium
    {
      var qs := stored[i].questions;
      assert forall x :: x in qs ==> x.importance != Medium;
      var filtered := FilterByPhase(qs, phase);
      assert forall x :: x in filtered ==> x.importance != Medium by {
        if phase == InitialPhase {
          InitialPhaseKeepsNonLow(qs);
        }
      }
    }
  }

  // ---------------------------------------------------------------------
  // Research keywords (get_research_keywords).

  function KeywordsOf(qs: seq<Question>): seq<string>
  {
    if qs == [] then [] else KeywordsOf(qs[..|qs| - 1]) + qs[|qs| - 1].researchKeywords
  }

  function AllKeywords(groups: seq<TemplateGroup>): seq<string>
  {
    if groups == [] then [] else AllKeywords(groups[..|groups| - 1]) + KeywordsOf(groups[|groups| - 1].questions)
  }

  /** `self.templates.get(category_id)`. */
  function FindQuestions(groups: seq<TemplateGroup>, categoryId: string): Option<seq<Question>>
  {
    if groups == [] then None
    else if groups[0].categoryId == categoryId then Some(groups[0].questions)
    else FindQuestions(groups[1..], categoryId)
  }

  /** The keywords `get_research_keywords` collects before removing duplicates. */
  function SelectedKeywords(groups: seq<TemplateGroup>, categoryId: Option<string>): seq<string>
  {
    if Truthy(categoryId) then
      match FindQuestions(groups, categoryId.value)
      case Some(qs) => KeywordsOf(qs)
      case None => []
    else AllKeywords(groups)
  }

  /** A keyword is collected iff some question of the list carries it. */
  lemma {:induction false} KeywordsOfMembership(qs: seq<Question>, k: string)
    ensures k in KeywordsOf(qs) <==> exists i :: 0 <= i < |qs| && k in qs[i].researchKeywords
  {
    if qs != [] {
      var init := qs[..|qs| - 1];
      KeywordsOfMembership(init, k);
      if k in KeywordsOf(init) {
        var i :| 0 <= i < |init| && k in init[i].researchKeywords;
        assert qs[i] == init[i];
      }
      if exists i :: 0 <= i < |qs| && k in qs[i].researchKeywords {
        var i :| 0 <= i < |qs| && k in qs[i].researchKeywords;
        if i < |init| {
          assert init[i] == qs[i];
        }
      }
    }
  }

  /** Over all categories, a keyword is collected iff some question of some
      category carries it. */
  lemma {:induction false} AllKeywordsMembership(groups: seq<TemplateGroup>, k: string)
    ensures k in AllKeywords(groups) <==>
      exists g :: 0 <= g < |groups| && k in KeywordsOf(groups[g].questions)
  {
    if groups != [] {
      var init := groups[..|groups| - 1];
      AllKeywordsMembership(init, k);
      if k in AllKeywords(init) {
        var g :| 0 <= g < |init| && k in KeywordsOf(init[g].questions);
        assert groups[g] == init[g];
      }
      if exists g :: 0 <= g < |groups| && k in KeywordsOf(groups[g].questions) {
        var g :| 0 <= g < |groups| && k in KeywordsOf(groups[g].questions);
        if g < |init| {
          assert init[g] == groups[g];
        }
      }
    }
  }

  // ---------------------------------------------------------------------

  class ChecklistTemplates {
    const categories: seq<Category>
    var templates: seq<TemplateGroup>

    ghost predicate Valid()
      reads this
    {
      Aligned(categories, templates)
    }

    constructor ()
      ensures Valid()
      ensures categories == CatalogCategories && templates == CatalogTemplates
    {
      categories := CatalogCategories;
      templates := CatalogTemplates;
      CatalogAligned();
    }

    /** The facility type is accepted and ignored. The focus promotion is
        written back into `templates`, just as Python mutates the question
        dicts it shares with the returned lists. */
    method GetTemplateByTypeAndStage(facilityType: string, checkPhase: string, focusArea: Option<string>)
      returns (checklist: seq<Section>)
      requires Valid()
      modifies this
      ensures Valid()
      ensures checklist == SelectTemplate(categories, old(templates), checkPhase, focusArea)
      ensures templates == StoreAfterSelect(old(templates), focusArea)
    {
      checklist := [];
      var i := 0;
      while i < |templates|
        invariant 0 <= i <= |templates| == |old(templates)|
        invariant Valid()
        invariant |checklist| == i
        invariant forall j :: 0 <= j < i ==>
          checklist[j] == SelectSection(categories[j], old(templates)[j], checkPhase, focusArea)
        invariant forall j :: 0 <= j < i ==> templates[j] == StoredGroup(old(templates)[j], focusArea)
        invariant forall j :: i <= j < |templates| ==> templates[j] == old(templates)[j]
      {
        var categoryId := templates[i].categoryId;
        var questions := templates[i].questions;
        // self.categories[category_id]: by the alignment invariant the entry at i
        var categoryInfo := categories[i].info;
        var filtered := FilterByPhase(questions, checkPhase);
        if Truthy(focusArea) {
          filtered := AdjustPriorityByFocus(filtered, categoryId, focusArea.value);
          templates := templates[i := TemplateGroup(categoryId, AdjustedByFocus(questions, categoryId, focusArea.value))];
        }
        checklist := checklist + [Section(categoryId, categoryInfo, filtered)];
        i := i + 1;
      }
    }

    /** Every keyword of the chosen category (of all categories when none is
        given) exactly once; an unknown category gives the empty list. The
        order of `list(set(...))` is arbitrary in Python, so the model only
        promises membership and distinctness. */
    method GetResearchKeywords(categoryId: Option<string>) returns (keywords: seq<string>)
      ensures NoDuplicates(keywords)
      ensures forall k :: k in keywords <==> k in SelectedKeywords(templates, categoryId)
      ensures Truthy(categoryId) && FindQuestions(templates, categoryId.value).None? ==> keywords == []
    {
      var collected: seq<string> := [];
      if Truthy(categoryId) {
        var questions := match FindQuestions(templates, categoryId.value)
                         case Some(qs) => qs
                         case None => [];
        for i := 0 to |questions|
          invariant collected == KeywordsOf(questions[..i])
        {
          assert questions[..i + 1][..i] == questions[..i];
          collected := collected + questions[i].researchKeywords;
        }
        assert questions[..|questions|] == questions;
      } else {
        for g := 0 to |templates|
          invariant collected == AllKeywords(templates[..g])
        {
          var questions := templates[g].questions;
          for i := 0 to |questions|
            invariant collected == AllKeywords(templates[..g]) + KeywordsOf(questions[..i])
          {
            assert questions[..i + 1][..i] == questions[..i];
            collected := collected + questions[i].researchKeywords;
          }
          assert questions[..|questions|] == questions;
          assert templates[..g + 1][..g] == templates[..g];
        }
        assert templates[..|templates|] == templates;
      }
      keywords := Dedup(collected);
    }
  }
}
