/** The classification-and-analysis pipeline for one consulting transcript: build a
    prompt that lists the taxonomy, ask the model, strip the code fence from its reply,
    and map the JSON tree onto classification and analysis results. */
module EnhancedService {
  import opened Wrappers
  import opened JavaStrings
  import opened JsonTree
  import opened Time
  import ConsultingCategories

  /** One taxonomy entry as the admin service delivers it. */
  datatype CategoryData = CategoryData(id: string, categoryName: string)

  datatype AlternativeCategory = AlternativeCategory(category: string, confidence: real)

  datatype ClassificationInfo = ClassificationInfo(
    category: string,
    categoryId: string,
    confidence: real,
    alternativeCategories: Option<seq<AlternativeCategory>>)

  datatype AnalysisInfo = AnalysisInfo(
    problemSituation: string,
    solutionApproach: string,
    expectedOutcome: string)

  /** What the parser fills in; a block missing from the reply stays None. */
  datatype ParsedResponse = ParsedResponse(
    classification: Option<ClassificationInfo>,
    analysis: Option<AnalysisInfo>)

  datatype ParseError =
    | InvalidJson                 // the extracted text is not JSON
    | MissingField(name: String)  // a required field is absent (a null dereference in the source)
    | MissingElement(index: nat)  // alternative_categories is an object, not an array

  type String = string

  datatype ClassificationRequest = ClassificationRequest(
    sourceId: string,
    consultingContent: string,
    consultingDate: int)

  datatype EnhancedClassificationResponse = EnhancedClassificationResponse(
    id: int,
    sourceId: string,
    consultingContent: string,
    consultingDate: int,
    processingTime: real,
    createdAt: DateTime,
    classification: Option<ClassificationInfo>,
    analysis: Option<AnalysisInfo>)

  datatype PipelineError =
    | ModelCallFailed(message: string)
    | ParseFailed(cause: ParseError)
    | MissingClassification      // the completion log line dereferences the classification

  /** The collaborators the pipeline cannot see: the chat-completion call, Jackson's
      readTree and its lenient text-to-number conversion. */
  datatype Services = Services(
    callModel: string -> Result<string, string>,
    readTree: string -> Option<Json>,
    parseNumber: NumberParser)

  /** The clock readings taken during one call, in milliseconds, and the creation time. */
  datatype Clock = Clock(startMillis: int, parsedMillis: int, idMillis: int, createdAt: DateTime)

  const FALLBACK_CATEGORY_ID: string := "23515d46"

  /** getDefaultCategories: the built-in taxonomy the pipeline uses. */
  const DEFAULT_CATEGORIES: seq<CategoryData> := [
    CategoryData("23515d46", "이용내역 안내"),
    CategoryData("23516275", "한도 안내"),
    CategoryData("235163f1", "가상계좌 안내"),
    CategoryData("23516494", "서비스 이용방법 안내"),
    CategoryData("23516530", "결제대금 안내"),
    CategoryData("235165c9", "약관 안내"),
    CategoryData("23516651", "상품 안내"),
    CategoryData("235166ea", "도난/분실 신청/해제"),
    CategoryData("23516778", "승인취소/매출취소 안내"),
    CategoryData("235167ff", "선결제/즉시출금")
  ]

  // ---------------------------------------------------------------- code fences

  const JSON_FENCE: string := "```json"
  const FENCE: string := "```"

  /** extractJsonFromResponse: the text between a leading fence and the last fence,
      trimmed; the whole reply trimmed when there is no such pair. */
  function ExtractJsonFromResponse(response: string): (r: string)
    ensures IsSlice(r, response)
  {
    IndexOfWithin(response, JSON_FENCE);
    IndexOfWithin(response, FENCE);
    var tagStart := IndexOf(response, JSON_FENCE) + |JSON_FENCE|;
    var bareStart := IndexOf(response, FENCE) + |FENCE|;
    var end := LastIndexOf(response, FENCE);
    if Contains(response, JSON_FENCE) && end > tagStart then
      TrimmedPiece(response, tagStart, end)
    else if Contains(response, FENCE) && end > bareStart then
      TrimmedPiece(response, bareStart, end)
    else
      assert response == response[0..|response|];
      Trim(response)
  }

  /** `s.substring(i, j).trim()`. */
  function TrimmedPiece(s: string, i: nat, j: nat): (r: string)
    requires i <= j <= |s|
    ensures IsSlice(r, s)
  {
    assert s[i..j] == s[i..j];
    SliceOfSlice(Trim(s[i..j]), s[i..j], s);
    Trim(s[i..j])
  }

  /** A tagged fence whose tag ends before the last fence: the payload is the trimmed
      text between the end of the first tag and the last fence. */
  lemma {:induction false} TaggedFenceExtracted(s: string, p: nat, q: nat)
    requires OccursAt(s, JSON_FENCE, p) && forall k :: 0 <= k < p ==> !OccursAt(s, JSON_FENCE, k)
    requires OccursAt(s, FENCE, q) && forall k :: q < k ==> !OccursAt(s, FENCE, k)
    requires q > p + |JSON_FENCE|
    ensures ExtractJsonFromResponse(s) == Trim(s[p + |JSON_FENCE|..q])
  {
    FirstOccurrenceIs(s, JSON_FENCE, p);
    LastOccurrenceIs(s, FENCE, q);
  }

  /** No usable tagged pair but a bare pair: the payload sits between the first fence's
      end and the last fence. */
  lemma {:induction false} BareFenceExtracted(s: string, p: nat, q: nat)
    requires !Contains(s, JSON_FENCE) || LastIndexOf(s, FENCE) <= IndexOf(s, JSON_FENCE) + |JSON_FENCE|
    requires OccursAt(s, FENCE, p) && forall k :: 0 <= k < p ==> !OccursAt(s, FENCE, k)
    requires OccursAt(s, FENCE, q) && forall k :: q < k ==> !OccursAt(s, FENCE, k)
    requires q > p + |FENCE|
    ensures ExtractJsonFromResponse(s) == Trim(s[p + |FENCE|..q])
  {
    FirstOccurrenceIs(s, FENCE, p);
    LastOccurrenceIs(s, FENCE, q);
  }

  /** Without a tagged or bare pair the whole reply is returned, trimmed. */
  lemma {:induction false} UnfencedReplyTrimmed(s: string)
    requires forall p, q :: OccursAt(s, FENCE, p) && OccursAt(s, FENCE, q) ==> q <= p + |FENCE|
    ensures ExtractJsonFromResponse(s) == Trim(s)
  {
    var j := IndexOf(s, JSON_FENCE);
    var f := IndexOf(s, FENCE);
    var e := LastIndexOf(s, FENCE);
    if j >= 0 && e > j + |JSON_FENCE| {
      assert OccursAt(s, FENCE, j) by { assert s[j..j + 3] == s[j..j + 7][..3]; }
      assert false;
    }
    if f >= 0 && e > f + |FENCE| {
      assert false;
    }
  }

  lemma {:induction false} FirstOccurrenceIs(s: string, sub: string, p: nat)
    requires OccursAt(s, sub, p) && forall k :: 0 <= k < p ==> !OccursAt(s, sub, k)
    ensures IndexOf(s, sub) == p && Contains(s, sub)
  {
  }

  lemma {:induction false} LastOccurrenceIs(s: string, sub: string, q: nat)
    requires OccursAt(s, sub, q) && forall k :: q < k ==> !OccursAt(s, sub, k)
    ensures LastIndexOf(s, sub) == q
  {
  }

  // ---------------------------------------------------------------- category lookup

  /** findCategoryIdByName: the id of the first entry whose name equals `name`,
      or the fallback id. */
  function FindCategoryIdByName(name: string, categories: seq<CategoryData>): (id: string)
    ensures forall i :: 0 <= i < |categories| && categories[i].categoryName == name ==>
      (forall k :: 0 <= k < i ==> categories[k].categoryName != name) ==> id == categories[i].id
    ensures (forall i :: 0 <= i < |categories| ==> categories[i].categoryName != name) ==>
      id == FALLBACK_CATEGORY_ID
  {
    if |categories| == 0 then FALLBACK_CATEGORY_ID
    else if categories[0].categoryName == name then categories[0].id
    else FindCategoryIdByName(name, categories[1..])
  }

  /** When the fallback id is one of the taxonomy's ids, a name-resolved id always is. */
  lemma {:induction false} ResolvedIdIsKnown(name: string, categories: seq<CategoryData>)
    requires exists i :: 0 <= i < |categories| && categories[i].id == FALLBACK_CATEGORY_ID
    ensures exists i :: 0 <= i < |categories| && categories[i].id == FindCategoryIdByName(name, categories)
  {
    var id := FindCategoryIdByName(name, categories);
    if exists i :: 0 <= i < |categories| && categories[i].categoryName == name {
      var i := FirstNamed(name, categories);
      assert categories[i].id == id;
    }
  }

  function FirstNamed(name: string, categories: seq<CategoryData>): (i: nat)
    requires exists i :: 0 <= i < |categories| && categories[i].categoryName == name
    ensures i < |categories| && categories[i].categoryName == name
    ensures forall k :: 0 <= k < i ==> categories[k].categoryName != name
  {
    if categories[0].categoryName == name then 0
    else
      assert exists i :: 0 <= i < |categories[1..]| && categories[1..][i].categoryName == name by {
        var i :| 0 <= i < |categories| && categories[i].categoryName == name;
        assert categories[1..][i - 1] == categories[i];
      }
      1 + FirstNamed(name, categories[1..])
  }

  /** The built-in taxonomy: the fallback id is the id of "이용내역 안내", the ids are
      pairwise distinct, and every name is one of the fixed 25 consulting categories. */
  lemma DefaultTaxonomyFacts()
    ensures DEFAULT_CATEGORIES[0] == CategoryData(FALLBACK_CATEGORY_ID, ConsultingCategories.DEFAULT_CATEGORY)
    ensures forall i, j :: 0 <= i < j < |DEFAULT_CATEGORIES| ==> DEFAULT_CATEGORIES[i].id != DEFAULT_CATEGORIES[j].id
    ensures forall i :: 0 <= i < |DEFAULT_CATEGORIES| ==> DEFAULT_CATEGORIES[i].categoryName in ConsultingCategories.CATEGORIES
  {
    forall i, j | 0 <= i < j < |DEFAULT_CATEGORIES|
      ensures DEFAULT_CATEGORIES[i].id != DEFAULT_CATEGORIES[j].id
    {
      assert DEFAULT_CATEGORIES[i].id[5..] != DEFAULT_CATEGORIES[j].id[5..];
    }
  }

  /** With the built-in taxonomy every name-resolved id is one of its ids. */
  lemma DefaultResolutionIsKnown(name: string)
    ensures exists i :: 0 <= i < |DEFAULT_CATEGORIES| && DEFAULT_CATEGORIES[i].id == FindCategoryIdByName(name, DEFAULT_CATEGORIES)
  {
    assert DEFAULT_CATEGORIES[0].id == FALLBACK_CATEGORY_ID;
    ResolvedIdIsKnown(name, DEFAULT_CATEGORIES);
  }

  /** A model that names "도난/분실 신청/해제" without an id gets that entry's id. */
  lemma TheftCategoryResolves()
    ensures FindCategoryIdByName("도난/분실 신청/해제", DEFAULT_CATEGORIES) == "235166ea"
  {
    var name: string :| name == "도난/분실 신청/해제";
    forall k | 0 <= k < 7
      ensures DEFAULT_CATEGORIES[k].categoryName != name
    {
      assert |DEFAULT_CATEGORIES[k].categoryName| != |name| || DEFAULT_CATEGORIES[k].categoryName[0] != name[0];
    }
    assert DEFAULT_CATEGORIES[7] == CategoryData("235166ea", name);
  }

  // ---------------------------------------------------------------- prompt

  const PROMPT_HEAD: string := "다음 상담 내용을 분석하여 적절한 카테고리로 분류하고 상세 분석을 제공해주세요.\n\n상담 내용: "
  const PROMPT_MIDDLE: string := "\n\n가능한 카테고리 목록:\n"
  /** The reply format the prompt asks for, in four pieces. */
  // The request for a JSON reply and the opening brace.
  const FORMAT_REQUEST: string := "\n\n다음 JSON 형식으로 응답해주세요:\n{\n"
  // The classification block: category, category_id and confidence.
  const FORMAT_CLASSIFICATION: string := "  \"classification\": {\n    \"category\": \"정확한 카테고리명\",\n    \"category_id\": \"카테고리ID\",\n    \"confidence\": 0.95,\n"
  // The alternative_categories array, closing the classification block.
  const FORMAT_ALTERNATIVES: string := "    \"alternative_categories\": [\n      {\n        \"category\": \"대안카테고리명\",\n        \"confidence\": 0.05\n      }\n    ]\n  },\n"
  // The analysis block and the closing brace.
  const FORMAT_ANALYSIS: string := "  \"analysis\": {\n    \"problem_situation\": \"고객이 겪고 있는 구체적인 문제 상황\",\n    \"solution_approach\": \"문제 해결을 위한 구체적인 접근 방법\",\n    \"expected_outcome\": \"해결 후 예상되는 결과\"\n  }\n}\n"
  const PROMPT_TAIL: string := FORMAT_REQUEST + FORMAT_CLASSIFICATION + FORMAT_ALTERNATIVES + FORMAT_ANALYSIS

  /** One line of the category list. */
  function CategoryLine(c: CategoryData): string {
    "- " + c.categoryName + " (ID: " + c.id + ")\n"
  }

  /** The category list: one line per entry, in list order (the builder's content after
      the entries so far). */
  function CategoryListing(categories: seq<CategoryData>): string {
    if |categories| == 0 then ""
    else CategoryListing(categories[..|categories| - 1]) + CategoryLine(categories[|categories| - 1])
  }

  /** The fixed parts of a prompt template: the text before the content, the text between
      the content and the category list, and the text after the list. */
  datatype PromptTemplate = PromptTemplate(head: string, middle: string, tail: string)

  const ENHANCED_TEMPLATE: PromptTemplate := PromptTemplate(PROMPT_HEAD, PROMPT_MIDDLE, PROMPT_TAIL)

  /** A template filled with the content and the category list. */
  function FillTemplate(t: PromptTemplate, content: string, categories: seq<CategoryData>): string {
    t.head + content + t.middle + CategoryListing(categories) + t.tail
  }

  /** The prompt text of buildEnhancedPromptWithDynamicCategories. */
  function PromptText(content: string, categories: seq<CategoryData>): string {
    FillTemplate(ENHANCED_TEMPLATE, content, categories)
  }

  lemma ListingAppend(categories: seq<CategoryData>, c: CategoryData)
    ensures CategoryListing(categories + [c]) == CategoryListing(categories) + CategoryLine(c)
  {
    assert (categories + [c])[..|categories|] == categories;
  }

  /** The listing of a prefix of the list is a prefix of the listing. */
  lemma {:induction false} ListingPrefix(categories: seq<CategoryData>, j: nat)
    requires j <= |categories|
    ensures CategoryListing(categories[..j]) <= CategoryListing(categories)
  {
    if j < |categories| {
      var init := categories[..|categories| - 1];
      ListingPrefix(init, j);
      assert init[..j] == categories[..j];
    } else {
      assert categories[..j] == categories;
    }
  }

  /** Each entry's line sits in the listing right after the lines of the entries before it. */
  lemma LineInListing(categories: seq<CategoryData>, i: nat)
    requires i < |categories|
    ensures OccursAt(CategoryListing(categories), CategoryLine(categories[i]), |CategoryListing(categories[..i])|)
  {
    var shown := CategoryListing(categories[..i + 1]);
    var line := CategoryLine(categories[i]);
    assert categories[..i + 1][..i] == categories[..i];
    assert shown == CategoryListing(categories[..i]) + line;
    OccursAtShift(CategoryListing(categories[..i]), line, line, 0);
    ListingPrefix(categories, i + 1);
    assert CategoryListing(categories) == shown + CategoryListing(categories)[|shown|..];
    OccursAtExtend(shown, CategoryListing(categories)[|shown|..], line, |CategoryListing(categories[..i])|);
  }

  /** A filled template embeds the content verbatim right after the head, and lists every
      category's line, each right after the lines of the entries before it. */
  lemma PromptListsEveryCategory(t: PromptTemplate, content: string, categories: seq<CategoryData>, i: nat)
    requires i < |categories|
    ensures OccursAt(FillTemplate(t, content, categories), content, |t.head|)
    ensures var at := |t.head| + |content| + |t.middle| + |CategoryListing(categories[..i])|;
      OccursAt(FillTemplate(t, content, categories), CategoryLine(categories[i]), at)
  {
    var listing := CategoryListing(categories);
    OccursAtShift(t.head, content, content, 0);
    OccursAtExtend(t.head + content, t.middle, content, |t.head|);
    OccursAtExtend(t.head + content + t.middle, listing, content, |t.head|);
    OccursAtExtend(t.head + content + t.middle + listing, t.tail, content, |t.head|);
    LineInListing(categories, i);
    var start := |CategoryListing(categories[..i])|;
    OccursAtShift(t.head + content + t.middle, listing, CategoryLine(categories[i]), start);
    OccursAtExtend(t.head + content + t.middle + listing, t.tail, CategoryLine(categories[i]),
      |t.head + content + t.middle| + start);
  }

  /** buildEnhancedPromptWithDynamicCategories: appends one line per category to a
      builder, then fills the template. */
  method BuildEnhancedPromptWithDynamicCategories(content: string, categories: seq<CategoryData>)
    returns (prompt: string)
    ensures prompt == PromptText(content, categories)
  {
    var categoryList := "";
    for i := 0 to |categories|
      invariant categoryList == CategoryListing(categories[..i])
    {
      assert categories[..i + 1][..i] == categories[..i];
      categoryList := categoryList + CategoryLine(categories[i]);
    }
    assert categories[..|categories|] == categories;
    var template := ENHANCED_TEMPLATE;
    prompt := template.head + content + template.middle + categoryList + template.tail;
  }

  // ---------------------------------------------------------------- reply parsing

  /** `node.get(name).asText()`: a missing field is a null dereference. */
  function RequiredText(node: Json, name: string): (r: Result<string, ParseError>)
    ensures r.Success? <==> Has(node, name)
    ensures r.Success? ==> r.value == AsText(node.fields[name])
    ensures r.Failure? ==> r.error == MissingField(name)
  {
    match Get(node, name)
    case None => Failure(MissingField(name))
    case Some(v) => Success(AsText(v))
  }

  /** `node.get(name).asDouble()`. */
  function RequiredDouble(node: Json, name: string, parseNumber: NumberParser): (r: Result<real, ParseError>)
    ensures r.Success? <==> Has(node, name)
    ensures r.Success? ==> r.value == AsDouble(node.fields[name], parseNumber)
    ensures r.Failure? ==> r.error == MissingField(name)
  {
    match Get(node, name)
    case None => Failure(MissingField(name))
    case Some(v) => Success(AsDouble(v, parseNumber))
  }

  /** One alternative: element `i` of the node, then its category, then its confidence. */
  function ParseAlternativeAt(alternatives: Json, i: nat, parseNumber: NumberParser): Result<AlternativeCategory, ParseError> {
    match At(alternatives, i)
    case None => Failure(MissingElement(i))
    case Some(alt) =>
      var category :- RequiredText(alt, "category");
      var confidence :- RequiredDouble(alt, "confidence", parseNumber);
      Success(AlternativeCategory(category, confidence))
  }

  /** The alternatives from index `from` up to the node's size; the first failing
      element decides the error. */
  function ParseAlternativesFrom(alternatives: Json, from: nat, parseNumber: NumberParser): Result<seq<AlternativeCategory>, ParseError>
    requires from <= Size(alternatives)
    decreases Size(alternatives) - from
  {
    if from == Size(alternatives) then Success([])
    else
      var alt :- ParseAlternativeAt(alternatives, from, parseNumber);
      var rest :- ParseAlternativesFrom(alternatives, from + 1, parseNumber);
      Success([alt] + rest)
  }

  /** A parsed prefix followed by the outcome of parsing the rest. */
  function Prefixed(prefix: seq<AlternativeCategory>, rest: Result<seq<AlternativeCategory>, ParseError>): Result<seq<AlternativeCategory>, ParseError> {
    match rest
    case Success(tail) => Success(prefix + tail)
    case Failure(e) => Failure(e)
  }

  /** The alternatives parse exactly when every element parses. */
  lemma {:induction false} AlternativesAllSucceed(alternatives: Json, from: nat, parseNumber: NumberParser)
    requires from <= Size(alternatives)
    decreases Size(alternatives) - from
    ensures ParseAlternativesFrom(alternatives, from, parseNumber).Success? <==>
      forall i :: from <= i < Size(alternatives) ==> ParseAlternativeAt(alternatives, i, parseNumber).Success?
  {
    if from < Size(alternatives) {
      AlternativesAllSucceed(alternatives, from + 1, parseNumber);
    }
  }

  /** A successful parse has one entry per element, in element order. */
  lemma {:induction false} AlternativesCopiedInOrder(alternatives: Json, from: nat, parseNumber: NumberParser)
    requires from <= Size(alternatives)
    requires ParseAlternativesFrom(alternatives, from, parseNumber).Success?
    decreases Size(alternatives) - from
    ensures var alts := ParseAlternativesFrom(alternatives, from, parseNumber).value;
      |alts| == Size(alternatives) - from &&
      forall i :: from <= i < Size(alternatives) ==>
        ParseAlternativeAt(alternatives, i, parseNumber) == Success(alts[i - from])
  {
    if from < Size(alternatives) {
      var alt := ParseAlternativeAt(alternatives, from, parseNumber).value;
      var rest := ParseAlternativesFrom(alternatives, from + 1, parseNumber);
      assert rest.Success?;
      AlternativesCopiedInOrder(alternatives, from + 1, parseNumber);
      var alts := [alt] + rest.value;
      assert ParseAlternativesFrom(alternatives, from, parseNumber) == Success(alts);
      assert ParseAlternativeAt(alternatives, from, parseNumber) == Success(alts[0]);
      forall i | from < i < Size(alternatives)
        ensures ParseAlternativeAt(alternatives, i, parseNumber) == Success(alts[i - from])
      {
        assert alts[i - from] == rest.value[i - (from + 1)];
      }
    }
  }

  /** A failing parse reports the error of the first element that fails. */
  lemma {:induction false} AlternativesFirstFailure(alternatives: Json, from: nat, k: nat, parseNumber: NumberParser)
    requires from <= k < Size(alternatives)
    requires ParseAlternativeAt(alternatives, k, parseNumber).Failure?
    requires forall i :: from <= i < k ==> ParseAlternativeAt(alternatives, i, parseNumber).Success?
    decreases k - from
    ensures ParseAlternativesFrom(alternatives, from, parseNumber) == Failure(ParseAlternativeAt(alternatives, k, parseNumber).error)
  {
    if from < k {
      AlternativesFirstFailure(alternatives, from + 1, k, parseNumber);
    }
  }

  /** A non-empty object in place of the array fails at element 0, as `get(0)` is null there. */
  lemma ObjectAlternativesRejected(alternatives: Json, parseNumber: NumberParser)
    requires alternatives.JObj? && |alternatives.fields| > 0
    ensures ParseAlternativesFrom(alternatives, 0, parseNumber) == Failure(MissingElement(0))
  {
  }

  lemma PrefixedEmpty(rest: Result<seq<AlternativeCategory>, ParseError>)
    ensures Prefixed([], rest) == rest
  {
    if rest.Success? {
      assert [] + rest.value == rest.value;
    }
  }

  lemma PrefixedStep(prefix: seq<AlternativeCategory>, alt: AlternativeCategory, rest: Result<seq<AlternativeCategory>, ParseError>)
    ensures Prefixed(prefix, Prefixed([alt], rest)) == Prefixed(prefix + [alt], rest)
  {
    if rest.Success? {
      assert prefix + ([alt] + rest.value) == prefix + [alt] + rest.value;
    }
  }

  /** The index loop that fills `altCategories[i]`. */
  method ParseAlternatives(alternatives: Json, parseNumber: NumberParser) returns (r: Result<seq<AlternativeCategory>, ParseError>)
    ensures r == ParseAlternativesFrom(alternatives, 0, parseNumber)
  {
    var n := Size(alternatives);
    var altCategories := new AlternativeCategory[n];
    assert altCategories[..0] == [];
    PrefixedEmpty(ParseAlternativesFrom(alternatives, 0, parseNumber));
    for i := 0 to n
      invariant ParseAlternativesFrom(alternatives, 0, parseNumber)
        == Prefixed(altCategories[..i], ParseAlternativesFrom(alternatives, i, parseNumber))
    {
      var altCat := ParseAlternativeAt(alternatives, i, parseNumber);
      if altCat.Failure? {
        return Failure(altCat.error);
      }
      PrefixedStep(altCategories[..i], altCat.value, ParseAlternativesFrom(alternatives, i + 1, parseNumber));
      altCategories[i] := altCat.value;
      assert altCategories[..i + 1] == altCategories[..i] + [altCat.value];
    }
    assert ParseAlternativesFrom(alternatives, n, parseNumber) == Success([]);
    assert altCategories[..n] + [] == altCategories[..];
    r := Success(altCategories[..]);
  }

  /** `alternative_categories`: unset when absent, parsed when present. */
  function OptionalAlternatives(classification: Json, parseNumber: NumberParser): Result<Option<seq<AlternativeCategory>>, ParseError> {
    match Get(classification, "alternative_categories")
    case None => Success(None)
    case Some(alternatives) =>
      var alts :- ParseAlternativesFrom(alternatives, 0, parseNumber);
      Success(Some(alts))
  }

  /** The classification block: category, then confidence, then the id (trusted when
      present, looked up by name otherwise), then the alternatives. */
  function ParseClassificationSpec(classification: Json, categories: seq<CategoryData>, parseNumber: NumberParser): Result<ClassificationInfo, ParseError> {
    var category :- RequiredText(classification, "category");
    var confidence :- RequiredDouble(classification, "confidence", parseNumber);
    var categoryId := match Get(classification, "category_id")
      case Some(id) => AsText(id)
      case None => FindCategoryIdByName(category, categories);
    var alternatives :- OptionalAlternatives(classification, parseNumber);
    Success(ClassificationInfo(category, categoryId, confidence, alternatives))
  }

  /** The analysis block: all three texts are required. */
  function ParseAnalysisSpec(analysis: Json): Result<AnalysisInfo, ParseError> {
    var problem :- RequiredText(analysis, "problem_situation");
    var solution :- RequiredText(analysis, "solution_approach");
    var outcome :- RequiredText(analysis, "expected_outcome");
    Success(AnalysisInfo(problem, solution, outcome))
  }

  /** parseEnhancedResponseWithCategoryId as a function of the reply: extract, read the
      tree, then each top-level block that is present. */
  function ParseResponseSpec(reply: string, categories: seq<CategoryData>, readTree: string -> Option<Json>,
                             parseNumber: NumberParser): Result<ParsedResponse, ParseError> {
    match readTree(ExtractJsonFromResponse(reply))
    case None => Failure(InvalidJson)
    case Some(root) =>
      var classification :- match Get(root, "classification")
        case None => Success(None)
        case Some(c) => (var info :- ParseClassificationSpec(c, categories, parseNumber); Success(Some(info)));
      var analysis :- match Get(root, "analysis")
        case None => Success(None)
        case Some(a) => (var info :- ParseAnalysisSpec(a); Success(Some(info)));
      Success(ParsedResponse(classification, analysis))
  }

  /** parseEnhancedResponseWithCategoryId: fills the response block by block through
      setters; any exception becomes a parse failure. */
  method ParseEnhancedResponseWithCategoryId(reply: string, categories: seq<CategoryData>,
                                            readTree: string -> Option<Json>, parseNumber: NumberParser)
    returns (r: Result<ParsedResponse, ParseError>)
    ensures r == ParseResponseSpec(reply, categories, readTree, parseNumber)
  {
    var jsonResponse := ExtractJsonFromResponse(reply);
    var tree := readTree(jsonResponse);
    if tree.None? {
      return Failure(InvalidJson);
    }
    var root := tree.value;
    var response := ParsedResponse(None, None);
    if Has(root, "classification") {
      var classification := root.fields["classification"];
      var categoryName :- RequiredText(classification, "category");
      var confidence :- RequiredDouble(classification, "confidence", parseNumber);
      var categoryId;
      if Has(classification, "category_id") {
        categoryId := AsText(classification.fields["category_id"]);
      } else {
        categoryId := FindCategoryIdByName(categoryName, categories);
      }
      var info := ClassificationInfo(categoryName, categoryId, confidence, None);
      if Has(classification, "alternative_categories") {
        var altCategories :- ParseAlternatives(classification.fields["alternative_categories"], parseNumber);
        info := info.(alternativeCategories := Some(altCategories));
      }
      response := response.(classification := Some(info));
    }
    if Has(root, "analysis") {
      var analysis := root.fields["analysis"];
      var problem :- RequiredText(analysis, "problem_situation");
      var solution :- RequiredText(analysis, "solution_approach");
      var outcome :- RequiredText(analysis, "expected_outcome");
      response := response.(analysis := Some(AnalysisInfo(problem, solution, outcome)));
    }
    return Success(response);
  }

  /** A `category_id` in the payload is copied as its text, whatever the taxonomy holds;
      without one the id is the name lookup's. */
  lemma CategoryIdTrustedOrResolved(classification: Json, categories: seq<CategoryData>, parseNumber: NumberParser)
    requires ParseClassificationSpec(classification, categories, parseNumber).Success?
    ensures var info := ParseClassificationSpec(classification, categories, parseNumber).value;
      info.category == AsText(classification.fields["category"]) &&
      info.confidence == AsDouble(classification.fields["confidence"], parseNumber) &&
      (Has(classification, "category_id") ==> info.categoryId == AsText(classification.fields["category_id"])) &&
      (!Has(classification, "category_id") ==> info.categoryId == FindCategoryIdByName(info.category, categories))
  {
  }

  /** A block that is present needs its required fields: without `category` or
      `confidence` the classification fails, without any of the three texts the
      analysis fails. */
  lemma RequiredFieldsEnforced(classification: Json, analysis: Json, categories: seq<CategoryData>, parseNumber: NumberParser)
    ensures !Has(classification, "category") ==>
      ParseClassificationSpec(classification, categories, parseNumber) == Failure(MissingField("category"))
    ensures Has(classification, "category") && !Has(classification, "confidence") ==>
      ParseClassificationSpec(classification, categories, parseNumber) == Failure(MissingField("confidence"))
    ensures ParseAnalysisSpec(analysis).Success? <==>
      Has(analysis, "problem_situation") && Has(analysis, "solution_approach") && Has(analysis, "expected_outcome")
  {
  }

  /** The alternatives stay unset when the key is absent. */
  lemma AlternativesUnsetWhenAbsent(classification: Json, categories: seq<CategoryData>, parseNumber: NumberParser)
    requires !Has(classification, "alternative_categories")
    requires Has(classification, "category") && Has(classification, "confidence")
    ensures ParseClassificationSpec(classification, categories, parseNumber).Success?
    ensures ParseClassificationSpec(classification, categories, parseNumber).value.alternativeCategories.None?
  {
  }

  /** The top-level blocks: text that is not JSON fails. Otherwise the parse succeeds
      exactly when every block that is present parses; a missing block stays unset and a
      present one carries its parse; a failing classification is reported before the
      analysis is looked at. */
  lemma ParseBlocks(reply: string, categories: seq<CategoryData>, readTree: string -> Option<Json>, parseNumber: NumberParser)
    ensures readTree(ExtractJsonFromResponse(reply)).None? ==>
      ParseResponseSpec(reply, categories, readTree, parseNumber) == Failure(InvalidJson)
    ensures var tree := readTree(ExtractJsonFromResponse(reply));
      tree.Some? ==>
      var root := tree.value;
      var r := ParseResponseSpec(reply, categories, readTree, parseNumber);
      var classificationOk := Has(root, "classification") ==>
        ParseClassificationSpec(root.fields["classification"], categories, parseNumber).Success?;
      var analysisOk := Has(root, "analysis") ==> ParseAnalysisSpec(root.fields["analysis"]).Success?;
      (r.Success? <==> classificationOk && analysisOk) &&
      (r.Success? ==>
        r.value.classification ==
          (if Has(root, "classification")
           then Some(ParseClassificationSpec(root.fields["classification"], categories, parseNumber).value)
           else None) &&
        r.value.analysis ==
          (if Has(root, "analysis") then Some(ParseAnalysisSpec(root.fields["analysis"]).value) else None)) &&
      (!classificationOk ==>
        r == Failure(ParseClassificationSpec(root.fields["classification"], categories, parseNumber).error)) &&
      (classificationOk && !analysisOk ==> r == Failure(ParseAnalysisSpec(root.fields["analysis"]).error))
  {
  }

  // ---------------------------------------------------------------- the pipeline

  /** processAndSaveConsultingContent as a function: prompt over the built-in taxonomy,
      model call, parse, then the request's fields, the timings and the temporary id. */
  function ProcessSpec(request: ClassificationRequest, svc: Services, clock: Clock): Result<EnhancedClassificationResponse, PipelineError> {
    ProcessWith(request, DEFAULT_CATEGORIES, svc, clock)
  }

  /** The pipeline over a given taxonomy. */
  function ProcessWith(request: ClassificationRequest, categories: seq<CategoryData>, svc: Services, clock: Clock): Result<EnhancedClassificationResponse, PipelineError> {
    var prompt := PromptText(request.consultingContent, categories);
    match svc.callModel(prompt)
    case Failure(message) => Failure(ModelCallFailed(message))
    case Success(reply) =>
      match ParseResponseSpec(reply, categories, svc.readTree, svc.parseNumber)
      case Failure(cause) => Failure(ParseFailed(cause))
      case Success(parsed) => Assemble(request, parsed, clock)
  }

  /** The response for a parsed reply: the request's fields, the timings, the temporary
      id; a missing classification fails at the completion log line. */
  function Assemble(request: ClassificationRequest, parsed: ParsedResponse, clock: Clock): Result<EnhancedClassificationResponse, PipelineError> {
    if parsed.classification.None? then Failure(MissingClassification)
    else Success(EnhancedClassificationResponse(
      clock.idMillis, request.sourceId, request.consultingContent, request.consultingDate,
      (clock.parsedMillis - clock.startMillis) as real / 1000.0, clock.createdAt,
      parsed.classification, parsed.analysis))
  }

  /** processAndSaveConsultingContent, on the built-in taxonomy. */
  method ProcessAndSaveConsultingContent(request: ClassificationRequest, svc: Services, clock: Clock)
    returns (r: Result<EnhancedClassificationResponse, PipelineError>)
    ensures r == ProcessSpec(request, svc, clock)
  {
    r := ProcessWithCategories(request, DEFAULT_CATEGORIES, svc, clock);
  }

  method ProcessWithCategories(request: ClassificationRequest, categories: seq<CategoryData>, svc: Services, clock: Clock)
    returns (r: Result<EnhancedClassificationResponse, PipelineError>)
    ensures r == ProcessWith(request, categories, svc, clock)
  {
    var prompt := BuildEnhancedPromptWithDynamicCategories(request.consultingContent, categories);
    var reply := svc.callModel(prompt);
    if reply.Failure? {
      return Failure(ModelCallFailed(reply.error));
    }
    var parsed := ParseEnhancedResponseWithCategoryId(reply.value, categories, svc.readTree, svc.parseNumber);
    if parsed.Failure? {
      return Failure(ParseFailed(parsed.error));
    }
    r := AssembleResponse(request, parsed.value, clock);
  }

  /** Steps 4 to 6: the request's fields, the processing time and the temporary id are
      set on the parsed response; the completion log then reads its classification. */
  method AssembleResponse(request: ClassificationRequest, parsed: ParsedResponse, clock: Clock)
    returns (r: Result<EnhancedClassificationResponse, PipelineError>)
    ensures r == Assemble(request, parsed, clock)
  {
    var response := EnhancedClassificationResponse(0, "", "", 0, 0.0, DateTime(0, 0), parsed.classification, parsed.analysis);
    response := response.(sourceId := request.sourceId, consultingContent := request.consultingContent,
      consultingDate := request.consultingDate);
    var processingTime := (clock.parsedMillis - clock.startMillis) as real / 1000.0;
    response := response.(processingTime := processingTime);
    response := response.(id := clock.idMillis, createdAt := clock.createdAt);
    if response.classification.None? {
      return Failure(MissingClassification);
    }
    return Success(response);
  }

  /** A successful call copies the request's source id, content and date, carries the
      parsed blocks (a classification is always there), and reports the elapsed
      milliseconds in seconds. */
  lemma ProcessCopiesRequest(request: ClassificationRequest, svc: Services, clock: Clock)
    requires ProcessSpec(request, svc, clock).Success?
    ensures var r := ProcessSpec(request, svc, clock).value;
      r.sourceId == request.sourceId && r.consultingContent == request.consultingContent &&
      r.consultingDate == request.consultingDate && r.classification.Some? &&
      r.processingTime * 1000.0 == (clock.parsedMillis - clock.startMillis) as real
    ensures var reply := svc.callModel(PromptText(request.consultingContent, DEFAULT_CATEGORIES));
      reply.Success? &&
      ParseResponseSpec(reply.value, DEFAULT_CATEGORIES, svc.readTree, svc.parseNumber).Success? &&
      ProcessSpec(request, svc, clock).value.classification ==
        ParseResponseSpec(reply.value, DEFAULT_CATEGORIES, svc.readTree, svc.parseNumber).value.classification &&
      ProcessSpec(request, svc, clock).value.analysis ==
        ParseResponseSpec(reply.value, DEFAULT_CATEGORIES, svc.readTree, svc.parseNumber).value.analysis
  {
  }

  /** A reply without a classification block fails the call, at the completion log line. */
  lemma ReplyWithoutClassificationFails(request: ClassificationRequest, svc: Services, clock: Clock)
    requires var reply := svc.callModel(PromptText(request.consultingContent, DEFAULT_CATEGORIES));
      reply.Success? && ParseResponseSpec(reply.value, DEFAULT_CATEGORIES, svc.readTree, svc.parseNumber).Success? &&
      ParseResponseSpec(reply.value, DEFAULT_CATEGORIES, svc.readTree, svc.parseNumber).value.classification.None?
    ensures ProcessSpec(request, svc, clock) == Failure(MissingClassification)
  {
  }
}
