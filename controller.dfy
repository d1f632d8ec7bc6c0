/** The read side of the HTTP controller: rolling a consulting category up into one of six
    big categories, the analysis-result list for mail contents, and the dated, paged VoC
    list. Repository queries are given their result rows; Jackson's readValue is an input. */
module Controller {
  import opened Wrappers
  import opened JavaStrings
  import opened JsonTree
  import opened Time
  import opened Entities
  import EnhancedService

  const INQUIRY := "조회/안내"
  const APPLICATION := "신청/해제"
  const PRODUCT := "상품"
  const PAYMENT := "결제/한도"
  const SECURITY := "보안"
  const OTHER := "기타"

  /** The six big categories. */
  const BIG_CATEGORIES: seq<string> := [INQUIRY, APPLICATION, PRODUCT, PAYMENT, SECURITY, OTHER]

  /** getBigCategoryName: the first keyword rule that the category contains decides. */
  function GetBigCategoryName(consultingCategory: Option<string>): (big: string)
    ensures big in BIG_CATEGORIES
    ensures consultingCategory.None? ==> big == OTHER
  {
    match consultingCategory
    case None => OTHER
    case Some(c) =>
      if Contains(c, "안내") || Contains(c, "조회") then INQUIRY
      else if Contains(c, "신청") || Contains(c, "해제") then APPLICATION
      else if Contains(c, "상품") then PRODUCT
      else if Contains(c, "결제") || Contains(c, "한도") then PAYMENT
      else if Contains(c, "도난") || Contains(c, "분실") then SECURITY
      else OTHER
  }

  /** A keyword rule of the roll-up: any of its keywords selects its label. */
  datatype Rule = Rule(keywords: seq<string>, bigCategory: string)

  /** The rules in the order they are tried. */
  const BIG_CATEGORY_RULES: seq<Rule> := [
    Rule(["안내", "조회"], INQUIRY),
    Rule(["신청", "해제"], APPLICATION),
    Rule(["상품"], PRODUCT),
    Rule(["결제", "한도"], PAYMENT),
    Rule(["도난", "분실"], SECURITY)
  ]

  /** Whether the category contains one of the keywords. */
  predicate ContainsAny(c: string, keywords: seq<string>) {
    exists k :: k in keywords && Contains(c, k)
  }

  /** A rule table read front to back: the label of the first rule with a keyword the
      category contains, or the fallback. */
  function FirstRuleLabel(c: string, rules: seq<Rule>, fallback: string): (big: string)
    ensures big == fallback || exists i :: 0 <= i < |rules| && rules[i].bigCategory == big
  {
    if |rules| == 0 then fallback
    else if ContainsAny(c, rules[0].keywords) then rules[0].bigCategory
    else FirstRuleLabel(c, rules[1..], fallback)
  }

  /** Rule `i` is the first rule whose keywords the category contains. */
  predicate FirstHit(c: string, rules: seq<Rule>, i: nat)
    requires i < |rules|
  {
    ContainsAny(c, rules[i].keywords) && forall j :: 0 <= j < i ==> !ContainsAny(c, rules[j].keywords)
  }

  /** The first rule hit decides: with no hit the result is the fallback, and otherwise it
      is the label of the first rule whose keywords the category contains. */
  lemma {:induction false} FirstRuleLabelIsFirstHit(c: string, rules: seq<Rule>, fallback: string)
    ensures (forall i :: 0 <= i < |rules| ==> !ContainsAny(c, rules[i].keywords)) ==>
      FirstRuleLabel(c, rules, fallback) == fallback
    ensures forall i :: 0 <= i < |rules| && FirstHit(c, rules, i) ==>
      FirstRuleLabel(c, rules, fallback) == rules[i].bigCategory
  {
    if |rules| > 0 {
      FirstRuleLabelIsFirstHit(c, rules[1..], fallback);
      if !ContainsAny(c, rules[0].keywords) {
        forall i | 1 <= i < |rules| ensures rules[1..][i - 1] == rules[i] { }
      }
    }
  }

  /** The roll-up is the rule table read in order, with "기타" as the fallback. */
  lemma {:induction false} BigCategoryFollowsRuleTable(c: string)
    ensures GetBigCategoryName(Some(c)) == FirstRuleLabel(c, BIG_CATEGORY_RULES, OTHER)
  {
    ContainsAnyOfTwo(c, "안내", "조회");
    ContainsAnyOfTwo(c, "신청", "해제");
    ContainsAnyOfOne(c, "상품");
    ContainsAnyOfTwo(c, "결제", "한도");
    ContainsAnyOfTwo(c, "도난", "분실");
    var r := BIG_CATEGORY_RULES;
    var t4 := r[4..];
    assert t4[1..] == [];
    var after4 := if Contains(c, "도난") || Contains(c, "분실") then SECURITY else OTHER;
    assert FirstRuleLabel(c, t4, OTHER) == after4;
    var t3 := r[3..];
    assert t3[1..] == t4;
    var after3 := if Contains(c, "결제") || Contains(c, "한도") then PAYMENT else after4;
    assert FirstRuleLabel(c, t3, OTHER) == after3;
    var t2 := r[2..];
    assert t2[1..] == t3;
    var after2 := if Contains(c, "상품") then PRODUCT else after3;
    assert FirstRuleLabel(c, t2, OTHER) == after2;
    var t1 := r[1..];
    assert t1[1..] == t2;
    var after1 := if Contains(c, "신청") || Contains(c, "해제") then APPLICATION else after2;
    assert FirstRuleLabel(c, t1, OTHER) == after1;
  }

  lemma {:induction false} ContainsAnyOfTwo(c: string, a: string, b: string)
    ensures ContainsAny(c, [a, b]) <==> Contains(c, a) || Contains(c, b)
  {
    if Contains(c, a) {
      assert a in [a, b];
    } else if Contains(c, b) {
      assert b in [a, b];
    }
  }

  lemma {:induction false} ContainsAnyOfOne(c: string, a: string)
    ensures ContainsAny(c, [a]) <==> Contains(c, a)
  {
    if Contains(c, a) {
      assert a in [a];
    }
  }

  /** "보안" needs a theft keyword and none of the earlier ones, so a category that
      contains an earlier rule's keyword never rolls up to it. */
  lemma {:induction false} EarlierKeywordPreemptsSecurity(c: string, keyword: string, k: nat)
    requires keyword in ["안내", "조회", "신청", "해제", "상품", "결제", "한도"]
    requires OccursAt(c, keyword, k)
    ensures GetBigCategoryName(Some(c)) != SECURITY
  {
  }

  /** No name of the pipeline's built-in taxonomy rolls up to "보안": the theft category
      also contains "신청" and goes to "신청/해제". */
  lemma TaxonomyNeverRollsUpToSecurity()
    ensures forall i :: 0 <= i < |EnhancedService.DEFAULT_CATEGORIES| ==>
      GetBigCategoryName(Some(EnhancedService.DEFAULT_CATEGORIES[i].categoryName)) != SECURITY
  {
    var names := EnhancedService.DEFAULT_CATEGORIES;
    forall i | 0 <= i < |names|
      ensures GetBigCategoryName(Some(names[i].categoryName)) != SECURITY
    {
      var c := names[i].categoryName;
      if i == 7 {
        assert c[6..8] == "신청";
        EarlierKeywordPreemptsSecurity(c, "신청", 6);
      } else if i == 9 {
        assert c[1..3] == "결제";
        EarlierKeywordPreemptsSecurity(c, "결제", 1);
      } else {
        assert c[|c| - 2..] == "안내";
        EarlierKeywordPreemptsSecurity(c, "안내", |c| - 2);
      }
    }
  }

  /** The order of the rules matters: the theft category rolls up to "신청/해제", not
      "보안", and "상품 안내" to "조회/안내", not "상품". */
  lemma RuleOrderExamples()
    ensures GetBigCategoryName(Some("도난/분실 신청/해제")) == APPLICATION
    ensures GetBigCategoryName(Some("상품 안내")) == INQUIRY
  {
    var theft: string :| theft == "도난/분실 신청/해제";
    TheftHasNoInquiryKeyword(theft);
    assert theft[6] == '신' && theft[7] == '청';
    assert theft[6..8] == "신청";
    assert OccursAt(theft, "신청", 6);
    var product: string :| product == "상품 안내";
    assert product[3] == '안' && product[4] == '내';
    assert product[3..5] == "안내";
    assert OccursAt(product, "안내", 3);
  }

  lemma TheftHasNoInquiryKeyword(theft: string)
    requires theft == "도난/분실 신청/해제"
    ensures !Contains(theft, "안내") && !Contains(theft, "조회")
  {
    assert forall i :: 0 <= i < |theft| ==> theft[i] != '안' && theft[i] != '조';
    FirstCharAbsent(theft, "안내");
    FirstCharAbsent(theft, "조회");
  }

  // ---------------------------------------------------------------- VoC list items

  datatype VocListItem = VocListItem(
    vocEventId: int,
    sourceId: string,
    consultingDate: int,
    bigCategoryName: string,
    consultingCategoryName: Option<string>,
    clientAge: string,
    clientGender: Option<string>,
    analysisResult: Option<string>)

  /** Stands in for the message of the NullPointerException a row without a client age
      causes; the JVM's own text is not modelled. */
  const NULL_AGE_MESSAGE: string := "clientAge is null"

  /** convertToVocListItem: the row's fields with the big category added; a row without a
      client age fails (`getClientAge().toString()` on null). */
  function ConvertToVocListItem(entity: ConsultingClassification): (r: Result<VocListItem, string>)
    ensures r.Success? <==> entity.clientAge.Some?
    ensures r.Success? ==>
      r.value.vocEventId == entity.id && r.value.sourceId == entity.sourceId &&
      r.value.consultingDate == entity.consultingDate &&
      r.value.consultingCategoryName == entity.consultingCategory &&
      r.value.clientAge == entity.clientAge.value && r.value.clientGender == entity.clientGender &&
      r.value.analysisResult == entity.analysisResult &&
      r.value.bigCategoryName == GetBigCategoryName(entity.consultingCategory)
  {
    match entity.clientAge
    case None => Failure(NULL_AGE_MESSAGE)
    case Some(age) =>
      Success(VocListItem(entity.id, entity.sourceId, entity.consultingDate,
        GetBigCategoryName(entity.consultingCategory), entity.consultingCategory, age,
        entity.clientGender, entity.analysisResult))
  }

  // ---------------------------------------------------------------- mail contents

  /** The messages PageRequest.of gives for a bad page index or size. */
  const PAGE_INDEX_MESSAGE: string := "Page index must not be less than zero"
  const PAGE_SIZE_MESSAGE: string := "Page size must not be less than one"

  /** One entry of the mail-contents list: the parsed analysis result; null when the
      column is null or empty or its text does not parse. */
  function AnalysisEntry(entity: ConsultingClassification, readValue: string -> Option<Json>): Json {
    match entity.analysisResult
    case None => JNull
    case Some(text) =>
      if |text| == 0 then JNull
      else match readValue(text)
        case None => JNull
        case Some(value) => value
  }

  /** An entry is null exactly in the three cases the source guards, or when the text
      itself is the JSON null; otherwise it is the parsed value. */
  lemma AnalysisEntryCases(entity: ConsultingClassification, readValue: string -> Option<Json>)
    ensures entity.analysisResult.None? ==> AnalysisEntry(entity, readValue) == JNull
    ensures entity.analysisResult == Some("") ==> AnalysisEntry(entity, readValue) == JNull
    ensures entity.analysisResult.Some? && readValue(entity.analysisResult.value).None? ==>
      AnalysisEntry(entity, readValue) == JNull
    ensures entity.analysisResult.Some? && |entity.analysisResult.value| > 0 && readValue(entity.analysisResult.value).Some? ==>
      AnalysisEntry(entity, readValue) == readValue(entity.analysisResult.value).value
  {
  }

  function Min(a: int, b: int): int {
    if a <= b then a else b
  }

  /** getVocNormalized: `rows` are the category's records newest first; the page is the
      first `limit` of them, and the result has one entry per row of the page, in order. */
  method GetVocNormalized(limit: int, rows: seq<ConsultingClassification>, readValue: string -> Option<Json>)
    returns (r: Result<seq<Json>, string>)
    ensures limit < 1 ==> r == Failure(PAGE_SIZE_MESSAGE)
    ensures limit >= 1 ==> r.Success? && |r.value| == Min(limit, |rows|)
    ensures limit >= 1 ==> forall i :: 0 <= i < |r.value| ==> r.value[i] == AnalysisEntry(rows[i], readValue)
  {
    if limit < 1 {
      return Failure(PAGE_SIZE_MESSAGE);
    }
    var page := rows[..Min(limit, |rows|)];
    var results: seq<Json> := [];
    for i := 0 to |page|
      invariant |results| == i
      invariant forall j :: 0 <= j < i ==> results[j] == AnalysisEntry(page[j], readValue)
    {
      var entity := page[i];
      if entity.analysisResult.Some? && |entity.analysisResult.value| != 0 {
        var parsed := readValue(entity.analysisResult.value);
        if parsed.Some? {
          results := results + [parsed.value];
        } else {
          results := results + [JNull];
        }
      } else {
        results := results + [JNull];
      }
    }
    return Success(results);
  }

  // ---------------------------------------------------------------- the VoC list

  /** Java's `int`. */
  newtype int32 = x: int | -0x8000_0000 <= x < 0x8000_0000

  /** The request body; dates are day numbers, page and size are Java integers. */
  datatype VocListRequest = VocListRequest(startDate: int, endDate: int, page: int32, size: int32)

  datatype VocListResponse = VocListResponse(data: seq<VocListItem>, totalCount: nat, page: int32, size: int32)

  /** `request.getPage() - 1` in 32-bit arithmetic: the smallest page wraps around to the
      largest index. */
  function PageIndex(page: int32): (index: int32)
    ensures (index as int - (page as int - 1)) % 0x1_0000_0000 == 0
    ensures page as int - 1 >= -0x8000_0000 ==> index as int == page as int - 1
  {
    if page == -0x8000_0000 then 0x7fff_ffff else page - 1
  }

  /** The window as the query states it: `Between` is inclusive at both ends, and the
      upper bound is the start of the day after the end date. */
  predicate InListWindowAsWritten(day: int, startDate: int, endDate: int) {
    Nanos(AtStartOfDay(startDate)) <= Nanos(AtStartOfDay(day)) <= Nanos(AtStartOfDay(endDate + 1))
  }

  /** The window the code means: from the start date's midnight up to, but not including,
      the midnight after the end date. */
  predicate InListWindow(day: int, startDate: int, endDate: int) {
    Nanos(AtStartOfDay(startDate)) <= Nanos(AtStartOfDay(day)) < Nanos(AtStartOfDay(endDate + 1))
  }

  /** The inclusive bound also admits the records of the day after the end date. */
  lemma WindowAsWrittenAdmitsNextDay(startDate: int, endDate: int)
    requires startDate <= endDate
    ensures InListWindowAsWritten(endDate + 1, startDate, endDate)
    ensures !InListWindow(endDate + 1, startDate, endDate)
  {
  }

  /** The window as written holds the requested days and the day after the end date. */
  lemma {:induction false} WindowAsWrittenDays(day: int, startDate: int, endDate: int)
    ensures InListWindowAsWritten(day, startDate, endDate) <==> startDate <= day <= endDate + 1
  {
    NanosOrder(AtStartOfDay(startDate), AtStartOfDay(day));
    NanosOrder(AtStartOfDay(day), AtStartOfDay(endDate + 1));
  }

  /** The corrected window holds exactly the days from the start date to the end date. */
  lemma {:induction false} ListWindowIsRequestedDays(day: int, startDate: int, endDate: int)
    ensures InListWindow(day, startDate, endDate) <==> startDate <= day <= endDate
  {
    NanosOrder(AtStartOfDay(startDate), AtStartOfDay(day));
    NanosOrder(AtStartOfDay(day), AtStartOfDay(endDate + 1));
  }

  /** A date filter of the list query: the consulting days it selects. */
  type DayWindow = int -> bool

  /** The query's filter as written. */
  function AsWrittenWindow(startDate: int, endDate: int): DayWindow {
    day => InListWindowAsWritten(day, startDate, endDate)
  }

  /** The filter the code means. */
  function IntendedWindow(startDate: int, endDate: int): DayWindow {
    day => InListWindow(day, startDate, endDate)
  }

  /** The rows inside the window, in their given order. */
  function WindowRows(rows: seq<ConsultingClassification>, inWindow: DayWindow): (r: seq<ConsultingClassification>)
    ensures forall i :: 0 <= i < |r| ==> r[i] in rows && inWindow(r[i].consultingDate)
    ensures forall x :: x in rows && inWindow(x.consultingDate) ==> x in r
    ensures |r| <= |rows|
  {
    if |rows| == 0 then []
    else
      var rest := WindowRows(rows[1..], inWindow);
      if inWindow(rows[0].consultingDate) then [rows[0]] + rest else rest
  }

  /** The selection is the order-preserving filter: selecting from two runs of rows is
      selecting from each in turn, and a single row is kept exactly when its day is in the
      window. */
  lemma {:induction false} WindowRowsAppend(x: seq<ConsultingClassification>, y: seq<ConsultingClassification>, inWindow: DayWindow)
    ensures WindowRows(x + y, inWindow) == WindowRows(x, inWindow) + WindowRows(y, inWindow)
    ensures |x| == 1 ==> WindowRows(x, inWindow) == if inWindow(x[0].consultingDate) then x else []
  {
    if |x| == 0 {
      assert x + y == y;
    } else {
      assert (x + y)[0] == x[0];
      assert (x + y)[1..] == x[1..] + y;
      WindowRowsAppend(x[1..], y, inWindow);
      if |x| == 1 {
        assert x[1..] == [];
      }
    }
  }

  /** stream().map(convertToVocListItem): the first failing row fails the whole list. */
  function ConvertAll(rows: seq<ConsultingClassification>): (r: Result<seq<VocListItem>, string>)
    ensures r.Success? <==> forall i :: 0 <= i < |rows| ==> rows[i].clientAge.Some?
    ensures r.Success? ==> |r.value| == |rows|
    ensures r.Success? ==> forall i :: 0 <= i < |rows| ==> ConvertToVocListItem(rows[i]) == Success(r.value[i])
  {
    if |rows| == 0 then Success([])
    else
      var item :- ConvertToVocListItem(rows[0]);
      var rest :- ConvertAll(rows[1..]);
      assert forall i :: 1 <= i < |rows| ==> rows[i] == rows[1..][i - 1];
      Success([item] + rest)
  }

  /** The rows of a page: `size` rows from `offset` on, fewer at the end. */
  function PageOf(rows: seq<ConsultingClassification>, offset: nat, size: nat): (r: seq<ConsultingClassification>)
    ensures |r| == Min(size, if offset <= |rows| then |rows| - offset else 0)
    ensures forall i :: 0 <= i < |r| ==> r[i] == rows[offset + i]
  {
    if offset >= |rows| then [] else rows[offset..Min(offset + size, |rows|)]
  }

  /** The row offset of the requested page, `index * size`, computed exactly. */
  function Offset(request: VocListRequest): int {
    PageIndex(request.page) as int * request.size as int
  }

  /** Stands in for the message of the exception the JPA query raises when the offset does
      not fit the `int` first-result position. */
  const OFFSET_MESSAGE: string := "Offset exceeds the int range of the first result"

  /** Stands in for the message of the DateTimeException that `plusDays(1)` raises on the
      last representable date. */
  const DATE_MESSAGE: string := "Invalid value for EpochDay: the day after LocalDate.MAX"

  /** The request gets past the window bound and PageRequest.of, and its offset fits an `int`. */
  predicate ListRequestAccepted(request: VocListRequest) {
    request.endDate < MAX_EPOCH_DAY && PageIndex(request.page) >= 0 && request.size >= 1 &&
    Offset(request) <= 0x7fff_ffff
  }

  /** The rows of the page the request names, or none when PageRequest.of rejects it. */
  function PageRows(request: VocListRequest, selected: seq<ConsultingClassification>): (r: seq<ConsultingClassification>)
    ensures forall i :: 0 <= i < |r| ==> r[i] in selected
  {
    var index := PageIndex(request.page);
    if index < 0 || request.size < 1 then []
    else PageOf(selected, index as int * request.size as int, request.size as int)
  }

  /** getVocList over a given date filter: `rows` are the stored records in descending
      consulting-date order. PageRequest.of rejects a negative page index and a size below
      one; the response echoes page and size and counts every row in the window. */
  function GetVocListWithin(request: VocListRequest, rows: seq<ConsultingClassification>, inWindow: DayWindow)
    : (r: Result<VocListResponse, string>)
    ensures request.endDate >= MAX_EPOCH_DAY ==> r == Failure(DATE_MESSAGE)
    ensures request.endDate < MAX_EPOCH_DAY && PageIndex(request.page) < 0 ==> r == Failure(PAGE_INDEX_MESSAGE)
    ensures request.endDate < MAX_EPOCH_DAY && PageIndex(request.page) >= 0 && request.size < 1 ==>
      r == Failure(PAGE_SIZE_MESSAGE)
    ensures request.endDate < MAX_EPOCH_DAY && PageIndex(request.page) >= 0 && request.size >= 1 ==>
      (Offset(request) > 0x7fff_ffff ==> r == Failure(OFFSET_MESSAGE))
    ensures r.Success? ==> ListRequestAccepted(request)
    ensures r.Success? ==>
      r.value.totalCount == |WindowRows(rows, inWindow)| &&
      r.value.page == request.page && r.value.size == request.size
    ensures r.Success? ==> ConvertAll(PageRows(request, WindowRows(rows, inWindow))) == Success(r.value.data)
    ensures ListRequestAccepted(request) ==> (r.Success? <==> forall x :: x in PageRows(request, WindowRows(rows, inWindow)) ==> x.clientAge.Some?)
  {
    if request.endDate >= MAX_EPOCH_DAY then Failure(DATE_MESSAGE)
    else if PageIndex(request.page) < 0 then Failure(PAGE_INDEX_MESSAGE)
    else if request.size < 1 then Failure(PAGE_SIZE_MESSAGE)
    else if Offset(request) > 0x7fff_ffff then Failure(OFFSET_MESSAGE)
    else
      var selected := WindowRows(rows, inWindow);
      var content := PageRows(request, selected);
      var vocList :- ConvertAll(content);
      Success(VocListResponse(vocList, |selected|, request.page, request.size))
  }

  /** A listed record is the conversion of the page row at its position, and that row's day
      is in the window. */
  lemma ListedRecordsInWindow(request: VocListRequest, rows: seq<ConsultingClassification>, inWindow: DayWindow)
    requires GetVocListWithin(request, rows, inWindow).Success?
    ensures var data := GetVocListWithin(request, rows, inWindow).value.data;
      var content := PageRows(request, WindowRows(rows, inWindow));
      |data| == |content| &&
      forall i :: 0 <= i < |data| ==>
        ConvertToVocListItem(content[i]) == Success(data[i]) && inWindow(data[i].consultingDate)
  {
    var data := GetVocListWithin(request, rows, inWindow).value.data;
    var selected := WindowRows(rows, inWindow);
    var content := PageRows(request, selected);
    assert ConvertAll(content) == Success(data);
    forall i | 0 <= i < |data|
      ensures ConvertToVocListItem(content[i]) == Success(data[i]) && inWindow(data[i].consultingDate)
    {
      assert ConvertToVocListItem(content[i]) == Success(data[i]);
      assert data[i].consultingDate == content[i].consultingDate;
      assert content[i] in selected;
    }
  }

  /** getVocList as written: every listed record is dated from the start date to the day
      after the end date, and the total counts the rows of that span. */
  function GetVocList(request: VocListRequest, rows: seq<ConsultingClassification>): (r: Result<VocListResponse, string>)
    ensures r.Success? ==> forall i :: 0 <= i < |r.value.data| ==>
      request.startDate <= r.value.data[i].consultingDate <= request.endDate + 1
    ensures r.Success? ==> r.value.totalCount == |WindowRows(rows, AsWrittenWindow(request.startDate, request.endDate))|
  {
    var result := GetVocListWithin(request, rows, AsWrittenWindow(request.startDate, request.endDate));
    if result.Failure? then result
    else
      ListedRecordsInWindow(request, rows, AsWrittenWindow(request.startDate, request.endDate));
      assert forall i :: 0 <= i < |result.value.data| ==>
        request.startDate <= result.value.data[i].consultingDate <= request.endDate + 1 by {
        forall i | 0 <= i < |result.value.data|
          ensures request.startDate <= result.value.data[i].consultingDate <= request.endDate + 1
        {
          WindowAsWrittenDays(result.value.data[i].consultingDate, request.startDate, request.endDate);
        }
      }
      result
  }

  /** getVocList with the window the code means: every listed record is dated within the
      requested days, and the total counts the rows of those days. */
  function GetVocListIntended(request: VocListRequest, rows: seq<ConsultingClassification>): (r: Result<VocListResponse, string>)
    ensures r.Success? ==> forall i :: 0 <= i < |r.value.data| ==>
      request.startDate <= r.value.data[i].consultingDate <= request.endDate
    ensures r.Success? ==> r.value.totalCount == |WindowRows(rows, IntendedWindow(request.startDate, request.endDate))|
  {
    var result := GetVocListWithin(request, rows, IntendedWindow(request.startDate, request.endDate));
    if result.Failure? then result
    else
      ListedRecordsInWindow(request, rows, IntendedWindow(request.startDate, request.endDate));
      assert forall i :: 0 <= i < |result.value.data| ==>
        request.startDate <= result.value.data[i].consultingDate <= request.endDate by {
        forall i | 0 <= i < |result.value.data|
          ensures request.startDate <= result.value.data[i].consultingDate <= request.endDate
        {
          ListWindowIsRequestedDays(result.value.data[i].consultingDate, request.startDate, request.endDate);
        }
      }
      result
  }

  /** A request for days 1 to 30 and one stored row dated day 31: the query as written lists
      and counts that row, the intended window does not. */
  lemma ListAsWrittenIncludesNextDay(row: ConsultingClassification)
    requires row.consultingDate == 31 && row.clientAge.Some?
    ensures var request := VocListRequest(1, 30, 1, 10);
      GetVocList(request, [row]).Success? && GetVocList(request, [row]).value.totalCount == 1 &&
      |GetVocList(request, [row]).value.data| == 1 &&
      GetVocListIntended(request, [row]) == Success(VocListResponse([], 0, 1, 10))
  {
    WindowAsWrittenAdmitsNextDay(1, 30);
    WindowRowsAppend([row], [], AsWrittenWindow(1, 30));
    WindowRowsAppend([row], [], IntendedWindow(1, 30));
  }

  /** The smallest `int` page is not rejected as negative: its index wraps around to the
      largest one. With size one the offset still fits an `int` and the page past every row
      is empty; any larger size overflows the offset and the query fails. */
  lemma SmallestPageWrapsAround(request: VocListRequest, rows: seq<ConsultingClassification>)
    requires request.page == -0x8000_0000 && request.size >= 1
    requires |rows| < 0x7fff_ffff
    ensures PageIndex(request.page) == 0x7fff_ffff
    ensures request.endDate < MAX_EPOCH_DAY && request.size == 1 ==>
      GetVocList(request, rows).Success? && GetVocList(request, rows).value.data == []
    ensures request.endDate < MAX_EPOCH_DAY && request.size >= 2 ==> GetVocList(request, rows) == Failure(OFFSET_MESSAGE)
    ensures request.endDate >= MAX_EPOCH_DAY ==> GetVocList(request, rows) == Failure(DATE_MESSAGE)
  {
  }

  /** A request ending on LocalDate.MAX fails before any paging: the day after it does not
      exist, so the window's upper bound cannot be formed. */
  lemma LastDateFails(request: VocListRequest, rows: seq<ConsultingClassification>)
    requires request.endDate == MAX_EPOCH_DAY
    ensures GetVocList(request, rows) == Failure(DATE_MESSAGE)
    ensures GetVocListIntended(request, rows) == Failure(DATE_MESSAGE)
  {
  }

  /** Page 214750 at the default size 10000 starts past the `int` range, so the query fails
      rather than returning an empty page. */
  lemma FarPageFails(rows: seq<ConsultingClassification>)
    ensures GetVocList(VocListRequest(1, 30, 214750, 10000), rows) == Failure(OFFSET_MESSAGE)
  {
  }
}
