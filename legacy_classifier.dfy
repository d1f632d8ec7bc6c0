/** The single-label classifier: it asks the model for one category name and maps the
    free-text reply onto the fixed category table in three tiers (exact, partial,
    default), each with its own confidence. */
module LegacyClassifier {
  import opened Wrappers
  import opened JavaStrings
  import opened ConsultingCategories

  const EXACT_CONFIDENCE: real := 0.95
  const PARTIAL_CONFIDENCE: real := 0.8
  const DEFAULT_CONFIDENCE: real := 0.6

  /** The character class of the clean-up regex: double and single quote. */
  const QUOTES: set<char> := {'"', '\''}

  datatype ClassificationResult = ClassificationResult(category: string, confidence: real)

  datatype ClassifierError =
    | MissingApiKey        // constructor guard
    | EmptyResponse        // the model answered null or blank text
    | ModelCallFailed(message: string)

  /** The configured service; its fields are final. */
  datatype OpenAIService = OpenAIService(apiKey: string, model: string, maxTokens: int, temperature: real)

  /** The constructor: a null or blank API key is rejected before anything else. */
  function NewOpenAIService(apiKey: Option<string>, model: string, maxTokens: int, temperature: real)
    : (r: Result<OpenAIService, ClassifierError>)
    ensures r.Failure? <==> apiKey.None? || IsBlank(apiKey.value)
    ensures r.Failure? ==> r.error == MissingApiKey
    ensures r.Success? ==> r.value == OpenAIService(apiKey.value, model, maxTokens, temperature)
  {
    if apiKey.None? || IsBlank(apiKey.value) then Failure(MissingApiKey)
    else Success(OpenAIService(apiKey.value, model, maxTokens, temperature))
  }

  /** Trim, then delete every quote character. */
  function CleanResponse(response: string): (r: string)
    ensures forall k :: 0 <= k < |r| ==> r[k] != '"' && r[k] != '\''
    ensures forall c :: multiset(r)[c] == if c in QUOTES then 0 else multiset(Trim(response))[c]
    ensures (forall k :: 0 <= k < |Trim(response)| ==> Trim(response)[k] !in QUOTES) ==> r == Trim(response)
  {
    RemoveChars(Trim(response), QUOTES)
  }

  /** A reply padded with blanks cleans to its core with the quotes taken out, in order. */
  lemma CleanPaddedReply(pre: string, core: string, post: string)
    requires forall k :: 0 <= k < |pre| ==> IsTrimmable(pre[k])
    requires forall k :: 0 <= k < |post| ==> IsTrimmable(post[k])
    requires core == [] || (!IsTrimmable(core[0]) && !IsTrimmable(core[|core| - 1]))
    ensures CleanResponse(pre + core + post) == RemoveChars(core, QUOTES)
  {
    TrimOfPadded(pre, core, post);
  }

  /** A category name the model wrapped in double quotes and blanks cleans to the bare name. */
  lemma CleanQuotedName(pre: string, name: string, post: string)
    requires forall k :: 0 <= k < |pre| ==> IsTrimmable(pre[k])
    requires forall k :: 0 <= k < |post| ==> IsTrimmable(post[k])
    requires forall k :: 0 <= k < |name| ==> name[k] !in QUOTES
    ensures CleanResponse(pre + ['"'] + name + ['"'] + post) == name
  {
    var core := ['"'] + name + ['"'];
    assert pre + ['"'] + name + ['"'] + post == pre + core + post;
    CleanPaddedReply(pre, core, post);
    RemoveCharsWrapped('"', name, QUOTES);
  }

  /** The partial-match test: containment in either direction. */
  predicate PartialMatch(clean: string, category: string) {
    Contains(clean, category) || Contains(category, clean)
  }

  /** The search loop of extractCategory: position of the first partially matching entry. */
  function FirstPartialIndex(clean: string, categories: seq<string>): (r: Option<nat>)
    ensures r.Some? ==> r.value < |categories| && PartialMatch(clean, categories[r.value])
    ensures forall k :: 0 <= k < |categories| && (r.None? || k < r.value) ==> !PartialMatch(clean, categories[k])
  {
    if |categories| == 0 then None
    else if PartialMatch(clean, categories[0]) then Some(0)
    else
      match FirstPartialIndex(clean, categories[1..])
      case None => None
      case Some(i) => Some(i + 1)
  }

  /** The stream anyMatch of calculateConfidence, defined on its own. */
  function AnyPartialMatch(clean: string, categories: seq<string>): (b: bool)
    ensures b <==> exists k :: 0 <= k < |categories| && PartialMatch(clean, categories[k])
  {
    if |categories| == 0 then false
    else PartialMatch(clean, categories[0]) || AnyPartialMatch(clean, categories[1..])
  }

  /** extractCategory: exact match, else first partial match in table order, else the default. */
  function ExtractCategory(response: string): (category: string)
    ensures IsValidCategory(category)
  {
    var clean := CleanResponse(response);
    if IsValidCategory(clean) then clean
    else
      match FirstPartialIndex(clean, CATEGORIES)
      case Some(i) => CATEGORIES[i]
      case None => DEFAULT_CATEGORY
  }

  /** calculateConfidence: the same three tiers, scored 0.95, 0.8 and 0.6. */
  function CalculateConfidence(response: string): (c: real)
    ensures c == EXACT_CONFIDENCE || c == PARTIAL_CONFIDENCE || c == DEFAULT_CONFIDENCE
  {
    var clean := CleanResponse(response);
    if IsValidCategory(clean) then EXACT_CONFIDENCE
    else if AnyPartialMatch(clean, CATEGORIES) then PARTIAL_CONFIDENCE
    else DEFAULT_CONFIDENCE
  }

  /** The confidence always names the tier that produced the category. */
  lemma ConfidenceMatchesTier(response: string)
    ensures var clean := CleanResponse(response);
      && (CalculateConfidence(response) == EXACT_CONFIDENCE <==> IsValidCategory(clean))
      && (CalculateConfidence(response) == EXACT_CONFIDENCE ==> ExtractCategory(response) == clean)
      && (CalculateConfidence(response) == PARTIAL_CONFIDENCE ==>
            exists i :: 0 <= i < |CATEGORIES| && ExtractCategory(response) == CATEGORIES[i]
              && PartialMatch(clean, CATEGORIES[i])
              && forall k :: 0 <= k < i ==> !PartialMatch(clean, CATEGORIES[k]))
      && (CalculateConfidence(response) == DEFAULT_CONFIDENCE <==>
            !IsValidCategory(clean) && forall k :: 0 <= k < |CATEGORIES| ==> !PartialMatch(clean, CATEGORIES[k]))
      && (CalculateConfidence(response) == DEFAULT_CONFIDENCE ==> ExtractCategory(response) == DEFAULT_CATEGORY)
  {
    var clean := CleanResponse(response);
    if !IsValidCategory(clean) {
      match FirstPartialIndex(clean, CATEGORIES)
      case Some(i) =>
        assert AnyPartialMatch(clean, CATEGORIES);
        assert ExtractCategory(response) == CATEGORIES[i];
      case None =>
        assert !AnyPartialMatch(clean, CATEGORIES);
    }
  }

  /** Every table entry has at least four characters. */
  lemma NamesAreLong()
    ensures forall i :: 0 <= i < |CATEGORIES| ==> |CATEGORIES[i]| >= 4
  {
  }

  lemma ShortNamesAreInvalid(s: string)
    requires |s| < 4
    ensures !IsValidCategory(s)
  {
    NamesAreLong();
  }

  /** "한도" is partially contained in both "한도상향 접수/처리" and "한도 안내"; the earlier
      entry in the table wins. */
  lemma PartialMatchTakesTableOrder()
    ensures ExtractCategory("한도") == "한도상향 접수/처리"
    ensures CalculateConfidence("한도") == PARTIAL_CONFIDENCE
  {
    var h: string :| h == "한도";
    HandoFacts(h);
    FirstPartialIndexIs(h, CATEGORIES, 3);
  }

  lemma FirstPartialIndexIs(clean: string, categories: seq<string>, i: nat)
    requires i < |categories| && PartialMatch(clean, categories[i])
    requires forall k :: 0 <= k < i ==> !PartialMatch(clean, categories[k])
    ensures FirstPartialIndex(clean, categories) == Some(i)
  {
  }

  lemma HandoFacts(h: string)
    requires h == "한도"
    ensures CleanResponse(h) == h && !IsValidCategory(h)
    ensures PartialMatch(h, CATEGORIES[3])
    ensures forall k :: 0 <= k < 3 ==> !PartialMatch(h, CATEGORIES[k])
  {
    assert CleanResponse(h) == h by { assert Trim(h) == h; }
    ShortNamesAreInvalid(h);
    HandoInFourthEntry(h);
    HandoNotInFirstThree(h);
  }

  lemma HandoInFourthEntry(h: string)
    requires h == "한도"
    ensures PartialMatch(h, CATEGORIES[3])
  {
    assert OccursAt(CATEGORIES[3], h, 0);
  }

  lemma HandoNotInFirstThree(h: string)
    requires h == "한도"
    ensures forall k :: 0 <= k < 3 ==> !PartialMatch(h, CATEGORIES[k])
  {
    NamesAreLong();
    forall k | 0 <= k < 3 ensures !PartialMatch(h, CATEGORIES[k]) {
      var c := CATEGORIES[k];
      assert !Contains(h, c);
      assert forall i :: 0 <= i < |c| ==> c[i] != '한';
      forall i | 0 <= i < |c| - 1 ensures !OccursAt(c, h, i) {
        assert c[i..i + 2][0] == c[i];
      }
    }
  }

  /** A reply made only of quote characters cleans to the empty text, which every name
      contains: the first table entry is chosen with partial confidence. */
  lemma QuotesOnlyReplyPicksFirstEntry(reply: string)
    requires forall k :: 0 <= k < |reply| ==> reply[k] in QUOTES
    ensures CleanResponse(reply) == []
    ensures ExtractCategory(reply) == CATEGORIES[0]
    ensures CalculateConfidence(reply) == PARTIAL_CONFIDENCE
  {
    QuotesCleanToNothing(reply);
    EmptyTextPicksFirstEntry();
    var clean := CleanResponse(reply);
    assert !IsValidCategory(clean) && FirstPartialIndex(clean, CATEGORIES) == Some(0);
  }

  lemma QuotesCleanToNothing(reply: string)
    requires forall k :: 0 <= k < |reply| ==> reply[k] in QUOTES
    ensures CleanResponse(reply) == []
  {
    assert Trim(reply) == reply;
    RemovingEveryCharLeavesNothing(reply, QUOTES);
  }

  lemma EmptyTextPicksFirstEntry()
    ensures FirstPartialIndex([], CATEGORIES) == Some(0)
    ensures !IsValidCategory([]) && AnyPartialMatch([], CATEGORIES)
  {
    ShortNamesAreInvalid([]);
    assert OccursAt(CATEGORIES[0], [], 0);
    FirstPartialIndexIs([], CATEGORIES, 0);
  }

  lemma {:induction false} RemovingEveryCharLeavesNothing(s: string, cs: set<char>)
    requires forall k :: 0 <= k < |s| ==> s[k] in cs
    ensures RemoveChars(s, cs) == []
  {
    if |s| > 0 {
      RemovingEveryCharLeavesNothing(s[1..], cs);
    }
  }

  /** classifyConsultingContent after the model call: `reply` is what the chat completion
      returned (a null message is None, a transport failure carries its message). */
  function ClassifyConsultingContent(reply: Result<Option<string>, string>)
    : (r: Result<ClassificationResult, ClassifierError>)
    ensures r.Success? <==> reply.Success? && reply.value.Some? && !IsBlank(reply.value.value)
    ensures reply.Success? && (reply.value.None? || IsBlank(reply.value.value)) ==> r == Failure(EmptyResponse)
    ensures r.Success? ==> IsValidCategory(r.value.category)
    ensures r.Success? ==>
      r.value.category == ExtractCategory(reply.value.value) && r.value.confidence == CalculateConfidence(reply.value.value)
  {
    match reply
    case Failure(message) => Failure(ModelCallFailed(message))
    case Success(None) => Failure(EmptyResponse)
    case Success(Some(text)) =>
      if IsBlank(text) then Failure(EmptyResponse)
      else Success(ClassificationResult(ExtractCategory(text), CalculateConfidence(text)))
  }
}
