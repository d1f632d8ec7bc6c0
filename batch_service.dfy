/** The batch coordinator: classify a bounded page of unprocessed raw transcripts one by
    one, flag each success as processed, count failures without stopping, and report a
    summary; plus clearing the normalized store and the status counters. */
module BatchService {
  import opened Wrappers
  import opened Time
  import opened Entities
  import opened EnhancedService

  const ERROR_PREFIX: string := "배치 처리 중 오류가 발생했습니다: "
  const CLEAR_ERROR_PREFIX: string := "테이블 초기화 중 오류가 발생했습니다: "
  /** The message PageRequest.of gives for a page size below one. */
  const PAGE_SIZE_MESSAGE: string := "Page size must not be less than one"

  /** The result map of processVocBatch. */
  datatype BatchSummary =
    | NothingToProcess                  // "처리할 데이터가 없습니다.", zero counts and time
    | Completed(processedCount: nat, errorCount: nat, processingTime: int, processingTimeSeconds: real)
    | BatchError(message: string)       // the "error" entry

  datatype ClearSummary =
    | Cleared(deletedCount: nat)
    | ClearError(message: string)

  datatype BatchStatus = BatchStatus(
    totalRawCount: nat,
    unprocessedCount: nat,
    processedCount: nat,
    normalizedCount: nat,
    processingProgress: real)

  /** convertToClassificationRequest: the source id, the content and the calendar day of
      the consulting date. */
  function ConvertToClassificationRequest(raw: VocRaw): (request: ClassificationRequest)
    ensures request.sourceId == raw.sourceId && request.consultingContent == raw.consultingContent
    ensures request.consultingDate == ToLocalDate(raw.consultingDate)
  {
    ClassificationRequest(raw.sourceId, raw.consultingContent, ToLocalDate(raw.consultingDate))
  }

  /** The classification pipeline the batch calls for each record
      (processAndSaveConsultingContent, which is EnhancedService.ProcessSpec with the
      collaborators and clock of the run). */
  type Pipeline = ClassificationRequest -> Result<EnhancedClassificationResponse, PipelineError>

  /** Whether the pipeline accepts the request built from a record. */
  predicate Classifies(raw: VocRaw, pipeline: Pipeline) {
    pipeline(ConvertToClassificationRequest(raw)).Success?
  }

  /** The indices, in table order, of the unprocessed records from `from` on. */
  function UnprocessedFrom(raw: seq<VocRaw>, from: nat): (ix: seq<nat>)
    requires from <= |raw|
    decreases |raw| - from
    ensures forall j :: 0 <= j < |ix| ==> from <= ix[j] < |raw| && !raw[ix[j]].processed
    ensures forall j, k :: 0 <= j < k < |ix| ==> ix[j] < ix[k]
    ensures forall k :: from <= k < |raw| && !raw[k].processed ==> k in ix
  {
    if from == |raw| then []
    else if raw[from].processed then UnprocessedFrom(raw, from + 1)
    else [from] + UnprocessedFrom(raw, from + 1)
  }

  /** findByProcessedFalse(PageRequest.of(0, batchSize)): the first `batchSize`
      unprocessed records, by index. */
  function UnprocessedPage(raw: seq<VocRaw>, batchSize: nat): (page: seq<nat>)
    ensures |page| <= batchSize
    ensures forall j :: 0 <= j < |page| ==> page[j] < |raw| && !raw[page[j]].processed
    ensures forall j, k :: 0 <= j < k < |page| ==> page[j] < page[k]
    ensures |page| < batchSize ==> forall k :: 0 <= k < |raw| && !raw[k].processed ==> k in page
    ensures |page| <= |UnprocessedFrom(raw, 0)| && page == UnprocessedFrom(raw, 0)[..|page|]
  {
    var all := UnprocessedFrom(raw, 0);
    if |all| <= batchSize then all else all[..batchSize]
  }

  /** The summary of a run over a fetched page: an empty page is reported as such;
      otherwise the classified records and the failures are counted and add up to the
      page size, with the measured time in milliseconds and in seconds. */
  function PageSummary(raw: seq<VocRaw>, page: seq<nat>, pipeline: Pipeline, elapsedMillis: int): (s: BatchSummary)
    requires forall j :: 0 <= j < |page| ==> page[j] < |raw|
    ensures |page| == 0 <==> s == NothingToProcess
    ensures s.Completed? <==> |page| > 0
    ensures s.Completed? ==>
      s.processedCount == CountClassified(raw, page, pipeline) &&
      s.processedCount + s.errorCount == |page| &&
      s.processingTime == elapsedMillis && s.processingTimeSeconds == elapsedMillis as real / 1000.0
  {
    if |page| == 0 then NothingToProcess
    else
      var processed := CountClassified(raw, page, pipeline);
      Completed(processed, |page| - processed, elapsedMillis, elapsedMillis as real / 1000.0)
  }

  /** setProcessed(true) and setProcessedAt(now). */
  function MarkProcessed(raw: VocRaw, now: DateTime): (r: VocRaw)
    ensures r.processed && r.processedAt == Some(now)
    ensures r.(processed := raw.processed, processedAt := raw.processedAt) == raw
  {
    raw.(processed := true, processedAt := Some(now))
  }

  /** The raw table after the loop, given the page: the records of the page whose
      classification succeeds are marked, everything else is as before. */
  function AfterBatch(raw: seq<VocRaw>, page: seq<nat>, pipeline: Pipeline, now: DateTime): (r: seq<VocRaw>)
    ensures |r| == |raw|
  {
    seq(|raw|, k requires 0 <= k < |raw| =>
      if k in page && Classifies(raw[k], pipeline) then MarkProcessed(raw[k], now) else raw[k])
  }

  /** How many records of the page classify. */
  function CountClassified(raw: seq<VocRaw>, page: seq<nat>, pipeline: Pipeline): (n: nat)
    requires forall j :: 0 <= j < |page| ==> page[j] < |raw|
    ensures n <= |page|
  {
    if |page| == 0 then 0
    else
      var last := if Classifies(raw[page[|page| - 1]], pipeline) then 1 else 0;
      CountClassified(raw, page[..|page| - 1], pipeline) + last
  }

  /** The progress formula of getBatchStatus. */
  function Progress(processed: nat, total: nat): (p: real)
    ensures total > 0 ==> p * total as real == processed as real * 100.0
    ensures total == 0 ==> p == 0.0
    ensures processed <= total ==> 0.0 <= p <= 100.0
  {
    if total > 0 then processed as real / total as real * 100.0 else 0.0
  }

  function CountUnprocessed(raw: seq<VocRaw>): (n: nat)
    ensures n <= |raw|
  {
    if |raw| == 0 then 0 else CountUnprocessed(raw[..|raw| - 1]) + (if raw[|raw| - 1].processed then 0 else 1)
  }

  function CountProcessed(raw: seq<VocRaw>): (n: nat)
    ensures n <= |raw|
  {
    if |raw| == 0 then 0 else CountProcessed(raw[..|raw| - 1]) + (if raw[|raw| - 1].processed then 1 else 0)
  }

  /** Every record is either processed or not, so the two counts add up to the total. */
  lemma {:induction false} CountsPartition(raw: seq<VocRaw>)
    ensures CountUnprocessed(raw) + CountProcessed(raw) == |raw|
  {
    if |raw| > 0 {
      CountsPartition(raw[..|raw| - 1]);
    }
  }

  /** The counters of getBatchStatus (the recently processed rows are not modelled). */
  function GetBatchStatus(raw: seq<VocRaw>, normalized: seq<ConsultingClassification>): (s: BatchStatus)
    ensures s.totalRawCount == |raw| && s.normalizedCount == |normalized|
    ensures s.unprocessedCount + s.processedCount == s.totalRawCount
    ensures 0.0 <= s.processingProgress <= 100.0
    ensures s.processingProgress == Progress(s.processedCount, s.totalRawCount)
  {
    CountsPartition(raw);
    BatchStatus(|raw|, CountUnprocessed(raw), CountProcessed(raw), |normalized|,
      Progress(CountProcessed(raw), |raw|))
  }

  lemma {:induction false} CountClassifiedStep(raw: seq<VocRaw>, page: seq<nat>, i: nat, pipeline: Pipeline)
    requires forall j :: 0 <= j < |page| ==> page[j] < |raw|
    requires i < |page|
    ensures CountClassified(raw, page[..i + 1], pipeline) ==
      CountClassified(raw, page[..i], pipeline) + (if Classifies(raw[page[i]], pipeline) then 1 else 0)
  {
    assert page[..i + 1][..i] == page[..i];
  }

  /** No page, no change. */
  lemma AfterEmptyPage(raw: seq<VocRaw>, pipeline: Pipeline, now: DateTime)
    ensures AfterBatch(raw, [], pipeline, now) == raw
  {
  }

  /** One more page record: the table after the longer prefix is the table after the
      shorter one, with that record marked when it classifies. */
  lemma {:induction false} AfterBatchStep(raw: seq<VocRaw>, page: seq<nat>, i: nat, pipeline: Pipeline, now: DateTime)
    requires forall j :: 0 <= j < |page| ==> page[j] < |raw|
    requires forall j, k :: 0 <= j < k < |page| ==> page[j] < page[k]
    requires i < |page|
    ensures AfterBatch(raw, page[..i], pipeline, now)[page[i]] == raw[page[i]]
    ensures AfterBatch(raw, page[..i + 1], pipeline, now) ==
      if Classifies(raw[page[i]], pipeline)
      then AfterBatch(raw, page[..i], pipeline, now)[page[i] := MarkProcessed(raw[page[i]], now)]
      else AfterBatch(raw, page[..i], pipeline, now)
  {
    var before := AfterBatch(raw, page[..i], pipeline, now);
    var after := AfterBatch(raw, page[..i + 1], pipeline, now);
    assert page[i] !in page[..i] by {
      forall j | 0 <= j < i ensures page[..i][j] != page[i] {
        assert page[..i][j] == page[j];
      }
    }
    forall k | 0 <= k < |raw|
      ensures k in page[..i + 1] <==> k in page[..i] || k == page[i]
    {
      assert page[..i + 1] == page[..i] + [page[i]];
    }
  }

  /** What one run does to a record: a page record that classifies is processed at
      `now`; a page record that fails keeps its unprocessed state; a record outside
      the page is untouched. */
  lemma BatchEffect(raw: seq<VocRaw>, batchSize: nat, pipeline: Pipeline, now: DateTime, k: nat)
    requires k < |raw|
    ensures var page := UnprocessedPage(raw, batchSize);
      var after := AfterBatch(raw, page, pipeline, now);
      (k in page && Classifies(raw[k], pipeline) ==> after[k].processed && after[k].processedAt == Some(now)) &&
      (k in page && !Classifies(raw[k], pipeline) ==> after[k] == raw[k] && !after[k].processed) &&
      (k !in page ==> after[k] == raw[k])
  {
  }

  /** A record that fails stays eligible: the next run's unprocessed set still holds it. */
  lemma {:induction false} FailedRecordIsRetried(raw: seq<VocRaw>, batchSize: nat, pipeline: Pipeline, now: DateTime, k: nat)
    requires k < |raw|
    requires k in UnprocessedPage(raw, batchSize) && !Classifies(raw[k], pipeline)
    ensures k in UnprocessedFrom(AfterBatch(raw, UnprocessedPage(raw, batchSize), pipeline, now), 0)
  {
    var page := UnprocessedPage(raw, batchSize);
    var j :| 0 <= j < |page| && page[j] == k;
    assert !raw[k].processed;
    assert AfterBatch(raw, page, pipeline, now)[k] == raw[k];
  }

  /** When the page holds every unprocessed record and each of them classifies, a
      second run finds nothing to process. */
  lemma {:induction false} SecondRunFindsNothing(raw: seq<VocRaw>, batchSize: nat, pipeline: Pipeline, now: DateTime, nextSize: nat)
    requires |UnprocessedFrom(raw, 0)| <= batchSize
    requires forall k :: 0 <= k < |raw| && !raw[k].processed ==> Classifies(raw[k], pipeline)
    ensures UnprocessedPage(AfterBatch(raw, UnprocessedPage(raw, batchSize), pipeline, now), nextSize) == []
  {
    var page := UnprocessedPage(raw, batchSize);
    var after := AfterBatch(raw, page, pipeline, now);
    assert page == UnprocessedFrom(raw, 0);
    forall k | 0 <= k < |after|
      ensures after[k].processed
    {
      if !raw[k].processed {
        assert k in page;
      }
    }
    NothingUnprocessed(after, 0);
  }

  lemma {:induction false} NothingUnprocessed(raw: seq<VocRaw>, from: nat)
    requires from <= |raw|
    requires forall k :: 0 <= k < |raw| ==> raw[k].processed
    decreases |raw| - from
    ensures UnprocessedFrom(raw, from) == []
  {
    if from < |raw| {
      NothingUnprocessed(raw, from + 1);
    }
  }

  class VocBatchService {
    /** voc_raw, in table order. */
    var vocRaw: seq<VocRaw>
    /** voc_normalized. */
    var normalized: seq<ConsultingClassification>

    constructor (raw: seq<VocRaw>, stored: seq<ConsultingClassification>)
      ensures vocRaw == raw && normalized == stored
    {
      vocRaw := raw;
      normalized := stored;
    }

    /** processVocBatch. `fetchFailure` is the exception of the page query, if any;
        `now` is the processed-at time and `elapsedMillis` the measured duration. */
    method ProcessVocBatch(batchSize: int, fetchFailure: Option<string>, pipeline: Pipeline,
                           now: DateTime, elapsedMillis: int) returns (summary: BatchSummary)
      modifies this
      ensures normalized == old(normalized)
      ensures batchSize < 1 ==> summary == BatchError(ERROR_PREFIX + PAGE_SIZE_MESSAGE) && vocRaw == old(vocRaw)
      ensures batchSize >= 1 && fetchFailure.Some? ==>
        summary == BatchError(ERROR_PREFIX + fetchFailure.value) && vocRaw == old(vocRaw)
      ensures batchSize >= 1 && fetchFailure.None? ==>
        vocRaw == AfterBatch(old(vocRaw), UnprocessedPage(old(vocRaw), batchSize), pipeline, now)
      ensures batchSize >= 1 && fetchFailure.None? ==>
        summary == PageSummary(old(vocRaw), UnprocessedPage(old(vocRaw), batchSize), pipeline, elapsedMillis)
    {
      if batchSize < 1 {
        return BatchError(ERROR_PREFIX + PAGE_SIZE_MESSAGE);
      }
      if fetchFailure.Some? {
        return BatchError(ERROR_PREFIX + fetchFailure.value);
      }
      var unprocessedData := UnprocessedPage(vocRaw, batchSize);
      summary := RunBatch(unprocessedData, pipeline, now, elapsedMillis);
    }

    /** The body of processVocBatch once the page is fetched: an empty page is reported as
        such; otherwise the page is processed and the counters and the time reported. */
    method RunBatch(page: seq<nat>, pipeline: Pipeline, now: DateTime, elapsedMillis: int) returns (summary: BatchSummary)
      requires forall j :: 0 <= j < |page| ==> page[j] < |vocRaw|
      requires forall j, k :: 0 <= j < k < |page| ==> page[j] < page[k]
      modifies this
      ensures normalized == old(normalized)
      ensures vocRaw == AfterBatch(old(vocRaw), page, pipeline, now)
      ensures summary == PageSummary(old(vocRaw), page, pipeline, elapsedMillis)
    {
      if |page| == 0 {
        AfterEmptyPage(vocRaw, pipeline, now);
        return NothingToProcess;
      }
      var processedCount, errorCount := ProcessPage(page, pipeline, now);
      var processingTime := elapsedMillis;
      summary := Completed(processedCount, errorCount, processingTime, processingTime as real / 1000.0);
    }

    /** The loop of processVocBatch: each record of the page is classified; a success
        marks it, a failure is counted and the loop goes on. */
    method ProcessPage(page: seq<nat>, pipeline: Pipeline, now: DateTime)
      returns (processedCount: nat, errorCount: nat)
      requires forall j :: 0 <= j < |page| ==> page[j] < |vocRaw|
      requires forall j, k :: 0 <= j < k < |page| ==> page[j] < page[k]
      modifies this
      ensures normalized == old(normalized)
      ensures vocRaw == AfterBatch(old(vocRaw), page, pipeline, now)
      ensures processedCount == CountClassified(old(vocRaw), page, pipeline)
      ensures processedCount + errorCount == |page|
    {
      ghost var raw0 := vocRaw;
      processedCount, errorCount := 0, 0;
      AfterEmptyPage(raw0, pipeline, now);
      assert page[..0] == [];
      for i := 0 to |page|
        invariant vocRaw == AfterBatch(raw0, page[..i], pipeline, now)
        invariant processedCount == CountClassified(raw0, page[..i], pipeline)
        invariant processedCount + errorCount == i
        invariant normalized == old(normalized)
      {
        var idx := page[i];
        AfterBatchStep(raw0, page, i, pipeline, now);
        CountClassifiedStep(raw0, page, i, pipeline);
        var rawData := vocRaw[idx];
        var response := pipeline(ConvertToClassificationRequest(rawData));
        if response.Success? {
          vocRaw := vocRaw[idx := MarkProcessed(rawData, now)];
          processedCount := processedCount + 1;
        } else {
          errorCount := errorCount + 1;
        }
      }
      assert page[..|page|] == page;
    }

    /** clearNormalizedData: reports how many rows there were and empties the store; on a
        storage failure nothing is deleted. */
    method ClearNormalizedData(storageFailure: Option<string>) returns (summary: ClearSummary)
      modifies this
      ensures vocRaw == old(vocRaw)
      ensures storageFailure.None? ==> summary == Cleared(|old(normalized)|) && normalized == []
      ensures storageFailure.Some? ==>
        summary == ClearError(CLEAR_ERROR_PREFIX + storageFailure.value) && normalized == old(normalized)
    {
      if storageFailure.Some? {
        return ClearError(CLEAR_ERROR_PREFIX + storageFailure.value);
      }
      var count := |normalized|;
      normalized := [];
      summary := Cleared(count);
    }
  }
}
