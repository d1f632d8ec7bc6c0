/** The two stored record kinds: a raw consulting transcript awaiting classification,
    and a normalized (classified) consultation. */
module Entities {
  import opened Wrappers
  import opened Time

  /** A row of voc_raw. */
  datatype VocRaw = VocRaw(
    id: int,
    sourceId: string,
    consultingDate: DateTime,
    clientGender: string,
    clientAge: int,
    consultingTurns: int,
    consultingLength: int,
    consultingContent: string,
    processed: bool,
    processedAt: Option<DateTime>)

  /** A row of voc_normalized. The consulting date is a day number; the columns the
      store may leave null are options. */
  datatype ConsultingClassification = ConsultingClassification(
    id: int,
    sourceId: string,
    consultingContent: string,
    consultingDate: int,
    clientGender: Option<string>,
    clientAge: Option<string>,
    consultingCategory: Option<string>,
    analysisResult: Option<string>,
    createdAt: DateTime)
}
