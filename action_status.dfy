/** The processing status shared by every action entity, and its three status groups. */
module ActionStatus {

  datatype ActionStatusType = Unprocessed | Processing | Processed | Cancelled | Error

  /** Statuses from which nothing further happens. */
  const FinishTypes: seq<ActionStatusType> := [Processed, Cancelled]
  /** Statuses that are still open and not being worked on. */
  const UnprocessingTypes: seq<ActionStatusType> := [Unprocessed, Error]
  /** Statuses that are still open. */
  const UnprocessedTypes: seq<ActionStatusType> := [Unprocessed, Processing, Error]

  predicate IsFinish(s: ActionStatusType)
    ensures IsFinish(s) <==> s == Processed || s == Cancelled
  {
    s in FinishTypes
  }

  predicate IsUnprocessing(s: ActionStatusType)
    ensures IsUnprocessing(s) <==> s == Unprocessed || s == Error
  {
    s in UnprocessingTypes
  }

  predicate IsUnprocessed(s: ActionStatusType)
    ensures IsUnprocessed(s) <==> s == Unprocessed || s == Processing || s == Error
  {
    s in UnprocessedTypes
  }

  /** Every status is either finished or unprocessed, never both. */
  lemma FinishPartition(s: ActionStatusType)
    ensures IsFinish(s) <==> !IsUnprocessed(s)
  {
  }

  /** The unprocessing group lies inside the unprocessed group. */
  lemma UnprocessingWithinUnprocessed(s: ActionStatusType)
    ensures IsUnprocessing(s) ==> IsUnprocessed(s)
  {
  }

  /** PROCESSING is the one status that is unprocessed but not unprocessing. */
  lemma ProcessingOnlyUnprocessed(s: ActionStatusType)
    ensures IsUnprocessed(s) && !IsUnprocessing(s) <==> s == Processing
  {
  }
}
