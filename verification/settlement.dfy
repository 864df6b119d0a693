/** Settlement on the destination chain (`processBridgeOnQIE`): the
    submission itself is network I/O and is an input here; what remains is
    how its answer is classified into a normal return or a rethrown error. */
module Settlement {
  import opened Strings

  /** A rejection whose message contains this marker means the same
      transaction is already pending on the destination chain. */
  const MempoolMarker: string := "tx already in mempool"

  /** A rejection whose message contains this marker means the destination
      bridge has already credited this deposit. */
  const ProcessedMarker: string := "already processed"

  /** What the destination chain answered to the submission and the
      confirmation wait: the transaction was mined, or an error was raised
      with the given message (at submission or while waiting). */
  datatype Submission = Confirmed | Rejected(message: string)

  /** How settlement ends for its caller: a normal return, or a thrown error
      carrying the message of the destination chain's rejection. */
  datatype Outcome = Returned | Threw(error: string)

  /** Idempotent conflict: the effect already happened or is already pending. */
  ghost predicate IsIdempotentConflict(message: string) {
    Contains(message, MempoolMarker) || Contains(message, ProcessedMarker)
  }

  /** Settlement returns normally exactly when the transaction was confirmed
      or the rejection is an idempotent conflict; every other rejection is
      rethrown unchanged. */
  function Settle(s: Submission): (o: Outcome)
    ensures o.Returned? <==> (s.Confirmed? || IsIdempotentConflict(s.message))
    ensures o.Threw? ==> s.Rejected? && o.error == s.message
  {
    match s
    case Confirmed => Returned
    case Rejected(message) =>
      if Includes(message, MempoolMarker) then Returned
      else if Includes(message, ProcessedMarker) then Returned
      else Threw(message)
  }

  /** Any message that embeds either marker, wherever it sits in the text,
      is absorbed as a normal return. */
  lemma MarkerAnywhereIsAbsorbed(pre: string, post: string)
    ensures Settle(Rejected(pre + MempoolMarker + post)) == Returned
    ensures Settle(Rejected(pre + ProcessedMarker + post)) == Returned
  {
    EmbeddedIsContained(pre, MempoolMarker, post);
    EmbeddedIsContained(pre, ProcessedMarker, post);
  }

  /** A rejection that mentions neither marker reaches the caller as the same
      error. */
  lemma OtherRejectionsRethrown(message: string)
    requires !IsIdempotentConflict(message)
    ensures Settle(Rejected(message)) == Threw(message)
  {
  }
}
