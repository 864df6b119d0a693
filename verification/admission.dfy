/** The in-memory admission control of the relayer: the `processedDeposits`
    and `processingDeposits` sets that gate every settlement submission. */
module Admission {

  /** Answer of the admission check for one identifier. */
  datatype Verdict = Admitted | AlreadyCompleted | AlreadyInFlight

  /** `processed`: identifiers whose settlement returned normally.
      `processing`: identifiers with a settlement in flight. */
  datatype Tracker<Id> = Tracker(processed: set<Id>, processing: set<Id>) {
    /** No identifier is both completed and in flight. */
    ghost predicate Valid() {
      processed !! processing
    }
  }

  /** The check made before any submission: an identifier already in either
      set is turned away; otherwise it is admitted and marked in flight. */
  function Admit<Id>(t: Tracker<Id>, id: Id): (r: (Verdict, Tracker<Id>))
    ensures r.0 == Admitted <==> id !in t.processed && id !in t.processing
    ensures r.0 == AlreadyCompleted <==> id in t.processed
    ensures r.0 != Admitted ==> r.1 == t
    ensures r.0 == Admitted ==> r.1.processed == t.processed && r.1.processing == t.processing + {id}
    ensures t.Valid() ==> r.1.Valid()
  {
    if id in t.processed then (AlreadyCompleted, t)
    else if id in t.processing then (AlreadyInFlight, t)
    else (Admitted, t.(processing := t.processing + {id}))
  }

  /** Settlement returned normally: the identifier moves from in flight to
      completed. */
  function Complete<Id>(t: Tracker<Id>, id: Id): (r: Tracker<Id>)
    ensures id in r.processed && id !in r.processing
    ensures r.processed - {id} == t.processed - {id}
    ensures r.processing == t.processing - {id}
    ensures t.Valid() ==> r.Valid()
  {
    Tracker(t.processed + {id}, t.processing - {id})
  }

  /** Settlement threw: the identifier leaves the in-flight set and is not
      recorded as completed. */
  function Release<Id>(t: Tracker<Id>, id: Id): (r: Tracker<Id>)
    ensures id !in r.processing
    ensures r.processed == t.processed
    ensures r.processing == t.processing - {id}
    ensures t.Valid() ==> r.Valid()
  {
    t.(processing := t.processing - {id})
  }

  /** At most one submission in flight per identifier: once admitted, the
      same identifier is turned away until it is completed or released. */
  lemma NoDoubleAdmission<Id>(t: Tracker<Id>, id: Id)
    requires Admit(t, id).0 == Admitted
    ensures Admit(Admit(t, id).1, id).0 == AlreadyInFlight
  {
  }

  /** A completed identifier is never admitted again. */
  lemma CompletedNeverReadmitted<Id>(t: Tracker<Id>, id: Id)
    ensures Admit(Complete(t, id), id).0 == AlreadyCompleted
  {
  }

  /** A released identifier that was not completed is admitted again. */
  lemma ReleasedIsEligibleAgain<Id>(t: Tracker<Id>, id: Id)
    requires id !in t.processed
    ensures Admit(Release(t, id), id).0 == Admitted
  {
  }
}
