/** Handling of deposit events (`processDepositEvent`) and of the batch a
    poll returns, one event after the other. */
module Relay {
  import opened Deposits
  import opened Admission
  import opened Settlement

  /** One log entry returned by the event query. `Delivery` is a decoded
      event together with what the destination chain answers if a settlement
      for it is submitted (consulted only when the event is admitted).
      `Undecodable` is a log the query could not decode into arguments: both
      the handler and its error path read `event.args`, so the error escapes
      the handler. */
  datatype Delivery = Delivery(event: DepositEvent, response: Submission) | Undecodable

  /** One settlement call made to the destination chain, with the arguments
      it carries (the recipient is the depositor), and how it ended. */
  datatype Call<Id> = Call(id: Id, recipient: Address, amount: nat, sourceChainId: ChainId, sourceToken: Address, outcome: Outcome)

  /** The tracker after handling some events, the settlement calls made,
      and whether an error escaped the handler (which ends the loop). */
  datatype Handled<Id> = Handled(tracker: Tracker<Id>, calls: seq<Call<Id>>, escaped: bool)

  /** The identifiers whose settlement returned normally. */
  function CompletedIds<Id>(calls: seq<Call<Id>>): set<Id> {
    set c | c in calls && c.outcome.Returned? :: c.id
  }

  /** The completed identifiers of two runs of calls, one after the other,
      are those of each run together. */
  lemma CompletedIdsConcat<Id>(a: seq<Call<Id>>, b: seq<Call<Id>>)
    ensures CompletedIds(a + b) == CompletedIds(a) + CompletedIds(b)
  {
  }

  /** One deposit event: derive its identifier, ask admission, and if
      admitted settle it; a normal return completes the identifier, a thrown
      error releases the identifier recomputed from `args[0]`, `args[2]`.
      Settlement errors never escape; only an undecodable log does, before
      anything has changed. */
  function ProcessDepositEvent<Id>(hash: Preimage -> Id, chainId: ChainId, t: Tracker<Id>, d: Delivery): (r: Handled<Id>)
    ensures r.escaped <==> d.Undecodable?
    ensures d.Undecodable? ==> r.tracker == t && r.calls == []
    ensures d.Delivery? ==> var id := DepositId(hash, chainId, d.event);
      && (r.calls == [] <==> id in t.processed || id in t.processing)
      && (r.calls == [] ==> r.tracker == t)
      && (r.calls != [] ==> |r.calls| == 1 && r.calls[0].id == id && r.calls[0].outcome == Settle(d.response))
      && (r.calls != [] ==> r.calls[0].recipient == d.event.args.sender && r.calls[0].amount == d.event.args.amount)
      && (r.calls != [] ==> r.calls[0].sourceChainId == chainId && r.calls[0].sourceToken == d.event.args.token)
      && (r.calls != [] && r.calls[0].outcome.Returned? ==> id in r.tracker.processed && id !in r.tracker.processing)
      && (r.calls != [] && r.calls[0].outcome.Threw? ==> id !in r.tracker.processed && id !in r.tracker.processing)
    ensures r.tracker.processing == t.processing
    ensures r.tracker.processed == t.processed + CompletedIds(r.calls)
    ensures t.Valid() ==> r.tracker.Valid()
  {
    match d
    case Undecodable => Handled(t, [], true)
    case Delivery(event, response) =>
      var id := DepositId(hash, chainId, event);
      var (verdict, admitted) := Admit(t, id);
      if verdict != Admitted then Handled(t, [], false)
      else
        match Settle(response)
        case Returned => Handled(Complete(admitted, id), [Call(id, event.args.sender, event.args.amount, chainId, event.args.token, Returned)], false)
        case Threw(error) =>
          var released := hash(ReleasePreimage(chainId, event));
          Handled(Release(admitted, released), [Call(id, event.args.sender, event.args.amount, chainId, event.args.token, Threw(error))], false)
  }

  /** Reference definition of the sequential loop over a batch: events are
      handled in order, each against the tracker the previous one left, and
      an escaped error ends the loop, keeping what earlier events did. */
  function ProcessBatch<Id>(hash: Preimage -> Id, chainId: ChainId, t: Tracker<Id>, ds: seq<Delivery>): Handled<Id>
    decreases |ds|
  {
    if ds == [] then Handled(t, [], false)
    else
      var before := ProcessBatch(hash, chainId, t, ds[..|ds| - 1]);
      if before.escaped then before
      else
        var last := ProcessDepositEvent(hash, chainId, before.tracker, ds[|ds| - 1]);
        Handled(last.tracker, before.calls + last.calls, last.escaped)
  }

  /** Once an error has escaped, later events change nothing. */
  lemma {:induction false} EscapeIsFinal<Id>(hash: Preimage -> Id, chainId: ChainId, t: Tracker<Id>, ds: seq<Delivery>, k: nat)
    requires k <= |ds| && ProcessBatch(hash, chainId, t, ds[..k]).escaped
    ensures ProcessBatch(hash, chainId, t, ds) == ProcessBatch(hash, chainId, t, ds[..k])
    decreases |ds| - k
  {
    if k < |ds| {
      var ds' := ds[..k + 1];
      assert ds'[..|ds'| - 1] == ds[..k];
      EscapeIsFinal(hash, chainId, t, ds, k + 1);
    } else {
      assert ds[..k] == ds;
    }
  }

  /** The loop escapes exactly when the batch holds an undecodable log. */
  lemma {:induction false} EscapesIffUndecodable<Id>(hash: Preimage -> Id, chainId: ChainId, t: Tracker<Id>, ds: seq<Delivery>)
    ensures ProcessBatch(hash, chainId, t, ds).escaped <==> Undecodable in ds
    decreases |ds|
  {
    if ds != [] {
      EscapesIffUndecodable(hash, chainId, t, ds[..|ds| - 1]);
      assert ds == ds[..|ds| - 1] + [ds[|ds| - 1]];
    }
  }

  /** The `for ... of` loop of the poll, awaiting each event in turn. */
  method HandleEvents<Id>(hash: Preimage -> Id, chainId: ChainId, t: Tracker<Id>, ds: seq<Delivery>) returns (r: Handled<Id>)
    ensures r == ProcessBatch(hash, chainId, t, ds)
  {
    var tracker := t;
    var calls: seq<Call<Id>> := [];
    var i := 0;
    while i < |ds|
      invariant 0 <= i <= |ds|
      invariant Handled(tracker, calls, false) == ProcessBatch(hash, chainId, t, ds[..i])
    {
      assert ds[..i + 1][..i] == ds[..i];
      var step := ProcessDepositEvent(hash, chainId, tracker, ds[i]);
      tracker := step.tracker;
      calls := calls + step.calls;
      i := i + 1;
      if step.escaped {
        r := Handled(tracker, calls, true);
        EscapeIsFinal(hash, chainId, t, ds, i);
        return;
      }
    }
    assert ds[..i] == ds;
    r := Handled(tracker, calls, false);
  }

  /** Over a whole batch: the in-flight set ends as it began (every
      admission was completed or released), completed identifiers are kept
      and joined by exactly those whose settlement returned, and the two
      sets stay disjoint. */
  lemma {:induction false} BatchEffect<Id>(hash: Preimage -> Id, chainId: ChainId, t: Tracker<Id>, ds: seq<Delivery>)
    ensures ProcessBatch(hash, chainId, t, ds).tracker.processing == t.processing
    ensures ProcessBatch(hash, chainId, t, ds).tracker.processed == t.processed + CompletedIds(ProcessBatch(hash, chainId, t, ds).calls)
    ensures t.Valid() ==> ProcessBatch(hash, chainId, t, ds).tracker.Valid()
    decreases |ds|
  {
    if ds != [] {
      var before := ProcessBatch(hash, chainId, t, ds[..|ds| - 1]);
      BatchEffect(hash, chainId, t, ds[..|ds| - 1]);
      var last := ProcessDepositEvent(hash, chainId, before.tracker, ds[|ds| - 1]);
      CompletedIdsConcat(before.calls, last.calls);
    }
  }

  /** No call in a batch settles an identifier that was completed or in
      flight when the batch began, and an identifier whose settlement
      returned is never submitted again later in the batch. */
  lemma {:induction false} BatchNeverResubmits<Id>(hash: Preimage -> Id, chainId: ChainId, t: Tracker<Id>, ds: seq<Delivery>)
    ensures var calls := ProcessBatch(hash, chainId, t, ds).calls;
      && (forall i :: 0 <= i < |calls| ==> calls[i].id !in t.processed && calls[i].id !in t.processing)
      && (forall i, j :: 0 <= i < j < |calls| && calls[i].outcome.Returned? ==> calls[j].id != calls[i].id)
    decreases |ds|
  {
    if ds != [] {
      var before := ProcessBatch(hash, chainId, t, ds[..|ds| - 1]);
      BatchNeverResubmits(hash, chainId, t, ds[..|ds| - 1]);
      BatchEffect(hash, chainId, t, ds[..|ds| - 1]);
      var last := ProcessDepositEvent(hash, chainId, before.tracker, ds[|ds| - 1]);
      var calls := before.calls + last.calls;
      forall i, j | 0 <= i < j < |calls| && calls[i].outcome.Returned?
        ensures calls[j].id != calls[i].id
      {
        if j >= |before.calls| {
          assert calls[i] in before.calls;
          assert calls[i].id in before.tracker.processed;
        }
      }
    }
  }

  /** A deposit whose settlement threw is admitted and submitted again when
      an event with the same identifier is seen later. */
  lemma FailedDepositIsRetried<Id>(hash: Preimage -> Id, chainId: ChainId, t: Tracker<Id>, d: Delivery, again: Delivery)
    requires d.Delivery? && again.Delivery?
    requires ProcessDepositEvent(hash, chainId, t, d).calls != []
    requires ProcessDepositEvent(hash, chainId, t, d).calls[0].outcome.Threw?
    requires DepositId(hash, chainId, again.event) == DepositId(hash, chainId, d.event)
    ensures ProcessDepositEvent(hash, chainId, ProcessDepositEvent(hash, chainId, t, d).tracker, again).calls != []
  {
  }

  /** A deposit whose settlement returned is never submitted again. */
  lemma CompletedDepositNotResubmitted<Id>(hash: Preimage -> Id, chainId: ChainId, t: Tracker<Id>, d: Delivery, again: Delivery)
    requires d.Delivery? && again.Delivery?
    requires ProcessDepositEvent(hash, chainId, t, d).calls != []
    requires ProcessDepositEvent(hash, chainId, t, d).calls[0].outcome.Returned?
    requires DepositId(hash, chainId, again.event) == DepositId(hash, chainId, d.event)
    ensures ProcessDepositEvent(hash, chainId, ProcessDepositEvent(hash, chainId, t, d).tracker, again).calls == []
  {
  }
}
