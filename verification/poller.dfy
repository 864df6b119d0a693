/** One poll of one source chain (`pollChainForEvents`): choose the block
    range from the chain head and the stored cursor, fetch the deposit events
    in it, handle them in order and advance the cursor. The head query and the
    event query are inputs. */
module Poller {
  import opened Deposits
  import opened Admission
  import opened Settlement
  import opened Relay

  /** Most blocks behind the head a poll reaches back. */
  const Lookback: int := 100

  /** Blocks behind the head a chain without a cursor starts from. */
  const InitialLag: int := 10

  /** Answer to the head query. */
  datatype HeadReply = Head(block: nat) | HeadFailed(message: string)

  /** Answer to the event query over the computed range. */
  datatype LogsReply = Logs(deliveries: seq<Delivery>) | LogsFailed(message: string)

  /** Process-wide state: one cursor per chain (last block fully scanned)
      and the admission sets. Nothing of it survives a restart. */
  datatype RelayState<Id> = RelayState(cursors: map<ChainId, nat>, tracker: Tracker<Id>)

  /** How a poll ended: an error from the head or event query was caught,
      the head had not moved past the cursor, an error escaped the event loop
      while handling `[fromBlock, toBlock]`, or that range was scanned. */
  datatype PollOutcome =
    | Aborted(message: string)
    | UpToDate
    | LoopFailed(fromBlock: int, toBlock: nat)
    | Scanned(fromBlock: int, toBlock: nat)

  datatype PollResult<Id> = PollResult(state: RelayState<Id>, outcome: PollOutcome, calls: seq<Call<Id>>)

  /** First block of the scan. The cursor is read with `||`, so a stored 0
      counts as missing and a missing cursor stands for `head - InitialLag`;
      the scan then starts just past that point, but never more than
      `Lookback` blocks behind the head. */
  function ScanStart(cursors: map<ChainId, nat>, chainId: ChainId, head: nat): (start: int)
    ensures chainId in cursors && cursors[chainId] != 0 ==>
      && start > cursors[chainId]
      && start >= head - Lookback
      && (start == cursors[chainId] + 1 || start == head - Lookback)
    ensures chainId !in cursors || cursors[chainId] == 0 ==> start == head - InitialLag + 1
  {
    var last := if chainId in cursors && cursors[chainId] != 0 then cursors[chainId] else head - InitialLag;
    if last + 1 >= head - Lookback then last + 1 else head - Lookback
  }

  /** One poll of one chain. A caught query error leaves the whole state as
      it was; otherwise, when the range is not empty, the events are handled
      in order and the cursor becomes the head, even if settlements threw
      (those were caught per event). An error escaping the event loop skips
      the cursor update but keeps what the earlier events did. Other chains'
      cursors never change. */
  function Poll<Id>(hash: Preimage -> Id, s: RelayState<Id>, chainId: ChainId, head: HeadReply, logs: LogsReply): (r: PollResult<Id>)
    ensures head.HeadFailed? ==> r.state == s && r.outcome == Aborted(head.message) && r.calls == []
    ensures head.Head? ==>
      var from := ScanStart(s.cursors, chainId, head.block);
      && (from > head.block ==> r.state == s && r.outcome == UpToDate && r.calls == [])
      && (from <= head.block && logs.LogsFailed? ==> r.state == s && r.outcome == Aborted(logs.message) && r.calls == [])
      && (from <= head.block && logs.Logs? ==>
            var batch := ProcessBatch(hash, chainId, s.tracker, logs.deliveries);
            && r.calls == batch.calls
            && (!batch.escaped ==> r.outcome == Scanned(from, head.block)
                                   && r.state == RelayState(s.cursors[chainId := head.block], batch.tracker))
            && (batch.escaped ==> r.outcome == LoopFailed(from, head.block)
                                  && r.state == RelayState(s.cursors, batch.tracker)))
    ensures r.state.cursors - {chainId} == s.cursors - {chainId}
    ensures s.cursors.Keys <= r.state.cursors.Keys
    ensures forall c :: c in s.cursors ==> r.state.cursors[c] >= s.cursors[c]
    ensures r.outcome.Scanned? || r.outcome.LoopFailed? ==>
      && r.outcome.fromBlock <= r.outcome.toBlock
      && r.outcome.fromBlock >= r.outcome.toBlock - Lookback
      && (chainId in s.cursors && s.cursors[chainId] != 0 ==> r.outcome.fromBlock > s.cursors[chainId])
  {
    match head
    case HeadFailed(message) => PollResult(s, Aborted(message), [])
    case Head(current) =>
      var from := ScanStart(s.cursors, chainId, current);
      if from > current then PollResult(s, UpToDate, [])
      else
        match logs
        case LogsFailed(message) => PollResult(s, Aborted(message), [])
        case Logs(deliveries) =>
          var batch := ProcessBatch(hash, chainId, s.tracker, deliveries);
          if batch.escaped then PollResult(RelayState(s.cursors, batch.tracker), LoopFailed(from, current), batch.calls)
          else PollResult(RelayState(s.cursors[chainId := current], batch.tracker), Scanned(from, current), batch.calls)
  }

  /** The admission sets across one poll: nothing is left in flight, the
      completed set only grows, by exactly the identifiers whose settlement
      returned, and no call settles an identifier that was already completed
      or in flight, or one completed earlier in the same poll. */
  lemma PollTrackerEffect<Id>(hash: Preimage -> Id, s: RelayState<Id>, chainId: ChainId, head: HeadReply, logs: LogsReply)
    ensures var r := Poll(hash, s, chainId, head, logs);
      && r.state.tracker.processing == s.tracker.processing
      && r.state.tracker.processed == s.tracker.processed + CompletedIds(r.calls)
      && (s.tracker.Valid() ==> r.state.tracker.Valid())
      && (forall i :: 0 <= i < |r.calls| ==> r.calls[i].id !in s.tracker.processed && r.calls[i].id !in s.tracker.processing)
      && (forall i, j :: 0 <= i < j < |r.calls| && r.calls[i].outcome.Returned? ==> r.calls[j].id != r.calls[i].id)
  {
    if logs.Logs? {
      BatchEffect(hash, chainId, s.tracker, logs.deliveries);
      BatchNeverResubmits(hash, chainId, s.tracker, logs.deliveries);
    }
  }

  /** The cursor is left unchanged exactly when the poll does not complete a
      scan: a failed head or event query, an empty range, or an undecodable
      log in the batch. */
  lemma CursorKeptUnlessScanned<Id>(hash: Preimage -> Id, s: RelayState<Id>, chainId: ChainId, head: HeadReply, logs: LogsReply)
    requires head.Head? && logs.Logs?
    requires ScanStart(s.cursors, chainId, head.block) <= head.block
    ensures var r := Poll(hash, s, chainId, head, logs);
      r.outcome.Scanned? <==> Undecodable !in logs.deliveries
  {
    EscapesIffUndecodable(hash, chainId, s.tracker, logs.deliveries);
  }

  /** With a non-zero stored cursor, blocks are skipped between two polls
      only when the lookback clamps the range: the scan starts right after
      the cursor, or else exactly `Lookback` blocks behind the head, past the
      cursor. A stored 0 does not have this property (see
      `ZeroCursorCountsAsMissing`). */
  lemma NoGapUnlessClamped<Id>(hash: Preimage -> Id, s: RelayState<Id>, chainId: ChainId, head: HeadReply, logs: LogsReply)
    requires chainId in s.cursors && s.cursors[chainId] != 0
    requires Poll(hash, s, chainId, head, logs).outcome.Scanned?
    ensures var o := Poll(hash, s, chainId, head, logs).outcome;
      o.fromBlock == s.cursors[chainId] + 1 ||
      (o.fromBlock == o.toBlock - Lookback && o.fromBlock > s.cursors[chainId] + 1)
  {
  }

  /** A scan always ends at the head it was computed from, and the cursor
      becomes that head: whenever a chain's cursor changes, it increases. */
  lemma CursorAdvancesToHead<Id>(hash: Preimage -> Id, s: RelayState<Id>, chainId: ChainId, head: HeadReply, logs: LogsReply)
    ensures var r := Poll(hash, s, chainId, head, logs);
      && (r.outcome.Scanned? ==> head.Head? && r.outcome.toBlock == head.block && r.state.cursors[chainId] == head.block)
      && (!r.outcome.Scanned? ==> r.state.cursors == s.cursors)
      && (chainId in s.cursors && r.state.cursors[chainId] != s.cursors[chainId] ==> r.state.cursors[chainId] > s.cursors[chainId])
  {
  }

  /** A stored cursor of 0 (the head was 0 when it was stored) counts as
      missing, so the scan starts 9 blocks behind the head: with head 1000
      it covers [991, 1000], and blocks 1 to 990 are never read, although
      they lie past the cursor and within the lookback. */
  lemma ZeroCursorCountsAsMissing<Id>(hash: Preimage -> Id, t: Tracker<Id>, chainId: ChainId, ds: seq<Delivery>)
    requires Undecodable !in ds
    ensures var r := Poll(hash, RelayState(map[chainId := 0], t), chainId, Head(1000), Logs(ds));
      && r.outcome == Scanned(991, 1000)
      && r.outcome.fromBlock != 1
      && r.outcome.fromBlock != r.outcome.toBlock - Lookback
      && r.state.cursors[chainId] == 1000
  {
    CursorKeptUnlessScanned(hash, RelayState(map[chainId := 0], t), chainId, Head(1000), Logs(ds));
  }

  /** Cursor at block 90, head at 105: the range [91, 105] is scanned and the
      cursor moves to 105. */
  lemma ScenarioCursorBehindHead<Id>(hash: Preimage -> Id, t: Tracker<Id>, chainId: ChainId, ds: seq<Delivery>)
    requires Undecodable !in ds
    ensures var r := Poll(hash, RelayState(map[chainId := 90], t), chainId, Head(105), Logs(ds));
      r.outcome == Scanned(91, 105) && r.state.cursors[chainId] == 105
  {
    CursorKeptUnlessScanned(hash, RelayState(map[chainId := 90], t), chainId, Head(105), Logs(ds));
  }

  /** Cursor at block 5, head at 1000: the lookback clamps the range to
      [900, 1000]; blocks 6 to 899 are never queried. */
  lemma ScenarioLookbackClamp<Id>(hash: Preimage -> Id, t: Tracker<Id>, chainId: ChainId, ds: seq<Delivery>)
    requires Undecodable !in ds
    ensures Poll(hash, RelayState(map[chainId := 5], t), chainId, Head(1000), Logs(ds)).outcome == Scanned(900, 1000)
  {
    CursorKeptUnlessScanned(hash, RelayState(map[chainId := 5], t), chainId, Head(1000), Logs(ds));
  }

  /** A new deposit seen in the scanned range is settled exactly once, with
      its own identifier, depositor, amount, source chain and token. */
  lemma ScenarioNewDepositSettled<Id>(hash: Preimage -> Id, t: Tracker<Id>, chainId: ChainId, e: DepositEvent, response: Submission)
    requires DepositId(hash, chainId, e) !in t.processed && DepositId(hash, chainId, e) !in t.processing
    ensures var r := Poll(hash, RelayState(map[chainId := 90], t), chainId, Head(105), Logs([Delivery(e, response)]));
      && r.outcome == Scanned(91, 105)
      && r.calls == [Call(DepositId(hash, chainId, e), e.args.sender, e.args.amount, chainId, e.args.token, Settle(response))]
  {
    var ds := [Delivery(e, response)];
    assert ds[..|ds| - 1] == [];
    assert ProcessBatch(hash, chainId, t, ds[..|ds| - 1]) == Handled(t, [], false);
    var last := ProcessDepositEvent(hash, chainId, t, ds[0]);
    assert last.calls != [];
    assert ProcessBatch(hash, chainId, t, ds) == Handled(last.tracker, last.calls, false);
  }

  /** One poll of one chain with the answers its queries get. */
  datatype Tick = Tick(chainId: ChainId, head: HeadReply, logs: LogsReply)

  /** Reference definition of a sequence of polls, one after the other, and
      all the settlement calls they make in order. */
  function Run<Id>(hash: Preimage -> Id, s: RelayState<Id>, ticks: seq<Tick>): (RelayState<Id>, seq<Call<Id>>)
    decreases |ticks|
  {
    if ticks == [] then (s, [])
    else
      var before := Run(hash, s, ticks[..|ticks| - 1]);
      var tick := ticks[|ticks| - 1];
      var r := Poll(hash, before.0, tick.chainId, tick.head, tick.logs);
      (r.state, before.1 + r.calls)
  }

  /** Across any sequence of polls: no chain loses its cursor and no cursor
      decreases; the admission sets stay disjoint, nothing is left in flight,
      completed identifiers are kept; no call settles an identifier completed
      or in flight at the start, and an identifier whose settlement returned
      is never submitted again. */
  lemma {:induction false} RunInvariants<Id>(hash: Preimage -> Id, s: RelayState<Id>, ticks: seq<Tick>)
    ensures var (e, calls) := Run(hash, s, ticks);
      && s.cursors.Keys <= e.cursors.Keys
      && (forall c :: c in s.cursors ==> e.cursors[c] >= s.cursors[c])
      && (s.tracker.Valid() ==> e.tracker.Valid())
      && e.tracker.processing == s.tracker.processing
      && e.tracker.processed == s.tracker.processed + CompletedIds(calls)
      && (forall i :: 0 <= i < |calls| ==> calls[i].id !in s.tracker.processed && calls[i].id !in s.tracker.processing)
      && (forall i, j :: 0 <= i < j < |calls| && calls[i].outcome.Returned? ==> calls[j].id != calls[i].id)
    decreases |ticks|
  {
    if ticks != [] {
      var before := Run(hash, s, ticks[..|ticks| - 1]);
      RunInvariants(hash, s, ticks[..|ticks| - 1]);
      var tick := ticks[|ticks| - 1];
      var r := Poll(hash, before.0, tick.chainId, tick.head, tick.logs);
      PollTrackerEffect(hash, before.0, tick.chainId, tick.head, tick.logs);
      var calls := before.1 + r.calls;
      CompletedIdsConcat(before.1, r.calls);
      forall i | 0 <= i < |calls|
        ensures calls[i].id !in s.tracker.processed && calls[i].id !in s.tracker.processing
      {
        if i >= |before.1| {
          assert calls[i] == r.calls[i - |before.1|];
        }
      }
      forall i, j | 0 <= i < j < |calls| && calls[i].outcome.Returned?
        ensures calls[j].id != calls[i].id
      {
        if j >= |before.1| {
          assert calls[j] == r.calls[j - |before.1|];
          if i < |before.1| {
            assert calls[i] in before.1;
            assert calls[i].id in before.0.tracker.processed;
          } else {
            assert calls[i] == r.calls[i - |before.1|];
          }
        }
      }
    }
  }
}
