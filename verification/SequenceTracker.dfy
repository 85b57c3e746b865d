/** Per-stream sequence classification (src/integrity/sequenceTracker.ts). */
module SequenceTracking {
  import opened Values

  datatype Channel = OrderbookDelta | TickerChannel | Trade | Fill | Lifecycle | UserOrders | MarketPositions

  /** Channels whose messages carry a per-subscription sequence number. */
  predicate IsSequenced(c: Channel) {
    c == OrderbookDelta || c == Trade || c == Fill || c == Lifecycle
  }

  datatype Verdict = Ok | First | Duplicate | OutOfOrder | Gap | Unsequenced | WhileDegraded

  datatype SequenceResult = SequenceResult(
    verdict: Verdict, expected: Option<int>, received: Option<int>, missing: Option<int>)

  datatype StreamSeq = StreamSeq(
    channel: Channel,
    firstSeq: Option<int>,
    lastSeq: Option<int>,
    gapCount: nat,
    duplicateCount: nat,
    outOfOrderCount: nat,
    messageCount: nat,
    degraded: bool,
    skippedWhileDegraded: nat)

  type Streams = map<StreamId, StreamSeq>

  function NewStream(channel: Channel): StreamSeq {
    StreamSeq(channel, None, None, 0, 0, 0, 0, false, 0)
  }

  function Registered(streams: Streams, id: StreamId, channel: Channel): Streams {
    if id in streams then streams else streams[id := NewStream(channel)]
  }

  /** Classifies a sequence number on a stream. */
  function Classify(s: StreamSeq, received: int): SequenceResult {
    if s.degraded then
      SequenceResult(WhileDegraded, if s.lastSeq.Some? then Some(s.lastSeq.value + 1) else None, Some(received), None)
    else if s.lastSeq.None? then SequenceResult(First, None, Some(received), None)
    else
      var expected := s.lastSeq.value + 1;
      if received == expected then SequenceResult(Ok, Some(expected), Some(received), None)
      else if received == s.lastSeq.value then SequenceResult(Duplicate, Some(expected), Some(received), None)
      else if received < s.lastSeq.value then SequenceResult(OutOfOrder, Some(expected), Some(received), None)
      else SequenceResult(Gap, Some(expected), Some(received), Some(received - expected))
  }

  /** The stream's bookkeeping after classifying a number. */
  function Advanced(s: StreamSeq, received: int): StreamSeq {
    var t := s.(messageCount := s.messageCount + 1);
    match Classify(s, received).verdict
    case WhileDegraded => t.(skippedWhileDegraded := s.skippedWhileDegraded + 1)
    case First => t.(firstSeq := Some(received), lastSeq := Some(received))
    case Ok => t.(lastSeq := Some(received))
    case Duplicate => t.(duplicateCount := s.duplicateCount + 1)
    case OutOfOrder => t.(outOfOrderCount := s.outOfOrderCount + 1)
    case Gap => t.(gapCount := s.gapCount + 1, degraded := true)
    case Unsequenced => t
  }

  function Observed(streams: Streams, id: StreamId, channel: Channel, seqNo: Option<int>): Streams {
    var known := Registered(streams, id, channel);
    var s := known[id];
    known[id := if !IsSequenced(channel) || seqNo.None? then s.(messageCount := s.messageCount + 1)
                else Advanced(s, seqNo.value)]
  }

  function Observation(streams: Streams, id: StreamId, channel: Channel, seqNo: Option<int>): SequenceResult {
    if !IsSequenced(channel) || seqNo.None? then SequenceResult(Unsequenced, None, None, None)
    else Classify(Registered(streams, id, channel)[id], seqNo.value)
  }

  /** The stream after a recovery snapshot has set a new baseline. */
  function Rebaselined(s: StreamSeq, seqNo: Option<int>): StreamSeq {
    s.(lastSeq := seqNo,
       firstSeq := if s.firstSeq.None? then seqNo else s.firstSeq,
       degraded := false,
       skippedWhileDegraded := 0)
  }

  function AfterRecovery(streams: Streams, id: StreamId, seqNo: Option<int>): Streams {
    if id in streams then streams[id := Rebaselined(streams[id], seqNo)] else streams
  }

  // ---------------------------------------------------------------------------
  // What the verdicts of one stream add up to
  // ---------------------------------------------------------------------------

  /** A stream's bookkeeping after these numbers, with no recovery in between. */
  function Received(s: StreamSeq, numbers: seq<int>): StreamSeq {
    if numbers == [] then s else Advanced(Received(s, numbers[..|numbers| - 1]), numbers[|numbers| - 1])
  }

  /** The numbers that moved the baseline, in order. */
  function Accepted(s: StreamSeq, numbers: seq<int>): seq<int> {
    if numbers == [] then []
    else
      var init, last := numbers[..|numbers| - 1], numbers[|numbers| - 1];
      var verdict := Classify(Received(s, init), last).verdict;
      Accepted(s, init) + (if verdict == First || verdict == Ok then [last] else [])
  }

  ghost predicate Consecutive(numbers: seq<int>) {
    forall i | 0 <= i < |numbers| :: numbers[i] == numbers[0] + i
  }

  /** A stream's bookkeeping tells what it let through and how the rest was judged. */
  ghost predicate Tells(s: StreamSeq, accepted: seq<int>, received: nat) {
    && Consecutive(accepted)
    && s.firstSeq == (if accepted == [] then None else Some(accepted[0]))
    && s.lastSeq == (if accepted == [] then None else Some(accepted[|accepted| - 1]))
    && s.gapCount == (if s.degraded then 1 else 0)
    && s.messageCount == received
    && received == |accepted| + s.duplicateCount + s.outOfOrderCount + s.gapCount + s.skippedWhileDegraded
  }

  lemma NextTells(s: StreamSeq, accepted: seq<int>, received: nat, n: int)
    requires Tells(s, accepted, received)
    ensures var verdict := Classify(s, n).verdict;
      Tells(Advanced(s, n), accepted + (if verdict == First || verdict == Ok then [n] else []), received + 1)
  {
  }

  /**
   * Whatever numbers arrive, those let through form one unbroken run from the first number to the
   * last; at most one gap is reported until a recovery, and exactly while the stream is degraded;
   * and every message is counted under exactly one verdict.
   */
  lemma {:induction false} AcceptedAreConsecutive(channel: Channel, numbers: seq<int>)
    ensures Tells(Received(NewStream(channel), numbers), Accepted(NewStream(channel), numbers), |numbers|)
  {
    hide Tells, Classify, Advanced;
    if numbers == [] {
      NothingTold(channel);
    } else {
      var init := numbers[..|numbers| - 1];
      AcceptedAreConsecutive(channel, init);
      NextTells(Received(NewStream(channel), init), Accepted(NewStream(channel), init), |init|, numbers[|init|]);
    }
  }

  lemma NothingTold(channel: Channel)
    ensures Tells(NewStream(channel), [], 0)
  {
  }

  class SequenceTracker {
    var streams: Streams

    constructor ()
      ensures streams == map[]
    {
      streams := map[];
    }

    method Register(id: StreamId, channel: Channel)
      modifies this
      ensures streams == Registered(old(streams), id, channel)
    {
      if id !in streams {
        streams := streams[id := NewStream(channel)];
      }
    }

    /** Classifies a message's sequence number; only Ok and First move the baseline. */
    method Observe(id: StreamId, channel: Channel, seqNo: Option<int>) returns (r: SequenceResult)
      modifies this
      ensures streams == Observed(old(streams), id, channel, seqNo)
      ensures r == Observation(old(streams), id, channel, seqNo)
    {
      Register(id, channel);
      var state := streams[id];
      if !IsSequenced(channel) || seqNo.None? {
        streams := streams[id := state.(messageCount := state.messageCount + 1)];
        return SequenceResult(Unsequenced, None, None, None);
      }
      var received := seqNo.value;
      state := state.(messageCount := state.messageCount + 1);
      if state.degraded {
        streams := streams[id := state.(skippedWhileDegraded := state.skippedWhileDegraded + 1)];
        return SequenceResult(WhileDegraded, if state.lastSeq.None? then None else Some(state.lastSeq.value + 1),
                              Some(received), None);
      }
      if state.lastSeq.None? {
        streams := streams[id := state.(firstSeq := Some(received), lastSeq := Some(received))];
        return SequenceResult(First, None, Some(received), None);
      }
      var last := state.lastSeq.value;
      var expected := last + 1;
      if received == expected {
        streams := streams[id := state.(lastSeq := Some(received))];
        return SequenceResult(Ok, Some(expected), Some(received), None);
      }
      if received == last {
        streams := streams[id := state.(duplicateCount := state.duplicateCount + 1)];
        return SequenceResult(Duplicate, Some(expected), Some(received), None);
      }
      if received < last {
        streams := streams[id := state.(outOfOrderCount := state.outOfOrderCount + 1)];
        return SequenceResult(OutOfOrder, Some(expected), Some(received), None);
      }
      streams := streams[id := state.(gapCount := state.gapCount + 1, degraded := true)];
      r := SequenceResult(Gap, Some(expected), Some(received), Some(received - expected));
    }

    /** The only way a degraded stream returns to healthy. */
    method ResetAfterRecovery(id: StreamId, seqNo: Option<int>) returns (skipped: nat)
      modifies this
      ensures streams == AfterRecovery(old(streams), id, seqNo)
      ensures skipped == if id in old(streams) then old(streams)[id].skippedWhileDegraded else 0
    {
      if id !in streams {
        return 0;
      }
      var state := streams[id];
      skipped := state.skippedWhileDegraded;
      state := state.(lastSeq := seqNo);
      if state.firstSeq.None? {
        state := state.(firstSeq := state.lastSeq);
      }
      streams := streams[id := state.(degraded := false, skippedWhileDegraded := 0)];
    }

    method Remove(id: StreamId)
      modifies this
      ensures streams == old(streams) - {id}
    {
      streams := streams - {id};
    }
  }
}
