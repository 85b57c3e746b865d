/** Per-stream recovery episodes (src/integrity/recoveryStateMachine.ts). */
module RecoveryMachine {
  import opened Values

  datatype Phase = Healthy | Degraded | Recovering | Closed

  datatype Episode = Episode(
    phase: Phase,
    outstanding: set<Ticker>,
    affected: seq<Ticker>,
    openedAtMs: int,
    requestedAtMs: Option<int>,
    expected: Option<int>,
    received: Option<int>,
    snapshotsReceived: nat,
    messagesWithheld: nat)

  datatype Machine = Machine(states: map<StreamId, Phase>, episodes: map<StreamId, Episode>)

  const EMPTY_MACHINE := Machine(map[], map[])

  function PhaseOf(m: Machine, id: StreamId): Phase {
    if id in m.states then m.states[id] else Healthy
  }

  function WithRegistered(m: Machine, id: StreamId): Machine {
    if id in m.states then m else m.(states := m.states[id := Healthy])
  }

  function WithPhase(m: Machine, id: StreamId, to: Phase): Machine {
    if PhaseOf(m, id) == to then m
    else Machine(m.states[id := to],
                 if id in m.episodes then m.episodes[id := m.episodes[id].(phase := to)] else m.episodes)
  }

  function MembersOf(s: seq<Ticker>): set<Ticker> {
    set t | t in s
  }

  function NewEpisode(affected: seq<Ticker>, expected: Option<int>, received: Option<int>, nowMs: int): Episode {
    Episode(Degraded, MembersOf(affected), affected, nowMs, None, expected, received, 0, 0)
  }

  function WithWithheld(m: Machine, id: StreamId): Machine {
    if id in m.episodes then
      m.(episodes := m.episodes[id := m.episodes[id].(messagesWithheld := m.episodes[id].messagesWithheld + 1)])
    else m
  }

  function WithGap(m: Machine, id: StreamId, affected: seq<Ticker>,
                   expected: Option<int>, received: Option<int>, nowMs: int): Machine {
    if id in m.episodes then WithWithheld(m, id)
    else
      WithPhase(m.(episodes := m.episodes[id := NewEpisode(affected, expected, received, nowMs)]), id, Degraded)
  }

  function WithRequest(m: Machine, id: StreamId, nowMs: int): Machine {
    if id !in m.episodes || PhaseOf(m, id) != Degraded then m
    else WithPhase(m.(episodes := m.episodes[id := m.episodes[id].(requestedAtMs := Some(nowMs))]), id, Recovering)
  }

  function WithUnavailable(m: Machine, id: StreamId): Machine {
    if id !in m.episodes then m
    else WithPhase(m.(episodes := m.episodes - {id}), id, Degraded)
  }

  datatype SnapshotOutcome = SnapshotOutcome(relevant: bool, completed: bool)

  function SnapshotEffect(m: Machine, id: StreamId, ticker: Ticker): SnapshotOutcome {
    if id !in m.episodes || ticker !in m.episodes[id].outstanding then SnapshotOutcome(false, false)
    else SnapshotOutcome(true, m.episodes[id].outstanding == {ticker})
  }

  function WithSnapshot(m: Machine, id: StreamId, ticker: Ticker): Machine {
    if !SnapshotEffect(m, id, ticker).relevant then m
    else if SnapshotEffect(m, id, ticker).completed then
      WithPhase(m.(episodes := m.episodes - {id}), id, Healthy)
    else
      var e := m.episodes[id];
      m.(episodes := m.episodes[id := e.(outstanding := e.outstanding - {ticker},
                                         snapshotsReceived := e.snapshotsReceived + 1)])
  }

  predicate TimedOut(e: Episode, nowMs: int, timeoutMs: int) {
    nowMs - (if e.requestedAtMs.Some? then e.requestedAtMs.value else e.openedAtMs) >= timeoutMs
  }

  function Expired(m: Machine, nowMs: int, timeoutMs: int): set<StreamId> {
    set id | id in m.episodes && TimedOut(m.episodes[id], nowMs, timeoutMs)
  }

  /** Drops the episodes of these streams and leaves the streams degraded. */
  function Abandoned(m: Machine, gone: set<StreamId>): Machine {
    Machine(map id | id in m.states.Keys + gone :: if id in gone then Degraded else PhaseOf(m, id),
            m.episodes - gone)
  }

  function Reaped(m: Machine, nowMs: int, timeoutMs: int): Machine {
    Abandoned(m, Expired(m, nowMs, timeoutMs))
  }

  lemma AbandonOneMore(m: Machine, gone: set<StreamId>, id: StreamId)
    ensures Abandoned(m, gone + {id})
         == WithPhase(Machine(Abandoned(m, gone).states, Abandoned(m, gone).episodes - {id}), id, Degraded)
  {
    var left := Abandoned(m, gone + {id});
    var right := WithPhase(Machine(Abandoned(m, gone).states, Abandoned(m, gone).episodes - {id}), id, Degraded);
    assert left.episodes == right.episodes;
    assert PhaseOf(Abandoned(m, gone), id) == Degraded ==> id in m.states.Keys + gone;
    assert left.states.Keys == right.states.Keys;
    assert left.states == right.states;
  }

  /** Of the episodes looked at so far, those that timed out have been collected. */
  ghost predicate Reaping(m: Machine, rest: map<StreamId, Episode>, timedOut: map<StreamId, Episode>, nowMs: int,
                          timeoutMs: int) {
    && (forall id | id in rest :: id in m.episodes && rest[id] == m.episodes[id] && id !in timedOut)
    && (forall id | id in timedOut :: id in m.episodes && timedOut[id] == m.episodes[id])
    && (forall id | id in m.episodes && id !in rest ::
          id in timedOut <==> TimedOut(m.episodes[id], nowMs, timeoutMs))
  }

  lemma NoneReaped(m: Machine, nowMs: int, timeoutMs: int)
    ensures Reaping(m, m.episodes, map[], nowMs, timeoutMs)
  {
  }

  lemma ReapingMore(m: Machine, rest: map<StreamId, Episode>, timedOut: map<StreamId, Episode>, id: StreamId,
                    nowMs: int, timeoutMs: int)
    requires Reaping(m, rest, timedOut, nowMs, timeoutMs) && id in rest
    ensures var timedOut' := if TimedOut(rest[id], nowMs, timeoutMs) then timedOut[id := rest[id]] else timedOut;
      Reaping(m, rest - {id}, timedOut', nowMs, timeoutMs)
  {
    hide TimedOut;
  }

  lemma AllReaped(m: Machine, rest: map<StreamId, Episode>, timedOut: map<StreamId, Episode>, nowMs: int,
                  timeoutMs: int)
    requires Reaping(m, rest, timedOut, nowMs, timeoutMs) && rest.Keys == {}
    ensures timedOut.Keys == Expired(m, nowMs, timeoutMs)
    ensures forall id | id in timedOut :: id in m.episodes && timedOut[id] == m.episodes[id]
  {
    forall id ensures id in timedOut <==> id in Expired(m, nowMs, timeoutMs) {
      assert id in rest <==> id in rest.Keys;
    }
  }

  lemma AbandonNone(m: Machine)
    ensures Abandoned(m, {}) == m
  {
    assert Abandoned(m, {}).states == m.states;
  }

  function WithClosed(m: Machine, id: StreamId): Machine {
    Machine(m.states - {id}, m.episodes - {id})
  }

  /** What an open episode always satisfies. */
  ghost predicate EpisodeOk(e: Episode) {
    && e.outstanding <= MembersOf(e.affected)
    && e.snapshotsReceived + |e.outstanding| == |e.affected|
  }

  class StreamRecoveryMachine {
    var states: map<StreamId, Phase>
    var episodes: map<StreamId, Episode>
    const timeoutMs: int

    function View(): Machine
      reads this
    {
      Machine(states, episodes)
    }

    constructor (timeoutMs: int)
      ensures View() == EMPTY_MACHINE && this.timeoutMs == timeoutMs
    {
      states, episodes, this.timeoutMs := map[], map[], timeoutMs;
    }

    method Register(id: StreamId)
      modifies this
      ensures View() == WithRegistered(old(View()), id)
    {
      if id !in states {
        states := states[id := Healthy];
      }
    }

    method SetState(id: StreamId, to: Phase)
      modifies this
      ensures View() == WithPhase(old(View()), id, to)
    {
      if PhaseOf(View(), id) != to {
        states := states[id := to];
        if id in episodes {
          episodes := episodes[id := episodes[id].(phase := to)];
        }
      }
    }

    /** Opens an episode, unless one is already open. */
    method OpenGap(id: StreamId, affected: seq<Ticker>, expected: Option<int>, received: Option<int>, nowMs: int)
      returns (isNew: bool)
      modifies this
      ensures View() == WithGap(old(View()), id, affected, expected, received, nowMs)
      ensures isNew == (id !in old(View()).episodes)
    {
      if id in episodes {
        episodes := episodes[id := episodes[id].(messagesWithheld := episodes[id].messagesWithheld + 1)];
        return false;
      }
      episodes := episodes[id := NewEpisode(affected, expected, received, nowMs)];
      SetState(id, Degraded);
      isNew := true;
    }

    method MarkRecoveryRequested(id: StreamId, nowMs: int)
      modifies this
      ensures View() == WithRequest(old(View()), id, nowMs)
    {
      if id in episodes && PhaseOf(View(), id) == Degraded {
        episodes := episodes[id := episodes[id].(requestedAtMs := Some(nowMs))];
        SetState(id, Recovering);
      }
    }

    method MarkRecoveryUnavailable(id: StreamId)
      modifies this
      ensures View() == WithUnavailable(old(View()), id)
    {
      if id in episodes {
        episodes := episodes - {id};
        SetState(id, Degraded);
      }
    }

    /** Records a replacement snapshot; the last one closes the episode. */
    method RecordSnapshot(id: StreamId, ticker: Ticker) returns (r: SnapshotOutcome)
      modifies this
      ensures View() == WithSnapshot(old(View()), id, ticker)
      ensures r == SnapshotEffect(old(View()), id, ticker)
    {
      if id !in episodes || ticker !in episodes[id].outstanding {
        return SnapshotOutcome(false, false);
      }
      var e := episodes[id];
      e := e.(outstanding := e.outstanding - {ticker}, snapshotsReceived := e.snapshotsReceived + 1);
      if |e.outstanding| > 0 {
        episodes := episodes[id := e];
        return SnapshotOutcome(true, false);
      }
      assert old(episodes)[id].outstanding == {ticker};
      episodes := episodes - {id};
      SetState(id, Healthy);
      r := SnapshotOutcome(true, true);
    }

    method Withhold(id: StreamId)
      modifies this
      ensures View() == WithWithheld(old(View()), id)
    {
      if id in episodes {
        episodes := episodes[id := episodes[id].(messagesWithheld := episodes[id].messagesWithheld + 1)];
      }
    }

    /** Fails the episodes whose snapshots never arrived; their streams stay degraded. */
    method ReapTimeouts(nowMs: int) returns (timedOut: map<StreamId, Episode>)
      modifies this
      ensures View() == Reaped(old(View()), nowMs, timeoutMs)
      ensures timedOut.Keys == Expired(old(View()), nowMs, timeoutMs)
      ensures forall id | id in timedOut :: timedOut[id] == old(View()).episodes[id]
    {
      hide Abandoned, WithPhase, TimedOut, Expired, PhaseOf, Reaping;
      ghost var was := View();
      ghost var gone: set<StreamId> := {};
      var rest := episodes;
      timedOut := map[];
      AbandonNone(was);
      NoneReaped(was, nowMs, timeoutMs);
      while rest.Keys != {}
        invariant Reaping(was, rest, timedOut, nowMs, timeoutMs)
        invariant gone == timedOut.Keys && View() == Abandoned(was, gone)
        decreases |rest.Keys|
      {
        var id := NextElement(rest.Keys);
        var episode := rest[id];
        ReapingMore(was, rest, timedOut, id, nowMs, timeoutMs);
        if TimedOut(episode, nowMs, timeoutMs) {
          Abandon(id, was, gone);
          timedOut, gone := timedOut[id := episode], gone + {id};
        }
        SmallerWithout(rest, id);
        rest := rest - {id};
      }
      AllReaped(was, rest, timedOut, nowMs, timeoutMs);
    }

    method Abandon(id: StreamId, ghost was: Machine, ghost gone: set<StreamId>)
      requires View() == Abandoned(was, gone)
      modifies this
      ensures View() == Abandoned(was, gone + {id})
    {
      AbandonOneMore(was, gone, id);
      episodes := episodes - {id};
      SetState(id, Degraded);
    }

    /** Closes a stream, returning any episode still open on it. */
    method Close(id: StreamId) returns (orphan: Option<Episode>)
      modifies this
      ensures View() == WithClosed(old(View()), id)
      ensures orphan == if id in old(View()).episodes then Some(old(View()).episodes[id]) else None
    {
      orphan := if id in episodes then Some(episodes[id]) else None;
      episodes := episodes - {id};
      SetState(id, Closed);
      states := states - {id};
    }

    method Reset()
      modifies this
      ensures View() == EMPTY_MACHINE
    {
      states, episodes := map[], map[];
    }
  }
}
