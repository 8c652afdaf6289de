/** The service's filter for relayed player states (`psr_evaluate`). */
module Relay {
  import opened Protocol

  datatype RelayStats = RelayStats(
    accepted: nat, rejectedStale: nat, rejectedRegressive: nat, lastSequence: nat, lastTick: nat)

  const NO_STATS := RelayStats(0, 0, 0, 0, 0)

  predicate Stale(s: RelayStats, msg: PlayerState) {
    && msg.stateSequence != 0
    && (|| (s.lastSequence != 0 && msg.stateSequence < s.lastSequence)
        || (msg.stateSequence == s.lastSequence && msg.observedTick != 0
            && s.lastTick != 0 && msg.observedTick <= s.lastTick))
  }

  predicate Regressive(s: RelayStats, msg: PlayerState) {
    msg.observedTick != 0 && s.lastTick != 0 && msg.observedTick < s.lastTick
  }

  predicate Accepts(s: RelayStats, msg: PlayerState) {
    !Stale(s, msg) && !Regressive(s, msg)
  }

  /** The counters after one message. */
  function Evaluate(s: RelayStats, msg: PlayerState): RelayStats {
    if Stale(s, msg) then s.(rejectedStale := s.rejectedStale + 1)
    else if Regressive(s, msg) then s.(rejectedRegressive := s.rejectedRegressive + 1)
    else s.(accepted := s.accepted + 1,
            lastSequence := if msg.stateSequence != 0 then msg.stateSequence else s.lastSequence,
            lastTick := if msg.observedTick != 0 then msg.observedTick else s.lastTick)
  }

  /** A message is stale if it is older than the last one accepted, or as old and not from a later tick; it is
      regressive if only its tick is earlier; and it is accepted otherwise. Exactly one counter moves, and only an
      accepted message moves the marks, each where the message has one. */
  lemma VerdictCounts(s: RelayStats, msg: PlayerState)
    ensures var t := Evaluate(s, msg);
            var stale := msg.stateSequence > 0 &&
              (msg.stateSequence < s.lastSequence
               || (msg.stateSequence == s.lastSequence && 0 < msg.observedTick <= s.lastTick));
            var back := 0 < msg.observedTick < s.lastTick;
            && (stale ==> t == s.(rejectedStale := s.rejectedStale + 1))
            && (!stale && back ==> t == s.(rejectedRegressive := s.rejectedRegressive + 1))
            && (!stale && !back ==>
                  && t.accepted == s.accepted + 1 && t.rejectedStale == s.rejectedStale
                  && t.rejectedRegressive == s.rejectedRegressive
                  && (msg.stateSequence > 0 ==> t.lastSequence == msg.stateSequence >= s.lastSequence)
                  && (msg.stateSequence == 0 ==> t.lastSequence == s.lastSequence)
                  && (msg.observedTick > 0 ==> t.lastTick == msg.observedTick >= s.lastTick)
                  && (msg.observedTick == 0 ==> t.lastTick == s.lastTick))
  {
  }
}
