/** Movement replication over an unreliable network: whatever is lost, repeated or reordered, the service and
    the clients settle on the newest message they were given. */
module Convergence {
  import opened Protocol
  import opened Relay
  import opened Movement
  import Session
  import Seating

  /** A delivery picks messages of an emission by index, in any order, any number of times each. */
  ghost predicate Delivery(msgs: seq<PlayerState>, d: seq<nat>) {
    forall k :: 0 <= k < |d| ==> d[k] < |msgs|
  }

  /** The messages with these indices, in this order. */
  function Picked(msgs: seq<PlayerState>, d: seq<nat>): (r: seq<PlayerState>)
    requires forall k :: 0 <= k < |d| ==> d[k] < |msgs|
    ensures |r| == |d|
  {
    seq(|d|, k requires 0 <= k < |d| => msgs[d[k]])
  }

  /** The greatest index delivered. */
  function Newest(d: seq<nat>): (r: nat)
    requires d != []
    ensures r in d && forall k :: 0 <= k < |d| ==> d[k] <= r
  {
    var last := d[|d| - 1];
    if |d| == 1 then last
    else
      var before := Newest(d[..|d| - 1]);
      if last > before then last else before
  }

  /** The deliveries that beat everything delivered before them, in order. */
  function Maxima(d: seq<nat>): (r: seq<nat>)
    ensures |r| <= |d|
  {
    if d == [] then []
    else
      var before := d[..|d| - 1];
      var last := d[|d| - 1];
      Maxima(before) + (if before == [] || last > Newest(before) then [last] else [])
  }

  // ---- the service ---------------------------------------------------------------------------------

  /** What the service keeps of a player: relay counters and the stored state. */
  datatype Slot = Slot(stats: RelayStats, stored: PlayerState)

  const FRESH := Slot(NO_STATS, BLANK_PLAYER_STATE)

  function Relayed(slot: Slot, msg: PlayerState): Slot {
    Slot(Evaluate(slot.stats, msg), if Accepts(slot.stats, msg) then msg else slot.stored)
  }

  /** The slot after the messages with these indices were delivered to it. */
  function ServiceFrom(slot: Slot, msgs: seq<PlayerState>, d: seq<nat>): Slot
    requires forall k :: 0 <= k < |d| ==> d[k] < |msgs|
  {
    if d == [] then slot else Relayed(ServiceFrom(slot, msgs, d[..|d| - 1]), msgs[d[|d| - 1]])
  }

  /** The deliveries the relay filter accepts, in order: what the service relays to everyone. */
  function AcceptedFrom(slot: Slot, msgs: seq<PlayerState>, d: seq<nat>): (r: seq<nat>)
    requires forall k :: 0 <= k < |d| ==> d[k] < |msgs|
    ensures forall k :: 0 <= k < |r| ==> r[k] < |msgs|
  {
    if d == [] then []
    else
      var before, last := d[..|d| - 1], d[|d| - 1];
      AcceptedFrom(slot, msgs, before)
      + (if Accepts(ServiceFrom(slot, msgs, before).stats, msgs[last]) then [last] else [])
  }

  /** A fresh slot stores the newest message delivered; it accepted exactly the strict new maxima, counted
      everything else as stale, and never saw a regressive tick. */
  lemma {:induction false} ServiceConverges(msgs: seq<PlayerState>, d: seq<nat>)
    requires Numbered(msgs) && Delivery(msgs, d) && d != []
    ensures var slot := ServiceFrom(FRESH, msgs, d);
            && slot.stored == msgs[Newest(d)]
            && slot.stats == RelayStats(|Maxima(d)|, |d| - |Maxima(d)|, 0, Newest(d) + 1, msgs[Newest(d)].observedTick)
  {
    if |d| > 1 {
      ServiceConverges(msgs, d[..|d| - 1]);
      var last, before := d[|d| - 1], Newest(d[..|d| - 1]);
      assert last < before ==> msgs[last].observedTick < msgs[before].observedTick;
      assert before < last ==> msgs[before].observedTick < msgs[last].observedTick;
    }
  }

  /** What a fresh slot relays is the strict new maxima, each once and in order. */
  lemma {:induction false} AcceptedAreMaxima(msgs: seq<PlayerState>, d: seq<nat>)
    requires Numbered(msgs) && Delivery(msgs, d)
    ensures AcceptedFrom(FRESH, msgs, d) == Maxima(d)
  {
    hide ServiceFrom, Accepts, Newest, Numbered;
    if d != [] {
      var before, last := d[..|d| - 1], d[|d| - 1];
      ServiceFromNothing(msgs);
      AcceptedAreMaxima(msgs, before);
      if before == [] {
        FreshAccepts(msgs[last]);
      } else {
        ServiceConverges(msgs, before);
        AcceptsIffLater(ServiceFrom(FRESH, msgs, before).stats, msgs, Newest(before), last);
      }
    }
  }

  lemma ServiceFromNothing(msgs: seq<PlayerState>)
    ensures ServiceFrom(FRESH, msgs, []) == FRESH
  {
  }

  lemma FreshAccepts(msg: PlayerState)
    ensures Accepts(NO_STATS, msg)
  {
  }

  /** A filter that last took message `newest` takes exactly the later ones. */
  lemma AcceptsIffLater(stats: RelayStats, msgs: seq<PlayerState>, newest: nat, last: nat)
    requires Numbered(msgs) && newest < |msgs| && last < |msgs|
    requires stats.lastSequence == newest + 1 && stats.lastTick == msgs[newest].observedTick
    ensures Accepts(stats, msgs[last]) <==> last > newest
  {
    assert last < newest ==> msgs[last].observedTick < msgs[newest].observedTick;
    assert newest < last ==> msgs[newest].observedTick < msgs[last].observedTick;
  }

  // ---- a slot that was used before -------------------------------------------------------------------

  /** Over any delivery to any slot, whatever counters it starts with: if the filter would take the newest message
      delivered, the slot ends with it; if not, nothing that was delivered is ever stored or relayed. */
  lemma {:induction false} DeliveryToUsedSlot(slot: Slot, msgs: seq<PlayerState>, d: seq<nat>)
    requires Numbered(msgs) && Delivery(msgs, d) && d != []
    ensures var after, newest := ServiceFrom(slot, msgs, d), msgs[Newest(d)];
            if Accepts(slot.stats, newest) then
              && after.stored == newest && AcceptedFrom(slot, msgs, d) != []
              && after.stats.lastSequence == newest.stateSequence && after.stats.lastTick == newest.observedTick
            else
              && after.stored == slot.stored && AcceptedFrom(slot, msgs, d) == []
              && after.stats.accepted == slot.stats.accepted
              && after.stats.lastSequence == slot.stats.lastSequence && after.stats.lastTick == slot.stats.lastTick
  {
    var before, last := d[..|d| - 1], d[|d| - 1];
    if before == [] {
      assert Newest(d) == last;
    } else {
      DeliveryToUsedSlot(slot, msgs, before);
      var newest := Newest(before);
      assert last < newest ==> msgs[last].observedTick < msgs[newest].observedTick;
      assert newest < last ==> msgs[newest].observedTick < msgs[last].observedTick;
    }
  }

  /** The message has caught up with the counters that an earlier emission left behind. */
  predicate CaughtUp(stats: RelayStats, msg: PlayerState) {
    || (msg.stateSequence > stats.lastSequence && msg.observedTick >= stats.lastTick)
    || (msg.stateSequence == stats.lastSequence && msg.observedTick > stats.lastTick)
  }

  /** An emitter that restarts its numbering at a slot with counters is heard if and only if the newest of its
      messages that were delivered has caught up with them. Until then the slot keeps the state of the old emission
      and relays nothing, however many messages arrive. */
  lemma RestartIsStarved(slot: Slot, msgs: seq<PlayerState>, d: seq<nat>)
    requires Numbered(msgs) && Delivery(msgs, d) && d != [] && slot.stats.lastSequence >= 1 && slot.stats.lastTick >= 1
    ensures var after, newest := ServiceFrom(slot, msgs, d), msgs[Newest(d)];
            && (AcceptedFrom(slot, msgs, d) != [] <==> CaughtUp(slot.stats, newest))
            && (CaughtUp(slot.stats, newest) ==>
                  && after.stored == newest && after.stats.lastSequence == newest.stateSequence
                  && after.stats.lastTick == newest.observedTick)
            && (!CaughtUp(slot.stats, newest) ==>
                  && after.stored == slot.stored && after.stats.accepted == slot.stats.accepted
                  && after.stats.lastSequence == slot.stats.lastSequence && after.stats.lastTick == slot.stats.lastTick)
  {
    hide ServiceFrom, AcceptedFrom, Newest;
    DeliveryToUsedSlot(slot, msgs, d);
  }

  // ---- the client ------------------------------------------------------------------------------------

  /** What `rpm_apply_remote_player_state` remembers of the messages it applied. */
  datatype Record = Record(sequence: nat, tick: nat)

  const NEW_RECORD := Record(0, 0)

  predicate ClientRejects(r: Record, msg: PlayerState) {
    || (msg.stateSequence != 0 && r.sequence != 0 && msg.stateSequence < r.sequence)
    || (msg.stateSequence == r.sequence && msg.observedTick != 0 && r.tick != 0 && msg.observedTick <= r.tick)
  }

  function Recorded(r: Record, msg: PlayerState): Record {
    if ClientRejects(r, msg) then r else Record(msg.stateSequence, msg.observedTick)
  }

  /** The record after the messages of an inbox, in order. */
  function ClientAfter(inbox: seq<PlayerState>): Record {
    if inbox == [] then NEW_RECORD else Recorded(ClientAfter(inbox[..|inbox| - 1]), inbox[|inbox| - 1])
  }

  /** The message carries the sequence and the tick of some message of the emission. The rest of it may have changed on
      the way, as the equipment does when the service sends a stored state again. */
  ghost predicate Dated(m: PlayerState, msgs: seq<PlayerState>) {
    1 <= m.stateSequence <= |msgs| && m.observedTick == msgs[m.stateSequence - 1].observedTick
  }

  ghost predicate AllDated(inbox: seq<PlayerState>, msgs: seq<PlayerState>) {
    forall k :: 0 <= k < |inbox| ==> Dated(inbox[k], msgs)
  }

  /** The greatest sequence in an inbox. */
  function Latest(inbox: seq<PlayerState>): (r: nat)
    requires inbox != []
    ensures exists k :: 0 <= k < |inbox| && inbox[k].stateSequence == r
    ensures forall k :: 0 <= k < |inbox| ==> inbox[k].stateSequence <= r
  {
    var last := inbox[|inbox| - 1].stateSequence;
    if |inbox| == 1 then last
    else
      var before := Latest(inbox[..|inbox| - 1]);
      if last > before then last else before
  }

  /** Whatever reaches a client of an emission, its record is the newest message it was given. */
  lemma {:induction false} ClientConverges(msgs: seq<PlayerState>, inbox: seq<PlayerState>)
    requires Numbered(msgs) && AllDated(inbox, msgs) && inbox != []
    ensures 1 <= Latest(inbox) <= |msgs|
    ensures ClientAfter(inbox) == Record(Latest(inbox), msgs[Latest(inbox) - 1].observedTick)
  {
    hide Recorded, Numbered, Dated;
    var before, last := inbox[..|inbox| - 1], inbox[|inbox| - 1];
    assert Dated(last, msgs);
    if before == [] {
      assert Latest(inbox) == last.stateSequence;
      FirstIsRecorded(last, msgs);
    } else {
      ClientConverges(msgs, before);
      RecordedIffLater(Latest(before), last, msgs);
    }
  }

  lemma FirstIsRecorded(msg: PlayerState, msgs: seq<PlayerState>)
    requires Dated(msg, msgs)
    ensures 1 <= msg.stateSequence <= |msgs|
    ensures Recorded(NEW_RECORD, msg) == Record(msg.stateSequence, msgs[msg.stateSequence - 1].observedTick)
  {
  }

  /** A record of sequence `n` gives way to exactly the later messages. */
  lemma RecordedIffLater(n: nat, msg: PlayerState, msgs: seq<PlayerState>)
    requires Numbered(msgs) && Dated(msg, msgs) && 1 <= n <= |msgs|
    ensures 1 <= msg.stateSequence <= |msgs|
    ensures var later := if msg.stateSequence > n then msg.stateSequence else n;
            Recorded(Record(n, msgs[n - 1].observedTick), msg) == Record(later, msgs[later - 1].observedTick)
  {
  }

  // ---- end to end --------------------------------------------------------------------------------------

  lemma {:induction false} MaximaEndWithNewest(d: seq<nat>)
    requires d != []
    ensures Maxima(d) != [] && Maxima(d)[|Maxima(d)| - 1] == Newest(d)
    ensures forall k :: 0 <= k < |Maxima(d)| ==> Maxima(d)[k] <= Newest(d)
  {
    if |d| > 1 {
      MaximaEndWithNewest(d[..|d| - 1]);
    } else {
      assert d[..0] == [];
    }
  }

  /** From the emitter through the filter of a fresh slot to a client, over two unreliable hops: the client gets any
      selection of what the filter accepted. It never gets ahead of the service, and as soon as the newest relayed
      state is among what it gets, it agrees with the service on the player's newest state. */
  lemma ReplicationConverges(cfg: Config, caps: seq<Observed>, d: seq<nat>, picks: seq<nat>)
    requires Delivery(Emitted(cfg, caps), d) && d != [] && picks != []
    requires Delivery(Picked(Emitted(cfg, caps), AcceptedFrom(FRESH, Emitted(cfg, caps), d)), picks)
    ensures var msgs := Emitted(cfg, caps);
            var relayed := Picked(msgs, AcceptedFrom(FRESH, msgs, d));
            var record, stored := ClientAfter(Picked(relayed, picks)), ServiceFrom(FRESH, msgs, d).stored;
            && relayed != [] && record.sequence <= stored.stateSequence
            && (|relayed| - 1 in picks ==> record == Record(stored.stateSequence, stored.observedTick))
  {
    hide Emitted, Newest, Maxima, ServiceFrom, AcceptedFrom, ClientAfter, Picked, Latest, Numbered, AllDated;
    var msgs := Emitted(cfg, caps);
    EmittedIsNumbered(cfg, caps);
    ServiceConverges(msgs, d);
    AcceptedAreMaxima(msgs, d);
    MaximaEndWithNewest(d);
    SecondHop(msgs, d, picks);
    var inbox := Picked(Picked(msgs, Maxima(d)), picks);
    ClientConverges(msgs, inbox);
    StoredIsNewest(msgs, d);
  }

  lemma StoredIsNewest(msgs: seq<PlayerState>, d: seq<nat>)
    requires Numbered(msgs) && Delivery(msgs, d) && d != []
    ensures msgs[Newest(d)].stateSequence == Newest(d) + 1
  {
    hide Newest;
  }

  /** What reaches a client of what was relayed is dated by the emission and led by the newest relayed message. */
  lemma SecondHop(msgs: seq<PlayerState>, d: seq<nat>, picks: seq<nat>)
    requires Numbered(msgs) && Delivery(msgs, d) && d != [] && picks != []
    requires (forall k :: 0 <= k < |Maxima(d)| ==> Maxima(d)[k] < |msgs|) && Delivery(Picked(msgs, Maxima(d)), picks)
    ensures var inbox := Picked(Picked(msgs, Maxima(d)), picks);
            && inbox != [] && AllDated(inbox, msgs) && Latest(inbox) <= Newest(d) + 1
            && (|Maxima(d)| - 1 in picks ==> Latest(inbox) == Newest(d) + 1)
  {
    hide Newest, Maxima, Latest;
    MaximaEndWithNewest(d);
    var inbox := Picked(Picked(msgs, Maxima(d)), picks);
    forall k | 0 <= k < |inbox| ensures Dated(inbox[k], msgs) && inbox[k].stateSequence <= Newest(d) + 1 {
      assert inbox[k] == msgs[Maxima(d)[picks[k]]];
    }
    if |Maxima(d)| - 1 in picks {
      var k :| 0 <= k < |picks| && picks[k] == |Maxima(d)| - 1;
      assert inbox[k] == msgs[Newest(d)];
    }
  }

  // ---- in the session ------------------------------------------------------------------------------------

  /** A reconnect keeps the relay counters and the stored state of the slot; a join starts afresh. */
  lemma SeatKeepsRelay(s: Session.Session, conn: nat, guid: string)
    requires Seating.SeatingOk(s) && Session.Seat(s, conn, guid).Some?
    ensures var (id, t) := Session.Seat(s, conn, guid).value;
            && 1 <= id <= |t.players| == |s.players|
            && var p := t.players[id - 1];
               if Session.FindBinding(s.registry, guid) < |s.registry|
               then p.relay == s.players[id - 1].relay && p.state == s.players[id - 1].state
               else Slot(p.relay, p.state) == FRESH
  {
    Seating.SeatFindsSlot(s, conn, guid);
    if Session.FindBinding(s.registry, guid) < |s.registry| {
      Seating.RejoinFindsSlot(s, conn, guid);
      Seating.PlayerSlot(s.players, s.tick, Session.Seat(s, conn, guid).value.0);
    } else {
      Seating.FreeIdMatchesFreeSlot(s.players, s.tick);
    }
  }
}
