/** A GUID comes back while somebody else sits in its slot: when the other loses it, and a run in which that happens. */
module Takeover {
  import opened Slots
  import opened Protocol
  import opened Session
  import opened Seating
  import opened Delivery
  import opened MirrorTurns
  import opened JoinReplay
  import opened Service
  import opened Forgetting
  import Holding
  import Replication

  /** The connection has a slot, and no other. */
  ghost predicate SitsOnly(players: seq<Player>, i: nat, conn: nat)
    requires i < |players|
  {
    && players[i].connected && players[i].conn == conn
    && forall j :: 0 <= j < |players| && j != i && players[j].connected ==> players[j].conn != conn
  }

  lemma SlotReplaced(players: seq<Player>, after: seq<Player>, i: nat, conn: nat, other: nat)
    requires i < |players| == |after| && after == players[i := after[i]] && after[i].conn == conn != other
    requires HasConn(players, other)
    ensures !HasConn(after, other) <==> SitsOnly(players, i, other)
  {
    var j :| 0 <= j < |players| && players[j].connected && players[j].conn == other;
    assert j != i ==> after[j].connected && after[j].conn == other;
    assert forall k :: 0 <= k < |players| && k != i ==> after[k] == players[k];
  }

  /** A HELLO says nothing to anybody but its sender. */
  lemma HelloTellsSender(s: Session, conn: nat, guid: string, profile: Profile)
    ensures var sends := HandleHello(s, conn, guid, profile).sends;
            forall k :: 0 <= k < |sends| ==> sends[k].conn == conn
  {
    hide Seat, PlayerReplay, ActorReplay, ObjectReplay, ReplayCenter, First;
    var o := HandleHello(s, conn, guid, profile);
    if o.accepted {
      var id, j := Seat(s, conn, guid).value.0, o.session;
      var center := ReplayCenter(j.players, id, j.bubbleCenter);
      PlayerReplayShape(j.players, conn, id);
      Holding.ActorReplayKinds(j.actors, conn, center, ReplayRadius(j));
      Holding.ObjectReplayKinds(j.objects, conn, center, ReplayRadius(j));
    }
  }

  /** A connected client loses its seat by somebody else's HELLO if and only if the GUID of the HELLO is bound to the
      one player that the client sits as. Nothing is said to the client about it. */
  lemma HelloDisplacesIff(s: Session, conn: nat, guid: string, profile: Profile, other: nat)
    requires SeatingOk(s) && other != conn && HasConn(s.players, other)
    ensures var o, b := HandleHello(s, conn, guid, profile), FindBinding(s.registry, guid);
            && (!HasConn(o.session.players, other) <==>
                  b < |s.registry| && 1 <= s.registry[b].player <= |s.players|
                    && SitsOnly(s.players, s.registry[b].player - 1, other))
            && forall k :: 0 <= k < |o.sends| ==> o.sends[k].conn != other
  {
    hide Seat, ExistingState, First, PlayersOk, KeepsIds, Extends, HasConn;
    var o, b := HandleHello(s, conn, guid, profile), FindBinding(s.registry, guid);
    HelloTellsSender(s, conn, guid, profile);
    SeatFindsSlot(s, conn, guid);
    if Seat(s, conn, guid).Some? {
      var id := Seat(s, conn, guid).value.0;
      SlotReplaced(s.players, o.session.players, id - 1, conn, other);
      if b < |s.registry| {
        RejoinFindsSlot(s, conn, guid);
      } else {
        JoinTakesFreeSlot(s, conn, guid);
      }
    }
  }

  lemma JoinTakesFreeSlot(s: Session, conn: nat, guid: string)
    requires SeatingOk(s) && FindBinding(s.registry, guid) == |s.registry| && Seat(s, conn, guid).Some?
    ensures var id := Seat(s, conn, guid).value.0; 1 <= id < MAX_PLAYERS && !s.players[id - 1].connected
  {
    hide First, Bind;
    FreeIdIsFirst(s.players, s.tick, 1);
  }

  // ---- it happens ------------------------------------------------------------------------------------------------

  /** The first visitor joins and leaves, the second joins and stays, and the first comes back from elsewhere. */
  function ReturnRun(a: nat, b: nat, again: nat, profile: Profile): seq<Envelope> {
    [Envelope(a, Hello(GuidOf(1), profile)), Envelope(a, Disconnect), Envelope(b, Hello(GuidOf(2), profile)),
     Envelope(again, Hello(GuidOf(1), profile))]
  }

  /** From boot: before the last turn the second visitor is connected as player 1; after it, it has no seat, and the
      turn's handler said nothing to it. */
  lemma TakeoverIsReachable(env: Env, a: nat, b: nat, again: nat, profile: Profile)
    requires again != b
    ensures var s, es := Boot(DefaultConfig(0)), ReturnRun(a, b, again, profile);
            var m := Run(env, s, es[..3]);
            && HasConn(m.players, b) && !HasConn(Run(env, s, es).players, b)
            && WelcomedId(m, again, GuidOf(1)) == Some(1)
            && forall k :: 0 <= k < |Handle(env, m, es[3]).sends| ==> Handle(env, m, es[3]).sends[k].conn != b
  {
    hide Turn, SeatingOk, Seat, HandleHello, Boot, Run, HasConn, First, Extends, KeepsIds;
    var s0, es := Boot(DefaultConfig(0)), ReturnRun(a, b, again, profile);
    BootIsUnvisited(env);
    Arrives(env, s0, a, profile, 0);
    var s1 := Turn(env, s0, es[0]);
    Leaves(env, s1, a, 1);
    var s2 := Turn(env, s1, es[1]);
    Arrives(env, s2, b, profile, 1);
    var s3 := Turn(env, s2, es[2]);
    Replication.RunOfFour(env, s0, es);
    Replication.RunSnoc(env, s0, es);
    ThreeTurns(env, s0, es);
    Replication.FirstHello(env, DefaultConfig(0), a, GuidOf(1), profile);
    var rest := [es[1], es[2]];
    TwoTurns(env, s1, rest);
    BoundGuidKeepsPlayer(env, s1, rest, GuidOf(1), again);
    BoundAfter(env, s1, rest, GuidOf(1));
    SlotHasConn(s3.players, 0);
    HelloDisplacesIff(s3, again, GuidOf(1), profile, b);
    Unseated(env, s3, es[3], b);
  }

  lemma ThreeTurns(env: Env, s: Session, es: seq<Envelope>)
    requires |es| == 4
    ensures Run(env, s, es[..3]) == Turn(env, Turn(env, Turn(env, s, es[0]), es[1]), es[2])
  {
    hide Turn;
    assert es[..3][..2] == es[..2] && es[..2][..1] == es[..1] && es[..1][..0] == [];
    assert Run(env, s, es[..1]) == Turn(env, s, es[0]);
    assert Run(env, s, es[..2]) == Turn(env, Turn(env, s, es[0]), es[1]);
  }

  lemma TwoTurns(env: Env, s: Session, es: seq<Envelope>)
    requires |es| == 2
    ensures Run(env, s, es) == Turn(env, Turn(env, s, es[0]), es[1])
  {
    hide Turn;
    assert es[..1][..0] == [];
    assert Run(env, s, es[..1]) == Turn(env, s, es[0]);
  }

  lemma BoundAfter(env: Env, s: Session, es: seq<Envelope>, guid: string)
    requires SeatingOk(s) && FindBinding(s.registry, guid) < |s.registry|
    ensures var t, b := Run(env, s, es), FindBinding(s.registry, guid);
            |t.registry| == |s.registry| && FindBinding(t.registry, guid) == b && t.registry[b] == s.registry[b]
  {
    hide First, Run;
    RunKeepsSeating(env, s, es);
    ExtendedRegistryFindsSame(s.registry, Run(env, s, es).registry, s.players, guid);
  }

  /** Ticking seats nobody. */
  lemma Unseated(env: Env, s: Session, e: Envelope, conn: nat)
    requires !HasConn(Handle(env, s, e).session.players, conn)
    ensures !HasConn(Turn(env, s, e).players, conn)
  {
    hide HasConn, Turn, Handle;
    if HasConn(Turn(env, s, e).players, conn) { TickConn(env, s, e, conn); }
  }
}
