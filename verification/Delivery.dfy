/** What one turn of the server loop delivers to a connected client, and that it keeps the mirror. */
module Delivery {
  import opened Protocol
  import opened Combat
  import opened Session
  import opened Lifecycle
  import opened Proxy
  import opened Mirror

  // ---- delivery ------------------------------------------------------------------------------------

  /** The messages addressed to one connection, in order. */
  function Received(sends: seq<Send>, conn: nat): seq<Message> {
    if sends == [] then []
    else
      var last := sends[|sends| - 1];
      Received(sends[..|sends| - 1], conn) + (if last.conn == conn then [last.msg] else [])
  }

  lemma {:induction false} ReceivedAppend(a: seq<Send>, b: seq<Send>, conn: nat)
    ensures Received(a + b, conn) == Received(a, conn) + Received(b, conn)
  {
    if b == [] {
      assert a + b == a;
    } else {
      ReceivedAppend(a, b[..|b| - 1], conn);
      assert (a + b)[..|a + b| - 1] == a + b[..|b| - 1];
    }
  }

  ghost predicate HasConn(players: seq<Player>, conn: nat) {
    exists i :: 0 <= i < |players| && players[i].connected && players[i].conn == conn
  }

  lemma SlotHasConn(players: seq<Player>, i: nat)
    requires i < |players| && players[i].connected
    ensures HasConn(players, players[i].conn)
  {
  }

  ghost predicate AllAre(msgs: seq<Message>, msg: Message) {
    forall k :: 0 <= k < |msgs| ==> msgs[k] == msg
  }

  lemma HasConnSnoc(players: seq<Player>, conn: nat)
    requires players != []
    ensures var last := players[|players| - 1];
            HasConn(players, conn) <==> HasConn(players[..|players| - 1], conn) || (last.connected && last.conn == conn)
  {
    var front := players[..|players| - 1];
    if i :| 0 <= i < |front| && front[i].connected && front[i].conn == conn {
      assert players[i] == front[i];
    }
    if i :| 0 <= i < |players| && players[i].connected && players[i].conn == conn {
      assert i < |front| ==> front[i] == players[i];
    }
  }

  /** A connected client receives a broadcast once per slot it occupies. */
  lemma {:induction false} ReceivedBroadcast(players: seq<Player>, msg: Message, conn: nat)
    ensures AllAre(Received(Broadcast(players, msg), conn), msg)
    ensures HasConn(players, conn) <==> Received(Broadcast(players, msg), conn) != []
  {
    hide HasConn, Received;
    if players == [] {
      ReceivedSmall(conn, conn, msg);
    } else {
      var last := players[|players| - 1];
      var front := players[..|players| - 1];
      ReceivedBroadcast(front, msg, conn);
      HasConnSnoc(players, conn);
      var one := if last.connected then [Send(last.conn, msg)] else [];
      ReceivedAppend(Broadcast(front, msg), one, conn);
      ReceivedSmall(last.conn, conn, msg);
    }
  }

  lemma ReceivedSmall(to: nat, conn: nat, msg: Message)
    ensures !HasConn([], conn) && Received([], conn) == []
    ensures Received([Send(to, msg)], conn) == if to == conn then [msg] else []
  {
    assert [Send(to, msg)][..0] == [];
  }

  /** The client's tables after it applied what it was sent. */
  function After(t: Tables, sends: seq<Send>, conn: nat): Tables { ApplyAll(t, Received(sends, conn)) }

  /** The message does not speak of actors or objects. */
  predicate Quiet(msg: Message) {
    !(msg.ActorSpawn? || msg.ActorStateMsg? || msg.ActorDespawn? || msg.DamageMsg? || msg.DeathMsg?
      || msg.ObjectSpawn? || msg.ObjectUpdate? || msg.ObjectDespawn?)
  }

  ghost predicate AllQuiet(sends: seq<Send>) {
    forall k :: 0 <= k < |sends| ==> Quiet(sends[k].msg)
  }

  /** Nothing addressed to this connection speaks of actors or objects. */
  ghost predicate QuietFor(sends: seq<Send>, conn: nat) {
    forall k :: 0 <= k < |sends| && sends[k].conn == conn ==> Quiet(sends[k].msg)
  }

  lemma {:induction false} QuietChangesNothing(t: Tables, sends: seq<Send>, conn: nat)
    requires QuietFor(sends, conn)
    ensures After(t, sends, conn) == t
  {
    if sends != [] {
      var n := |sends| - 1;
      QuietChangesNothing(t, sends[..n], conn);
      if sends[n].conn == conn {
        assert Received(sends, conn)[..|Received(sends, conn)| - 1] == Received(sends[..n], conn);
      } else {
        assert Received(sends, conn) == Received(sends[..n], conn);
      }
    }
  }

  lemma {:induction false} BroadcastQuiet(players: seq<Player>, msg: Message)
    requires Quiet(msg)
    ensures AllQuiet(Broadcast(players, msg))
  {
    if players != [] { BroadcastQuiet(players[..|players| - 1], msg); }
  }

  /** Receiving the same honest packet any number of times is like receiving it once. */
  lemma {:induction false} RepeatKeepsAgreement(t: Tables, s: Session, msgs: seq<Message>, msg: Message, da: set<nat>,
      dbt: set<nat>)
    requires AgreeBut(t, s, da, dbt) && Honest(msg, s, da) && AllAre(msgs, msg)
    ensures if msgs == [] then AgreeBut(ApplyAll(t, msgs), s, da, dbt)
            else AgreeBut(ApplyAll(t, msgs), s, ActorDoubt(msg, da), ObjectDoubt(msg, dbt))
  {
    hide AgreeBut;
    if msgs != [] {
      var front := msgs[..|msgs| - 1];
      RepeatKeepsAgreement(t, s, front, msg, da, dbt);
      if front == [] {
        ApplyKeepsAgreement(t, s, msg, da, dbt);
      } else {
        assert ActorDoubt(msg, ActorDoubt(msg, da)) == ActorDoubt(msg, da);
        assert ObjectDoubt(msg, ObjectDoubt(msg, dbt)) == ObjectDoubt(msg, dbt);
        ApplyKeepsAgreement(ApplyAll(t, front), s, msg, ActorDoubt(msg, da), ObjectDoubt(msg, dbt));
      }
    }
  }

  lemma AfterAppend(t: Tables, a: seq<Send>, b: seq<Send>, conn: nat)
    ensures After(t, a + b, conn) == After(After(t, a, conn), b, conn)
  {
    ReceivedAppend(a, b, conn);
    ApplyAllAppend(t, Received(a, conn), Received(b, conn));
  }

  lemma BroadcastKeepsAgreement(t: Tables, s: Session, players: seq<Player>, msg: Message, conn: nat, da: set<nat>,
      dbt: set<nat>)
    requires AgreeBut(t, s, da, dbt) && Honest(msg, s, da) && HasConn(players, conn)
    ensures AgreeBut(After(t, Broadcast(players, msg), conn), s, ActorDoubt(msg, da), ObjectDoubt(msg, dbt))
  {
    hide AgreeBut, Honest;
    ReceivedBroadcast(players, msg, conn);
    RepeatKeepsAgreement(t, s, Received(Broadcast(players, msg), conn), msg, da, dbt);
  }

  // ---- changing one slot of the session ----------------------------------------------------------

  /** Replacing the actor in one slot only puts that actor in doubt. */
  lemma ActorChangeDoubts(t: Tables, s: Session, u: Session, i: nat, a: Actor)
    requires Agree(t, s) && i < |s.actors| && s.actors[i].inUse && DistinctActors(s.actors)
    requires u.actors == s.actors[i := a] && (a.inUse ==> a.id == s.actors[i].id) && u.objects == s.objects
    ensures AgreeBut(t, u, {s.actors[i].id}, {})
  {
    hide ObjectsAgree;
    forall k | 0 <= k < |t.actors| && t.actors[k].inUse && t.actors[k].id != s.actors[i].id
      ensures MatchesActor(t.actors[k], u.actors)
    {
      assert MatchesActor(t.actors[k], s.actors);
      var f := FindActor(s.actors, t.actors[k].id);
      assert u.actors[f] == s.actors[f];
      assert forall j :: 0 <= j < f ==> !(u.actors[j].inUse && u.actors[j].id == t.actors[k].id);
    }
  }

  lemma SameWorldAgrees(t: Tables, s: Session, u: Session)
    requires Agree(t, s) && u.actors == s.actors && u.objects == s.objects
    ensures Agree(t, u)
  {
  }

  // ---- the tick ------------------------------------------------------------------------------------

  lemma DropKeepsConn(players: seq<Player>, id: nat, conn: nat)
    requires HasConn(Drop(players, id), conn)
    ensures HasConn(players, conn)
  {
    var after := Drop(players, id);
    var i :| 0 <= i < |after| && after[i].connected && after[i].conn == conn;
    assert players[i] == after[i];
  }

  lemma {:induction false} DropAllIsQuiet(players: seq<Player>, ids: seq<nat>, conn: nat)
    ensures AllQuiet(DropAll(players, ids).1)
    ensures HasConn(DropAll(players, ids).0, conn) ==> HasConn(players, conn)
  {
    if ids != [] {
      var n := |ids| - 1;
      var before := DropAll(players, ids[..n]).0;
      DropAllIsQuiet(players, ids[..n], conn);
      BroadcastQuiet(before, PlayerLeft(ids[n]));
      if HasConn(DropAll(players, ids).0, conn) {
        DropKeepsConn(before, ids[n], conn);
      }
    }
  }

  lemma TickPlayersIsQuiet(s: Session, conn: nat)
    ensures AllQuiet(TickPlayers(s).1)
    ensures HasConn(Tick(s).0.players, conn) ==> HasConn(s.players, conn)
  {
    DropAllIsQuiet(s.players, TimedOutIds(s.players, s.tick + 1, s.timeout), conn);
  }

  /** A tick over live actors delivers nothing about the world. */
  lemma TickAliveIsQuiet(s: Session, conn: nat)
    requires AllAlive(s.actors)
    ensures AllQuiet(Tick(s).1) && Tick(s).0.actors == s.actors && Tick(s).0.objects == s.objects
  {
    hide TickActors;
    TickPlayersIsQuiet(s, conn);
    TickAlive(TickPlayers(s).0, s.actors);
  }

  /** A tick that buries an actor tells every client that is still connected. */
  lemma TickKeepsMirror(t: Tables, s: Session, conn: nat, i: nat)
    requires Agree(t, s) && HasConn(Tick(s).0.players, conn)
    requires DistinctActors(s.actors) && i < |s.actors| && IsDead(s.actors[i]) && !s.actors[i].pendingDespawn
    requires forall j :: 0 <= j < |s.actors| && j != i ==> !IsDead(s.actors[j])
    ensures Agree(After(t, Tick(s).1, conn), Tick(s).0)
  {
    hide Agree, AgreeBut, TickActors, TickPlayers;
    var (players, left) := TickPlayers(s);
    var id := s.actors[i].id;
    var u := Tick(s).0;
    TickBuries(players, s.actors, i);
    var bury := Broadcast(players, ActorDespawn(id));
    assert u.actors == s.actors[i := NO_ACTOR] && Tick(s).1 == left + bury;
    ActorChangeDoubts(t, s, u, i, NO_ACTOR);
    TickPlayersIsQuiet(s, conn);
    AfterAppend(t, left, bury, conn);
    QuietChangesNothing(t, left, conn);
    BroadcastKeepsAgreement(t, u, players, ActorDespawn(id), conn, {id}, {});
    assert ActorDoubt(ActorDespawn(id), {id}) == {};
    AgreeIs(After(t, Tick(s).1, conn), u);
  }

  lemma AgreeIs(t: Tables, s: Session)
    ensures Agree(t, s) <==> AgreeBut(t, s, {}, {})
  {
  }

  /** The client is connected after every turn. */
  ghost predicate Stays(env: Env, s: Session, es: seq<Envelope>, client: nat) {
    forall n :: 0 <= n < |es| ==> HasConn(Turn(env, Run(env, s, es[..n]), es[n]).players, client)
  }

  lemma StaysBefore(env: Env, s: Session, es: seq<Envelope>, client: nat)
    requires Stays(env, s, es, client) && es != []
    ensures Stays(env, s, es[..|es| - 1], client)
    ensures HasConn(Turn(env, Run(env, s, es[..|es| - 1]), es[|es| - 1]).players, client)
  {
    hide Run, Turn, HasConn;
    var before := es[..|es| - 1];
    forall n | 0 <= n < |before| ensures before[..n] == es[..n] && before[n] == es[n] {}
  }
}
