/** The state replay a joining client receives, and exactly when the bounded queue spoils it. */
module JoinReplay {
  import opened Slots
  import opened Protocol
  import opened Combat
  import opened Session
  import Workshop
  import opened Lifecycle
  import opened Proxy
  import opened Mirror
  import opened Delivery

  // ---- doubts along a delivery ----------------------------------------------------------------------

  /** The actors in doubt after a delivery that started with `doubt`. */
  function Doubts(doubt: set<nat>, sends: seq<Send>, conn: nat): set<nat> {
    if sends == [] then doubt
    else
      var last := sends[|sends| - 1];
      var before := Doubts(doubt, sends[..|sends| - 1], conn);
      if last.conn == conn then ActorDoubt(last.msg, before) else before
  }

  lemma {:induction false} DoubtsAppend(doubt: set<nat>, a: seq<Send>, b: seq<Send>, conn: nat)
    ensures Doubts(doubt, a + b, conn) == Doubts(Doubts(doubt, a, conn), b, conn)
  {
    if b == [] {
      assert a + b == a;
    } else {
      DoubtsAppend(doubt, a, b[..|b| - 1], conn);
      assert (a + b)[..|a + b| - 1] == a + b[..|b| - 1];
    }
  }

  predicate NoActorNews(msg: Message) { !msg.ActorSpawn? && !msg.ActorStateMsg? && !msg.ActorDespawn? }

  lemma {:induction false} NoActorNewsNoDoubts(doubt: set<nat>, sends: seq<Send>, conn: nat)
    requires forall k :: 0 <= k < |sends| ==> NoActorNews(sends[k].msg)
    ensures Doubts(doubt, sends, conn) == doubt
  {
    if sends != [] {
      NoActorNewsNoDoubts(doubt, sends[..|sends| - 1], conn);
    }
  }

  /** The message is honest whatever is in doubt. */
  ghost predicate Replayable(msg: Message, s: Session) {
    Honest(msg, s, {}) && !msg.DamageMsg? && !msg.DeathMsg?
  }

  ghost predicate AllReplayable(sends: seq<Send>, s: Session) {
    forall k :: 0 <= k < |sends| ==> Replayable(sends[k].msg, s)
  }

  lemma {:induction false} DeliveryKeepsAgreement(t: Tables, s: Session, sends: seq<Send>, conn: nat)
    requires Agree(t, s) && AllReplayable(sends, s)
    ensures AgreeBut(After(t, sends, conn), s, Doubts({}, sends, conn), {})
  {
    hide AgreeBut, Honest;
    if sends == [] {
      AgreeIs(t, s);
    } else {
      var n := |sends| - 1;
      var front := sends[..n];
      DeliveryKeepsAgreement(t, s, front, conn);
      assert Replayable(sends[n].msg, s);
      if sends[n].conn == conn {
        var da := Doubts({}, front, conn);
        ReplayableIsHonest(sends[n].msg, s, da);
        assert Received(sends, conn)[..|Received(sends, conn)| - 1] == Received(front, conn);
        ApplyKeepsAgreement(After(t, front, conn), s, sends[n].msg, da, {});
        assert ObjectDoubt(sends[n].msg, {}) == {};
      } else {
        assert Received(sends, conn) == Received(front, conn);
      }
    }
  }

  lemma ReplayableIsHonest(msg: Message, s: Session, doubt: set<nat>)
    requires Replayable(msg, s)
    ensures Honest(msg, s, doubt)
  {
  }

  // ---- the replay lists --------------------------------------------------------------------------------

  /** A spawn of an actor of the session. */
  ghost predicate SpawnsKnown(msg: Message, actors: seq<Actor>) {
    msg.ActorSpawn? && FindActor(actors, msg.actorId) < |actors|
  }

  ghost function ActorPart(s: Session, n: nat, conn: nat, center: Vec3, radius: real): seq<Send>
    requires n <= |s.actors|
  {
    ActorReplay(s.actors[..n], conn, center, radius)
  }

  lemma ActorPartStep(s: Session, n: nat, conn: nat, center: Vec3, radius: real)
    requires 0 < n <= |s.actors|
    ensures var a := s.actors[n - 1];
            ActorPart(s, n, conn, center, radius) == ActorPart(s, n - 1, conn, center, radius)
              + (if ReplaysActor(a, center, radius)
                  then [Send(conn, SpawnActorMsg(a)), Send(conn, ActorStateMsg(a.state))] else [])
  {
    assert s.actors[..n][..n - 1] == s.actors[..n - 1];
  }

  /** The actor replay alternates spawns and states, is honest, and any even part of it leaves no doubt. */
  lemma {:induction false} ActorPartShape(s: Session, n: nat, conn: nat, center: Vec3, radius: real)
    requires n <= |s.actors| && ActorsOk(s.actors)
    ensures var part := ActorPart(s, n, conn, center, radius);
            && |part| % 2 == 0
            && AllReplayable(part, s)
            && (forall k :: 0 <= k < |part| ==> part[k].conn == conn)
            && (forall k :: 0 <= k < |part| && k % 2 == 0 ==> SpawnsKnown(part[k].msg, s.actors))
  {
    hide ActorPart, ReplaysActor;
    if n == 0 {
      assert ActorPart(s, 0, conn, center, radius) == [] by { ActorPartNone(s, conn, center, radius); }
    } else {
      ActorPartShape(s, n - 1, conn, center, radius);
      ActorPartStep(s, n, conn, center, radius);
      var a := s.actors[n - 1];
      if a.inUse {
        Lifecycle.ActorSlot(s.actors, n - 1);
        assert Replayable(SpawnActorMsg(a), s) && Replayable(ActorStateMsg(a.state), s);
      }
      assert ReplaysActor(a, center, radius) ==> a.inUse by { ReplayedInUse(a, center, radius); }
    }
  }

  lemma ActorPartNone(s: Session, conn: nat, center: Vec3, radius: real)
    ensures ActorPart(s, 0, conn, center, radius) == []
  {
  }

  lemma ReplayedInUse(a: Actor, center: Vec3, radius: real)
    ensures ReplaysActor(a, center, radius) ==> a.inUse
  {
  }

  /** Doubts along a prefix of the actor replay: one spawn without its state, or none. */
  lemma {:induction false} ActorPartDoubts(s: Session, n: nat, conn: nat, center: Vec3, radius: real, m: nat)
    requires n <= |s.actors| && ActorsOk(s.actors) && m <= |ActorPart(s, n, conn, center, radius)|
    ensures var part := ActorPart(s, n, conn, center, radius);
            m % 2 == 0 ==> Doubts({}, part[..m], conn) == {}
  {
    hide ActorPart, ReplaysActor;
    var part := ActorPart(s, n, conn, center, radius);
    if n == 0 {
      ActorPartNone(s, conn, center, radius);
    } else {
      var front := ActorPart(s, n - 1, conn, center, radius);
      ActorPartStep(s, n, conn, center, radius);
      ActorPartShape(s, n - 1, conn, center, radius);
      if m <= |front| {
        assert part[..m] == front[..m];
        ActorPartDoubts(s, n - 1, conn, center, radius, m);
      } else if m % 2 == 0 {
        var a := s.actors[n - 1];
        assert ReplaysActor(a, center, radius) ==> a.inUse by { ReplayedInUse(a, center, radius); }
        var pair := [Send(conn, SpawnActorMsg(a)), Send(conn, ActorStateMsg(a.state))];
        assert m == |front| + 2 && part[..m] == front + pair;
        ActorPartDoubts(s, n - 1, conn, center, radius, |front|);
        assert front[..|front|] == front;
        DoubtsAppend({}, front, pair, conn);
        PairSettles(a, conn);
      }
    }
  }

  lemma PairSettles(a: Actor, conn: nat)
    requires ActorOk(a) && a.inUse
    ensures Doubts({}, [Send(conn, SpawnActorMsg(a)), Send(conn, ActorStateMsg(a.state))], conn) == {}
  {
    var pair := [Send(conn, SpawnActorMsg(a)), Send(conn, ActorStateMsg(a.state))];
    assert pair[..1] == [pair[0]] && pair[..1][..0] == [];
    assert Doubts({}, pair[..1], conn) == {a.id};
  }

  lemma {:induction false} ObjectReplayShape(s: Session, n: nat, conn: nat, center: Vec3, radius: real)
    requires n <= |s.objects|
    requires forall i, j :: 0 <= i < j < |s.objects| && s.objects[i].inUse && s.objects[j].inUse ==>
               s.objects[i].id != s.objects[j].id
    ensures var part := ObjectReplay(s.objects[..n], conn, center, radius);
            && AllReplayable(part, s)
            && forall k :: 0 <= k < |part| ==> NoActorNews(part[k].msg) && part[k].conn == conn
  {
    if n > 0 {
      ObjectReplayShape(s, n - 1, conn, center, radius);
      assert s.objects[..n][..n - 1] == s.objects[..n - 1];
      if s.objects[n - 1].inUse {
        Workshop.ObjectSlot(s.objects, n - 1);
      }
    }
  }

  lemma {:induction false} PlayerReplayShape(players: seq<Player>, conn: nat, exclude: nat)
    ensures var part := PlayerReplay(players, conn, exclude);
            && |part| == Count(players, (p: Player) => p.connected && p.id != exclude)
            && forall k :: 0 <= k < |part| ==> Quiet(part[k].msg) && part[k].conn == conn
  {
    if players != [] { PlayerReplayShape(players[..|players| - 1], conn, exclude); }
  }

  lemma {:induction false} ActorReplaySize(actors: seq<Actor>, conn: nat, center: Vec3, radius: real)
    ensures |ActorReplay(actors, conn, center, radius)|
              == 2 * Count(actors, (a: Actor) => ReplaysActor(a, center, radius))
  {
    hide ReplaysActor;
    if actors != [] { ActorReplaySize(actors[..|actors| - 1], conn, center, radius); }
  }
}
