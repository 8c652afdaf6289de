/** Joining: the mirror after a HELLO, and the mirror over whole runs. */
module MirrorJoin {
  import opened Slots
  import opened Protocol
  import opened Combat
  import opened Session
  import opened Seating
  import opened Lifecycle
  import opened Workshop
  import opened Proxy
  import opened Mirror
  import opened Delivery
  import opened MirrorRequests
  import opened JoinReplay
  import opened MirrorTurns

  // ---- HELLO ---------------------------------------------------------------------------------------

  /** What a joining client is asked to be sent before the first actor. */
  function JoinHead(s: Session, j: Session, conn: nat, id: nat, profile: Profile): seq<Send> {
    [Send(conn, Welcome(s.sessionId, id, s.tickRate, s.rules))] + ProfileSends(conn, profile)
    + PlayerReplay(j.players, conn, id)
  }

  function JoinActors(j: Session, conn: nat, id: nat): seq<Send> {
    ActorReplay(j.actors, conn, ReplayCenter(j.players, id, j.bubbleCenter), ReplayRadius(j))
  }

  function JoinRest(j: Session, conn: nat, id: nat): seq<Send> {
    ObjectReplay(j.objects, conn, ReplayCenter(j.players, id, j.bubbleCenter), ReplayRadius(j)) + Tick(j).1
  }

  lemma HelloDemand(env: Env, s: Session, e: Envelope)
    requires e.request.Hello? && HeadOk(env, s) && Handle(env, s, e).accepted
    ensures Seat(s, e.conn, e.request.guid).Some?
    ensures var id := Seat(s, e.conn, e.request.guid).value.0;
            var j := Handle(env, s, e).session;
            Demand(env, s, e) == JoinHead(s, j, e.conn, id, e.request.profile) + JoinActors(j, e.conn, id)
                + JoinRest(j, e.conn, id)
  {
    hide Tick, ActorsOk, AllAlive, WorkshopOk, ActorReplay, ObjectReplay, PlayerReplay, ReplayCenter, Seat, First,
         SeatingOk, ProfileSends, KeepsIds, Extends;
    var j := Handle(env, s, e).session;
    HelloKeepsSeating(s, e.conn, e.request.guid, e.request.profile);
    var id := Seat(s, e.conn, e.request.guid).value.0;
    var a, b, c := JoinHead(s, j, e.conn, id, e.request.profile), JoinActors(j, e.conn, id), Tick(j).1;
    var o := ObjectReplay(j.objects, e.conn, ReplayCenter(j.players, id, j.bubbleCenter), ReplayRadius(j));
    assert Handle(env, s, e).sends == a + b + o;
    assert (a + b + o) + c == a + b + (o + c);
  }

  /** The replay is cut between the spawn and the state of an actor: the head has odd length and the actor part
      reaches past the end of the queue. Every term can be read off the session before the HELLO is handled. */
  ghost predicate Splits(env: Env, s: Session, e: Envelope)
    requires e.request.Hello?
  {
    match Seat(s, e.conn, e.request.guid)
    case None => false
    case Some((id, seated)) =>
      var others := Count(seated.players, (p: Player) => p.connected && p.id != id);
      var center := ReplayCenter(seated.players, id, s.bubbleCenter);
      var actors := Count(s.actors, (a: Actor) => ReplaysActor(a, center, ReplayRadius(s)));
      others % 2 == 0 && 5 + others + 2 * actors > MAX_OUTPUTS
  }

  ghost predicate SameFaces(a: seq<Player>, b: seq<Player>) {
    |a| == |b| && forall i :: 0 <= i < |a| ==>
        a[i].connected == b[i].connected && a[i].id == b[i].id && a[i].state == b[i].state
  }

  lemma {:induction false} SameFacesSameReplay(a: seq<Player>, b: seq<Player>, id: nat, fallback: Vec3)
    requires SameFaces(a, b)
    ensures ReplayCenter(a, id, fallback) == ReplayCenter(b, id, fallback)
    ensures Count(a, (p: Player) => p.connected && p.id != id) == Count(b, (p: Player) => p.connected && p.id != id)
  {
    if a != [] {
      SameFacesSameReplay(a[..|a| - 1], b[..|b| - 1], id, fallback);
    }
  }

  /** After the seat is taken, the rest of the HELLO changes no face. */
  lemma HelloFaces(env: Env, s: Session, e: Envelope)
    requires e.request.Hello? && HeadOk(env, s) && Handle(env, s, e).accepted
    ensures Seat(s, e.conn, e.request.guid).Some?
    ensures var j := Handle(env, s, e).session;
            SameFaces(Seat(s, e.conn, e.request.guid).value.1.players, j.players) && |j.players| == MAX_PLAYERS
  {
    hide ActorsOk, AllAlive, WorkshopOk, ExistingState, Seat;
    SeatFindsSlot(s, e.conn, e.request.guid);
    HelloKeepsSeating(s, e.conn, e.request.guid, e.request.profile);
  }

  /** The sizes of the parts, in the terms of `Splits`. */
  lemma JoinSizes(env: Env, s: Session, e: Envelope)
    requires e.request.Hello? && HeadOk(env, s) && Handle(env, s, e).accepted
    ensures Seat(s, e.conn, e.request.guid).Some?
    ensures var id := Seat(s, e.conn, e.request.guid).value.0;
            var j := Handle(env, s, e).session;
            var head, actors := |JoinHead(s, j, e.conn, id, e.request.profile)|, |JoinActors(j, e.conn, id)|;
            && head <= 13 && actors % 2 == 0
            && (Splits(env, s, e) <==> head % 2 == 1 && head + actors > MAX_OUTPUTS)
  {
    hide ActorsOk, AllAlive, WorkshopOk, SeatingOk, ActorReplay, ReplaysActor, HandleHello, Seat, ReplayCenter,
         SameFaces;
    HelloFaces(env, s, e);
    HelloFrame(s, e.conn, e.request.guid, e.request.profile);
    var (id, seated) := Seat(s, e.conn, e.request.guid).value;
    var j := Handle(env, s, e).session;
    SameFacesSameReplay(seated.players, j.players, id, s.bubbleCenter);
    PlayerReplayShape(j.players, e.conn, id);
    ActorReplaySize(j.actors, e.conn, ReplayCenter(j.players, id, j.bubbleCenter), ReplayRadius(j));
  }

  /** The three parts of a join delivery speak the truth about the joined session. */
  lemma JoinPartsShape(env: Env, s: Session, e: Envelope, id: nat)
    requires e.request.Hello? && HeadOk(env, s)
    ensures var j := Handle(env, s, e).session;
            var head, actors, rest := JoinHead(s, j, e.conn, id, e.request.profile), JoinActors(j, e.conn, id),
                JoinRest(j, e.conn, id);
            && AllReplayable(head + actors + rest, j)
            && (forall k :: 0 <= k < |head| ==> NoActorNews(head[k].msg) && head[k].conn == e.conn)
            && (forall k :: 0 <= k < |rest| ==> NoActorNews(rest[k].msg))
            && (forall k :: 0 <= k < |actors| ==> actors[k].conn == e.conn)
            && (forall k :: 0 <= k < |rest| && rest[k].conn != e.conn ==> Quiet(rest[k].msg))
            && (forall k :: 0 <= k < |actors| && k % 2 == 0 ==> SpawnsKnown(actors[k].msg, s.actors))
            && (forall m :: 0 <= m <= |actors| && m % 2 == 0 ==> Doubts({}, actors[..m], e.conn) == {})
            && j.actors == s.actors && j.objects == s.objects
  {
    hide HandleHello, Tick, ActorReplay, ObjectReplay, PlayerReplay, ReplaysActor, ReplayCenter, Honest, SeatingOk;
    var j := Handle(env, s, e).session;
    HelloFrame(s, e.conn, e.request.guid, e.request.profile);
    var center, radius := ReplayCenter(j.players, id, j.bubbleCenter), ReplayRadius(j);
    PlayerReplayShape(j.players, e.conn, id);
    assert j.actors[..|j.actors|] == j.actors && j.objects[..|j.objects|] == j.objects;
    var actors := JoinActors(j, e.conn, id);
    assert actors == ActorPart(j, |j.actors|, e.conn, center, radius);
    ActorPartShape(j, |j.actors|, e.conn, center, radius);
    forall m | 0 <= m <= |actors| && m % 2 == 0 ensures Doubts({}, actors[..m], e.conn) == {} {
      ActorPartDoubts(j, |j.actors|, e.conn, center, radius, m);
    }
    ObjectReplayShape(j, |j.objects|, e.conn, center, radius);
    TickAliveIsQuiet(j, e.conn);
    forall msg: Message ensures Quiet(msg) ==> Replayable(msg, j) && NoActorNews(msg) { QuietIsReplayable(msg, j); }
  }

  lemma QuietIsReplayable(msg: Message, s: Session)
    ensures Quiet(msg) ==> Replayable(msg, s) && NoActorNews(msg)
  {
  }

  /** A cut that does not separate a spawn from its state leaves no doubt. */
  lemma CutDoubts(head: seq<Send>, actors: seq<Send>, rest: seq<Send>, conn: nat, k: nat)
    requires k <= |head + actors + rest| && |actors| % 2 == 0
    requires forall i :: 0 <= i < |head| ==> NoActorNews(head[i].msg)
    requires forall i :: 0 <= i < |rest| ==> NoActorNews(rest[i].msg)
    requires forall m :: 0 <= m <= |actors| && m % 2 == 0 ==> Doubts({}, actors[..m], conn) == {}
    requires |head| <= k <= |head| + |actors| ==> (k - |head|) % 2 == 0
    ensures Doubts({}, (head + actors + rest)[..k], conn) == {}
  {
    var all := head + actors + rest;
    if k < |head| {
      assert all[..k] == head[..k];
      NoActorNewsNoDoubts({}, head[..k], conn);
    } else {
      NoActorNewsNoDoubts({}, head, conn);
      if k <= |head| + |actors| {
        assert all[..k] == head + actors[..k - |head|];
        DoubtsAppend({}, head, actors[..k - |head|], conn);
      } else {
        var tail := rest[..k - |head| - |actors|];
        assert all[..k] == (head + actors) + tail;
        assert actors[..|actors|] == actors;
        DoubtsAppend({}, head, actors, conn);
        DoubtsAppend({}, head + actors, tail, conn);
        NoActorNewsNoDoubts({}, tail, conn);
      }
    }
  }

  /** A HELLO leaves the world as it was. */
  lemma HelloKeepsWorld(env: Env, s: Session, e: Envelope)
    requires e.request.Hello? && HeadOk(env, s)
    ensures var u := Turn(env, s, e); u.actors == s.actors && u.objects == s.objects
  {
    hide HandleHello, Tick, SeatingOk, WorkshopOk;
    HelloFrame(s, e.conn, e.request.guid, e.request.profile);
    TickAliveIsQuiet(Handle(env, s, e).session, e.conn);
  }

  lemma AllReplayablePrefix(sends: seq<Send>, s: Session, k: nat)
    requires AllReplayable(sends, s) && k <= |sends|
    ensures AllReplayable(sends[..k], s)
  {
    hide Replayable;
  }

  /** A HELLO that splits no actor keeps the sender's mirror, however much of the replay is dropped. */
  lemma OwnHelloKeepsMirror(env: Env, s: Session, e: Envelope, t: Tables)
    requires e.request.Hello? && HeadOk(env, s) && Agree(t, s) && Handle(env, s, e).accepted && !Splits(env, s, e)
    ensures Agree(ClientAfter(env, s, e, e.conn, t), Turn(env, s, e))
  {
    hide Handle, Tick, HeadOk, Splits, Agree, AgreeBut, After, AllReplayable, JoinHead, JoinActors, JoinRest, Seat;
    JoinSizes(env, s, e);
    HelloDemand(env, s, e);
    var id := Seat(s, e.conn, e.request.guid).value.0;
    var j := Handle(env, s, e).session;
    var head, actors, rest := JoinHead(s, j, e.conn, id, e.request.profile), JoinActors(j, e.conn, id),
        JoinRest(j, e.conn, id);
    var all := head + actors + rest;
    var k := if |all| <= MAX_OUTPUTS then |all| else MAX_OUTPUTS;
    assert TakeQueue(all) == all[..k];
    JoinPartsShape(env, s, e, id);
    AllReplayablePrefix(all, j, k);
    SameWorldAgrees(t, s, j);
    DeliveryKeepsAgreement(t, j, all[..k], e.conn);
    CutDoubts(head, actors, rest, e.conn, k);
    AgreeIs(After(t, all[..k], e.conn), j);
    HelloKeepsWorld(env, s, e);
    SameWorldAgrees(After(t, all[..k], e.conn), j, Turn(env, s, e));
  }

  /** A HELLO from someone else, or one that is refused, delivers nothing about the world. */
  lemma OtherHelloKeepsMirror(env: Env, s: Session, e: Envelope, client: nat, t: Tables)
    requires e.request.Hello? && HeadOk(env, s) && Agree(t, s) && (client != e.conn || !Handle(env, s, e).accepted)
    ensures Agree(ClientAfter(env, s, e, client, t), Turn(env, s, e))
  {
    hide Handle, Tick, HeadOk, Agree, After, AllReplayable, JoinHead, JoinActors, JoinRest, Seat, Doubts, SpawnsKnown,
         NoActorNews;
    HelloKeepsWorld(env, s, e);
    SameWorldAgrees(t, s, Turn(env, s, e));
    if Handle(env, s, e).accepted {
      HelloDemand(env, s, e);
      JoinPartsShape(env, s, e, Seat(s, e.conn, e.request.guid).value.0);
      assert QuietFor(Demand(env, s, e), client);
      assert QuietFor(TakeQueue(Demand(env, s, e)), client);
      QuietChangesNothing(t, Transmitted(env, s, e), client);
    } else {
      AfterNothing(t, client);
    }
  }

  // ---- when the replay is split ----------------------------------------------------------------------

  function Used(actors: seq<ProxyActor>): nat { Count(actors, (a: ProxyActor) => a.inUse) }

  /** No packet takes up more than one slot. */
  lemma ApplyUsesOne(t: Tables, msg: Message)
    ensures |Apply(t, msg).actors| == |t.actors| && Used(Apply(t, msg).actors) <= Used(t.actors) + 1
  {
    hide Count;
    var after := Apply(t, msg).actors;
    if msg.ActorStateMsg? && HeldActor(t.actors, msg.actor.actorId) == |t.actors| {
      var a := msg.actor;
      var i := SlotForActor(t.actors, a.actorId);
      if i < |t.actors| {
        var spawned := SpawnedActor(t.actors, a.actorId, 0, a.position, a.rotation, 0, 0);
        OneSlotUsesOne(t.actors, i, spawned[i]);
        assert HeldActor(spawned, a.actorId) == i by {
          assert spawned[i].inUse && spawned[i].id == a.actorId;
        }
        CountUpdate(spawned, i, UpdatedActor(spawned, a)[i], (a: ProxyActor) => a.inUse);
      }
    } else if i: nat :| i < |t.actors| && after == t.actors[i := after[i]] {
      OneSlotUsesOne(t.actors, i, after[i]);
    } else {
      assert after == t.actors;
    }
  }

  lemma OneSlotUsesOne(actors: seq<ProxyActor>, i: nat, a: ProxyActor)
    requires i < |actors|
    ensures Used(actors[i := a]) <= Used(actors) + 1
  {
    CountUpdate(actors, i, a, (a: ProxyActor) => a.inUse);
  }

  lemma {:induction false} ApplyAllUses(t: Tables, msgs: seq<Message>)
    ensures |ApplyAll(t, msgs).actors| == |t.actors| && Used(ApplyAll(t, msgs).actors) <= Used(t.actors) + |msgs|
  {
    hide Apply, Used;
    if msgs != [] {
      ApplyAllUses(t, msgs[..|msgs| - 1]);
      ApplyUsesOne(ApplyAll(t, msgs[..|msgs| - 1]), msgs[|msgs| - 1]);
    }
  }

  lemma {:induction false} FullTable(actors: seq<ProxyActor>)
    requires forall i :: 0 <= i < |actors| ==> actors[i].inUse
    ensures Used(actors) == |actors|
  {
    if actors != [] { FullTable(actors[..|actors| - 1]); }
  }

  /** A spawn into a table with room leaves a record whose flags no live hostile has. */
  lemma BareSpawnDisagrees(t: Tables, s: Session, msg: Message)
    requires ActorsOk(s.actors) && SpawnsKnown(msg, s.actors) && Used(t.actors) < |t.actors|
    ensures !Agree(Apply(t, msg), s)
  {
    var i := SlotForActor(t.actors, msg.actorId);
    if i == |t.actors| {
      FullTable(t.actors);
    } else {
      var a := Apply(t, msg).actors[i];
      assert a.inUse && a.id == msg.actorId && a.flags == {};
      assert !MatchesActor(a, s.actors);
    }
  }

  lemma {:induction false} ReceivedSize(sends: seq<Send>, conn: nat)
    ensures |Received(sends, conn)| <= |sends|
  {
    if sends != [] { ReceivedSize(sends[..|sends| - 1], conn); }
  }

  lemma EmptyIsUnused()
    ensures Used(EmptyTables().actors) == 0 && |EmptyTables().actors| == MAX_PROXY_ACTORS
  {
    CountZero(EmptyTables().actors, (a: ProxyActor) => a.inUse);
  }

  /** A split replay leaves a fresh client with an actor that does not match the session. */
  lemma SplitSpoilsMirror(env: Env, s: Session, e: Envelope)
    requires e.request.Hello? && HeadOk(env, s) && Handle(env, s, e).accepted && Splits(env, s, e)
    ensures !Agree(ClientAfter(env, s, e, e.conn, EmptyTables()), Turn(env, s, e))
  {
    hide Handle, Tick, Splits, Agree, AllReplayable, JoinHead, JoinActors, JoinRest, Seat, EmptyTables, Apply, Used,
         WorkshopOk, SeatingOk, Doubts;
    JoinSizes(env, s, e);
    HelloDemand(env, s, e);
    var id := Seat(s, e.conn, e.request.guid).value.0;
    var j := Handle(env, s, e).session;
    var head, actors, rest := JoinHead(s, j, e.conn, id, e.request.profile), JoinActors(j, e.conn, id),
        JoinRest(j, e.conn, id);
    var all := head + actors + rest;
    JoinPartsShape(env, s, e, id);
    var cut := all[..MAX_OUTPUTS];
    assert Transmitted(env, s, e) == cut;
    var front := cut[..MAX_OUTPUTS - 1];
    var last := cut[MAX_OUTPUTS - 1];
    assert last == actors[MAX_OUTPUTS - 1 - |head|];
    assert (MAX_OUTPUTS - 1 - |head|) % 2 == 0;
    var t := ApplyAll(EmptyTables(), Received(front, e.conn));
    assert Received(cut, e.conn)[..|Received(cut, e.conn)| - 1] == Received(front, e.conn);
    EmptyIsUnused();
    ReceivedSize(front, e.conn);
    ApplyAllUses(EmptyTables(), Received(front, e.conn));
    HelloKeepsWorld(env, s, e);
    BareSpawnDisagrees(t, Turn(env, s, e), last.msg);
  }

  lemma EmptyAgrees(s: Session)
    ensures Agree(EmptyTables(), s)
  {
  }

  /** A client that starts empty mirrors the session after its HELLO if and only if the replay is not split. */
  lemma JoinMirrorsIffUnsplit(env: Env, s: Session, e: Envelope)
    requires e.request.Hello? && HeadOk(env, s) && Handle(env, s, e).accepted
    ensures Agree(ClientAfter(env, s, e, e.conn, EmptyTables()), Turn(env, s, e)) <==> !Splits(env, s, e)
  {
    hide Handle, Turn, Agree, Splits, HeadOk, EmptyTables;
    if Splits(env, s, e) {
      SplitSpoilsMirror(env, s, e);
    } else {
      EmptyAgrees(s);
      OwnHelloKeepsMirror(env, s, e, EmptyTables());
    }
  }

  // ---- whole runs --------------------------------------------------------------------------------------

  /** What the client holds after a run. */
  function ClientRun(env: Env, s: Session, es: seq<Envelope>, client: nat, t: Tables): Tables {
    if es == [] then t
    else
      var before := es[..|es| - 1];
      ClientAfter(env, Run(env, s, before), es[|es| - 1], client, ClientRun(env, s, before, client, t))
  }

  /** The client is connected after every turn, and none of its own HELLOs is split. */
  ghost predicate Attached(env: Env, s: Session, es: seq<Envelope>, client: nat) {
    forall n :: 0 <= n < |es| ==>
      var u := Run(env, s, es[..n]);
      && HasConn(Turn(env, u, es[n]).players, client)
      && (es[n].request.Hello? && es[n].conn == client ==> !Splits(env, u, es[n]))
  }

  /** The mirror simulation: over every run from a reachable state, whatever a client that started empty and
      stayed connected holds, the session has, with the same state. */
  lemma {:induction false} MirrorSimulation(env: Env, s: Session, es: seq<Envelope>, client: nat)
    requires HeadOk(env, s) && Attached(env, s, es, client)
    ensures HeadOk(env, Run(env, s, es)) && Agree(ClientRun(env, s, es, client, EmptyTables()), Run(env, s, es))
  {
    hide HeadOk, Turn, Agree, Splits, HasConn, EmptyTables, ClientAfter, Handle;
    if es == [] {
      EmptyAgrees(s);
    } else {
      var n := |es| - 1;
      var before := es[..n];
      var u := Run(env, s, before);
      forall m | 0 <= m < n ensures before[..m] == es[..m] && before[m] == es[m] {}
      assert Attached(env, s, before, client);
      MirrorSimulation(env, s, before, client);
      TurnKeepsHead(env, u, es[n]);
      var t := ClientRun(env, s, before, client, EmptyTables());
      if !es[n].request.Hello? {
        RequestTurnKeepsMirror(env, u, es[n], client, t);
      } else if es[n].conn == client && Handle(env, u, es[n]).accepted {
        OwnHelloKeepsMirror(env, u, es[n], t);
      } else {
        OtherHelloKeepsMirror(env, u, es[n], client, t);
      }
    }
  }
}
