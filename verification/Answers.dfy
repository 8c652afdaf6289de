/** Which envelopes the loop accepts, and what it answers to whom. */
module Answers {
  import opened Slots
  import opened Protocol
  import opened Combat
  import opened Relay
  import opened Session
  import opened Seating
  import opened Lifecycle
  import opened Workshop
  import opened Ballistics
  import opened Construction
  import Dialogue
  import Timeouts

  // ---- acceptance ------------------------------------------------------------------------------------------------

  /** The envelope is one the loop acts on: a HELLO that finds a seat, or a request of a connected player, in its own
      name where it names one, that its rules allow. */
  ghost predicate Welcomed(env: Env, s: Session, e: Envelope) {
    var from := Speaker(s, e.conn);
    match e.request
    case Hello(guid, _) =>
      || FindBinding(s.registry, guid) < |s.registry|
      || exists i :: 0 <= i < MAX_PLAYERS - 1 && i < |s.players| && !s.players[i].connected
    case Ping(_) => from.Some?
    case Disconnect => from.Some?
    case InputState(_, _) => from.Some?
    case PlayerUpdate(msg) => from == Some(msg.playerId)
    case Build(_, builder, _, _, _, _, _) => from == Some(builder)
    case Move(_, _, _, _) => WorkOf(env, s, e).Moves?
    case Scrap(_, _) => WorkOf(env, s, e).Removes?
    case Select(id, choice) => from.Some? && Dialogue.Validate(s.dialogue, id, choice) == Dialogue.Accepted
    case Fire(_, _, _, _) => MayFire(env, s, e)
    case Unusable => false
  }

  /** Exactly these are accepted. */
  lemma AcceptedIff(env: Env, s: Session, e: Envelope)
    requires SeatingOk(s) && WorkshopOk(env, s)
    ensures Handle(env, s, e).accepted <==> Welcomed(env, s, e)
  {
    hide First, Seat, HandleHello, HandleFire, HandleBuild, MoveValid, ScrapValid, Evaluate, Accepts, Broadcast,
         RegistryOk, MayFire, WorkshopOk, Pieces, WithinReach, MayBuild, Dialogue.Validate;
    var i := FindConnection(s.players, e.conn);
    match e.request {
      case Hello(guid, profile) =>
        SeatFindsSlot(s, e.conn, guid);
        HelloKeepsSeating(s, e.conn, guid, profile);
      case PlayerUpdate(_) => if i < |s.players| { PlayerSlot(s.players, s.tick, s.players[i].id); }
      case InputState(_, _) => if i < |s.players| { PlayerSlot(s.players, s.tick, s.players[i].id); }
      case Build(_, _, _, _, _, _, _) => BuildAnswers(env, s, e);
      case Fire(_, _, _, _) => FireAcceptedIff(env, s, e);
      case Move(mover, id, _, _) =>
        if i < |s.players| && s.players[i].id == mover {
          SpeakerIsConnected(s, e.conn);
          MoveValidIff(env, s, e.request);
        }
      case Scrap(scrapper, id) =>
        if i < |s.players| && s.players[i].id == scrapper {
          SpeakerIsConnected(s, e.conn);
          ScrapValidIff(env, s, e.request);
        }
      case _ =>
    }
  }

  lemma ScrapValidIff(env: Env, s: Session, req: Request)
    requires req.Scrap? && WorkshopOk(env, s) && Connected(s, req.scrapper)
    ensures ScrapValid(s, req) <==> HostAuthWorkshop in s.rules && req.scrapId in Pieces(s.objects)
  {
    hide First, WorkshopOk, Pieces;
    FoundIs(env, s, req.scrapId);
  }

  // ---- to the sender ---------------------------------------------------------------------------------------------

  /** A ping is answered with its own time stamp, to nobody else. */
  lemma PingIsAnswered(env: Env, s: Session, e: Envelope)
    requires e.request.Ping? && Speaker(s, e.conn).Some?
    ensures Handle(env, s, e).sends == [Send(e.conn, Pong(e.request.timeMs))]
  {
  }

  lemma {:induction false} ReplayHasPlayer(players: seq<Player>, conn: nat, exclude: nat, j: nat)
    requires j < |players| && players[j].connected && players[j].id != exclude
    ensures exists k :: 0 <= k <= j && k < |PlayerReplay(players, conn, exclude)|
                        && PlayerReplay(players, conn, exclude)[k] == Send(conn, PlayerStateMsg(players[j].state))
  {
    var n := |players| - 1;
    if j == n {
      ReplayIsShort(players[..n], conn, exclude);
      var k := |PlayerReplay(players[..n], conn, exclude)|;
      assert PlayerReplay(players, conn, exclude)[k] == Send(conn, PlayerStateMsg(players[j].state));
    } else {
      ReplayHasPlayer(players[..n], conn, exclude, j);
      var part := PlayerReplay(players[..n], conn, exclude);
      var k :| 0 <= k <= j && k < |part| && part[k] == Send(conn, PlayerStateMsg(players[j].state));
      assert PlayerReplay(players, conn, exclude)[k] == part[k];
    }
  }

  lemma {:induction false} ReplayIsShort(players: seq<Player>, conn: nat, exclude: nat)
    ensures |PlayerReplay(players, conn, exclude)| <= |players|
  {
    if players != [] { ReplayIsShort(players[..|players| - 1], conn, exclude); }
  }

  /** The messages that lead the answer to a HELLO. */
  function Greeting(s: Session, conn: nat, id: nat, p: Profile): seq<Send> {
    [Send(conn, Welcome(s.sessionId, id, s.tickRate, s.rules)), Send(conn, ProfileSnapshot(p.stats)),
     Send(conn, ProfileItems(p.items)), Send(conn, ProfilePerks(p.perks)),
     Send(conn, ProfileAppearance(p.sex, p.bodyPreset))]
  }

  /** A HELLO that is accepted is answered with the id its sender then sits as, the session's settings and the profile
      that is then stored; and within the same turn the sender is told the stored state of every other player connected.
      Other seats are as they were. */
  lemma HelloIsAnswered(env: Env, s: Session, e: Envelope, j: nat)
    requires SeatingOk(s) && e.request.Hello? && Handle(env, s, e).accepted && j < MAX_PLAYERS
    ensures var o, sent := Handle(env, s, e), Transmitted(env, s, e);
            && |o.session.players| == |s.players| == MAX_PLAYERS && WelcomedId(s, e.conn, e.request.guid).Some?
            && var id := WelcomedId(s, e.conn, e.request.guid).value;
               && 1 <= id < MAX_PLAYERS && |sent| >= 5 && sent[..5] == Greeting(s, e.conn, id, e.request.profile)
               && o.session.players[id - 1].id == id && o.session.players[id - 1].conn == e.conn
               && o.session.players[id - 1].profile == e.request.profile
               && (j != id - 1 ==> o.session.players[j] == s.players[j])
               && (j != id - 1 && s.players[j].connected ==> Send(e.conn, PlayerStateMsg(s.players[j].state)) in sent)
  {
    hide Seat, ActorReplay, ObjectReplay, PlayerReplay, ReplayCenter, First, RegistryOk, KeepsIds, Extends, Tick;
    var guid, profile := e.request.guid, e.request.profile;
    SeatFindsSlot(s, e.conn, guid);
    HelloKeepsSeating(s, e.conn, guid, profile);
    var o := Handle(env, s, e);
    var id, t := Seat(s, e.conn, guid).value.0, o.session;
    var players := PlayerReplay(t.players, e.conn, id);
    var center := ReplayCenter(t.players, id, t.bubbleCenter);
    var actors := ActorReplay(t.actors, e.conn, center, ReplayRadius(t));
    var world := actors + ObjectReplay(t.objects, e.conn, center, ReplayRadius(t));
    var head := Greeting(s, e.conn, id, profile);
    var rest := Tick(t).1;
    assert Demand(env, s, e) == head + players + (world + rest) by {
      assert o.sends == head + (players + actors + ObjectReplay(t.objects, e.conn, center, ReplayRadius(t)));
    }
    ReplayIsShort(t.players, e.conn, id);
    QueueKeepsFront(head, players, world + rest);
    if j != id - 1 && s.players[j].connected {
      assert t.players[j] == s.players[j] && t.players[j].id == j + 1;
      ReplayHasPlayer(t.players, e.conn, id, j);
      var k :| 0 <= k <= j && k < |players| && players[k] == Send(e.conn, PlayerStateMsg(s.players[j].state));
      assert Transmitted(env, s, e)[5 + k] == players[k];
    }
  }

  lemma QueueKeepsFront(head: seq<Send>, players: seq<Send>, rest: seq<Send>)
    requires |head| == 5 && |players| <= MAX_PLAYERS
    ensures var sent := TakeQueue(head + players + rest);
            |sent| >= 5 + |players| && sent[..5] == head && forall k :: 0 <= k < |players| ==> sent[5 + k] == players[k]
  {
  }

  /** The replay is centred on where the joining player's stored state is: a returning player's last position, and the
      origin for a new one. */
  lemma {:induction false} ReplayIsCentred(players: seq<Player>, tick: nat, id: nat, fallback: Vec3, n: nat)
    requires PlayersOk(players, tick) && 1 <= id <= n <= |players| && players[id - 1].connected
    ensures ReplayCenter(players[..n], id, fallback) == players[id - 1].state.position
  {
    assert players[..n][..n - 1] == players[..n - 1] && players[..n][n - 1] == players[n - 1];
    if id < n { ReplayIsCentred(players, tick, id, fallback, n - 1); }
  }

  lemma RangeIff(a: Actor, o: Object, center: Vec3, radius: real)
    ensures ReplaysActor(a, center, radius) <==> a.inUse && LengthSq(To(center, a.state.position)) <= Sq(radius)
    ensures ReplaysObject(o, center, radius) <==> o.inUse && LengthSq(To(center, o.position)) <= Sq(radius)
  {
  }

  /** So every actor and object of the replay lies within the bubble's radius of there, or 512 units if it has none. */
  lemma ReplayRange(env: Env, s: Session, e: Envelope, a: Actor, o: Object)
    requires SeatingOk(s) && e.request.Hello? && Handle(env, s, e).accepted
    ensures var t := Handle(env, s, e).session;
            && WelcomedId(s, e.conn, e.request.guid).Some? && |t.players| == MAX_PLAYERS
            && var id := WelcomedId(s, e.conn, e.request.guid).value;
               && 1 <= id < MAX_PLAYERS
               && var at := t.players[id - 1].state.position;
                  var radius := if s.bubbleRadius > 0.0 then s.bubbleRadius else 512.0;
                  var center := ReplayCenter(t.players, id, t.bubbleCenter);
                  && center == at
                  && (ReplaysActor(a, center, ReplayRadius(t)) <==>
                        a.inUse && LengthSq(To(at, a.state.position)) <= Sq(radius))
                  && (ReplaysObject(o, center, ReplayRadius(t)) <==>
                        o.inUse && LengthSq(To(at, o.position)) <= Sq(radius))
  {
    hide Seat, ExistingState, ReplayCenter, First, RegistryOk, KeepsIds, Extends, ProfileSends, LengthSq, Sq,
         ReplaysActor, ReplaysObject;
    SeatFindsSlot(s, e.conn, e.request.guid);
    HelloKeepsSeating(s, e.conn, e.request.guid, e.request.profile);
    var t := Handle(env, s, e).session;
    RangeIff(a, o, ReplayCenter(t.players, Seat(s, e.conn, e.request.guid).value.0, t.bubbleCenter), ReplayRadius(t));
    var id := Seat(s, e.conn, e.request.guid).value.0;
    ReplayIsCentred(t.players, t.tick, id, t.bubbleCenter, |t.players|);
    assert t.players[..|t.players|] == t.players;
  }

  /** A selection is recorded with who made it, and changes nothing else; the host closes the dialogue later. */
  lemma SelectionIsRecorded(env: Env, s: Session, e: Envelope)
    requires e.request.Select? && Handle(env, s, e).accepted
    ensures var o, from := Handle(env, s, e), Speaker(s, e.conn);
            && from.Some? && o.sends == []
            && o.session == s.(dialogue := s.dialogue.(lastChoice := e.request.choiceId, lastBy := from.value))
  {
    hide First, Dialogue.Validate;
  }

  // ---- to everyone -----------------------------------------------------------------------------------------------

  /** A departure is told to everyone connected, the leaver included. */
  lemma DepartureIsTold(env: Env, s: Session, e: Envelope, j: nat)
    requires SeatingOk(s) && e.request.Disconnect? && Speaker(s, e.conn).Some?
    requires j < |s.players| && s.players[j].connected
    ensures Send(s.players[j].conn, PlayerLeft(Speaker(s, e.conn).value)) in Handle(env, s, e).sends
  {
    hide First, Broadcast, RegistryOk;
    var id := Speaker(s, e.conn).value;
    var h := Heard(s, id);
    assert h.players[j].connected && h.players[j].conn == s.players[j].conn;
    Timeouts.BroadcastReaches(h.players, PlayerLeft(id), j);
  }

  /** A hit is told to everyone connected: the damage, the state it leaves, and the death if there is one, all in the
      shooter's name. */
  lemma HitIsTold(env: Env, s: Session, e: Envelope, j: nat)
    requires SeatingOk(s) && ActorsOk(s.actors) && e.request.Fire? && Handle(env, s, e).damage.Some?
    requires j < |s.players| && s.players[j].connected
    ensures var o := Handle(env, s, e);
            var d := o.damage.value;
            var i := FindActor(o.session.actors, d.victim);
            && d.attacker == e.request.player && (o.death.Some? ==> o.death.value == DeathEvent(d.victim, d.attacker))
            && i < |o.session.actors| && o.session.actors[i].state.health == d.healthAfter
            && Send(s.players[j].conn, DamageMsg(d)) in o.sends
            && Send(s.players[j].conn, ActorStateMsg(o.session.actors[i].state)) in o.sends
            && (d.killed <==> o.death.Some?)
            && (o.death.Some? ==> Send(s.players[j].conn, DeathMsg(o.death.value)) in o.sends)
  {
    hide First, Broadcast, RegistryOk, FireValid, Target;
    var req, o := e.request, Handle(env, s, e);
    FireHits(env, s, req.player, req);
    var h := Heard(s, req.player);
    var v := o.damage.value.victim;
    var t := FindActor(s.actors, v);
    HitFound(s.actors, v);
    assert h.players[j].connected && h.players[j].conn == s.players[j].conn;
    forall msg: Message ensures Send(s.players[j].conn, msg) in Broadcast(h.players, msg) {
      Timeouts.BroadcastReaches(h.players, msg, j);
    }
  }

  lemma HitFound(actors: seq<Actor>, v: nat)
    requires ActorsOk(actors) && FindActor(actors, v) < |actors|
    ensures var i := FindActor(actors, v);
            FindActor(Hit(actors, v), v) == i && Hit(actors, v)[i] == Wound(actors[i])
  {
    hide First;
    var i := FindActor(actors, v);
    assert Hit(actors, v)[i].inUse && Hit(actors, v)[i].id == v;
  }
}
