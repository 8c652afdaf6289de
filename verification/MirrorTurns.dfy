/** One turn of the server loop keeps the mirror, for every envelope but a HELLO. */
module MirrorTurns {
  import opened Protocol
  import opened Combat
  import opened Session
  import opened Seating
  import opened Lifecycle
  import opened Workshop
  import opened QueueBound
  import opened Proxy
  import opened Mirror
  import opened Delivery
  import opened MirrorRequests

  /** What holds at the head of the server loop in every reachable state. */
  ghost predicate HeadOk(env: Env, s: Session) {
    SeatingOk(s) && ActorsOk(s.actors) && AllAlive(s.actors) && WorkshopOk(env, s)
  }

  lemma TurnKeepsHead(env: Env, s: Session, e: Envelope)
    requires HeadOk(env, s)
    ensures HeadOk(env, Turn(env, s, e))
  {
    hide Turn, SeatingOk, ActorsOk, AllAlive, WorkshopOk;
    TurnKeepsSeating(env, s, e);
    TurnHits(env, s, e);
    TurnKeepsWorkshop(env, s, e);
  }

  lemma {:induction false} RunKeepsHead(env: Env, s: Session, es: seq<Envelope>)
    requires HeadOk(env, s)
    ensures HeadOk(env, Run(env, s, es))
  {
    hide HeadOk, Turn;
    if es != [] {
      RunKeepsHead(env, s, es[..|es| - 1]);
      TurnKeepsHead(env, Run(env, s, es[..|es| - 1]), es[|es| - 1]);
    }
  }

  // ---- requests other than HELLO -------------------------------------------------------------------

  /** Requests that are not about the world deliver nothing about it. */
  lemma PlayerRequestsAreQuiet(env: Env, s: Session, e: Envelope)
    requires e.request.Ping? || e.request.Disconnect? || e.request.PlayerUpdate? || e.request.InputState?
             || e.request.Select? || e.request.Unusable?
    ensures var o := Handle(env, s, e);
            AllQuiet(o.sends) && o.session.actors == s.actors && o.session.objects == s.objects
  {
    hide Broadcast, Heard;
    var o := Handle(env, s, e);
    forall players: seq<Player>, id: nat ensures AllQuiet(Broadcast(players, PlayerLeft(id))) {
      BroadcastQuiet(players, PlayerLeft(id));
    }
    forall players: seq<Player>, p: PlayerState ensures AllQuiet(Broadcast(players, PlayerStateMsg(p))) {
      BroadcastQuiet(players, PlayerStateMsg(p));
    }
    HandleFrame(env, s, e);
  }

  /** Every handler but HELLO keeps the mirror of a client that is still connected. */
  lemma HandleKeepsMirror(env: Env, t: Tables, s: Session, e: Envelope, client: nat)
    requires HeadOk(env, s) && Agree(t, s) && !e.request.Hello? && HasConn(Handle(env, s, e).session.players, client)
    ensures var o := Handle(env, s, e); Agree(After(t, o.sends, client), o.session)
  {
    hide HandleFire, HandleBuild, HandleMove, HandleScrap, Agree, After, HasConn, WorkshopOk, ActorsOk, AllAlive,
         SeatingOk;
    var o := Handle(env, s, e);
    var i := FindConnection(s.players, e.conn);
    if i == |s.players| {
      AfterNothing(t, client);
    } else {
      var id := s.players[i].id;
      match e.request {
        case Fire(_, _, _, _) => FireKeepsMirror(env, t, s, id, e.request, client);
        case Build(_, _, _, _, _, _, _) => BuildKeepsMirror(env, t, s, e.conn, id, e.request, client);
        case Move(_, _, _, _) =>
          assert o.session.players == s.players by { WorkshopKeepsPlayers(s, id, e.request); }
          MoveKeepsMirror(env, t, s, id, e.request, client);
        case Scrap(_, _) =>
          assert o.session.players == s.players by { WorkshopKeepsPlayers(s, id, e.request); }
          ScrapKeepsMirror(env, t, s, id, e.request, client);
        case _ =>
          PlayerRequestsAreQuiet(env, s, e);
          QuietChangesNothing(t, o.sends, client);
          SameWorldAgrees(t, s, o.session);
      }
    }
  }

  lemma WorkshopKeepsPlayers(s: Session, id: nat, req: Request)
    ensures req.Move? ==> HandleMove(s, id, req).session.players == s.players
    ensures req.Scrap? ==> HandleScrap(s, id, req).session.players == s.players
  {
  }

  lemma FireKeepsMirror(env: Env, t: Tables, s: Session, id: nat, req: Request, client: nat)
    requires req.Fire? && ActorsOk(s.actors) && Agree(t, s)
               && HasConn(HandleFire(env, s, id, req).session.players, client)
    ensures var o := HandleFire(env, s, id, req); Agree(After(t, o.sends, client), o.session)
  {
    hide HandleFire, Agree, After, HasConn, Wound;
    var o := HandleFire(env, s, id, req);
    FireHits(env, s, id, req);
    FireSends(env, s, id, req);
    FireFrame(env, s, id, req);
    if o.damage.Some? {
      var i := FindActor(s.actors, o.damage.value.victim);
      assert o.death.Some? ==> Wound(s.actors[i]).state.health == 0 by { WoundTakesOne(s.actors[i]); }
      HitKeepsMirror(t, s, o.session, i, o.damage.value, o.death, client);
    } else {
      AfterNothing(t, client);
      SameWorldAgrees(t, s, o.session);
    }
  }

  lemma WoundTakesOne(a: Actor)
    ensures a.state.health == 1 ==> Wound(a).state.health == 0
  {
  }

  /** The tick after any handler keeps the mirror of a client that is connected when it ends. */
  lemma TickAfterHandleKeepsMirror(env: Env, t: Tables, s: Session, e: Envelope, client: nat)
    requires HeadOk(env, s)
    requires var u := Handle(env, s, e).session; Agree(t, u) && HasConn(Tick(u).0.players, client)
    ensures var u := Handle(env, s, e).session; Agree(After(t, Tick(u).1, client), Tick(u).0)
  {
    hide Handle, Tick, Agree, After, HasConn, WorkshopOk, SeatingOk;
    var o := Handle(env, s, e);
    HandleHits(env, s, e);
    if o.damage.Some? {
      HitKeepsActors(s.actors, o.damage.value.victim);
    }
    if o.damage.Some? && o.damage.value.killed {
      TickKeepsMirror(t, o.session, client, FindActor(s.actors, o.damage.value.victim));
    } else {
      TickAliveIsQuiet(o.session, client);
      QuietChangesNothing(t, Tick(o.session).1, client);
      SameWorldAgrees(t, o.session, Tick(o.session).0);
    }
  }

  /** What the client at `client` holds after the turn. */
  function ClientAfter(env: Env, s: Session, e: Envelope, client: nat, t: Tables): Tables {
    After(t, Transmitted(env, s, e), client)
  }

  lemma TickConn(env: Env, s: Session, e: Envelope, client: nat)
    requires HasConn(Turn(env, s, e).players, client)
    ensures HasConn(Handle(env, s, e).session.players, client)
  {
    hide Handle, Tick, HasConn;
    TickPlayersIsQuiet(Handle(env, s, e).session, client);
  }

  lemma RequestTurnKeepsMirror(env: Env, s: Session, e: Envelope, client: nat, t: Tables)
    requires HeadOk(env, s) && Agree(t, s) && !e.request.Hello? && HasConn(Turn(env, s, e).players, client)
    ensures Agree(ClientAfter(env, s, e, client, t), Turn(env, s, e))
  {
    hide Handle, Tick, Agree, After, HasConn, ActorsOk, AllAlive, SeatingOk, WorkshopOk;
    var o := Handle(env, s, e);
    TickConn(env, s, e, client);
    HandleKeepsMirror(env, t, s, e, client);
    if o.accepted {
      TurnFitsQueue(env, s, e);
      AfterAppend(t, o.sends, Tick(o.session).1, client);
      TickAfterHandleKeepsMirror(env, After(t, o.sends, client), s, e, client);
    } else {
      RejectionSendsNothing(env, s, e);
      AfterNothing(t, client);
    }
  }

  lemma RejectionSendsNothing(env: Env, s: Session, e: Envelope)
    ensures !Handle(env, s, e).accepted ==> Handle(env, s, e).sends == []
  {
    hide BuildStep, ExistingState, Broadcast, Seat, FireValid, Target;
  }
}
