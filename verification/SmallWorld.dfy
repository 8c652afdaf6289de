/** Worlds of at most 26 hostiles, such as the one the service boots with: there no replay is ever split, and every
    client mirrors the session for as long as it is connected. */
module SmallWorld {
  import opened Slots
  import opened Combat
  import opened Session
  import opened Seating
  import opened Lifecycle
  import opened Mirror
  import opened Delivery
  import opened Proxy
  import opened MirrorJoin
  import opened Service

  const FEW_ACTORS: nat := 26

  function InUse(actors: seq<Actor>): nat { Count(actors, (a: Actor) => a.inUse) }

  lemma {:induction false} CountWeaker<T>(s: seq<T>, p: T -> bool, q: T -> bool)
    requires forall i :: 0 <= i < |s| && p(s[i]) ==> q(s[i])
    ensures Count(s, p) <= Count(s, q)
  {
    if s != [] { CountWeaker(s[..|s| - 1], p, q); }
  }

  /** A replay of at most 26 actors ends within the queue, or between two actors. */
  lemma FewActorsNeverSplit(env: Env, s: Session, e: Envelope)
    requires SeatingOk(s) && e.request.Hello? && InUse(s.actors) <= FEW_ACTORS
    ensures !Splits(env, s, e)
  {
    hide Seat, ReplayCenter, First, SeatingOk, KeepsIds, Extends;
    SeatFindsSlot(s, e.conn, e.request.guid);
    if Seat(s, e.conn, e.request.guid).Some? {
      var (id, seated) := Seat(s, e.conn, e.request.guid).value;
      CountMiss(seated.players, (p: Player) => p.connected && p.id != id, id - 1);
      var center := ReplayCenter(seated.players, id, s.bubbleCenter);
      CountWeaker(s.actors, (a: Actor) => ReplaysActor(a, center, ReplayRadius(s)), (a: Actor) => a.inUse);
    }
  }

  lemma TurnUsesNoMore(env: Env, s: Session, e: Envelope)
    requires ActorsOk(s.actors) && AllAlive(s.actors)
    ensures InUse(Turn(env, s, e).actors) <= InUse(s.actors)
  {
    hide Handle, Tick, First, ActorsOk, AllAlive;
    TurnHits(env, s, e);
    var damage := Handle(env, s, e).damage;
    if damage.Some? {
      var t := FindActor(s.actors, damage.value.victim);
      if t < |s.actors| {
        CountUpdate(s.actors, t, Turn(env, s, e).actors[t], (a: Actor) => a.inUse);
      }
    }
  }

  lemma {:induction false} ReachableUsesNoMore(env: Env, c: Config, es: seq<Envelope>)
    requires DistinctPlots(c)
    ensures InUse(Run(env, Boot(c), es).actors) <= |c.spawns|
  {
    hide Boot, Turn, ActorsOk, AllAlive, InUse;
    if es == [] {
      BootUses(c);
    } else {
      var before := es[..|es| - 1];
      ReachableUsesNoMore(env, c, before);
      ReachableIsOk(env, c, before);
      TurnUsesNoMore(env, Run(env, Boot(c), before), es[|es| - 1]);
    }
  }

  lemma BootUses(c: Config)
    ensures InUse(Boot(c).actors) <= |c.spawns|
  {
    var actors := Boot(c).actors;
    if |c.spawns| <= |actors| { CountFront(actors, (a: Actor) => a.inUse, |c.spawns|); }
  }

  lemma StayingIsAttached(env: Env, c: Config, before: seq<Envelope>, es: seq<Envelope>, client: nat)
    requires DistinctPlots(c) && |c.spawns| <= FEW_ACTORS && Stays(env, Run(env, Boot(c), before), es, client)
    ensures Attached(env, Run(env, Boot(c), before), es, client)
  {
    hide Boot, Turn, Run, InUse, Splits, ActorsOk, AllAlive, HasConn, SeatingOk;
    var s := Run(env, Boot(c), before);
    forall n | 0 <= n < |es| && es[n].request.Hello? ensures !Splits(env, Run(env, s, es[..n]), es[n]) {
      RunAppend(env, Boot(c), before, es[..n]);
      ReachableIsOk(env, c, before + es[..n]);
      ReachableUsesNoMore(env, c, before + es[..n]);
      FewActorsNeverSplit(env, Run(env, s, es[..n]), es[n]);
    }
  }

  /** From boot with at most 26 hostiles, every client that stays connected mirrors the session: whatever it holds, the
      session has, with the same state. No condition on the queue is left. */
  lemma SmallWorldsMirror(env: Env, c: Config, before: seq<Envelope>, es: seq<Envelope>, client: nat)
    requires DistinctPlots(c) && |c.spawns| <= FEW_ACTORS && Stays(env, Run(env, Boot(c), before), es, client)
    ensures var s := Run(env, Boot(c), before);
            Agree(ClientRun(env, s, es, client, EmptyTables()), Run(env, s, es))
  {
    hide Boot, Run, Agree, Attached, Stays;
    StayingIsAttached(env, c, before, es, client);
    ClientsMirror(env, c, before, es, client);
  }

  /** The service's own configuration is such a world. */
  lemma DefaultIsSmall(timeout: nat)
    ensures DistinctPlots(DefaultConfig(timeout)) && |DefaultConfig(timeout).spawns| <= FEW_ACTORS
  {
  }
}
