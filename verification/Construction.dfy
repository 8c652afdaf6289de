/** The workshop as its users see it: the slot tables and validators refine a map of pieces that three kinds of work
    change, and a client shows what the map says. */
module Construction {
  import opened Slots
  import opened Protocol
  import opened Session
  import opened Seating
  import opened Lifecycle
  import opened Workshop
  import opened Proxy
  import opened Mirror
  import opened Delivery
  import opened MirrorTurns
  import opened Holding
  import opened Coverage

  // ---- pieces --------------------------------------------------------------------------------------------------

  /** What is known of a placed object, apart from its id. */
  datatype Piece = Piece(form: nat, settlement: nat, position: Vec3, rotation: Rot3, flags: set<ObjectFlag>, owner: nat)

  function PieceOf(o: Object): Piece {
    Piece(o.formId, o.settlementId, o.position, o.rotation, o.flags, o.owner)
  }

  function Ids(objects: seq<Object>): set<nat> {
    set i | 0 <= i < |objects| && objects[i].inUse :: objects[i].id
  }

  function Found(objects: seq<Object>, id: nat): Piece {
    var i := FindObject(objects, id);
    if i < |objects| then PieceOf(objects[i]) else PieceOf(NO_OBJECT)
  }

  function Pieces(objects: seq<Object>): map<nat, Piece> {
    map id | id in Ids(objects) :: Found(objects, id)
  }

  ghost predicate DistinctObjects(objects: seq<Object>) {
    forall i, j :: 0 <= i < j < |objects| && objects[i].inUse && objects[j].inUse ==> objects[i].id != objects[j].id
  }

  lemma PieceAt(objects: seq<Object>, i: nat)
    requires DistinctObjects(objects) && i < |objects| && objects[i].inUse
    ensures objects[i].id in Pieces(objects) && Pieces(objects)[objects[i].id] == PieceOf(objects[i])
  {
    hide First;
    ObjectSlot(objects, i);
  }

  lemma PieceIff(objects: seq<Object>, id: nat)
    ensures id in Pieces(objects) <==> FindObject(objects, id) < |objects|
  {
    hide First;
  }

  ghost predicate HasPiece(objects: seq<Object>, id: nat) {
    exists j :: 0 <= j < |objects| && objects[j].inUse && objects[j].id == id
  }

  /** The map is determined by the slots in use. */
  lemma PiecesAre(objects: seq<Object>, m: map<nat, Piece>)
    requires DistinctObjects(objects)
    requires forall j :: 0 <= j < |objects| && objects[j].inUse ==>
               objects[j].id in m && m[objects[j].id] == PieceOf(objects[j])
    requires forall id :: id in m ==> HasPiece(objects, id)
    ensures Pieces(objects) == m
  {
    hide Found, PieceOf, First, DistinctObjects;
    forall id | id in Pieces(objects) ensures id in m && m[id] == Pieces(objects)[id] {
      var j :| 0 <= j < |objects| && objects[j].inUse && objects[j].id == id;
      PieceAt(objects, j);
    }
  }

  lemma PieceInUse(objects: seq<Object>, id: nat)
    ensures id in Pieces(objects) <==> HasPiece(objects, id)
  {
    hide Found;
  }

  /** Writing one slot removes what was in it and adds what now is. */
  lemma ReplaceOnPieces(objects: seq<Object>, i: nat, o: Object)
    requires i < |objects| && DistinctObjects(objects) && DistinctObjects(objects[i := o])
    ensures var kept := if objects[i].inUse then Pieces(objects) - {objects[i].id} else Pieces(objects);
            Pieces(objects[i := o]) == if o.inUse then kept[o.id := PieceOf(o)] else kept
  {
    hide Pieces, PieceOf, First;
    var after := objects[i := o];
    var kept := if objects[i].inUse then Pieces(objects) - {objects[i].id} else Pieces(objects);
    var want := if o.inUse then kept[o.id := PieceOf(o)] else kept;
    forall j | 0 <= j < |after| && after[j].inUse
      ensures after[j].id in want && want[after[j].id] == PieceOf(after[j])
    {
      if j != i {
        assert after[j] == objects[j] && after[i] == o;
        PieceAt(objects, j);
      }
    }
    forall id | id in want ensures HasPiece(after, id) {
      if o.inUse && id == o.id {
        assert after[i].inUse && after[i].id == id;
      } else {
        PieceInUse(objects, id);
        var j :| 0 <= j < |objects| && objects[j].inUse && objects[j].id == id;
        assert after[j] == objects[j];
      }
    }
    PiecesAre(after, want);
  }

  // ---- what is allowed -------------------------------------------------------------------------------------------

  /** The place lies within the radius of the settlement with this id. */
  ghost predicate WithinReach(s: Session, settlement: nat, at: Vec3) {
    exists t :: 0 <= t < |s.settlements| && Reaches(s.settlements[t], settlement, at)
  }

  predicate Reaches(t: Settlement, id: nat, at: Vec3) {
    t.inUse && t.id == id && Sq(at.x - t.center.x) + Sq(at.y - t.center.y) + Sq(at.z - t.center.z) <= Sq(t.radius)
  }

  /** The settlement holds fewer pieces than its budget. */
  ghost predicate WithinBudget(s: Session, settlement: nat) {
    exists t :: 0 <= t < |s.settlements| && s.settlements[t].inUse && s.settlements[t].id == settlement
                && ObjectsIn(s.objects, settlement) < s.settlements[t].budget
  }

  ghost predicate MayBuild(env: Env, s: Session, req: Request)
    requires req.Build?
  {
    && HostAuthWorkshop in s.rules && req.formId in env.whitelist
    && WithinReach(s, req.settlementId, req.position) && WithinBudget(s, req.settlementId)
    && (req.snapTarget != 0 ==>
          req.snapTarget in Pieces(s.objects) && Pieces(s.objects)[req.snapTarget].settlement == req.settlementId)
  }

  ghost predicate HasRoom(s: Session) { exists i :: 0 <= i < |s.objects| && !s.objects[i].inUse }

  /** What the envelope does to the workshop, and to which piece. */
  datatype Work =
    | Nothing
    | Places(id: nat, piece: Piece)
    | Moves(id: nat, at: Vec3, turn: Rot3)
    | Removes(id: nat)

  /** The player in whose name a connection speaks. */
  function Speaker(s: Session, conn: nat): Option<nat> {
    var i := FindConnection(s.players, conn);
    if i < |s.players| then Some(s.players[i].id) else None
  }

  /** A player builds, moves and scraps in its own name only, where the host rules the workshop. A piece is placed
      within reach and budget of a settlement and moved within reach of its own; only what is there is moved or
      scrapped. */
  ghost function WorkOf(env: Env, s: Session, e: Envelope): Work {
    var pieces := Pieces(s.objects);
    match e.request
    case Build(_, builder, settlement, form, at, turn, _) =>
      if Speaker(s, e.conn) == Some(builder) && MayBuild(env, s, e.request) && HasRoom(s)
      then Places(s.nextObjectId, Piece(form, settlement, at, turn, {PlacedByPlayer}, builder)) else Nothing
    case Move(mover, id, at, turn) =>
      if && Speaker(s, e.conn) == Some(mover) && HostAuthWorkshop in s.rules && id in pieces
         && WithinReach(s, pieces[id].settlement, at)
      then Moves(id, at, turn) else Nothing
    case Scrap(scrapper, id) =>
      if Speaker(s, e.conn) == Some(scrapper) && HostAuthWorkshop in s.rules && id in pieces then Removes(id)
      else Nothing
    case _ => Nothing
  }

  /** The pieces after some work: a moved piece keeps all but its pose and is marked as moved. */
  function Worked(pieces: map<nat, Piece>, w: Work): map<nat, Piece> {
    match w
    case Nothing => pieces
    case Places(id, piece) => pieces[id := piece]
    case Moves(id, at, turn) =>
      if id in pieces
      then pieces[id := pieces[id].(position := at, rotation := turn, flags := pieces[id].flags + {Moved})] else pieces
    case Removes(id) => pieces - {id}
  }

  // ---- the validators ------------------------------------------------------------------------------------------

  lemma ReachIff(env: Env, s: Session, id: nat, at: Vec3)
    requires WorkshopOk(env, s)
    ensures var t := FindSettlement(s.settlements, id);
            WithinReach(s, id, at) <==> t < |s.settlements| && Inside(s.settlements[t], at)
  {
    hide First, ObjectsOk, ObjectsIn;
    var t := FindSettlement(s.settlements, id);
    if t < |s.settlements| && Inside(s.settlements[t], at) { assert Reaches(s.settlements[t], id, at); }
    if u :| 0 <= u < |s.settlements| && Reaches(s.settlements[u], id, at) { SettlementSlot(s.settlements, u); }
  }

  lemma BudgetIff(env: Env, s: Session, id: nat)
    requires WorkshopOk(env, s)
    ensures var t := FindSettlement(s.settlements, id);
            WithinBudget(s, id) <==> t < |s.settlements| && s.settlements[t].count < s.settlements[t].budget
  {
    hide First, ObjectsOk, ObjectsIn;
    var t := FindSettlement(s.settlements, id);
    if u :| 0 <= u < |s.settlements| && s.settlements[u].inUse && s.settlements[u].id == id
            && ObjectsIn(s.objects, id) < s.settlements[u].budget {
      SettlementSlot(s.settlements, u);
    }
  }

  lemma Objects(env: Env, s: Session)
    requires WorkshopOk(env, s)
    ensures DistinctObjects(s.objects) && s.nextObjectId !in Pieces(s.objects)
  {
    hide First, CountsOk, Placed;
  }

  lemma FoundIs(env: Env, s: Session, id: nat)
    requires WorkshopOk(env, s)
    ensures var i := FindObject(s.objects, id);
            (id in Pieces(s.objects) <==> i < |s.objects|)
            && (i < |s.objects| ==> Pieces(s.objects)[id] == PieceOf(s.objects[i]))
  {
    hide First, WorkshopOk, Found;
    Objects(env, s);
    PieceIff(s.objects, id);
    var i := FindObject(s.objects, id);
    if i < |s.objects| { PieceAt(s.objects, i); }
  }

  lemma BuildValidIff(env: Env, s: Session, h: Session, req: Request)
    requires req.Build? && WorkshopOk(env, s) && h == s.(players := h.players) && Connected(h, req.builder)
    ensures BuildValid(env, h, req) <==> MayBuild(env, s, req)
  {
    hide First, WorkshopOk, Found, WithinReach, WithinBudget, Inside, Connected;
    ReachIff(env, s, req.settlementId, req.position);
    BudgetIff(env, s, req.settlementId);
    FoundIs(env, s, req.snapTarget);
  }

  lemma MoveValidIff(env: Env, s: Session, req: Request)
    requires req.Move? && WorkshopOk(env, s) && Connected(s, req.mover)
    ensures MoveValid(s, req) <==>
              && HostAuthWorkshop in s.rules && req.objectId in Pieces(s.objects)
              && WithinReach(s, Pieces(s.objects)[req.objectId].settlement, req.newPosition)
  {
    hide First, WorkshopOk, Found, WithinReach, Inside, Connected;
    FoundIs(env, s, req.objectId);
    var i := FindObject(s.objects, req.objectId);
    if i < |s.objects| { ReachIff(env, s, s.objects[i].settlementId, req.newPosition); }
  }

  // ---- the handlers ----------------------------------------------------------------------------------------------

  lemma BuildDoes(env: Env, s: Session, e: Envelope)
    requires SeatingOk(s) && WorkshopOk(env, s) && e.request.Build?
    ensures Pieces(Handle(env, s, e).session.objects) == Worked(Pieces(s.objects), WorkOf(env, s, e))
  {
    hide First, Pieces, Broadcast, WorkshopOk, BuildValid, MayBuild, Adjusted, SeatingOk;
    var req, i := e.request, FindConnection(s.players, e.conn);
    if i < |s.players| && s.players[i].id == req.builder {
      var h := Heard(s, req.builder);
      SpeakerIsConnected(s, e.conn);
      BuildValidIff(env, s, h, req);
      var j := FreeObject(s.objects);
      if BuildValid(env, h, req) && j < |s.objects| {
        assert HasRoom(s);
        Objects(env, s);
        PlayersApart(env, s, h);
        BuildKeepsWorkshop(env, h, req);
        var o := NewObject(req, s.nextObjectId);
        Objects(env, BuildStep(env, h, req).1);
        ReplaceOnPieces(s.objects, j, o);
      }
    }
  }

  lemma PlayersApart(env: Env, s: Session, h: Session)
    requires WorkshopOk(env, s) && h == s.(players := h.players)
    ensures WorkshopOk(env, h)
  {
  }

  /** The builder is answered: with the id of the new piece, or with the reason there is none. Only a build that was
      allowed uses up an id. */
  lemma BuildAnswers(env: Env, s: Session, e: Envelope)
    requires SeatingOk(s) && WorkshopOk(env, s) && e.request.Build?
    ensures var o, req, id := Handle(env, s, e), e.request, s.nextObjectId;
            && (o.accepted <==> Speaker(s, e.conn) == Some(req.builder))
            && (o.accepted ==>
                  && o.sends != []
                  && o.sends[0] == Send(e.conn,
                       if WorkOf(env, s, e).Places? then BuildResult(req.requestId, true, BuildOk, id)
                       else if MayBuild(env, s, req) then BuildResult(req.requestId, false, BuildBudgetExceeded, 0)
                       else BuildResult(req.requestId, false, BuildDeniedGeneric, 0))
                  && o.session.nextObjectId == if MayBuild(env, s, req) then id + 1 else id)
  {
    hide First, Pieces, Broadcast, WorkshopOk, BuildValid, MayBuild, Adjusted, SeatingOk;
    var req, i := e.request, FindConnection(s.players, e.conn);
    if i < |s.players| && s.players[i].id == req.builder {
      var h := Heard(s, req.builder);
      SpeakerIsConnected(s, e.conn);
      BuildValidIff(env, s, h, req);
      var j := FreeObject(s.objects);
      assert HasRoom(s) <==> j < |s.objects| by { RoomIff(s); }
    }
  }

  lemma RoomIff(s: Session)
    ensures HasRoom(s) <==> FreeObject(s.objects) < |s.objects|
  {
  }

  lemma SpeakerIsConnected(s: Session, conn: nat)
    requires SeatingOk(s)
    ensures var i := FindConnection(s.players, conn);
            i < |s.players| ==>
              && Connected(s, s.players[i].id) && Connected(Heard(s, s.players[i].id), s.players[i].id)
              && Heard(s, s.players[i].id) == s.(players := Heard(s, s.players[i].id).players)
  {
    hide First, RegistryOk;
    var i := FindConnection(s.players, conn);
    if i < |s.players| {
      var id := s.players[i].id;
      PlayerSlot(s.players, s.tick, id);
      assert Heard(s, id).players[id - 1].connected && Heard(s, id).players[id - 1].id == id;
    }
  }

  lemma MoveDoes(env: Env, s: Session, e: Envelope)
    requires SeatingOk(s) && WorkshopOk(env, s) && e.request.Move?
    ensures Pieces(Handle(env, s, e).session.objects) == Worked(Pieces(s.objects), WorkOf(env, s, e))
  {
    hide First, Pieces, Broadcast, WorkshopOk, MoveValid, SeatingOk, WithinReach;
    var req, i := e.request, FindConnection(s.players, e.conn);
    if i < |s.players| && s.players[i].id == req.mover {
      SpeakerIsConnected(s, e.conn);
      MoveValidIff(env, s, req);
      if MoveValid(s, req) {
        FoundIs(env, s, req.objectId);
        var j := FindObject(s.objects, req.objectId);
        MoveKeepsWorkshop(env, s, req.mover, req);
        Objects(env, s);
        Objects(env, HandleMove(s, req.mover, req).session);
        ReplaceOnPieces(s.objects, j, MovedObject(s.objects[j], req));
      }
    }
  }

  lemma ScrapDoes(env: Env, s: Session, e: Envelope)
    requires SeatingOk(s) && WorkshopOk(env, s) && e.request.Scrap?
    ensures Pieces(Handle(env, s, e).session.objects) == Worked(Pieces(s.objects), WorkOf(env, s, e))
  {
    hide First, Pieces, Broadcast, WorkshopOk, SeatingOk, Adjusted;
    var req, i := e.request, FindConnection(s.players, e.conn);
    if i < |s.players| && s.players[i].id == req.scrapper {
      SpeakerIsConnected(s, e.conn);
      FoundIs(env, s, req.scrapId);
      if ScrapValid(s, req) {
        var j := FindObject(s.objects, req.scrapId);
        ScrapKeepsWorkshop(env, s, req.scrapper, req);
        Objects(env, s);
        Objects(env, HandleScrap(s, req.scrapper, req).session);
        ReplaceOnPieces(s.objects, j, NO_OBJECT);
      }
    }
  }

  /** One turn of the server loop does to the pieces exactly the work its envelope stands for. */
  lemma TurnOnPieces(env: Env, s: Session, e: Envelope)
    requires SeatingOk(s) && WorkshopOk(env, s)
    ensures Pieces(Turn(env, s, e).objects) == Worked(Pieces(s.objects), WorkOf(env, s, e))
  {
    hide Handle, Pieces, WorkshopOk, SeatingOk, MayBuild, WithinReach, Speaker;
    TickKeepsObjects(Handle(env, s, e).session);
    match e.request {
      case Build(_, _, _, _, _, _, _) => BuildDoes(env, s, e);
      case Move(_, _, _, _) => MoveDoes(env, s, e);
      case Scrap(_, _) => ScrapDoes(env, s, e);
      case _ => HandleFrame(env, s, e);
    }
  }

  // ---- whole runs --------------------------------------------------------------------------------------------------

  /** The work of a run, turn by turn. */
  ghost function WorkOver(env: Env, s: Session, es: seq<Envelope>): (r: seq<Work>)
    ensures |r| == |es|
  {
    if es == [] then []
    else WorkOver(env, s, es[..|es| - 1]) + [WorkOf(env, Run(env, s, es[..|es| - 1]), es[|es| - 1])]
  }

  function AllWorked(pieces: map<nat, Piece>, ws: seq<Work>): map<nat, Piece> {
    if ws == [] then pieces else Worked(AllWorked(pieces, ws[..|ws| - 1]), ws[|ws| - 1])
  }

  /** Over every run the session's objects are what the work of the run made of them. */
  lemma {:induction false} RunOnPieces(env: Env, s: Session, es: seq<Envelope>)
    requires SeatingOk(s) && WorkshopOk(env, s)
    ensures Pieces(Run(env, s, es).objects) == AllWorked(Pieces(s.objects), WorkOver(env, s, es))
  {
    hide Turn, Pieces, WorkshopOk, SeatingOk, WorkOf, Worked;
    if es != [] {
      var before := es[..|es| - 1];
      RunOnPieces(env, s, before);
      RunKeepsSeating(env, s, before);
      WorkshopConservation(env, s, before);
      TurnOnPieces(env, Run(env, s, before), es[|es| - 1]);
      assert WorkOver(env, s, es)[..|before|] == WorkOver(env, s, before);
    }
  }

  lemma {:induction false} UntouchedStays(pieces: map<nat, Piece>, ws: seq<Work>, k: nat, id: nat)
    requires k <= |ws| && id in AllWorked(pieces, ws[..k])
    requires forall j :: k <= j < |ws| ==> ws[j].Nothing? || ws[j].id != id
    ensures id in AllWorked(pieces, ws) && AllWorked(pieces, ws)[id] == AllWorked(pieces, ws[..k])[id]
  {
    if k == |ws| {
      assert ws[..k] == ws;
    } else {
      var n := |ws| - 1;
      assert ws[..n][..k] == ws[..k];
      UntouchedStays(pieces, ws[..n], k, id);
    }
  }

  /** An object stands where its last move put it: after any run, if a turn moved it and no later turn worked on it, it
      has the pose of that move and is marked as moved. */
  lemma LastMoveStands(env: Env, s: Session, es: seq<Envelope>, k: nat)
    requires SeatingOk(s) && WorkshopOk(env, s) && k < |es| && WorkOver(env, s, es)[k].Moves?
    requires var ws := WorkOver(env, s, es); forall j :: k < j < |ws| ==> ws[j].Nothing? || ws[j].id != ws[k].id
    ensures var work, pieces := WorkOver(env, s, es)[k], Pieces(Run(env, s, es).objects);
            && work.id in pieces && pieces[work.id].position == work.at && pieces[work.id].rotation == work.turn
            && Moved in pieces[work.id].flags
  {
    hide Run, Pieces, WorkshopOk, SeatingOk, WorkOf, WorkOver;
    var ws := WorkOver(env, s, es);
    RunOnPieces(env, s, es);
    MovesWhatIsThere(env, s, es, k);
    var all := AllWorked(Pieces(s.objects), ws[..k]);
    assert ws[..k + 1][..k] == ws[..k];
    assert AllWorked(Pieces(s.objects), ws[..k + 1]) == Worked(all, ws[k]);
    UntouchedStays(Pieces(s.objects), ws, k + 1, ws[k].id);
  }

  lemma {:induction false} WorkOverPrefix(env: Env, s: Session, es: seq<Envelope>, k: nat)
    requires k <= |es|
    ensures WorkOver(env, s, es[..k]) == WorkOver(env, s, es)[..k]
  {
    hide WorkOf, Run;
    if k == |es| {
      assert es[..k] == es && WorkOver(env, s, es)[..k] == WorkOver(env, s, es);
    } else {
      var n := |es| - 1;
      WorkOverPrefix(env, s, es[..n], k);
      assert es[..n][..k] == es[..k];
      assert WorkOver(env, s, es)[..k] == WorkOver(env, s, es[..n])[..k];
    }
  }

  lemma MovesWhatIsThere(env: Env, s: Session, es: seq<Envelope>, k: nat)
    requires SeatingOk(s) && WorkshopOk(env, s) && k < |es| && WorkOver(env, s, es)[k].Moves?
    ensures var ws := WorkOver(env, s, es); ws[k].id in AllWorked(Pieces(s.objects), ws[..k])
  {
    hide Run, Pieces, WorkshopOk, SeatingOk, MayBuild, WithinReach, AllWorked;
    var m := Run(env, s, es[..k]);
    WorkOverPrefix(env, s, es, k);
    WorkOverPrefix(env, s, es, k + 1);
    assert es[..k + 1][..k] == es[..k] && es[..k + 1][k] == es[k];
    assert WorkOver(env, s, es[..k + 1])[k] == WorkOf(env, m, es[k]);
    RunOnPieces(env, s, es[..k]);
  }

  // ---- what a client shows -----------------------------------------------------------------------------------------

  /** The client holds the object just as the piece is. */
  ghost predicate ShowsPiece(t: Tables, id: nat, p: Piece) {
    var i := HeldObject(t.objects, id);
    && i < |t.objects|
    && var o := t.objects[i];
       o.formId == p.form && o.position == p.position && o.rotation == p.rotation && o.flags == p.flags
  }

  lemma HeldShowsPiece(env: Env, t: Tables, s: Session, id: nat)
    requires WorkshopOk(env, s) && Agree(t, s) && HoldsObject(t, id)
    ensures id in Pieces(s.objects) && ShowsPiece(t, id, Pieces(s.objects)[id])
  {
    hide First, WorkshopOk, ActorsAgree, Found;
    var i := HeldObject(t.objects, id);
    assert MatchesObject(t.objects[i], s.objects);
    FoundIs(env, s, id);
  }

  /** A connected client that mirrors the session and held a piece holds it, after a move, in the pose the request asked
      for; after a scrap it does not hold it; and it holds a new piece as requested if it had a free slot. */
  lemma WorkIsShown(env: Env, s: Session, e: Envelope, client: nat, t: Tables)
    requires HeadOk(env, s) && Agree(t, s) && HasConn(Turn(env, s, e).players, client)
    ensures var work, after := WorkOf(env, s, e), ClientAfter(env, s, e, client, t);
            match work
            case Nothing => true
            case Places(id, piece) => UsedObjects(t.objects) < |t.objects| ==> ShowsPiece(after, id, piece)
            case Moves(id, at, turn) =>
              HoldsObject(t, id) ==>
                && id in Pieces(s.objects)
                && ShowsPiece(after, id, Pieces(s.objects)[id].(position := at, rotation := turn,
                                                                flags := Pieces(s.objects)[id].flags + {Moved}))
            case Removes(id) => !HoldsObject(after, id)
  {
    hide Turn, Pieces, SeatingOk, WorkshopOk, ActorsOk, AllAlive, Agree, ClientAfter, HasConn, ShowsPiece, HoldsObject,
         MayBuild, WithinReach, UsedObjects, HasRoom;
    var work, u, after := WorkOf(env, s, e), Turn(env, s, e), ClientAfter(env, s, e, client, t);
    if !work.Nothing? {
      TurnOnPieces(env, s, e);
      RequestTurnKeepsMirror(env, s, e, client, t);
      TurnKeepsHead(env, s, e);
      TurnKeepsHeld(env, s, e, client, t, work.id);
      HasObjectIff(env, u, work.id);
      if work.Places? && UsedObjects(t.objects) < |t.objects| { BuildIsHeld(env, s, e, client, t); }
      if HoldsObject(after, work.id) { HeldShowsPiece(env, after, u, work.id); }
    }
  }

  lemma HasObjectIff(env: Env, s: Session, id: nat)
    requires WorkshopOk(env, s)
    ensures HasObject(s, id) <==> id in Pieces(s.objects)
  {
    hide First, WorkshopOk;
    FoundIs(env, s, id);
  }
}
