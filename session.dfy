/**
 * The session coordinator of app.js as a pure state machine.
 *
 * The server keeps one game position and a role table `players` with an
 * optional White and an optional Black connection id. Three socket events
 * drive it: a new connection, a disconnect, and a "move" message. Each
 * handler runs to completion before the next event is delivered, so each is
 * one transition here. Emitted socket events are appended to an outbox,
 * tagged with whether they go to the sending socket only or to everyone.
 */
module Sessions {
  import opened Wrappers
  import opened RulesEngine

  /** A socket.io connection id (socket.io never hands out an empty one). */
  type Id = string

  /** The payload of an emitted socket event. */
  datatype Payload =
    | NoData
    | ColorData(color: string)  // `{ color: "w" }` or `{ color: "b" }`
    | MoveData(move: Json)      // the move exactly as the client submitted it
    | FenData(fen: string)

  /** One emitted event: to the socket that caused it, or to every connected socket. */
  datatype Message =
    | ToSender(to: Id, event: string, payload: Payload)
    | Broadcast(event: string, payload: Payload)

  /** The coordinator's whole state: the role table, the position, and everything emitted so far. */
  datatype Session = Session(white: Option<Id>, black: Option<Id>, pos: Position, outbox: seq<Message>)

  // Event names, exactly as app.js spells them.
  const PlayerAssigned := "player_assigned"
  const SpectatorRole := "spectatorRole"
  const MoveEvent := "move"
  const BoardState := "boardState"
  const InvalidMove := "invalidmove"
  const MoveFault := "Invalid move: "

  /** The state at process start: no players, the given initial position, nothing sent. */
  function Start(initial: Position): Session {
    Session(None, None, initial, [])
  }

  /** The connection holding the slot of colour c. */
  function Holder(s: Session, c: Colour): Option<Id> {
    if c == White then s.white else s.black
  }

  predicate Holds(s: Session, id: Id) {
    s.white == Some(id) || s.black == Some(id)
  }

  /** No connection holds both slots. */
  predicate Distinct(s: Session) {
    s.white.Some? ==> s.white != s.black
  }

  /** The role table alone. */
  function Roles(s: Session): (Option<Id>, Option<Id>) {
    (s.white, s.black)
  }

  /** Every message emitted after the first `from` ones goes privately to socket `id`. */
  predicate OnlyTo(outbox: seq<Message>, from: nat, id: Id) {
    forall k | from <= k < |outbox| :: outbox[k].ToSender? && outbox[k].to == id
  }

  /**
   * A new connection (app.js:24-32): White is filled first, then Black, and
   * any later connection is told it is a spectator. Only the new socket is
   * sent anything, and the position is not touched.
   */
  function Connect(s: Session, id: Id): (r: Session)
    ensures r.pos == s.pos
    ensures |r.outbox| == |s.outbox| + 1 && r.outbox[..|s.outbox|] == s.outbox
    ensures OnlyTo(r.outbox, |s.outbox|, id)
    ensures s.white.None? ==>
      r.white == Some(id) && r.black == s.black &&
      r.outbox[|s.outbox|] == ToSender(id, PlayerAssigned, ColorData("w"))
    ensures s.white.Some? && s.black.None? ==>
      r.white == s.white && r.black == Some(id) &&
      r.outbox[|s.outbox|] == ToSender(id, PlayerAssigned, ColorData("b"))
    ensures s.white.Some? && s.black.Some? ==>
      Roles(r) == Roles(s) && r.outbox[|s.outbox|] == ToSender(id, SpectatorRole, NoData)
    ensures s.white.Some? ==> r.white == s.white
    ensures s.black.Some? ==> r.black == s.black
    ensures Distinct(s) && !Holds(s, id) ==> Distinct(r)
  {
    if s.white.None? then
      s.(white := Some(id), outbox := s.outbox + [ToSender(id, PlayerAssigned, ColorData(White.Code()))])
    else if s.black.None? then
      s.(black := Some(id), outbox := s.outbox + [ToSender(id, PlayerAssigned, ColorData(Black.Code()))])
    else
      s.(outbox := s.outbox + [ToSender(id, SpectatorRole, NoData)])
  }

  /**
   * A disconnect (app.js:34-40): the slot the socket held, if any, is
   * cleared; White is tested first. Nothing is sent and the game goes on.
   */
  function Disconnect(s: Session, id: Id): (r: Session)
    ensures r.pos == s.pos && r.outbox == s.outbox
    ensures s.white == Some(id) ==> r.white.None? && r.black == s.black
    ensures s.white != Some(id) ==> r.white == s.white
    ensures s.white != Some(id) && s.black == Some(id) ==> r.black.None?
    ensures !Holds(s, id) ==> r == s
    ensures Distinct(s) ==> Distinct(r) && !Holds(r, id)
  {
    if s.white == Some(id) then s.(white := None)
    else if s.black == Some(id) then s.(black := None)
    else s
  }

  /** The sender holds the slot of the side to move (the gate at app.js:44-45). */
  predicate OnTurn(e: Engine<Json>, s: Session, id: Id) {
    Holder(s, e.turn(s.pos)) == Some(id)
  }

  /** The move passes the gate and the engine plays it. */
  predicate Accepted(e: Engine<Json>, s: Session, id: Id, m: Json) {
    OnTurn(e, s, id) && e.apply(s.pos, m).Legal?
  }

  /**
   * A "move" message from socket `id` (app.js:42-59). A sender that does not
   * hold the slot of the side to move is ignored without any reply. Otherwise
   * the engine decides: a legal move replaces the position and is broadcast,
   * followed by the new position's FEN; a refused move is answered privately
   * with "invalidmove"; an engine exception is answered privately with an
   * event named "Invalid move: ".
   */
  function HandleMove(e: Engine<Json>, s: Session, id: Id, m: Json): (r: Session)
    ensures Roles(r) == Roles(s)
    ensures !OnTurn(e, s, id) ==> r == s
    ensures !Holds(s, id) ==> r == s
    ensures Accepted(e, s, id, m) ==>
      r.pos == e.apply(s.pos, m).next &&
      r.outbox == s.outbox + [Broadcast(MoveEvent, MoveData(m)), Broadcast(BoardState, FenData(e.fen(r.pos)))]
    ensures OnTurn(e, s, id) && e.apply(s.pos, m).Illegal? ==>
      r.pos == s.pos && r.outbox == s.outbox + [ToSender(id, InvalidMove, MoveData(m))]
    ensures OnTurn(e, s, id) && e.apply(s.pos, m).Fault? ==>
      r.pos == s.pos && r.outbox == s.outbox + [ToSender(id, MoveFault, MoveData(m))]
    ensures !Accepted(e, s, id, m) ==>
      r.pos == s.pos && |s.outbox| <= |r.outbox| && r.outbox[..|s.outbox|] == s.outbox &&
      OnlyTo(r.outbox, |s.outbox|, id)
  {
    var turn := e.turn(s.pos);
    if turn == White && Some(id) != s.white then s
    else if turn == Black && Some(id) != s.black then s
    else
      match e.apply(s.pos, m)
      case Legal(next, _) =>
        s.(pos := next, outbox := s.outbox + [Broadcast(MoveEvent, MoveData(m)), Broadcast(BoardState, FenData(e.fen(next)))])
      case Illegal =>
        s.(outbox := s.outbox + [ToSender(id, InvalidMove, MoveData(m))])
      case Fault =>
        s.(outbox := s.outbox + [ToSender(id, MoveFault, MoveData(m))])
  }

  /** The events the transport delivers, one at a time. */
  datatype Event = Connected(id: Id) | Disconnected(id: Id) | MoveSent(id: Id, move: Json)

  /** One delivered event. */
  function Step(e: Engine<Json>, s: Session, ev: Event): (r: Session)
    ensures |s.outbox| <= |r.outbox| && r.outbox[..|s.outbox|] == s.outbox
    ensures forall x :: Holds(r, x) ==> Holds(s, x) || ev == Connected(x)
    ensures Distinct(s) && (ev.Connected? ==> !Holds(s, ev.id)) ==> Distinct(r)
    ensures !ev.MoveSent? ==> r.pos == s.pos
    ensures ev.MoveSent? ==> Roles(r) == Roles(s)
  {
    match ev
    case Connected(id) => Connect(s, id)
    case Disconnected(id) => Disconnect(s, id)
    case MoveSent(id, m) => HandleMove(e, s, id, m)
  }

  /** A sequence of delivered events, in order. */
  function Run(e: Engine<Json>, s: Session, evs: seq<Event>): Session
    decreases |evs|
  {
    if evs == [] then s else Run(e, Step(e, s, evs[0]), evs[1..])
  }

  /**
   * socket.io never reuses an id: each connect in evs brings an id that no
   * slot of s holds and that no other connect in evs uses.
   */
  predicate FreshConnects(s: Session, evs: seq<Event>) {
    forall i | 0 <= i < |evs| && evs[i].Connected? ::
      !Holds(s, evs[i].id) &&
      forall j | i < j < |evs| && evs[j].Connected? :: evs[j].id != evs[i].id
  }

  /** With fresh ids, no connection ever holds both White and Black. */
  lemma {:induction false} FreshIdsKeepRolesDistinct(e: Engine<Json>, s: Session, evs: seq<Event>)
    requires Distinct(s) && FreshConnects(s, evs)
    ensures Distinct(Run(e, s, evs))
    decreases |evs|
  {
    if evs != [] {
      var next := Step(e, s, evs[0]);
      var rest := evs[1..];
      forall i | 0 <= i < |rest| && rest[i].Connected?
        ensures !Holds(next, rest[i].id)
        ensures forall j | i < j < |rest| && rest[j].Connected? :: rest[j].id != rest[i].id
      {
        assert rest[i] == evs[i + 1];
        assert forall j | i < j < |rest| :: rest[j] == evs[j + 1];
      }
      FreshIdsKeepRolesDistinct(e, next, rest);
    }
  }

  /** A connect for each id, in order. */
  function Connections(ids: seq<Id>): seq<Event> {
    if ids == [] then [] else [Connected(ids[0])] + Connections(ids[1..])
  }

  /** The spectator notice each id in turn receives. */
  function SpectatorNotices(ids: seq<Id>): seq<Message> {
    if ids == [] then [] else [ToSender(ids[0], SpectatorRole, NoData)] + SpectatorNotices(ids[1..])
  }

  /**
   * Once both slots are filled, any number of further connections are all
   * told they are spectators, one notice each, and nothing else changes.
   */
  lemma {:induction false} FullTableMakesSpectators(e: Engine<Json>, s: Session, ids: seq<Id>)
    requires s.white.Some? && s.black.Some?
    ensures Run(e, s, Connections(ids)) == s.(outbox := s.outbox + SpectatorNotices(ids))
    decreases |ids|
  {
    if ids != [] {
      var notice := ToSender(ids[0], SpectatorRole, NoData);
      var next := s.(outbox := s.outbox + [notice]);
      assert Step(e, s, Connected(ids[0])) == next;
      assert Run(e, s, Connections(ids)) == Run(e, next, Connections(ids[1..])) by {
        assert Connections(ids)[0] == Connected(ids[0]);
        assert Connections(ids)[1..] == Connections(ids[1..]);
      }
      FullTableMakesSpectators(e, next, ids[1..]);
      assert SpectatorNotices(ids) == [notice] + SpectatorNotices(ids[1..]);
      assert s.outbox + SpectatorNotices(ids) == next.outbox + SpectatorNotices(ids[1..]);
    }
  }

  /**
   * Starting from an empty role table, the first connection becomes White,
   * the second Black, and all later ones spectators.
   */
  lemma ConnectionOrder(e: Engine<Json>, s: Session, ids: seq<Id>)
    requires s.white.None? && s.black.None? && |ids| >= 2
    ensures Run(e, s, Connections(ids)) ==
      Session(Some(ids[0]), Some(ids[1]), s.pos,
              s.outbox + [ToSender(ids[0], PlayerAssigned, ColorData("w")),
                          ToSender(ids[1], PlayerAssigned, ColorData("b"))]
                       + SpectatorNotices(ids[2..]))
  {
    var s1 := Connect(s, ids[0]);
    var s2 := Connect(s1, ids[1]);
    assert Run(e, s, Connections(ids)) == Run(e, s1, Connections(ids[1..])) by {
      assert Connections(ids)[0] == Connected(ids[0]);
      assert Connections(ids)[1..] == Connections(ids[1..]);
    }
    assert Run(e, s1, Connections(ids[1..])) == Run(e, s2, Connections(ids[2..])) by {
      assert ids[1..][0] == ids[1] && ids[1..][1..] == ids[2..];
      assert Connections(ids[1..])[0] == Connected(ids[1]);
      assert Connections(ids[1..])[1..] == Connections(ids[2..]);
    }
    FullTableMakesSpectators(e, s2, ids[2..]);
  }

  /** The events that are not moves, in order. */
  function WithoutMoves(evs: seq<Event>): seq<Event> {
    if evs == [] then []
    else if evs[0].MoveSent? then WithoutMoves(evs[1..])
    else [evs[0]] + WithoutMoves(evs[1..])
  }

  /** Moves never affect the role table: it depends only on connects and disconnects. */
  lemma {:induction false} RolesIgnoreMoves(e: Engine<Json>, s: Session, t: Session, evs: seq<Event>)
    requires Roles(s) == Roles(t)
    ensures Roles(Run(e, s, evs)) == Roles(Run(e, t, WithoutMoves(evs)))
    decreases |evs|
  {
    if evs != [] {
      var ev := evs[0];
      if ev.MoveSent? {
        RolesIgnoreMoves(e, Step(e, s, ev), t, evs[1..]);
      } else {
        var w := WithoutMoves(evs[1..]);
        assert ([ev] + w)[0] == ev && ([ev] + w)[1..] == w;
        assert Roles(Step(e, s, ev)) == Roles(Step(e, t, ev));
        RolesIgnoreMoves(e, Step(e, s, ev), Step(e, t, ev), evs[1..]);
      }
    }
  }

  /**
   * First White, then Black, whatever moves are interleaved with the
   * connections.
   */
  lemma PlayersRegardlessOfMoves(e: Engine<Json>, s: Session, evs: seq<Event>, ids: seq<Id>)
    requires s.white.None? && s.black.None? && |ids| >= 2
    requires WithoutMoves(evs) == Connections(ids)
    ensures Roles(Run(e, s, evs)) == (Some(ids[0]), Some(ids[1]))
  {
    RolesIgnoreMoves(e, s, s, evs);
    ConnectionOrder(e, s, ids);
  }

  /**
   * A socket that holds no slot and never connects again along evs still
   * holds none at the end, so any move it sends is ignored: a spectator can
   * never have a move accepted, whatever else happens in between.
   */
  lemma {:induction false} SpectatorNeverMoves(e: Engine<Json>, s: Session, evs: seq<Event>, x: Id, m: Json)
    requires !Holds(s, x)
    requires forall i | 0 <= i < |evs| :: evs[i] != Connected(x)
    ensures !Holds(Run(e, s, evs), x)
    ensures HandleMove(e, Run(e, s, evs), x, m) == Run(e, s, evs)
    decreases |evs|
  {
    if evs != [] {
      var next := Step(e, s, evs[0]);
      assert forall i | 0 <= i < |evs[1..]| :: evs[1..][i] == evs[i + 1];
      SpectatorNeverMoves(e, next, evs[1..], x, m);
    }
  }

  /**
   * Once both slots are filled, any run of connects and moves, interleaved
   * in any order but with no disconnect, leaves the role table as it was.
   */
  lemma {:induction false} FullTableStaysFull(e: Engine<Json>, s: Session, evs: seq<Event>)
    requires s.white.Some? && s.black.Some?
    requires forall i | 0 <= i < |evs| :: !evs[i].Disconnected?
    ensures Roles(Run(e, s, evs)) == Roles(s)
    decreases |evs|
  {
    if evs != [] {
      var next := Step(e, s, evs[0]);
      assert Roles(next) == Roles(s);
      assert forall i | 0 <= i < |evs[1..]| :: evs[1..][i] == evs[i + 1];
      FullTableStaysFull(e, next, evs[1..]);
    }
  }

  /**
   * So while nobody leaves a full table, every later connection is told it
   * is a spectator and changes nothing else, however it is interleaved with
   * moves and other connections.
   */
  lemma LateJoinersSpectate(e: Engine<Json>, s: Session, evs: seq<Event>, x: Id)
    requires s.white.Some? && s.black.Some?
    requires forall i | 0 <= i < |evs| :: !evs[i].Disconnected?
    ensures var t := Run(e, s, evs);
      Connect(t, x) == t.(outbox := t.outbox + [ToSender(x, SpectatorRole, NoData)])
  {
    FullTableStaysFull(e, s, evs);
  }

  /** A disconnect is idempotent while no connection holds both slots. */
  lemma DisconnectIdempotent(s: Session, id: Id)
    requires Distinct(s)
    ensures Disconnect(Disconnect(s, id), id) == Disconnect(s, id)
  {
  }

  /**
   * A slot a player gives up goes to the next new connection, and the game
   * position survives both events.
   */
  lemma SlotReuse(s: Session, gone: Id, next: Id)
    requires Distinct(s) && Holds(s, gone) && !Holds(s, next)
    ensures Connect(Disconnect(s, gone), next).pos == s.pos
    ensures s.white == Some(gone) ==>
      Roles(Connect(Disconnect(s, gone), next)) == (Some(next), s.black)
    ensures s.black == Some(gone) && s.white.Some? ==>
      Roles(Connect(Disconnect(s, gone), next)) == (s.white, Some(next))
  {
  }

  /** The moves among evs, in order. */
  function MovesOf(evs: seq<Event>): seq<Json> {
    if evs == [] then []
    else if evs[0].MoveSent? then [evs[0].move] + MovesOf(evs[1..])
    else MovesOf(evs[1..])
  }

  /** Playing ms directly on the engine from p; None once a move is not legal. */
  function Replay(e: Engine<Json>, p: Position, ms: seq<Json>): Option<Position>
    decreases |ms|
  {
    if ms == [] then Some(p)
    else
      match e.apply(p, ms[0])
      case Legal(next, _) => Replay(e, next, ms[1..])
      case _ => None
  }

  /** The broadcasts for ms played from p, in order: each move, then the FEN it leads to. */
  function Announcements(e: Engine<Json>, p: Position, ms: seq<Json>): seq<Message>
    decreases |ms|
  {
    if ms == [] then []
    else
      match e.apply(p, ms[0])
      case Legal(next, _) =>
        [Broadcast(MoveEvent, MoveData(ms[0])), Broadcast(BoardState, FenData(e.fen(next)))]
          + Announcements(e, next, ms[1..])
      case _ => []
  }

  /** Every event in evs is a move from whoever holds the side to move at that point. */
  predicate FromTurnHolders(e: Engine<Json>, s: Session, evs: seq<Event>)
    decreases |evs|
  {
    evs == [] ||
    (evs[0].MoveSent? && OnTurn(e, s, evs[0].id) && FromTurnHolders(e, Step(e, s, evs[0]), evs[1..]))
  }

  /**
   * Legal moves submitted one at a time by the right players leave the
   * coordinator in the position the engine reaches by playing the whole
   * sequence directly; everyone is told each move and each new position, and
   * the role table is untouched.
   */
  lemma {:induction false} ServedMovesMatchEngine(e: Engine<Json>, s: Session, evs: seq<Event>)
    requires FromTurnHolders(e, s, evs)
    requires Replay(e, s.pos, MovesOf(evs)).Some?
    ensures Run(e, s, evs).pos == Replay(e, s.pos, MovesOf(evs)).value
    ensures Run(e, s, evs).outbox == s.outbox + Announcements(e, s.pos, MovesOf(evs))
    ensures Roles(Run(e, s, evs)) == Roles(s)
    decreases |evs|
  {
    if evs != [] {
      var ev := evs[0];
      var ms := MovesOf(evs);
      assert ms == [ev.move] + MovesOf(evs[1..]);
      assert ms[0] == ev.move && ms[1..] == MovesOf(evs[1..]);
      assert e.apply(s.pos, ev.move).Legal?;
      var next := Step(e, s, ev);
      ServedMovesMatchEngine(e, next, evs[1..]);
    }
  }
}
