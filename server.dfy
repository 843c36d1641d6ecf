/**
 * The connection handler of app.js as one object: the module-level `players`
 * table and `chess` game become fields, and each socket event handler is a
 * method that runs atomically. Every method states its new fields and that
 * they are the corresponding transition of the Session state machine, whose
 * lemmas give the properties over whole event sequences.
 */
module Server {
  import opened Wrappers
  import opened RulesEngine
  import opened Sessions

  class Coordinator {
    const engine: Engine<Json>
    var white: Option<Id>
    var black: Option<Id>
    var pos: Position
    var outbox: seq<Message>

    /** The fields as one Session value. */
    ghost function State(): Session
      reads this
    {
      Session(white, black, pos, outbox)
    }

    /** Process start (app.js:11-12): a new game and an empty role table. */
    constructor (engine: Engine<Json>, initial: Position)
      ensures this.engine == engine
      ensures white.None? && black.None? && pos == initial && outbox == []
      ensures State() == Start(initial)
    {
      this.engine := engine;
      white, black := None, None;
      pos := initial;
      outbox := [];
    }

    /** The "connection" handler's role assignment (app.js:24-32). */
    method OnConnect(id: Id)
      modifies this
      ensures old(white).None? ==>
        white == Some(id) && black == old(black) &&
        outbox == old(outbox) + [ToSender(id, PlayerAssigned, ColorData("w"))]
      ensures old(white).Some? && old(black).None? ==>
        white == old(white) && black == Some(id) &&
        outbox == old(outbox) + [ToSender(id, PlayerAssigned, ColorData("b"))]
      ensures old(white).Some? && old(black).Some? ==>
        white == old(white) && black == old(black) &&
        outbox == old(outbox) + [ToSender(id, SpectatorRole, NoData)]
      ensures pos == old(pos)
      ensures State() == Connect(old(State()), id)
    {
      if white.None? {
        white := Some(id);
        outbox := outbox + [ToSender(id, PlayerAssigned, ColorData(White.Code()))];
      } else if black.None? {
        black := Some(id);
        outbox := outbox + [ToSender(id, PlayerAssigned, ColorData(Black.Code()))];
      } else {
        outbox := outbox + [ToSender(id, SpectatorRole, NoData)];
      }
    }

    /** The "disconnect" handler (app.js:34-40). */
    method OnDisconnect(id: Id)
      modifies this
      ensures old(white) == Some(id) ==> white.None? && black == old(black)
      ensures old(white) != Some(id) && old(black) == Some(id) ==> white == old(white) && black.None?
      ensures old(white) != Some(id) && old(black) != Some(id) ==> white == old(white) && black == old(black)
      ensures pos == old(pos) && outbox == old(outbox)
      ensures State() == Disconnect(old(State()), id)
    {
      if white == Some(id) {
        white := None;
      } else if black == Some(id) {
        black := None;
      }
    }

    /** The "move" handler (app.js:42-59): the turn gate, the engine call, then a broadcast or a private reply. */
    method OnMove(id: Id, m: Json)
      modifies this
      ensures white == old(white) && black == old(black)
      ensures Holder(old(State()), engine.turn(old(pos))) != Some(id) ==>
        pos == old(pos) && outbox == old(outbox)
      ensures Holder(old(State()), engine.turn(old(pos))) == Some(id) ==>
        match engine.apply(old(pos), m)
        case Legal(next, _) =>
          pos == next &&
          outbox == old(outbox) + [Broadcast(MoveEvent, MoveData(m)), Broadcast(BoardState, FenData(engine.fen(next)))]
        case Illegal =>
          pos == old(pos) && outbox == old(outbox) + [ToSender(id, InvalidMove, MoveData(m))]
        case Fault =>
          pos == old(pos) && outbox == old(outbox) + [ToSender(id, MoveFault, MoveData(m))]
      ensures State() == HandleMove(engine, old(State()), id, m)
    {
      var turn := engine.turn(pos);
      if turn == White && Some(id) != white {
        return;
      }
      if turn == Black && Some(id) != black {
        return;
      }
      var result := engine.apply(pos, m);
      match result {
        case Legal(next, _) =>
          pos := next;
          outbox := outbox + [Broadcast(MoveEvent, MoveData(m))];
          outbox := outbox + [Broadcast(BoardState, FenData(engine.fen(pos)))];
        case Illegal =>
          outbox := outbox + [ToSender(id, InvalidMove, MoveData(m))];
        case Fault =>
          outbox := outbox + [ToSender(id, MoveFault, MoveData(m))];
      }
    }
  }
}
