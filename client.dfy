/**
 * The browser client's mutable state (public/js/chessgame.js:6-8): the
 * player's role, the piece being dragged and the cell it came from, plus the
 * client's own copy of the game and the "move" messages it has sent to the
 * server. Each DOM or socket listener that changes them is a method.
 */
module Client {
  import opened Wrappers
  import opened RulesEngine
  import opened Board
  import opened Sessions

  /** The argument handleMove passes to the local `chess.move` (chessgame.js:79-83). */
  datatype MoveRequest = MoveRequest(from: string, to: string, promotion: string)

  /**
   * The request for a drag from `source` to `target`: the two square names,
   * and always a queen for a promotion.
   */
  function RequestFor(source: Cell, target: Cell): (r: MoveRequest)
    requires OnGrid(source) && OnGrid(target)
    ensures r.promotion == "q"
    ensures IsSquareName(r.from) && IsSquareName(r.to)
    ensures ParseSquare(r.from) == Some(source) && ParseSquare(r.to) == Some(target)
  {
    SquareNameRoundTrip(source);
    SquareNameRoundTrip(target);
    MoveRequest(SquareName(source), SquareName(target), "q")
  }

  /**
   * The role the client's listeners set on receiving a connect notice:
   * the colour of "player_assigned" (chessgame.js:122), null for
   * "spectatorRole" (chessgame.js:128).
   */
  function RoleOf(notice: Message): (role: Option<string>)
    ensures role.Some? ==> notice.ToSender? && notice.event == PlayerAssigned && notice.payload.ColorData?
    ensures notice.ToSender? && notice.event == PlayerAssigned && notice.payload.ColorData? ==>
      role == Some(notice.payload.color)
    ensures notice.ToSender? && notice.event == SpectatorRole ==> role.None?
  {
    match notice
    case ToSender(_, event, ColorData(color)) => if event == PlayerAssigned then Some(color) else None
    case _ => None
  }

  /**
   * What a new connection's board shows once the server's connect notice
   * arrives: it may drag the pieces of a colour exactly when the server gave
   * it that colour's slot, and its board is flipped exactly when it became
   * Black.
   */
  lemma ConnectNoticeView(s: Session, id: Id, p: Piece)
    requires IsChessPiece(p)
    ensures var r := Connect(s, id);
      var role := RoleOf(r.outbox[|s.outbox|]);
      (Draggable(role, p) <==>
         (p.color == "w" && s.white.None?) || (p.color == "b" && s.white.Some? && s.black.None?)) &&
      (Flipped(role) <==> s.white.Some? && s.black.None?) &&
      (role.Some? <==> !(s.white.Some? && s.black.Some?))
  {
  }

  class BoardClient {
    const engine: Engine<MoveRequest>
    var pos: Position
    var playerRole: Option<string>
    var draggedPiece: Option<Piece>
    var sourceSquare: Option<Cell>
    var sent: seq<MoveRecord>

    /** A drag in progress always knows the cell it started from, and that cell is on the grid. */
    ghost predicate Valid()
      reads this
    {
      draggedPiece.Some? == sourceSquare.Some? &&
      (sourceSquare.Some? ==> OnGrid(sourceSquare.value))
    }

    /** Page load (chessgame.js:3-8): a new local game, no role, no drag, nothing sent. */
    constructor (engine: Engine<MoveRequest>, initial: Position)
      ensures Valid()
      ensures this.engine == engine && pos == initial
      ensures playerRole.None? && draggedPiece.None? && sourceSquare.None? && sent == []
    {
      this.engine := engine;
      pos := initial;
      playerRole := None;
      draggedPiece, sourceSquare := None, None;
      sent := [];
    }

    /** The "player_assigned" listener (chessgame.js:121-125). */
    method OnPlayerAssigned(color: string)
      requires Valid()
      modifies this
      ensures Valid()
      ensures playerRole == Some(color)
      ensures Flipped(playerRole) <==> color == Black.Code()
      ensures pos == old(pos) && sent == old(sent)
      ensures draggedPiece == old(draggedPiece) && sourceSquare == old(sourceSquare)
    {
      playerRole := Some(color);
    }

    /** The "spectatorRole" listener (chessgame.js:127-131). */
    method OnSpectatorRole()
      requires Valid()
      modifies this
      ensures Valid()
      ensures playerRole.None?
      ensures !Flipped(playerRole)
      ensures forall p: Piece :: !Draggable(playerRole, p)
      ensures pos == old(pos) && sent == old(sent)
      ensures draggedPiece == old(draggedPiece) && sourceSquare == old(sourceSquare)
    {
      playerRole := None;
    }

    /**
     * "dragstart" on the piece p drawn at `from` (chessgame.js:31-38). Every
     * role change redraws the board, so the element's draggable flag is
     * Draggable of the current role.
     */
    method OnDragStart(p: Piece, from: Cell)
      requires Valid() && OnGrid(from)
      modifies this
      ensures Valid()
      ensures Draggable(playerRole, p) ==> draggedPiece == Some(p) && sourceSquare == Some(from)
      ensures !Draggable(playerRole, p) ==>
        draggedPiece == old(draggedPiece) && sourceSquare == old(sourceSquare)
      ensures playerRole.None? ==>
        draggedPiece == old(draggedPiece) && sourceSquare == old(sourceSquare)
      ensures playerRole == old(playerRole) && pos == old(pos) && sent == old(sent)
    {
      if Draggable(playerRole, p) {
        draggedPiece := Some(p);
        sourceSquare := Some(from);
      }
    }

    /** "dragend" (chessgame.js:40-44): both drag fields are reset. */
    method OnDragEnd()
      modifies this
      ensures Valid()
      ensures draggedPiece.None? && sourceSquare.None?
      ensures playerRole == old(playerRole) && pos == old(pos) && sent == old(sent)
    {
      draggedPiece := None;
      sourceSquare := None;
    }

    /** "drop" on the cell `target` (chessgame.js:53-62): a move is attempted only while a piece is dragged. */
    method OnDrop(target: Cell)
      requires Valid() && OnGrid(target)
      modifies this
      ensures Valid()
      ensures draggedPiece == old(draggedPiece) && sourceSquare == old(sourceSquare)
      ensures playerRole == old(playerRole)
      ensures old(draggedPiece).None? ==> pos == old(pos) && sent == old(sent)
      ensures old(draggedPiece).Some? ==>
        match engine.apply(old(pos), RequestFor(old(sourceSquare).value, target))
        case Legal(next, played) => pos == next && sent == old(sent) + [played]
        case _ => pos == old(pos) && sent == old(sent)
    {
      if draggedPiece.Some? {
        HandleMove(sourceSquare.value, target);
      }
    }

    /**
     * handleMove (chessgame.js:78-94): try the move on the local game; a
     * move the engine plays is sent to the server as the engine describes
     * it. A refused move sends nothing. A throw escapes the listener and
     * sends nothing either.
     */
    method HandleMove(source: Cell, target: Cell)
      requires Valid() && OnGrid(source) && OnGrid(target)
      modifies this`pos, this`sent
      ensures Valid()
      ensures match engine.apply(old(pos), RequestFor(source, target))
        case Legal(next, played) => pos == next && sent == old(sent) + [played]
        case _ => pos == old(pos) && sent == old(sent)
    {
      var request := RequestFor(source, target);
      var result := engine.apply(pos, request);
      match result {
        case Legal(next, played) =>
          pos := next;
          sent := sent + [played];
        case Illegal =>
        case Fault =>
      }
    }
  }
}
