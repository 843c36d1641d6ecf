/**
 * The chess rules engine (the chess.js library) as the coordinator and the
 * browser client see it. Its internals are foreign code, so positions, move
 * payloads and the move descriptions it returns are abstract types, and the
 * engine itself is a value holding three total functions. Nothing is assumed
 * about them beyond their types.
 */
module RulesEngine {
  /** A complete game position (board, side to move, castling, en passant, counters). */
  type Position

  /** Whatever JSON value a socket delivered as the payload of a "move" event. */
  type Json

  /** The move description chess.js returns from a successful `move()` call. */
  type MoveRecord

  /** The side to move, as `chess.turn()` reports it ("w" or "b"). */
  datatype Colour = White | Black
  {
    /** The one-letter code chess.js and the socket messages use. */
    function Code(): (c: string)
      ensures |c| == 1
      ensures c == "w" <==> White?
      ensures c == "b" <==> Black?
    {
      assert "w"[0] != "b"[0];
      match this
      case White => "w"
      case Black => "b"
    }
  }

  /**
   * What one `chess.move(m)` call does: it returns a move description and
   * moves to a new position, returns null for a move it refuses, or
   * throws. A throw is assumed to leave the position as it was.
   */
  datatype Outcome = Legal(next: Position, played: MoveRecord) | Illegal | Fault

  /**
   * The three engine entry points the core uses: `turn()`, `fen()` and
   * `move(m)`, for move inputs of type I.
   */
  datatype Engine<!I> = Engine(
    turn: Position -> Colour,
    fen: Position -> string,
    apply: (Position, I) -> Outcome)
}
