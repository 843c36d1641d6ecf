/**
 * The values the browser client computes while drawing the board
 * (public/js/chessgame.js): square names for grid cells, the light/dark
 * class of a cell, the glyph shown for a piece, and the two predicates that
 * depend on the player's role.
 */
module Board {
  import opened Wrappers

  /**
   * A grid cell as renderBoard numbers it: row 0 is the top row of the
   * unflipped board (rank 8), column 0 the left-hand column (file a).
   */
  datatype Cell = Cell(row: int, col: int)

  /** renderBoard only produces cells of the 8x8 grid chess.js returns. */
  predicate OnGrid(c: Cell) {
    0 <= c.row < 8 && 0 <= c.col < 8
  }

  /** A square name in algebraic notation: a file letter a-h, then a rank digit 1-8. */
  predicate IsSquareName(s: string) {
    |s| == 2 && 'a' <= s[0] <= 'h' && '1' <= s[1] <= '8'
  }

  /** The file index (0 for a) and rank number (1-8) a square name spells. */
  function FileIndex(s: string): int
    requires IsSquareName(s)
  {
    s[0] as int - 'a' as int
  }

  function RankNumber(s: string): int
    requires IsSquareName(s)
  {
    s[1] as int - '0' as int
  }

  /**
   * The template `${String.fromCharCode(97 + col)}${8 - row}` of handleMove
   * (chessgame.js:80-81). On the grid, 8 - row is a single decimal digit.
   */
  function SquareName(c: Cell): (name: string)
    requires OnGrid(c)
    ensures IsSquareName(name)
    ensures FileIndex(name) == c.col
    ensures RankNumber(name) == 8 - c.row
  {
    [(97 + c.col) as char] + [('0' as int + (8 - c.row)) as char]
  }

  /** The cell a square name denotes, the inverse of SquareName. */
  function ParseSquare(s: string): (r: Option<Cell>)
    ensures r.Some? <==> IsSquareName(s)
    ensures r.Some? ==> OnGrid(r.value)
  {
    if IsSquareName(s) then Some(Cell(8 - RankNumber(s), FileIndex(s))) else None
  }

  /** Reading back the generated name gives the cell it was made from. */
  lemma SquareNameRoundTrip(c: Cell)
    requires OnGrid(c)
    ensures ParseSquare(SquareName(c)) == Some(c)
  {
  }

  /** Every square name is generated, from the cell ParseSquare gives. */
  lemma ParseSquareRoundTrip(s: string)
    requires IsSquareName(s)
    ensures ParseSquare(s).Some? && SquareName(ParseSquare(s).value) == s
  {
  }

  /** No two cells of the grid share a name, so SquareName is a bijection onto the 64 square names. */
  lemma SquareNameInjective(a: Cell, b: Cell)
    requires OnGrid(a) && OnGrid(b) && SquareName(a) == SquareName(b)
    ensures a == b
  {
  }

  /** The corners: the top-left cell is a8, the bottom row runs from a1 to h1. */
  lemma CornerSquares()
    ensures SquareName(Cell(0, 0)) == "a8" && SquareName(Cell(0, 7)) == "h8"
    ensures SquareName(Cell(7, 0)) == "a1" && SquareName(Cell(7, 7)) == "h1"
  {
  }

  datatype Shade = Light | Dark

  /**
   * The class at chessgame.js:20. JavaScript's `%` truncates where Dafny's
   * is Euclidean, but both give 0 for exactly the even sums.
   */
  function SquareShade(c: Cell): (sh: Shade)
    ensures OnGrid(c) ==> (sh == Light <==> c.row % 2 == c.col % 2)
  {
    if (c.row + c.col) % 2 == 0 then Light else Dark
  }

  /** Neighbouring cells, in a row or a column, differ in shade. */
  lemma ShadeAlternates(c: Cell)
    ensures SquareShade(Cell(c.row, c.col + 1)) != SquareShade(c)
    ensures SquareShade(Cell(c.row + 1, c.col)) != SquareShade(c)
  {
  }

  /**
   * On the grid, a cell is light exactly when the file index of its square
   * plus its rank number is even; so a1 is dark and h1 light, as on a real
   * board.
   */
  lemma ShadeOfSquare(c: Cell)
    requires OnGrid(c)
    ensures SquareShade(c) == Light <==> (FileIndex(SquareName(c)) + RankNumber(SquareName(c))) % 2 == 0
    ensures SquareShade(Cell(7, 0)) == Dark && SquareShade(Cell(7, 7)) == Light
  {
  }

  /** A square of chess.js's board: a colour ("w" or "b") and a type letter. */
  datatype Piece = Piece(color: string, kind: string)

  predicate IsChessPiece(p: Piece) {
    p.color in {"w", "b"} && p.kind in {"p", "n", "b", "r", "q", "k"}
  }

  /** `toUpperCase` on the letters a-z; every other character is kept. */
  function UpperChar(ch: char): char {
    if 'a' <= ch <= 'z' then (ch as int - 32) as char else ch
  }

  function ToUpper(s: string): string {
    seq(|s|, i requires 0 <= i < |s| => UpperChar(s[i]))
  }

  /** The table `unicodePieces` (chessgame.js:98-113): lower case for Black, upper case for White. */
  const Glyphs: map<string, string> := map[
    "p" := "♟", "r" := "♜", "n" := "♞", "b" := "♝", "q" := "♛", "k" := "♚",
    "P" := "♙", "R" := "♖", "N" := "♘", "B" := "♗", "Q" := "♕", "K" := "♔"]

  /** The key getPieceUnicode looks up (chessgame.js:116): the upper-cased type for "w", the type as given otherwise. */
  function LookupKey(p: Piece): (key: string)
    ensures |key| == |p.kind|
    ensures p.color != "w" ==> key == p.kind
    ensures IsChessPiece(p) ==> key in Glyphs
  {
    assert ToUpper("p") == "P" && ToUpper("n") == "N" && ToUpper("b") == "B";
    assert ToUpper("r") == "R" && ToUpper("q") == "Q" && ToUpper("k") == "K";
    if p.color == "w" then ToUpper(p.kind) else p.kind
  }

  /** getPieceUnicode (chessgame.js:97-118): the table entry for the key, or "" for a key not in the table. */
  function PieceGlyph(p: Piece): (g: string)
    ensures g == "" <==> LookupKey(p) !in Glyphs
    ensures g != "" ==> |g| == 1 && '♔' <= g[0] <= '♟'
  {
    var key := LookupKey(p);
    if key in Glyphs then Glyphs[key] else ""
  }

  /** The piece a glyph shows, the inverse of PieceGlyph on real chess pieces. */
  function PieceOfGlyph(g: string): (r: Option<Piece>)
    ensures r.Some? ==> IsChessPiece(r.value)
  {
    if |g| != 1 || !('♔' <= g[0] <= '♟') then None
    else
      var code := g[0] as int - 0x2654;
      var colour := if code < 6 then "w" else "b";
      var kind := ["k", "q", "r", "b", "n", "p"][code % 6];
      Some(Piece(colour, kind))
  }

  /**
   * Every chess.js piece has a one-character glyph, a white one (U+2654 to
   * U+2659) exactly when the piece is white, and the glyph determines the
   * piece.
   */
  lemma {:induction false} GlyphIdentifiesPiece(p: Piece)
    requires IsChessPiece(p)
    ensures |PieceGlyph(p)| == 1
    ensures p.color == "w" <==> PieceGlyph(p)[0] <= '♙'
    ensures PieceOfGlyph(PieceGlyph(p)) == Some(p)
  {
    assert "w" != "b" by { assert "w"[0] != "b"[0]; }
    assert ToUpper("p") == "P" && ToUpper("n") == "N" && ToUpper("b") == "B";
    assert ToUpper("r") == "R" && ToUpper("q") == "Q" && ToUpper("k") == "K";
  }

  /** Two chess.js pieces with the same glyph are the same piece. */
  lemma GlyphInjective(p: Piece, q: Piece)
    requires IsChessPiece(p) && IsChessPiece(q) && PieceGlyph(p) == PieceGlyph(q)
    ensures p == q
  {
    GlyphIdentifiesPiece(p);
    GlyphIdentifiesPiece(q);
  }

  /**
   * Only "w" upper-cases the type: any other colour looks the type up as
   * given, so an upper-case type under such a colour shows a white glyph.
   */
  lemma ColourOnlyChoosesCase(t: string, other: string)
    requires other != "w"
    ensures PieceGlyph(Piece("w", t)) == PieceGlyph(Piece(other, ToUpper(t)))
    ensures PieceGlyph(Piece(other, t)) == if t in Glyphs then Glyphs[t] else ""
  {
  }

  /** `pieceElement.draggable = playerRole === square.color` (chessgame.js:29); a spectator's role is null. */
  function Draggable(role: Option<string>, p: Piece): (d: bool)
    ensures role.None? ==> !d
    ensures role.Some? ==> (d <==> role.value == p.color)
  {
    role == Some(p.color)
  }

  /** The board carries the class "flipped" exactly for the black player (chessgame.js:70-74). */
  function Flipped(role: Option<string>): (f: bool)
    ensures role.None? ==> !f
    ensures f ==> role != Some("w")
    ensures role.Some? ==> (f <==> role.value == "b")
  {
    role == Some("b")
  }

  /**
   * Every chess.js piece can be dragged by exactly one of the two players,
   * and never by a spectator, whose role is null.
   */
  lemma DragView(p: Piece)
    requires IsChessPiece(p)
    ensures Draggable(Some("w"), p) != Draggable(Some("b"), p)
    ensures !Draggable(None, p)
  {
  }
}
