/** The move-history strings of Game.convert_to_san and the move text of Game.format_pgn. */
module Notation {
  import opened Pieces

  const ColNames: string := "abcdefgh"

  /** The decimal digit of 0 <= n <= 9, as `f"{n}"` writes it. */
  function DigitChar(n: int): char
    requires 0 <= n <= 9
  {
    ('0' as int + n) as char
  }

  /** A history entry: colour letter, kind letter, destination file `a`..`h`, destination rank `1`..`8`. */
  predicate IsSanEntry(e: string) {
    |e| == 4 && e[0] in "wb" && e[1] in "prnbqk" && e[2] in ColNames && '1' <= e[3] <= '8'
  }

  /** Game.convert_to_san: the piece's symbol followed by the destination square in
      algebraic form; the start square is computed by the source but not used. */
  function ConvertToSan(startPos: Square, endPos: Square, piece: Piece): (r: string)
    requires InBounds(startPos) && InBounds(endPos)
    ensures IsSanEntry(r)
  {
    Symbol(piece) + [ColNames[endPos.0], DigitChar(8 - endPos.1)]
  }

  function ParseColour(ch: char): Option<Colour> {
    if ch == 'w' then Some(White) else if ch == 'b' then Some(Black) else None
  }

  function ParseKind(ch: char): Option<Kind> {
    if ch == 'p' then Some(Pawn) else if ch == 'r' then Some(Rook)
    else if ch == 'n' then Some(Knight) else if ch == 'b' then Some(Bishop)
    else if ch == 'q' then Some(Queen) else if ch == 'k' then Some(King)
    else None
  }

  /** Reads a history entry back into (colour, kind, destination square). */
  function ParseSan(e: string): Option<(Colour, Kind, Square)> {
    if !IsSanEntry(e) then None
    else
      var c := ParseColour(e[0]);
      var k := ParseKind(e[1]);
      if c.None? || k.None? then None
      else Some((c.value, k.value, (e[2] as int - 'a' as int, 8 - (e[3] as int - '0' as int))))
  }

  /** Every entry convert_to_san records names the moved piece's colour and kind and the destination. */
  lemma SanRoundTrip(startPos: Square, endPos: Square, piece: Piece)
    requires InBounds(startPos) && InBounds(endPos)
    ensures ParseSan(ConvertToSan(startPos, endPos, piece)) == Some((piece.colour, piece.kind, endPos))
  {
    var r := ConvertToSan(startPos, endPos, piece);
    assert r[0] == ColourLetter(piece.colour) && r[1] == KindLetter(piece.kind);
    assert r[2] as int - 'a' as int == endPos.0;
    assert ParseKind(KindLetter(piece.kind)) == Some(piece.kind) by {
      match piece.kind
      case Pawn =>
      case Rook =>
      case Knight =>
      case Bishop =>
      case Queen =>
      case King =>
    }
  }

  /** `" ".join(move_history)` */
  function JoinMoves(history: seq<string>): string
    decreases |history|
  {
    if |history| == 0 then ""
    else if |history| == 1 then history[0]
    else history[0] + " " + JoinMoves(history[1..])
  }

  /** Game.format_pgn with the header (which holds today's date) taken as a parameter. */
  function PgnText(header: string, history: seq<string>): string {
    header + JoinMoves(history) + " *\n"
  }

  /** The PGN text is the header, then the recorded entries at every fifth character separated
      by single spaces, then the result marker `" *\n"`. */
  lemma PgnLayout(header: string, history: seq<string>)
    requires forall i :: 0 <= i < |history| ==> IsSanEntry(history[i])
    ensures var t := PgnText(header, history);
      && |t| == |header| + (if |history| == 0 then 3 else 5 * |history| + 2)
      && t[..|header|] == header
      && t[|t| - 3..] == " *\n"
      && (forall i :: 0 <= i < |history| ==> t[|header| + 5 * i .. |header| + 5 * i + 4] == history[i])
      && (forall i :: 0 <= i < |history| - 1 ==> t[|header| + 5 * i + 4] == ' ')
  {
    var t := PgnText(header, history);
    var j := JoinMoves(history);
    assert t == header + j + " *\n";
    if |history| > 0 {
      JoinedEntries(history);
      forall i | 0 <= i < |history|
        ensures t[|header| + 5 * i .. |header| + 5 * i + 4] == history[i]
      {
        assert t[|header| + 5 * i .. |header| + 5 * i + 4] == j[5 * i .. 5 * i + 4];
      }
      forall i | 0 <= i < |history| - 1
        ensures t[|header| + 5 * i + 4] == ' '
      {
        assert t[|header| + 5 * i + 4] == j[5 * i + 4];
      }
    }
  }

  /** The joined history of n recorded moves is 5n - 1 characters long, entry i sitting at 5i
      and a single space after every entry but the last. */
  lemma {:induction false} JoinedEntries(history: seq<string>)
    requires |history| > 0
    requires forall i :: 0 <= i < |history| ==> IsSanEntry(history[i])
    ensures |JoinMoves(history)| == 5 * |history| - 1
    ensures forall i :: 0 <= i < |history| ==> JoinMoves(history)[5 * i .. 5 * i + 4] == history[i]
    ensures forall i :: 0 <= i < |history| - 1 ==> JoinMoves(history)[5 * i + 4] == ' '
    decreases |history|
  {
    if |history| > 1 {
      var rest := history[1..];
      JoinedEntries(rest);
      var j := JoinMoves(history);
      assert j == history[0] + " " + JoinMoves(rest);
      forall i | 0 <= i < |history|
        ensures j[5 * i .. 5 * i + 4] == history[i]
      {
        if i == 0 {
          assert j[..4] == history[0];
        } else {
          assert j[5 * i .. 5 * i + 4] == JoinMoves(rest)[5 * (i - 1) .. 5 * (i - 1) + 4];
        }
      }
      forall i | 0 <= i < |history| - 1
        ensures j[5 * i + 4] == ' '
      {
        if i > 0 {
          assert j[5 * i + 4] == JoinMoves(rest)[5 * (i - 1) + 4];
        }
      }
    }
  }
}
