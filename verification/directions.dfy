/** The compass table of `index.js`: four orientations kept in the fixed key
    order N, E, S, W, their unit steps, and turning left or right by stepping
    through that key order. */
module Directions {

  datatype Orientation = N | E | S | W

  /** The key order of the direction table; turning walks through it. */
  const Keys: seq<Orientation> := [N, E, S, W]

  /** What a robot holds as its direction. The source stores the letter of the
      pose line unchecked, so a letter outside the table is kept as it was read. */
  datatype Heading = Known(o: Orientation) | Unknown(letter: string)

  function Letter(o: Orientation): char {
    match o
    case N => 'N'
    case E => 'E'
    case S => 'S'
    case W => 'W'
  }

  /** The letter printed for a heading. */
  function HeadingText(h: Heading): string {
    match h
    case Known(o) => [Letter(o)]
    case Unknown(l) => l
  }

  /** The direction letter of a pose line, looked up in the table. */
  function ParseHeading(tok: string): (h: Heading)
    ensures HeadingText(h) == tok
    ensures h.Unknown? <==> tok !in {"N", "E", "S", "W"}
  {
    if tok == "N" then Known(N)
    else if tok == "E" then Known(E)
    else if tok == "S" then Known(S)
    else if tok == "W" then Known(W)
    else Unknown(tok)
  }

  /** A heading as parsing produces it: an unknown one never spells a table key. */
  predicate Canonical(h: Heading) {
    h.Unknown? ==> h.letter !in {"N", "E", "S", "W"}
  }

  /** `directionsKeys.indexOf(direction)`: the position in the key order, or -1. */
  function IndexOf(h: Heading): (i: int)
    ensures -1 <= i < |Keys|
    ensures i == -1 <==> h.Unknown?
    ensures i >= 0 ==> Keys[i] == h.o
  {
    match h
    case Known(N) => 0
    case Known(E) => 1
    case Known(S) => 2
    case Known(W) => 3
    case Unknown(_) => -1
  }

  /** Clockwise successor, written out as a table: the reference the index
      arithmetic of `Turn` is checked against. */
  function Clockwise(o: Orientation): Orientation {
    match o
    case N => E
    case E => S
    case S => W
    case W => N
  }

  /** One step through the key order, `sgn` being -1 for a left turn and +1 for
      a right one. The dividend is never negative, so JavaScript's truncating
      `%` and Dafny's Euclidean `%` agree here. */
  function Turn(h: Heading, sgn: int): (o: Orientation)
    requires sgn == -1 || sgn == 1
    ensures h.Known? && sgn == 1 ==> o == Clockwise(h.o)
    ensures h.Known? && sgn == -1 ==> Clockwise(o) == h.o
    ensures h.Unknown? ==> o == (if sgn == 1 then N else S)
  {
    Keys[(|Keys| + IndexOf(h) + sgn) % |Keys|]
  }

  /** Turning right is the clockwise successor; from an unknown letter the
      index -1 lands on N. */
  function RotateRight(h: Heading): (o: Orientation)
    ensures h.Known? ==> o == Clockwise(h.o)
    ensures h.Unknown? ==> o == N
  {
    Turn(h, 1)
  }

  /** Turning left is the clockwise predecessor; from an unknown letter the
      index -1 lands on S. */
  function RotateLeft(h: Heading): (o: Orientation)
    ensures h.Known? ==> Clockwise(o) == h.o
    ensures h.Unknown? ==> o == S
  {
    Turn(h, -1)
  }

  /** The `{ dx, dy }` entry of the table. */
  function Delta(o: Orientation): (d: (int, int))
    ensures d.0 * d.0 + d.1 * d.1 == 1
  {
    match o
    case N => (0, 1)
    case E => (1, 0)
    case S => (0, -1)
    case W => (-1, 0)
  }

  lemma LeftUndoesRight(o: Orientation)
    ensures RotateLeft(Known(RotateRight(Known(o)))) == o
  {
  }

  lemma RightUndoesLeft(o: Orientation)
    ensures RotateRight(Known(RotateLeft(Known(o)))) == o
  {
  }

  function RightTimes(o: Orientation, k: nat): Orientation
    decreases k
  {
    if k == 0 then o else RightTimes(RotateRight(Known(o)), k - 1)
  }

  function LeftTimes(o: Orientation, k: nat): Orientation
    decreases k
  {
    if k == 0 then o else LeftTimes(RotateLeft(Known(o)), k - 1)
  }

  /** Four right turns, or four left turns, bring every orientation back. */
  lemma FourTurnsIdentity(o: Orientation)
    ensures RightTimes(o, 4) == o
    ensures LeftTimes(o, 4) == o
  {
  }

  /** Turning right rotates the unit step a quarter turn clockwise:
      (dx, dy) becomes (dy, -dx). */
  lemma RightTurnRotatesDelta(h: Heading)
    requires h.Known?
    ensures Delta(RotateRight(h)) == (Delta(h.o).1, -Delta(h.o).0)
  {
  }

  /** A heading survives being printed and read back. */
  lemma HeadingTextRoundTrip(h: Heading)
    requires Canonical(h)
    ensures ParseHeading(HeadingText(h)) == h
  {
  }
}
