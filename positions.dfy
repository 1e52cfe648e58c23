/** Positions and ranges of the Language Server Protocol: a zero-based line
    and a zero-based character offset within that line. */
module Positions {
  datatype Position = Position(line: nat, character: nat)

  datatype Range = Range(start: Position, end: Position)

  /** `a` comes strictly before `b` in the document. */
  predicate Before(a: Position, b: Position)
  {
    a.line < b.line || (a.line == b.line && a.character < b.character)
  }

  predicate BeforeOrEqual(a: Position, b: Position)
  {
    Before(a, b) || a == b
  }
}
