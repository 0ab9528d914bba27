/**
 * Tree-sitter points and the position-containment rule `isPointInRange`
 * of lsp/lsp.go, which decides whether a point lies in a [start, end] range.
 */
module Points {
  import opened GoTypes

  /** A tree-sitter point (`sitter.Point`): a zero-based row and column. */
  datatype Point = Point(row: uint32, column: uint32)

  /** The componentwise (product) order on points. It is a partial order. */
  predicate ProductLe(a: Point, b: Point) {
    a.row <= b.row && a.column <= b.column
  }

  /** Document order on points: by row, then by column within a row. It is total. */
  predicate LexLe(a: Point, b: Point) {
    a.row < b.row || (a.row == b.row && a.column <= b.column)
  }

  /**
   * `isPointInRange(needle, start_position, end_position)`. Both ends are
   * inclusive and the two coordinates are checked independently, so the range
   * is the box between start and end in the componentwise order. Every point
   * of that box is also between start and end in document order, and only a
   * range whose start is componentwise below its end contains anything.
   */
  function IsPointInRange(needle: Point, start: Point, end: Point): (r: bool)
    ensures r <==> ProductLe(start, needle) && ProductLe(needle, end)
    ensures r ==> LexLe(start, needle) && LexLe(needle, end)
    ensures r ==> ProductLe(start, end)
  {
    needle.row >= start.row &&
    needle.row <= end.row &&
    needle.column >= start.column &&
    needle.column <= end.column
  }

  /**
   * Each endpoint lies in its own range exactly when start is at or below end
   * in both coordinates (the range is componentwise ordered).
   */
  lemma EndpointsIncluded(start: Point, end: Point)
    ensures IsPointInRange(start, start, end) <==> ProductLe(start, end)
    ensures IsPointInRange(end, start, end) <==> ProductLe(start, end)
  {
  }

  /**
   * A range that is not componentwise ordered (its start row or its start
   * column exceeds the end's) contains no point.
   */
  lemma UnorderedRangeIsEmpty(start: Point, end: Point)
    requires start.row > end.row || start.column > end.column
    ensures forall p :: !IsPointInRange(p, start, end)
  {
  }

  /**
   * A point on a row strictly inside the range but with its column outside
   * [start.column, end.column] lies between start and end in document order,
   * yet the rule rejects it.
   */
  lemma InnerRowOuterColumnRejected(p: Point, start: Point, end: Point)
    requires start.row < p.row < end.row
    requires p.column < start.column || end.column < p.column
    ensures LexLe(start, p) && LexLe(p, end)
    ensures !IsPointInRange(p, start, end)
  {
  }

  /**
   * The rule is not document-order containment: the point (1, 7) lies between
   * (0, 0) and (2, 5) in document order but outside the range.
   */
  lemma NotLexicographic()
    ensures exists p, start, end :: LexLe(start, p) && LexLe(p, end) && !IsPointInRange(p, start, end)
  {
    InnerRowOuterColumnRejected(Point(1, 7), Point(0, 0), Point(2, 5));
  }

  /**
   * A range that spans several rows and ends at a smaller column than it
   * starts, as most multi-line syntax nodes do, is ordered in the document
   * yet contains no point at all, not even its own start or end.
   */
  lemma MultiLineRangeMissesItsEnds(start: Point, end: Point)
    requires start.row < end.row && end.column < start.column
    ensures LexLe(start, end)
    ensures forall p :: !IsPointInRange(p, start, end)
  {
  }

  /** The node from (0, 10) to (5, 0) does not contain its own start or end. */
  lemma BlockMissesItsEnds()
    ensures !IsPointInRange(Point(0, 10), Point(0, 10), Point(5, 0))
    ensures !IsPointInRange(Point(5, 0), Point(0, 10), Point(5, 0))
  {
  }

  /**
   * Containment respecting row boundaries: the row lies within
   * [start.row, end.row], the column is bounded below by start.column only on
   * the start row and above by end.column only on the end row. This is the
   * document-order interval from start to end, it includes both ends of every
   * ordered range, and it accepts every point `IsPointInRange` accepts.
   */
  function IsPointInDocumentRange(needle: Point, start: Point, end: Point): (r: bool)
    ensures r <==> LexLe(start, needle) && LexLe(needle, end)
    ensures IsPointInRange(needle, start, end) ==> r
  {
    start.row <= needle.row <= end.row &&
    (needle.row == start.row ==> start.column <= needle.column) &&
    (needle.row == end.row ==> needle.column <= end.column)
  }

  /** Under row-boundary containment both ends lie in every range ordered in the document. */
  lemma DocumentRangeIncludesEnds(start: Point, end: Point)
    ensures IsPointInDocumentRange(start, start, end) <==> LexLe(start, end)
    ensures IsPointInDocumentRange(end, start, end) <==> LexLe(start, end)
  {
  }

  /** A range spanning rows 0-2 and columns 0-5 contains its end point (2, 5). */
  lemma EndBoundaryIncluded()
    ensures IsPointInRange(Point(2, 5), Point(0, 0), Point(2, 5))
  {
  }
}
