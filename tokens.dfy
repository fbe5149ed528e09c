/** The OCR tokens the parser consumes: EasyOCR's `{'text', 'confidence', 'bbox'}` records
    (process_invoice.py:81-84), with the corners of the box as integer pixel points. */
module Tokens {

  datatype Point = Point(x: int, y: int)

  /** The four corners in EasyOCR's order: `bbox[0]` top-left, `bbox[1]` top-right,
      `bbox[2]` bottom-right, `bbox[3]` bottom-left. */
  datatype Quad = Quad(topLeft: Point, topRight: Point, bottomRight: Point, bottomLeft: Point)

  datatype Token = Token(text: string, box: Quad, confidence: real)

  /** `bbox[0][1]`, the key of the vertical sort (process_invoice.py:137). */
  function Top(t: Token): int {
    t.box.topLeft.y
  }

  /** `bbox[0][0]`, the key of the sort inside a row (process_invoice.py:154). */
  function Left(t: Token): int {
    t.box.topLeft.x
  }

  /** `(bbox[0][1] + bbox[2][1]) / 2`, the vertical centre (process_invoice.py:144). */
  function Centre(t: Token): real {
    (t.box.topLeft.y + t.box.bottomRight.y) as real / 2.0
  }
}
