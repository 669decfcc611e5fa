/** What a document plan places on a page: text at a baseline, and straight lines. */
module Drawing {

  /** `doc.text(text, x, y)`: `y` is the text's baseline. */
  datatype TextAt = TextAt(text: string, x: int, y: int)

  /** `doc.line(x1, y1, x2, y2)`. */
  datatype Line = Line(x1: int, y1: int, x2: int, y2: int)
}
