/** Points and colours as the canvas sees them: integer pixel coordinates and
    RGB triples whose channels are bytes. */
module Geometry {

  /** A position in canvas-local pixel coordinates. */
  datatype Point = Point(x: int, y: int)

  /** One colour channel; a colour channel is an unsigned char. */
  type Byte = b: int | 0 <= b < 256

  datatype Color = Color(red: Byte, green: Byte, blue: Byte)

  /** The canvas's initial drawing colour. */
  const Black := Color(0, 0, 0)

  /** The colour an eraser stroke is drawn with. */
  const White := Color(255, 255, 255)

  /** One of the colours the application's menu offers. */
  const Green := Color(0, 255, 0)
}

/** The optional value used for a reference that may be null. */
module Optional {
  datatype Option<+T> = None | Some(value: T)
}
