/** Value types shared by the editor widgets and the annotation readers. */
module Types {

  /** A QPoint: integer pixel coordinates. */
  datatype Point = Point(x: int, y: int)

  /** A box as the core stores it, `[x1, y1, x2, y2]` or `(xmin, ymin, xmax, ymax)`:
      the coordinates are kept as given, never reordered. */
  datatype Box = Box(x1: int, y1: int, x2: int, y2: int)

  /** The mouse buttons an event can name. */
  datatype MouseButton = LeftButton | RightButton | MiddleButton

  /** A QColor, reduced to its red, green and blue components. */
  datatype Color = Rgb(red: int, green: int, blue: int)
}
