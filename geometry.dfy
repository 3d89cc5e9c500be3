/** The integer rectangles and device descriptions the screen code works with. */
module Geometry {

  /**
   * A `java.awt.Rectangle` in the global coordinate space shared by all monitors:
   * top-left corner (x, y), which may be negative, and width/height.
   */
  datatype Rect = Rect(x: int, y: int, w: int, h: int)

  /** The top-left corner is the global origin (0,0): what makes a monitor the primary one. */
  predicate AtOrigin(r: Rect)
  {
    r.x == 0 && r.y == 0
  }

  /**
   * One `GraphicsDevice` as the platform reports it: the bounds of its default
   * configuration, and whether a `RobotDesktop` can be built for it (the
   * constructor throws `AWTException` when it cannot).
   */
  datatype Device = Device(bounds: Rect, robotAvailable: bool)

  /** Pixel data returned by the platform's pixel grab; its content is opaque here. */
  type Pixels = seq<int>

  /** A `ScreenImage`: captured pixels together with the rectangle (ROI) they show. */
  datatype ScreenImage = ScreenImage(roi: Rect, pixels: Pixels)
}
