/** The drawing surface, as the widget sees it: a list of filled rectangles.
    Text labels, fonts and pixel rasterisation are not modelled. */
module Canvas {

  /** The fill colours the widget uses for bars. */
  datatype Colour = Blue | Green

  /** One `fillRect(x, top, width, height)` call made with fill colour `colour`. */
  datatype Bar = Bar(x: int, top: int, width: int, height: int, colour: Colour)

  /** Thickness of every bar the widget paints; each bar is centred on its y. */
  const BarHeight: int := 4
}
