/** Values that the page writes into its display targets (the DOM elements). */
module Dom {
  /** What an element's `textContent` was last given: a string, or a number
      (the temperature), whose conversion to text is not modelled. */
  datatype Text = Str(s: string) | Number(x: real)

  /** A container's `style.opacity`: never assigned, or assigned a level. */
  datatype Opacity = Unset | Level(level: int)
}
