/** The part of a d3 scale object that the layers read and write. */
module Scales {

  /**
   * A d3 continuous scale, reduced to its domain and its range.
   * Interpolation, the exponent of a power scale and clamping are not modelled.
   */
  datatype Scale<R> = Scale(domain: seq<real>, range: seq<R>)

  /** Colours of a colour scale's range, such as '#f7fbff'. */
  type Color = string
}
