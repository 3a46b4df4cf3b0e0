/** The `perspective` longhand: a length, or `none` meaning zero. */
module Perspective {
  import opened Values
  import opened Keywords

  class PerspectiveProperty {
    /** Distance from the viewer to the z=0 plane; zero means no perspective. */
    var distance: Length
    const inherited: bool

    constructor ()
      ensures distance == ZeroLength && !inherited
    {
      inherited := false;
      distance := ZeroLength;
    }

    /** A convertible length becomes the distance; otherwise `none` sets it to
        zero; otherwise `inherit` is accepted unchanged; anything else is
        rejected unchanged. */
    method IsValid(h: Helpers, value: Value) returns (ok: bool)
      modifies this
      ensures ok <==> h.toLength(value).Some? || Is(value, "none") || value == Inherit
      ensures distance ==
        if h.toLength(value).Some? then h.toLength(value).value
        else if Is(value, "none") then ZeroLength
        else old(distance)
    {
      var d := h.toLength(value);
      if d.Some? {
        distance := d.value;
      } else if Is(value, "none") {
        distance := ZeroLength;
      } else if value != Inherit {
        return false;
      }
      return true;
    }
  }
}
