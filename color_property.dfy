/** The `color` longhand (foreground color). */
module ColorProperty {
  import opened Values

  class ColorProperty {
    var color: Color
    const inherited: bool

    constructor ()
      ensures color == Black && inherited
    {
      inherited := true;
      color := Black;
    }

    /** A convertible color replaces the stored one; otherwise `inherit` is
        accepted unchanged and anything else is rejected unchanged. */
    method IsValid(h: Helpers, value: Value) returns (ok: bool)
      modifies this
      ensures ok <==> h.toColor(value).Some? || value == Inherit
      ensures color == if h.toColor(value).Some? then h.toColor(value).value else old(color)
    {
      var c := h.toColor(value);
      if c.Some? {
        color := c.value;
      } else if value != Inherit {
        return false;
      }
      return true;
    }
  }
}
