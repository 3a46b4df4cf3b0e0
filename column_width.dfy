/** The `column-width` longhand: a length, or `auto` meaning "not used"
    (other column properties decide). */
module ColumnWidth {
  import opened Values
  import opened Keywords

  class ColumnWidthProperty {
    /** None stands for `auto`. */
    var width: Option<Length>
    const inherited: bool

    constructor ()
      ensures width == None && !inherited
      ensures !IsUsed() && Count() == ZeroLength
    {
      width := None;
      inherited := false;
    }

    /** Whether the column width is to be considered. */
    function IsUsed(): bool
      reads this
    {
      width.Some?
    }

    /** The width of a single column; zero while the width is unused. */
    function Count(): (r: Length)
      reads this
      ensures IsUsed() ==> width == Some(r)
      ensures !IsUsed() ==> r == ZeroLength
    {
      if width.Some? then width.value else ZeroLength
    }

    /** The length test comes first: a convertible length sets the width;
        otherwise `auto` clears it; otherwise `inherit` is accepted unchanged;
        anything else is rejected unchanged. */
    method IsValid(h: Helpers, value: Value) returns (ok: bool)
      modifies this
      ensures ok <==> h.toLength(value).Some? || Is(value, "auto") || value == Inherit
      ensures h.toLength(value).Some? ==> IsUsed() && Count() == h.toLength(value).value
      ensures h.toLength(value).None? && Is(value, "auto") ==> !IsUsed() && Count() == ZeroLength
      ensures h.toLength(value).None? && !Is(value, "auto") ==> width == old(width)
    {
      var w := h.toLength(value);
      if w.Some? {
        width := Some(w.value);
      } else if Is(value, "auto") {
        width := None;
      } else if value != Inherit {
        return false;
      }
      return true;
    }
  }
}
