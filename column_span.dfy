/** The `column-span` longhand: `none` or `all`. */
module ColumnSpan {
  import opened Values
  import opened Keywords

  class ColumnSpanProperty {
    /** Whether the element spans all columns. */
    var span: bool
    const inherited: bool

    constructor ()
      ensures !span && !inherited
    {
      span := false;
      inherited := false;
    }

    /** `none` clears spanning, `all` sets it, `inherit` is accepted
        unchanged, anything else (a number, another keyword) is rejected
        unchanged. */
    method IsValid(value: Value) returns (ok: bool)
      modifies this
      ensures ok <==> Is(value, "none") || Is(value, "all") || value == Inherit
      ensures Is(value, "none") ==> !span
      ensures Is(value, "all") ==> span
      ensures !Is(value, "none") && !Is(value, "all") ==> span == old(span)
    {
      if Is(value, "none") {
        span := false;
      } else if Is(value, "all") {
        span := true;
      } else if value != Inherit {
        return false;
      }
      return true;
    }
  }
}
