/** The `transition-delay` longhand: a list of times. */
module TransitionDelay {
  import opened Values

  class TransitionDelayProperty {
    var times: seq<Time>
    const inherited: bool

    constructor ()
      ensures times == [ZeroTime] && !inherited
    {
      inherited := false;
      times := [ZeroTime];
    }

    /** When the value converts to a list of times, the stored list is
        cleared and refilled with exactly those times, in order; otherwise
        `inherit` is accepted unchanged and anything else is rejected
        unchanged. */
    method IsValid(h: Helpers, value: Value) returns (ok: bool)
      modifies this
      ensures ok <==> h.asTimeList(value).Some? || value == Inherit
      ensures times == if h.asTimeList(value).Some? then h.asTimeList(value).value else old(times)
    {
      var values := h.asTimeList(value);
      if values.Some? {
        times := [];
        for i := 0 to |values.value|
          invariant times == values.value[..i]
        {
          times := times + [values.value[i]];
        }
      } else if value != Inherit {
        return false;
      }
      return true;
    }
  }
}
