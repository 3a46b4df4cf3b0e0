/** The `background-origin` longhand: a comma-separated list of box-area
    keywords, one per background layer. */
module BackgroundOrigin {
  import opened Values
  import opened SeparatedLists

  class BackgroundOriginProperty {
    /** One origin box per background layer. */
    var origins: seq<BoxModel>
    const inherited: bool

    constructor ()
      ensures origins == [PaddingBox] && !inherited
    {
      inherited := false;
      origins := [PaddingBox];
    }

    /** Accepts `inherit` without change; otherwise converts every even
        position with the box-model helper, requires a comma at every odd
        position, and only then replaces the stored list. */
    method IsValid(h: Helpers, value: Value) returns (ok: bool)
      modifies this
      ensures ok <==> value == Inherit || Alternates(Items(value), h.toBoxModel)
      ensures origins ==
        if value != Inherit && ok then Picks(Items(value), h.toBoxModel) else old(origins)
    {
      if value == Inherit {
        return true;
      }
      var values := Items(value);
      var parsed: seq<BoxModel> := [];
      var i := 0;
      while i < |values|
        invariant i % 2 == 0 && i <= |values| + 1
        invariant forall k :: 0 <= k < i && k < |values| ==>
          if k % 2 == 0 then h.toBoxModel(values[k]).Some? else values[k] == Separator
        invariant |parsed| == i / 2
        invariant forall m :: 0 <= m < i / 2 ==> h.toBoxModel(values[2 * m]) == Some(parsed[m])
        invariant origins == old(origins)
      {
        var origin := h.toBoxModel(values[i]);
        if origin.None? {
          return false;
        }
        parsed := parsed + [origin.value];
        i := i + 1;
        if i < |values| && values[i] != Separator {
          return false;
        }
        i := i + 1;
      }
      origins := parsed;
      return true;
    }
  }
}
