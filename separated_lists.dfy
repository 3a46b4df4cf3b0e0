/** The list grammar shared by the multi-layer longhands
    (`background-attachment`, `background-origin`): an item, then optionally
    a comma, then the next item, and so on. Each item must convert on its own;
    every odd position must be a `Separator`; a trailing `Separator` is
    tolerated. */
module SeparatedLists {
  import opened Values

  /** Items at even positions convert, tokens at odd positions are commas. */
  predicate Alternates<T>(list: seq<Value>, convert: Value -> Option<T>) {
    forall k :: 0 <= k < |list| ==>
      if k % 2 == 0 then convert(list[k]).Some? else list[k] == Separator
  }

  /** The converted items of an alternating list, in input order. */
  function Picks<T>(list: seq<Value>, convert: Value -> Option<T>): (r: seq<T>)
    requires Alternates(list, convert)
    ensures |r| == (|list| + 1) / 2
    ensures forall m :: 0 <= m < |r| ==> convert(list[2 * m]) == Some(r[m])
  {
    seq((|list| + 1) / 2, m requires 0 <= m < (|list| + 1) / 2 => convert(list[2 * m]).value)
  }

  /** Writes items back as tokens, with a comma between consecutive items. */
  function Emit<T>(xs: seq<T>, token: T -> Value): seq<Value> {
    if |xs| == 0 then []
    else if |xs| == 1 then [token(xs[0])]
    else [token(xs[0]), Separator] + Emit(xs[1..], token)
  }

  lemma {:induction false} EmitShape<T>(xs: seq<T>, token: T -> Value)
    ensures |Emit(xs, token)| == if |xs| == 0 then 0 else 2 * |xs| - 1
    ensures forall k :: 0 <= k < |Emit(xs, token)| ==>
      Emit(xs, token)[k] == if k % 2 == 0 then token(xs[k / 2]) else Separator
  {
    if |xs| > 1 {
      EmitShape(xs[1..], token);
      var e := Emit(xs, token);
      var tail := Emit(xs[1..], token);
      assert e == [token(xs[0]), Separator] + tail;
      forall k | 2 <= k < |e|
        ensures e[k] == if k % 2 == 0 then token(xs[k / 2]) else Separator
      {
        assert e[k] == tail[k - 2];
        assert (k - 2) / 2 == k / 2 - 1;
      }
    }
  }

  /** Validating a list written by `Emit` gives back the items, provided each
      item's token converts back to the item. */
  lemma {:induction false} EmitRoundTrip<T>(xs: seq<T>, token: T -> Value, convert: Value -> Option<T>)
    requires forall i :: 0 <= i < |xs| ==> convert(token(xs[i])) == Some(xs[i])
    ensures Alternates(Emit(xs, token), convert)
    ensures Picks(Emit(xs, token), convert) == xs
  {
    EmitShape(xs, token);
    var e := Emit(xs, token);
    forall k | 0 <= k < |e|
      ensures if k % 2 == 0 then convert(e[k]).Some? else e[k] == Separator
    {
      if k % 2 == 0 {
        assert convert(token(xs[k / 2])) == Some(xs[k / 2]);
      }
    }
    var r := Picks(e, convert);
    assert |r| == |xs|;
    forall m | 0 <= m < |xs| ensures r[m] == xs[m] {
      assert e[2 * m] == token(xs[m]);
    }
  }

  /** A comma after the last item changes nothing. */
  lemma TrailingSeparator<T>(list: seq<Value>, convert: Value -> Option<T>)
    requires Alternates(list, convert) && |list| % 2 == 1
    ensures Alternates(list + [Separator], convert)
    ensures Picks(list + [Separator], convert) == Picks(list, convert)
  {
    var l := list + [Separator];
    assert forall k :: 0 <= k < |list| ==> l[k] == list[k];
    assert Alternates(l, convert);
    assert (|l| + 1) / 2 == (|list| + 1) / 2;
  }

  /** Two consecutive convertible items, with no comma between them, are
      rejected whenever the comma itself does not convert. */
  lemma MissingSeparator<T>(list: seq<Value>, convert: Value -> Option<T>, k: nat)
    requires k + 1 < |list| && convert(Separator).None?
    requires convert(list[k]).Some? && convert(list[k + 1]).Some?
    ensures !Alternates(list, convert)
  {
    if k % 2 == 0 {
      assert list[k + 1] != Separator;
    } else {
      assert list[k] != Separator;
    }
  }
}
