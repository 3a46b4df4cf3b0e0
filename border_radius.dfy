/** The `border-radius` shorthand: one to four radii, optionally followed by
    a slash and one to four vertical radii, expanded to the four corners. */
module BorderRadius {
  import opened Values
  import opened Longhands

  /** Position of the first `Delimiter`, or the length when there is none. */
  function FirstDelimiter(args: seq<Value>): (k: nat)
    ensures k <= |args|
    ensures k < |args| ==> args[k] == Delimiter
    ensures forall i :: 0 <= i < k ==> args[i] != Delimiter
  {
    if |args| == 0 then 0
    else if args[0] == Delimiter then 0
    else 1 + FirstDelimiter(args[1..])
  }

  /** The CSS rule for one to four edge values: the missing ones mirror
      earlier ones (1 -> AAAA, 2 -> ABAB, 3 -> ABCB, 4 -> ABCD). */
  function ExpandFour(g: seq<Value>): (r: seq<Value>)
    requires 1 <= |g| <= 4
    ensures |r| == 4
  {
    if |g| == 1 then [g[0], g[0], g[0], g[0]]
    else if |g| == 2 then [g[0], g[1], g[0], g[1]]
    else if |g| == 3 then [g[0], g[1], g[2], g[1]]
    else [g[0], g[1], g[2], g[3]]
  }

  /** Whether the strided fill of group item `i` writes slot `j`:
      slots i, 2i+1, 3i+2, ... */
  predicate Hits(i: nat, j: nat)
    decreases j
  {
    j == i || (j > 2 * i && Hits(i, j - i - 1))
  }

  /** The item of a group of `k` whose write to slot `j` comes last. */
  function Owner(k: nat, j: nat): (r: nat)
    requires k >= 1
    ensures r < k
  {
    if k == 1 then 0 else if Hits(k - 1, j) then k - 1 else Owner(k - 1, j)
  }

  /** Below four, item 0 writes every slot, item 1 slots 1 and 3, and items
      2 and 3 only their own slot. */
  lemma HitsBelowFour(i: nat, j: nat)
    requires i < 4 && j < 4
    ensures Hits(i, j) <==> i == 0 || j == i || (i == 1 && j == 3)
  {
    if i == 0 && j > 0 {
      assert Hits(0, 1) && Hits(0, 2) && Hits(0, 3);
    } else if i == 1 {
      assert Hits(1, 3);
    }
  }

  /** Below four slots, item `j` owns its own slot when the group is long
      enough; otherwise slot 2 falls back to item 0 and slot 3 to item 1
      (item 0 alone when the group has one item). */
  lemma {:induction false} OwnerBelowFour(k: nat, j: nat)
    requires 1 <= k <= 4 && j < 4
    ensures Owner(k, j) == if j < k then j else if k == 1 then 0 else j - 2
  {
    if k > 1 {
      HitsBelowFour(k - 1, j);
      OwnerBelowFour(k - 1, j);
    }
  }

  /** The strided fill realises the CSS mirroring rule. */
  lemma StridedFillIsRule(g: seq<Value>, j: nat)
    requires 1 <= |g| <= 4 && j < 4
    ensures g[Owner(|g|, j)] == ExpandFour(g)[j]
  {
    OwnerBelowFour(|g|, j);
  }

  /** The strided fill's next write after slot `j` is slot `j + i + 1`. */
  lemma StrideStep(i: nat, j: nat)
    requires i < 4 && j < 4 && Hits(i, j)
    ensures Hits(i, j + i + 1)
    ensures forall jj :: j < jj < j + i + 1 && jj < 4 ==> !Hits(i, jj)
  {
    forall jj | j < jj < j + i + 1 && jj < 4 ensures !Hits(i, jj) {
      HitsBelowFour(i, j);
      HitsBelowFour(i, jj);
    }
  }

  /** Expands one group into four slots with the strided loops of the
      source: item i is written to slots i, 2i+1, ... below four. */
  method ExpandGroup(g: seq<Value>) returns (slots: seq<Value>)
    requires 1 <= |g| <= 4
    ensures slots == ExpandFour(g)
  {
    var values := new Value[4](_ => Inherit);
    for i := 0 to |g|
      invariant forall jj :: 0 <= jj < 4 && i > 0 ==> values[jj] == g[Owner(i, jj)]
    {
      ghost var before := values[..];
      var j := i;
      while j < 4
        invariant i <= j && Hits(i, j)
        invariant forall jj :: 0 <= jj < 4 ==>
          values[jj] == if jj < j && Hits(i, jj) then g[i] else before[jj]
        decreases 4 - j
      {
        StrideStep(i, j);
        values[j] := g[i];
        j := j + i + 1;
      }
    }
    slots := values[..];
    forall j | 0 <= j < 4 ensures slots[j] == ExpandFour(g)[j] {
      StridedFillIsRule(g, j);
    }
  }

  /** The slot values before validation: None when the list is malformed.
      Mirrors the split and range checks of `Check(CSSValueList)`. */
  function SplitSlots(args: seq<Value>): (r: Option<seq<Value>>)
    ensures r.Some? ==> |r.value| == 4
  {
    var count := |args|;
    var split := FirstDelimiter(args);
    if count - 1 > split + 4 || split > 4 || split == count - 1 || split == 0 then None
    else if split == count then Some(ExpandFour(args[..split]))
    else
      var horizontal := ExpandFour(args[..split]);
      var vertical := ExpandFour(args[split + 1..]);
      Some(seq(4, k requires 0 <= k < 4 => List([horizontal[k], vertical[k]])))
  }

  /** The four slots of a whole value: a single non-list token fills all
      four. */
  function Slots(value: Value): (r: Option<seq<Value>>)
    ensures r.Some? ==> |r.value| == 4
  {
    if value.List? then SplitSlots(value.items) else Some([value, value, value, value])
  }

  /** A list is accepted exactly when the group before the first slash has
      one to four values and, if there is a slash, the group after it has
      one to four values too. */
  lemma SplitSlotsAcceptsGroupsOfOneToFour(args: seq<Value>)
    ensures SplitSlots(args).Some? <==>
      var d := FirstDelimiter(args);
      1 <= d <= 4 && (d == |args| || 1 <= |args| - d - 1 <= 4)
  {
  }

  /** Without a slash every corner takes its horizontal radius alone; with
      one, every corner is the pair (horizontal, vertical) of its slot. */
  lemma SplitSlotsPairs(args: seq<Value>, k: nat)
    requires SplitSlots(args).Some? && k < 4
    ensures var d := FirstDelimiter(args);
      SplitSlots(args).value[k] ==
        if d == |args| then ExpandFour(args[..d])[k]
        else List([ExpandFour(args[..d])[k], ExpandFour(args[d + 1..])[k]])
  {
  }

  /** Slot k is given to these corners, in this order: bottom-left,
      bottom-right, top-left, top-right. */
  const Corners: seq<LonghandKind> :=
    [BorderBottomLeftRadius, BorderBottomRightRadius, BorderTopLeftRadius, BorderTopRightRadius]

  /** Every corner's validator accepts its slot. */
  predicate AllAccept(h: Helpers, slots: seq<Value>)
    requires |slots| == 4
  {
    forall k :: 0 <= k < 4 ==> h.accepts(Corners[k], slots[k])
  }

  /** The computing part of `Check(CSSValueList)`: locates the first slash,
      rejects malformed groups, expands each group to four slots, and pairs
      them when there is a slash. */
  method SplitAndExpand(arguments: seq<Value>) returns (slots: Option<seq<Value>>)
    ensures slots == SplitSlots(arguments)
  {
    var count := |arguments|;
    var splitIndex := |arguments|;
    var i := 0;
    while i < splitIndex
      invariant 0 <= i && 0 <= splitIndex <= count && i <= splitIndex + 1
      invariant forall k :: 0 <= k < i && k < splitIndex ==> arguments[k] != Delimiter
      invariant splitIndex < count ==> arguments[splitIndex] == Delimiter && i == splitIndex + 1
    {
      if arguments[i] == Delimiter {
        splitIndex := i;
      }
      i := i + 1;
    }
    assert splitIndex == FirstDelimiter(arguments);
    if count - 1 > splitIndex + 4 || splitIndex > 4 || splitIndex == count - 1 || splitIndex == 0 {
      return None;
    }
    var values := ExpandGroup(arguments[..splitIndex]);
    if splitIndex != count {
      var opt := ExpandGroup(arguments[splitIndex + 1..]);
      ghost var horizontal := values;
      for k := 0 to 4
        invariant |values| == 4
        invariant forall m :: 0 <= m < k ==> values[m] == List([horizontal[m], opt[m]])
        invariant forall m :: k <= m < 4 ==> values[m] == horizontal[m]
      {
        values := values[k := List([values[k], opt[k]])];
      }
      assert values == seq(4, k requires 0 <= k < 4 => List([horizontal[k], opt[k]]));
    }
    return Some(values);
  }

  /** The four corner values after every slot was assigned. */
  function Assigned(slots: seq<Value>): seq<Option<Value>>
    requires |slots| == 4
  {
    [Some(slots[0]), Some(slots[1]), Some(slots[2]), Some(slots[3])]
  }

  class BorderRadiusProperty {
    var bottomLeft: Longhand
    var bottomRight: Longhand
    var topLeft: Longhand
    var topRight: Longhand
    const inherited: bool

    ghost predicate Valid()
      reads this
    {
      && bottomLeft.kind == BorderBottomLeftRadius
      && bottomRight.kind == BorderBottomRightRadius
      && topLeft.kind == BorderTopLeftRadius
      && topRight.kind == BorderTopRightRadius
    }

    /** The four corners read as slots 0..3. */
    ghost function CornerValues(): seq<Option<Value>>
      reads this, bottomLeft, bottomRight, topLeft, topRight
    {
      [bottomLeft.value, bottomRight.value, topLeft.value, topRight.value]
    }

    constructor ()
      ensures Valid() && !inherited
      ensures fresh(bottomLeft) && fresh(bottomRight) && fresh(topLeft) && fresh(topRight)
      ensures CornerValues() == [None, None, None, None]
    {
      inherited := false;
      topRight := new Longhand(BorderTopRightRadius);
      bottomRight := new Longhand(BorderBottomRightRadius);
      bottomLeft := new Longhand(BorderBottomLeftRadius);
      topLeft := new Longhand(BorderTopLeftRadius);
    }

    /** `inherit` is accepted and changes nothing. Otherwise the value is
        split into four slots and committed only if every corner accepts its
        slot; on rejection the four corner fields stay as they were. */
    method IsValid(h: Helpers, value: Value) returns (ok: bool)
      requires Valid()
      modifies this
      ensures Valid()
      ensures ok <==> value == Inherit || (Slots(value).Some? && AllAccept(h, Slots(value).value))
      ensures value != Inherit && ok ==>
        && fresh(bottomLeft) && fresh(bottomRight) && fresh(topLeft) && fresh(topRight)
        && CornerValues() == Assigned(Slots(value).value)
      ensures value == Inherit || !ok ==>
        && bottomLeft == old(bottomLeft) && bottomRight == old(bottomRight)
        && topLeft == old(topLeft) && topRight == old(topRight)
    {
      if value == Inherit {
        return true;
      } else if value.List? {
        ok := CheckList(h, value.items);
        return;
      }
      ok := Commit(h, [value, value, value, value]);
    }

    /** `Check(CSSValueList)`: splits and expands the list, then hands the
        slots to `Commit`; a malformed list is rejected before any corner is
        built. */
    method CheckList(h: Helpers, arguments: seq<Value>) returns (ok: bool)
      requires Valid()
      modifies this
      ensures Valid()
      ensures ok <==> SplitSlots(arguments).Some? && AllAccept(h, SplitSlots(arguments).value)
      ensures ok ==>
        && fresh(bottomLeft) && fresh(bottomRight) && fresh(topLeft) && fresh(topRight)
        && CornerValues() == Assigned(SplitSlots(arguments).value)
      ensures !ok ==>
        && bottomLeft == old(bottomLeft) && bottomRight == old(bottomRight)
        && topLeft == old(topLeft) && topRight == old(topRight)
    {
      var values := SplitAndExpand(arguments);
      if values.None? {
        return false;
      }
      ok := Commit(h, values.value);
    }

    /** The loop of `Check(CSSValue[])`: assigns each slot to its corner in
        turn and stops at the first corner that does not keep its value. */
    static method SetEach(h: Helpers, target: seq<Longhand>, values: seq<Value>) returns (ok: bool)
      requires |target| == 4 && |values| == 4
      requires forall a, b :: 0 <= a < b < 4 ==> target[a] != target[b]
      requires forall k :: 0 <= k < 4 ==> target[k].value == None
      modifies target
      ensures ok <==> forall k :: 0 <= k < 4 ==> h.accepts(target[k].kind, values[k])
      ensures ok ==> forall k :: 0 <= k < 4 ==> target[k].value == Some(values[k])
    {
      for i := 0 to 4
        invariant forall k :: 0 <= k < i ==>
          target[k].value == Some(values[k]) && h.accepts(target[k].kind, values[k])
        invariant forall k :: i <= k < 4 ==> target[k].value == None
      {
        var _ := target[i].SetValue(h, values[i]);
        if target[i].value != Some(values[i]) {
          return false;
        }
      }
      return true;
    }

    /** `Check(CSSValue[])`: validates each slot into a fresh corner property
        (slot 0 bottom-left, 1 bottom-right, 2 top-left, 3 top-right), stops
        at the first rejection, and replaces the four corner fields only
        when all four accepted. */
    method Commit(h: Helpers, values: seq<Value>) returns (ok: bool)
      requires |values| == 4 && Valid()
      modifies this
      ensures Valid()
      ensures ok <==> AllAccept(h, values)
      ensures ok ==>
        && fresh(bottomLeft) && fresh(bottomRight) && fresh(topLeft) && fresh(topRight)
        && CornerValues() == Assigned(values)
      ensures !ok ==>
        && bottomLeft == old(bottomLeft) && bottomRight == old(bottomRight)
        && topLeft == old(topLeft) && topRight == old(topRight)
    {
      var bl := new Longhand(BorderBottomLeftRadius);
      var br := new Longhand(BorderBottomRightRadius);
      var tl := new Longhand(BorderTopLeftRadius);
      var tr := new Longhand(BorderTopRightRadius);
      var target := [bl, br, tl, tr];
      ok := SetEach(h, target, values);
      if !ok {
        return;
      }
      bottomLeft := target[0];
      bottomRight := target[1];
      topLeft := target[2];
      topRight := target[3];
      return true;
    }
  }
}
