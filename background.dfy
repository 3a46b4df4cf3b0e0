/** The `background` shorthand (section 3.10 of CSS Backgrounds and Borders
    Module Level 3): a comma-separated list of layers, each a run of tokens
    that may claim an image, a position (with an optional `/ size`), a
    repeat style, an attachment, a pair of boxes and, in the last layer
    only, a color. Each category is claimed at most once per layer, missing
    ones get their initial values, and the seven per-layer lists are rebuilt
    with one comma between layers before they are handed to the longhands.

    The scan is specified by the functions `Step`, `ScanFrom`, `LayerParts`
    and `ScanLayers`, which follow the shorthand's loop token by token; the
    methods `ScanLayer` and `Decompose` are the loop itself, proved equal to
    them. */
module Background {
  import opened Values
  import opened Keywords
  import opened SeparatedLists
  import opened Longhands
  import opened BackgroundAttachment
  import opened BackgroundOrigin

  /** A position keyword or a calc value. */
  predicate IsPosition(h: Helpers, v: Value) {
    IsOneOf(v, ["top", "left", "center", "bottom", "right"]) || h.asCalc(v)
  }

  /** The first token of a size after `/`. */
  predicate IsSize(h: Helpers, v: Value) {
    IsOneOf(v, ["auto", "contain", "cover"]) || h.asCalc(v)
  }

  /** The optional second token of a size. */
  predicate IsSecondSize(h: Helpers, v: Value) {
    Is(v, "auto") || h.asCalc(v)
  }

  predicate IsRepeat(v: Value) {
    IsOneOf(v, ["repeat-x", "repeat-y", "repeat", "space", "round", "no-repeat"])
  }

  /** The optional second repeat keyword. */
  predicate IsSecondRepeat(v: Value) {
    IsOneOf(v, ["repeat", "space", "round", "no-repeat"])
  }

  predicate IsAttachmentKeyword(v: Value) {
    IsOneOf(v, ["local", "fixed", "scroll"])
  }

  predicate IsBox(h: Helpers, v: Value) {
    h.toBoxModel(v).Some?
  }

  /** The per-layer flags: which categories the layer has claimed so far. */
  datatype Claims = Claims(image: bool, position: bool, repeat: bool, attachment: bool, box: bool, color: bool)

  /** The seven token lists being rebuilt and the color found so far. */
  datatype Parts = Parts(
    image: seq<Value>,
    position: seq<Value>,
    size: seq<Value>,
    repeat: seq<Value>,
    attachment: seq<Value>,
    origin: seq<Value>,
    clip: seq<Value>,
    color: Color)

  /** What one pass of the token loop appends to each list, and the color it
      finds, if any. */
  datatype Gain = Gain(
    image: seq<Value>,
    position: seq<Value>,
    size: seq<Value>,
    repeat: seq<Value>,
    attachment: seq<Value>,
    origin: seq<Value>,
    clip: seq<Value>,
    color: Option<Color>)

  const NoGain: Gain := Gain([], [], [], [], [], [], [], None)

  /** One pass of the token loop: where the next pass starts, the flags after
      it, and what it adds. */
  datatype Move = Move(next: nat, claims: Claims, gain: Gain)

  /** The scan's state: the next token, the flags and the lists. */
  datatype Cursor = Cursor(next: nat, claims: Claims, parts: Parts)

  /** The seven rebuilt lists, named. */
  datatype Field = ImageField | PositionField | SizeField | RepeatField | AttachmentField | OriginField | ClipField

  function Get(p: Parts, f: Field): seq<Value> {
    match f
    case ImageField => p.image
    case PositionField => p.position
    case SizeField => p.size
    case RepeatField => p.repeat
    case AttachmentField => p.attachment
    case OriginField => p.origin
    case ClipField => p.clip
  }

  function Added(g: Gain, f: Field): seq<Value> {
    match f
    case ImageField => g.image
    case PositionField => g.position
    case SizeField => g.size
    case RepeatField => g.repeat
    case AttachmentField => g.attachment
    case OriginField => g.origin
    case ClipField => g.clip
  }

  /** The `Add` calls of one pass: each list grows by what the pass found;
      the color is replaced only when the pass found one. */
  function Apply(p: Parts, g: Gain): (r: Parts)
    ensures forall f :: Get(r, f) == Get(p, f) + Added(g, f)
  {
    Parts(p.image + g.image, p.position + g.position, p.size + g.size, p.repeat + g.repeat,
          p.attachment + g.attachment, p.origin + g.origin, p.clip + g.clip,
          if g.color.Some? then g.color.value else p.color)
  }

  /** Seven empty lists and a given color. */
  function Blank(color: Color): Parts {
    Parts([], [], [], [], [], [], [], color)
  }

  /** The flags a layer starts with: nothing claimed, and the color counted
      as already claimed on every layer but the last. */
  function InitialClaims(last: bool): Claims {
    Claims(false, false, false, false, false, !last)
  }

  /** The end of the run of position tokens that starts at `k`. */
  function RunEnd(h: Helpers, e: seq<Value>, k: nat): (r: nat)
    requires k <= |e|
    ensures k <= r <= |e|
    ensures forall m :: k <= m < r ==> IsPosition(h, e[m])
    ensures r < |e| ==> !IsPosition(h, e[r])
    decreases |e| - k
  {
    if k < |e| && IsPosition(h, e[k]) then RunEnd(h, e, k + 1) else k
  }

  /** What every pass of the token loop guarantees: it moves forward, and
      every token it swallows after its first one is a follower; it never
      gives up a claim; it adds to a list exactly when it claims that list's
      category, whose tokens its first token then fits, adding that
      category's claim made of the tokens it consumed (apart from the `auto`
      size and `border-box` clip it may fill in); and it finds a color only
      in its first token and only while the color is unclaimed. */
  predicate Sound(h: Helpers, e: seq<Value>, j: nat, c: Claims, m: Move)
    requires j < |e|
  {
    && j < m.next <= |e|
    && (forall k :: j < k < m.next ==> Follower(h, e[k]))
    && (forall f :: Claimed(c, f) ==> Claimed(m.claims, f))
    && (forall f :: Claimed(m.claims, f) == Claimed(c, f) ==> Added(m.gain, f) == [])
    && (forall f :: Claimed(m.claims, f) != Claimed(c, f) ==> Fits(h, f, e[j]) && Claim(h, f, Added(m.gain, f)))
    && (forall f :: Drawn(f, Added(m.gain, f), e[j..m.next]))
    && (c.color ==> m.claims.color)
    && (|| (m.claims.color == c.color && m.gain.color == None)
        || (!c.color && m.claims.color && m.gain.color.Some? && h.asColor(e[j]) == m.gain.color))
  }

  /** Every token of `xs` is one of the tokens of `span` or the initial
      value of `f`'s category. */
  predicate Drawn(f: Field, xs: seq<Value>, span: seq<Value>) {
    forall x :: x in xs ==> x in span || x == Default(f)
  }

  /** The tokens of a slice are tokens of every slice around it. */
  lemma SliceWithin(e: seq<Value>, lo: nat, a: nat, b: nat, hi: nat)
    requires lo <= a <= b <= hi <= |e|
    ensures forall x :: x in e[a..b] ==> x in e[lo..hi]
  {
    forall x | x in e[a..b] ensures x in e[lo..hi] {
      var k :| 0 <= k < b - a && e[a..b][k] == x;
      assert e[lo..hi][a - lo + k] == x;
    }
  }

  lemma DrawnWiden(f: Field, xs: seq<Value>, e: seq<Value>, lo: nat, a: nat, b: nat, hi: nat)
    requires lo <= a <= b <= hi <= |e| && Drawn(f, xs, e[a..b])
    ensures Drawn(f, xs, e[lo..hi])
  {
    SliceWithin(e, lo, a, b, hi);
  }

  /** What one pass adds, from its own tokens, followed by what the rest of
      the loop adds, from the tokens after them. */
  lemma DrawnJoin(f: Field, here: seq<Value>, rest: seq<Value>, e: seq<Value>, j: nat, next: nat)
    requires j <= next <= |e| && Drawn(f, here, e[j..next]) && Drawn(f, rest, e[next..])
    ensures Drawn(f, here + rest, e[j..])
  {
    assert e[next..] == e[next..|e|];
    DrawnWiden(f, here, e, j, j, next, |e|);
    DrawnWiden(f, rest, e, j, next, |e|, |e|);
    DrawnConcat(f, here, rest, e[j..]);
  }

  /** After a prefix `xs`, a list extending `xs + ys` holds `ys` and then
      the rest. */
  lemma DropPrefix(xs: seq<Value>, ys: seq<Value>, zs: seq<Value>)
    requires xs + ys <= zs
    ensures zs[|xs|..] == ys + zs[|xs + ys|..]
  {
    var r := zs[|xs|..];
    assert forall k :: 0 <= k < |r| ==> r[k] == (ys + zs[|xs + ys|..])[k];
  }

  /** Dropping a prefix of `ys` from `ys + zs` drops it from `ys`. */
  lemma DropTail(xs: seq<Value>, ys: seq<Value>, zs: seq<Value>)
    requires xs <= ys
    ensures (ys + zs)[|xs|..] == ys[|xs|..] + zs
  {
  }

  lemma DrawnConcat(f: Field, xs: seq<Value>, ys: seq<Value>, span: seq<Value>)
    requires Drawn(f, xs, span) && Drawn(f, ys, span)
    ensures Drawn(f, xs + ys, span)
  {
  }

  /** A run of position tokens is a position claim, and every token after
      its first is a follower. */
  lemma RunIsClaim(h: Helpers, e: seq<Value>, j: nat)
    requires j < |e| && IsPosition(h, e[j])
    ensures Claim(h, PositionField, e[j..RunEnd(h, e, j + 1)])
    ensures forall k :: j < k < RunEnd(h, e, j + 1) ==> Follower(h, e[k])
  {
    var run := e[j..RunEnd(h, e, j + 1)];
    assert forall k :: 0 <= k < |run| ==> run[k] == e[j + k];
  }

  /** A pass that claims the position with a position claim and a size
      claim, swallowing only followers, is sound. */
  lemma PositionSound(h: Helpers, e: seq<Value>, j: nat, c: Claims, m: Move)
    requires j < m.next <= |e| && forall k :: j < k < m.next ==> Follower(h, e[k])
    requires !c.position && IsPosition(h, e[j]) && m.claims == c.(position := true)
    requires m.gain == NoGain.(position := m.gain.position, size := m.gain.size)
    requires Claim(h, PositionField, m.gain.position) && Claim(h, SizeField, m.gain.size)
    requires Drawn(PositionField, m.gain.position, e[j..m.next]) && Drawn(SizeField, m.gain.size, e[j..m.next])
    ensures Sound(h, e, j, c, m)
  {
  }

  /** What follows a position run that ends at `end`: `/` and one or two
      size tokens, or no `/` and the size `auto`; None when the `/` is not
      followed by a size token. Gives where the next pass starts and the
      size tokens. */
  function SizeAfter(h: Helpers, e: seq<Value>, end: nat): (r: Option<(nat, seq<Value>)>)
    requires end <= |e|
    ensures r.Some? ==> end <= r.value.0 <= |e| && Claim(h, SizeField, r.value.1)
    ensures r.Some? ==> forall k :: end <= k < r.value.0 ==> Follower(h, e[k])
    ensures r.Some? ==> Drawn(SizeField, r.value.1, e[end..r.value.0])
    ensures r.None? <==> end < |e| && e[end] == Delimiter && !(end + 1 < |e| && IsSize(h, e[end + 1]))
    ensures r.Some? && (end == |e| || e[end] != Delimiter) ==> r.value == (end, [Ident("auto")])
  {
    if end < |e| && e[end] == Delimiter then
      var k := end + 1;
      if k < |e| && IsSize(h, e[k]) then
        if k + 1 < |e| && IsSecondSize(h, e[k + 1]) then Some((k + 2, [e[k], e[k + 1]]))
        else Some((k + 1, [e[k]]))
      else
        None
    else
      Some((end, [Ident("auto")]))
  }

  /** The position branch: the maximal run of position tokens, then the
      size that follows it. */
  function PositionStep(h: Helpers, e: seq<Value>, j: nat, c: Claims): (r: Option<Move>)
    requires j < |e| && !c.position && IsPosition(h, e[j])
    ensures r.Some? ==> Sound(h, e, j, c, r.value)
    ensures r.Some? ==> r.value.claims == c.(position := true)
    ensures r.Some? ==> r.value.gain.position == e[j..RunEnd(h, e, j + 1)]
    ensures r.None? <==> SizeAfter(h, e, RunEnd(h, e, j + 1)).None?
    ensures r.Some? ==> r.value.gain.size == SizeAfter(h, e, RunEnd(h, e, j + 1)).value.1
  {
    var end := RunEnd(h, e, j + 1);
    RunIsClaim(h, e, j);
    match SizeAfter(h, e, end)
    case None => None
    case Some((next, size)) =>
      var m := Move(next, c.(position := true), NoGain.(position := e[j..end], size := size));
      SliceWithin(e, j, j, end, next);
      SliceWithin(e, j, end, next, next);
      PositionSound(h, e, j, c, m);
      Some(m)
  }

  /** The image branch: the token is the layer's image. */
  function ImageStep(h: Helpers, e: seq<Value>, j: nat, c: Claims): (r: Move)
    requires j < |e| && !c.image && h.asImage(e[j])
    ensures Sound(h, e, j, c, r)
    ensures r.gain.image == [e[j]]
  {
    Move(j + 1, c.(image := true), NoGain.(image := [e[j]]))
  }

  /** The repeat branch: one repeat keyword, and a second one if the next
      token is one of the four that may follow. */
  function RepeatStep(h: Helpers, e: seq<Value>, j: nat, c: Claims): (r: Move)
    requires j < |e| && !c.repeat && IsRepeat(e[j])
    ensures Sound(h, e, j, c, r)
    ensures r.gain.repeat == e[j..r.next]
  {
    var m :=
      if j + 1 < |e| && IsSecondRepeat(e[j + 1]) then
        Move(j + 2, c.(repeat := true), NoGain.(repeat := [e[j], e[j + 1]]))
      else
        Move(j + 1, c.(repeat := true), NoGain.(repeat := [e[j]]));
    assert m.gain.repeat == e[j..m.next];
    RepeatSound(h, e, j, c, m);
    m
  }

  /** A pass that claims the repeat with a repeat claim, swallowing only
      followers, is sound. */
  lemma RepeatSound(h: Helpers, e: seq<Value>, j: nat, c: Claims, m: Move)
    requires j < m.next <= |e| && forall k :: j < k < m.next ==> Follower(h, e[k])
    requires !c.repeat && IsRepeat(e[j]) && m.claims == c.(repeat := true)
    requires m.gain == NoGain.(repeat := m.gain.repeat) && Claim(h, RepeatField, m.gain.repeat)
    requires Drawn(RepeatField, m.gain.repeat, e[j..m.next])
    ensures Sound(h, e, j, c, m)
  {
  }

  /** The attachment branch: the token is the layer's attachment. */
  function AttachmentStep(h: Helpers, e: seq<Value>, j: nat, c: Claims): (r: Move)
    requires j < |e| && !c.attachment && IsAttachmentKeyword(e[j])
    ensures Sound(h, e, j, c, r)
    ensures r.gain.attachment == [e[j]]
  {
    Move(j + 1, c.(attachment := true), NoGain.(attachment := [e[j]]))
  }

  /** The box branch: the token is the origin; a directly following box
      token is the clip, otherwise the clip is `border-box`. */
  function BoxStep(h: Helpers, e: seq<Value>, j: nat, c: Claims): (r: Move)
    requires j < |e| && !c.box && IsBox(h, e[j])
    ensures Sound(h, e, j, c, r)
    ensures r.gain.origin == [e[j]]
    ensures r.gain.clip == [if j + 1 < |e| && IsBox(h, e[j + 1]) then e[j + 1] else Ident("border-box")]
  {
    var m :=
      if j + 1 < |e| && IsBox(h, e[j + 1]) then
        Move(j + 2, c.(box := true), NoGain.(origin := [e[j]], clip := [e[j + 1]]))
      else
        Move(j + 1, c.(box := true), NoGain.(origin := [e[j]], clip := [Ident("border-box")]));
    BoxSound(h, e, j, c, m);
    m
  }

  /** A pass that claims the box with an origin claim and a clip claim,
      swallowing only followers, is sound. */
  lemma BoxSound(h: Helpers, e: seq<Value>, j: nat, c: Claims, m: Move)
    requires j < m.next <= |e| && forall k :: j < k < m.next ==> Follower(h, e[k])
    requires !c.box && IsBox(h, e[j]) && m.claims == c.(box := true)
    requires m.gain == NoGain.(origin := m.gain.origin, clip := m.gain.clip)
    requires Claim(h, OriginField, m.gain.origin) && Claim(h, ClipField, m.gain.clip)
    requires Drawn(OriginField, m.gain.origin, e[j..m.next]) && Drawn(ClipField, m.gain.clip, e[j..m.next])
    ensures Sound(h, e, j, c, m)
  {
  }

  /** The color branch: rejected when the color is already claimed or the
      token is not a color. */
  function ColorStep(h: Helpers, e: seq<Value>, j: nat, c: Claims): (r: Option<Move>)
    requires j < |e|
    ensures r.Some? <==> !c.color && h.asColor(e[j]).Some?
    ensures r.Some? ==> Sound(h, e, j, c, r.value) && r.value.claims.color
  {
    if c.color then
      None
    else
      match h.asColor(e[j])
      case None => None
      case Some(col) => Some(Move(j + 1, c.(color := true), NoGain.(color := Some(col))))
  }

  /** One pass of the token loop at index `j`: the first unclaimed category
      the token fits takes it (position, image, repeat, attachment, box, in
      that order); a token that fits no unclaimed category goes to the color
      branch. */
  function Step(h: Helpers, e: seq<Value>, j: nat, c: Claims): (r: Option<Move>)
    requires j < |e|
    ensures r.Some? ==> Sound(h, e, j, c, r.value)
    ensures Stray(h, e[j]) ==> r == ColorStep(h, e, j, c)
  {
    var t := e[j];
    if !c.position && IsPosition(h, t) then
      PositionStep(h, e, j, c)
    else if !c.image && h.asImage(t) then
      Some(ImageStep(h, e, j, c))
    else if !c.repeat && IsRepeat(t) then
      Some(RepeatStep(h, e, j, c))
    else if !c.attachment && IsAttachmentKeyword(t) then
      Some(AttachmentStep(h, e, j, c))
    else if !c.box && IsBox(h, t) then
      Some(BoxStep(h, e, j, c))
    else
      ColorStep(h, e, j, c)
  }

  /** A pass that starts at a token whose categories are all claimed is the
      color branch's pass. */
  lemma StepOnlyColor(h: Helpers, e: seq<Value>, j: nat, c: Claims)
    requires j < |e| && OnlyColor(h, c, e[j])
    ensures Step(h, e, j, c) == ColorStep(h, e, j, c)
  {
    var t := e[j];
    assert !IsPosition(h, t) || c.position by { assert Fits(h, PositionField, t) ==> Claimed(c, PositionField); }
    assert !h.asImage(t) || c.image by { assert Fits(h, ImageField, t) ==> Claimed(c, ImageField); }
    assert !IsRepeat(t) || c.repeat by { assert Fits(h, RepeatField, t) ==> Claimed(c, RepeatField); }
    assert !IsAttachmentKeyword(t) || c.attachment by { assert Fits(h, AttachmentField, t) ==> Claimed(c, AttachmentField); }
    assert !IsBox(h, t) || c.box by { assert Fits(h, OriginField, t) ==> Claimed(c, OriginField); }
  }

  /** The flag that guards a list: position and size share one, and so do
      origin and clip. */
  function Claimed(c: Claims, f: Field): bool {
    match f
    case ImageField => c.image
    case PositionField => c.position
    case SizeField => c.position
    case RepeatField => c.repeat
    case AttachmentField => c.attachment
    case OriginField => c.box
    case ClipField => c.box
  }

  /** The tokens that can claim the category behind a list. */
  predicate Fits(h: Helpers, f: Field, t: Value) {
    match f
    case ImageField => h.asImage(t)
    case PositionField => IsPosition(h, t)
    case SizeField => IsPosition(h, t)
    case RepeatField => IsRepeat(t)
    case AttachmentField => IsAttachmentKeyword(t)
    case OriginField => IsBox(h, t)
    case ClipField => IsBox(h, t)
  }

  /** What a category's branch appends to one of its lists when it claims
      the category. */
  predicate Claim(h: Helpers, f: Field, xs: seq<Value>) {
    match f
    case ImageField => |xs| == 1 && h.asImage(xs[0])
    case PositionField => |xs| >= 1 && forall k :: 0 <= k < |xs| ==> IsPosition(h, xs[k])
    case SizeField =>
      || xs == [Ident("auto")]
      || (1 <= |xs| <= 2 && IsSize(h, xs[0]) && (|xs| == 2 ==> IsSecondSize(h, xs[1])))
    case RepeatField => 1 <= |xs| <= 2 && IsRepeat(xs[0]) && (|xs| == 2 ==> IsSecondRepeat(xs[1]))
    case AttachmentField => |xs| == 1 && IsAttachmentKeyword(xs[0])
    case OriginField => |xs| == 1 && IsBox(h, xs[0])
    case ClipField => |xs| == 1 && (IsBox(h, xs[0]) || xs[0] == Ident("border-box"))
  }

  /** A token a branch may swallow after the one it claims: more of a
      position run, the `/`, a size, a second repeat keyword, a clip box. */
  predicate Follower(h: Helpers, t: Value) {
    IsPosition(h, t) || t == Delimiter || IsSize(h, t) || IsSecondSize(h, t) || IsSecondRepeat(t) || IsBox(h, t)
  }

  /** A token that fits no category and that no branch swallows after its
      own token: whatever has been claimed, only the color branch can take
      it. */
  predicate Stray(h: Helpers, t: Value) {
    !h.asImage(t) && !IsRepeat(t) && !IsAttachmentKeyword(t) && !Follower(h, t)
  }

  /** Every category the token fits is already claimed, so a pass that
      starts at it reaches the color branch. */
  predicate OnlyColor(h: Helpers, c: Claims, t: Value) {
    forall f :: Fits(h, f, t) ==> Claimed(c, f)
  }

  /** The token loop from index `j` to the end of the layer. */
  function ScanFrom(h: Helpers, e: seq<Value>, j: nat, c: Claims, p: Parts): (r: Option<Cursor>)
    requires j <= |e|
    ensures r.Some? ==> r.value.next == |e|
    decreases |e| - j
  {
    if j == |e| then Some(Cursor(j, c, p))
    else
      match Step(h, e, j, c)
      case None => None
      case Some(m) => ScanFrom(h, e, m.next, m.claims, Apply(p, m.gain))
  }

  /** The initial value of each list's category. */
  function Default(f: Field): Value {
    match f
    case ImageField => Ident("none")
    case PositionField => Ident("center")
    case SizeField => Ident("auto")
    case RepeatField => Ident("repeat")
    case AttachmentField => Ident("scroll")
    case OriginField => Ident("border-box")
    case ClipField => Ident("border-box")
  }

  /** The initial values appended for the categories a layer left
      unclaimed. */
  function Defaults(c: Claims, p: Parts): (r: Parts)
    ensures forall f :: Get(r, f) == Get(p, f) + (if Claimed(c, f) then [] else [Default(f)])
    ensures r.color == p.color
  {
    Parts(
      if c.image then p.image else p.image + [Ident("none")],
      if c.position then p.position else p.position + [Ident("center")],
      if c.position then p.size else p.size + [Ident("auto")],
      if c.repeat then p.repeat else p.repeat + [Ident("repeat")],
      if c.attachment then p.attachment else p.attachment + [Ident("scroll")],
      if c.box then p.origin else p.origin + [Ident("border-box")],
      if c.box then p.clip else p.clip + [Ident("border-box")],
      p.color)
  }

  /** A comma appended to each of the seven lists. */
  function Separated(p: Parts): (r: Parts)
    ensures forall f :: Get(r, f) == Get(p, f) + [Separator]
    ensures r.color == p.color
  {
    Parts(p.image + [Separator], p.position + [Separator], p.size + [Separator],
          p.repeat + [Separator], p.attachment + [Separator], p.origin + [Separator],
          p.clip + [Separator], p.color)
  }

  /** One layer: the token loop from fresh flags, then the defaults. */
  function LayerParts(h: Helpers, e: seq<Value>, last: bool, p: Parts): Option<Parts> {
    match ScanFrom(h, e, 0, InitialClaims(last), p)
    case None => None
    case Some(s) => Some(Defaults(s.claims, s.parts))
  }

  /** The scan of one layer, given its tokens, whether it is the last
      layer, and the lists so far. */
  type LayerScan = (seq<Value>, bool, Parts) -> Option<Parts>

  function LayerScanOf(h: Helpers): LayerScan {
    (e, last, p) => LayerParts(h, e, last, p)
  }

  /** The layer loop from layer `i`, with a comma after every layer but the
      last. It is stated for any scan of one layer, so that what the loop
      does with the layers' results is proved apart from how a layer is
      scanned. */
  function ScanLayers(layer: LayerScan, layers: seq<seq<Value>>, i: nat, p: Parts): Option<Parts>
    requires i <= |layers|
    decreases |layers| - i
  {
    if i == |layers| then Some(p)
    else
      match layer(layers[i], i + 1 == |layers|, p)
      case None => None
      case Some(q) => ScanLayers(layer, layers, i + 1, if i + 1 < |layers| then Separated(q) else q)
  }

  /** The whole decomposition of a value other than `inherit`: its layers
      scanned from seven empty lists and a transparent color. */
  function Decomposition(h: Helpers, value: Value): Option<Parts> {
    ScanLayers(LayerScanOf(h), h.layers(Items(value)), 0, Blank(Transparent))
  }

  /** Over the token loop, claims are kept, each list only grows, a list
      grows exactly when its category gets claimed, and then by that
      category's claim. */
  lemma {:induction false} ScanAdds(h: Helpers, e: seq<Value>, j: nat, c: Claims, p: Parts, f: Field)
    requires j <= |e| && ScanFrom(h, e, j, c, p).Some?
    ensures var s := ScanFrom(h, e, j, c, p).value;
      && (Claimed(c, f) ==> Claimed(s.claims, f))
      && Get(p, f) <= Get(s.parts, f)
      && (Claimed(s.claims, f) == Claimed(c, f) ==> Get(s.parts, f) == Get(p, f))
      && (Claimed(s.claims, f) != Claimed(c, f) ==> Claim(h, f, Get(s.parts, f)[|Get(p, f)|..]))
    decreases |e| - j
  {
    if j < |e| {
      var m := Step(h, e, j, c).value;
      var q := Apply(p, m.gain);
      ScanAdds(h, e, m.next, m.claims, q, f);
      var s := ScanFrom(h, e, j, c, p).value;
      assert s == ScanFrom(h, e, m.next, m.claims, q).value;
      if Claimed(m.claims, f) == Claimed(c, f) {
        assert Get(q, f) == Get(p, f) + [];
      } else {
        assert Get(s.parts, f) == Get(p, f) + Added(m.gain, f);
      }
    }
  }

  /** A category that no remaining token fits is not claimed by the rest of
      the token loop. */
  lemma {:induction false} ScanLeavesUnfit(h: Helpers, e: seq<Value>, j: nat, c: Claims, p: Parts, f: Field)
    requires j <= |e| && ScanFrom(h, e, j, c, p).Some?
    requires forall k :: j <= k < |e| ==> !Fits(h, f, e[k])
    ensures Claimed(ScanFrom(h, e, j, c, p).value.claims, f) == Claimed(c, f)
    decreases |e| - j
  {
    if j < |e| {
      var m := Step(h, e, j, c).value;
      ScanLeavesUnfit(h, e, m.next, m.claims, Apply(p, m.gain), f);
    }
  }

  /** Over the token loop the color is kept, or it is claimed once and is
      the conversion of one of the remaining tokens. */
  lemma {:induction false} ScanColor(h: Helpers, e: seq<Value>, j: nat, c: Claims, p: Parts)
    requires j <= |e| && ScanFrom(h, e, j, c, p).Some?
    ensures var s := ScanFrom(h, e, j, c, p).value;
      || (s.claims.color == c.color && s.parts.color == p.color)
      || (!c.color && s.claims.color && exists k :: j <= k < |e| && h.asColor(e[k]) == Some(s.parts.color))
    decreases |e| - j
  {
    if j < |e| {
      var m := Step(h, e, j, c).value;
      var q := Apply(p, m.gain);
      ScanColor(h, e, m.next, m.claims, q);
      var s := ScanFrom(h, e, j, c, p).value;
      assert s == ScanFrom(h, e, m.next, m.claims, q).value;
      if s.claims.color != c.color && !(m.claims.color == c.color) {
        if s.parts.color == q.color {
          assert h.asColor(e[j]) == Some(s.parts.color);
        }
      }
    }
  }

  /** Once the color is claimed (from the start in every layer but the
      last), a pass that reaches the color branch rejects the value. */
  lemma ColorBranchRejects(h: Helpers, e: seq<Value>, j: nat, c: Claims, p: Parts)
    requires j < |e| && c.color && OnlyColor(h, c, e[j])
    ensures Step(h, e, j, c).None? && ScanFrom(h, e, j, c, p).None?
  {
    StepOnlyColor(h, e, j, c);
  }

  /** A stray token reaches the color branch whatever has been claimed. */
  lemma StrayOnlyColor(h: Helpers, c: Claims, t: Value)
    requires Stray(h, t)
    ensures OnlyColor(h, c, t)
  {
  }

  /** A token that no pass can swallow and whose categories are all claimed
      already rejects the value once the color is claimed, or when it does
      not convert to a color: the scan reaches it, and only the color branch
      could take it. */
  lemma {:induction false} ScanRejectsOnlyColor(h: Helpers, e: seq<Value>, j: nat, c: Claims, p: Parts, k: nat)
    requires j <= k < |e| && !Follower(h, e[k]) && OnlyColor(h, c, e[k])
    requires c.color || h.asColor(e[k]).None?
    ensures ScanFrom(h, e, j, c, p).None?
    decreases |e| - j
  {
    var r := Step(h, e, j, c);
    if j == k {
      StepOnlyColor(h, e, j, c);
      assert r == ColorStep(h, e, j, c) && r.None?;
    } else if r.Some? {
      var m := r.value;
      assert Sound(h, e, j, c, m);
      assert m.next <= k && (m.claims.color || h.asColor(e[k]).None?);
      assert OnlyColor(h, m.claims, e[k]);
      ScanRejectsOnlyColor(h, e, m.next, m.claims, Apply(p, m.gain), k);
    }
  }

  /** Two such tokens in the rest of the layer reject the value even while
      the color is unclaimed: the first can only be the color, and then the
      second has nowhere to go. */
  lemma {:induction false} ScanRejectsTwoOnlyColor(h: Helpers, e: seq<Value>, j: nat, c: Claims, p: Parts, k1: nat, k2: nat)
    requires j <= k1 < k2 < |e| && !Follower(h, e[k1]) && !Follower(h, e[k2])
    requires OnlyColor(h, c, e[k1]) && OnlyColor(h, c, e[k2])
    ensures ScanFrom(h, e, j, c, p).None?
    decreases |e| - j
  {
    var r := Step(h, e, j, c);
    if r.Some? {
      var m := r.value;
      assert Sound(h, e, j, c, m);
      assert OnlyColor(h, m.claims, e[k2]);
      if k1 == j {
        StepOnlyColor(h, e, j, c);
        assert r == ColorStep(h, e, j, c) && m.claims.color;
        assert m.next <= k2;
        ScanRejectsOnlyColor(h, e, m.next, m.claims, Apply(p, m.gain), k2);
      } else {
        assert m.next <= k1 && OnlyColor(h, m.claims, e[k1]);
        ScanRejectsTwoOnlyColor(h, e, m.next, m.claims, Apply(p, m.gain), k1, k2);
      }
    }
  }

  /** A layer adds to each list either its category's claim or, when the
      layer leaves the category unclaimed, the initial value; the initial
      value whenever no token of the layer fits the category. */
  lemma LayerAdds(h: Helpers, e: seq<Value>, last: bool, p: Parts, f: Field)
    requires LayerParts(h, e, last, p).Some?
    ensures var q := LayerParts(h, e, last, p).value;
      && Get(p, f) <= Get(q, f)
      && (Claim(h, f, Get(q, f)[|Get(p, f)|..]) || Get(q, f)[|Get(p, f)|..] == [Default(f)])
      && ((forall k :: 0 <= k < |e| ==> !Fits(h, f, e[k])) ==> Get(q, f)[|Get(p, f)|..] == [Default(f)])
  {
    var c := InitialClaims(last);
    var s := ScanFrom(h, e, 0, c, p).value;
    ScanAdds(h, e, 0, c, p, f);
    if forall k :: 0 <= k < |e| ==> !Fits(h, f, e[k]) {
      ScanLeavesUnfit(h, e, 0, c, p, f);
    }
    var q := LayerParts(h, e, last, p).value;
    if !Claimed(s.claims, f) {
      assert Get(q, f) == Get(p, f) + [Default(f)];
    } else {
      assert Get(q, f) == Get(s.parts, f) + [];
    }
  }
  /** Over the token loop, every token added to a list is a token of the
      layer from the current index on, or the list's initial value. */
  lemma {:induction false} ScanDrawn(h: Helpers, e: seq<Value>, j: nat, c: Claims, p: Parts, f: Field)
    requires j <= |e| && ScanFrom(h, e, j, c, p).Some?
    ensures var s := ScanFrom(h, e, j, c, p).value;
      Get(p, f) <= Get(s.parts, f) && Drawn(f, Get(s.parts, f)[|Get(p, f)|..], e[j..])
    decreases |e| - j
  {
    if j < |e| {
      var m := Step(h, e, j, c).value;
      var q := Apply(p, m.gain);
      ScanDrawn(h, e, m.next, m.claims, q, f);
      var s := ScanFrom(h, e, j, c, p).value;
      assert s == ScanFrom(h, e, m.next, m.claims, q).value;
      var here, rest := Added(m.gain, f), Get(s.parts, f)[|Get(q, f)|..];
      assert Get(q, f) == Get(p, f) + here;
      DropPrefix(Get(p, f), here, Get(s.parts, f));
      DrawnJoin(f, here, rest, e, j, m.next);
    }
  }

  /** Every token a layer adds to a list is one of the layer's tokens, or
      the list's initial value. */
  lemma LayerDrawn(h: Helpers, e: seq<Value>, last: bool, p: Parts, f: Field)
    requires LayerParts(h, e, last, p).Some?
    ensures var q := LayerParts(h, e, last, p).value;
      Get(p, f) <= Get(q, f) && Drawn(f, Get(q, f)[|Get(p, f)|..], e)
  {
    var c := InitialClaims(last);
    var s := ScanFrom(h, e, 0, c, p).value;
    ScanDrawn(h, e, 0, c, p, f);
    assert e[0..] == e;
    var q := LayerParts(h, e, last, p).value;
    var tail := if Claimed(s.claims, f) then [] else [Default(f)];
    assert Get(q, f) == Get(s.parts, f) + tail;
    DropTail(Get(p, f), Get(s.parts, f), tail);
    DrawnConcat(f, Get(s.parts, f)[|Get(p, f)|..], tail, e);
  }

  /** The lists that get exactly one token per layer. */
  predicate SingleField(f: Field) {
    f == ImageField || f == AttachmentField || f == OriginField || f == ClipField
  }

  /** A token a layer may contribute to a one-token list. */
  predicate Item(h: Helpers, f: Field, t: Value) {
    Claim(h, f, [t]) || t == Default(f)
  }

  /** A layer adds exactly one token to each one-token list. */
  lemma LayerAddsOne(h: Helpers, e: seq<Value>, last: bool, p: Parts, f: Field)
    requires SingleField(f) && LayerParts(h, e, last, p).Some?
    ensures var q := LayerParts(h, e, last, p).value;
      |Get(q, f)| == |Get(p, f)| + 1 && Get(p, f) <= Get(q, f) && Item(h, f, Get(q, f)[|Get(p, f)|])
  {
    LayerAdds(h, e, last, p, f);
    var q := LayerParts(h, e, last, p).value;
    var xs := Get(q, f)[|Get(p, f)|..];
    assert |xs| == 1;
    assert xs == [Get(q, f)[|Get(p, f)|]];
  }

  /** The color after a layer: the one before it, or, in the last layer
      only, the conversion of one of its tokens. */
  lemma LayerColor(h: Helpers, e: seq<Value>, last: bool, p: Parts)
    requires LayerParts(h, e, last, p).Some?
    ensures var q := LayerParts(h, e, last, p).value;
      q.color == p.color || (last && ColorIn(h, e, q.color))
  {
    ScanColor(h, e, 0, InitialClaims(last), p);
  }

  /** A layer the scan must reject: a layer other than the last with a
      token that only the color could take, or the last layer with two such
      tokens or with one that does not convert to a color. */
  predicate StrayLayer(h: Helpers, e: seq<Value>, last: bool) {
    if last then
      || (exists k1, k2 :: 0 <= k1 < k2 < |e| && Stray(h, e[k1]) && Stray(h, e[k2]))
      || (exists k :: 0 <= k < |e| && Stray(h, e[k]) && h.asColor(e[k]).None?)
    else exists k :: 0 <= k < |e| && Stray(h, e[k])
  }

  lemma LayerRejectsStray(h: Helpers, e: seq<Value>, last: bool, p: Parts)
    requires StrayLayer(h, e, last)
    ensures LayerParts(h, e, last, p).None?
  {
    if last && exists k1, k2 :: 0 <= k1 < k2 < |e| && Stray(h, e[k1]) && Stray(h, e[k2]) {
      var k1, k2 :| 0 <= k1 < k2 < |e| && Stray(h, e[k1]) && Stray(h, e[k2]);
      StrayOnlyColor(h, InitialClaims(last), e[k1]);
      StrayOnlyColor(h, InitialClaims(last), e[k2]);
      ScanRejectsTwoOnlyColor(h, e, 0, InitialClaims(last), p, k1, k2);
    } else if last {
      var k :| 0 <= k < |e| && Stray(h, e[k]) && h.asColor(e[k]).None?;
      StrayOnlyColor(h, InitialClaims(last), e[k]);
      ScanRejectsOnlyColor(h, e, 0, InitialClaims(last), p, k);
    } else {
      var k :| 0 <= k < |e| && Stray(h, e[k]);
      StrayOnlyColor(h, InitialClaims(last), e[k]);
      ScanRejectsOnlyColor(h, e, 0, InitialClaims(last), p, k);
    }
  }

  /** The branch order of one pass: the first category in the order
      position, image, repeat, attachment, box that is unclaimed and that
      the token fits takes the pass. */
  lemma StepTakesPosition(h: Helpers, e: seq<Value>, j: nat, c: Claims)
    requires j < |e| && !c.position && IsPosition(h, e[j])
    ensures Step(h, e, j, c) == PositionStep(h, e, j, c)
  {
  }

  lemma StepTakesImage(h: Helpers, e: seq<Value>, j: nat, c: Claims)
    requires j < |e| && !c.image && h.asImage(e[j])
    requires c.position || !IsPosition(h, e[j])
    ensures Step(h, e, j, c) == Some(ImageStep(h, e, j, c))
  {
  }

  lemma StepTakesRepeat(h: Helpers, e: seq<Value>, j: nat, c: Claims)
    requires j < |e| && !c.repeat && IsRepeat(e[j])
    requires (c.position || !IsPosition(h, e[j])) && (c.image || !h.asImage(e[j]))
    ensures Step(h, e, j, c) == Some(RepeatStep(h, e, j, c))
  {
  }

  lemma StepTakesAttachment(h: Helpers, e: seq<Value>, j: nat, c: Claims)
    requires j < |e| && !c.attachment && IsAttachmentKeyword(e[j])
    requires (c.position || !IsPosition(h, e[j])) && (c.image || !h.asImage(e[j])) && (c.repeat || !IsRepeat(e[j]))
    ensures Step(h, e, j, c) == Some(AttachmentStep(h, e, j, c))
  {
  }

  lemma StepTakesBox(h: Helpers, e: seq<Value>, j: nat, c: Claims)
    requires j < |e| && !c.box && IsBox(h, e[j])
    requires (c.position || !IsPosition(h, e[j])) && (c.image || !h.asImage(e[j])) && (c.repeat || !IsRepeat(e[j]))
    requires c.attachment || !IsAttachmentKeyword(e[j])
    ensures Step(h, e, j, c) == Some(BoxStep(h, e, j, c))
  {
  }

  /** A last layer written in the shorthand's canonical order: image,
      position `/` size, repeat, attachment, origin, clip, color. */
  function Canonical(img: Value, pos: Value, size: Value, rep: Value, att: Value,
                     origin: Value, clip: Value, color: Value): seq<Value> {
    [img, pos, Delimiter, size, rep, att, origin, clip, color]
  }

  /** Which category each token of a canonical layer fits, and which earlier
      ones it does not. */
  predicate CanonicalTokens(h: Helpers, img: Value, pos: Value, size: Value, rep: Value, att: Value,
                            origin: Value, clip: Value, color: Value, col: Color) {
    && h.asImage(img) && !IsPosition(h, img)
    && IsPosition(h, pos) && !h.asCalc(Delimiter) && IsSize(h, size) && !IsSecondSize(h, rep)
    && IsRepeat(rep) && !h.asImage(rep) && !IsSecondRepeat(att)
    && IsAttachmentKeyword(att) && !h.asImage(att) && !IsRepeat(att)
    && IsBox(h, origin) && IsBox(h, clip) && h.asColor(color) == Some(col)
  }

  /** A scan goes on from wherever the pass at its first token leaves it. */
  lemma ScanMove(h: Helpers, e: seq<Value>, j: nat, c: Claims, p: Parts, m: Move)
    requires j < |e| && Step(h, e, j, c) == Some(m)
    ensures ScanFrom(h, e, j, c, p) == ScanFrom(h, e, m.next, m.claims, Apply(p, m.gain))
  {
  }

  /** The pass at token 0 of a canonical layer takes the image. */
  lemma CanonicalImage(h: Helpers, img: Value, pos: Value, size: Value, rep: Value, att: Value,
                       origin: Value, clip: Value, color: Value, col: Color)
    requires CanonicalTokens(h, img, pos, size, rep, att, origin, clip, color, col)
    ensures Step(h, Canonical(img, pos, size, rep, att, origin, clip, color), 0, Claims(false, false, false, false, false, false))
      == Some(Move(1, Claims(true, false, false, false, false, false), NoGain.(image := [img])))
  {
    var e := Canonical(img, pos, size, rep, att, origin, clip, color);
    var c := Claims(false, false, false, false, false, false);
    var m := Move(1, Claims(true, false, false, false, false, false), NoGain.(image := [img]));
    StepTakesImage(h, e, 0, c);
    assert ImageStep(h, e, 0, c) == m;
  }

  /** In a canonical layer the position is one token, ended by the `/`,
      and the size after it is one token too. */
  lemma CanonicalSize(h: Helpers, img: Value, pos: Value, size: Value, rep: Value, att: Value,
                      origin: Value, clip: Value, color: Value, col: Color)
    requires CanonicalTokens(h, img, pos, size, rep, att, origin, clip, color, col)
    ensures var e := Canonical(img, pos, size, rep, att, origin, clip, color);
      RunEnd(h, e, 2) == 2 && e[1..2] == [pos] && SizeAfter(h, e, 2) == Some((4, [size]))
  {
    var e := Canonical(img, pos, size, rep, att, origin, clip, color);
    assert !IsPosition(h, e[2]);
  }

  /** The pass at token 1 of a canonical layer takes the position and, after the `/`, the size. */
  lemma CanonicalPosition(h: Helpers, img: Value, pos: Value, size: Value, rep: Value, att: Value,
                          origin: Value, clip: Value, color: Value, col: Color)
    requires CanonicalTokens(h, img, pos, size, rep, att, origin, clip, color, col)
    ensures Step(h, Canonical(img, pos, size, rep, att, origin, clip, color), 1, Claims(true, false, false, false, false, false))
      == Some(Move(4, Claims(true, true, false, false, false, false), NoGain.(position := [pos], size := [size])))
  {
    var e := Canonical(img, pos, size, rep, att, origin, clip, color);
    var c := Claims(true, false, false, false, false, false);
    var m := Move(4, Claims(true, true, false, false, false, false), NoGain.(position := [pos], size := [size]));
    StepTakesPosition(h, e, 1, c);
    CanonicalSize(h, img, pos, size, rep, att, origin, clip, color, col);
    assert PositionStep(h, e, 1, c) == Some(m);
  }

  /** The pass at token 4 of a canonical layer takes the repeat keyword alone. */
  lemma CanonicalRepeat(h: Helpers, img: Value, pos: Value, size: Value, rep: Value, att: Value,
                       origin: Value, clip: Value, color: Value, col: Color)
    requires CanonicalTokens(h, img, pos, size, rep, att, origin, clip, color, col)
    ensures Step(h, Canonical(img, pos, size, rep, att, origin, clip, color), 4, Claims(true, true, false, false, false, false))
      == Some(Move(5, Claims(true, true, true, false, false, false), NoGain.(repeat := [rep])))
  {
    var e := Canonical(img, pos, size, rep, att, origin, clip, color);
    var c := Claims(true, true, false, false, false, false);
    var m := Move(5, Claims(true, true, true, false, false, false), NoGain.(repeat := [rep]));
    assert e[4] == rep && e[5] == att;
    StepTakesRepeat(h, e, 4, c);
    assert RepeatStep(h, e, 4, c) == m;
  }

  /** The pass at token 5 of a canonical layer takes the attachment. */
  lemma CanonicalAttachment(h: Helpers, img: Value, pos: Value, size: Value, rep: Value, att: Value,
                            origin: Value, clip: Value, color: Value, col: Color)
    requires CanonicalTokens(h, img, pos, size, rep, att, origin, clip, color, col)
    ensures Step(h, Canonical(img, pos, size, rep, att, origin, clip, color), 5, Claims(true, true, true, false, false, false))
      == Some(Move(6, Claims(true, true, true, true, false, false), NoGain.(attachment := [att])))
  {
    var e := Canonical(img, pos, size, rep, att, origin, clip, color);
    var c := Claims(true, true, true, false, false, false);
    var m := Move(6, Claims(true, true, true, true, false, false), NoGain.(attachment := [att]));
    StepTakesAttachment(h, e, 5, c);
    assert AttachmentStep(h, e, 5, c) == m;
  }

  /** The pass at token 6 of a canonical layer takes the origin and the clip. */
  lemma CanonicalBoxes(h: Helpers, img: Value, pos: Value, size: Value, rep: Value, att: Value,
                       origin: Value, clip: Value, color: Value, col: Color)
    requires CanonicalTokens(h, img, pos, size, rep, att, origin, clip, color, col)
    ensures Step(h, Canonical(img, pos, size, rep, att, origin, clip, color), 6, Claims(true, true, true, true, false, false))
      == Some(Move(8, Claims(true, true, true, true, true, false), NoGain.(origin := [origin], clip := [clip])))
  {
    var e := Canonical(img, pos, size, rep, att, origin, clip, color);
    var c := Claims(true, true, true, true, false, false);
    var m := Move(8, Claims(true, true, true, true, true, false), NoGain.(origin := [origin], clip := [clip]));
    StepTakesBox(h, e, 6, c);
    assert BoxStep(h, e, 6, c) == m;
  }

  /** The pass at token 8 of a canonical layer takes the color and ends the layer. */
  lemma CanonicalColor(h: Helpers, img: Value, pos: Value, size: Value, rep: Value, att: Value,
                        origin: Value, clip: Value, color: Value, col: Color)
    requires CanonicalTokens(h, img, pos, size, rep, att, origin, clip, color, col)
    ensures Step(h, Canonical(img, pos, size, rep, att, origin, clip, color), 8, Claims(true, true, true, true, true, false))
      == Some(Move(9, Claims(true, true, true, true, true, true), NoGain.(color := Some(col))))
  {
    var e := Canonical(img, pos, size, rep, att, origin, clip, color);
    var c := Claims(true, true, true, true, true, false);
    var m := Move(9, Claims(true, true, true, true, true, true), NoGain.(color := Some(col)));
    StepOnlyColor(h, e, 8, c);
    assert ColorStep(h, e, 8, c) == Some(m);
  }

  /** What the first three passes over a canonical layer add to the lists. */
  lemma CanonicalFrontGains(img: Value, pos: Value, size: Value, rep: Value)
    ensures Apply(Parts([], [], [], [], [], [], [], Transparent), NoGain.(image := [img])) == Parts([img], [], [], [], [], [], [], Transparent)
    ensures Apply(Parts([img], [], [], [], [], [], [], Transparent), NoGain.(position := [pos], size := [size])) == Parts([img], [pos], [size], [], [], [], [], Transparent)
    ensures Apply(Parts([img], [pos], [size], [], [], [], [], Transparent), NoGain.(repeat := [rep])) == Parts([img], [pos], [size], [rep], [], [], [], Transparent)
  {
    assert [] + [img] == [img] && [img] + [] == [img];
  }

  /** What the last three passes over a canonical layer add to the lists. */
  lemma CanonicalBackGains(img: Value, pos: Value, size: Value, rep: Value, att: Value,
                           origin: Value, clip: Value, col: Color)
    ensures Apply(Parts([img], [pos], [size], [rep], [], [], [], Transparent), NoGain.(attachment := [att])) == Parts([img], [pos], [size], [rep], [att], [], [], Transparent)
    ensures Apply(Parts([img], [pos], [size], [rep], [att], [], [], Transparent), NoGain.(origin := [origin], clip := [clip])) == Parts([img], [pos], [size], [rep], [att], [origin], [clip], Transparent)
    ensures Apply(Parts([img], [pos], [size], [rep], [att], [origin], [clip], Transparent), NoGain.(color := Some(col))) == Parts([img], [pos], [size], [rep], [att], [origin], [clip], col)
  {
    assert [img] + [] == [img] && [att] + [] == [att] && [] + [origin] == [origin];
  }

  /** The first three passes over a canonical layer take the image, the
      position with its size, and the repeat. */
  lemma CanonicalFront(h: Helpers, img: Value, pos: Value, size: Value, rep: Value, att: Value,
                       origin: Value, clip: Value, color: Value, col: Color)
    requires CanonicalTokens(h, img, pos, size, rep, att, origin, clip, color, col)
    ensures ScanFrom(h, Canonical(img, pos, size, rep, att, origin, clip, color), 0, Claims(false, false, false, false, false, false), Parts([], [], [], [], [], [], [], Transparent))
      == ScanFrom(h, Canonical(img, pos, size, rep, att, origin, clip, color), 5, Claims(true, true, true, false, false, false), Parts([img], [pos], [size], [rep], [], [], [], Transparent))
  {
    var e := Canonical(img, pos, size, rep, att, origin, clip, color);
    var m1 := Move(1, Claims(true, false, false, false, false, false), NoGain.(image := [img]));
    var m2 := Move(4, Claims(true, true, false, false, false, false), NoGain.(position := [pos], size := [size]));
    var m3 := Move(5, Claims(true, true, true, false, false, false), NoGain.(repeat := [rep]));
    CanonicalFrontGains(img, pos, size, rep);
    CanonicalImage(h, img, pos, size, rep, att, origin, clip, color, col);
    ScanMove(h, e, 0, Claims(false, false, false, false, false, false), Parts([], [], [], [], [], [], [], Transparent), m1);
    CanonicalPosition(h, img, pos, size, rep, att, origin, clip, color, col);
    ScanMove(h, e, 1, m1.claims, Parts([img], [], [], [], [], [], [], Transparent), m2);
    CanonicalRepeat(h, img, pos, size, rep, att, origin, clip, color, col);
    ScanMove(h, e, 4, m2.claims, Parts([img], [pos], [size], [], [], [], [], Transparent), m3);
  }

  /** The last three passes over a canonical layer take the attachment, the
      two boxes and the color, and end the scan. */
  lemma CanonicalBack(h: Helpers, img: Value, pos: Value, size: Value, rep: Value, att: Value,
                      origin: Value, clip: Value, color: Value, col: Color)
    requires CanonicalTokens(h, img, pos, size, rep, att, origin, clip, color, col)
    ensures ScanFrom(h, Canonical(img, pos, size, rep, att, origin, clip, color), 5, Claims(true, true, true, false, false, false), Parts([img], [pos], [size], [rep], [], [], [], Transparent))
      == Some(Cursor(9, Claims(true, true, true, true, true, true), Parts([img], [pos], [size], [rep], [att], [origin], [clip], col)))
  {
    var e := Canonical(img, pos, size, rep, att, origin, clip, color);
    var m4 := Move(6, Claims(true, true, true, true, false, false), NoGain.(attachment := [att]));
    var m5 := Move(8, Claims(true, true, true, true, true, false), NoGain.(origin := [origin], clip := [clip]));
    var m6 := Move(9, Claims(true, true, true, true, true, true), NoGain.(color := Some(col)));
    CanonicalBackGains(img, pos, size, rep, att, origin, clip, col);
    CanonicalAttachment(h, img, pos, size, rep, att, origin, clip, color, col);
    ScanMove(h, e, 5, Claims(true, true, true, false, false, false), Parts([img], [pos], [size], [rep], [], [], [], Transparent), m4);
    CanonicalBoxes(h, img, pos, size, rep, att, origin, clip, color, col);
    ScanMove(h, e, 6, m4.claims, Parts([img], [pos], [size], [rep], [att], [], [], Transparent), m5);
    CanonicalColor(h, img, pos, size, rep, att, origin, clip, color, col);
    ScanMove(h, e, 8, m5.claims, Parts([img], [pos], [size], [rep], [att], [origin], [clip], Transparent), m6);
  }

  /** A canonical last layer gives each longhand exactly its own token and
      the color its conversion. */
  lemma CanonicalLayer(h: Helpers, img: Value, pos: Value, size: Value, rep: Value, att: Value,
                       origin: Value, clip: Value, color: Value, col: Color)
    requires CanonicalTokens(h, img, pos, size, rep, att, origin, clip, color, col)
    ensures LayerParts(h, Canonical(img, pos, size, rep, att, origin, clip, color), true, Blank(Transparent))
      == Some(Parts([img], [pos], [size], [rep], [att], [origin], [clip], col))
  {
    CanonicalFront(h, img, pos, size, rep, att, origin, clip, color, col);
    CanonicalBack(h, img, pos, size, rep, att, origin, clip, color, col);
  }

  /** A layer that starts with a position token: the whole run of position
      tokens is the layer's position, and what follows the run is its size;
      a `/` without a size token after the run rejects the value. */
  lemma LayerLeadingPosition(h: Helpers, e: seq<Value>, last: bool, p: Parts)
    requires |e| > 0 && IsPosition(h, e[0])
    ensures SizeAfter(h, e, RunEnd(h, e, 1)).None? ==> LayerParts(h, e, last, p).None?
    ensures LayerParts(h, e, last, p).Some? ==>
      && LayerParts(h, e, last, p).value.position == p.position + e[..RunEnd(h, e, 1)]
      && LayerParts(h, e, last, p).value.size == p.size + SizeAfter(h, e, RunEnd(h, e, 1)).value.1
  {
    var c := InitialClaims(last);
    if Step(h, e, 0, c).Some? {
      var m := Step(h, e, 0, c).value;
      var q := Apply(p, m.gain);
      assert Step(h, e, 0, c) == PositionStep(h, e, 0, c);
      if ScanFrom(h, e, m.next, m.claims, q).Some? {
        ScanAdds(h, e, m.next, m.claims, q, PositionField);
        ScanAdds(h, e, m.next, m.claims, q, SizeField);
        assert Get(q, PositionField) == p.position + e[..RunEnd(h, e, 1)];
      }
    }
  }

  /** Items that pass `ok` at even positions and commas at odd ones. */
  predicate Alternating(xs: seq<Value>, ok: Value -> bool) {
    forall k :: 0 <= k < |xs| ==> if k % 2 == 0 then ok(xs[k]) else xs[k] == Separator
  }

  function ItemOf(h: Helpers, f: Field): Value -> bool {
    t => Item(h, f, t)
  }

  /** An alternating list of even length stays alternating with an item
      after it; one of odd length with a comma after it. */
  lemma AlternatingGrows(xs: seq<Value>, x: Value, ok: Value -> bool)
    requires Alternating(xs, ok)
    requires if |xs| % 2 == 0 then ok(x) else x == Separator
    ensures Alternating(xs + [x], ok)
  {
    var ys := xs + [x];
    forall k | 0 <= k < |ys| ensures if k % 2 == 0 then ok(ys[k]) else ys[k] == Separator {
      if k < |xs| {
        assert ys[k] == xs[k];
      }
    }
  }

  /** An alternating list whose items all convert is a list the
      comma-separated longhands accept, with one converted item per item. */
  lemma AlternatingConverts<T>(xs: seq<Value>, ok: Value -> bool, convert: Value -> Option<T>, n: nat)
    requires Alternating(xs, ok) && forall t :: ok(t) ==> convert(t).Some?
    requires |xs| == if n == 0 then 0 else 2 * n - 1
    ensures Alternates(xs, convert) && |Picks(xs, convert)| == n
  {
  }

  /** A layer scan that adds exactly one item, one that passes `ok`, to a
      one-token list. */
  ghost predicate AddsOne(layer: LayerScan, f: Field, ok: Value -> bool) {
    forall e, last, p :: layer(e, last, p).Some? ==>
      && |Get(layer(e, last, p).value, f)| == |Get(p, f)| + 1
      && Get(p, f) <= Get(layer(e, last, p).value, f)
      && ok(Get(layer(e, last, p).value, f)[|Get(p, f)|])
  }

  /** One layer keeps its list alternating, with or without the comma
      that follows it. */
  lemma AlternateStep(layer: LayerScan, e: seq<Value>, last: bool, p: Parts, f: Field, ok: Value -> bool)
    requires AddsOne(layer, f, ok) && layer(e, last, p).Some?
    requires |Get(p, f)| % 2 == 0 && Alternating(Get(p, f), ok)
    ensures var q := layer(e, last, p).value;
      && |Get(q, f)| == |Get(p, f)| + 1 && Alternating(Get(q, f), ok)
      && |Get(Separated(q), f)| == |Get(p, f)| + 2 && Alternating(Get(Separated(q), f), ok)
  {
    var q := layer(e, last, p).value;
    var x := Get(q, f)[|Get(p, f)|];
    assert Get(q, f) == Get(p, f) + [x];
    AlternatingGrows(Get(p, f), x, ok);
    AlternatingGrows(Get(q, f), Separator, ok);
  }

  /** From layer `i` on, each layer adds its item to a one-token list and
      every layer but the last a comma after it. */
  lemma {:induction false} LayersAlternate(layer: LayerScan, layers: seq<seq<Value>>, i: nat, p: Parts, f: Field, ok: Value -> bool)
    requires AddsOne(layer, f, ok)
    requires i < |layers| && ScanLayers(layer, layers, i, p).Some?
    requires |Get(p, f)| == 2 * i && Alternating(Get(p, f), ok)
    ensures var q := ScanLayers(layer, layers, i, p).value;
      |Get(q, f)| == 2 * |layers| - 1 && Alternating(Get(q, f), ok)
    decreases |layers| - i
  {
    var q := layer(layers[i], i + 1 == |layers|, p).value;
    AlternateStep(layer, layers[i], i + 1 == |layers|, p, f, ok);
    if i + 1 < |layers| {
      LayersAlternate(layer, layers, i + 1, Separated(q), f, ok);
    }
  }

  /** The decomposition's one-token lists (image, attachment, origin, clip)
      hold one item per layer, separated by commas. */
  lemma DecompositionAlternates(h: Helpers, value: Value, f: Field)
    requires SingleField(f) && Decomposition(h, value).Some?
    ensures var n := |h.layers(Items(value))|;
      var xs := Get(Decomposition(h, value).value, f);
      |xs| == (if n == 0 then 0 else 2 * n - 1) && Alternating(xs, ItemOf(h, f))
  {
    var layer := LayerScanOf(h);
    forall e, last, p | layer(e, last, p).Some?
      ensures |Get(layer(e, last, p).value, f)| == |Get(p, f)| + 1
      ensures Get(p, f) <= Get(layer(e, last, p).value, f)
      ensures ItemOf(h, f)(Get(layer(e, last, p).value, f)[|Get(p, f)|])
    {
      LayerAddsOne(h, e, last, p, f);
    }
    if |h.layers(Items(value))| > 0 {
      LayersAlternate(layer, h.layers(Items(value)), 0, Blank(Transparent), f, ItemOf(h, f));
    }
  }
  /** Segments written one after another with a single comma between two
      neighbours. */
  function Joined(segs: seq<seq<Value>>): (r: seq<Value>)
    ensures |segs| == 1 ==> r == segs[0]
    decreases |segs|
  {
    if |segs| == 0 then []
    else if |segs| == 1 then segs[0]
    else Joined(segs[..|segs| - 1]) + [Separator] + segs[|segs| - 1]
  }

  /** The test a layer's segment of the list of `f` passes, given the
      layer's tokens: a claim of the category or its initial value, made of
      the layer's own tokens apart from the initial value. */
  function SegmentOf(h: Helpers, f: Field): (seq<Value>, seq<Value>) -> bool {
    (e, s) => (Claim(h, f, s) || s == [Default(f)]) && Drawn(f, s, e)
  }

  /** `xs` is one segment per layer, joined by single commas, each segment
      passing `ok` with its own layer. */
  ghost predicate Segmented(xs: seq<Value>, layers: seq<seq<Value>>, ok: (seq<Value>, seq<Value>) -> bool) {
    exists segs :: |segs| == |layers| && (forall i :: 0 <= i < |segs| ==> ok(layers[i], segs[i])) && xs == Joined(segs)
  }

  /** Every layer pass extends the list of `f` by a segment that passes `ok`
      with the layer's tokens. */
  ghost predicate AddsSegment(layer: LayerScan, f: Field, ok: (seq<Value>, seq<Value>) -> bool) {
    forall e, last, p :: layer(e, last, p).Some? ==>
      && Get(p, f) <= Get(layer(e, last, p).value, f)
      && ok(e, Get(layer(e, last, p).value, f)[|Get(p, f)|..])
  }

  lemma SegmentStep(layer: LayerScan, e: seq<Value>, last: bool, p: Parts, f: Field, ok: (seq<Value>, seq<Value>) -> bool, done: seq<seq<Value>>)
    requires AddsSegment(layer, f, ok) && layer(e, last, p).Some?
    requires Get(p, f) == (if |done| == 0 then [] else Joined(done) + [Separator])
    ensures var q := layer(e, last, p).value;
      var seg := Get(q, f)[|Get(p, f)|..];
      && ok(e, seg) && Get(q, f) == Joined(done + [seg])
      && Get(Separated(q), f) == Joined(done + [seg]) + [Separator]
  {
    var q := layer(e, last, p).value;
    var seg := Get(q, f)[|Get(p, f)|..];
    assert Get(q, f) == Get(p, f) + seg;
    var all := done + [seg];
    assert all[..|all| - 1] == done;
  }

  lemma {:induction false} LayersSegmented(layer: LayerScan, layers: seq<seq<Value>>, i: nat, p: Parts, f: Field, ok: (seq<Value>, seq<Value>) -> bool, done: seq<seq<Value>>)
    returns (segs: seq<seq<Value>>)
    requires AddsSegment(layer, f, ok)
    requires i < |layers| && ScanLayers(layer, layers, i, p).Some?
    requires |done| == i && (forall k :: 0 <= k < i ==> ok(layers[k], done[k]))
    requires Get(p, f) == (if i == 0 then [] else Joined(done) + [Separator])
    ensures |segs| == |layers| && (forall k :: 0 <= k < |segs| ==> ok(layers[k], segs[k]))
    ensures Get(ScanLayers(layer, layers, i, p).value, f) == Joined(segs)
    decreases |layers| - i
  {
    var last := i + 1 == |layers|;
    var q := layer(layers[i], last, p).value;
    var seg := Get(q, f)[|Get(p, f)|..];
    SegmentStep(layer, layers[i], last, p, f, ok, done);
    segs := done + [seg];
    assert forall k :: 0 <= k < |segs| ==> ok(layers[k], segs[k]);
    if last {
      assert ScanLayers(layer, layers, i, p).value == q;
    } else {
      segs := LayersSegmented(layer, layers, i + 1, Separated(q), f, ok, segs);
    }
  }

  /** Each layer pass of the shorthand adds, to every longhand list, what
      the layer claimed for it out of its own tokens, or its initial
      value. */
  lemma LayerScanAddsSegment(h: Helpers, f: Field)
    ensures AddsSegment(LayerScanOf(h), f, SegmentOf(h, f))
  {
    var layer := LayerScanOf(h);
    forall e, last, p | layer(e, last, p).Some?
      ensures Get(p, f) <= Get(layer(e, last, p).value, f)
      ensures SegmentOf(h, f)(e, Get(layer(e, last, p).value, f)[|Get(p, f)|..])
    {
      LayerAdds(h, e, last, p, f);
      LayerDrawn(h, e, last, p, f);
    }
  }

  /** The list of each longhand the shorthand rebuilds is one segment per
      layer, joined by single commas; each segment is what that layer claimed
      for the longhand, or its initial value. */
  lemma DecompositionSegments(h: Helpers, value: Value, f: Field)
    requires Decomposition(h, value).Some?
    ensures Segmented(Get(Decomposition(h, value).value, f), h.layers(Items(value)), SegmentOf(h, f))
  {
    var layers := h.layers(Items(value));
    assert Decomposition(h, value) == ScanLayers(LayerScanOf(h), layers, 0, Blank(Transparent));
    if |layers| == 0 {
      assert Get(Blank(Transparent), f) == Joined([]);
    } else {
      LayerScanAddsSegment(h, f);
      var segs := LayersSegmented(LayerScanOf(h), layers, 0, Blank(Transparent), f, SegmentOf(h, f), []);
    }
  }

  /** The attachment tokens of a layer are keywords the attachment table
      knows. */
  lemma AttachmentItemConverts(h: Helpers, t: Value)
    requires Item(h, AttachmentField, t)
    ensures AttachmentOf(t).Some?
  {
    if t == Ident("scroll") {
      LookupIgnoresCase("scroll", Scroll);
    } else if Is(t, "local") {
      LookupIgnoresCase(t.name, Local);
    } else if Is(t, "fixed") {
      LookupIgnoresCase(t.name, Fixed);
    } else {
      assert IsOneOf(t, ["local", "fixed", "scroll"]);
      assert ["local", "fixed", "scroll"][1..] == ["fixed", "scroll"];
      assert IsOneOf(t, ["fixed", "scroll"]);
      assert ["fixed", "scroll"][1..] == ["scroll"];
      assert IsOneOf(t, ["scroll"]);
      assert ["scroll"][1..] == [] && !IsOneOf(t, []);
      assert Is(t, "scroll");
      LookupIgnoresCase(t.name, Scroll);
    }
  }

  /** The attachment list the shorthand builds is always accepted by the
      `background-attachment` longhand, with one attachment per layer. */
  lemma AttachmentsAccepted(h: Helpers, value: Value, d: Parts)
    requires Decomposition(h, value) == Some(d)
    ensures Alternates(d.attachment, AttachmentOf) && |Picks(d.attachment, AttachmentOf)| == |h.layers(Items(value))|
  {
    DecompositionAlternates(h, value, AttachmentField);
    assert Get(d, AttachmentField) == d.attachment;
    AttachmentListAccepted(h, d.attachment, |h.layers(Items(value))|);
  }

  /** A comma-separated list of layer attachments is one the
      `background-attachment` longhand accepts. */
  lemma AttachmentListAccepted(h: Helpers, xs: seq<Value>, n: nat)
    requires Alternating(xs, ItemOf(h, AttachmentField))
    requires |xs| == if n == 0 then 0 else 2 * n - 1
    ensures Alternates(xs, AttachmentOf) && |Picks(xs, AttachmentOf)| == n
  {
    forall t | ItemOf(h, AttachmentField)(t) ensures AttachmentOf(t).Some? {
      AttachmentItemConverts(h, t);
    }
    AlternatingConverts(xs, ItemOf(h, AttachmentField), AttachmentOf, n);
  }

  /** The origin tokens of a layer are boxes, or `border-box` when it has
      none. */
  lemma OriginItemConverts(h: Helpers, t: Value)
    requires Item(h, OriginField, t) && h.toBoxModel(Ident("border-box")).Some?
    ensures h.toBoxModel(t).Some?
  {
  }

  /** A comma-separated list of layer origins is one the
      `background-origin` longhand accepts. */
  lemma OriginListAccepted(h: Helpers, xs: seq<Value>, n: nat)
    requires Alternating(xs, ItemOf(h, OriginField)) && h.toBoxModel(Ident("border-box")).Some?
    requires |xs| == if n == 0 then 0 else 2 * n - 1
    ensures Alternates(xs, h.toBoxModel) && |Picks(xs, h.toBoxModel)| == n
  {
    forall t | ItemOf(h, OriginField)(t) ensures h.toBoxModel(t).Some? {
      OriginItemConverts(h, t);
    }
    AlternatingConverts(xs, ItemOf(h, OriginField), h.toBoxModel, n);
  }

  /** The origin list the shorthand builds is accepted by the
      `background-origin` longhand, one origin per layer, whenever the
      box-model helper knows `border-box`, the origin of a layer without a
      box. */
  lemma OriginsAccepted(h: Helpers, value: Value, d: Parts)
    requires Decomposition(h, value) == Some(d) && h.toBoxModel(Ident("border-box")).Some?
    ensures Alternates(d.origin, h.toBoxModel) && |Picks(d.origin, h.toBoxModel)| == |h.layers(Items(value))|
  {
    DecompositionAlternates(h, value, OriginField);
    assert Get(d, OriginField) == d.origin;
    OriginListAccepted(h, d.origin, |h.layers(Items(value))|);
  }

  /** Some token of `e` converts to `color`. */
  predicate ColorIn(h: Helpers, e: seq<Value>, color: Color) {
    exists k :: 0 <= k < |e| && h.asColor(e[k]) == Some(color)
  }

  /** A layer scan that keeps the color, except that the last layer may
      take it from one of its tokens. */
  ghost predicate KeepsColor(h: Helpers, layer: LayerScan) {
    forall e, last, p :: layer(e, last, p).Some? ==>
      layer(e, last, p).value.color == p.color || (last && ColorIn(h, e, layer(e, last, p).value.color))
  }

  /** From layer `i` on, the color stays as it is unless the last layer
      converts one of its tokens. */
  lemma {:induction false} LayersColor(h: Helpers, layer: LayerScan, layers: seq<seq<Value>>, i: nat, p: Parts)
    requires KeepsColor(h, layer)
    requires i <= |layers| && ScanLayers(layer, layers, i, p).Some?
    ensures var q := ScanLayers(layer, layers, i, p).value;
      q.color == p.color || (|layers| > 0 && ColorIn(h, layers[|layers| - 1], q.color))
    decreases |layers| - i
  {
    if i < |layers| {
      var q := layer(layers[i], i + 1 == |layers|, p).value;
      var next := if i + 1 < |layers| then Separated(q) else q;
      LayersColor(h, layer, layers, i + 1, next);
    }
  }

  /** The decomposition's color is transparent or the conversion of a token
      of the last layer. */
  lemma DecompositionColor(h: Helpers, value: Value)
    requires Decomposition(h, value).Some?
    ensures var layers := h.layers(Items(value));
      var color := Decomposition(h, value).value.color;
      color == Transparent || (|layers| > 0 && ColorIn(h, layers[|layers| - 1], color))
  {
    var layer := LayerScanOf(h);
    forall e, last, p | layer(e, last, p).Some?
      ensures layer(e, last, p).value.color == p.color || (last && ColorIn(h, e, layer(e, last, p).value.color))
    {
      LayerColor(h, e, last, p);
    }
    LayersColor(h, layer, h.layers(Items(value)), 0, Blank(Transparent));
  }

  /** A layer scan that rejects every stray layer. */
  ghost predicate RejectsStray(h: Helpers, layer: LayerScan) {
    forall e, last, p :: StrayLayer(h, e, last) ==> layer(e, last, p).None?
  }

  /** A rejected layer rejects the whole value. */
  lemma {:induction false} LayersRejectStray(h: Helpers, layer: LayerScan, layers: seq<seq<Value>>, i: nat, p: Parts, l: nat)
    requires RejectsStray(h, layer)
    requires i <= l < |layers| && StrayLayer(h, layers[l], l + 1 == |layers|)
    ensures ScanLayers(layer, layers, i, p).None?
    decreases |layers| - i
  {
    if i < l && layer(layers[i], i + 1 == |layers|, p).Some? {
      var q := layer(layers[i], i + 1 == |layers|, p).value;
      LayersRejectStray(h, layer, layers, i + 1, if i + 1 < |layers| then Separated(q) else q, l);
    }
  }

  /** A stray token (one that fits no category and that no branch swallows
      after its own) in a layer other than the last rejects the value, and
      so do two of them in the last layer, or one there that does not
      convert to a color. A follower swallowed by an earlier
      pass is not covered: see `ColorBranchRejects` for the pass that reaches
      a token. */
  lemma DecompositionRejectsStray(h: Helpers, value: Value, l: nat)
    requires l < |h.layers(Items(value))|
    requires StrayLayer(h, h.layers(Items(value))[l], l + 1 == |h.layers(Items(value))|)
    ensures Decomposition(h, value).None?
  {
    var layer := LayerScanOf(h);
    forall e, last, p | StrayLayer(h, e, last) ensures layer(e, last, p).None? {
      LayerRejectsStray(h, e, last, p);
    }
    LayersRejectStray(h, layer, h.layers(Items(value)), 0, Blank(Transparent), l);
  }

  /** Appending nothing leaves every list as it is. */
  lemma NothingAdded(p: Parts)
    ensures forall f :: Get(p, f) + [] == Get(p, f)
    ensures Apply(p, NoGain) == p
  {
    forall f ensures Get(p, f) + [] == Get(p, f) {
      assert Get(p, f) + [] == Get(p, f);
    }
  }

  /** A pass applied to the lists it was computed for. */
  function Advance(m: Option<Move>, p: Parts): Option<Cursor> {
    match m
    case None => None
    case Some(m) => Some(Cursor(m.next, m.claims, Apply(p, m.gain)))
  }

  /** The position branch of the token loop: the run of position tokens is
      copied, `j` advances past it, and then past `/` and the size tokens. */
  method ScanPosition(h: Helpers, entry: seq<Value>, j: nat, c: Claims, p: Parts) returns (r: Option<Cursor>)
    requires j < |entry| && !c.position && IsPosition(h, entry[j])
    ensures r == Advance(PositionStep(h, entry, j, c), p)
  {
    var i: nat := j;
    var position := p.position + [entry[i]];
    while i + 1 < |entry| && IsPosition(h, entry[i + 1])
      invariant j <= i < |entry|
      invariant RunEnd(h, entry, i + 1) == RunEnd(h, entry, j + 1)
      invariant position == p.position + entry[j..i + 1]
    {
      i := i + 1;
      position := position + [entry[i]];
    }
    assert RunEnd(h, entry, i + 1) == i + 1;
    var sized := ScanSize(h, entry, i, p.size);
    if sized.None? {
      return None;
    }
    NothingAdded(p);
    return Some(Cursor(sized.value.0 + 1, c.(position := true), p.(position := position, size := sized.value.1)));
  }

  /** The size part of the position branch, where `i` is the last token of
      the position run: after a `/`, one size token and an optional second
      one are appended and `i` moves to the last of them; with no `/`,
      `auto` is appended. Gives the new `i` and the new size list. */
  method ScanSize(h: Helpers, entry: seq<Value>, i: nat, size: seq<Value>) returns (r: Option<(nat, seq<Value>)>)
    requires i < |entry|
    ensures r.None? <==> SizeAfter(h, entry, i + 1).None?
    ensures r.Some? ==>
      && r.value.0 + 1 == SizeAfter(h, entry, i + 1).value.0
      && r.value.1 == size + SizeAfter(h, entry, i + 1).value.1
  {
    var j, sizes := i, size;
    if j + 1 < |entry| && entry[j + 1] == Delimiter {
      j := j + 2;
      if j < |entry| && IsSize(h, entry[j]) {
        sizes := sizes + [entry[j]];
        if j + 1 < |entry| && IsSecondSize(h, entry[j + 1]) {
          j := j + 1;
          sizes := sizes + [entry[j]];
          assert sizes == size + [entry[j - 1], entry[j]];
        }
      } else {
        return None;
      }
    } else {
      sizes := sizes + [Ident("auto")];
    }
    return Some((j, sizes));
  }

  /** One pass of the token loop: the branch that claims the token, or the
      rejection. */
  method ScanToken(h: Helpers, entry: seq<Value>, j: nat, c: Claims, p: Parts) returns (r: Option<Cursor>)
    requires j < |entry|
    ensures r == Advance(Step(h, entry, j, c), p)
  {
    var claims, parts := c, p;
    var i: nat := j;
    NothingAdded(p);
    if !claims.position && IsPosition(h, entry[i]) {
      r := ScanPosition(h, entry, j, c, p);
      return;
    }
    if !claims.image && h.asImage(entry[i]) {
      claims := claims.(image := true);
      parts := parts.(image := parts.image + [entry[i]]);
    } else if !claims.repeat && IsRepeat(entry[i]) {
      claims := claims.(repeat := true);
      parts := parts.(repeat := parts.repeat + [entry[i]]);
      if i + 1 < |entry| && IsSecondRepeat(entry[i + 1]) {
        i := i + 1;
        parts := parts.(repeat := parts.repeat + [entry[i]]);
        assert parts.repeat == p.repeat + [entry[j], entry[i]];
      }
    } else if !claims.attachment && IsAttachmentKeyword(entry[i]) {
      claims := claims.(attachment := true);
      parts := parts.(attachment := parts.attachment + [entry[i]]);
    } else if !claims.box && IsBox(h, entry[i]) {
      claims := claims.(box := true);
      parts := parts.(origin := parts.origin + [entry[i]]);
      if i + 1 < |entry| && IsBox(h, entry[i + 1]) {
        i := i + 1;
        parts := parts.(clip := parts.clip + [entry[i]]);
      } else {
        parts := parts.(clip := parts.clip + [Ident("border-box")]);
      }
    } else {
      if claims.color {
        return None;
      }
      claims := claims.(color := true);
      var converted := h.asColor(entry[i]);
      if converted.None? {
        return None;
      }
      parts := parts.(color := converted.value);
    }
    return Some(Cursor(i + 1, claims, parts));
  }

  /** The body of the layer loop: the token loop from fresh flags, then the
      defaults for every category left unclaimed. */
  method ScanLayer(h: Helpers, entry: seq<Value>, last: bool, start: Parts) returns (r: Option<Parts>)
    ensures r == LayerParts(h, entry, last, start)
  {
    var claims := InitialClaims(last);
    var parts := start;
    var j := 0;
    while j < |entry|
      invariant j <= |entry|
      invariant ScanFrom(h, entry, 0, InitialClaims(last), start) == ScanFrom(h, entry, j, claims, parts)
      decreases |entry| - j
    {
      var step := ScanToken(h, entry, j, claims, parts);
      if step.None? {
        return None;
      }
      j, claims, parts := step.value.next, step.value.claims, step.value.parts;
    }
    if !claims.image {
      parts := parts.(image := parts.image + [Ident("none")]);
    }
    if !claims.position {
      parts := parts.(position := parts.position + [Ident("center")], size := parts.size + [Ident("auto")]);
    }
    if !claims.repeat {
      parts := parts.(repeat := parts.repeat + [Ident("repeat")]);
    }
    if !claims.attachment {
      parts := parts.(attachment := parts.attachment + [Ident("scroll")]);
    }
    if !claims.box {
      parts := parts.(origin := parts.origin + [Ident("border-box")], clip := parts.clip + [Ident("border-box")]);
    }
    r := Some(parts);
  }

  /** The layer loop: each layer in turn, a comma after every layer but the
      last; the first rejected layer rejects the value. */
  method Decompose(h: Helpers, value: Value) returns (r: Option<Parts>)
    ensures r == Decomposition(h, value)
  {
    var list := h.layers(Items(value));
    var parts := Blank(Transparent);
    for i := 0 to |list|
      invariant ScanLayers(LayerScanOf(h), list, i, parts) == Decomposition(h, value)
    {
      var layer := ScanLayer(h, list[i], i + 1 == |list|, parts);
      if layer.None? {
        return None;
      }
      parts := layer.value;
      if i + 1 < |list| {
        parts := Separated(parts);
      }
    }
    return Some(parts);
  }

  /** The `background` shorthand and the eight longhands it sets. */
  class BackgroundProperty {
    const image: Longhand
    const position: Longhand
    const size: Longhand
    const repeat: Longhand
    const attachment: BackgroundAttachmentProperty
    const origin: BackgroundOriginProperty
    const clip: Longhand
    const color: Longhand
    const inherited: bool

    /** Each generic longhand validates as its own property, which also
        makes them six distinct objects. */
    ghost predicate Valid() {
      && image.kind == BackgroundImage
      && position.kind == BackgroundPosition
      && size.kind == BackgroundSize
      && repeat.kind == BackgroundRepeat
      && clip.kind == BackgroundClip
      && color.kind == BackgroundColor
    }

    constructor ()
      ensures Valid() && !inherited
      ensures fresh(image) && fresh(position) && fresh(size) && fresh(repeat)
      ensures fresh(attachment) && fresh(origin) && fresh(clip) && fresh(color)
      ensures image.value.None? && position.value.None? && size.value.None? && repeat.value.None?
      ensures clip.value.None? && color.value.None?
      ensures attachment.attachments == [Scroll] && origin.origins == [PaddingBox]
    {
      image := new Longhand(BackgroundImage);
      position := new Longhand(BackgroundPosition);
      size := new Longhand(BackgroundSize);
      repeat := new Longhand(BackgroundRepeat);
      attachment := new BackgroundAttachmentProperty();
      origin := new BackgroundOriginProperty();
      clip := new Longhand(BackgroundClip);
      color := new Longhand(BackgroundColor);
      inherited := false;
    }

    /** Accepts `inherit` without change. Otherwise decomposes the value;
        a rejected decomposition rejects the value and changes nothing. An
        accepted one is handed to the eight longhands, each of which keeps
        its part only if its own validator accepts it, and the shorthand
        accepts the value whatever the longhands say. */
    method IsValid(h: Helpers, value: Value) returns (ok: bool)
      requires Valid()
      modifies image, position, size, repeat, attachment, origin, clip, color
      ensures ok <==> value == Inherit || Decomposition(h, value).Some?
      ensures value == Inherit || !ok ==>
        && unchanged(image, position, size, repeat, attachment, origin, clip, color)
      ensures value != Inherit && ok ==> Assigned(h, Decomposition(h, value).value)
    {
      if value == Inherit {
        return true;
      }
      var parts := Decompose(h, value);
      if parts.None? {
        return false;
      }
      AttachmentsAccepted(h, value, parts.value);
      Assign(h, parts.value);
      return true;
    }

    /** The eight longhands after the decomposition `p` was handed to them:
        each generic longhand holds its part if its validator accepts it and
        what it held before otherwise; the attachment longhand always
        accepts its list; the origin longhand holds its parsed list if it
        accepts it. */
    twostate predicate Assigned(h: Helpers, p: Parts)
      reads image, position, size, repeat, attachment, origin, clip, color
    {
      && image.value == (if h.accepts(BackgroundImage, List(p.image)) then Some(List(p.image)) else old(image.value))
      && position.value == (if h.accepts(BackgroundPosition, List(p.position)) then Some(List(p.position)) else old(position.value))
      && size.value == (if h.accepts(BackgroundSize, List(p.size)) then Some(List(p.size)) else old(size.value))
      && repeat.value == (if h.accepts(BackgroundRepeat, List(p.repeat)) then Some(List(p.repeat)) else old(repeat.value))
      && Alternates(p.attachment, AttachmentOf) && attachment.attachments == Picks(p.attachment, AttachmentOf)
      && origin.origins == (if Alternates(p.origin, h.toBoxModel) then Picks(p.origin, h.toBoxModel) else old(origin.origins))
      && clip.value == (if h.accepts(BackgroundClip, List(p.clip)) then Some(List(p.clip)) else old(clip.value))
      && color.value == (if h.accepts(BackgroundColor, Col(p.color)) then Some(Col(p.color)) else old(color.value))
    }

    /** The eight `Value` assignments that end an accepted decomposition. */
    method Assign(h: Helpers, p: Parts)
      requires Valid() && Alternates(p.attachment, AttachmentOf)
      modifies image, position, size, repeat, attachment, origin, clip, color
      ensures Assigned(h, p)
    {
      var accepted := image.SetValue(h, List(p.image));
      accepted := position.SetValue(h, List(p.position));
      accepted := repeat.SetValue(h, List(p.repeat));
      accepted := attachment.IsValid(List(p.attachment));
      accepted := origin.IsValid(h, List(p.origin));
      accepted := size.SetValue(h, List(p.size));
      accepted := clip.SetValue(h, List(p.clip));
      accepted := color.SetValue(h, Col(p.color));
    }
  }
}
