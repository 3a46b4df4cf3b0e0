# AngleSharp CSS property validators and form data set, in Dafny

This project models a slice of AngleSharp's CSS object model and its HTML form submission code.

Each CSS property class has an `IsValid` validator, which accepts or rejects a parsed declaration value. On acceptance it overwrites the property's typed state. On rejection it leaves that state as it was. The model covers:

- the `background` shorthand. Its layer-by-layer token scan splits a value into seven comma-separated lists (image, position, size, repeat, attachment, origin, clip) plus one color. These are handed to the eight longhands.
- the `border-radius` shorthand. It splits the value at the first `/`, expands each group of one to four radii to four slots, and commits the four corners only when every corner accepts its slot.
- the `background-attachment` and `background-origin` longhands, which parse comma-separated lists.
- the keyword longhands `font-stretch` and `text-decoration-style`, and the longhands `column-width`, `column-span`, `perspective`, `transition-delay`, `color` and `border-image-width`.
- the form data set. It covers the two `Append` overloads, the CRLF line-break normalisation, the enumeration of entry names, and the `_charset_` pass of the multipart encoder.

Several pieces of the value layer are not in the model:

- the conversion helpers: lengths, colors, calc values, images, box models, time lists, and the splitting of a value list into layers;
- the validators of the longhands whose classes are not in the model: image, position, size, repeat, clip, background color and the four radius corners.

Every operation receives them as a `Helpers` value of uninterpreted functions, so every property below holds for all helpers.

Each property class is a Dafny `class`. Its fields are the property's state, and its `IsValid` is a method proved against a specification:

- the keyword tables are maps with proved round trips;
- the list longhands use `SeparatedLists.Alternates`/`Picks`;
- `background` is specified by functions that follow its loop token by token (`Background.Step`, `ScanFrom`, `LayerParts`, `ScanLayers`, `Decomposition`), and lemmas state what the decomposition is;
- `border-radius` has `BorderRadius.SplitSlots`, with the strided fill of the source proved equal to the CSS mirroring rule `ExpandFour`.

Paths below are relative to the repository root.

## Model

| member | source | states |
|---|---|---|
| Values.Items | AngleSharp/DOM/Css/Properties/Background/CSSBackgroundProperty.cs:116 | a value list yields its own items, any other value a one-item list around it |
| Keywords.Lower | AngleSharp/DOM/Css/Properties/Background/CSSBackgroundAttachmentProperty.cs:14 | the case fold behind the ordinal case-insensitive tables: same length, each character folded to lower case |
| Longhands.Longhand.constructor | AngleSharp/DOM/Css/Properties/BorderRadius/CSSBorderRadiusProperty.cs:123 | a fresh longhand of the given kind that holds no value yet |
| Longhands.Longhand.SetValue | AngleSharp/DOM/Css/Properties/BorderRadius/CSSBorderRadiusProperty.cs:127-129 | the `Value` setter: reports whether the longhand's validator accepts the value, and the longhand keeps the value exactly then |
| SeparatedLists.Picks | AngleSharp/DOM/Css/Properties/Background/CSSBackgroundAttachmentProperty.cs:60-71 | one converted item per even position, in input order, each the conversion of its token |
| SeparatedLists.EmitShape | AngleSharp/DOM/Css/Properties/Background/CSSBackgroundAttachmentProperty.cs:60-71 | a list written with commas has items at the even positions and commas at the odd ones, and its length is 2n-1 |
| SeparatedLists.EmitRoundTrip | AngleSharp/DOM/Css/Properties/Background/CSSBackgroundAttachmentProperty.cs:60-73 | validating a list written with commas gives back the same items, provided each item's token converts back to it |
| SeparatedLists.TrailingSeparator | AngleSharp/DOM/Css/Properties/Background/CSSBackgroundAttachmentProperty.cs:69-70 | a comma after the last item is accepted and changes nothing |
| SeparatedLists.MissingSeparator | AngleSharp/DOM/Css/Properties/Background/CSSBackgroundOriginProperty.cs:61-62 | two convertible items with no comma between them reject the list |
| BackgroundAttachment.LookupIgnoresCase | AngleSharp/DOM/Css/Properties/Background/CSSBackgroundAttachmentProperty.cs:14 | an identifier finds a mode if and only if it spells that mode's keyword in any mix of cases |
| BackgroundAttachment.Lookup | AngleSharp/DOM/Css/Properties/Background/CSSBackgroundAttachmentProperty.cs:14 | the case-insensitive table lookup; `LookupIgnoresCase` states which names find which mode |
| BackgroundAttachment.AttachmentOf | AngleSharp/DOM/Css/Properties/Background/CSSBackgroundAttachmentProperty.cs:64 | an identifier token the table knows gives its mode, any other token nothing; `KeywordListRoundTrip` relies on it |
| BackgroundAttachment.ModesRoundTrip | AngleSharp/DOM/Css/Properties/Background/CSSBackgroundAttachmentProperty.cs:21-26 | the table maps `fixed`, `local` and `scroll` to their modes and holds no other key |
| BackgroundAttachment.KeywordListRoundTrip | AngleSharp/DOM/Css/Properties/Background/CSSBackgroundAttachmentProperty.cs:60-73 | any list of modes written as keywords with commas is accepted and parses back to the same list |
| BackgroundAttachment.BackgroundAttachmentProperty.constructor | AngleSharp/DOM/Css/Properties/Background/CSSBackgroundAttachmentProperty.cs:28-34 | initial list `[Scroll]`, not inherited |
| BackgroundAttachment.BackgroundAttachmentProperty.IsValid | AngleSharp/DOM/Css/Properties/Background/CSSBackgroundAttachmentProperty.cs:52-75 | accepts exactly `inherit` or a list with table keywords at even positions and commas at odd ones; on success the list is replaced by the keywords' modes in order; `inherit` and rejection leave it unchanged |
| BackgroundOrigin.BackgroundOriginProperty.constructor | AngleSharp/DOM/Css/Properties/Background/CSSBackgroundOriginProperty.cs:20-26 | initial list `[PaddingBox]`, not inherited |
| BackgroundOrigin.BackgroundOriginProperty.IsValid | AngleSharp/DOM/Css/Properties/Background/CSSBackgroundOriginProperty.cs:44-67 | accepts exactly `inherit` or a list with convertible boxes at even positions and commas at odd ones; on success the list is replaced by the converted boxes in order; otherwise unchanged |
| FontStretch.StretchOfIgnoresCase | AngleSharp/DOM/Css/Properties/Font/CSSFontStretchProperty.cs:57-62 | an identifier finds a stretch if and only if it spells that stretch's keyword in any mix of cases |
| FontStretch.StretchOf | AngleSharp/DOM/Css/Properties/Font/CSSFontStretchProperty.cs:61 | an identifier token the table knows, in any case, gives its stretch; `StretchOfIgnoresCase` states which |
| FontStretch.StylesRoundTrip | AngleSharp/DOM/Css/Properties/Font/CSSFontStretchProperty.cs:21-32 | the table maps each of the nine keywords to its member and holds no other key |
| FontStretch.FontStretchProperty.constructor | AngleSharp/DOM/Css/Properties/Font/CSSFontStretchProperty.cs:34-39 | initial value `Normal`, inherited |
| FontStretch.FontStretchProperty.IsValid | AngleSharp/DOM/Css/Properties/Font/CSSFontStretchProperty.cs:57-67 | accepts exactly a known keyword or `inherit`; a keyword sets the stretch, anything else leaves it unchanged |
| TextDecorationStyle.StyleOfIgnoresCase | AngleSharp/DOM/Css/Properties/Text/CSSTextDecorationStyleProperty.cs:53-58 | an identifier finds a style if and only if it spells that style's keyword in any mix of cases |
| TextDecorationStyle.StyleOf | AngleSharp/DOM/Css/Properties/Text/CSSTextDecorationStyleProperty.cs:57 | an identifier token the table knows, in any case, gives its style; `StyleOfIgnoresCase` states which |
| TextDecorationStyle.StylesRoundTrip | AngleSharp/DOM/Css/Properties/Text/CSSTextDecorationStyleProperty.cs:21-28 | the table maps each of the five keywords to its member and holds no other key |
| TextDecorationStyle.TextDecorationStyleProperty.constructor | AngleSharp/DOM/Css/Properties/Text/CSSTextDecorationStyleProperty.cs:30-35 | initial value `Solid`, not inherited |
| TextDecorationStyle.TextDecorationStyleProperty.IsValid | AngleSharp/DOM/Css/Properties/Text/CSSTextDecorationStyleProperty.cs:53-63 | accepts exactly a known keyword or `inherit`; a keyword sets the style, anything else leaves it unchanged |
| ColumnWidth.ColumnWidthProperty.constructor | AngleSharp/DOM/Css/Properties/Columns/CSSColumnWidthProperty.cs:22-27 | initially unused with a zero count, not inherited |
| ColumnWidth.ColumnWidthProperty.Count | AngleSharp/DOM/Css/Properties/Columns/CSSColumnWidthProperty.cs:44-47 | the stored width while it is used, zero otherwise |
| ColumnWidth.ColumnWidthProperty.IsValid | AngleSharp/DOM/Css/Properties/Columns/CSSColumnWidthProperty.cs:53-65 | accepts exactly a length, `auto` or `inherit`; the length test comes first and makes the width used with that count; `auto` makes it unused; `inherit` leaves it unchanged |
| ColumnSpan.ColumnSpanProperty.constructor | AngleSharp/DOM/Css/Properties/Columns/CSSColumnSpanProperty.cs:24-29 | initially not spanning, not inherited |
| ColumnSpan.ColumnSpanProperty.IsValid | AngleSharp/DOM/Css/Properties/Columns/CSSColumnSpanProperty.cs:47-59 | accepts exactly `none`, `all` or `inherit`; `none` clears spanning, `all` sets it, anything else leaves it unchanged |
| Perspective.PerspectiveProperty.constructor | AngleSharp/DOM/Css/Properties/Transform/CSSPerspectiveProperty.cs:19-24 | initial distance zero, not inherited |
| Perspective.PerspectiveProperty.IsValid | AngleSharp/DOM/Css/Properties/Transform/CSSPerspectiveProperty.cs:45-58 | accepts exactly a length, `none` or `inherit`; the distance becomes the length, zero for `none`, and is otherwise unchanged |
| TransitionDelay.TransitionDelayProperty.constructor | AngleSharp/DOM/Css/Properties/Transition/CSSTransitionDelayProperty.cs:20-26 | initial list `[0ms]`, not inherited |
| TransitionDelay.TransitionDelayProperty.IsValid | AngleSharp/DOM/Css/Properties/Transition/CSSTransitionDelayProperty.cs:44-59 | accepts exactly a convertible time list or `inherit`; the clear-and-refill loop leaves exactly the converted times, in order; otherwise the list is unchanged |
| ColorProperty.ColorProperty.constructor | AngleSharp/DOM/Css/Properties/Font/CSSColorProperty.cs:19-24 | initial color black, inherited |
| ColorProperty.ColorProperty.IsValid | AngleSharp/DOM/Css/Properties/Font/CSSColorProperty.cs:42-52 | accepts exactly a convertible color or `inherit`; a color replaces the stored one, anything else leaves it unchanged |
| BorderImageWidth.AcceptsOnlyInherit | AngleSharp/DOM/Css/Properties/BorderImage/CSSBorderImageWidthProperty.cs:31-37 | `inherit` is the one value accepted; any other value is rejected |
| BorderImageWidth.IsValid | AngleSharp/DOM/Css/Properties/BorderImage/CSSBorderImageWidthProperty.cs:33-34 | the validator; `AcceptsOnlyInherit` states that `inherit` is the only value it accepts |
| BorderRadius.FirstDelimiter | AngleSharp/DOM/Css/Properties/BorderRadius/CSSBorderRadiusProperty.cs:84-89 | the index of the first `/`, or the length when there is none; no `/` before it |
| BorderRadius.StridedFillIsRule | AngleSharp/DOM/Css/Properties/BorderRadius/CSSBorderRadiusProperty.cs:96-98 | the item whose write to a slot comes last in the strided fill is the item the CSS rule puts there (1: AAAA, 2: ABAB, 3: ABCB, 4: ABCD) |
| BorderRadius.ExpandGroup | AngleSharp/DOM/Css/Properties/BorderRadius/CSSBorderRadiusProperty.cs:96-98 | the strided nested loops fill the four slots exactly as the CSS rule says |
| BorderRadius.SplitAndExpand | AngleSharp/DOM/Css/Properties/BorderRadius/CSSBorderRadiusProperty.cs:84-116 | the split loop, the range check, the two fills and the pairing compute `SplitSlots` |
| BorderRadius.SplitSlots | AngleSharp/DOM/Css/Properties/BorderRadius/CSSBorderRadiusProperty.cs:84-116 | a list gives four slots or nothing; which lists pass and what the slots are is stated by `SplitSlotsAcceptsGroupsOfOneToFour` and `SplitSlotsPairs` |
| BorderRadius.Slots | AngleSharp/DOM/Css/Properties/BorderRadius/CSSBorderRadiusProperty.cs:74-115 | four slots or nothing: a list goes through `SplitSlots`, any other value fills all four slots |
| BorderRadius.SplitSlotsAcceptsGroupsOfOneToFour | AngleSharp/DOM/Css/Properties/BorderRadius/CSSBorderRadiusProperty.cs:91-92 | a list passes the range check if and only if one to four values come before the first `/` and, when there is a `/`, one to four come after it |
| BorderRadius.SplitSlotsPairs | AngleSharp/DOM/Css/Properties/BorderRadius/CSSBorderRadiusProperty.cs:100-116 | without a `/` each slot is the expanded horizontal radius; with one, each slot is the list of its expanded horizontal and vertical radii |
| BorderRadius.BorderRadiusProperty.constructor | AngleSharp/DOM/Css/Properties/BorderRadius/CSSBorderRadiusProperty.cs:22-30 | four fresh corner longhands, each of its own kind, none holding a value; not inherited |
| BorderRadius.BorderRadiusProperty.IsValid | AngleSharp/DOM/Css/Properties/BorderRadius/CSSBorderRadiusProperty.cs:72-80 | accepts `inherit` without change, and any other value exactly when its four slots exist and every corner accepts its slot; a single non-list value fills all four slots; on acceptance the corners are fresh and hold the slots, otherwise the corner fields are unchanged |
| BorderRadius.BorderRadiusProperty.CheckList | AngleSharp/DOM/Css/Properties/BorderRadius/CSSBorderRadiusProperty.cs:82-119 | a malformed list is rejected before any corner is built; a well-formed one is committed only when every corner accepts its slot |
| BorderRadius.BorderRadiusProperty.SetEach | AngleSharp/DOM/Css/Properties/BorderRadius/CSSBorderRadiusProperty.cs:125-131 | the assignment loop succeeds if and only if every corner's validator accepts its slot, and then each corner holds its slot |
| BorderRadius.BorderRadiusProperty.Commit | AngleSharp/DOM/Css/Properties/BorderRadius/CSSBorderRadiusProperty.cs:121-138 | all or nothing: slots 0 to 3 go to bottom-left, bottom-right, top-left and top-right only when all four accept; otherwise no corner field changes |
| Background.RunEnd | AngleSharp/DOM/Css/Properties/Background/CSSBackgroundProperty.cs:144-145 | the position run is maximal: every token in it is a position token and the token after it is not |
| Background.SizeAfter | AngleSharp/DOM/Css/Properties/Background/CSSBackgroundProperty.cs:147-162 | rejects exactly a `/` not followed by `auto`, `contain`, `cover` or a calc; otherwise gives the one or two size tokens after the `/`, or `auto` when there is no `/` |
| Background.PositionStep | AngleSharp/DOM/Css/Properties/Background/CSSBackgroundProperty.cs:139-165 | the position branch claims the whole run as the position and what follows it as the size, and rejects exactly when the size does |
| Background.ImageStep | AngleSharp/DOM/Css/Properties/Background/CSSBackgroundProperty.cs:167-171 | the image branch claims the image with the token itself and nothing else |
| Background.RepeatStep | AngleSharp/DOM/Css/Properties/Background/CSSBackgroundProperty.cs:172-179 | the repeat branch claims the tokens it consumes: the repeat keyword and an optional second one after it |
| Background.AttachmentStep | AngleSharp/DOM/Css/Properties/Background/CSSBackgroundProperty.cs:180-184 | the attachment branch claims the attachment with the token itself |
| Background.BoxStep | AngleSharp/DOM/Css/Properties/Background/CSSBackgroundProperty.cs:185-194 | the box branch makes the token itself the origin; a directly following box is the clip, otherwise the clip is `border-box` |
| Background.ColorStep | AngleSharp/DOM/Css/Properties/Background/CSSBackgroundProperty.cs:195-205 | the color branch succeeds if and only if the color is unclaimed and the token converts to a color |
| Background.StepOnlyColor | AngleSharp/DOM/Css/Properties/Background/CSSBackgroundProperty.cs:139-205 | a pass that starts at a token whose categories are all claimed is the color branch |
| Background.ColorBranchRejects | AngleSharp/DOM/Css/Properties/Background/CSSBackgroundProperty.cs:195-198 | with the color already claimed (every layer but the last), a pass that reaches such a token rejects the layer and the scan, whatever the token is: a second `url()`, a `contain` with no `/` before it, a third box |
| Background.Step | AngleSharp/DOM/Css/Properties/Background/CSSBackgroundProperty.cs:137-206 | one pass of the token loop moves forward, only ever adds claims, adds to a list exactly when it claims that list's category, adds only tokens it consumed (apart from the `auto` size and `border-box` clip it fills in), and takes a color only from its own token; a token no other branch can take goes to the color branch |
| Background.StepTakesPosition | AngleSharp/DOM/Css/Properties/Background/CSSBackgroundProperty.cs:139-165 | unfolds `Step` to its position arm, the first in the chain; a helper that paces `CanonicalLayer`, not a property of its own |
| Background.StepTakesImage | AngleSharp/DOM/Css/Properties/Background/CSSBackgroundProperty.cs:167-171 | unfolds `Step` to its image arm, reached when the position arm does not apply; a helper that paces `CanonicalLayer`, not a property of its own |
| Background.StepTakesRepeat | AngleSharp/DOM/Css/Properties/Background/CSSBackgroundProperty.cs:172-179 | unfolds `Step` to its repeat arm, reached when the position and image arms do not apply; a helper that paces `CanonicalLayer`, not a property of its own |
| Background.StepTakesAttachment | AngleSharp/DOM/Css/Properties/Background/CSSBackgroundProperty.cs:180-184 | unfolds `Step` to its attachment arm, reached when no earlier arm applies; a helper that paces `CanonicalLayer`, not a property of its own |
| Background.StepTakesBox | AngleSharp/DOM/Css/Properties/Background/CSSBackgroundProperty.cs:185-194 | unfolds `Step` to its box arm, reached when no earlier arm applies; a helper that paces `CanonicalLayer`, not a property of its own |
| Background.ScanFrom | AngleSharp/DOM/Css/Properties/Background/CSSBackgroundProperty.cs:137-206 | an accepted token loop consumes the whole layer |
| Background.Apply | AngleSharp/DOM/Css/Properties/Background/CSSBackgroundProperty.cs:142-201 | the `Add` calls of one pass: each list grows by what the pass added |
| Background.Defaults | AngleSharp/DOM/Css/Properties/Background/CSSBackgroundProperty.cs:208-227 | each category the layer left unclaimed gets its initial value: image `none`, position `center`, size `auto`, repeat `repeat`, attachment `scroll`, origin and clip `border-box`; the color is kept |
| Background.Separated | AngleSharp/DOM/Css/Properties/Background/CSSBackgroundProperty.cs:229-238 | a comma is appended to each of the seven lists, and the color is kept |
| Background.LayerParts | AngleSharp/DOM/Css/Properties/Background/CSSBackgroundProperty.cs:129-227 | the token loop of one layer followed by the defaults; its properties are `LayerAdds`, `LayerAddsOne`, `LayerColor` and `LayerRejectsStray` |
| Background.CanonicalLayer | AngleSharp/DOM/Css/Properties/Background/CSSBackgroundProperty.cs:129-227 | a last layer written in canonical order (image, position `/` size, repeat, attachment, origin, clip, color, as in `url(x.png) center / cover no-repeat fixed padding-box content-box red`) gives each of the seven lists exactly its own token and takes the color from the last token |
| Background.ScanLayers | AngleSharp/DOM/Css/Properties/Background/CSSBackgroundProperty.cs:127-239 | the layer loop: each layer scanned in turn, a comma appended to every list after each layer but the last, the first rejected layer rejecting all; its properties are `LayersAlternate`, `LayersSegmented`, `LayersColor` and `LayersRejectStray` |
| Background.Decomposition | AngleSharp/DOM/Css/Properties/Background/CSSBackgroundProperty.cs:116-239 | the whole decomposition of a value into seven lists and a color, starting from empty lists and transparent; its properties are the `Decomposition…` lemmas |
| Background.ScanAdds | AngleSharp/DOM/Css/Properties/Background/CSSBackgroundProperty.cs:137-206 | over the token loop, claims are kept and each list only grows; it grows exactly when its category gets claimed, and then by that category's tokens |
| Background.ScanDrawn | AngleSharp/DOM/Css/Properties/Background/CSSBackgroundProperty.cs:137-206 | over the token loop, every token added to a list is one of the layer's tokens from the current index on, or the list's initial value |
| Background.ScanLeavesUnfit | AngleSharp/DOM/Css/Properties/Background/CSSBackgroundProperty.cs:137-206 | a category that no remaining token fits stays unclaimed |
| Background.ScanColor | AngleSharp/DOM/Css/Properties/Background/CSSBackgroundProperty.cs:195-205 | the color is kept, or it is claimed once and is the conversion of one of the layer's tokens |
| Background.ScanRejectsOnlyColor | AngleSharp/DOM/Css/Properties/Background/CSSBackgroundProperty.cs:195-204 | a token at or after the current pass that every unclaimed category rejects, and that no branch swallows, rejects the value once the color is claimed, and also when the token does not convert to a color |
| Background.ScanRejectsTwoOnlyColor | AngleSharp/DOM/Css/Properties/Background/CSSBackgroundProperty.cs:195-204 | two such tokens reject the value, since only the color branch can take them and a layer holds at most one color |
| Background.LayerAdds | AngleSharp/DOM/Css/Properties/Background/CSSBackgroundProperty.cs:137-227 | each list gains either its category's tokens or its initial value, and always the initial value when no token of the layer fits the category |
| Background.LayerDrawn | AngleSharp/DOM/Css/Properties/Background/CSSBackgroundProperty.cs:129-227 | every token a layer adds to a list is one of that layer's own tokens, or the list's initial value |
| Background.LayerAddsOne | AngleSharp/DOM/Css/Properties/Background/CSSBackgroundProperty.cs:167-227 | the image, attachment, origin and clip lists gain exactly one token per layer |
| Background.LayerColor | AngleSharp/DOM/Css/Properties/Background/CSSBackgroundProperty.cs:135 | only the last layer can change the color, and only to the conversion of one of its tokens |
| Background.LayerRejectsStray | AngleSharp/DOM/Css/Properties/Background/CSSBackgroundProperty.cs:135-204 | a layer other than the last with a stray token (no image, repeat or attachment keyword, position, `/`, size, second repeat keyword or box) is rejected, and so is the last layer with two stray tokens or with one that does not convert to a color |
| Background.LayerLeadingPosition | AngleSharp/DOM/Css/Properties/Background/CSSBackgroundProperty.cs:139-165 | a layer that starts with a position token takes the whole run as its position and what follows as its size; a `/` with no size after it rejects the value |
| Background.AlternateStep | AngleSharp/DOM/Css/Properties/Background/CSSBackgroundProperty.cs:229-238 | one layer keeps a one-token list alternating between items and commas, with or without the comma that follows it |
| Background.LayersAlternate | AngleSharp/DOM/Css/Properties/Background/CSSBackgroundProperty.cs:127-239 | from any layer on, a one-token list ends with one item per layer and exactly one comma between consecutive layers |
| Background.DecompositionAlternates | AngleSharp/DOM/Css/Properties/Background/CSSBackgroundProperty.cs:127-239 | the decomposition's image, attachment, origin and clip lists have length 2n-1 for n layers, with items at even positions and commas at odd ones |
| Background.SegmentStep | AngleSharp/DOM/Css/Properties/Background/CSSBackgroundProperty.cs:229-238 | one layer adds one segment to a list that held the earlier segments joined by commas and a trailing comma |
| Background.LayersSegmented | AngleSharp/DOM/Css/Properties/Background/CSSBackgroundProperty.cs:127-239 | from any layer on, a list ends as one segment per layer joined by single commas, each segment passing the test with its own layer's tokens |
| Background.LayerScanAddsSegment | AngleSharp/DOM/Css/Properties/Background/CSSBackgroundProperty.cs:137-227 | each layer pass adds to every list a claim of that category made of the layer's own tokens, or the initial value |
| Background.DecompositionSegments | AngleSharp/DOM/Css/Properties/Background/CSSBackgroundProperty.cs:127-239 | every one of the seven lists, position, size and repeat included, is n segments for n layers joined by single commas; the i-th segment is a claim of that list's category made of the i-th layer's tokens, or the initial value |
| Background.AttachmentItemConverts | AngleSharp/DOM/Css/Properties/Background/CSSBackgroundProperty.cs:180-184 | each attachment token a layer contributes is a keyword the attachment table knows |
| Background.AttachmentListAccepted | AngleSharp/DOM/Css/Properties/Background/CSSBackgroundProperty.cs:244 | a comma-separated list of layer attachments is one the attachment longhand accepts, with one mode per layer |
| Background.AttachmentsAccepted | AngleSharp/DOM/Css/Properties/Background/CSSBackgroundProperty.cs:244 | the attachment longhand always accepts the shorthand's attachment list, one mode per layer |
| Background.OriginListAccepted | AngleSharp/DOM/Css/Properties/Background/CSSBackgroundProperty.cs:245 | a comma-separated list of layer origins is one the origin longhand accepts, with one box per layer |
| Background.OriginsAccepted | AngleSharp/DOM/Css/Properties/Background/CSSBackgroundProperty.cs:245 | the origin longhand accepts the shorthand's origin list, one box per layer, whenever the box conversion knows `border-box` |
| Background.LayersColor | AngleSharp/DOM/Css/Properties/Background/CSSBackgroundProperty.cs:124-135 | across the layers, the color is the initial one unless the last layer converted one of its tokens |
| Background.DecompositionColor | AngleSharp/DOM/Css/Properties/Background/CSSBackgroundProperty.cs:124 | the decomposed color is transparent, or the conversion of a token of the last layer |
| Background.LayersRejectStray | AngleSharp/DOM/Css/Properties/Background/CSSBackgroundProperty.cs:127-206 | a layer with stray tokens, at any position from the current layer on, rejects the whole value |
| Background.DecompositionRejectsStray | AngleSharp/DOM/Css/Properties/Background/CSSBackgroundProperty.cs:135-204 | any layer but the last with a stray token, or a last layer with two stray tokens or with one that does not convert to a color (`background: foo`), makes the decomposition fail |
| Background.ScanPosition | AngleSharp/DOM/Css/Properties/Background/CSSBackgroundProperty.cs:139-165 | the position branch with its `++j` and `j += 2` computes `PositionStep` |
| Background.ScanSize | AngleSharp/DOM/Css/Properties/Background/CSSBackgroundProperty.cs:147-162 | the size part of the branch rejects exactly when `SizeAfter` does, and otherwise gives its tokens and where the loop goes on |
| Background.ScanToken | AngleSharp/DOM/Css/Properties/Background/CSSBackgroundProperty.cs:139-205 | one pass of the token loop computes `Step` |
| Background.ScanLayer | AngleSharp/DOM/Css/Properties/Background/CSSBackgroundProperty.cs:129-227 | the token loop and the defaults of one layer compute `LayerParts` |
| Background.Decompose | AngleSharp/DOM/Css/Properties/Background/CSSBackgroundProperty.cs:116-239 | the layer loop, starting from seven empty lists and a transparent color, computes `Decomposition` |
| Background.BackgroundProperty.constructor | AngleSharp/DOM/Css/Properties/Background/CSSBackgroundProperty.cs:26-38 | eight fresh longhands with their initial values, not inherited |
| Background.BackgroundProperty.IsValid | AngleSharp/DOM/Css/Properties/Background/CSSBackgroundProperty.cs:112-252 | accepts `inherit` and changes nothing; otherwise accepts exactly when the decomposition succeeds; a rejection changes no longhand; an acceptance hands every part to its longhand and does not depend on what the longhands say |
| Background.BackgroundProperty.Assign | AngleSharp/DOM/Css/Properties/Background/CSSBackgroundProperty.cs:241-248 | each longhand holds its part if its validator accepts it and its old value otherwise; the attachment longhand always accepts |
| FormData.SplitLines | AngleSharp/DOM/Objects/FormDataSet.cs:145 | at least one line, and no line holds a CR or an LF |
| FormData.Normalize | AngleSharp/DOM/Objects/FormDataSet.cs:143-147 | split on CRLF, CR and LF, then join with CRLF; `NormalizeIsRewrite` and `NormalizeProperties` state what it computes |
| FormData.NormalizeIsRewrite | AngleSharp/DOM/Objects/FormDataSet.cs:143-147 | splitting on CRLF, CR and LF and joining with CRLF equals rewriting each CRLF, lone CR and lone LF as CRLF |
| FormData.RewriteIsNormalized | AngleSharp/DOM/Objects/FormDataSet.cs:135-147 | the rewrite leaves no lone CR and no lone LF |
| FormData.RewriteKeepsNormalized | AngleSharp/DOM/Objects/FormDataSet.cs:135-147 | a string whose breaks are already CRLF is left unchanged |
| FormData.NormalizeProperties | AngleSharp/DOM/Objects/FormDataSet.cs:143-147 | the output has only CRLF breaks, the fixed points are exactly such strings, and normalising twice equals normalising once |
| FormData.NormalizeKeepsPlainText | AngleSharp/DOM/Objects/FormDataSet.cs:145-146 | a string with no CR and no LF is unchanged |
| FormData.TextEntry | AngleSharp/DOM/Objects/FormDataSet.cs:105-112 | name and value are normalised exactly when the type is `textarea` in any case, and stored verbatim otherwise |
| FormData.FileEntryOf | AngleSharp/DOM/Objects/FormDataSet.cs:117-121 | only the name is normalised, and only when the type is `file` in any case |
| FormData.WithCharset | AngleSharp/DOM/Objects/FormDataSet.cs:60-61 | the value becomes the charset exactly when the name is `_charset_` (case-sensitive) and the type is `hidden` (any case); name and type are kept |
| FormData.FormDataSet.constructor | AngleSharp/DOM/Objects/FormDataSet.cs:24-28 | no entries |
| FormData.FormDataSet.Names | AngleSharp/DOM/Objects/FormDataSet.cs:194-197 | one name per entry, in insertion order |
| FormData.FormDataSet.Append | AngleSharp/DOM/Objects/FormDataSet.cs:103-113 | exactly one text entry is added at the end, and the enumeration gains its name last |
| FormData.FormDataSet.AppendFile | AngleSharp/DOM/Objects/FormDataSet.cs:115-122 | exactly one file entry is added at the end, and the enumeration gains its name last |
| FormData.FormDataSet.AsMultipart | AngleSharp/DOM/Objects/FormDataSet.cs:58-62 | the entry loop keeps the number and order of entries and changes each one exactly as `WithCharset` says |

## Left out

- Conversion helpers. `ToLength`, `ToColor`, `AsColor`, `AsCalc`, `AsImage`, `ToBoxModel`, `AsList<Time>` and `CSSValueList.ToList` are not part of this model. They are uninterpreted fields of `Values.Helpers`, and every result holds for all of them.
- Longhands without their own class here. The image, position, size, repeat, clip, background-color and four corner-radius longhands are cells (`Longhands.Longhand`) that keep a value when an uninterpreted validator accepts it.
- The `CSSProperty.Value` setter. It is not part of this model, and is modelled by `Longhands.Longhand.SetValue`.
- Value identity. `Check(CSSValue[])` tests `target[i].Value != values[i]` by reference. The model compares the stored value with the assigned one by equality.
- `Length`, `Time`, `Color` and `BoxModel` are opaque values. Their arithmetic, units and serialisation are not interpreted.
- `Keywords.Lower`: folds ASCII letters only, while `StringComparer.OrdinalIgnoreCase` also folds non-ASCII letters. It is applied to identifiers and type names, which are ASCII in practice.
- `IsOneOf`: the helper's own implementation is not part of this model. It is modelled as `Keywords.Is` on each keyword, meaning an identifier equal to the keyword ignoring case.
- The property getters (`Image`, `Position`, `BottomLeft`, `IsUsed`, …): they only return fields, which the Dafny classes expose directly. `ColumnWidth.ColumnWidthProperty.IsUsed` is kept as a function for `Count`.
- `BorderImageWidth`: the property holds no state, so it is a predicate and a constant.
- `AsMultipart`: the default encoding (UTF-8) and `Encoding.WebName` are replaced by a `charset` parameter. The memory stream it returns is left out.
- Also left out: `AsUrlEncoded` and `AsPlaintext`, which are unfinished stubs that return an empty stream; `CheckBoundary`, whose body is empty; and the `Guid`-based boundary, which is randomness.
- `FormData.FileEntry`: stands for the file object. Its contents are not part of this model.
- `Background.OriginsAccepted`: assumes the box-model conversion knows `border-box`. That is the initial value a layer without a box contributes, and the conversion helper is not part of this model.
- `Background.BackgroundProperty.IsValid`: states the longhands' new values through `Assign`'s two-state predicate `Assigned`, in terms of the uninterpreted validators. The one exception is the attachment longhand, which is proved always to accept.
- Null strings. Dafny strings cannot be null. `Normalize` throws a `NullReferenceException` on a null value (FormDataSet.cs:145), and `AsMultipart` does the same on an entry with a null name (:60). The model has no such inputs.
- `TransitionDelay.TransitionDelayProperty.IsValid`: the source clears and refills the list object that the `Delays` getter returned earlier (CSSTransitionDelayProperty.cs:37,50), so a caller that kept the enumeration sees the new times. The model replaces a `seq`, so this aliasing is not captured.
- Color conversions. `ToColor` (used by `color`) and `AsColor` (used by `background`) are two separate uninterpreted fields, `toColor` and `asColor`. Nothing relates them.
- `Background.DecompositionRejectsStray`: covers stray tokens only. These are tokens that are no image, repeat or attachment keyword, position, `/`, size, second repeat keyword or box. A follower token right after the token a branch claims is swallowed by that branch and is not rejected (for example `center / cover`). `ColorBranchRejects` states the rejection for the pass that reaches any token whose categories are all claimed.
- `Background.LayerRejectsStray`: same restriction as `DecompositionRejectsStray`.
