/** Parsed CSS declaration values, the primitive types they carry, and the
    conversion helpers of the value layer.

    The helpers (length, color, calc, image, box-model and time-list
    conversions, the splitting of a value list into comma-separated layers)
    and the validators of the longhands whose classes are not part of this
    model are not defined here: every operation that needs them receives a
    `Helpers` value and every property is proved for ALL helpers. */
module Values {

  datatype Option<+T> = None | Some(value: T)

  /** A CSS length; the magnitude and unit are carried but never interpreted. */
  datatype Length = Length(magnitude: real, unit: string)

  /** The zero length used as a default (`Length.Zero`). */
  const ZeroLength: Length := Length(0.0, "px")

  /** A CSS time; carried, never interpreted. */
  datatype Time = Time(magnitude: real, unit: string)

  /** The zero time used as a default (`Time.Zero`). */
  const ZeroTime: Time := Time(0.0, "ms")

  /** An ARGB color. */
  datatype Color = Color(alpha: int, red: int, green: int, blue: int)

  const Black: Color := Color(255, 0, 0, 0)
  const Transparent: Color := Color(0, 0, 0, 0)

  /** The box-area keywords `border-box`, `padding-box` and `content-box`. */
  datatype BoxModel = BorderBox | PaddingBox | ContentBox

  /** One token of a declaration value, or a value list.
      `Inherit`, `Separator` (the comma) and `Delimiter` (the slash) are the
      sentinel tokens; `List` is a `CSSValueList`. */
  datatype Value =
    | Ident(name: string)
    | Number(number: real)
    | Len(length: Length)
    | Calc(expr: string)
    | Img(url: string)
    | Col(color: Color)
    | Dur(time: Time)
    | Inherit
    | Separator
    | Delimiter
    | List(items: seq<Value>)

  /** `value as CSSValueList ?? new CSSValueList(value)`: the tokens of a
      list, or a one-token list around a single value. */
  function Items(v: Value): (r: seq<Value>)
    ensures v.List? ==> r == v.items
    ensures !v.List? ==> r == [v]
  {
    if v.List? then v.items else [v]
  }

  /** The longhands whose own classes are not part of this model; the
      shorthands hand values to them through their validators. */
  datatype LonghandKind =
    | BackgroundImage
    | BackgroundPosition
    | BackgroundSize
    | BackgroundRepeat
    | BackgroundClip
    | BackgroundColor
    | BorderBottomLeftRadius
    | BorderBottomRightRadius
    | BorderTopLeftRadius
    | BorderTopRightRadius

  /** The value layer's conversion helpers and the unseen longhands'
      validators, as uninterpreted total functions. Each returns a
      present/absent answer and never fails. `toColor` is `ToColor`, used
      by the `color` longhand; `asColor` is `AsColor`, used by the
      `background` shorthand; nothing relates the two. */
  datatype Helpers = Helpers(
    toLength: Value -> Option<Length>,
    toColor: Value -> Option<Color>,
    asColor: Value -> Option<Color>,
    asCalc: Value -> bool,
    asImage: Value -> bool,
    toBoxModel: Value -> Option<BoxModel>,
    asTimeList: Value -> Option<seq<Time>>,
    layers: seq<Value> -> seq<seq<Value>>,
    accepts: (LonghandKind, Value) -> bool)
}

/** Case-insensitive keyword comparison (ordinal, ASCII case folding). */
module Keywords {
  import opened Values

  function LowerChar(c: char): (r: char)
    ensures 'A' <= c <= 'Z' ==> r as int == c as int + 32
    ensures !('A' <= c <= 'Z') ==> r == c
  {
    if 'A' <= c <= 'Z' then (c as int + 32) as char else c
  }

  /** The ASCII lower-case form of a string. */
  function Lower(s: string): (r: string)
    ensures |r| == |s|
    ensures forall i :: 0 <= i < |s| ==> r[i] == LowerChar(s[i])
  {
    seq(|s|, i requires 0 <= i < |s| => LowerChar(s[i]))
  }

  /** A string with no ASCII upper-case letter. */
  predicate IsLower(s: string) {
    forall i :: 0 <= i < |s| ==> !('A' <= s[i] <= 'Z')
  }

  lemma LowerOfLower(s: string)
    requires IsLower(s)
    ensures Lower(s) == s
  {
  }

  lemma LowerIsLower(s: string)
    ensures IsLower(Lower(s))
    ensures Lower(Lower(s)) == Lower(s)
  {
  }

  /** `String.Compare(a, b, StringComparison.OrdinalIgnoreCase) == 0`. */
  predicate EqualsIgnoreCase(a: string, b: string) {
    Lower(a) == Lower(b)
  }

  /** `value.Is(keyword)`: an identifier equal to the keyword, ignoring case. */
  predicate Is(v: Value, keyword: string) {
    v.Ident? && EqualsIgnoreCase(v.name, keyword)
  }

  /** `value.IsOneOf(keywords...)`. */
  predicate IsOneOf(v: Value, keywords: seq<string>) {
    |keywords| > 0 && (Is(v, keywords[0]) || IsOneOf(v, keywords[1..]))
  }
}
