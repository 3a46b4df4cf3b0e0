/** The `font-stretch` longhand: one of nine keywords, case-insensitive. */
module FontStretch {
  import opened Values
  import opened Keywords

  datatype Stretch =
    | Normal
    | UltraCondensed
    | ExtraCondensed
    | Condensed
    | SemiCondensed
    | SemiExpanded
    | Expanded
    | ExtraExpanded
    | UltraExpanded

  /** The keyword table, keys stored lower-case. */
  const Styles: map<string, Stretch> := map[
    "normal" := Normal,
    "ultra-condensed" := UltraCondensed,
    "extra-condensed" := ExtraCondensed,
    "condensed" := Condensed,
    "semi-condensed" := SemiCondensed,
    "semi-expanded" := SemiExpanded,
    "expanded" := Expanded,
    "extra-expanded" := ExtraExpanded,
    "ultra-expanded" := UltraExpanded]

  /** The CSS keyword that names a stretch. */
  function Keyword(s: Stretch): string {
    match s
    case Normal => "normal"
    case UltraCondensed => "ultra-condensed"
    case ExtraCondensed => "extra-condensed"
    case Condensed => "condensed"
    case SemiCondensed => "semi-condensed"
    case SemiExpanded => "semi-expanded"
    case Expanded => "expanded"
    case ExtraExpanded => "extra-expanded"
    case UltraExpanded => "ultra-expanded"
  }

  /** `value is CSSIdentifierValue && _styles.TryGetValue(...)`. */
  function StretchOf(v: Value): Option<Stretch> {
    if v.Ident? && Lower(v.name) in Styles then Some(Styles[Lower(v.name)]) else None
  }

  /** An identifier finds a stretch exactly when it spells that stretch's
      keyword in any mix of cases. */
  lemma StretchOfIgnoresCase(name: string, s: Stretch)
    ensures StretchOf(Ident(name)) == Some(s) <==> EqualsIgnoreCase(name, Keyword(s))
  {
    LowerOfLower(Keyword(s));
    StylesRoundTrip();
    var key := Lower(name);
    if key in Styles && Styles[key] == s {
      assert Keyword(Styles[key]) == key;
    }
  }

  /** The table holds exactly the nine keywords, each mapped to its member. */
  lemma StylesRoundTrip()
    ensures forall s: Stretch :: Keyword(s) in Styles && Styles[Keyword(s)] == s
    ensures forall k :: k in Styles ==> Keyword(Styles[k]) == k
  {
  }

  class FontStretchProperty {
    var stretch: Stretch
    const inherited: bool

    constructor ()
      ensures stretch == Normal && inherited
    {
      inherited := true;
      stretch := Normal;
    }

    /** A known keyword sets the stretch; `inherit` is accepted unchanged;
        anything else is rejected unchanged. */
    method IsValid(value: Value) returns (ok: bool)
      modifies this
      ensures ok <==> StretchOf(value).Some? || value == Inherit
      ensures stretch == if StretchOf(value).Some? then StretchOf(value).value else old(stretch)
    {
      if value.Ident? && Lower(value.name) in Styles {
        stretch := Styles[Lower(value.name)];
      } else if value != Inherit {
        return false;
      }
      return true;
    }
  }
}
