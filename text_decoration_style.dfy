/** The `text-decoration-style` longhand: one of five keywords,
    case-insensitive. */
module TextDecorationStyle {
  import opened Values
  import opened Keywords

  datatype DecorationStyle = Solid | Double | Dotted | Dashed | Wavy

  /** The keyword table, keys stored lower-case. */
  const Styles: map<string, DecorationStyle> := map[
    "solid" := Solid,
    "double" := Double,
    "dotted" := Dotted,
    "dashed" := Dashed,
    "wavy" := Wavy]

  /** The CSS keyword that names a decoration style. */
  function Keyword(s: DecorationStyle): string {
    match s
    case Solid => "solid"
    case Double => "double"
    case Dotted => "dotted"
    case Dashed => "dashed"
    case Wavy => "wavy"
  }

  function StyleOf(v: Value): Option<DecorationStyle> {
    if v.Ident? && Lower(v.name) in Styles then Some(Styles[Lower(v.name)]) else None
  }

  /** An identifier finds a style exactly when it spells that style's
      keyword in any mix of cases. */
  lemma StyleOfIgnoresCase(name: string, s: DecorationStyle)
    ensures StyleOf(Ident(name)) == Some(s) <==> EqualsIgnoreCase(name, Keyword(s))
  {
    assert Lower(Keyword(s)) == Keyword(s);
  }

  /** The table holds exactly the five keywords, each mapped to its member. */
  lemma StylesRoundTrip()
    ensures forall s: DecorationStyle :: Keyword(s) in Styles && Styles[Keyword(s)] == s
    ensures forall k :: k in Styles ==> Keyword(Styles[k]) == k
  {
  }

  class TextDecorationStyleProperty {
    var style: DecorationStyle
    const inherited: bool

    constructor ()
      ensures style == Solid && !inherited
    {
      inherited := false;
      style := Solid;
    }

    /** A known keyword sets the style; `inherit` is accepted unchanged;
        anything else is rejected unchanged. */
    method IsValid(value: Value) returns (ok: bool)
      modifies this
      ensures ok <==> StyleOf(value).Some? || value == Inherit
      ensures style == if StyleOf(value).Some? then StyleOf(value).value else old(style)
    {
      if value.Ident? && Lower(value.name) in Styles {
        style := Styles[Lower(value.name)];
      } else if value != Inherit {
        return false;
      }
      return true;
    }
  }
}
