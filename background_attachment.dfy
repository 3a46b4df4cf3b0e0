/** The `background-attachment` longhand: a comma-separated list of
    `fixed`, `local` and `scroll`, one entry per background layer. */
module BackgroundAttachment {
  import opened Values
  import opened Keywords
  import opened SeparatedLists

  datatype Attachment = Fixed | Local | Scroll

  /** The keyword table; its keys are stored lower-case and probed with the
      lower-cased identifier, which makes the lookup case-insensitive. */
  const Modes: map<string, Attachment> :=
    map["fixed" := Fixed, "local" := Local, "scroll" := Scroll]

  /** The CSS keyword that names a mode. */
  function Keyword(a: Attachment): string {
    match a
    case Fixed => "fixed"
    case Local => "local"
    case Scroll => "scroll"
  }

  /** `_modes.TryGetValue(name, out mode)`. */
  function Lookup(name: string): Option<Attachment> {
    if Lower(name) in Modes then Some(Modes[Lower(name)]) else None
  }

  /** An identifier token that the table knows. */
  function AttachmentOf(v: Value): Option<Attachment> {
    if v.Ident? then Lookup(v.name) else None
  }

  /** Every identifier that equals a mode's keyword up to case, and no other,
      finds that mode. */
  lemma LookupIgnoresCase(name: string, a: Attachment)
    ensures Lookup(name) == Some(a) <==> EqualsIgnoreCase(name, Keyword(a))
  {
    assert Lower(Keyword(a)) == Keyword(a);
  }

  /** The table holds exactly the three keywords, each mapped to its mode. */
  lemma ModesRoundTrip()
    ensures forall a: Attachment :: Keyword(a) in Modes && Modes[Keyword(a)] == a
    ensures forall k :: k in Modes ==> Keyword(Modes[k]) == k
  {
  }

  /** A list of modes written back as keywords with commas validates to the
      same list. */
  lemma KeywordListRoundTrip(xs: seq<Attachment>)
    ensures Alternates(Emit(xs, a => Ident(Keyword(a))), AttachmentOf)
    ensures Picks(Emit(xs, a => Ident(Keyword(a))), AttachmentOf) == xs
  {
    forall i | 0 <= i < |xs|
      ensures AttachmentOf((a => Ident(Keyword(a)))(xs[i])) == Some(xs[i])
    {
      LookupIgnoresCase(Keyword(xs[i]), xs[i]);
    }
    EmitRoundTrip(xs, a => Ident(Keyword(a)), AttachmentOf);
  }

  class BackgroundAttachmentProperty {
    /** One attachment per background layer. */
    var attachments: seq<Attachment>
    const inherited: bool

    constructor ()
      ensures attachments == [Scroll] && !inherited
    {
      attachments := [Scroll];
      inherited := false;
    }

    /** Accepts `inherit` without change; otherwise parses the list and, only
        when every item is a known keyword and every odd position a comma,
        replaces the stored list by the parsed one. */
    method IsValid(value: Value) returns (ok: bool)
      modifies this
      ensures ok <==> value == Inherit || Alternates(Items(value), AttachmentOf)
      ensures attachments ==
        if value != Inherit && ok then Picks(Items(value), AttachmentOf) else old(attachments)
    {
      if value == Inherit {
        return true;
      }
      var list := Items(value);
      var parsed: seq<Attachment> := [];
      var i := 0;
      while i < |list|
        invariant i % 2 == 0 && i <= |list| + 1
        invariant forall k :: 0 <= k < i && k < |list| ==>
          if k % 2 == 0 then AttachmentOf(list[k]).Some? else list[k] == Separator
        invariant |parsed| == i / 2
        invariant forall m :: 0 <= m < i / 2 ==> AttachmentOf(list[2 * m]) == Some(parsed[m])
        invariant attachments == old(attachments)
      {
        if list[i].Ident? && Lower(list[i].name) in Modes {
          parsed := parsed + [Modes[Lower(list[i].name)]];
        } else {
          return false;
        }
        i := i + 1;
        if i < |list| && list[i] != Separator {
          return false;
        }
        i := i + 1;
      }
      attachments := parsed;
      return true;
    }
  }
}
