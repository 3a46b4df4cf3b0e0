/** The entry list of an HTML form submission: entries are appended in
    order, textarea and file names have their line breaks normalised to CRLF,
    and the multipart encoder fills in the `_charset_` hidden field. */
module FormData {
  import opened Keywords

  const CR: char := '\r'
  const LF: char := '\n'
  const CRLF: string := "\r\n"

  /** A string with no CR and no LF. */
  predicate NoBreak(s: string) {
    forall i :: 0 <= i < |s| ==> s[i] != CR && s[i] != LF
  }

  /** The character at `i` is not a lone CR or a lone LF. */
  predicate BreakOkAt(s: string, i: nat)
    requires i < |s|
  {
    && (s[i] == CR ==> i + 1 < |s| && s[i + 1] == LF)
    && (s[i] == LF ==> i > 0 && s[i - 1] == CR)
  }

  /** Every CR is followed by LF and every LF is preceded by CR. */
  predicate Normalized(s: string) {
    forall i :: 0 <= i < |s| ==> BreakOkAt(s, i)
  }

  /** `value.Split(new[] { "\r\n", "\r", "\n" }, StringSplitOptions.None)`:
      at each position CRLF is tried before a lone CR or LF; empty lines are
      kept. */
  function SplitLines(s: string): (lines: seq<string>)
    ensures |lines| >= 1
    ensures forall i :: 0 <= i < |lines| ==> NoBreak(lines[i])
    decreases |s|
  {
    if |s| == 0 then [""]
    else if s[0] == CR && |s| > 1 && s[1] == LF then [""] + SplitLines(s[2..])
    else if s[0] == CR || s[0] == LF then [""] + SplitLines(s[1..])
    else
      var rest := SplitLines(s[1..]);
      [[s[0]] + rest[0]] + rest[1..]
  }

  /** `String.Join(separator, lines)`. */
  function Join(lines: seq<string>, separator: string): string
    requires |lines| >= 1
  {
    if |lines| == 1 then lines[0] else lines[0] + separator + Join(lines[1..], separator)
  }

  /** `Normalize`: every CRLF, lone CR and lone LF becomes CRLF. */
  function Normalize(s: string): string {
    Join(SplitLines(s), CRLF)
  }

  /** Reference definition: the same rewrite, one line break at a time. */
  function Rewrite(s: string): string
    decreases |s|
  {
    if |s| == 0 then ""
    else if s[0] == CR && |s| > 1 && s[1] == LF then CRLF + Rewrite(s[2..])
    else if s[0] == CR || s[0] == LF then CRLF + Rewrite(s[1..])
    else [s[0]] + Rewrite(s[1..])
  }

  lemma JoinExtendsFirstLine(c: char, lines: seq<string>, separator: string)
    requires |lines| >= 1
    ensures Join([[c] + lines[0]] + lines[1..], separator) == [c] + Join(lines, separator)
  {
    var l := [[c] + lines[0]] + lines[1..];
    if |lines| > 1 {
      assert l[1..] == lines[1..];
    }
  }

  /** Splitting and joining with CRLF is the one-break-at-a-time rewrite. */
  lemma {:induction false} NormalizeIsRewrite(s: string)
    ensures Normalize(s) == Rewrite(s)
    decreases |s|
  {
    if |s| == 0 {
    } else if s[0] == CR && |s| > 1 && s[1] == LF {
      NormalizeIsRewrite(s[2..]);
      var rest := SplitLines(s[2..]);
      assert ([""] + rest)[1..] == rest;
    } else if s[0] == CR || s[0] == LF {
      NormalizeIsRewrite(s[1..]);
      var rest := SplitLines(s[1..]);
      assert ([""] + rest)[1..] == rest;
    } else {
      NormalizeIsRewrite(s[1..]);
      JoinExtendsFirstLine(s[0], SplitLines(s[1..]), CRLF);
    }
  }

  /** The rewrite leaves no lone CR and no lone LF. */
  lemma {:induction false} RewriteIsNormalized(s: string)
    ensures Normalized(Rewrite(s))
    ensures |Rewrite(s)| > 0 ==> Rewrite(s)[0] != LF
    decreases |s|
  {
    if |s| == 0 {
    } else {
      var tail := if s[0] == CR && |s| > 1 && s[1] == LF then s[2..] else s[1..];
      RewriteIsNormalized(tail);
      var t := Rewrite(tail);
      var r := Rewrite(s);
      if s[0] == CR || s[0] == LF {
        assert r == CRLF + t;
        forall i | 0 <= i < |r| ensures BreakOkAt(r, i) {
          if i >= 2 {
            assert r[i] == t[i - 2] && BreakOkAt(t, i - 2);
            if i + 1 < |r| {
              assert r[i + 1] == t[i - 1];
            }
            assert r[i - 1] == if i == 2 then LF else t[i - 3];
          }
        }
      } else {
        assert r == [s[0]] + t;
        forall i | 0 <= i < |r| ensures BreakOkAt(r, i) {
          if i >= 1 {
            assert r[i] == t[i - 1] && BreakOkAt(t, i - 1);
            if i + 1 < |r| {
              assert r[i + 1] == t[i];
            }
            assert r[i - 1] == if i == 1 then s[0] else t[i - 2];
          }
        }
      }
    }
  }

  /** Dropping a leading CRLF or a leading ordinary character keeps a
      string normalised. */
  lemma NormalizedTail(s: string, skip: nat)
    requires Normalized(s) && 0 < skip <= |s|
    requires skip == 2 ==> s[0] == CR && s[1] == LF
    requires skip == 1 ==> s[0] != CR
    requires skip <= 2
    ensures Normalized(s[skip..])
  {
    var tail := s[skip..];
    forall i | 0 <= i < |tail| ensures BreakOkAt(tail, i) {
      assert BreakOkAt(s, i + skip);
      if i > 0 {
        assert s[i + skip - 1] == tail[i - 1];
      }
    }
  }

  /** A string whose line breaks are already CRLF is left as it is. */
  lemma {:induction false} RewriteKeepsNormalized(s: string)
    requires Normalized(s)
    ensures Rewrite(s) == s
    decreases |s|
  {
    if |s| == 0 {
    } else {
      assert BreakOkAt(s, 0);
      if s[0] == CR {
        NormalizedTail(s, 2);
        RewriteKeepsNormalized(s[2..]);
        assert s == CRLF + s[2..];
      } else {
        NormalizedTail(s, 1);
        RewriteKeepsNormalized(s[1..]);
        assert s == [s[0]] + s[1..];
      }
    }
  }

  /** Normalize's fixed points are exactly the strings with only CRLF
      breaks, its output is one of them, and so applying it twice is
      applying it once. */
  lemma NormalizeProperties(s: string)
    ensures Normalized(Normalize(s))
    ensures Normalize(s) == s <==> Normalized(s)
    ensures Normalize(Normalize(s)) == Normalize(s)
  {
    NormalizeIsRewrite(s);
    RewriteIsNormalized(s);
    if Normalized(s) {
      RewriteKeepsNormalized(s);
    }
    NormalizeIsRewrite(Normalize(s));
    RewriteKeepsNormalized(Normalize(s));
  }

  /** A string without CR or LF is left unchanged. */
  lemma NormalizeKeepsPlainText(s: string)
    requires NoBreak(s)
    ensures Normalize(s) == s
  {
    NormalizeProperties(s);
  }

  /** A file as handed to the form; its contents are not part of the model. */
  datatype FileEntry = FileEntry(handle: nat)

  datatype EntryValue = Text(text: string) | File(file: FileEntry)

  datatype Entry = Entry(name: string, value: EntryValue, entryType: string)

  /** The entry the text `Append` stores: name and value normalised only for
      a `textarea`, in any case. */
  function TextEntry(name: string, value: string, entryType: string): (e: Entry)
    ensures e.entryType == entryType
    ensures EqualsIgnoreCase(entryType, "textarea") ==>
      e.name == Normalize(name) && e.value == Text(Normalize(value))
    ensures !EqualsIgnoreCase(entryType, "textarea") ==>
      e.name == name && e.value == Text(value)
  {
    if EqualsIgnoreCase(entryType, "textarea") then Entry(Normalize(name), Text(Normalize(value)), entryType)
    else Entry(name, Text(value), entryType)
  }

  /** The entry the file `Append` stores: only the name is normalised, and
      only for a `file`, in any case. */
  function FileEntryOf(name: string, value: FileEntry, entryType: string): (e: Entry)
    ensures e.entryType == entryType && e.value == File(value)
    ensures e.name == if EqualsIgnoreCase(entryType, "file") then Normalize(name) else name
  {
    Entry(if EqualsIgnoreCase(entryType, "file") then Normalize(name) else name, File(value), entryType)
  }

  /** The entry after the multipart encoder's `_charset_` pass: a hidden
      field named exactly `_charset_` gets the charset as its value. */
  function WithCharset(e: Entry, charset: string): (r: Entry)
    ensures r.name == e.name && r.entryType == e.entryType
    ensures r.value == if e.name == "_charset_" && EqualsIgnoreCase(e.entryType, "hidden")
      then Text(charset) else e.value
  {
    if e.name == "_charset_" && EqualsIgnoreCase(e.entryType, "hidden") then e.(value := Text(charset)) else e
  }

  class FormDataSet {
    var entries: seq<Entry>

    constructor ()
      ensures entries == []
    {
      entries := [];
    }

    /** The enumeration: entry names in insertion order. */
    function Names(): (names: seq<string>)
      reads this
      ensures |names| == |entries|
      ensures forall i :: 0 <= i < |entries| ==> names[i] == entries[i].name
    {
      seq(|entries|, i requires 0 <= i < |entries| reads this => entries[i].name)
    }

    /** Appends one text entry at the end. */
    method Append(name: string, value: string, entryType: string)
      modifies this
      ensures entries == old(entries) + [TextEntry(name, value, entryType)]
      ensures Names() == old(Names()) + [TextEntry(name, value, entryType).name]
    {
      var n, v := name, value;
      if EqualsIgnoreCase(entryType, "textarea") {
        n := Normalize(n);
        v := Normalize(v);
      }
      entries := entries + [Entry(n, Text(v), entryType)];
    }

    /** Appends one file entry at the end. */
    method AppendFile(name: string, value: FileEntry, entryType: string)
      modifies this
      ensures entries == old(entries) + [FileEntryOf(name, value, entryType)]
      ensures Names() == old(Names()) + [FileEntryOf(name, value, entryType).name]
    {
      var n := name;
      if EqualsIgnoreCase(entryType, "file") {
        n := Normalize(n);
      }
      entries := entries + [Entry(n, File(value), entryType)];
    }

    /** The entry pass of the multipart encoder: sets the value of every
        hidden `_charset_` entry to the charset and touches nothing else. */
    method AsMultipart(charset: string)
      modifies this
      ensures |entries| == |old(entries)|
      ensures forall i :: 0 <= i < |entries| ==> entries[i] == WithCharset(old(entries)[i], charset)
    {
      for i := 0 to |entries|
        invariant |entries| == |old(entries)|
        invariant forall k :: 0 <= k < i ==> entries[k] == WithCharset(old(entries)[k], charset)
        invariant forall k :: i <= k < |entries| ==> entries[k] == old(entries)[k]
      {
        var entry := entries[i];
        if entry.name == "_charset_" && EqualsIgnoreCase(entry.entryType, "hidden") {
          entries := entries[i := entry.(value := Text(charset))];
        }
      }
    }
  }
}
