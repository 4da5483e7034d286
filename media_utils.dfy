/** Escaping of text placed inside single-quoted ffmpeg filter arguments
    (media_utils.py): the drawtext text and the drawtext font file. */
module MediaUtils {

  import opened Strings

  /** `ffmpeg_escape_text`: backslash, quote, colon, then percent, as four chained replaces. */
  function EscapeText(txt: string): string
  {
    if |txt| == 0 then ""
    else ReplaceChar(ReplaceChar(ReplaceChar(ReplaceChar(txt, '\\', "\\\\"), '\'', "\\'"), ':', "\\:"), '%', "%%")
  }

  /** `ffmpeg_escape_fontfile`: backslash, then quote. */
  function EscapeFontfile(path: string): string
  {
    ReplaceChar(ReplaceChar(path, '\\', "\\\\"), '\'', "\\'")
  }

  predicate IsTextSpecial(c: char) { c == '\\' || c == '\'' || c == ':' || c == '%' }

  /** The per-character escape the chained replaces amount to. */
  function EscapeTextChar(c: char): string
  {
    if c == '\\' then "\\\\"
    else if c == '\'' then "\\'"
    else if c == ':' then "\\:"
    else if c == '%' then "%%"
    else [c]
  }

  function FontfileChar(c: char): string
  {
    if c == '\\' then "\\\\" else if c == '\'' then "\\'" else [c]
  }

  function MapText(s: string): string
  {
    if |s| == 0 then "" else EscapeTextChar(s[0]) + MapText(s[1..])
  }

  function MapFontfile(s: string): string
  {
    if |s| == 0 then "" else FontfileChar(s[0]) + MapFontfile(s[1..])
  }

  function CountSpecial(s: string): nat
  {
    if |s| == 0 then 0 else (if IsTextSpecial(s[0]) then 1 else 0) + CountSpecial(s[1..])
  }

  function Chain(s: string): string
  {
    ReplaceChar(ReplaceChar(ReplaceChar(ReplaceChar(s, '\\', "\\\\"), '\'', "\\'"), ':', "\\:"), '%', "%%")
  }

  lemma {:induction false} ChainConcat(a: string, b: string)
    ensures Chain(a + b) == Chain(a) + Chain(b)
  {
    ReplaceCharConcat(a, b, '\\', "\\\\");
    var a1, b1 := ReplaceChar(a, '\\', "\\\\"), ReplaceChar(b, '\\', "\\\\");
    ReplaceCharConcat(a1, b1, '\'', "\\'");
    var a2, b2 := ReplaceChar(a1, '\'', "\\'"), ReplaceChar(b1, '\'', "\\'");
    ReplaceCharConcat(a2, b2, ':', "\\:");
    var a3, b3 := ReplaceChar(a2, ':', "\\:"), ReplaceChar(b2, ':', "\\:");
    ReplaceCharConcat(a3, b3, '%', "%%");
  }

  /** One character through the four replaces: a later replace never
      touches what an earlier one inserted. */
  lemma ChainChar(c: char)
    ensures Chain([c]) == EscapeTextChar(c)
  {
    assert [c][1..] == [];
    if c == '\\' {
      assert ReplaceChar("\\\\", '\'', "\\'") == "\\\\";
      assert ReplaceChar("\\\\", ':', "\\:") == "\\\\";
      assert ReplaceChar("\\\\", '%', "%%") == "\\\\";
    } else if c == '\'' {
      assert ReplaceChar("\\'", ':', "\\:") == "\\'";
      assert ReplaceChar("\\'", '%', "%%") == "\\'";
    } else if c == ':' {
      assert ReplaceChar("\\:", '%', "%%") == "\\:";
    }
  }

  /** The chained replaces of `ffmpeg_escape_text` equal one per-character map. */
  lemma {:induction false} EscapeTextIsCharMap(s: string)
    ensures EscapeText(s) == MapText(s)
  {
    if |s| > 0 {
      ChainIsCharMap(s);
    }
  }

  lemma {:induction false} ChainIsCharMap(s: string)
    ensures Chain(s) == MapText(s)
  {
    if |s| > 0 {
      assert s == [s[0]] + s[1..];
      ChainConcat([s[0]], s[1..]);
      ChainChar(s[0]);
      ChainIsCharMap(s[1..]);
    }
  }

  /** `ffmpeg_escape_fontfile` escapes backslash and quote and nothing else. */
  lemma {:induction false} EscapeFontfileIsCharMap(s: string)
    ensures EscapeFontfile(s) == MapFontfile(s)
  {
    if |s| > 0 {
      assert s == [s[0]] + s[1..];
      ReplaceCharConcat([s[0]], s[1..], '\\', "\\\\");
      var a1, b1 := ReplaceChar([s[0]], '\\', "\\\\"), ReplaceChar(s[1..], '\\', "\\\\");
      ReplaceCharConcat(a1, b1, '\'', "\\'");
      assert [s[0]][1..] == [];
      if s[0] == '\\' {
        assert ReplaceChar("\\\\", '\'', "\\'") == "\\\\";
      }
      EscapeFontfileIsCharMap(s[1..]);
    }
  }

  /** Escaping adds exactly one character per backslash, quote, colon and percent. */
  lemma {:induction false} EscapeTextLength(s: string)
    ensures |EscapeText(s)| == |s| + CountSpecial(s)
  {
    EscapeTextIsCharMap(s);
    MapTextLength(s);
  }

  lemma {:induction false} MapTextLength(s: string)
    ensures |MapText(s)| == |s| + CountSpecial(s)
  {
    if |s| > 0 {
      MapTextLength(s[1..]);
    }
  }

  /** Undo the drawtext escaping: `\c` gives c and `%%` gives `%`. */
  function Unescape(s: string): string
  {
    if |s| == 0 then ""
    else if |s| >= 2 && s[0] == '\\' then [s[1]] + Unescape(s[2..])
    else if |s| >= 2 && s[0] == '%' && s[1] == '%' then "%" + Unescape(s[2..])
    else [s[0]] + Unescape(s[1..])
  }

  /** Escaping loses nothing: unescaping gives the original text back. */
  lemma {:induction false} UnescapeEscapeText(s: string)
    ensures Unescape(EscapeText(s)) == s
  {
    EscapeTextIsCharMap(s);
    UnescapeMapText(s);
  }

  lemma {:induction false} UnescapeMapText(s: string)
    ensures Unescape(MapText(s)) == s
  {
    if |s| > 0 {
      UnescapeCharStep(s[0], MapText(s[1..]));
      UnescapeMapText(s[1..]);
      assert [s[0]] + s[1..] == s;
    }
  }

  /** Unescaping reads one escaped character back and goes on after it. */
  lemma UnescapeCharStep(c: char, rest: string)
    ensures Unescape(EscapeTextChar(c) + rest) == [c] + Unescape(rest)
  {
    var t := EscapeTextChar(c) + rest;
    if IsTextSpecial(c) {
      assert t[2..] == rest;
    } else {
      assert t[1..] == rest;
    }
  }

  lemma {:induction false} MapTextConcat(a: string, b: string)
    ensures MapText(a + b) == MapText(a) + MapText(b)
  {
    if |a| > 0 {
      assert (a + b)[1..] == a[1..] + b;
      MapTextConcat(a[1..], b);
    } else {
      assert a + b == b;
    }
  }

  lemma ExampleChunksHead()
    ensures MapText("It's") == "It\\'s" && MapText(" 50%") == " 50%%"
  {
  }

  lemma ExampleChunksTail()
    ensures MapText(": do") == "\\: do" && MapText("ne") == "ne"
  {
  }

  /** The drawtext escape of a title seen in practice. */
  lemma EscapeTextExample(title: string)
    requires title == "It's 50%: done"
    ensures EscapeText(title) == "It\\'s 50%%\\: done"
  {
    EscapeTextIsCharMap(title);
    ExampleSplit(title);
    var a, b, c, d := title[..4], title[4..8], title[8..12], title[12..];
    assert title == a + (b + (c + d));
    MapTextConcat(a, b + (c + d));
    MapTextConcat(b, c + d);
    MapTextConcat(c, d);
    ExampleChunksHead();
    ExampleChunksTail();
    ExampleJoined();
  }

  lemma ExampleJoined()
    ensures "It\\'s" + (" 50%%" + ("\\: do" + "ne")) == "It\\'s 50%%\\: done"
  {
  }

  lemma ExampleSplit(title: string)
    requires title == "It's 50%: done"
    ensures title[..4] == "It's" && title[4..8] == " 50%" && title[8..12] == ": do" && title[12..] == "ne"
  {
  }
}
