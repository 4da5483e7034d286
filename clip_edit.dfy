/** The clip planner of clip_edit_process.py: a safe file name from the clip
    slug, the encoder arguments, the text suffix (drawtext title, ASS or SRT
    subtitles), the ffmpeg argument lists of the renditions, and `edit_clip`,
    which probes, lays out, prepares the rounded-corner and logo assets and
    runs the stages in order, stopping at the first failure.

    The outside world (ffprobe, Pillow, pysubs2, the file system, ffmpeg) is a
    `World` value: probe results, availability flags, whether a file exists or
    was saved, and ffmpeg's outcome as a function of the argument list. */
module ClipEdit {

  import opened Strings
  import opened MediaUtils
  import opened Layout
  import SubsUtils
  import MaskUtils

  // ---------------------------------------------------------------------
  // File names

  /** `str.isalnum()` on ASCII letters and digits. */
  predicate IsAlnum(c: char) { IsDigit(c) || 'a' <= c <= 'z' || 'A' <= c <= 'Z' }

  /** The characters a safe file name keeps. */
  predicate Kept(c: char) { IsAlnum(c) || c == '-' || c == '_' || c == '.' }

  /** The characters stripped from both ends of a safe file name. */
  predicate IsDashOrUnderscore(c: char) { c == '-' || c == '_' }

  /** The kept characters that survive the stripping: letters, digits and `.`. */
  predicate Significant(c: char) { IsAlnum(c) || c == '.' }

  /** Whether a text holds a significant character. */
  predicate HasSignificant(s: string) { exists k :: 0 <= k < |s| && Significant(s[k]) }

  /** The filter `c for c in name if c.isalnum() or c in "-_."`: only kept
      characters remain (KeepSafeCounts: each as often as it occurs). */
  function KeepSafe(s: string): (r: string)
    ensures |r| <= |s|
    ensures forall k :: 0 <= k < |r| ==> Kept(r[k])
  {
    if |s| == 0 then ""
    else (if Kept(s[0]) then [s[0]] else "") + KeepSafe(s[1..])
  }

  /** The filter keeps every kept character as often as it occurs. */
  lemma {:induction false} KeepSafeCounts(s: string, c: char)
    requires Kept(c)
    ensures multiset(KeepSafe(s))[c] == multiset(s)[c]
  {
    if |s| > 0 {
      KeepSafeCounts(s[1..], c);
      assert s == [s[0]] + s[1..];
      assert multiset(s) == multiset{s[0]} + multiset(s[1..]);
    }
  }

  /** The filter works character by character, so it keeps the order. */
  lemma {:induction false} KeepSafeConcat(a: string, b: string)
    ensures KeepSafe(a + b) == KeepSafe(a) + KeepSafe(b)
  {
    if |a| == 0 {
      assert a + b == b;
    } else {
      assert (a + b)[1..] == a[1..] + b;
      KeepSafeConcat(a[1..], b);
    }
  }

  lemma {:induction false} KeepSafeKeeps(s: string)
    requires forall k :: 0 <= k < |s| ==> Kept(s[k])
    ensures KeepSafe(s) == s
  {
    if |s| > 0 {
      KeepSafeKeeps(s[1..]);
      assert [s[0]] + s[1..] == s;
    }
  }

  /** The slug with `/` and spaces turned into underscores. */
  function SeparatorsToUnderscores(slug: string): string
  {
    ReplaceChar(ReplaceChar(slug, '/', "_"), ' ', "_")
  }

  /** Position by position, `/` and the space become `_` and nothing else changes. */
  lemma SeparatorsToUnderscoresPointwise(slug: string)
    ensures |SeparatorsToUnderscores(slug)| == |slug|
    ensures forall k :: 0 <= k < |slug| ==>
      SeparatorsToUnderscores(slug)[k] == if slug[k] == '/' || slug[k] == ' ' then '_' else slug[k]
  {
    ReplaceCharPointwise(slug, '/', '_');
    ReplaceCharPointwise(ReplaceChar(slug, '/', "_"), ' ', '_');
  }

  /** `safe_filename_from_slug`: slashes and spaces become underscores, other
      unsafe characters are dropped, dashes and underscores are stripped from
      both ends, and `clip_<now>` is used exactly when no letter, digit or dot
      was in the slug (SafeFilenameKeeps: otherwise what the name keeps). */
  function SafeFilename(slug: string, now: nat): (r: string)
    ensures |r| > 0
    ensures forall k :: 0 <= k < |r| ==> Kept(r[k])
    ensures !IsDashOrUnderscore(r[0]) && !IsDashOrUnderscore(r[|r| - 1])
    ensures !HasSignificant(slug) ==> r == ClipFallback(now)
  {
    var t := SafeCore(SeparatorsToUnderscores(slug));
    if t == "" then ClipFallback(now)
    else
      SeparatorsKeepPresence(slug);
      SafeCoreEmpty(SeparatorsToUnderscores(slug));
      t
  }

  /** When the slug has a letter, digit or dot, the safe name is the filtered
      slug with a run of dashes and underscores cut off each end, and it keeps
      every letter, digit and dot of the slug, as often as they occur. */
  lemma SafeFilenameKeeps(slug: string, now: nat)
    requires HasSignificant(slug)
    ensures exists a :: CutAt(KeepSafe(SeparatorsToUnderscores(slug)), IsDashOrUnderscore, a, SafeFilename(slug, now))
    ensures forall c :: Significant(c) ==> multiset(SafeFilename(slug, now))[c] == multiset(slug)[c]
  {
    var mapped := SeparatorsToUnderscores(slug);
    SeparatorsKeepPresence(slug);
    SafeCoreEmpty(mapped);
    SafeCoreCounts(mapped);
    assert SafeFilename(slug, now) == SafeCore(mapped);
    forall c | Significant(c) ensures multiset(SafeFilename(slug, now))[c] == multiset(slug)[c] {
      SeparatorsKeepCounts(slug, c);
    }
  }

  /** Turning separators into underscores keeps whether a letter, digit or dot occurs. */
  lemma SeparatorsKeepPresence(slug: string)
    ensures HasSignificant(SeparatorsToUnderscores(slug)) == HasSignificant(slug)
  {
    var mapped := SeparatorsToUnderscores(slug);
    SeparatorsToUnderscoresPointwise(slug);
    assert forall k :: 0 <= k < |slug| ==> (Significant(mapped[k]) <==> Significant(slug[k]));
  }

  /** Turning separators into underscores keeps every letter, digit and dot. */
  lemma SeparatorsKeepCounts(slug: string, c: char)
    requires Significant(c)
    ensures multiset(SeparatorsToUnderscores(slug))[c] == multiset(slug)[c]
  {
    ReplaceCharCount(slug, '/', "_", c);
    ReplaceCharCount(ReplaceChar(slug, '/', "_"), ' ', "_", c);
  }

  /** The kept characters of a name with dashes and underscores stripped from
      both ends (SafeCoreSlice, SafeCoreCounts: what it keeps). */
  function SafeCore(name: string): (t: string)
    ensures forall k :: 0 <= k < |t| ==> Kept(t[k])
    ensures |t| > 0 ==> !IsDashOrUnderscore(t[0]) && !IsDashOrUnderscore(t[|t| - 1])
  {
    var kept := KeepSafe(name);
    StripKeepsProperty(kept, IsDashOrUnderscore, Kept);
    Strip(kept, IsDashOrUnderscore)
  }

  /** The core is the filtered name with a run of dashes and underscores cut
      off each end, and holds each letter, digit and dot as often as the name. */
  lemma SafeCoreCounts(name: string)
    ensures exists a :: CutAt(KeepSafe(name), IsDashOrUnderscore, a, SafeCore(name))
    ensures forall c :: Significant(c) ==> multiset(SafeCore(name))[c] == multiset(name)[c]
  {
    var kept := KeepSafe(name);
    StripSlice(kept, IsDashOrUnderscore);
    assert SafeCore(name) == Strip(kept, IsDashOrUnderscore);
    forall c | Significant(c) ensures multiset(SafeCore(name))[c] == multiset(name)[c] {
      StripCounts(kept, IsDashOrUnderscore, c);
      KeepSafeCounts(name, c);
    }
  }

  /** The core is empty exactly when the name has no letter, digit or dot. */
  lemma SafeCoreEmpty(name: string)
    ensures SafeCore(name) == "" <==> !HasSignificant(name)
  {
    var t := SafeCore(name);
    SafeCoreCounts(name);
    if t == "" {
      forall k | 0 <= k < |name| ensures !Significant(name[k]) {
        assert name[k] in multiset(name);
      }
    } else {
      assert Significant(t[0]);
      assert t[0] in multiset(t);
      assert t[0] in name;
    }
  }

  /** The name used when nothing safe is left: `clip_` and the clock's seconds. */
  function ClipFallback(now: nat): (r: string)
    ensures |r| > 0 && forall k :: 0 <= k < |r| ==> Kept(r[k])
    ensures !IsDashOrUnderscore(r[0]) && !IsDashOrUnderscore(r[|r| - 1])
  {
    var d := NatToString(now);
    assert forall k :: 0 <= k < |d| ==> IsDigit(d[k]);
    "clip_" + d
  }

  /** A safe name is its own safe name, whatever the clock says the second time. */
  lemma SafeFilenameIdempotent(slug: string, now: nat, later: nat)
    ensures SafeFilename(SafeFilename(slug, now), later) == SafeFilename(slug, now)
  {
    SafeNameFixed(SafeFilename(slug, now));
  }

  /** A non-empty name of kept characters with no dash or underscore at either
      end goes through the separator mapping, the filter and the strip unchanged. */
  lemma SafeNameFixed(t: string)
    requires |t| > 0 && forall k :: 0 <= k < |t| ==> Kept(t[k])
    requires !IsDashOrUnderscore(t[0]) && !IsDashOrUnderscore(t[|t| - 1])
    ensures SafeCore(SeparatorsToUnderscores(t)) == t
  {
    assert '/' !in t && ' ' !in t by {
      forall k | 0 <= k < |t| ensures t[k] != '/' && t[k] != ' ' { assert Kept(t[k]); }
    }
    ReplaceCharAbsent(t, '/', "_");
    ReplaceCharAbsent(t, ' ', "_");
    KeepSafeKeeps(t);
    StripKeeps(t, IsDashOrUnderscore);
  }

  /** Python's `a or b` on strings, the empty string being falsy. */
  function Or(a: string, b: string): string { if a != "" then a else b }

  /** Path joining with `/`. */
  function PathJoin(dir: string, name: string): string { dir + "/" + name }

  // ---------------------------------------------------------------------
  // Encoder arguments

  const Nvenc := "h264_nvenc"

  /** `_build_vencoder_args`. */
  function VEncoderArgs(encoder: string, preset: string, cq: int, gpu: Option<int>): (r: seq<string>)
    ensures |r| % 2 == 0
  {
    if encoder == Nvenc then
      ["-c:v", Nvenc] + (["-preset", preset] + (["-tune", "hq"] + (["-rc", "vbr"] +
      (["-cq", IntToString(cq)] + (["-b:v", "0"] + (["-profile:v", "high"] +
      (if gpu.Some? then ["-gpu", IntToString(gpu.value)] else [])))))))
    else
      ["-c:v", "libx264"] + (["-preset", "veryfast"] + (["-crf", "23"] + ["-profile:v", "high"]))
  }

  /** The value given to `flag` in a list of flag/value pairs, read the way
      ffmpeg reads its options: pair by pair from the front. */
  function FlagValue(args: seq<string>, flag: string): Option<string>
  {
    if |args| < 2 then None
    else if args[0] == flag then Some(args[1])
    else FlagValue(args[2..], flag)
  }

  lemma FlagValueSkip(head: seq<string>, tail: seq<string>, flag: string)
    requires |head| == 2 && head[0] != flag
    ensures FlagValue(head + tail, flag) == FlagValue(tail, flag)
  {
    assert (head + tail)[2..] == tail;
  }

  /** The NVENC list names the NVENC encoder and carries the quality as `-cq`. */
  lemma NvencFlags(preset: string, cq: int, gpu: Option<int>)
    ensures FlagValue(VEncoderArgs(Nvenc, preset, cq, gpu), "-c:v") == Some(Nvenc)
    ensures FlagValue(VEncoderArgs(Nvenc, preset, cq, gpu), "-cq") == Some(IntToString(cq))
  {
    var g := if gpu.Some? then ["-gpu", IntToString(gpu.value)] else [];
    var t4 := ["-cq", IntToString(cq)] + (["-b:v", "0"] + (["-profile:v", "high"] + g));
    var t3 := ["-rc", "vbr"] + t4;
    var t2 := ["-tune", "hq"] + t3;
    var t1 := ["-preset", preset] + t2;
    FlagValueSkip(["-rc", "vbr"], t4, "-cq");
    FlagValueSkip(["-tune", "hq"], t3, "-cq");
    FlagValueSkip(["-preset", preset], t2, "-cq");
    FlagValueSkip(["-c:v", Nvenc], t1, "-cq");
  }

  /** The NVENC list carries the GPU index as `-gpu` exactly when one is given. */
  lemma NvencGpu(preset: string, cq: int, gpu: Option<int>)
    ensures FlagValue(VEncoderArgs(Nvenc, preset, cq, gpu), "-gpu")
      == (if gpu.Some? then Some(IntToString(gpu.value)) else None)
  {
    var g := if gpu.Some? then ["-gpu", IntToString(gpu.value)] else [];
    var t6 := ["-profile:v", "high"] + g;
    var t5 := ["-b:v", "0"] + t6;
    var t4 := ["-cq", IntToString(cq)] + t5;
    var t3 := ["-rc", "vbr"] + t4;
    var t2 := ["-tune", "hq"] + t3;
    var t1 := ["-preset", preset] + t2;
    FlagValueSkip(["-profile:v", "high"], g, "-gpu");
    FlagValueSkip(["-b:v", "0"], t6, "-gpu");
    FlagValueSkip(["-cq", IntToString(cq)], t5, "-gpu");
    FlagValueSkip(["-rc", "vbr"], t4, "-gpu");
    FlagValueSkip(["-tune", "hq"], t3, "-gpu");
    FlagValueSkip(["-preset", preset], t2, "-gpu");
    FlagValueSkip(["-c:v", Nvenc], t1, "-gpu");
  }

  /** Any other encoder name gives libx264 at CRF 23 and never a `-gpu`. */
  lemma SoftwareFlags(encoder: string, preset: string, cq: int, gpu: Option<int>)
    requires encoder != Nvenc
    ensures FlagValue(VEncoderArgs(encoder, preset, cq, gpu), "-c:v") == Some("libx264")
    ensures FlagValue(VEncoderArgs(encoder, preset, cq, gpu), "-crf") == Some("23")
    ensures FlagValue(VEncoderArgs(encoder, preset, cq, gpu), "-gpu").None?
  {
    var t2 := ["-crf", "23"] + ["-profile:v", "high"];
    var t1 := ["-preset", "veryfast"] + t2;
    FlagValueSkip(["-preset", "veryfast"], t2, "-crf");
    FlagValueSkip(["-c:v", "libx264"], t1, "-crf");
    FlagValueSkip(["-profile:v", "high"], [], "-gpu");
    FlagValueSkip(["-crf", "23"], ["-profile:v", "high"], "-gpu");
    FlagValueSkip(["-preset", "veryfast"], t2, "-gpu");
    FlagValueSkip(["-c:v", "libx264"], t1, "-gpu");
  }

  // ---------------------------------------------------------------------
  // Text on the picture: drawtext title and subtitle filter

  /** The drawtext filter for the title, with the font file when one exists
      and the Roboto family otherwise. */
  function Drawtext(title: string, size: int, y: int, fontfile: Option<string>): string
  {
    "drawtext="
    + (if fontfile.Some? then "fontfile='" + EscapeFontfile(fontfile.value) + "'" else "font='Roboto'")
    + ":text='" + EscapeText(title) + "':fontsize=" + IntToString(size)
    + ":fontcolor=white:x=(w-text_w)/2:y=" + IntToString(y)
    + ":box=1:boxcolor=black@0.5:boxborderw=5"
  }

  /** The subtitle files as the text suffix sees them. */
  datatype SubsFiles = SubsFiles(
    useAss: bool, assPath: Option<string>, assExists: bool,
    srtPath: Option<string>, srtExists: bool)

  predicate AssUsable(f: SubsFiles) { f.useAss && f.assPath.Some? && f.assExists }

  /** The style forced on plain SRT subtitles. */
  function ForceStyle(family: string, size: int, margin: int): string
  {
    "FontName=" + family + ",FontSize=" + IntToString(size) + ",Alignment=2,MarginV="
    + IntToString(margin) + ",PrimaryColour=&H00FFFFFF&,Outline=1,Shadow=0"
  }

  /** The filter that burns in a styled ASS file, with the fonts directory when there is one. */
  function AssFilter(assPath: string, fontsDir: Option<string>): string
  {
    if fontsDir.Some? then "subtitles=" + assPath + ":fontsdir=" + fontsDir.value else "ass=" + assPath
  }

  /** The filter that burns in an SRT file with a forced style. */
  function SrtFilter(srtPath: string, style: string, fontsDir: Option<string>): string
  {
    if fontsDir.Some? then "subtitles=" + srtPath + ":force_style='" + style + "':fontsdir=" + fontsDir.value
    else "subtitles=" + srtPath + ":force_style='" + style + "'"
  }

  /** The subtitle filter: the ASS file when it was generated and exists,
      otherwise the SRT file with a forced style when it exists, otherwise none. */
  function SubtitlePart(f: SubsFiles, fontsDir: Option<string>, family: string, size: int, margin: int): (r: Option<string>)
    ensures r.Some? <==> AssUsable(f) || (f.srtPath.Some? && f.srtExists)
    ensures AssUsable(f) ==> r == Some(AssFilter(f.assPath.value, fontsDir))
    ensures !AssUsable(f) && r.Some? ==> r == Some(SrtFilter(f.srtPath.value, ForceStyle(family, size, margin), fontsDir))
  {
    if AssUsable(f) then Some(AssFilter(f.assPath.value, fontsDir))
    else if f.srtPath.Some? && f.srtExists then Some(SrtFilter(f.srtPath.value, ForceStyle(family, size, margin), fontsDir))
    else None
  }

  predicate Present(s: Option<string>) { s.Some? && s.value != "" }

  /** The parts of the suffix: the drawtext title first, then the subtitles. */
  function TextParts(drawtext: Option<string>, sub: Option<string>): seq<string>
  {
    if Present(drawtext) then (if sub.Some? then [drawtext.value, sub.value] else [drawtext.value])
    else if sub.Some? then [sub.value] else []
  }

  /** `("," + ",".join(parts)) if parts else ""`. */
  function Suffix(parts: seq<string>): string
  {
    if |parts| == 0 then "" else "," + Join(parts, ",")
  }

  /** `build_text_suffix`: collects the parts in a list, then joins them. */
  method BuildTextSuffix(f: SubsFiles, drawtext: Option<string>, fontsDir: Option<string>,
                         family: string, size: int, margin: int)
    returns (suffix: string)
    ensures suffix == Suffix(TextParts(drawtext, SubtitlePart(f, fontsDir, family, size, margin)))
  {
    var parts: seq<string> := [];
    if drawtext.Some? && drawtext.value != "" {
      parts := parts + [drawtext.value];
    }
    ghost var head := parts;
    ghost var sub := SubtitlePart(f, fontsDir, family, size, margin);
    TextPartsAfter(drawtext, sub, head);
    if f.useAss && f.assPath.Some? && f.assExists {
      var part;
      if fontsDir.Some? {
        part := "subtitles=" + f.assPath.value + ":fontsdir=" + fontsDir.value;
      } else {
        part := "ass=" + f.assPath.value;
      }
      assert part == AssFilter(f.assPath.value, fontsDir);
      parts := parts + [part];
    } else if f.srtPath.Some? && f.srtExists {
      var forceStyle := ForceStyle(family, size, margin);
      var part;
      if fontsDir.Some? {
        part := "subtitles=" + f.srtPath.value + ":force_style='" + forceStyle + "':fontsdir=" + fontsDir.value;
      } else {
        part := "subtitles=" + f.srtPath.value + ":force_style='" + forceStyle + "'";
      }
      assert part == SrtFilter(f.srtPath.value, forceStyle, fontsDir);
      parts := parts + [part];
    }
    suffix := if |parts| > 0 then "," + Join(parts, ",") else "";
  }

  /** The parts are the title part, if any, followed by the subtitle part, if any. */
  lemma TextPartsAfter(drawtext: Option<string>, sub: Option<string>, head: seq<string>)
    requires head == if Present(drawtext) then [drawtext.value] else []
    ensures TextParts(drawtext, sub) == if sub.Some? then head + [sub.value] else head
  {
  }

  /** The suffix is empty exactly when there is nothing to draw; otherwise the
      title comes first and the subtitles second, each after a comma. */
  lemma TextSuffixOrder(drawtext: Option<string>, sub: Option<string>)
    ensures Suffix(TextParts(drawtext, sub)) == "" <==> !Present(drawtext) && sub.None?
    ensures Present(drawtext) && sub.Some? ==>
      Suffix(TextParts(drawtext, sub)) == "," + drawtext.value + "," + sub.value
    ensures Present(drawtext) && sub.None? ==> Suffix(TextParts(drawtext, sub)) == "," + drawtext.value
    ensures !Present(drawtext) && sub.Some? ==> Suffix(TextParts(drawtext, sub)) == "," + sub.value
  {
    var parts := TextParts(drawtext, sub);
    if Present(drawtext) && sub.Some? {
      assert parts == [drawtext.value, sub.value];
      assert parts[1..] == [sub.value];
      assert Join(parts, ",") == drawtext.value + "," + sub.value;
    }
  }

  /** The same parts written one by one, each after a comma: the way
      `build_content_filter_chain` appends them. */
  function CommaEach(parts: seq<string>): string
  {
    if |parts| == 0 then "" else "," + parts[0] + CommaEach(parts[1..])
  }

  /** Joining after one leading comma is the same as a comma before each part. */
  lemma {:induction false} SuffixIsCommaEach(parts: seq<string>)
    ensures Suffix(parts) == CommaEach(parts)
  {
    if |parts| >= 2 {
      SuffixIsCommaEach(parts[1..]);
      assert Suffix(parts) == "," + parts[0] + Suffix(parts[1..]);
    } else if |parts| == 1 {
      assert parts[1..] == [];
    }
  }

  // ---------------------------------------------------------------------
  // ffmpeg calls

  /** The filter argument of a call: a mapped `-filter_complex` graph ending
      in `[final]`, a plain one, or a simple `-vf` chain. */
  datatype Graph = FilterComplex(filter: string) | PlainComplex(filter: string) | Vf(chain: string)

  /** One ffmpeg invocation: inputs in order, the graph, codec arguments and the output. */
  datatype Call = Call(inputs: seq<string>, graph: Graph, codec: seq<string>, out: string)

  function InputArgs(inputs: seq<string>): seq<string>
  {
    if |inputs| == 0 then [] else ["-i", inputs[0]] + InputArgs(inputs[1..])
  }

  function GraphArgs(g: Graph): (r: seq<string>)
    ensures |r| > 0 && r[0] != "-i"
  {
    match g
    case FilterComplex(f) => ["-filter_complex", f, "-map", "[final]", "-map", "0:a?"]
    case PlainComplex(f) => ["-filter_complex", f]
    case Vf(c) => ["-vf", c]
  }

  /** The argument list handed to ffmpeg, overwriting its output (`-y`). */
  function Args(ffmpeg: string, c: Call): (r: seq<string>)
    ensures |r| >= 4 && r[0] == ffmpeg && r[1] == "-y" && r[|r| - 1] == c.out
  {
    [ffmpeg, "-y"] + InputArgs(c.inputs) + GraphArgs(c.graph) + c.codec + [c.out]
  }

  /** The inputs as ffmpeg reads them: `-i` pairs from the front. */
  function ReadInputs(args: seq<string>): seq<string>
  {
    if |args| >= 2 && args[0] == "-i" then [args[1]] + ReadInputs(args[2..]) else []
  }

  lemma {:induction false} ReadInputArgs(inputs: seq<string>, rest: seq<string>)
    requires |rest| > 0 && rest[0] != "-i"
    ensures ReadInputs(InputArgs(inputs) + rest) == inputs
    ensures |InputArgs(inputs)| == 2 * |inputs|
  {
    if |inputs| > 0 {
      ReadInputArgs(inputs[1..], rest);
      assert InputArgs(inputs) + rest == ["-i", inputs[0]] + (InputArgs(inputs[1..]) + rest);
      assert [inputs[0]] + inputs[1..] == inputs;
    } else {
      assert InputArgs(inputs) + rest == rest;
    }
  }

  /** ffmpeg reads back exactly the planned inputs, in order, and the graph
      flag follows them. */
  lemma ArgsInputs(ffmpeg: string, c: Call)
    ensures ReadInputs(Args(ffmpeg, c)[2..]) == c.inputs
    ensures 2 + 2 * |c.inputs| < |Args(ffmpeg, c)|
    ensures Args(ffmpeg, c)[2 + 2 * |c.inputs|] == GraphArgs(c.graph)[0]
  {
    var rest := GraphArgs(c.graph) + c.codec + [c.out];
    ReadInputArgs(c.inputs, rest);
    assert Args(ffmpeg, c)[2..] == InputArgs(c.inputs) + rest;
    assert Args(ffmpeg, c) == [ffmpeg, "-y"] + InputArgs(c.inputs) + rest;
  }

  /** The encoder and audio arguments of every `edit_clip` rendition. */
  function PostCodec(venc: seq<string>): (r: seq<string>)
    ensures |r| == |venc| + 8 && r[..|venc|] == venc
  {
    venc + ["-pix_fmt", "yuv420p", "-movflags", "+faststart", "-c:a", "aac", "-b:a", "128k"]
  }

  /** Scale to the content width, pad to at least 1080x1920, crop to 1080x1920. */
  function BaseSnippet(width: int): string
  {
    "scale=" + IntToString(width) + ":-2,"
    + "pad=width='max(1080,iw)':height='max(1920,ih)':x='(ow-iw)/2':y='(oh-ih)/2':color=black,"
    + "crop=1080:1920"
  }

  /** The square feed transform. */
  const FeedSnippet := "scale=1080:-2,pad=width='max(1080,iw)':height='max(1080,ih)':x='(ow-iw)/2':y='(oh-ih)/2':color=black,crop=1080:1080"

  /** The rounded-corner asset given as input 1, if any. */
  datatype Corner = NoCorner | FrameCorner | MaskCorner

  /** The stages that put the corner asset over (frame) or under (mask) the video. */
  function CornerStages(corner: Corner, bg: string): string
  {
    match corner
    case NoCorner => ""
    case FrameCorner => "[vcore];[vcore][1:v]overlay=0:0"
    case MaskCorner =>
      ",format=rgba[vcore];[1:v]scale=1080:1920,format=rgba,alphaextract[ma];[vcore][ma]alphamerge[va];"
      + "color=c=" + bg + ":s=1080x1920[bg];[bg][va]overlay=format=auto"
  }

  /** The input index of the logo: right after the corner asset, if any. */
  function LogoInput(corner: Corner): nat { if corner == NoCorner then 1 else 2 }

  /** The label of the picture the logo is laid over. */
  function LogoLabel(corner: Corner): string
  {
    match corner
    case NoCorner => "vcore"
    case FrameCorner => "withframe"
    case MaskCorner => "masked"
  }

  function LogoOverlay(corner: Corner, lx: int, ly: int): string
  {
    "[" + NatToString(LogoInput(corner)) + ":v]overlay=" + IntToString(lx) + ":" + IntToString(ly)
  }

  /** Closes the picture under its label and reopens it for the logo overlay. */
  function LogoHead(corner: Corner): string
  {
    "[" + LogoLabel(corner) + "];[" + LogoLabel(corner) + "]"
  }

  function LogoStage(corner: Corner, lx: int, ly: int): string
  {
    LogoHead(corner) + LogoOverlay(corner, lx, ly)
  }

  /** The inputs of a post call: the video, the corner asset, the logo. */
  function PostInputList(video: string, corner: Corner, cornerPath: string, logo: Option<string>): (r: seq<string>)
  {
    if corner == NoCorner then (if logo.Some? then [video, logo.value] else [video])
    else if logo.Some? then [video, cornerPath, logo.value] else [video, cornerPath]
  }

  /** One input per asset, the video first and the corner asset second; the
      logo overlay names the input that holds the logo. */
  lemma PostInputOrder(video: string, corner: Corner, cornerPath: string, logo: Option<string>)
    ensures var r := PostInputList(video, corner, cornerPath, logo);
      |r| == 1 + (if corner != NoCorner then 1 else 0) + (if logo.Some? then 1 else 0)
      && r[0] == video
      && (corner != NoCorner ==> r[1] == cornerPath)
      && (logo.Some? ==> LogoInput(corner) < |r| && r[LogoInput(corner)] == logo.value)
  {
  }

  /** The `filter_complex` graph of a post call: base transform, corner
      stages, logo overlay, then the text suffix and the `[final]` label. */
  function PostFilter(width: int, corner: Corner, bg: string, logo: bool, lx: int, ly: int, suffix: string): string
  {
    ("[0:v]" + BaseSnippet(width))
    + (CornerStages(corner, bg) + (if logo then LogoStage(corner, lx, ly) else ""))
    + (suffix + "[final]")
  }

  /** The post (and reels) call of `edit_clip`: a plain `-vf` chain when
      there is no asset, otherwise the filter graph over the listed inputs. */
  function PostCall(video: string, corner: Corner, cornerPath: string, logo: Option<string>,
                    width: int, bg: string, lx: int, ly: int, suffix: string,
                    venc: seq<string>, out: string): Call
  {
    Call(PostInputList(video, corner, cornerPath, logo),
         if corner == NoCorner && logo.None? then Vf(BaseSnippet(width) + suffix)
         else FilterComplex(PostFilter(width, corner, bg, logo.Some?, lx, ly, suffix)),
         PostCodec(venc), out)
  }

  /** The `-vf` form, with no `-map`, is used exactly when there is neither a
      corner asset nor a logo, and the filter graph form otherwise. */
  lemma PostCallForm(video: string, corner: Corner, cornerPath: string, logo: Option<string>,
                     width: int, bg: string, lx: int, ly: int, suffix: string, venc: seq<string>, out: string)
    ensures var c := PostCall(video, corner, cornerPath, logo, width, bg, lx, ly, suffix, venc, out);
      c.graph.Vf? <==> corner == NoCorner && logo.None?
    ensures var c := PostCall(video, corner, cornerPath, logo, width, bg, lx, ly, suffix, venc, out);
      c.graph.Vf? || c.graph.FilterComplex?
  {
  }

  /** The inputs of a post call are the listed assets, its codec arguments
      start with the encoder's, and it writes the given output. */
  lemma PostCallInputs(video: string, corner: Corner, cornerPath: string, logo: Option<string>,
                       width: int, bg: string, lx: int, ly: int, suffix: string, venc: seq<string>, out: string)
    ensures var c := PostCall(video, corner, cornerPath, logo, width, bg, lx, ly, suffix, venc, out);
      c.inputs == PostInputList(video, corner, cornerPath, logo)
    ensures var c := PostCall(video, corner, cornerPath, logo, width, bg, lx, ly, suffix, venc, out);
      c.codec[..|venc|] == venc && c.out == out
  {
  }

  predicate StartsWith(f: string, t: string) { |t| <= |f| && f[..|t|] == t }
  predicate EndsWith(f: string, t: string) { |t| <= |f| && f[|f| - |t|..] == t }

  lemma Affixes(pre: string, mid: string, post: string)
    ensures StartsWith(pre + mid + post, pre) && EndsWith(pre + mid + post, post)
  {
  }

  /** Every post graph starts from `[0:v]` and the base transform and ends
      with the text suffix and `[final]`. */
  lemma PostFilterShape(width: int, corner: Corner, bg: string, logo: bool, lx: int, ly: int, suffix: string)
    ensures StartsWith(PostFilter(width, corner, bg, logo, lx, ly, suffix), "[0:v]" + BaseSnippet(width))
    ensures EndsWith(PostFilter(width, corner, bg, logo, lx, ly, suffix), suffix + "[final]")
  {
    Affixes("[0:v]" + BaseSnippet(width), CornerStages(corner, bg) + (if logo then LogoStage(corner, lx, ly) else ""),
            suffix + "[final]");
  }

  /** With a logo, the logo overlay comes right before the suffix. */
  lemma PostFilterLogoLast(width: int, corner: Corner, bg: string, lx: int, ly: int, suffix: string)
    ensures EndsWith(PostFilter(width, corner, bg, true, lx, ly, suffix), LogoOverlay(corner, lx, ly) + (suffix + "[final]"))
  {
    TailOf("[0:v]" + BaseSnippet(width), CornerStages(corner, bg), LogoHead(corner), LogoOverlay(corner, lx, ly),
           suffix + "[final]");
  }

  lemma TailOf(a: string, s: string, h: string, o: string, p: string)
    ensures EndsWith((a + (s + (h + o))) + p, o + p)
  {
    assert (a + (s + (h + o))) + p == (a + s + h) + (o + p);
  }

  /** The feed call: the square snippet and the text suffix, no asset. */
  function FeedCall(video: string, suffix: string, venc: seq<string>, out: string): Call
  {
    Call([video], Vf(FeedSnippet + suffix), PostCodec(venc), out)
  }

  /** The watermark call: the reels output with the watermark in its top-left corner. */
  function WatermarkCall(reels: string, watermark: string, codec: seq<string>, out: string): Call
  {
    Call([reels, watermark], PlainComplex("overlay=10:10"), codec, out)
  }

  // ---------------------------------------------------------------------
  // Stages

  /** A step of the run: an ffmpeg call, or a check that must hold. */
  datatype Stage = Run(name: string, args: seq<string>) | Require(ok: bool, error: string)

  /** ffmpeg's outcome for an argument list: none on success, else its error text. */
  type Ffmpeg = seq<string> -> Option<string>

  /** The error a stage ends the run with, if it fails. */
  function StageError(s: Stage, run: Ffmpeg): Option<string>
  {
    match s
    case Run(name, args) => if run(args).Some? then Some("ffmpeg " + name + " failed: " + run(args).value) else None
    case Require(ok, error) => if ok then None else Some(error)
  }

  /** The index of the first failing stage, or the number of stages when none fails. */
  function FirstFailure(stages: seq<Stage>, run: Ffmpeg): (i: nat)
    ensures i <= |stages|
    ensures forall k :: 0 <= k < i ==> StageError(stages[k], run).None?
    ensures i < |stages| ==> StageError(stages[i], run).Some?
  {
    if |stages| == 0 then 0
    else if StageError(stages[0], run).Some? then 0
    else 1 + FirstFailure(stages[1..], run)
  }

  /** The argument lists of the `Run` stages, in order. */
  function Commands(stages: seq<Stage>): seq<seq<string>>
  {
    if |stages| == 0 then []
    else Commands(stages[..|stages| - 1])
         + (if stages[|stages| - 1].Run? then [stages[|stages| - 1].args] else [])
  }

  /** The stages that are tried: all of them, or up to and including the first failure. */
  function Tried(stages: seq<Stage>, run: Ffmpeg): seq<Stage>
  {
    var i := FirstFailure(stages, run);
    if i < |stages| then stages[..i + 1] else stages
  }

  /** The error of the first failing stage, if any. */
  function FirstError(stages: seq<Stage>, run: Ffmpeg): (e: Option<string>)
    ensures e.None? <==> forall k :: 0 <= k < |stages| ==> StageError(stages[k], run).None?
  {
    var i := FirstFailure(stages, run);
    if i < |stages| then StageError(stages[i], run) else None
  }

  /** Runs the stages in order and stops at the first failure, which it
      reports; every command up to and including the failing one has run. */
  method RunStages(stages: seq<Stage>, run: Ffmpeg) returns (err: Option<string>, ran: seq<seq<string>>)
    ensures ran == Commands(Tried(stages, run))
    ensures err == FirstError(stages, run)
  {
    ran := [];
    var k := 0;
    while k < |stages|
      invariant 0 <= k <= |stages|
      invariant forall j :: 0 <= j < k ==> StageError(stages[j], run).None?
      invariant ran == Commands(stages[..k])
    {
      var s := stages[k];
      assert stages[..k + 1][..k] == stages[..k];
      if s.Run? {
        ran := ran + [s.args];
      }
      var e := StageError(s, run);
      if e.Some? {
        return e, ran;
      }
      k := k + 1;
    }
    assert stages[..k] == stages;
    err := None;
  }

  // ---------------------------------------------------------------------
  // edit_clip

  /** The metadata fields `edit_clip` reads; an absent or empty field is "". */
  datatype Source = Source(
    slug: string, title: string, movieTitle: string, movie: string,
    subtitles: SubsUtils.SubsField, captions: SubsUtils.SubsField)

  /** The options of `edit_clip`; an absent title override or font file is "". */
  datatype Options = Options(
    minDuration: int, downloadsDir: string, outputsDir: string, ffmpeg: string,
    subtitleSize: int, subtitleMargin: int, sideMargin: int,
    produceFeed: bool, produceReels: bool, watermark: Option<string>,
    titleEnable: bool, titleOverride: string, titleSize: Option<int>, titleMarginTop: Option<int>,
    fontFile: string, fontFamily: string, cornerRadius: int,
    videoEncoder: string, nvencPreset: string, nvencCq: int, nvencGpu: Option<int>,
    logoRatio: real, logoMargin: int, bgColor: string)

  /** What the planner learns from outside: probe results, availability of
      Pillow, which files exist or were saved, the logo preparation (desired
      width to prepared file, none on failure), ffmpeg's outcome, and how
      Python prints a float. */
  datatype World = World(
    video: string, stem: string, now: nat,
    duration: Option<real>, size: Option<(int, int)>,
    pil: bool, fontExists: bool, fontCopied: bool,
    assOk: bool, assExists: bool, srtExists: bool,
    frameSaved: bool, frameExists: bool, maskSaved: bool, maskExists: bool,
    inShape: (MaskUtils.Box, int, int) -> bool,
    prepareLogo: int -> Option<string>, logoExists: bool,
    watermarkExists: bool, run: Ffmpeg, showReal: real -> string)

  /** The error of the duration gate, with the probed duration as Python prints it. */
  function TooShort(shown: string): string { "duration_too_short (" + shown + ")" }

  /** The slug `edit_clip` names its files after. */
  function ClipSlug(src: Source, w: World): string
  {
    SafeFilename(Or(src.slug, Or(src.title, w.stem)), w.now)
  }

  /** Python's `a or b or ...` on strings: the first non-empty one, "" when all are empty. */
  function FirstNonEmpty(xs: seq<string>): (r: string)
    ensures r == "" <==> forall i :: 0 <= i < |xs| ==> xs[i] == ""
    ensures r != "" ==> exists i :: 0 <= i < |xs| && r == xs[i] && forall j :: 0 <= j < i ==> xs[j] == ""
  {
    if |xs| == 0 then ""
    else if xs[0] != "" then xs[0]
    else
      var r := FirstNonEmpty(xs[1..]);
      assert forall i :: 1 <= i < |xs| ==> xs[i] == xs[1..][i - 1];
      r
  }

  /** The candidates for the title, in the order `edit_clip` tries them. */
  function TitleCandidates(override: string, src: Source): seq<string>
  {
    [override, src.movieTitle, src.movie, src.title, src.slug]
  }

  /** The title: the first non-empty of the override, the movie title, movie,
      title and slug, stripped; none exactly when disabled or when that text
      is blank. A title never starts or ends with whitespace. */
  function TitleText(enable: bool, override: string, src: Source): (t: Option<string>)
    ensures t.Some? <==> enable && StripSpace(FirstNonEmpty(TitleCandidates(override, src))) != ""
    ensures t.Some? ==> t.value == StripSpace(FirstNonEmpty(TitleCandidates(override, src)))
    ensures t.Some? ==> !IsSpace(t.value[0]) && !IsSpace(t.value[|t.value| - 1])
  {
    if !enable then None
    else
      var t := StripSpace(FirstNonEmpty(TitleCandidates(override, src)));
      if t == "" then None else Some(t)
  }

  /** An override that is not blank is the title, whatever the metadata says. */
  lemma TitleOverrideWins(override: string, src: Source)
    requires StripSpace(override) != ""
    ensures TitleText(true, override, src) == Some(StripSpace(override))
  {
    assert override != "";
  }

  /** A falsy title size falls back to the subtitle size. */
  function TitleSize(titleSize: Option<int>, subtitleSize: int): int
  {
    if titleSize.Some? && titleSize.value != 0 then titleSize.value else subtitleSize
  }

  /** The request made of the ASS generation. */
  datatype AssRequest = AssRequest(
    srtPath: string, assPath: string, font: string, size: int, marginv: int, margins: int,
    title: Option<string>, titleSize: int, titlePosY: int, duration: real)

  /** The rendition files of a clip; feed and reels only when requested. */
  datatype Outputs = Outputs(post: string, feed: Option<string>, reels: Option<string>)

  /** The record `edit_clip` returns with its success flag. */
  datatype Outcome =
    | Failure(error: string, slug: string, measured: Option<real>)
    | Success(slug: string, duration: real, outputs: Outputs, meta: string)

  /** Where the renditions of a clip go: `<outputs>/<slug>/<slug>_<kind>.mp4`. */
  function Renditions(outputsDir: string, slug: string, feed: bool, reels: bool): (o: Outputs)
    ensures o.feed.Some? == feed && o.reels.Some? == reels
  {
    var dir := PathJoin(outputsDir, slug);
    Outputs(PathJoin(dir, slug + "_instagram_1080x1920.mp4"),
            if feed then Some(PathJoin(dir, slug + "_feed_1080x1080.mp4")) else None,
            if reels then Some(PathJoin(dir, slug + "_reels_1080x1920.mp4")) else None)
  }

  /** The rounded-corner asset file of a clip. */
  function CornerPath(opts: Options, slug: string, corner: Corner): string
  {
    PathJoin(PathJoin(opts.outputsDir, slug), if corner == FrameCorner then "frame_1080x1920.png" else "mask_1080x1920.png")
  }

  /** The layout numbers of a clip. */
  datatype Geometry = Geometry(
    width: int, scaled: Option<int>, top: int, titleY: int, logoWidth: Option<int>, logoPos: (int, int))

  function GeometryOf(opts: Options, size: Option<(int, int)>): Geometry
  {
    var width := TargetWidth(opts.sideMargin);
    var scaled := ScaledHeight(size, width);
    var top := VideoTop(scaled);
    Geometry(width, scaled, top, TitleY(top, opts.titleMarginTop),
             LogoWidth(width, opts.logoRatio), LogoPos(width, top, opts.logoMargin))
  }

  /** What the planner decided for a clip that passed the duration gate. */
  datatype Plan = Plan(
    geometry: Geometry, srt: Option<(string, string)>, ass: Option<AssRequest>, useAss: bool,
    title: Option<string>, drawtext: Option<string>, suffix: string,
    useFrame: bool, useMask: bool, logo: Option<string>, corner: Corner)

  /** A non-empty title is drawn by exactly one route: as the title event of
      the generated ASS file, or as a drawtext filter. The route follows
      whether the ASS generation succeeded, not whether its file is found
      later: when it succeeded and the file is then missing, neither route
      draws the title, as in `edit_clip` itself. */
  predicate OneTitleRoute(p: Plan)
  {
    p.title.Some? ==> (p.useAss && p.ass.Some? && p.ass.value.title == p.title) != p.drawtext.Some?
  }

  /** The stages of `edit_clip` after the post call: feed, then reels and its watermark. */
  function EditStages(ffmpeg: string, post: Call, feed: Option<Call>, reelsOut: Option<string>,
                      watermark: Option<string>, watermarkExists: bool, watermarkOut: string): seq<Stage>
  {
    [Run("instagram_post", Args(ffmpeg, post))]
    + (if feed.Some? then [Run("feed", Args(ffmpeg, feed.value))] else [])
    + (if reelsOut.Some? then
         [Run("reels", Args(ffmpeg, post.(out := reelsOut.value)))]
         + (if watermark.Some? then
              [Require(watermarkExists, "watermark not found: " + watermark.value),
               Run("watermark", Args(ffmpeg, WatermarkCall(reelsOut.value, watermark.value, post.codec, watermarkOut)))]
            else [])
       else [])
  }

  /** Stage order: post, feed when asked, reels when asked, and the
      watermark (after its existence check) only with reels. */
  lemma EditStagesOrder(ffmpeg: string, post: Call, feed: Option<Call>, reelsOut: Option<string>,
                        watermark: Option<string>, watermarkExists: bool, watermarkOut: string)
    ensures var s := EditStages(ffmpeg, post, feed, reelsOut, watermark, watermarkExists, watermarkOut);
      |s| == 1 + (if feed.Some? then 1 else 0)
               + (if reelsOut.Some? then 1 + (if watermark.Some? then 2 else 0) else 0)
      && s[0] == Run("instagram_post", Args(ffmpeg, post))
    ensures var s := EditStages(ffmpeg, post, feed, reelsOut, watermark, watermarkExists, watermarkOut);
      (exists k :: 0 <= k < |s| && s[k].Require?) <==> reelsOut.Some? && watermark.Some?
  {
    var s := EditStages(ffmpeg, post, feed, reelsOut, watermark, watermarkExists, watermarkOut);
    if reelsOut.Some? && watermark.Some? {
      var r := if feed.Some? then 2 else 1;
      assert s[r + 1].Require?;
    }
  }

  /** Two calls that differ only in their output give argument lists that
      differ only in the last element. */
  lemma ArgsOutOnly(ffmpeg: string, c: Call, out: string)
    ensures var a, b := Args(ffmpeg, c), Args(ffmpeg, c.(out := out));
      |a| == |b| && 0 < |a| && a[..|a| - 1] == b[..|b| - 1] && b[|b| - 1] == out
  {
    var a, b := Args(ffmpeg, c), Args(ffmpeg, c.(out := out));
    var h := [ffmpeg, "-y"] + InputArgs(c.inputs) + GraphArgs(c.graph) + c.codec;
    assert a == h + [c.out] && b == h + [out];
    assert a[..|a| - 1] == h == b[..|b| - 1];
  }

  /** Reels repeats the post call with only the output changed. */
  lemma EditStagesReels(ffmpeg: string, post: Call, feed: Option<Call>, reelsOut: Option<string>,
                        watermark: Option<string>, watermarkExists: bool, watermarkOut: string)
    requires reelsOut.Some?
    ensures var s := EditStages(ffmpeg, post, feed, reelsOut, watermark, watermarkExists, watermarkOut);
      var r := if feed.Some? then 2 else 1;
      r < |s| && s[r].Run? && s[r].name == "reels"
      && s[r].args[..|s[r].args| - 1] == s[0].args[..|s[0].args| - 1]
      && s[r].args[|s[r].args| - 1] == reelsOut.value
  {
    ArgsOutOnly(ffmpeg, post, reelsOut.value);
  }

  /** The subtitle field read: `subtitles`, else `captions`. */
  function CueField(src: Source): SubsUtils.SubsField
  {
    if src.subtitles.Falsy? then src.captions else src.subtitles
  }

  function SrtPathOf(opts: Options, slug: string): string { PathJoin(opts.downloadsDir, slug + ".srt") }
  function AssPathOf(opts: Options, slug: string): string { PathJoin(opts.downloadsDir, slug + ".ass") }

  /** The fonts directory handed to the subtitle filter: the clip's `fonts`
      directory when the font file exists and was copied there. */
  function FontsDirOf(opts: Options, w: World, clipOut: string): Option<string>
  {
    if opts.fontFile != "" && w.fontExists && w.fontCopied then Some(PathJoin(clipOut, "fonts")) else None
  }

  /** The font file of the drawtext title, when it exists. */
  function FontfileOf(opts: Options, w: World): Option<string>
  {
    if opts.fontFile != "" && w.fontExists then Some(opts.fontFile) else None
  }

  /** The subtitle files handed to the text suffix: the ASS path is dropped
      when its generation failed, the SRT path is there only when cues were
      written, and each comes with whether its file is found. */
  function TextSubs(downloadsDir: string, slug: string, srt: Option<(string, string)>, useAss: bool,
                    assExists: bool, srtExists: bool): SubsFiles
  {
    SubsFiles(useAss, if srt.Some? && !useAss then None else Some(PathJoin(downloadsDir, slug + ".ass")),
              assExists, if srt.Some? then Some(srt.value.0) else None, srtExists)
  }

  /** The subtitle files of a clip: the SRT file is written when the field
      has cues, and only then is the ASS generation asked for (with the
      given style, title and duration); the ASS file is used exactly when
      that generation succeeded (`assOk`). */
  method PlanSubtitles(downloadsDir: string, slug: string, field: SubsUtils.SubsField, assOk: bool,
                       font: string, size: int, marginv: int, margins: int,
                       title: Option<string>, titleSize: int, titleY: int, dur: real)
    returns (srt: Option<(string, string)>, ass: Option<AssRequest>, useAss: bool)
    ensures srt.Some? <==> |SubsUtils.Cues(field)| > 0
    ensures srt.Some? ==> srt.value == (PathJoin(downloadsDir, slug + ".srt"), Join(SubsUtils.SrtLines(SubsUtils.Cues(field)), "\n"))
    ensures ass.Some? <==> srt.Some?
    ensures ass.Some? ==>
      ass.value == AssRequest(srt.value.0, PathJoin(downloadsDir, slug + ".ass"), font, size, marginv, margins,
                              title, titleSize, titleY, dur)
    ensures useAss <==> ass.Some? && assOk
  {
    var cues := SubsUtils.ParseSubsField(field);
    srt := None;
    if |cues| > 0 {
      var content := SubsUtils.WriteSrt(cues);
      srt := Some((PathJoin(downloadsDir, slug + ".srt"), content));
    }
    useAss := false;
    ass := None;
    if srt.Some? {
      ass := Some(AssRequest(srt.value.0, PathJoin(downloadsDir, slug + ".ass"), font, size, marginv, margins,
                             title, titleSize, titleY, dur));
      useAss := assOk;
    }
  }

  /** The file-system and tool steps after the duration gate that decide the
      text: SRT written when there are cues, ASS attempted only then, the
      drawtext title only without ASS. */
  method PlanText(opts: Options, src: Source, w: World, slug: string, clipOut: string,
                  dur: real, titleY: int)
    returns (srt: Option<(string, string)>, ass: Option<AssRequest>, useAss: bool,
             title: Option<string>, drawtext: Option<string>, suffix: string)
    ensures title == TitleText(opts.titleEnable, opts.titleOverride, src)
    ensures srt.Some? <==> |SubsUtils.Cues(CueField(src))| > 0
    ensures srt.Some? ==>
      srt.value == (SrtPathOf(opts, slug), Join(SubsUtils.SrtLines(SubsUtils.Cues(CueField(src))), "\n"))
    ensures ass.Some? <==> srt.Some?
    ensures ass.Some? ==>
      ass.value == AssRequest(srt.value.0, AssPathOf(opts, slug), opts.fontFamily, opts.subtitleSize, opts.subtitleMargin,
                              Max(0, opts.sideMargin), title, TitleSize(opts.titleSize, opts.subtitleSize), titleY, dur)
    ensures useAss <==> ass.Some? && w.assOk
    ensures drawtext.Some? <==> !useAss && title.Some?
    ensures drawtext.Some? ==>
      drawtext.value == Drawtext(title.value, TitleSize(opts.titleSize, opts.subtitleSize), titleY, FontfileOf(opts, w))
    ensures suffix == Suffix(TextParts(drawtext, SubtitlePart(TextSubs(opts.downloadsDir, slug, srt, useAss, w.assExists, w.srtExists), FontsDirOf(opts, w, clipOut),
                                                              opts.fontFamily, opts.subtitleSize, opts.subtitleMargin)))
  {
    title := TitleText(opts.titleEnable, opts.titleOverride, src);
    srt, ass, useAss := PlanSubtitles(opts.downloadsDir, slug, CueField(src), w.assOk, opts.fontFamily, opts.subtitleSize,
                                      opts.subtitleMargin, Max(0, opts.sideMargin), title,
                                      TitleSize(opts.titleSize, opts.subtitleSize), titleY, dur);

    var fontsDir: Option<string> := None;
    if opts.fontFile != "" && w.fontExists {
      fontsDir := if w.fontCopied then Some(PathJoin(clipOut, "fonts")) else None;
    }

    drawtext := None;
    if !useAss && title.Some? {
      var fontfile := if opts.fontFile != "" && w.fontExists then Some(opts.fontFile) else None;
      drawtext := Some(Drawtext(title.value, TitleSize(opts.titleSize, opts.subtitleSize), titleY, fontfile));
    }

    suffix := BuildTextSuffix(TextSubs(opts.downloadsDir, slug, srt, useAss, w.assExists, w.srtExists),
                              drawtext, fontsDir, opts.fontFamily, opts.subtitleSize, opts.subtitleMargin);
  }

  /** The radius of the clip's rounded-corner asset: the clamped radius when
      one is attempted (positive request, Pillow, known height), else 0. */
  function ClipRadius(opts: Options, w: World, width: int, scaled: Option<int>, top: int): int
  {
    if opts.cornerRadius > 0 && w.pil && Known(scaled)
    then RadiusUse(opts.cornerRadius, CornerRect(VideoLeft(width), top, width, scaled.value, 1))
    else 0
  }

  /** A positive radius leaves a rectangle at least two pixels wide and high
      inside the canvas, so Pillow accepts its box. */
  lemma CornerBoxDrawable(r: Rect, radius: int)
    requires 0 <= r.x0 && 0 <= r.y0 && r.x1 <= CanvasW && r.y1 <= CanvasH
    requires 0 < radius && 2 * radius <= r.x1 - r.x0 && 2 * radius <= r.y1 - r.y0
    ensures MaskUtils.Drawable(MaskUtils.NormalizeBox(CanvasW, CanvasH, r.x0, r.y0, r.x1, r.y1, radius))
  {
    var b := MaskUtils.NormalizeBox(CanvasW, CanvasH, r.x0, r.y0, r.x1, r.y1, radius);
    assert b.x0 == r.x0 && b.x1 == r.x1 - 1;
    assert b.y0 == r.y0 && b.y1 == r.y1 - 1;
  }

  /** The rounded-corner asset: the frame whenever a positive radius is left,
      the background colour parses and the frame is saved and found; the mask
      exactly when there is no frame, a positive radius is left and the mask
      is saved. */
  method PlanCorners(opts: Options, w: World, width: int, scaled: Option<int>, top: int)
    returns (useFrame: bool, useMask: bool)
    ensures useFrame <==> ClipRadius(opts, w, width, scaled, top) > 0 && MaskUtils.ParseRgba(opts.bgColor, 255).Some?
                          && w.frameSaved && w.frameExists
    ensures useMask <==> !useFrame && ClipRadius(opts, w, width, scaled, top) > 0 && w.maskSaved
    ensures !(useFrame && useMask)
  {
    useFrame := false;
    if opts.cornerRadius > 0 && w.pil && Known(scaled) {
      var rect := CornerRect(VideoLeft(width), top, width, scaled.value, 1);
      var radius := RadiusUse(opts.cornerRadius, rect);
      if radius > 0 {
        CornerBoxDrawable(rect, radius);
        var ok, _, _ := MaskUtils.GenerateRoundedFrame(w.pil, CanvasW, CanvasH, rect.x0, rect.y0, rect.x1, rect.y1,
                                                       radius, opts.bgColor, w.inShape, w.frameSaved);
        useFrame := ok && w.frameExists;
      }
    }
    useMask := false;
    if !useFrame && opts.cornerRadius > 0 && w.pil && Known(scaled) {
      var rect := CornerRect(VideoLeft(width), top, width, scaled.value, 1);
      var radius := RadiusUse(opts.cornerRadius, rect);
      if radius > 0 {
        CornerBoxDrawable(rect, radius);
        var ok, _ := MaskUtils.GenerateRoundedMask(w.pil, CanvasW, CanvasH, rect.x0, rect.y0, rect.x1, rect.y1,
                                                   radius, w.inShape, w.maskSaved);
        useMask := ok;
      }
    }
  }

  /** What `edit_clip` decides for a clip of `dur` seconds that passed the
      duration gate: every field of the plan in terms of the options, the
      metadata and what the world reports. */
  predicate ClipPlanned(opts: Options, src: Source, w: World, slug: string, dur: real, plan: Plan)
  {
    var g := GeometryOf(opts, w.size);
    var cues := SubsUtils.Cues(CueField(src));
    var tsize := TitleSize(opts.titleSize, opts.subtitleSize);
    var radius := ClipRadius(opts, w, g.width, g.scaled, g.top);
    && plan.geometry == g
    && plan.title == TitleText(opts.titleEnable, opts.titleOverride, src)
    && (plan.srt.Some? <==> |cues| > 0)
    && (plan.srt.Some? ==> plan.srt.value == (SrtPathOf(opts, slug), Join(SubsUtils.SrtLines(cues), "\n")))
    && (plan.ass.Some? <==> plan.srt.Some?)
    && (plan.ass.Some? ==>
          plan.ass.value == AssRequest(plan.srt.value.0, AssPathOf(opts, slug), opts.fontFamily, opts.subtitleSize,
                                       opts.subtitleMargin, Max(0, opts.sideMargin), plan.title, tsize, g.titleY, dur))
    && (plan.useAss <==> plan.ass.Some? && w.assOk)
    && (plan.drawtext.Some? <==> !plan.useAss && plan.title.Some?)
    && (plan.drawtext.Some? ==> plan.drawtext.value == Drawtext(plan.title.value, tsize, g.titleY, FontfileOf(opts, w)))
    && plan.suffix == Suffix(TextParts(plan.drawtext,
                        SubtitlePart(TextSubs(opts.downloadsDir, slug, plan.srt, plan.useAss, w.assExists, w.srtExists), FontsDirOf(opts, w, PathJoin(opts.outputsDir, slug)),
                                     opts.fontFamily, opts.subtitleSize, opts.subtitleMargin)))
    && (plan.useFrame <==> radius > 0 && MaskUtils.ParseRgba(opts.bgColor, 255).Some? && w.frameSaved && w.frameExists)
    && (plan.useMask <==> !plan.useFrame && radius > 0 && w.maskSaved)
    && plan.logo == (if g.logoWidth.Some? then w.prepareLogo(g.logoWidth.value) else None)
    && plan.corner == (if plan.useFrame && w.frameExists then FrameCorner
                       else if plan.useMask && w.maskExists then MaskCorner else NoCorner)
  }

  /** The description leaves no choice: two plans it admits are the same plan. */
  lemma ClipPlannedUnique(opts: Options, src: Source, w: World, slug: string, dur: real, p: Plan, q: Plan)
    requires ClipPlanned(opts, src, w, slug, dur, p) && ClipPlanned(opts, src, w, slug, dur, q)
    ensures p == q
  {
  }

  /** A planned clip draws its title by exactly one route, uses at most one
      corner asset, uses ASS only when cues were written, and the suffix
      puts the title before the subtitles. */
  lemma ClipPlannedRoutes(opts: Options, src: Source, w: World, slug: string, dur: real, plan: Plan)
    requires ClipPlanned(opts, src, w, slug, dur, plan)
    ensures OneTitleRoute(plan)
    ensures !(plan.useFrame && plan.useMask)
    ensures plan.useAss ==> plan.srt.Some?
    ensures plan.useAss && w.assExists ==>
      plan.suffix == "," + AssFilter(AssPathOf(opts, slug), FontsDirOf(opts, w, PathJoin(opts.outputsDir, slug)))
  {
    if plan.useAss && w.assExists {
      TextSuffixOrder(plan.drawtext, Some(AssFilter(AssPathOf(opts, slug), FontsDirOf(opts, w, PathJoin(opts.outputsDir, slug)))));
    }
  }

  /** The planning part of `edit_clip` after the duration gate: layout,
      text, corner asset and logo. */
  method PlanClip(opts: Options, src: Source, w: World, slug: string, dur: real) returns (plan: Plan)
    ensures ClipPlanned(opts, src, w, slug, dur, plan)
  {
    var clipOut := PathJoin(opts.outputsDir, slug);
    var g := GeometryOf(opts, w.size);

    var srt, ass, useAss, title, drawtext, suffix := PlanText(opts, src, w, slug, clipOut, dur, g.titleY);
    var useFrame, useMask := PlanCorners(opts, w, g.width, g.scaled, g.top);

    var logo := if g.logoWidth.Some? then w.prepareLogo(g.logoWidth.value) else None;
    var corner := if useFrame && w.frameExists then FrameCorner
                  else if useMask && w.maskExists then MaskCorner
                  else NoCorner;
    plan := Plan(g, srt, ass, useAss, title, drawtext, suffix, useFrame, useMask, logo, corner);
  }

  /** The post call of a plan; the logo is used only when its file exists. */
  function PlanPost(opts: Options, w: World, slug: string, plan: Plan): Call
  {
    PostCall(w.video, plan.corner, CornerPath(opts, slug, plan.corner),
             if plan.logo.Some? && w.logoExists then plan.logo else None,
             plan.geometry.width, opts.bgColor, plan.geometry.logoPos.0, plan.geometry.logoPos.1, plan.suffix,
             VEncoderArgs(opts.videoEncoder, opts.nvencPreset, opts.nvencCq, opts.nvencGpu),
             Renditions(opts.outputsDir, slug, opts.produceFeed, opts.produceReels).post)
  }

  /** The ffmpeg stages of a plan, in the order `edit_clip` runs them. */
  function PlanStages(opts: Options, w: World, slug: string, plan: Plan): seq<Stage>
  {
    var out := Renditions(opts.outputsDir, slug, opts.produceFeed, opts.produceReels);
    var venc := VEncoderArgs(opts.videoEncoder, opts.nvencPreset, opts.nvencCq, opts.nvencGpu);
    EditStages(opts.ffmpeg, PlanPost(opts, w, slug, plan),
               if out.feed.Some? then Some(FeedCall(w.video, plan.suffix, venc, out.feed.value)) else None,
               out.reels, opts.watermark, w.watermarkExists,
               PathJoin(PathJoin(opts.outputsDir, slug), slug + "_reels_wm.mp4"))
  }

  /** A run of a plan's stages: the commands tried, and the failure record
      of the first failing stage or the success record. */
  predicate RanPlan(opts: Options, w: World, slug: string, plan: Plan, dur: real,
                    outcome: Outcome, ran: seq<seq<string>>)
  {
    var stages := PlanStages(opts, w, slug, plan);
    && ran == Commands(Tried(stages, w.run))
    && outcome == if FirstError(stages, w.run).Some? then Failure(FirstError(stages, w.run).value, slug, None)
                  else Success(slug, dur, Renditions(opts.outputsDir, slug, opts.produceFeed, opts.produceReels), PathJoin(opts.downloadsDir, slug + ".json"))
  }

  /** Runs a plan's stages and builds the record. */
  method RunPlan(opts: Options, w: World, slug: string, plan: Plan, dur: real)
    returns (outcome: Outcome, ran: seq<seq<string>>)
    ensures RanPlan(opts, w, slug, plan, dur, outcome, ran)
    ensures outcome.slug == slug
  {
    var stages := PlanStages(opts, w, slug, plan);
    var err;
    err, ran := RunStages(stages, w.run);
    if err.Some? {
      return Failure(err.value, slug, None), ran;
    }
    outcome := Success(slug, dur, Renditions(opts.outputsDir, slug, opts.produceFeed, opts.produceReels), PathJoin(opts.downloadsDir, slug + ".json"));
  }

  /** `edit_clip`: the duration gate, the plan, and the stages run in order;
      `ran` lists the ffmpeg argument lists that were run. */
  method EditClip(opts: Options, src: Source, w: World)
    returns (outcome: Outcome, plan: Plan, ran: seq<seq<string>>)
    ensures outcome.slug == ClipSlug(src, w)
    ensures w.duration.None? ==> outcome == Failure("ffprobe missing or failed", ClipSlug(src, w), None) && ran == []
    ensures w.duration.Some? && w.duration.value < opts.minDuration as real ==>
      outcome == Failure(TooShort(w.showReal(w.duration.value)), ClipSlug(src, w), w.duration) && ran == []
    ensures w.duration.Some? && w.duration.value >= opts.minDuration as real ==>
      && ClipPlanned(opts, src, w, ClipSlug(src, w), w.duration.value, plan)
      && RanPlan(opts, w, ClipSlug(src, w), plan, w.duration.value, outcome, ran)
  {
    var slug := ClipSlug(src, w);
    ran := [];
    if w.duration.None? || w.duration.value < opts.minDuration as real {
      plan := Plan(Geometry(0, None, 0, 0, None, (0, 0)), None, None, false, None, None, "", false, false, None, NoCorner);
      if w.duration.None? {
        return Failure("ffprobe missing or failed", slug, None), plan, ran;
      }
      return Failure(TooShort(w.showReal(w.duration.value)), slug, w.duration), plan, ran;
    }
    var dur := w.duration.value;
    plan := PlanClip(opts, src, w, slug, dur);
    outcome, ran := RunPlan(opts, w, slug, plan, dur);
  }
}
