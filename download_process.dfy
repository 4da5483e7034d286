/** `process_hit` and the candidate selection of `main` in
    download_and_process.py: the older variant of the clip planner. It
    downloads the clip, gates on its duration, renders the title and the
    subtitles inside one content chain, optionally masks that chain with
    rounded corners, and runs the same post, feed, reels and watermark
    stages as `edit_clip`. The network, the probes and ffmpeg are
    parameters, as in the newer planner. */
module DownloadProcess {

  import opened Strings
  import opened Layout
  import SubsUtils
  import MaskUtils
  import opened ClipEdit

  // ---------------------------------------------------------------------
  // Content chain

  /** The text written after `base`: a comma before each part. */
  lemma {:induction false} CommaEachAppend(parts: seq<string>, x: string)
    ensures CommaEach(parts + [x]) == CommaEach(parts) + "," + x
  {
    if |parts| == 0 {
      assert [] + [x] == [x];
      assert CommaEach([x]) == "," + x + CommaEach([]);
    } else {
      assert (parts + [x])[1..] == parts[1..] + [x];
      CommaEachAppend(parts[1..], x);
      assert CommaEach(parts + [x]) == "," + parts[0] + (CommaEach(parts[1..]) + "," + x);
    }
  }

  /** One `chain += "," + part` step, seen on the parts. */
  lemma ChainStep(base: string, parts: seq<string>, x: string)
    ensures base + CommaEach(parts) + "," + x == base + CommaEach(parts + [x])
  {
    CommaEachAppend(parts, x);
  }

  /** `build_content_filter_chain`: the base snippet, then `,drawtext…` when
      there is a title, then the ASS subtitles when ASS is used and its file
      exists, else the SRT subtitles with the forced style when that file
      exists. The chain is the base followed by exactly the text suffix
      that `edit_clip` builds from the same parts. */
  method BuildContentFilterChain(base: string, f: SubsFiles, drawtext: Option<string>, fontsDir: Option<string>,
                                 family: string, size: int, margin: int)
    returns (chain: string)
    ensures chain == base + Suffix(TextParts(drawtext, SubtitlePart(f, fontsDir, family, size, margin)))
  {
    chain := base;
    ghost var parts: seq<string> := [];
    assert base + CommaEach(parts) == base;
    if drawtext.Some? && drawtext.value != "" {
      ChainStep(base, parts, drawtext.value);
      chain := chain + "," + drawtext.value;
      parts := parts + [drawtext.value];
    }
    ghost var head := parts;
    ghost var sub := SubtitlePart(f, fontsDir, family, size, margin);
    TextPartsAfter(drawtext, sub, head);
    if f.useAss && f.assPath.Some? && f.assExists {
      var part;
      if fontsDir.Some? {
        part := "subtitles=" + f.assPath.value + ":fontsdir=" + fontsDir.value;
      } else {
        part := "ass=" + f.assPath.value;
      }
      assert part == AssFilter(f.assPath.value, fontsDir);
      ChainStep(base, parts, part);
      chain := chain + "," + part;
      parts := parts + [part];
    } else if f.srtPath.Some? && f.srtExists {
      var forceStyle := ForceStyle(family, size, margin);
      var part;
      if fontsDir.Some? {
        part := "subtitles=" + f.srtPath.value + ":force_style='" + forceStyle + "':fontsdir=" + fontsDir.value;
      } else {
        part := "subtitles=" + f.srtPath.value + ":force_style='" + forceStyle + "'";
      }
      assert part == SrtFilter(f.srtPath.value, forceStyle, fontsDir);
      ChainStep(base, parts, part);
      chain := chain + "," + part;
      parts := parts + [part];
    }
    SuffixIsCommaEach(parts);
  }

  // ---------------------------------------------------------------------
  // Rounded-corner mask

  /** The video rectangle of `process_hit`: right and bottom edges clamped to
      [0, canvas] (the newer planner clamps them to [1, canvas]). */
  function HitMaskRect(width: int, top: int, scaled: int): (r: Rect)
    ensures 0 <= r.x1 <= CanvasW && 0 <= r.y1 <= CanvasH
  {
    CornerRect(VideoLeft(width), top, width, scaled, 0)
  }

  /** The box `process_hit`'s own `generate_rounded_mask` draws: the
      rectangle's exclusive right and bottom edges handed to Pillow, whose
      boxes are inclusive, unchanged. */
  function HitMaskBox(r: Rect, radius: int): MaskUtils.Box
  {
    MaskUtils.Box(r.x0, r.y0, r.x1, r.y1, radius)
  }

  /** `generate_rounded_mask` of download_and_process.py, as written: a black
      1080x1920 image with the rounded box drawn white. */
  method GenerateHitMask(pil: bool, r: Rect, radius: int, inShape: (MaskUtils.Box, int, int) -> bool, saved: bool)
    returns (ok: bool, alpha: array2<int>)
    ensures ok <==> pil && MaskUtils.Drawable(HitMaskBox(r, radius)) && saved
    ensures ok ==> alpha.Length0 == CanvasH && alpha.Length1 == CanvasW
                   && forall y, x :: 0 <= y < CanvasH && 0 <= x < CanvasW ==>
                        alpha[y, x] == MaskUtils.MaskAlpha(HitMaskBox(r, radius), inShape, x, y)
  {
    alpha := new int[0, 0];
    if !pil {
      return false, alpha;
    }
    alpha := MaskUtils.NewAlpha(CanvasW, CanvasH, 0);
    var b := HitMaskBox(r, radius);
    if !MaskUtils.Drawable(b) {
      return false, alpha;
    }
    MaskUtils.FillRoundedRect(alpha, b, inShape, 255);
    ok := saved;
  }

  /** The mask as written keeps one column beyond the video: a 1040-wide
      clip at left 20 covers columns 20..1059, yet column 1060 of the mask is
      white halfway down the right edge, where any rounded shape is filled;
      the corrected box leaves it black. */
  lemma HitMaskOneTooWide(inShape: (MaskUtils.Box, int, int) -> bool)
    requires inShape(HitMaskBox(Rect(20, 667, 1060, 1252), 40), 1060, 900)
    ensures HitMaskRect(1040, 667, 585) == Rect(20, 667, 1060, 1252)
    ensures MaskUtils.MaskAlpha(HitMaskBox(Rect(20, 667, 1060, 1252), 40), inShape, 1060, 900) == 255
    ensures MaskUtils.MaskAlpha(MaskUtils.NormalizeBox(CanvasW, CanvasH, 20, 667, 1060, 1252, 40), inShape, 1060, 900) == 0
  {
  }

  /** With the edges made inclusive (the corrected mask, as mask_utils.py
      draws it), no pixel outside the video rectangle is ever kept. */
  lemma FixedMaskInsideVideo(r: Rect, radius: int, inShape: (MaskUtils.Box, int, int) -> bool, x: int, y: int)
    requires 0 <= r.x0 < r.x1 <= CanvasW && 0 <= r.y0 < r.y1 <= CanvasH && radius >= 0
    requires x < r.x0 || x >= r.x1 || y < r.y0 || y >= r.y1
    ensures MaskUtils.MaskAlpha(MaskUtils.NormalizeBox(CanvasW, CanvasH, r.x0, r.y0, r.x1, r.y1, radius), inShape, x, y) == 0
  {
    MaskUtils.NormalizeInside(CanvasW, CanvasH, r.x0, r.y0, r.x1, r.y1, radius);
  }

  /** The mask stages: the content chain, the scaled mask as alpha, over black. */
  const MaskTail := "[1:v]scale=1080:1920[mask];[vsub][mask]alphamerge[va];color=c=black:s=1080x1920[bg];[bg][va]overlay=format=auto[final]"

  function MaskGraph(chain: string): string
  {
    "[0:v]" + chain + "[vsub];" + MaskTail
  }

  /** The fixed codec arguments of `process_hit`, with the given CRF. */
  function HitCodec(crf: string): seq<string>
  {
    ["-c:v", "libx264", "-preset", "fast", "-crf", crf, "-c:a", "aac", "-b:a", "128k"]
  }

  // ---------------------------------------------------------------------
  // process_hit

  /** The options of `process_hit`; an absent title override or font file is "". */
  datatype HitOptions = HitOptions(
    minDuration: int, downloadsDir: string, outputsDir: string, ffmpeg: string,
    subtitleSize: int, subtitleMargin: int, sideMargin: int,
    produceFeed: bool, produceReels: bool, watermark: Option<string>,
    titleEnable: bool, titleOverride: string, titleSize: Option<int>, titleMarginTop: Option<int>,
    fontFile: string, fontFamily: string, cornerRadius: int)

  /** A metadata value as JSON gives it: absent or null, a number, or text. */
  datatype MetaValue = Missing | Number(n: real) | Text(s: string)

  /** A search hit's `_source`: the clip metadata, the download URL ("" when
      absent) and the metadata duration. A hit without `_source` is a hit
      whose fields are all absent. */
  datatype Hit = Hit(src: Source, download: string, duration: MetaValue)

  /** What `process_hit` learns from outside: the clock, the download's
      error, the probes, Pillow, which files exist or were saved, the mask's
      pixel test, ffmpeg's outcome and how Python prints a float. */
  datatype HitWorld = HitWorld(
    now: nat, downloadError: Option<string>, duration: Option<real>, size: Option<(int, int)>,
    pil: bool, fontExists: bool, fontCopied: bool,
    assOk: bool, assExists: bool, srtExists: bool,
    maskSaved: bool, maskExists: bool, inShape: (MaskUtils.Box, int, int) -> bool,
    watermarkExists: bool, run: Ffmpeg, showReal: real -> string)

  /** The file-system steps of `process_hit`, in order. */
  datatype Effect =
    | WriteMeta(path: string)
    | Download(url: string, path: string)
    | Unlink(path: string)
    | WriteFile(path: string, content: string)
    | MakeDir(path: string)

  /** The slug: the metadata slug or title, else `clip_<now>`, made safe. */
  function HitSlug(src: Source, now: nat): string
  {
    SafeFilename(Or(src.slug, Or(src.title, "clip_" + NatToString(now))), now)
  }

  /** What `process_hit` decided once the clip passed the duration gate. */
  datatype HitPlan = HitPlan(
    width: int, scaled: Option<int>, top: int, titleY: int,
    title: Option<string>, srt: Option<(string, string)>, ass: Option<AssRequest>, useAss: bool,
    drawtext: Option<string>, subs: SubsFiles, fontsDir: Option<string>,
    useMask: bool, chain: string, feedChain: string)

  /** The SRT file, when there is one, and the directories `process_hit`
      makes before rendering: the clip's output directory, and its font
      directory when the font file exists; the font directory is used only
      when the copy into it succeeded. The ASS file and the mask image are
      written by their generators, whose outcome is part of `HitWorld`. */
  method HitFiles(opts: HitOptions, w: HitWorld, slug: string, srt: Option<(string, string)>)
    returns (fontsDir: Option<string>, effects: seq<Effect>)
    ensures effects == (if srt.Some? then [WriteFile(srt.value.0, srt.value.1)] else [])
                       + [MakeDir(PathJoin(opts.outputsDir, slug))]
                       + (if opts.fontFile != "" && w.fontExists then [MakeDir(PathJoin(PathJoin(opts.outputsDir, slug), "fonts"))] else [])
    ensures fontsDir.Some? <==> opts.fontFile != "" && w.fontExists && w.fontCopied
    ensures fontsDir.Some? ==> fontsDir.value == PathJoin(PathJoin(opts.outputsDir, slug), "fonts")
  {
    effects := if srt.Some? then [WriteFile(srt.value.0, srt.value.1)] else [];
    var clipOut := PathJoin(opts.outputsDir, slug);
    effects := effects + [MakeDir(clipOut)];
    fontsDir := None;
    if opts.fontFile != "" && w.fontExists {
      effects := effects + [MakeDir(PathJoin(clipOut, "fonts"))];
      fontsDir := if w.fontCopied then Some(PathJoin(clipOut, "fonts")) else None;
    }
  }

  /** The font file of the drawtext title, when it exists. */
  function HitFontfile(opts: HitOptions, w: HitWorld): Option<string>
  {
    if opts.fontFile != "" && w.fontExists then Some(opts.fontFile) else None
  }

  /** Title and subtitles of `process_hit`: the SRT file when there are
      cues, then the ASS attempt and the drawtext title, as in `edit_clip`. */
  method PlanHitText(opts: HitOptions, src: Source, w: HitWorld, slug: string, titleY: int, dur: real)
    returns (title: Option<string>, srt: Option<(string, string)>, ass: Option<AssRequest>, useAss: bool,
             drawtext: Option<string>, subs: SubsFiles)
    ensures title == TitleText(opts.titleEnable, opts.titleOverride, src)
    ensures srt.Some? <==> |SubsUtils.Cues(CueField(src))| > 0
    ensures srt.Some? ==> srt.value == (PathJoin(opts.downloadsDir, slug + ".srt"),
                                        Join(SubsUtils.SrtLines(SubsUtils.Cues(CueField(src))), "\n"))
    ensures ass.Some? <==> srt.Some?
    ensures ass.Some? ==>
      ass.value == AssRequest(srt.value.0, PathJoin(opts.downloadsDir, slug + ".ass"), opts.fontFamily, opts.subtitleSize,
                              opts.subtitleMargin, Max(0, opts.sideMargin), title,
                              TitleSize(opts.titleSize, opts.subtitleSize), titleY, dur)
    ensures useAss <==> ass.Some? && w.assOk
    ensures drawtext.Some? <==> !useAss && title.Some?
    ensures drawtext.Some? ==>
      drawtext.value == Drawtext(title.value, TitleSize(opts.titleSize, opts.subtitleSize), titleY, HitFontfile(opts, w))
    ensures subs == TextSubs(opts.downloadsDir, slug, srt, useAss, w.assExists, w.srtExists)
  {
    title := TitleText(opts.titleEnable, opts.titleOverride, src);
    srt, ass, useAss := PlanSubtitles(opts.downloadsDir, slug, CueField(src), w.assOk, opts.fontFamily, opts.subtitleSize,
                                      opts.subtitleMargin, Max(0, opts.sideMargin), title,
                                      TitleSize(opts.titleSize, opts.subtitleSize), titleY, dur);

    drawtext := None;
    if !useAss && title.Some? {
      var fontfile := if opts.fontFile != "" && w.fontExists then Some(opts.fontFile) else None;
      drawtext := Some(Drawtext(title.value, TitleSize(opts.titleSize, opts.subtitleSize), titleY, fontfile));
    }
    subs := TextSubs(opts.downloadsDir, slug, srt, useAss, w.assExists, w.srtExists);
  }

  /** The radius of `process_hit`'s mask: the clamped radius when a mask is
      attempted (positive request, Pillow, known height), else 0. */
  function HitRadius(opts: HitOptions, w: HitWorld, width: int, scaled: Option<int>, top: int): int
  {
    if opts.cornerRadius > 0 && w.pil && Known(scaled)
    then RadiusUse(opts.cornerRadius, HitMaskRect(width, top, scaled.value))
    else 0
  }

  /** The mask of `process_hit`, drawn by its own generator with the
      rectangle's exclusive edges (see the findings): made exactly when a
      positive radius is left and the image is saved. */
  method PlanHitMask(opts: HitOptions, w: HitWorld, width: int, scaled: Option<int>, top: int)
    returns (useMask: bool)
    ensures useMask <==> HitRadius(opts, w, width, scaled, top) > 0 && w.maskSaved
  {
    useMask := false;
    if opts.cornerRadius > 0 && w.pil && Known(scaled) {
      var rect := HitMaskRect(width, top, scaled.value);
      var radius := RadiusUse(opts.cornerRadius, rect);
      if radius > 0 {
        var ok, _ := GenerateHitMask(w.pil, rect, radius, w.inShape, w.maskSaved);
        useMask := ok;
      }
    }
  }

  /** What `process_hit` decides for a clip of `dur` seconds that passed the
      duration gate: every field of the plan in terms of the options, the
      metadata and what the world reports. */
  predicate HitPlanned(opts: HitOptions, src: Source, w: HitWorld, slug: string, dur: real, plan: HitPlan)
  {
    var width := TargetWidth(opts.sideMargin);
    var scaled := ScaledHeight(w.size, width);
    var top := VideoTop(scaled);
    var titleY := TitleY(top, opts.titleMarginTop);
    var tsize := TitleSize(opts.titleSize, opts.subtitleSize);
    var clipOut := PathJoin(opts.outputsDir, slug);
    var text := Suffix(TextParts(plan.drawtext, SubtitlePart(plan.subs, plan.fontsDir, opts.fontFamily,
                                                            opts.subtitleSize, opts.subtitleMargin)));
    && plan.width == width && plan.scaled == scaled && plan.top == top && plan.titleY == titleY
    && plan.title == TitleText(opts.titleEnable, opts.titleOverride, src)
    && (plan.srt.Some? <==> |SubsUtils.Cues(CueField(src))| > 0)
    && (plan.srt.Some? ==> plan.srt.value == (PathJoin(opts.downloadsDir, slug + ".srt"), Join(SubsUtils.SrtLines(SubsUtils.Cues(CueField(src))), "\n")))
    && (plan.ass.Some? <==> plan.srt.Some?)
    && (plan.ass.Some? ==>
          plan.ass.value == AssRequest(plan.srt.value.0, PathJoin(opts.downloadsDir, slug + ".ass"), opts.fontFamily,
                                       opts.subtitleSize, opts.subtitleMargin, Max(0, opts.sideMargin), plan.title, tsize, titleY, dur))
    && (plan.useAss <==> plan.ass.Some? && w.assOk)
    && (plan.drawtext.Some? <==> !plan.useAss && plan.title.Some?)
    && (plan.drawtext.Some? ==> plan.drawtext.value == Drawtext(plan.title.value, tsize, titleY, HitFontfile(opts, w)))
    && plan.subs == TextSubs(opts.downloadsDir, slug, plan.srt, plan.useAss, w.assExists, w.srtExists)
    && plan.fontsDir == (if opts.fontFile != "" && w.fontExists && w.fontCopied then Some(PathJoin(clipOut, "fonts")) else None)
    && (plan.useMask <==> HitRadius(opts, w, width, scaled, top) > 0 && w.maskSaved)
    && plan.chain == BaseSnippet(width) + text
    && plan.feedChain == FeedSnippet + text
  }

  /** The description leaves no choice: two plans it admits are the same plan. */
  lemma HitPlannedUnique(opts: HitOptions, src: Source, w: HitWorld, slug: string, dur: real, p: HitPlan, q: HitPlan)
    requires HitPlanned(opts, src, w, slug, dur, p) && HitPlanned(opts, src, w, slug, dur, q)
    ensures p == q
  {
  }

  /** A planned hit draws its title by exactly one route and, when the ASS
      file is used and found, its chain ends in the ASS filter alone. */
  lemma HitPlannedRoutes(opts: HitOptions, src: Source, w: HitWorld, slug: string, dur: real, plan: HitPlan)
    requires HitPlanned(opts, src, w, slug, dur, plan)
    ensures plan.title.Some? ==> (plan.useAss && plan.ass.value.title == plan.title) != plan.drawtext.Some?
    ensures plan.useAss && w.assExists ==>
      plan.chain == BaseSnippet(plan.width) + "," + AssFilter(PathJoin(opts.downloadsDir, slug + ".ass"), plan.fontsDir)
  {
    if plan.useAss && w.assExists {
      var ass := AssFilter(PathJoin(opts.downloadsDir, slug + ".ass"), plan.fontsDir);
      assert plan.subs.assPath == Some(PathJoin(opts.downloadsDir, slug + ".ass"));
      assert AssUsable(plan.subs);
      assert SubtitlePart(plan.subs, plan.fontsDir, opts.fontFamily, opts.subtitleSize, opts.subtitleMargin) == Some(ass);
      assert plan.drawtext.None?;
      TextSuffixOrder(plan.drawtext, Some(ass));
    }
  }

  /** The planning part of `process_hit` after the duration gate. */
  method PlanHit(opts: HitOptions, src: Source, w: HitWorld, slug: string, dur: real)
    returns (plan: HitPlan, effects: seq<Effect>)
    ensures HitPlanned(opts, src, w, slug, dur, plan)
    ensures MakeDir(PathJoin(opts.outputsDir, slug)) in effects
  {
    var width := TargetWidth(opts.sideMargin);
    var scaled := ScaledHeight(w.size, width);
    var top := VideoTop(scaled);
    var titleY := TitleY(top, opts.titleMarginTop);
    var title, srt, ass, useAss, drawtext, subs := PlanHitText(opts, src, w, slug, titleY, dur);
    var fontsDir;
    fontsDir, effects := HitFiles(opts, w, slug, srt);
    var useMask := PlanHitMask(opts, w, width, scaled, top);
    var chain := BuildContentFilterChain(BaseSnippet(width), subs, drawtext, fontsDir,
                                         opts.fontFamily, opts.subtitleSize, opts.subtitleMargin);
    var feedChain := BuildContentFilterChain(FeedSnippet, subs, drawtext, fontsDir,
                                             opts.fontFamily, opts.subtitleSize, opts.subtitleMargin);
    plan := HitPlan(width, scaled, top, titleY, title, srt, ass, useAss, drawtext, subs, fontsDir,
                    useMask, chain, feedChain);
  }

  /** The post call of `process_hit`: the masked graph over the clip and the
      mask when the mask was made and exists, else the plain `-vf` chain. */
  function HitPost(opts: HitOptions, w: HitWorld, slug: string, plan: HitPlan): Call
  {
    var video := PathJoin(opts.downloadsDir, slug + ".mp4");
    var out := Renditions(opts.outputsDir, slug, opts.produceFeed, opts.produceReels).post;
    if plan.useMask && w.maskExists then
      Call([video, PathJoin(PathJoin(opts.outputsDir, slug), "mask_1080x1920.png")],
           FilterComplex(MaskGraph(plan.chain)), HitCodec("23"), out)
    else Call([video], Vf(plan.chain), HitCodec("23"), out)
  }

  /** The stages of `process_hit`: post, feed (CRF 22, never masked), reels
      (the post call with another output) and the watermark. */
  function HitStages(opts: HitOptions, w: HitWorld, slug: string, plan: HitPlan): seq<Stage>
  {
    var out := Renditions(opts.outputsDir, slug, opts.produceFeed, opts.produceReels);
    var video := PathJoin(opts.downloadsDir, slug + ".mp4");
    EditStages(opts.ffmpeg, HitPost(opts, w, slug, plan),
               if out.feed.Some? then Some(Call([video], Vf(plan.feedChain), HitCodec("22"), out.feed.value)) else None,
               out.reels, opts.watermark, w.watermarkExists,
               PathJoin(PathJoin(opts.outputsDir, slug), slug + "_reels_wm.mp4"))
  }

  /** The masked post graph keeps the whole content chain, text included,
      inside `[0:v]…[vsub]`, and only the masked form is mapped. */
  lemma HitPostShape(opts: HitOptions, w: HitWorld, slug: string, plan: HitPlan)
    ensures var c := HitPost(opts, w, slug, plan);
      (c.graph.FilterComplex? <==> plan.useMask && w.maskExists)
      && (c.graph.FilterComplex? ==> |c.inputs| == 2 && c.graph.filter == "[0:v]" + plan.chain + "[vsub];" + MaskTail)
      && (!c.graph.FilterComplex? ==> c.inputs == [PathJoin(opts.downloadsDir, slug + ".mp4")] && c.graph == Vf(plan.chain))
  {
  }

  /** A run of the stages of a plan and the record it yields. */
  predicate RanHit(opts: HitOptions, w: HitWorld, slug: string, plan: HitPlan, dur: real,
                   outcome: Outcome, ran: seq<seq<string>>)
  {
    var stages := HitStages(opts, w, slug, plan);
    && ran == Commands(Tried(stages, w.run))
    && outcome == if FirstError(stages, w.run).Some? then Failure(FirstError(stages, w.run).value, slug, None)
                  else Success(slug, dur, Renditions(opts.outputsDir, slug, opts.produceFeed, opts.produceReels),
                               PathJoin(opts.downloadsDir, slug + ".json"))
  }

  /** Runs the stages of a plan and builds the record. */
  method RunHitPlan(opts: HitOptions, w: HitWorld, slug: string, plan: HitPlan, dur: real)
    returns (outcome: Outcome, ran: seq<seq<string>>)
    ensures RanHit(opts, w, slug, plan, dur, outcome, ran)
    ensures outcome.slug == slug
  {
    var stages := HitStages(opts, w, slug, plan);
    var err;
    err, ran := RunStages(stages, w.run);
    if err.Some? {
      return Failure(err.value, slug, None), ran;
    }
    outcome := Success(slug, dur, Renditions(opts.outputsDir, slug, opts.produceFeed, opts.produceReels),
                       PathJoin(opts.downloadsDir, slug + ".json"));
  }

  /** Everything after the duration gate, following the metadata write and
      the download: plan the clip, then run its stages. */
  method RenderHit(opts: HitOptions, src: Source, w: HitWorld, slug: string, dur: real, meta: Effect, fetch: Effect)
    returns (outcome: Outcome, plan: HitPlan, effects: seq<Effect>, ran: seq<seq<string>>)
    ensures |effects| > 2 && effects[0] == meta && effects[1] == fetch
    ensures MakeDir(PathJoin(opts.outputsDir, slug)) in effects
    ensures outcome.slug == slug
    ensures HitPlanned(opts, src, w, slug, dur, plan)
    ensures RanHit(opts, w, slug, plan, dur, outcome, ran)
  {
    var planEffects;
    plan, planEffects := PlanHit(opts, src, w, slug, dur);
    outcome, ran := RunHitPlan(opts, w, slug, plan, dur);
    effects := [meta, fetch] + planEffects;
    assert effects[2..] == planEffects;
  }

  /** `process_hit`: the metadata file first, then the download, the
      duration gate (which deletes the download), the plan and the stages. */
  method ProcessHit(opts: HitOptions, hit: Hit, w: HitWorld)
    returns (outcome: Outcome, plan: HitPlan, effects: seq<Effect>, ran: seq<seq<string>>)
    ensures outcome.slug == HitSlug(hit.src, w.now)
    ensures |effects| > 0 && effects[0] == WriteMeta(PathJoin(opts.downloadsDir, HitSlug(hit.src, w.now) + ".json"))
    ensures hit.download == "" ==> outcome == Failure("no download url", HitSlug(hit.src, w.now), None)
                                   && effects == [effects[0]] && ran == []
    ensures hit.download != "" ==>
      |effects| > 1 && effects[1] == Download(hit.download, PathJoin(opts.downloadsDir, HitSlug(hit.src, w.now) + ".mp4"))
    ensures hit.download != "" && w.downloadError.Some? ==>
      outcome == Failure("download failed: " + w.downloadError.value, HitSlug(hit.src, w.now), None)
      && |effects| == 2 && ran == []
    ensures hit.download != "" && w.downloadError.None? && w.duration.None? ==>
      outcome == Failure("ffprobe missing or failed", HitSlug(hit.src, w.now), None)
      && effects == [effects[0], effects[1], Unlink(PathJoin(opts.downloadsDir, HitSlug(hit.src, w.now) + ".mp4"))] && ran == []
    ensures hit.download != "" && w.downloadError.None? && w.duration.Some? && w.duration.value < opts.minDuration as real ==>
      outcome == Failure(TooShort(w.showReal(w.duration.value)), HitSlug(hit.src, w.now), w.duration)
      && effects == [effects[0], effects[1], Unlink(PathJoin(opts.downloadsDir, HitSlug(hit.src, w.now) + ".mp4"))] && ran == []
    ensures hit.download != "" && w.downloadError.None? && w.duration.Some? && w.duration.value >= opts.minDuration as real ==>
      && MakeDir(PathJoin(opts.outputsDir, HitSlug(hit.src, w.now))) in effects
      && HitPlanned(opts, hit.src, w, HitSlug(hit.src, w.now), w.duration.value, plan)
      && RanHit(opts, w, HitSlug(hit.src, w.now), plan, w.duration.value, outcome, ran)
  {
    outcome, plan, effects, ran := ProcessNamedHit(opts, hit, w, HitSlug(hit.src, w.now));
  }

  /** `process_hit` once the slug is chosen. */
  method ProcessNamedHit(opts: HitOptions, hit: Hit, w: HitWorld, slug: string)
    returns (outcome: Outcome, plan: HitPlan, effects: seq<Effect>, ran: seq<seq<string>>)
    ensures outcome.slug == slug
    ensures |effects| > 0 && effects[0] == WriteMeta(PathJoin(opts.downloadsDir, slug + ".json"))
    ensures hit.download == "" ==> outcome == Failure("no download url", slug, None)
                                   && effects == [effects[0]] && ran == []
    ensures hit.download != "" ==>
      |effects| > 1 && effects[1] == Download(hit.download, PathJoin(opts.downloadsDir, slug + ".mp4"))
    ensures hit.download != "" && w.downloadError.Some? ==>
      outcome == Failure("download failed: " + w.downloadError.value, slug, None)
      && |effects| == 2 && ran == []
    ensures hit.download != "" && w.downloadError.None? && w.duration.None? ==>
      outcome == Failure("ffprobe missing or failed", slug, None)
      && effects == [effects[0], effects[1], Unlink(PathJoin(opts.downloadsDir, slug + ".mp4"))] && ran == []
    ensures hit.download != "" && w.downloadError.None? && w.duration.Some? && w.duration.value < opts.minDuration as real ==>
      outcome == Failure(TooShort(w.showReal(w.duration.value)), slug, w.duration)
      && effects == [effects[0], effects[1], Unlink(PathJoin(opts.downloadsDir, slug + ".mp4"))] && ran == []
    ensures hit.download != "" && w.downloadError.None? && w.duration.Some? && w.duration.value >= opts.minDuration as real ==>
      && MakeDir(PathJoin(opts.outputsDir, slug)) in effects
      && HitPlanned(opts, hit.src, w, slug, w.duration.value, plan)
      && RanHit(opts, w, slug, plan, w.duration.value, outcome, ran)
  {
    var video := PathJoin(opts.downloadsDir, slug + ".mp4");
    var meta := WriteMeta(PathJoin(opts.downloadsDir, slug + ".json"));
    ran := [];
    plan := HitPlan(0, None, 0, 0, None, None, None, false, None, SubsFiles(false, None, false, None, false), None,
                    false, "", "");
    if hit.download == "" {
      return Failure("no download url", slug, None), plan, [meta], ran;
    }
    var fetch := Download(hit.download, video);
    if w.downloadError.Some? {
      return Failure("download failed: " + w.downloadError.value, slug, None), plan, [meta, fetch], ran;
    }
    if w.duration.None? {
      return Failure("ffprobe missing or failed", slug, None), plan, [meta, fetch, Unlink(video)], ran;
    }
    if w.duration.value < opts.minDuration as real {
      return Failure(TooShort(w.showReal(w.duration.value)), slug, w.duration), plan, [meta, fetch, Unlink(video)], ran;
    }
    outcome, plan, effects, ran := RenderHit(opts, hit.src, w, slug, w.duration.value, meta, fetch);
  }

  // ---------------------------------------------------------------------
  // Candidate selection in main

  /** `int(meta_dur)`, none when the value is absent or does not parse. */
  function MetaInt(v: MetaValue): Option<int>
  {
    match v
    case Missing => None
    case Number(n) => Some(SubsUtils.Trunc(n))
    case Text(s) => ParseInt(s)
  }

  /** A hit is a candidate when its metadata duration is absent, unreadable
      or at least the minimum, and it has a download URL. */
  predicate Eligible(h: Hit, minDuration: int)
  {
    !(MetaInt(h.duration).Some? && MetaInt(h.duration).value < minDuration) && h.download != ""
  }

  /** How `int()` reads metadata durations: a number is truncated toward
      zero, digit text is parsed, and text that is not an integer (such as
      "12.5") is unreadable, so such a hit is kept whatever the minimum. */
  lemma MetaIntExamples(download: string, src: Source)
    ensures MetaInt(Number(12.9)) == Some(12) && MetaInt(Number(-0.5)) == Some(0)
    ensures MetaInt(Text("12")) == Some(12) && MetaInt(Text("12.5")).None?
    ensures download != "" ==> Eligible(Hit(src, download, Text("12.5")), 1000)
    ensures !Eligible(Hit(src, download, Number(9.99)), 10)
  {
    assert !IsDigit('.');
    assert "12"[..1] == "1" && "1"[..0] == "";
    assert DigitsValue("12") == 12;
  }

  /** The eligible hits, in hit order. */
  function Eligibles(hits: seq<Hit>, minDuration: int): (r: seq<Hit>)
    ensures |r| <= |hits|
    ensures forall k :: 0 <= k < |r| ==> Eligible(r[k], minDuration) && r[k] in hits
  {
    if |hits| == 0 then []
    else Eligibles(hits[..|hits| - 1], minDuration)
         + (if Eligible(hits[|hits| - 1], minDuration) then [hits[|hits| - 1]] else [])
  }

  /** Every eligible hit is kept. */
  lemma {:induction false} EligiblesComplete(hits: seq<Hit>, minDuration: int, h: Hit)
    requires h in hits && Eligible(h, minDuration)
    ensures h in Eligibles(hits, minDuration)
  {
    var n := |hits| - 1;
    if hits[n] != h {
      assert h in hits[..n] by {
        var k :| 0 <= k < |hits| && hits[k] == h;
        assert k < n && hits[..n][k] == h;
      }
      EligiblesComplete(hits[..n], minDuration, h);
    }
  }

  /** The eligible hits of a prefix are a prefix of the eligible hits. */
  lemma {:induction false} EligiblesPrefix(hits: seq<Hit>, minDuration: int, i: nat)
    requires i <= |hits|
    ensures var p := Eligibles(hits[..i], minDuration);
      |p| <= |Eligibles(hits, minDuration)| && Eligibles(hits, minDuration)[..|p|] == p
  {
    if i < |hits| {
      var n := |hits| - 1;
      assert hits[..n][..i] == hits[..i];
      EligiblesPrefix(hits[..n], minDuration, i);
    } else {
      assert hits[..i] == hits;
    }
  }

  /** One more hit extends the eligible hits by that hit when it is eligible. */
  lemma EligiblesStep(hits: seq<Hit>, minDuration: int, i: nat)
    requires i < |hits|
    ensures Eligibles(hits[..i + 1], minDuration)
      == Eligibles(hits[..i], minDuration) + (if Eligible(hits[i], minDuration) then [hits[i]] else [])
  {
    assert hits[..i + 1][..i] == hits[..i];
  }

  /** `main`'s loop as written: append the hit, then stop once the count
      reaches `max_total`. */
  method SelectCandidatesAsWritten(hits: seq<Hit>, minDuration: int, maxTotal: int) returns (cands: seq<Hit>)
    ensures var e := Eligibles(hits, minDuration);
      cands == e[..Min(|e|, Max(1, maxTotal))]
  {
    cands := [];
    var i := 0;
    while i < |hits|
      invariant 0 <= i <= |hits|
      invariant cands == Eligibles(hits[..i], minDuration)
      invariant |cands| < Max(1, maxTotal)
    {
      EligiblesStep(hits, minDuration, i);
      var h := hits[i];
      if !Eligible(h, minDuration) {
        i := i + 1;
        continue;
      }
      cands := cands + [h];
      if |cands| >= maxTotal {
        EligiblesPrefix(hits, minDuration, i + 1);
        return;
      }
      i := i + 1;
    }
    assert hits[..i] == hits;
  }

  /** With `max_total` 0 or below, the loop as written still selects one clip. */
  lemma AsWrittenSelectsOneOverCap(hits: seq<Hit>, minDuration: int, maxTotal: int)
    requires maxTotal <= 0 && |Eligibles(hits, minDuration)| > 0
    ensures var e := Eligibles(hits, minDuration);
      |e[..Min(|e|, Max(1, maxTotal))]| == 1 > maxTotal
  {
  }

  /** The selection with the cap checked before appending: never more than
      `max_total` clips, the first eligible ones in hit order. */
  method SelectCandidates(hits: seq<Hit>, minDuration: int, maxTotal: int) returns (cands: seq<Hit>)
    ensures var e := Eligibles(hits, minDuration);
      cands == e[..Min(|e|, Max(0, maxTotal))]
    ensures |cands| <= Max(0, maxTotal)
  {
    cands := [];
    var i := 0;
    while i < |hits|
      invariant 0 <= i <= |hits|
      invariant cands == Eligibles(hits[..i], minDuration)
      invariant |cands| <= Max(0, maxTotal)
    {
      if |cands| >= maxTotal {
        EligiblesPrefix(hits, minDuration, i);
        return;
      }
      EligiblesStep(hits, minDuration, i);
      var h := hits[i];
      if Eligible(h, minDuration) {
        cands := cands + [h];
      }
      i := i + 1;
    }
    assert hits[..i] == hits;
  }
}
