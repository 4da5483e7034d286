# clip.cafe clip editor — a Dafny model

clip.cafe is a set of Python scripts. They search a movie-clip catalogue,
download the clips and re-render each one for vertical social-media
formats. Each clip gets:

- a 1080x1920 post, and optionally a 1080x1080 feed version, a reels
  version and a watermarked reels version;
- a centred, scaled video with a title above it and burnt-in subtitles;
- optionally rounded corners and a logo.

This project models the planning core of that pipeline. The external
world is passed in as parameters: the network, ffprobe and ffmpeg,
Pillow and the subtitle library.

- `strings.dfy` (module `Strings`): the Python string built-ins the
  scripts rely on: `join`/`split`, `strip`, `replace`, `str(int)` and
  `int(str)`, with their round trips.
- `media_utils.dfy` (`MediaUtils`): escaping of text and font paths for
  ffmpeg's `drawtext` filter. The chained replacements are proved to be
  a per-character map that an unescape inverts.
- `subs_utils.dfy` (`SubsUtils`): the subtitle side:
  - millisecond rounding and SRT time stamps, which a reader gives back;
  - decoding the caption field, including key ordering and
    text normalisation;
  - writing SRT files, whose lines a split recovers;
  - the SRT-to-ASS conversion with its positioned title event. This
    method updates a subtitle document object in place.
- `mask_utils.dfy` (`MaskUtils`):
  - colour parsing;
  - normalising the video rectangle to Pillow's inclusive box;
  - the alpha grids of the rounded-corner mask and frame. These are
    `array2` values built by methods that fill them in place.
- `layout.dfy` (`Layout`): the canvas geometry shared by both planners:
  - content width and scaled height (with Python's round-half-even);
  - video top and title line;
  - the corner rectangle and radius;
  - the logo box.
- `clip_edit.dfy` (`ClipEdit`): `edit_clip`, the newer planner:
  - the safe slug and the encoder arguments;
  - the text suffix (drawtext title, ASS or SRT subtitles);
  - the decision table for the post filter graph (frame, mask, logo);
  - the argument lists of every ffmpeg call;
  - the stage driver that stops at the first failure;
  - the record the planner returns.
- `download_process.dfy` (`DownloadProcess`): `process_hit`, the older
  planner that downloads the clip itself, and `main`'s candidate
  selection:
  - the content chain, where the text sits inside the masked video;
  - its own mask generation;
  - the file-system steps in order;
  - the selection of hits to process.

## Model

| member | source | states |
|---|---|---|
| Strings.Strip | clip_edit_process.py:34 | `strip(chars)`: the result is no longer than the input, and neither end is a stripped character |
| Strings.StripKeepsProperty | subs_utils.py:49 | Stripping keeps every character property the input had |
| Strings.StripSlice | clip_edit_process.py:34 | `strip` cuts a run of stripped characters off each end and nothing else; it is empty exactly when every character is stripped |
| Strings.StripCounts | clip_edit_process.py:34 | Stripping keeps every other character as often as it occurs |
| Strings.ReplaceCharPointwise | clip_edit_process.py:33 | `replace(c, d)` changes exactly the positions holding `c` and keeps the length |
| Strings.ReplaceCharCount | clip_edit_process.py:33 | `replace` keeps the count of every character other than the replaced one and the replacement |
| Strings.JoinSplit | subs_utils.py:58-60 | Joining the pieces of `split(c)` with `c` gives the original text back |
| Strings.SplitJoin | subs_utils.py:58-60 | Splitting newline-free lines joined by newline recovers exactly those lines |
| Strings.SplitLength | subs_utils.py:58 | `split(c)` yields one more piece than there are `c` characters |
| Strings.IntToString | clip_edit_process.py:48 | `str(int)`: non-empty digits, with a leading minus exactly for negative values |
| Strings.ParseIntRoundTrip | download_and_process.py:721 | `int(str(i)) == i` for every integer |
| Strings.NatToStringValue | clip_edit_process.py:34 | The decimal text of a natural number reads back as that number |
| Strings.PadNatValue | subs_utils.py:21 | Zero-padding (`:02d`, `:03d`) keeps the value and reaches the width, exactly the width when the number fits |
| MediaUtils.EscapeTextIsCharMap | media_utils.py:80-83 | The four chained replacements equal escaping each character on its own: backslash, quote, colon and percent |
| MediaUtils.UnescapeEscapeText | media_utils.py:80-83 | Escaping loses nothing: the unescape reader gives the title back |
| MediaUtils.EscapeTextLength | media_utils.py:80-83 | The escaped text grows by exactly one character per special character |
| MediaUtils.EscapeFontfileIsCharMap | media_utils.py:85-86 | Font-path escaping is the per-character map for backslash and quote |
| MediaUtils.EscapeTextExample | media_utils.py:80-83 | `It's 50%: done` escapes to `It\'s 50%%\: done` |
| SubsUtils.DecimalMs | subs_utils.py:9-11 | Milliseconds rounded half up: within half a millisecond of `v*1000`, ties away from zero |
| SubsUtils.DecimalMsExact | subs_utils.py:9-11 | A whole number of milliseconds is kept exactly |
| SubsUtils.ClockDecomposes | subs_utils.py:13-21 | Hours, minutes, seconds and milliseconds lie in range and recompose to the total |
| SubsUtils.SrtTimeRoundTrip | subs_utils.py:13-21 | Reading back `HH:MM:SS,mmm` gives the milliseconds, for any non-negative time including 100 hours and more |
| SubsUtils.FloatSrtRoundTrip | subs_utils.py:13-21 | For a float time, the stamp reads back as its rounded milliseconds |
| SubsUtils.SrtTimeExamples | subs_utils.py:13-21 | 1.5 s prints as `00:00:01,500` and 3.25 s as `00:00:03,250` |
| SubsUtils.CueDefaults | subs_utils.py:40-49 | A missing or unparsable start is 0 and a missing end is start + 2. The text comes from `Text`, else `text`, normalised |
| SubsUtils.NormalizeTextClean | subs_utils.py:49 | Normalised text has no carriage return and no surrounding whitespace |
| SubsUtils.InsertSorted | subs_utils.py:35 | Inserting into sorted keys of one kind keeps them sorted |
| SubsUtils.SortEntriesSorted | subs_utils.py:35 | Keys all numeric or all non-numeric come out sorted |
| SubsUtils.OrderedEntriesSpec | subs_utils.py:34-37 | The entry order is a permutation. Numeric keys are in numeric order and text keys in text order. Mixed keys make the sort fail and keep insertion order |
| SubsUtils.InsertKeyedBy | subs_utils.py:35 | Inserting an entry into sorted digit keys places it after every entry whose key has the same integer value |
| SubsUtils.OrderedEntriesStable | subs_utils.py:35 | The sort is stable: for every integer value, the entries whose digit keys have that value (such as `"1"` and `"01"`) come out in the order they were given, for any number of entries |
| SubsUtils.OneAndZeroOne | subs_utils.py:35 | `"1"` and `"01"` are both digit keys of integer value 1, so they tie in the sort |
| SubsUtils.ParseSubsField | subs_utils.py:23-51 | One cue per decoded entry. A falsy field or invalid JSON gives no cues |
| SubsUtils.CueExample | subs_utils.py:23-51 | The entry `{"0": {TimeStart "1.5", TimeEnd "3.25", Text "Hi"}}` gives the cue (1.5, 3.25, "Hi") |
| SubsUtils.DecimalText | subs_utils.py:41-45 | `float()` of `digits.digits` is the decimal value |
| SubsUtils.WriteSrt | subs_utils.py:53-61 | The file content is the SRT lines joined by newlines |
| SubsUtils.SrtBlockLines | subs_utils.py:55-59 | Each block is: index, timing line, the text's lines, then a blank line |
| SubsUtils.WriteSrtLines | subs_utils.py:53-61 | Splitting the written file on newlines recovers exactly the SRT lines |
| SubsUtils.SrtLinesCount | subs_utils.py:55-59 | The line count is 3 per cue plus its text lines |
| SubsUtils.SrtBlockShape | subs_utils.py:56-59 | A block's first line reads back as its index and its last line is empty |
| SubsUtils.Trunc | subs_utils.py:112 | `int()` of a float truncates toward zero; `main` reads a numeric metadata duration the same way |
| SubsUtils.TitleEndSpan | subs_utils.py:112-119 | The title event ends at the clip duration in whole milliseconds. With no duration, or one that truncates to zero, it lasts 24 hours |
| SubsUtils.PosTagRoundTrip | subs_utils.py:113-115 | The `{\pos(540,y)}` tag reads back as (540, y) followed by the title text |
| SubsUtils.DefaultStyleShape | subs_utils.py:88-97 | The subtitle style is bottom centre with the given font, size and margins, and no shadow. It keeps the document's outline, else the new style's 2 |
| SubsUtils.GenerateAss | subs_utils.py:63-124 | Covers the missing backend, a load or save error, and the restyled Default, the Title style and the title event put first. A missing backend leaves the document unchanged |
| MaskUtils.ParseRgbaTotal | mask_utils.py:14-31 | Every colour keeps the given alpha. Only a malformed `#xxxxxx` raises |
| MaskUtils.ParseRgbaNormalised | mask_utils.py:18-20 | Case and surrounding whitespace do not matter: a colour reads as its stripped, lower-cased text |
| MaskUtils.NormaliseIdempotent | mask_utils.py:20 | Stripping and lower-casing a second time changes nothing |
| MaskUtils.ParseRgbaNames | mask_utils.py:18-31 | The empty text and `black`/`bk`/`0`/`000000` are black, `white`/`fff`/`ffffff`/`1` are white, and any other text that is not a 7-character `#` form is black |
| MaskUtils.ParseRgbaPaddedUpper | mask_utils.py:20-29 | `" WHITE "` is white |
| MaskUtils.ParseRgbaMixedCase | mask_utils.py:20-27 | `"Bk"` is black |
| MaskUtils.HexColorRoundTrip | mask_utils.py:21-25 | `#rrggbb` printed from three bytes parses back to those bytes |
| MaskUtils.HexPairRange | mask_utils.py:22-24 | `int(pair, 16)` lies in -15..255; a sign is accepted |
| MaskUtils.NormalizeBox | mask_utils.py:47-53 | The drawn box lies inside the canvas, with a non-negative radius |
| MaskUtils.NormalizeInside | mask_utils.py:47-52 | For a rectangle inside the canvas, the box is the rectangle with inclusive right and bottom edges |
| MaskUtils.FrameInvertsMask | mask_utils.py:54 | The frame's alpha is 255 minus the mask's, and both are 0 or 255 |
| MaskUtils.OutsideBoxOpaque | mask_utils.py:96 | Outside the box the frame is opaque and the mask transparent |
| MaskUtils.NewAlpha | mask_utils.py:45 | A fresh grid of the canvas size holding one value |
| MaskUtils.FillRoundedRect | mask_utils.py:54 | Exactly the pixels inside the rounded box take the fill; all others are unchanged |
| MaskUtils.GenerateRoundedMask | mask_utils.py:34-60 | Succeeds exactly when Pillow is present, the box is drawable and the save succeeds. Then every pixel is 255 inside the rounded box and 0 outside |
| MaskUtils.Clip8 | mask_utils.py:77 | A channel handed to `Image.new` is stored clipped to 0..255: kept when it is a byte, 0 below and 255 above |
| MaskUtils.StoredParsedColor | mask_utils.py:76-77 | A parsed colour is stored unchanged exactly when none of its channels is negative |
| MaskUtils.SignedRedStoredAsZero | mask_utils.py:21-25 | `"#-f0000"` parses to red -15 (a signed hex pair), which `Image.new` stores as red 0 |
| MaskUtils.GenerateRoundedFrame | mask_utils.py:63-104 | Same conditions, plus a parsable colour. The result is the parsed background colour with each channel clipped to a byte, as Pillow stores it, with the inverse alpha |
| Layout.Clamp | clip_edit_process.py:231-234 | `max(lo, min(hi, v))` lies in range: `v` inside it, `lo` below it, `hi` above it |
| Layout.TargetWidth | clip_edit_process.py:141-142 | The content width is 16..1080: 1080 for a margin of 0 or less, 1080 - 2*margin up to 532, and 16 beyond |
| Layout.VideoLeftRange | clip_edit_process.py:230 | The video is centred horizontally: twice the left edge plus the width is 1080 |
| Layout.RoundHalfEven | clip_edit_process.py:148 | `round()` is the nearest integer, with ties going to even |
| Layout.ScaledHeight | clip_edit_process.py:144-152 | The scaled height is known exactly when a size was probed with a non-zero width, and is then within half a pixel of `h * (width / w)`, an exact half going to the even neighbour as Python's `round` does |
| Layout.VideoTopCentres | clip_edit_process.py:154-157 | With a known height, the video is centred vertically to within a pixel |
| Layout.TitleY | clip_edit_process.py:159-160 | The title line is the larger of line 6 and `gap` above the video (80 by default) |
| Layout.LandscapeExample | clip_edit_process.py:140-160 | A 1920x1080 source with margin 20 gives width 1040, height 585, top 667 and title at 587 |
| Layout.CornerRect | clip_edit_process.py:229-234 | The corner rectangle is clamped into the canvas |
| Layout.CornerRectInside | clip_edit_process.py:250-258 | Inside the canvas, the corner rectangle is exactly the video area |
| Layout.RadiusUse | clip_edit_process.py:235-236 | The radius drawn is the request clamped to half the shorter side; 0 when that half is 0 or the request is not positive |
| Layout.RadiusExample | clip_edit_process.py:229-236 | A full-width clip 400 high asking for radius 9999 gets 200 |
| Layout.LogoWidth | clip_edit_process.py:268-269 | There is a logo exactly for a positive ratio. Its width is 8 when `width*ratio` is at most 8.5; above that it is `width*ratio` rounded to the nearest pixel, an exact half going to the even neighbour |
| Layout.LogoPos | clip_edit_process.py:284-286 | The logo sits `margin` pixels in from the video's left and top edges, a negative margin counting as 0 |
| ClipEdit.KeepSafe | clip_edit_process.py:34 | Only alphanumerics, `-`, `_` and `.` remain |
| ClipEdit.KeepSafeKeeps | clip_edit_process.py:34 | An already safe name passes unchanged |
| ClipEdit.KeepSafeCounts | clip_edit_process.py:34 | The filter keeps every alphanumeric, `-`, `_` and `.` as often as it occurs |
| ClipEdit.KeepSafeConcat | clip_edit_process.py:34 | The filter works character by character, keeping their order |
| ClipEdit.SeparatorsToUnderscoresPointwise | clip_edit_process.py:33 | `/` and space become `_` position by position, and nothing else changes |
| ClipEdit.SeparatorsKeepPresence | clip_edit_process.py:33 | The separator mapping keeps whether a letter, digit or dot occurs |
| ClipEdit.SeparatorsKeepCounts | clip_edit_process.py:33 | The separator mapping keeps every letter, digit and dot as often as it occurs |
| ClipEdit.SafeCore | clip_edit_process.py:33-34 | Only kept characters remain, with no `-` or `_` at either end |
| ClipEdit.SafeCoreCounts | clip_edit_process.py:33-34 | The core is the filtered name with a run of `-`/`_` cut off each end, and keeps every letter, digit and dot of the name |
| ClipEdit.SafeCoreEmpty | clip_edit_process.py:33-34 | The core is empty exactly when the name has no letter, digit or dot |
| ClipEdit.ClipFallback | clip_edit_process.py:34 | `clip_<time>` is itself a safe name |
| ClipEdit.SafeFilename | clip_edit_process.py:32-34 | The slug is never empty, holds only kept characters and has no `-` or `_` at either end. It is `clip_<time>` whenever the slug has no letter, digit or dot |
| ClipEdit.SafeFilenameKeeps | clip_edit_process.py:32-34 | When the slug has a letter, digit or dot, the safe name is the filtered slug with `-`/`_` cut off its ends and keeps every letter, digit and dot of the slug |
| ClipEdit.SafeFilenameIdempotent | clip_edit_process.py:32-34 | Making a safe slug safe again changes nothing, at any later time |
| ClipEdit.SafeNameFixed | clip_edit_process.py:33-34 | A non-empty name of kept characters with no `-` or `_` at its ends passes every step unchanged |
| ClipEdit.VEncoderArgs | clip_edit_process.py:36-61 | The encoder arguments are flag/value pairs |
| ClipEdit.NvencFlags | clip_edit_process.py:42-51 | NVENC is selected, with the quality given as `-cq` |
| ClipEdit.NvencGpu | clip_edit_process.py:52-53 | `-gpu` is present exactly when a GPU index is given, with that index |
| ClipEdit.SoftwareFlags | clip_edit_process.py:55-61 | Any other encoder gets libx264 at CRF 23 and no `-gpu` |
| ClipEdit.SubtitlePart | clip_edit_process.py:197-208 | A usable ASS file gives the `ass=` or `subtitles=…:fontsdir=` filter; otherwise an existing SRT file gives the force-styled `subtitles=` filter; otherwise nothing |
| ClipEdit.BuildTextSuffix | clip_edit_process.py:186-209 | The suffix is the comma-prefixed parts: drawtext, then ASS or SRT subtitles |
| ClipEdit.TextSuffixOrder | clip_edit_process.py:194-209 | The suffix is empty exactly when there is neither a title nor a subtitle filter; otherwise the title comes before the subtitles |
| ClipEdit.SuffixIsCommaEach | clip_edit_process.py:209 | `"," + ",".join(parts)` equals a comma before each part |
| ClipEdit.GraphArgs | clip_edit_process.py:304-305 | The graph arguments never start like an input |
| ClipEdit.Args | clip_edit_process.py:299-309 | A call is `ffmpeg -y … out` |
| ClipEdit.ReadInputArgs | clip_edit_process.py:301-303 | The `-i` pairs read back as exactly the inputs |
| ClipEdit.ArgsInputs | clip_edit_process.py:299-309 | The inputs of a call read back from its argument list, and the graph arguments follow them |
| ClipEdit.PostCodec | clip_edit_process.py:306-307 | The encoder arguments come first, followed by the eight fixed pixel, faststart and audio arguments |
| ClipEdit.PostInputOrder | clip_edit_process.py:288-400 | The inputs are the video, then the frame or mask, then the logo. The logo's input index matches its label |
| ClipEdit.PostCallForm | clip_edit_process.py:288-400 | A plain `-vf` call is used exactly when there is neither a corner asset nor a logo; otherwise `-filter_complex` |
| ClipEdit.PostCallInputs | clip_edit_process.py:288-400 | The post call reads exactly the ordered inputs, keeps the encoder arguments and writes the post output |
| ClipEdit.PostFilterShape | clip_edit_process.py:288-400 | Every post graph starts with the base snippet on `[0:v]` and ends with the text suffix and `[final]`, with or without a logo |
| ClipEdit.PostFilterLogoLast | clip_edit_process.py:288-400 | With a logo, the logo overlay comes right before the text suffix and `[final]`, so the text is drawn over the logo |
| ClipEdit.FirstFailure | clip_edit_process.py:402-555 | Every stage before the index succeeds, and the stage at the index fails |
| ClipEdit.FirstError | clip_edit_process.py:402-555 | There is no error exactly when every stage succeeds |
| ClipEdit.RunStages | clip_edit_process.py:402-555 | The commands run up to and including the first failing stage, and that failure is reported |
| ClipEdit.TitleText | clip_edit_process.py:104-110 | When enabled, the title is the first non-empty of override, `movie_title`, `movie`, `title` and `slug`, stripped; none when that is blank |
| ClipEdit.FirstNonEmpty | clip_edit_process.py:106 | Python's `a or b or …`: the first non-empty text, empty exactly when all are |
| ClipEdit.TitleOverrideWins | clip_edit_process.py:106-110 | A non-blank override is the title, stripped |
| ClipEdit.Renditions | clip_edit_process.py:121-125 | Feed and reels outputs exist exactly when requested |
| ClipEdit.EditStagesOrder | clip_edit_process.py:402-555 | Stages run in the order post, feed, reels, watermark check and watermark. The stage count follows the feed, reels and watermark options. A watermark check exists exactly with reels and a watermark |
| ClipEdit.EditStagesReels | clip_edit_process.py:426-537 | The reels stage repeats the post call: same arguments except the last, which is the reels output |
| ClipEdit.PlanText | clip_edit_process.py:104-224 | The title, SRT, ASS request, drawtext filter and suffix are each given in full: ASS only after an SRT, used only if it succeeded, drawtext exactly when there is a title and no ASS |
| ClipEdit.PlanSubtitles | clip_edit_process.py:114-179 | The SRT file exactly when there are cues, the ASS request (style, title, duration) exactly then, and ASS used exactly when it succeeded |
| ClipEdit.PlanCorners | clip_edit_process.py:226-263 | The frame is used exactly with a positive clamped radius, a parsable colour and a saved, existing frame; the mask exactly when the frame is not and the mask was saved |
| ClipEdit.CornerBoxDrawable | clip_edit_process.py:235-245 | A positive radius that fits the rectangle gives a box Pillow can draw |
| ClipEdit.PlanClip | clip_edit_process.py:104-286 | Every field of the plan is the one `ClipPlanned` describes from the options, the metadata and the world |
| ClipEdit.ClipPlannedUnique | clip_edit_process.py:104-286 | The plan description leaves no choice: two plans it admits are equal |
| ClipEdit.ClipPlannedRoutes | clip_edit_process.py:165-224 | The title is drawn by exactly one route, frame and mask are never both used, ASS needs an SRT, and a found ASS file is the whole suffix |
| ClipEdit.RunPlan | clip_edit_process.py:402-566 | The stages run until the first failure. The record is that failure, or success with the duration, outputs and metadata path |
| ClipEdit.EditClip | clip_edit_process.py:63-566 | A missing or short duration is refused before any command runs; otherwise the clip is planned as `ClipPlanned` says and its stages run |
| DownloadProcess.CommaEachAppend | download_and_process.py:482-499 | Appending `"," + part` to the chain appends the part to the suffix |
| DownloadProcess.BuildContentFilterChain | download_and_process.py:478-499 | The content chain is the base followed by the same text suffix `edit_clip` builds: title first, then subtitles |
| DownloadProcess.HitMaskRect | download_and_process.py:505-517 | The right and bottom edges are clamped to 0..canvas |
| DownloadProcess.GenerateHitMask | download_and_process.py:293-311 | As written: succeeds with Pillow and a drawable box, and fills the rectangle's exclusive edges as inclusive ones |
| DownloadProcess.HitMaskOneTooWide | download_and_process.py:306 | As written, a 1040-wide clip's mask is white at column 1060, one past the video; the corrected box leaves it black |
| DownloadProcess.FixedMaskInsideVideo | mask_utils.py:47-54 | With the corrected box, no pixel outside the video rectangle is ever kept |
| DownloadProcess.HitFiles | download_and_process.py:385-409 | The SRT file, then the output directory, then a font directory when the font exists. Fonts are used only if the copy succeeded |
| DownloadProcess.PlanHitText | download_and_process.py:371-476 | The title, SRT, ASS request, drawtext filter and subtitle files are each given in full, by the same rules as `edit_clip` |
| DownloadProcess.PlanHitMask | download_and_process.py:501-522 | A mask exactly when the clamped radius of the as-written rectangle is positive (radius requested, Pillow, known height) and the save succeeds |
| DownloadProcess.PlanHit | download_and_process.py:411-578 | Every field of the plan is the one `HitPlanned` describes, and the output directory is made |
| DownloadProcess.HitPlannedUnique | download_and_process.py:411-578 | The plan description leaves no choice: two plans it admits are equal |
| DownloadProcess.HitPlannedRoutes | download_and_process.py:437-499 | The title is drawn by exactly one route, and a found ASS file makes the chain the base snippet plus the ASS filter |
| DownloadProcess.HitPostShape | download_and_process.py:527-563 | The masked graph is used exactly when the mask was made and exists, with the whole chain (text included) inside `[0:v]…[vsub]`; otherwise `-vf` |
| DownloadProcess.RunHitPlan | download_and_process.py:565-647 | The stages are post, feed at CRF 22, reels and watermark, stopping at the first failure. The record is built from the outcome |
| DownloadProcess.RenderHit | download_and_process.py:391-647 | After the metadata and the download: the plan `HitPlanned` describes, the output directory, and the stages run on that plan |
| DownloadProcess.ProcessHit | download_and_process.py:333-647 | The metadata is written first. Then come the no-URL, download-failure, probe-failure and too-short errors (the last two delete the download), each before any command runs; otherwise the plan `HitPlanned` describes runs |
| DownloadProcess.ProcessNamedHit | download_and_process.py:333-647 | The same steps and errors as `process_hit`, for a given slug |
| DownloadProcess.MetaIntExamples | download_and_process.py:719-725 | 12.9 reads as 12 and "12" as 12. "12.5" is unreadable, so the hit is kept whatever the minimum |
| DownloadProcess.Eligibles | download_and_process.py:716-727 | Only eligible hits from the input are kept, in order |
| DownloadProcess.EligiblesComplete | download_and_process.py:716-727 | Every eligible hit is kept |
| DownloadProcess.EligiblesPrefix | download_and_process.py:716-730 | A prefix of the hits yields a prefix of the eligible hits |
| DownloadProcess.SelectCandidatesAsWritten | download_and_process.py:716-730 | As written: the first `max(1, max_total)` eligible hits |
| DownloadProcess.AsWrittenSelectsOneOverCap | download_and_process.py:728-730 | With `max_total <= 0` and an eligible hit, one clip is selected, more than the cap |
| DownloadProcess.SelectCandidates | download_and_process.py:716-730 | Corrected: the first `max(0, max_total)` eligible hits, never more than the cap |

## Left out

- Network, subprocesses and files. The catalogue search, the download,
  ffprobe, ffmpeg, JSON writing, font copying and image saving are not
  modelled. Their outcomes are parameters of the model (`World`,
  `HitWorld`). The ffmpeg argument lists and the file steps are the
  observable results.
- Executable lookup (`find_executable`, `find_ffprobe`, `find_ffmpeg`,
  `nvenc_available`) and the CLI front ends (argument parsing, printing,
  the loop that calls the planners) depend only on the environment.
- Pillow's rasteriser is not modelled. Whether a pixel lies in the
  rounded shape is the parameter `inShape`, taken together with the
  bounding box.
- The subtitle library's SRT loading, saving and `make_esc` escaping are
  a document object, a saved flag and a function parameter.
- The logo preparation (`prepare_logo`) is a parameter that maps a width
  to a prepared file; graphics_utils.py is not part of this model.
- Python's printing of floats (`duration_too_short (…)`) is the parameter
  `showReal`.
- `float()` of text accepts only `[+-]digits[.digits]`. Exponents,
  `inf`/`nan` and underscores are not modelled.
- `int()` of text accepts only an optional minus followed by ASCII
  digits. Surrounding whitespace, `+` and underscores read as unreadable.
- `str.isalnum`, `isdigit`, `lower` and `strip` are modelled for ASCII.
  Unicode letters are not covered.
- Paths are joined with `/` and never normalised.
- The metadata fields (`slug`, `title`, `movie_title`, `movie` and the
  like) are typed as text. A JSON number or other non-text value there
  makes the Python code raise (at `.replace` in
  `safe_filename_from_slug`, or in `ffmpeg_escape_text` when the `strip`
  is skipped). That crash path is not modelled.
- Exceptions from creating directories or writing the metadata file
  would end the Python function. The model assumes those steps succeed.
- Each file's existence is read once, as a boolean of the world. A file
  appearing or vanishing between two checks is not modelled.
- `download_and_process.py` carries its own copies of the subtitle,
  escaping and slug helpers (lines 126-262). They are identical to the
  module versions and are modelled once.
- Strip: its own contract states only the length and the clean ends.
  That the result is the input with a run of stripped characters cut off
  each end, empty exactly when every character is stripped, is
  StripSlice; that every other character is kept as often as it occurs
  is StripCounts.
- KeepSafe: its own contract states only that kept characters remain.
  That each kept character survives as often as it occurs is
  KeepSafeCounts, and that the order is kept is KeepSafeConcat. They are
  separate lemmas so that proofs using the filter stay small.
- SafeCore: its own contract states only the kept characters and the
  clean ends. The slice it is, and the letters, digits and dots it keeps,
  are SafeCoreCounts; when it is empty is SafeCoreEmpty.
- SafeFilename: its own contract states the shape of the name and the
  fallback when the slug has no letter, digit or dot. Otherwise the
  name is the filtered, stripped slug that keeps every letter, digit and
  dot, which SafeFilenameKeeps states.
- IEEE double arithmetic is modelled on exact rationals. Where Python's
  floats round, the model does not: `int(duration_s*1000)` in
  SubsUtils.TitleEnd gives 1000 in Python for a 1.001 s clip
  (1.001*1000 is 1000.9999999999999 as a double) but 1001 here. The same
  holds for the probed duration compared with the minimum, the
  `round(width*ratio)` in Layout.LogoWidth and the division in
  Layout.ScaledHeight.
- ParseSubsField: the crash paths are not modelled. JSON that is not an
  object (`[]`, `5`, `null`) raises at `data.keys()`, and the retry in
  the `except` clause raises again, uncaught (subs_utils.py:34-37). An
  entry that is not a dict, or a truthy `Text` that is not a string,
  raises at subs_utils.py:48-49, outside any `try`. The field type
  `SubsField` holds only objects whose entries are objects with text
  fields, so those inputs cannot be expressed.

## Findings

| source | as written | input that shows it | evidently intended | confidence | as-written member | corrected member |
|---|---|---|---|---|---|---|
| download_and_process.py:306 | The mask box passes the rectangle's exclusive right and bottom edges to Pillow, whose boxes are inclusive | side margin 20 on a 1920x1080 source: the video covers columns 20..1059, but mask column 1060 is white (rows 667..1252 likewise reach row 1252) | the edges minus one, as mask_utils.py:48 does, so the mask covers exactly the video | medium (the extra line falls on black padding, so it rarely shows), not executed | DownloadProcess.HitMaskOneTooWide | DownloadProcess.FixedMaskInsideVideo |
| download_and_process.py:728-730 | The candidate is appended before the count is compared with `--max-total` | `--max-total 0` with one eligible hit selects one clip | never more than `--max-total` clips | medium, not executed | DownloadProcess.AsWrittenSelectsOneOverCap | DownloadProcess.SelectCandidates |
