/** The captions pipeline of captions.js: `getVideoDimensions`,
    `renderCaptionsWithRemotion` (the shared Lambda render steps over a project
    that copies the caption composition) and `extractCaptions` (download, audio
    extraction, transcription, render and notification, with the downloaded files
    removed at the end). Each external call is an outcome in an oracle; the render
    id and the `REMOTION_FUNCTION_NAME` setting are parameters. */
module Captions {
  import opened Js
  import opened Remote
  import Timing

  // ---------------------------------------------------------------------------
  // getVideoDimensions
  // ---------------------------------------------------------------------------

  /** A stream of ffprobe's JSON output; `duration` is the parsed `duration`
      field, `None` when it is missing or empty. */
  datatype Stream = Stream(codecType: Value, width: Value, height: Value, duration: Option<real>)

  /** ffprobe's outcome: it fails (or its output does not parse), or lists streams. */
  datatype ProbeOutput = ProbeFailed | Streams(streams: seq<Stream>)

  datatype Dimensions = Dimensions(width: Value, height: Value, duration: real)

  const FallbackDimensions := Dimensions(Number(1920.0), Number(1080.0), 0.0)

  predicate IsVideo(s: Stream) {
    s.codecType == Str("video")
  }

  /** `streams.find((s) => s.codec_type === 'video')` */
  function FindVideo(streams: seq<Stream>): (r: Option<Stream>)
    ensures r.None? <==> forall i :: 0 <= i < |streams| ==> !IsVideo(streams[i])
    ensures r.Some? ==> exists i :: (0 <= i < |streams| && streams[i] == r.value && IsVideo(streams[i])
      && forall j :: 0 <= j < i ==> !IsVideo(streams[j]))
  {
    Find(streams, IsVideo)
  }

  /** The width, height and duration of the first video stream (a missing duration
      reads as 0); 1920 by 1080 with duration 0 when the probe fails or finds no
      video stream. */
  function VideoDimensions(probe: ProbeOutput): (d: Dimensions)
    ensures probe.ProbeFailed? ==> d == FallbackDimensions
    ensures probe.Streams? && FindVideo(probe.streams).None? ==> d == FallbackDimensions
    ensures probe.Streams? && FindVideo(probe.streams).Some? ==>
      var vs := FindVideo(probe.streams).value;
      d == Dimensions(vs.width, vs.height, if vs.duration.Some? then vs.duration.value else 0.0)
  {
    match probe
    case ProbeFailed => FallbackDimensions
    case Streams(streams) =>
      match FindVideo(streams)
      case None => FallbackDimensions
      case Some(vs) => Dimensions(vs.width, vs.height, if vs.duration.Some? then vs.duration.value else 0.0)
  }

  // ---------------------------------------------------------------------------
  // renderCaptionsWithRemotion
  // ---------------------------------------------------------------------------

  /** `Math.ceil(x)` */
  function Ceil(x: real): (r: int)
    ensures x <= r as real < x + 1.0
  {
    -((-x).Floor)
  }

  /** The options object `{ width = 1920, height = 1080, fps = 30, emojiCues = [] }`;
      `None` stands for a property left undefined. */
  datatype RenderOptions = RenderOptions(width: Value, height: Value, fps: Option<real>, emojiCues: Option<seq<Timing.EmojiCue>>)

  function FpsOf(options: RenderOptions): real {
    if options.fps.Some? then options.fps.value else 30.0
  }

  function CuesOf(options: RenderOptions): seq<Timing.EmojiCue> {
    if options.emojiCues.Some? then options.emojiCues.value else []
  }

  /** The composition's length: half a second after the last word ends, rounded
      up to whole frames. */
  function DurationInFrames(words: seq<Timing.Word>, fps: real): int
    requires |words| > 0
  {
    Ceil((words[|words| - 1].end + 0.5) * fps)
  }

  /** The duration covers the last word plus half a second, by less than one frame
      more; it is positive when the last word does not end before time 0 and the
      frame rate is positive. */
  lemma DurationCoversLastWord(words: seq<Timing.Word>, fps: real)
    requires |words| > 0
    ensures var x := (words[|words| - 1].end + 0.5) * fps;
      x <= DurationInFrames(words, fps) as real < x + 1.0
    ensures words[|words| - 1].end >= 0.0 && fps > 0.0 ==> DurationInFrames(words, fps) >= 1
  {
    var e := words[|words| - 1].end;
    if e >= 0.0 && fps > 0.0 {
      assert (e + 0.5) * fps > 0.0 by {
        assert e + 0.5 > 0.0;
      }
    }
  }

  /** The `Root.jsx` parameters `buildCaptionsRootJsx` fills in. */
  function BuildCaptionsRootJsx(durationInFrames: int, fps: real, width: Value, height: Value): RootJsx {
    RootJsx("CaptionsVideo", "CaptionsComposition", Number(durationInFrames as real), Number(fps), width, height)
  }

  const CompositionSource := "src/captions-remotion/CaptionsComposition.jsx"

  function CaptionsTmpDir(id: string): string { "tmp/captions-" + id }

  function CaptionedPath(jobId: string): string { "/tmp/" + jobId + "-captioned.mp4" }

  /** What `renderCaptionsWithRemotion` hands to the shared steps. */
  function CaptionsJob(videoUrl: string, words: seq<Timing.Word>, style: Value, jobId: string,
                       options: RenderOptions, functionName: string, id: string): Job
    requires |words| > 0
  {
    var fps := FpsOf(options);
    var root := BuildCaptionsRootJsx(DurationInFrames(words, fps), fps,
                                     DefaultIfUndefined(options.width, Number(1920.0)),
                                     DefaultIfUndefined(options.height, Number(1080.0)));
    Job(CaptionsTmpDir(id),
        [ FileWrite("CaptionsComposition.jsx", CopyOf(CompositionSource)),
          FileWrite("Root.jsx", RootSource(root)),
          FileWrite("index.jsx", IndexSource) ],
        "ms-captions-" + id, functionName, "CaptionsVideo",
        CaptionProps(videoUrl, words, style, CuesOf(options)), 240000, 60, CaptionedPath(jobId))
  }

  /** The `Root.jsx` of a captions render registers the composition its request
      asks for, `CaptionsVideo`, over the component of the copied
      `CaptionsComposition.jsx`, with the computed duration, the frame rate and
      the size (1920 by 1080 when left undefined). */
  lemma CaptionsRootRegistersRequestedComposition(videoUrl: string, words: seq<Timing.Word>, style: Value,
                                                  jobId: string, options: RenderOptions, functionName: string,
                                                  id: string)
    requires |words| > 0
    ensures var job := CaptionsJob(videoUrl, words, style, jobId, options, functionName, id);
      && job.files[1].name == "Root.jsx" && job.files[1].content.RootSource?
      && var root := job.files[1].content.root;
         && root.compositionId == job.composition == RequestOf(job, "").composition
         && job.files[0].name == root.component + ".jsx"
         && root.durationInFrames == Number(DurationInFrames(words, FpsOf(options)) as real)
         && root.fps == Number(FpsOf(options))
         && root.width == DefaultIfUndefined(options.width, Number(1920.0))
         && root.height == DefaultIfUndefined(options.height, Number(1080.0))
  {
  }

  /** Reading `.end` of the missing last word of an empty list. */
  const NoLastWordMessage := "Cannot read properties of undefined (reading 'end')"

  /** How `renderCaptionsWithRemotion` ends: an empty word list fails before the
      try block; otherwise as the shared steps end, returning the output path. */
  function CaptionsRenderExit(words: seq<Timing.Word>, jobId: string, w: Lambda): Exit<string> {
    if |words| == 0 then Threw(NoLastWordMessage) else WithValue(TryExit(w), CaptionedPath(jobId))
  }

  /** What `renderCaptionsWithRemotion` does: nothing for an empty word list,
      otherwise the shared steps and their cleanup. */
  function CaptionsRenderEffects(videoUrl: string, words: seq<Timing.Word>, style: Value, jobId: string,
                                 options: RenderOptions, functionName: string, id: string, w: Lambda): seq<Effect>
  {
    if |words| == 0 then [] else RenderEffects(CaptionsJob(videoUrl, words, style, jobId, options, functionName, id), w)
  }

  method RenderCaptionsWithRemotion(videoUrl: string, words: seq<Timing.Word>, style: Value, jobId: string,
                                    options: RenderOptions, functionName: string, id: string, w: Lambda)
    returns (exit: Exit<string>, effects: seq<Effect>)
    ensures exit == CaptionsRenderExit(words, jobId, w)
    ensures effects == CaptionsRenderEffects(videoUrl, words, style, jobId, options, functionName, id, w)
  {
    if |words| == 0 {
      return Threw(NoLastWordMessage), [];
    }
    var outputPath := CaptionedPath(jobId);
    var job := CaptionsJob(videoUrl, words, style, jobId, options, functionName, id);
    var done;
    done, effects := RunRender(job, w);
    exit := WithValue(done, outputPath);
  }

  /** With words to render, the project is written first: a copy of the caption
      composition and a `Root.jsx` whose duration covers the last word, at the
      given size (1920 by 1080 when left undefined) and frame rate (30 when left
      undefined); the render gets the video, the words, the style and the cues. */
  lemma CaptionsProjectFirst(videoUrl: string, words: seq<Timing.Word>, style: Value, jobId: string,
                             options: RenderOptions, functionName: string, id: string, w: Lambda)
    requires |words| > 0
    ensures var e := CaptionsRenderEffects(videoUrl, words, style, jobId, options, functionName, id, w);
      var fps := if options.fps.Some? then options.fps.value else 30.0;
      && |e| > 0 && e[0].WriteProject? && e[0].dir == "tmp/captions-" + id && |e[0].files| == 3
      && e[0].files[0] == FileWrite("CaptionsComposition.jsx", CopyOf(CompositionSource))
      && e[0].files[1].name == "Root.jsx" && e[0].files[1].content.RootSource?
      && var root := e[0].files[1].content.root;
         && root.durationInFrames.Number?
         && (words[|words| - 1].end + 0.5) * fps <= root.durationInFrames.n
         && root.fps == Number(fps)
         && root.width == (if options.width.Undefined? then Number(1920.0) else options.width)
         && root.height == (if options.height.Undefined? then Number(1080.0) else options.height)
    ensures CaptionsJob(videoUrl, words, style, jobId, options, functionName, id).inputProps ==
      CaptionProps(videoUrl, words, style, if options.emojiCues.Some? then options.emojiCues.value else [])
  {
    var job := CaptionsJob(videoUrl, words, style, jobId, options, functionName, id);
    DurationCoversLastWord(words, FpsOf(options));
    assert TryEffects(job, w)[0] == CaptionsRenderEffects(videoUrl, words, style, jobId, options, functionName, id, w)[0];
  }

  /** An empty word list fails before anything is written or cleaned up. With words,
      a render that does not hang removes its temporary directory exactly once and
      deletes the site exactly when the bucket was obtained, all in step order. */
  lemma CaptionsRenderCleanup(videoUrl: string, words: seq<Timing.Word>, style: Value, jobId: string,
                              options: RenderOptions, functionName: string, id: string, w: Lambda)
    ensures |words| == 0 ==>
      CaptionsRenderEffects(videoUrl, words, style, jobId, options, functionName, id, w) == []
    ensures var e := CaptionsRenderEffects(videoUrl, words, style, jobId, options, functionName, id, w);
      var exit := CaptionsRenderExit(words, jobId, w);
      && InOrder(e)
      && CountOf(e, RemoveTemp) == (if |words| == 0 || exit.StillPolling? then 0 else 1)
      && CountOf(e, DropSite) ==
         (if |words| > 0 && !exit.StillPolling? && w.project.Pass? && w.bucket.Ok? && w.bucket.value != ""
          then 1 else 0)
  {
    if |words| > 0 {
      var job := CaptionsJob(videoUrl, words, style, jobId, options, functionName, id);
      RenderRemovesTempDir(job, w);
      RenderDeletesSite(job, w);
      RenderInOrder(job, w);
    }
  }

  /** A captions render that returns gives back `/tmp/<jobId>-captioned.mp4`, the
      path its download wrote. */
  lemma CaptionsRenderReturnsOutput(videoUrl: string, words: seq<Timing.Word>, style: Value, jobId: string,
                                    options: RenderOptions, functionName: string, id: string, w: Lambda)
    requires CaptionsRenderExit(words, jobId, w).Returned?
    ensures |words| > 0
    ensures CaptionsRenderExit(words, jobId, w).value == "/tmp/" + jobId + "-captioned.mp4"
    ensures var t := TryEffects(CaptionsJob(videoUrl, words, style, jobId, options, functionName, id), w);
      t[|t| - 1] == Download(PollOf(w).outBucket, PollOf(w).outKey, CaptionedPath(jobId))
  {
    ReturnedAfterDownload(CaptionsJob(videoUrl, words, style, jobId, options, functionName, id), w);
  }

  // ---------------------------------------------------------------------------
  // extractCaptions
  // ---------------------------------------------------------------------------

  /** The options object `{ style = 'heat', baseUrl, supabaseUrl, supabaseKey,
      userId, emojiCues = [] }`; `baseUrl` is `None` when left undefined. */
  datatype Options = Options(
    style: Value,
    baseUrl: Option<string>,
    supabaseUrl: Value,
    supabaseKey: Value,
    userId: Value,
    emojiCues: Option<seq<Timing.EmojiCue>>)

  /** The answer to `fetch(videoUrl)`: a rejection, or a response with its `ok`
      flag and status code. */
  datatype FetchReply = FetchRejected(message: string) | Response(ok: bool, status: nat)

  /** The outcomes of the pipeline's calls: creating the job row, fetching the
      video, saving it, extracting the audio, transcribing it (`None` when the
      transcription has no `words`), probing its streams, the render's own oracle,
      and notifying completion. */
  datatype Pipeline = Pipeline(
    jobRow: Outcome,
    fetch: FetchReply,
    save: Outcome,
    ffmpeg: Outcome,
    transcription: Result<Option<seq<Timing.Word>>>,
    probe: ProbeOutput,
    render: Lambda,
    notify: Outcome)

  /** What `extractCaptions` returns: the words and the public URL, `None` for
      `null`. */
  datatype Captioned = Captioned(words: seq<Timing.Word>, videoUrl: Option<string>)

  function VideoPath(jobId: string): string { "/tmp/" + jobId + ".mp4" }

  function AudioPath(jobId: string): string { "/tmp/" + jobId + ".wav" }

  /** `${baseUrl}` in a template: an undefined one prints as "undefined". */
  function Interpolated(o: Option<string>): string {
    if o.Some? then o.value else "undefined"
  }

  function PublicUrl(baseUrl: Option<string>, jobId: string): string {
    Interpolated(baseUrl) + "/captions-output/" + jobId + "-captioned.mp4"
  }

  function DigitChar(d: nat): char
    requires d < 10
  {
    "0123456789"[d]
  }

  /** A number in decimal, as `${status}` prints it. */
  function Decimal(n: nat): (r: string)
    ensures |r| > 0
    decreases n
  {
    if n < 10 then [DigitChar(n)] else Decimal(n / 10) + [DigitChar(n % 10)]
  }

  /** The number a string of decimal digits denotes. */
  function DigitsValue(s: string): nat
    decreases |s|
  {
    if |s| == 0 then 0
    else
      var c := s[|s| - 1];
      DigitsValue(s[..|s| - 1]) * 10 + (if '0' <= c <= '9' then (c as int - '0' as int) else 0)
  }

  /** `Decimal` writes digits only, with no leading zero, and they denote `n`. */
  lemma {:induction false} DecimalRoundTrip(n: nat)
    ensures forall i :: 0 <= i < |Decimal(n)| ==> '0' <= Decimal(n)[i] <= '9'
    ensures |Decimal(n)| > 1 ==> Decimal(n)[0] != '0'
    ensures DigitsValue(Decimal(n)) == n
    decreases n
  {
    if n >= 10 {
      DecimalRoundTrip(n / 10);
      var s := Decimal(n);
      assert s == Decimal(n / 10) + [DigitChar(n % 10)];
      assert s[..|s| - 1] == Decimal(n / 10);
      assert s[0] == Decimal(n / 10)[0];
    }
  }

  function DownloadFailedMessage(status: nat): string {
    "Failed to download video: " + Decimal(status)
  }

  predicate CreatesJobRow(options: Options) {
    Truthy(options.supabaseUrl) && Truthy(options.supabaseKey)
  }

  function StyleOrDefault(options: Options): Value {
    DefaultIfUndefined(options.style, Str("heat"))
  }

  function RenderOptionsOf(d: Dimensions, options: Options): RenderOptions {
    RenderOptions(d.width, d.height, Some(30.0),
                  Some(if options.emojiCues.Some? then options.emojiCues.value else []))
  }

  /** The files the finally block unlinks, in order; a failing unlink is ignored. */
  function Unlinks(jobId: string): seq<Effect> {
    [Unlink(VideoPath(jobId)), Unlink(AudioPath(jobId))]
  }

  /** The effects `extractCaptions` has besides its pipeline steps: the job row,
      the notification and the unlinks. */
  predicate IsBookkeeping(e: Effect) {
    e.CreateJobRow? || e.Unlink? || e.NotifyJobComplete?
  }

  /** The bookkeeping effects of a run, in their order. */
  function Bookkeeping(e: seq<Effect>): seq<Effect>
    decreases |e|
  {
    if |e| == 0 then []
    else (if IsBookkeeping(e[0]) then [e[0]] else []) + Bookkeeping(e[1..])
  }

  lemma {:induction false} BookkeepingConcat(a: seq<Effect>, b: seq<Effect>)
    ensures Bookkeeping(a + b) == Bookkeeping(a) + Bookkeeping(b)
    decreases |a|
  {
    if |a| == 0 {
      assert a + b == b;
    } else {
      var h := if IsBookkeeping(a[0]) then [a[0]] else [];
      assert (a + b)[0] == a[0];
      assert (a + b)[1..] == a[1..] + b;
      BookkeepingConcat(a[1..], b);
      assert Bookkeeping(a + b) == h + (Bookkeeping(a[1..]) + Bookkeeping(b));
      assert Bookkeeping(a) == h + Bookkeeping(a[1..]);
    }
  }

  lemma BookkeepingSingle(x: Effect)
    ensures Bookkeeping([x]) == if IsBookkeeping(x) then [x] else []
  {
    assert [x][1..] == [];
  }

  /** A bookkeeping effect of a run is one of its bookkeeping effects, and back. */
  lemma {:induction false} BookkeepingMembers(e: seq<Effect>, x: Effect)
    ensures x in Bookkeeping(e) <==> x in e && IsBookkeeping(x)
    decreases |e|
  {
    if |e| > 0 {
      BookkeepingMembers(e[1..], x);
      assert e == [e[0]] + e[1..];
    }
  }

  lemma {:induction false} NoBookkeeping(e: seq<Effect>)
    requires forall x :: x in e ==> !IsBookkeeping(x)
    ensures Bookkeeping(e) == []
    decreases |e|
  {
    if |e| > 0 {
      assert e[0] in e;
      NoBookkeeping(e[1..]);
    }
  }

  /** Effects of the Lambda render's own steps and cleanup are not bookkeeping. */
  lemma StepsNoBookkeeping(e: seq<Effect>)
    requires RanksWithin(e, 0, 7)
    ensures Bookkeeping(e) == []
  {
    forall x | x in e ensures !IsBookkeeping(x) {
      var i :| 0 <= i < |e| && e[i] == x;
      assert Rank(StepOf(e[i])) <= 7;
    }
    NoBookkeeping(e);
  }

  lemma UnlinksBookkeeping(jobId: string)
    ensures Bookkeeping(Unlinks(jobId)) == Unlinks(jobId)
  {
    var u := Unlinks(jobId);
    assert u == [u[0]] + [u[1]];
    BookkeepingSingle(u[0]);
    BookkeepingSingle(u[1]);
    BookkeepingConcat([u[0]], [u[1]]);
  }

  /** The job row, taken when both Supabase settings are truthy. */
  function RowEffects(jobId: string, options: Options): seq<Effect> {
    if CreatesJobRow(options) then [CreateJobRow(options.supabaseUrl, jobId, options.userId, StyleOrDefault(options))] else []
  }

  /** The request creating the job row was rejected. */
  predicate RowFailed(options: Options, o: Pipeline) {
    CreatesJobRow(options) && o.jobRow.Fail?
  }

  /** The download, the save, the audio extraction and the transcription, each
      taken when the step before it succeeded. */
  function PrepEffects(videoUrl: string, jobId: string, o: Pipeline): seq<Effect> {
    var fetched := [FetchVideo(videoUrl)];
    var saved := fetched + [SaveVideo(VideoPath(jobId))];
    var extracted := saved + [ExtractAudio(VideoPath(jobId), AudioPath(jobId))];
    if !(o.fetch.Response? && o.fetch.ok) then fetched
    else if o.save.Fail? then saved
    else if o.ffmpeg.Fail? then extracted
    else extracted + [Transcribe(AudioPath(jobId))]
  }

  /** The error of the first of those steps that fails, in the source's order;
      `None` when all of them succeed. */
  function PrepFailure(o: Pipeline): Option<string> {
    match o.fetch
    case FetchRejected(m) => Some(m)
    case Response(ok, status) =>
      if !ok then Some(DownloadFailedMessage(status))
      else if o.save.Fail? then Some(o.save.message)
      else if o.ffmpeg.Fail? then Some(o.ffmpeg.message)
      else if o.transcription.Err? then Some(o.transcription.message)
      else None
  }

  /** The words of the transcription: `[]` when it has none (and when it failed,
      where they are never used). */
  function Words(o: Pipeline): seq<Timing.Word> {
    if o.transcription.Ok? && o.transcription.value.Some? then o.transcription.value.value else []
  }

  /** The download, saving, audio extraction and transcription all succeed, and
      there are words to render. */
  predicate ReachesRender(o: Pipeline) {
    PrepFailure(o).None? && |Words(o)| > 0
  }

  function Notification(jobId: string, options: Options): Effect {
    NotifyJobComplete(jobId, PublicUrl(options.baseUrl, jobId))
  }

  /** What a call of `renderCaptionsWithRemotion` did: how it ended and its effects. */
  datatype RenderRun = RenderRun(exit: Exit<string>, effects: seq<Effect>)

  /** The render call `extractCaptions` makes: over the given words, at the probed
      size, 30 frames per second, with its style and cues. */
  function CaptionsRun(videoUrl: string, jobId: string, options: Options, functionName: string, id: string,
                       words: seq<Timing.Word>, o: Pipeline): RenderRun
  {
    RenderRun(CaptionsRenderExit(words, jobId, o.render),
              CaptionsRenderEffects(videoUrl, words, StyleOrDefault(options), jobId,
                                    RenderOptionsOf(VideoDimensions(o.probe), options), functionName, id, o.render))
  }

  /** The probe, the render call and, when that returned and `supabaseKey` is
      truthy, the notification. */
  function RenderAndNotifyEffects(jobId: string, options: Options, r: RenderRun): seq<Effect> {
    [Probe(VideoPath(jobId))] + r.effects
    + (if r.exit.Returned? && Truthy(options.supabaseKey) then [Notification(jobId, options)] else [])
  }

  /** How those steps end: as the render call ends, then as the notification ends;
      a return carries the words and the public URL. */
  function RenderAndNotifyExit(words: seq<Timing.Word>, jobId: string, options: Options, o: Pipeline,
                               r: RenderRun): Exit<Captioned>
  {
    match r.exit
    case Threw(m) => Threw(m)
    case StillPolling => StillPolling
    case Returned(_) =>
      if Truthy(options.supabaseKey) && o.notify.Fail? then Threw(o.notify.message)
      else Returned(Captioned(words, Some(PublicUrl(options.baseUrl, jobId))))
  }

  /** How `extractCaptions` ends when its render call does `r`: the try block's
      exit, which the finally block (whose unlink failures are ignored) leaves as
      it is. */
  function ExtractExit(jobId: string, options: Options, o: Pipeline, r: RenderRun): Exit<Captioned> {
    if RowFailed(options, o) then Threw(o.jobRow.message) else PreparedExit(jobId, options, o, r)
  }

  /** How the try block ends once the job row is in place (or not asked for). */
  function PreparedExit(jobId: string, options: Options, o: Pipeline, r: RenderRun): Exit<Captioned> {
    match PrepFailure(o)
    case Some(m) => Threw(m)
    case None =>
      if |Words(o)| == 0 then Returned(Captioned(Words(o), None))
      else RenderAndNotifyExit(Words(o), jobId, options, o, r)
  }

  /** What the try block does: the job row, then (unless it was rejected) the
      preparation steps, then the render steps once there are words. */
  function ExtractTryEffects(videoUrl: string, jobId: string, options: Options, o: Pipeline, r: RenderRun): seq<Effect> {
    if RowFailed(options, o) then RowEffects(jobId, options)
    else if ReachesRender(o) then RowEffects(jobId, options) + PrepEffects(videoUrl, jobId, o) + RenderAndNotifyEffects(jobId, options, r)
    else RowEffects(jobId, options) + PrepEffects(videoUrl, jobId, o)
  }

  /** What a whole `extractCaptions` call does: the try block, then the two unlinks
      unless the render's poll loop is still waiting. */
  function ExtractEffects(videoUrl: string, jobId: string, options: Options, o: Pipeline, r: RenderRun): seq<Effect> {
    ExtractTryEffects(videoUrl, jobId, options, o, r)
    + (if ExtractExit(jobId, options, o, r).StillPolling? then [] else Unlinks(jobId))
  }

  /** `extractCaptions`, with the render id and the function name as parameters. */
  method ExtractCaptions(videoUrl: string, jobId: string, options: Options, functionName: string, id: string,
                         o: Pipeline)
    returns (exit: Exit<Captioned>, effects: seq<Effect>)
    ensures var r := CaptionsRun(videoUrl, jobId, options, functionName, id, Words(o), o);
      && exit == ExtractExit(jobId, options, o, r)
      && effects == ExtractEffects(videoUrl, jobId, options, o, r)
  {
    var videoPath := VideoPath(jobId);
    var audioPath := AudioPath(jobId);
    exit, effects := TryExtract(videoUrl, jobId, options, functionName, id, o);
    // the finally block, which a hung poll loop never reaches
    if !exit.StillPolling? {
      ghost var tried := effects;
      var files := [videoPath, audioPath];
      for k := 0 to |files|
        invariant effects == tried + Unlinks(jobId)[..k]
      {
        effects := effects + [Unlink(files[k])];
      }
    }
  }

  /** The try block of `extractCaptions`. */
  method TryExtract(videoUrl: string, jobId: string, options: Options, functionName: string, id: string,
                    o: Pipeline)
    returns (exit: Exit<Captioned>, effects: seq<Effect>)
    ensures var r := CaptionsRun(videoUrl, jobId, options, functionName, id, Words(o), o);
      && exit == ExtractExit(jobId, options, o, r)
      && effects == ExtractTryEffects(videoUrl, jobId, options, o, r)
  {
    var style := DefaultIfUndefined(options.style, Str("heat"));
    effects := [];
    if Truthy(options.supabaseUrl) && Truthy(options.supabaseKey) {
      effects := [CreateJobRow(options.supabaseUrl, jobId, options.userId, style)];
      if o.jobRow.Fail? {
        return Threw(o.jobRow.message), effects;
      }
    }
    assert effects == RowEffects(jobId, options);
    exit, effects := TryAfterRow(videoUrl, jobId, options, functionName, id, o, effects);
  }

  /** The try block after the job row, appending to the effects `before` it:
      the preparation steps, then, once there are words, the render and the
      notification. */
  method TryAfterRow(videoUrl: string, jobId: string, options: Options, functionName: string, id: string,
                     o: Pipeline, before: seq<Effect>)
    returns (exit: Exit<Captioned>, effects: seq<Effect>)
    ensures var r := CaptionsRun(videoUrl, jobId, options, functionName, id, Words(o), o);
      && exit == PreparedExit(jobId, options, o, r)
      && effects == if ReachesRender(o) then before + PrepEffects(videoUrl, jobId, o) + RenderAndNotifyEffects(jobId, options, r)
                    else before + PrepEffects(videoUrl, jobId, o)
  {
    var prepared, prep := Prepare(videoUrl, jobId, o);
    effects := before + prep;
    if prepared.Some? {
      return Threw(prepared.value), effects;
    }
    var words := if o.transcription.value.Some? then o.transcription.value.value else [];
    if |words| == 0 {
      return Returned(Captioned(words, None)), effects;
    }
    var rest;
    exit, rest := TryRenderAndNotify(videoUrl, jobId, options, functionName, id, words, o);
    effects := effects + rest;
  }

  /** The download, the save, the audio extraction and the transcription: the
      error of the first step that fails, if any, and what was done. */
  method Prepare(videoUrl: string, jobId: string, o: Pipeline) returns (failure: Option<string>, effects: seq<Effect>)
    ensures failure == PrepFailure(o)
    ensures effects == PrepEffects(videoUrl, jobId, o)
  {
    var videoPath := VideoPath(jobId);
    var audioPath := AudioPath(jobId);
    effects := [FetchVideo(videoUrl)];
    match o.fetch {
      case FetchRejected(m) =>
        return Some(m), effects;
      case Response(ok, status) =>
        if !ok {
          return Some(DownloadFailedMessage(status)), effects;
        }
    }
    effects := effects + [SaveVideo(videoPath)];
    if o.save.Fail? {
      return Some(o.save.message), effects;
    }
    effects := effects + [ExtractAudio(videoPath, audioPath)];
    if o.ffmpeg.Fail? {
      return Some(o.ffmpeg.message), effects;
    }
    effects := effects + [Transcribe(audioPath)];
    if o.transcription.Err? {
      return Some(o.transcription.message), effects;
    }
    return None, effects;
  }

  /** The render and notification steps of the try block. */
  method TryRenderAndNotify(videoUrl: string, jobId: string, options: Options, functionName: string, id: string,
                            words: seq<Timing.Word>, o: Pipeline)
    returns (exit: Exit<Captioned>, effects: seq<Effect>)
    ensures var r := CaptionsRun(videoUrl, jobId, options, functionName, id, words, o);
      && exit == RenderAndNotifyExit(words, jobId, options, o, r)
      && effects == RenderAndNotifyEffects(jobId, options, r)
  {
    var d := VideoDimensions(o.probe);
    var rendered, renderEffects := RenderCaptionsWithRemotion(
      videoUrl, words, DefaultIfUndefined(options.style, Str("heat")), jobId, RenderOptionsOf(d, options),
      functionName, id, o.render);
    effects := [Probe(VideoPath(jobId))] + renderEffects;
    match rendered {
      case Threw(m) =>
        return Threw(m), effects;
      case StillPolling =>
        return StillPolling, effects;
      case Returned(_) =>
    }
    var publicUrl := PublicUrl(options.baseUrl, jobId);
    if Truthy(options.supabaseKey) {
      effects := effects + [NotifyJobComplete(jobId, publicUrl)];
      if o.notify.Fail? {
        return Threw(o.notify.message), effects;
      }
    }
    return Returned(Captioned(words, Some(publicUrl))), effects;
  }

  // ---------------------------------------------------------------------------
  // What a call of extractCaptions does
  // ---------------------------------------------------------------------------

  /** The render call `extractCaptions` makes does nothing but render steps; once
      there are words it ends as the shared steps do, and when it returns, its
      download wrote `/tmp/<jobId>-captioned.mp4`. */
  lemma CaptionsRunFacts(videoUrl: string, jobId: string, options: Options, functionName: string, id: string,
                         words: seq<Timing.Word>, o: Pipeline)
    ensures var r := CaptionsRun(videoUrl, jobId, options, functionName, id, words, o);
      && Bookkeeping(r.effects) == []
      && (|words| > 0 ==> (r.exit.Returned? <==> TryExit(o.render).Returned?)
                          && (r.exit.StillPolling? <==> TryExit(o.render).StillPolling?))
      && (r.exit.Returned? ==>
            Download(PollOf(o.render).outBucket, PollOf(o.render).outKey, "/tmp/" + jobId + "-captioned.mp4") in r.effects)
  {
    var r := CaptionsRun(videoUrl, jobId, options, functionName, id, words, o);
    if |words| > 0 {
      var ro := RenderOptionsOf(VideoDimensions(o.probe), options);
      var job := CaptionsJob(videoUrl, words, StyleOrDefault(options), jobId, ro, functionName, id);
      RenderStepsOnly(job, o.render);
      StepsNoBookkeeping(r.effects);
      if r.exit.Returned? {
        var t := TryEffects(job, o.render);
        CaptionsRenderReturnsOutput(videoUrl, words, StyleOrDefault(options), jobId, ro, functionName, id, o.render);
        CleanupFailuresIgnored(job, o.render);
        assert r.effects == t + Finally(job.tmpDir, SiteOf(job, o.render));
        assert t[|t| - 1] in r.effects;
      }
    }
  }

  /** Every step before the render succeeded, there were words, and the render
      call returned. */
  predicate RenderReturned(options: Options, o: Pipeline, r: RenderRun) {
    !RowFailed(options, o) && ReachesRender(o) && r.exit.Returned?
  }

  /** Every step before the render succeeded, there were words, and the render
      call is still polling. */
  predicate Hangs(options: Options, o: Pipeline, r: RenderRun) {
    !RowFailed(options, o) && ReachesRender(o) && r.exit.StillPolling?
  }

  /** `extractCaptions` is still waiting exactly when its render call is, and it
      got that far. */
  lemma ExtractHangsIff(jobId: string, options: Options, o: Pipeline, r: RenderRun)
    ensures ExtractExit(jobId, options, o, r).StillPolling? <==> Hangs(options, o, r)
  {
  }

  /** Of the render steps, only the notification is bookkeeping. */
  lemma RenderAndNotifyBookkeeping(jobId: string, options: Options, r: RenderRun)
    requires Bookkeeping(r.effects) == []
    ensures Bookkeeping(RenderAndNotifyEffects(jobId, options, r)) ==
      if r.exit.Returned? && Truthy(options.supabaseKey) then [Notification(jobId, options)] else []
  {
    var probe := [Probe(VideoPath(jobId))];
    var n := if r.exit.Returned? && Truthy(options.supabaseKey) then [Notification(jobId, options)] else [];
    BookkeepingSingle(probe[0]);
    if n != [] {
      BookkeepingSingle(n[0]);
    }
    BookkeepingConcat(probe, r.effects);
    BookkeepingConcat(probe + r.effects, n);
  }

  /** Besides the pipeline's own steps, a call whose render call does nothing but
      render steps creates the job row exactly when both Supabase settings are
      truthy, notifies completion with the public URL exactly when the render
      returned and `supabaseKey` is truthy, and unlinks the video and the audio
      file unless it is still waiting; in that order. */
  lemma ExtractBookkeeping(videoUrl: string, jobId: string, options: Options, o: Pipeline, r: RenderRun)
    requires Bookkeeping(r.effects) == []
    ensures Bookkeeping(ExtractEffects(videoUrl, jobId, options, o, r)) ==
      (if Truthy(options.supabaseUrl) && Truthy(options.supabaseKey)
       then [CreateJobRow(options.supabaseUrl, jobId, options.userId, StyleOrDefault(options))] else [])
      + (if RenderReturned(options, o, r) && Truthy(options.supabaseKey)
         then [NotifyJobComplete(jobId, PublicUrl(options.baseUrl, jobId))] else [])
      + (if Hangs(options, o, r) then [] else [Unlink("/tmp/" + jobId + ".mp4"), Unlink("/tmp/" + jobId + ".wav")])
  {
    var t := ExtractTryEffects(videoUrl, jobId, options, o, r);
    var tail := if ExtractExit(jobId, options, o, r).StillPolling? then [] else Unlinks(jobId);
    TryBookkeeping(videoUrl, jobId, options, o, r);
    ExtractHangsIff(jobId, options, o, r);
    UnlinksBookkeeping(jobId);
    BookkeepingConcat(t, tail);
  }

  /** In the try block, the job row and the notification. */
  lemma TryBookkeeping(videoUrl: string, jobId: string, options: Options, o: Pipeline, r: RenderRun)
    requires Bookkeeping(r.effects) == []
    ensures Bookkeeping(ExtractTryEffects(videoUrl, jobId, options, o, r)) ==
      RowEffects(jobId, options)
      + if RenderReturned(options, o, r) && Truthy(options.supabaseKey) then [Notification(jobId, options)] else []
  {
    var row := RowEffects(jobId, options);
    var prep := PrepEffects(videoUrl, jobId, o);
    if row != [] {
      BookkeepingSingle(row[0]);
    }
    if !RowFailed(options, o) {
      NoBookkeeping(prep);
      BookkeepingConcat(row, prep);
      if ReachesRender(o) {
        RenderAndNotifyBookkeeping(jobId, options, r);
        BookkeepingConcat(row + prep, RenderAndNotifyEffects(jobId, options, r));
      }
    }
  }

  /** The Supabase job row is created exactly when both `supabaseUrl` and
      `supabaseKey` are truthy, and then as the very first step. */
  lemma JobRowIff(videoUrl: string, jobId: string, options: Options, o: Pipeline, r: RenderRun)
    requires Bookkeeping(r.effects) == []
    ensures var e := ExtractEffects(videoUrl, jobId, options, o, r);
      && ((exists i :: 0 <= i < |e| && e[i].CreateJobRow?) <==> Truthy(options.supabaseUrl) && Truthy(options.supabaseKey))
      && (Truthy(options.supabaseUrl) && Truthy(options.supabaseKey) ==>
            e[0] == CreateJobRow(options.supabaseUrl, jobId, options.userId, DefaultIfUndefined(options.style, Str("heat"))))
  {
    var e := ExtractEffects(videoUrl, jobId, options, o, r);
    if CreatesJobRow(options) {
      assert e[0] == ExtractTryEffects(videoUrl, jobId, options, o, r)[0];
    } else {
      ExtractBookkeeping(videoUrl, jobId, options, o, r);
      forall i | 0 <= i < |e| ensures !e[i].CreateJobRow? {
        BookkeepingMembers(e, e[i]);
      }
    }
  }

  /** Completion is notified exactly when the render returned and `supabaseKey`
      is truthy, and then with the public URL, right before the two unlinks. */
  lemma NotifiesIff(videoUrl: string, jobId: string, options: Options, o: Pipeline, r: RenderRun)
    requires Bookkeeping(r.effects) == []
    ensures var e := ExtractEffects(videoUrl, jobId, options, o, r);
      && ((exists i :: 0 <= i < |e| && e[i].NotifyJobComplete?) <==> RenderReturned(options, o, r) && Truthy(options.supabaseKey))
      && (RenderReturned(options, o, r) && Truthy(options.supabaseKey) ==>
            |e| >= 3 && e[|e| - 3..] == [NotifyJobComplete(jobId, PublicUrl(options.baseUrl, jobId))] + Unlinks(jobId))
  {
    var e := ExtractEffects(videoUrl, jobId, options, o, r);
    var t := ExtractTryEffects(videoUrl, jobId, options, o, r);
    ExtractBookkeeping(videoUrl, jobId, options, o, r);
    if RenderReturned(options, o, r) && Truthy(options.supabaseKey) {
      assert e == t + Unlinks(jobId);
      assert t[|t| - 1] == Notification(jobId, options);
      LastBeforeTail(t, Unlinks(jobId));
      assert e[|e| - 3] == Notification(jobId, options);
    } else {
      forall i | 0 <= i < |e| ensures !e[i].NotifyJobComplete? {
        BookkeepingMembers(e, e[i]);
      }
    }
  }

  lemma LastBeforeTail(t: seq<Effect>, u: seq<Effect>)
    requires |t| > 0
    ensures (t + u)[|t + u| - |u| - 1..] == [t[|t| - 1]] + u
  {
    var e := t + u;
    var s := e[|e| - |u| - 1..];
    assert |s| == |u| + 1;
    forall i | 0 <= i < |s| ensures s[i] == ([t[|t| - 1]] + u)[i] {
      if i > 0 {
        assert s[i] == e[|t| - 1 + i] == u[i - 1];
      }
    }
  }

  /** The video and audio files are unlinked, as the last two effects, on every
      way out of `extractCaptions` except an endless poll loop, which unlinks
      nothing. */
  lemma ExtractUnlinks(videoUrl: string, jobId: string, options: Options, o: Pipeline, r: RenderRun)
    requires Bookkeeping(r.effects) == []
    ensures var e := ExtractEffects(videoUrl, jobId, options, o, r);
      && (!Hangs(options, o, r) ==>
            |e| >= 2 && e[|e| - 2..] == [Unlink("/tmp/" + jobId + ".mp4"), Unlink("/tmp/" + jobId + ".wav")])
      && (Hangs(options, o, r) ==> forall i :: 0 <= i < |e| ==> !e[i].Unlink?)
  {
    var e := ExtractEffects(videoUrl, jobId, options, o, r);
    ExtractHangsIff(jobId, options, o, r);
    if Hangs(options, o, r) {
      ExtractBookkeeping(videoUrl, jobId, options, o, r);
      forall i | 0 <= i < |e| ensures !e[i].Unlink? {
        BookkeepingMembers(e, e[i]);
      }
    }
  }

  /** `extractCaptions` returns a URL exactly when the render returned and, with
      a truthy `supabaseKey`, the notification succeeded; the URL is
      `<baseUrl>/captions-output/<jobId>-captioned.mp4`, and every effect of the
      render call is among the call's effects. */
  lemma SucceedsWithPublicUrl(videoUrl: string, jobId: string, options: Options, o: Pipeline, r: RenderRun)
    ensures var exit := ExtractExit(jobId, options, o, r);
      && (exit.Returned? && exit.value.videoUrl.Some? <==>
            RenderReturned(options, o, r) && (Truthy(options.supabaseKey) ==> o.notify.Pass?))
      && (exit.Returned? && exit.value.videoUrl.Some? ==>
            exit.value.words == Words(o)
            && exit.value.videoUrl.value == Interpolated(options.baseUrl) + "/captions-output/" + jobId + "-captioned.mp4"
            && forall x :: x in r.effects ==> x in ExtractEffects(videoUrl, jobId, options, o, r))
  {
  }

  /** So a call that returns a URL downloaded the rendered video to
      `/tmp/<jobId>-captioned.mp4`, the file that URL names. */
  lemma PublicUrlWasDownloaded(videoUrl: string, jobId: string, options: Options, functionName: string, id: string,
                               o: Pipeline)
    requires var r := CaptionsRun(videoUrl, jobId, options, functionName, id, Words(o), o);
      var exit := ExtractExit(jobId, options, o, r);
      exit.Returned? && exit.value.videoUrl.Some?
    ensures TryExit(o.render).Returned?
    ensures Download(PollOf(o.render).outBucket, PollOf(o.render).outKey, "/tmp/" + jobId + "-captioned.mp4")
      in ExtractEffects(videoUrl, jobId, options, o, CaptionsRun(videoUrl, jobId, options, functionName, id, Words(o), o))
  {
    var r := CaptionsRun(videoUrl, jobId, options, functionName, id, Words(o), o);
    SucceedsWithPublicUrl(videoUrl, jobId, options, o, r);
    CaptionsRunFacts(videoUrl, jobId, options, functionName, id, Words(o), o);
  }

  /** An empty transcription returns the (empty) words with no URL, right after
      transcribing: nothing is probed, rendered or notified. */
  lemma EmptyTranscriptionReturnsEarly(videoUrl: string, jobId: string, options: Options, o: Pipeline, r: RenderRun)
    requires CreatesJobRow(options) ==> o.jobRow.Pass?
    requires o.fetch.Response? && o.fetch.ok && o.save.Pass? && o.ffmpeg.Pass?
    requires o.transcription.Ok? && (o.transcription.value.None? || o.transcription.value.value == [])
    ensures ExtractExit(jobId, options, o, r) == Returned(Captioned([], None))
    ensures ExtractEffects(videoUrl, jobId, options, o, r) ==
      RowEffects(jobId, options)
      + [FetchVideo(videoUrl), SaveVideo(VideoPath(jobId)), ExtractAudio(VideoPath(jobId), AudioPath(jobId)),
         Transcribe(AudioPath(jobId))]
      + Unlinks(jobId)
  {
  }

  /** A response that is not ok fails with `Failed to download video: <status>`,
      and nothing but the unlinks follows. */
  lemma DownloadNotOk(videoUrl: string, jobId: string, options: Options, o: Pipeline, r: RenderRun, status: nat)
    requires CreatesJobRow(options) ==> o.jobRow.Pass?
    requires o.fetch == Response(false, status)
    ensures ExtractExit(jobId, options, o, r) == Threw("Failed to download video: " + Decimal(status))
    ensures ExtractEffects(videoUrl, jobId, options, o, r) ==
      RowEffects(jobId, options) + [FetchVideo(videoUrl)] + Unlinks(jobId)
  {
  }
}
