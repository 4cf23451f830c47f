/** `renderVideo` in renderer.js: it checks its arguments inside the try block,
    writes a three-file Remotion project (the generated component, `Root.jsx` and
    `index.jsx`) and runs the shared Lambda render steps with their cleanup. The
    render id (a fresh UUID) and the `REMOTION_FUNCTION_NAME` setting are
    parameters; an unset setting is the empty string. Paths are relative to the
    repository root. */
module Renderer {
  import opened Js
  import opened Remote

  /** The parameters `buildRootJsx` fills into the `Root.jsx` template: the
      composition `MainVideo` over `MainComposition`, at 1280 by 720 pixels. */
  function BuildRootJsx(durationInFrames: Value, fps: Value): RootJsx {
    RootJsx("MainVideo", "MainComposition", durationInFrames, fps, Number(1280.0), Number(720.0))
  }

  /** The `Root.jsx` of a render registers the composition its request asks
      for, `MainVideo` over `MainComposition`, with the given duration and frame
      rate, at 1280 by 720. */
  lemma RootRegistersRequestedComposition(id: string, componentCode: string, durationInFrames: Value, fps: Value,
                                          functionName: string)
    ensures var job := RenderJob(id, componentCode, durationInFrames, fps, functionName);
      && job.files[1].name == "Root.jsx" && job.files[1].content.RootSource?
      && var root := job.files[1].content.root;
         && root.compositionId == job.composition == RequestOf(job, "").composition
         && root.component == "MainComposition"
         && root.durationInFrames == durationInFrames && root.fps == fps
         && root.width == Number(1280.0) && root.height == Number(720.0)
  {
  }

  /** The three files of the temporary project. */
  function ProjectFiles(componentCode: string, durationInFrames: Value, fps: Value): seq<FileWrite> {
    [ FileWrite("Component.jsx", ComponentSource(componentCode)),
      FileWrite("Root.jsx", RootSource(BuildRootJsx(durationInFrames, fps))),
      FileWrite("index.jsx", IndexSource) ]
  }

  function TmpDir(id: string): string { "tmp/" + id }

  function OutputPath(id: string): string { "videos/" + id + ".mp4" }

  /** What `renderVideo` hands to the shared steps. */
  function RenderJob(id: string, componentCode: string, durationInFrames: Value, fps: Value,
                     functionName: string): Job
  {
    Job(TmpDir(id), ProjectFiles(componentCode, durationInFrames, fps), "ms-render-" + id,
        functionName, "MainVideo", NoProps, 120000, 20, OutputPath(id))
  }

  /** Acceptable component code: a truthy string (the whitespace check is
      validation's job, not the renderer's). */
  predicate CodeUsable(componentCode: Value) {
    Truthy(componentCode) && TypeOf(componentCode) == "string"
  }

  function InvalidCodeMessage(componentCode: Value): string {
    "renderVideo received invalid componentCode: " + TypeOf(componentCode)
    + ". This is a bug — claude.js should have validated this already."
  }

  const MissingFunctionMessage := "REMOTION_FUNCTION_NAME is not set in .env"

  /** `renderVideo(componentCode, durationInFrames = 150, fps = 30)`. Both argument
      checks run inside the try block, so a rejected call still removes the
      (never created) temporary directory, and does nothing else. */
  method RenderVideo(componentCode: Value, durationInFrames: Value, fps: Value, functionName: string,
                     id: string, w: Lambda)
    returns (exit: Exit<string>, effects: seq<Effect>)
    ensures exit == VideoExit(componentCode, functionName, id, w)
    ensures effects == VideoEffects(componentCode, durationInFrames, fps, functionName, id, w)
  {
    var duration := DefaultIfUndefined(durationInFrames, Number(150.0));
    var rate := DefaultIfUndefined(fps, Number(30.0));
    var tmpDir := TmpDir(id);
    if !Truthy(componentCode) || TypeOf(componentCode) != "string" {
      var cleanup;
      cleanup, effects := RunFinally(tmpDir, None, Caught(Awaited(w.remove)), Caught(Awaited(w.delete)));
      exit := AfterFinally(Threw(InvalidCodeMessage(componentCode)), cleanup);
      return;
    }
    if functionName == "" {
      var cleanup;
      cleanup, effects := RunFinally(tmpDir, None, Caught(Awaited(w.remove)), Caught(Awaited(w.delete)));
      exit := AfterFinally(Threw(MissingFunctionMessage), cleanup);
      return;
    }
    var job := RenderJob(id, componentCode.s, duration, rate, functionName);
    var done;
    done, effects := RunRender(job, w);
    exit := WithValue(done, id);
  }

  // ---------------------------------------------------------------------------
  // What a call of renderVideo does
  // ---------------------------------------------------------------------------

  /** What `renderVideo` does: nothing but the cleanup when an argument is
      rejected, otherwise the shared steps over its job. */
  function VideoEffects(componentCode: Value, durationInFrames: Value, fps: Value, functionName: string,
                        id: string, w: Lambda): seq<Effect>
  {
    if !CodeUsable(componentCode) || functionName == "" then [RemoveDir(TmpDir(id))]
    else RenderEffects(RenderJob(id, componentCode.s, DefaultIfUndefined(durationInFrames, Number(150.0)),
                                 DefaultIfUndefined(fps, Number(30.0)), functionName), w)
  }

  /** How `renderVideo` ends: the argument errors in the source's order, otherwise
      as the shared steps end, returning the id. */
  function VideoExit(componentCode: Value, functionName: string, id: string, w: Lambda): Exit<string> {
    if !CodeUsable(componentCode) then Threw(InvalidCodeMessage(componentCode))
    else if functionName == "" then Threw(MissingFunctionMessage)
    else WithValue(TryExit(w), id)
  }

  /** A rejected argument throws before any file is written or any remote call is
      made; the invalid code is reported even when the function name is missing too. */
  lemma RejectedBeforeAnyStep(componentCode: Value, durationInFrames: Value, fps: Value,
                              functionName: string, id: string, w: Lambda)
    requires !CodeUsable(componentCode) || functionName == ""
    ensures forall s :: s != RemoveTemp ==>
      CountOf(VideoEffects(componentCode, durationInFrames, fps, functionName, id, w), s) == 0
    ensures VideoExit(componentCode, functionName, id, w) ==
      if !CodeUsable(componentCode) then Threw(InvalidCodeMessage(componentCode)) else Threw(MissingFunctionMessage)
  {
    var e := VideoEffects(componentCode, durationInFrames, fps, functionName, id, w);
    assert e[1..] == [];
  }

  /** A render that gets past the checks first writes the project: the given
      component, and a `Root.jsx` with the given duration and frame rate (150 and
      30 when left undefined) at 1280 by 720. */
  lemma WritesProjectFirst(componentCode: Value, durationInFrames: Value, fps: Value,
                           functionName: string, id: string, w: Lambda)
    requires CodeUsable(componentCode) && functionName != ""
    ensures var e := VideoEffects(componentCode, durationInFrames, fps, functionName, id, w);
      && |e| > 0 && e[0].WriteProject? && e[0].dir == "tmp/" + id && |e[0].files| == 3
      && e[0].files[0] == FileWrite("Component.jsx", ComponentSource(componentCode.s))
      && e[0].files[1].name == "Root.jsx" && e[0].files[1].content.RootSource?
      && var root := e[0].files[1].content.root;
         && root.durationInFrames == (if durationInFrames.Undefined? then Number(150.0) else durationInFrames)
         && root.fps == (if fps.Undefined? then Number(30.0) else fps)
         && root.width == Number(1280.0) && root.height == Number(720.0)
         && root.compositionId == "MainVideo"
  {
    var job := RenderJob(id, componentCode.s, DefaultIfUndefined(durationInFrames, Number(150.0)),
                         DefaultIfUndefined(fps, Number(30.0)), functionName);
    assert TryEffects(job, w)[0] == VideoEffects(componentCode, durationInFrames, fps, functionName, id, w)[0];
  }

  /** A render that returns gives back its id, and its last try-block step put the
      completed render's output into `videos/<id>.mp4`. */
  lemma ReturnsIdAfterDownload(componentCode: Value, durationInFrames: Value, fps: Value,
                               functionName: string, id: string, w: Lambda)
    requires VideoExit(componentCode, functionName, id, w).Returned?
    ensures VideoExit(componentCode, functionName, id, w).value == id
    ensures var job := RenderJob(id, componentCode.s, DefaultIfUndefined(durationInFrames, Number(150.0)),
                                 DefaultIfUndefined(fps, Number(30.0)), functionName);
      var t := TryEffects(job, w);
      && t[|t| - 1].Download? && t[|t| - 1].destination == "videos/" + id + ".mp4"
      && t[|t| - 1].bucketName == PollOf(w).outBucket && t[|t| - 1].key == PollOf(w).outKey
  {
    var job := RenderJob(id, componentCode.s, DefaultIfUndefined(durationInFrames, Number(150.0)),
                         DefaultIfUndefined(fps, Number(30.0)), functionName);
    ReturnedAfterDownload(job, w);
  }

  /** Every call that does not hang removes the temporary directory exactly once;
      the site `ms-render-<id>` is deleted exactly when the bucket was obtained. */
  lemma VideoCleanup(componentCode: Value, durationInFrames: Value, fps: Value,
                     functionName: string, id: string, w: Lambda)
    ensures var e := VideoEffects(componentCode, durationInFrames, fps, functionName, id, w);
      var exit := VideoExit(componentCode, functionName, id, w);
      && CountOf(e, RemoveTemp) == (if exit.StillPolling? then 0 else 1)
      && CountOf(e, DropSite) ==
         (if !exit.StillPolling? && CodeUsable(componentCode) && functionName != ""
             && w.project.Pass? && w.bucket.Ok? && w.bucket.value != "" then 1 else 0)
      && InOrder(e)
  {
    VideoRemovesTempDir(componentCode, durationInFrames, fps, functionName, id, w);
    VideoDeletesSite(componentCode, durationInFrames, fps, functionName, id, w);
    VideoInOrder(componentCode, durationInFrames, fps, functionName, id, w);
  }

  lemma VideoRemovesTempDir(componentCode: Value, durationInFrames: Value, fps: Value,
                            functionName: string, id: string, w: Lambda)
    ensures CountOf(VideoEffects(componentCode, durationInFrames, fps, functionName, id, w), RemoveTemp) ==
      if VideoExit(componentCode, functionName, id, w).StillPolling? then 0 else 1
  {
    if CodeUsable(componentCode) && functionName != "" {
      var job := RenderJob(id, componentCode.s, DefaultIfUndefined(durationInFrames, Number(150.0)),
                           DefaultIfUndefined(fps, Number(30.0)), functionName);
      RenderRemovesTempDir(job, w);
    }
  }

  lemma VideoDeletesSite(componentCode: Value, durationInFrames: Value, fps: Value,
                         functionName: string, id: string, w: Lambda)
    ensures CountOf(VideoEffects(componentCode, durationInFrames, fps, functionName, id, w), DropSite) ==
      if !VideoExit(componentCode, functionName, id, w).StillPolling? && CodeUsable(componentCode)
         && functionName != "" && w.project.Pass? && w.bucket.Ok? && w.bucket.value != "" then 1 else 0
  {
    if CodeUsable(componentCode) && functionName != "" {
      var job := RenderJob(id, componentCode.s, DefaultIfUndefined(durationInFrames, Number(150.0)),
                           DefaultIfUndefined(fps, Number(30.0)), functionName);
      RenderDeletesSite(job, w);
    }
  }

  lemma VideoInOrder(componentCode: Value, durationInFrames: Value, fps: Value,
                     functionName: string, id: string, w: Lambda)
    ensures InOrder(VideoEffects(componentCode, durationInFrames, fps, functionName, id, w))
  {
    if CodeUsable(componentCode) && functionName != "" {
      var job := RenderJob(id, componentCode.s, DefaultIfUndefined(durationInFrames, Number(150.0)),
                           DefaultIfUndefined(fps, Number(30.0)), functionName);
      RenderInOrder(job, w);
    }
  }
}
