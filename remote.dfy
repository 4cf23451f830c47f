/** The render steps renderer.js and captions.js share: a temporary Remotion
    project is written, a bucket obtained, a site deployed, a Lambda render
    dispatched and polled, and the result downloaded; a `finally` block removes the
    temporary directory and the site. Remote and file-system calls are an oracle
    (`Lambda`) of per-step outcomes and a finite sequence of progress replies;
    what the code does to the outside world is returned as a list of effects. */
module Remote {
  import opened Js
  import Timing

  datatype Outcome = Pass | Fail(message: string)

  datatype Result<+T> = Ok(value: T) | Err(message: string)

  /** How a call ends: it returns, it throws, or (only in the poll loop) it is
      still waiting when the supplied progress replies run out. */
  datatype Exit<+T> = Returned(value: T) | Threw(message: string) | StillPolling

  // ---------------------------------------------------------------------------
  // Data exchanged with the render service
  // ---------------------------------------------------------------------------

  /** What `renderMediaOnLambda` returns. */
  datatype RenderHandle = RenderHandle(renderId: string, bucketName: string)

  /** An entry of `progress.errors`; its message may be missing. */
  datatype RenderError = RenderError(message: Option<string>)

  /** What `getRenderProgress` returns (the fields the loop reads). */
  datatype Progress = Progress(
    overallProgress: real,
    done: bool,
    fatalErrorEncountered: bool,
    errors: seq<RenderError>,
    outKey: Option<string>,
    outBucket: Option<string>)

  /** One progress query: a report, or the query itself throwing. */
  datatype Reply = Report(progress: Progress) | QueryFailed(message: string)

  /** The parameters of the generated `Root.jsx` template. */
  datatype RootJsx = RootJsx(
    compositionId: string,
    component: string,
    durationInFrames: Value,
    fps: Value,
    width: Value,
    height: Value)

  /** The content of one file of the temporary project. */
  datatype ProjectFile =
    | ComponentSource(code: string)
    | CopyOf(source: string)
    | RootSource(root: RootJsx)
    | IndexSource

  datatype FileWrite = FileWrite(name: string, content: ProjectFile)

  /** The input props handed to the composition. */
  datatype InputProps =
    | NoProps
    | CaptionProps(videoUrl: string, words: seq<Timing.Word>, style: Value, emojiCues: seq<Timing.EmojiCue>)

  datatype RenderRequest = RenderRequest(
    functionName: string,
    serveUrl: string,
    composition: string,
    inputProps: InputProps,
    codec: string,
    timeoutInMilliseconds: int,
    framesPerLambda: int)

  /** Everything the modelled code does to the outside world, in order. Each
      remote or file-system call is recorded when it is attempted. */
  datatype Effect =
    | WriteProject(dir: string, files: seq<FileWrite>)
    | GetOrCreateBucket
    | DeploySite(bucketName: string, siteName: string, entryPoint: string)
    | RenderMedia(request: RenderRequest)
    | GetProgress(renderId: string, bucketName: string)
    | Download(bucketName: string, key: Option<string>, destination: string)
    | RemoveDir(dir: string)
    | DeleteSite(bucketName: string, siteName: string)
    | CreateJobRow(supabaseUrl: Value, jobId: string, userId: Value, style: Value)
    | FetchVideo(url: string)
    | SaveVideo(path: string)
    | ExtractAudio(videoPath: string, audioPath: string)
    | Transcribe(audioPath: string)
    | Probe(videoPath: string)
    | NotifyJobComplete(jobId: string, videoUrl: string)
    | Unlink(path: string)

  /** The outcomes of the calls of one render: writing the project, obtaining the
      bucket, deploying the site, dispatching the render, the progress replies in
      the order they arrive, the download, and the two cleanup calls of the
      finally block: removing the temporary directory and deleting the site. */
  datatype Lambda = Lambda(
    project: Outcome,
    bucket: Result<string>,
    deploy: Result<string>,
    render: Result<RenderHandle>,
    replies: seq<Reply>,
    download: Outcome,
    remove: Outcome,
    delete: Outcome)

  /** What differs between the two callers of the shared steps. */
  datatype Job = Job(
    tmpDir: string,
    files: seq<FileWrite>,
    siteName: string,
    functionName: string,
    composition: string,
    inputProps: InputProps,
    timeoutInMilliseconds: int,
    framesPerLambda: int,
    outputPath: string)

  function EntryPoint(job: Job): string {
    job.tmpDir + "/index.jsx"
  }

  function RequestOf(job: Job, serveUrl: string): RenderRequest {
    RenderRequest(job.functionName, serveUrl, job.composition, job.inputProps, "h264",
                  job.timeoutInMilliseconds, job.framesPerLambda)
  }

  // ---------------------------------------------------------------------------
  // The poll loop
  // ---------------------------------------------------------------------------

  /** A reply that ends the loop: a failed query, a fatal error, or completion. */
  predicate Terminal(r: Reply) {
    r.QueryFailed? || r.progress.fatalErrorEncountered || r.progress.done
  }

  /** The index of the first terminal reply, `|replies|` when there is none. */
  function FirstTerminal(replies: seq<Reply>): (k: nat)
    ensures k <= |replies|
    ensures forall j :: 0 <= j < k ==> !Terminal(replies[j])
    ensures k < |replies| ==> Terminal(replies[k])
  {
    if |replies| == 0 then 0
    else if Terminal(replies[0]) then 0
    else 1 + FirstTerminal(replies[1..])
  }

  /** How the loop ends. */
  datatype PollEnd =
    | Finished(outKey: Option<string>, outBucket: string)
    | PollThrew(message: string)
    | NoTerminal

  /** `progress.errors?.[0]?.message ?? 'Lambda render failed'` */
  function FatalMessage(p: Progress): string {
    if |p.errors| > 0 && p.errors[0].message.Some? then p.errors[0].message.value
    else "Lambda render failed"
  }

  /** The end a terminal reply brings: the fatal flag is tested before `done`, and
      the output bucket falls back to the render's own bucket. */
  function Settle(r: Reply, renderBucket: string): (e: PollEnd)
    requires Terminal(r)
    ensures r.QueryFailed? ==> e == PollThrew(r.message)
    ensures r.Report? && r.progress.fatalErrorEncountered ==> e == PollThrew(FatalMessage(r.progress))
    ensures r.Report? && !r.progress.fatalErrorEncountered ==>
      e == Finished(r.progress.outKey, if r.progress.outBucket.Some? then r.progress.outBucket.value else renderBucket)
  {
    match r
    case QueryFailed(m) => PollThrew(m)
    case Report(p) =>
      if p.fatalErrorEncountered then PollThrew(FatalMessage(p))
      else Finished(p.outKey, if p.outBucket.Some? then p.outBucket.value else renderBucket)
  }

  /** The end of the loop over `replies`: decided by the first terminal reply. */
  function PollEndOf(replies: seq<Reply>, renderBucket: string): PollEnd {
    var k := FirstTerminal(replies);
    if k < |replies| then Settle(replies[k], renderBucket) else NoTerminal
  }

  /** The number of progress queries the loop makes. */
  function Queries(replies: seq<Reply>): nat {
    var k := FirstTerminal(replies);
    if k < |replies| then k + 1 else |replies|
  }

  function QueryEffects(h: RenderHandle, n: nat): (r: seq<Effect>)
    ensures |r| == n && forall i :: 0 <= i < n ==> r[i] == GetProgress(h.renderId, h.bucketName)
  {
    seq(n, _ => GetProgress(h.renderId, h.bucketName))
  }

  /** The `while (true)` loop: one progress query per reply until a terminal one. */
  method Poll(h: RenderHandle, replies: seq<Reply>) returns (end: PollEnd, effects: seq<Effect>)
    ensures end == PollEndOf(replies, h.bucketName)
    ensures effects == QueryEffects(h, Queries(replies))
  {
    effects := [];
    var i := 0;
    while i < |replies|
      invariant 0 <= i <= |replies|
      invariant forall j :: 0 <= j < i ==> !Terminal(replies[j])
      invariant effects == QueryEffects(h, i)
    {
      var reply := replies[i];
      effects := effects + [GetProgress(h.renderId, h.bucketName)];
      match reply {
        case QueryFailed(m) =>
          return PollThrew(m), effects;
        case Report(p) =>
          if p.fatalErrorEncountered {
            return PollThrew(FatalMessage(p)), effects;
          }
          if p.done {
            return Finished(p.outKey, if p.outBucket.Some? then p.outBucket.value else h.bucketName), effects;
          }
      }
      i := i + 1;
    }
    return NoTerminal, effects;
  }

  /** Once a terminal reply is among the replies, the loop ends without hanging. */
  lemma PollEndsOnTerminal(replies: seq<Reply>, i: nat, renderBucket: string)
    requires i < |replies| && Terminal(replies[i])
    ensures FirstTerminal(replies) <= i
    ensures !PollEndOf(replies, renderBucket).NoTerminal?
  {
  }


  // ---------------------------------------------------------------------------
  // Steps and their order
  // ---------------------------------------------------------------------------

  /** The steps of a render, in the order of the source. */
  datatype Step = Files | Bucket | Deploy | Dispatch | Await | Fetch | RemoveTemp | DropSite | Elsewhere

  function Rank(s: Step): nat {
    match s
    case Files => 0
    case Bucket => 1
    case Deploy => 2
    case Dispatch => 3
    case Await => 4
    case Fetch => 5
    case RemoveTemp => 6
    case DropSite => 7
    case Elsewhere => 8
  }

  function StepOf(e: Effect): Step {
    match e
    case WriteProject(_, _) => Files
    case GetOrCreateBucket => Bucket
    case DeploySite(_, _, _) => Deploy
    case RenderMedia(_) => Dispatch
    case GetProgress(_, _) => Await
    case Download(_, _, _) => Fetch
    case RemoveDir(_) => RemoveTemp
    case DeleteSite(_, _) => DropSite
    case _ => Elsewhere
  }

  /** Effects appear in the order of their steps. */
  predicate InOrder(effects: seq<Effect>) {
    forall i, j :: 0 <= i < j < |effects| ==> Rank(StepOf(effects[i])) <= Rank(StepOf(effects[j]))
  }

  /** Every effect belongs to a step ranked from `lo` to `hi`. */
  predicate RanksWithin(effects: seq<Effect>, lo: nat, hi: nat) {
    forall i :: 0 <= i < |effects| ==> lo <= Rank(StepOf(effects[i])) <= hi
  }

  /** Two ordered runs, the first ending no later than the second begins, make an
      ordered run. */
  lemma InOrderConcat(a: seq<Effect>, b: seq<Effect>, k: nat)
    requires InOrder(a) && InOrder(b)
    requires RanksWithin(a, 0, k)
    requires forall i :: 0 <= i < |b| ==> k <= Rank(StepOf(b[i]))
    ensures InOrder(a + b)
  {
    var ab := a + b;
    forall i, j | 0 <= i < j < |ab| ensures Rank(StepOf(ab[i])) <= Rank(StepOf(ab[j])) {
      if j < |a| {
        assert ab[i] == a[i] && ab[j] == a[j];
      } else if i < |a| {
        assert ab[i] == a[i] && ab[j] == b[j - |a|];
      } else {
        assert ab[i] == b[i - |a|] && ab[j] == b[j - |a|];
      }
    }
  }

  /** How many effects belong to step `s`. */
  function CountOf(effects: seq<Effect>, s: Step): nat {
    if |effects| == 0 then 0
    else (if StepOf(effects[0]) == s then 1 else 0) + CountOf(effects[1..], s)
  }

  lemma {:induction false} CountOfConcat(a: seq<Effect>, b: seq<Effect>, s: Step)
    ensures CountOf(a + b, s) == CountOf(a, s) + CountOf(b, s)
  {
    if |a| == 0 {
      assert a + b == b;
    } else {
      assert (a + b)[1..] == a[1..] + b;
      CountOfConcat(a[1..], b, s);
    }
  }

  lemma {:induction false} CountOfAbsent(a: seq<Effect>, s: Step)
    requires forall i :: 0 <= i < |a| ==> StepOf(a[i]) != s
    ensures CountOf(a, s) == 0
  {
    if |a| > 0 {
      CountOfAbsent(a[1..], s);
    }
  }

  // ---------------------------------------------------------------------------
  // The try block
  // ---------------------------------------------------------------------------

  /** The loop's end, once the render was dispatched. */
  function PollOf(w: Lambda): PollEnd
    requires w.render.Ok?
  {
    PollEndOf(w.replies, w.render.value.bucketName)
  }

  /** The download runs when the loop finished; it writes to the job's output path. */
  function FetchEffects(job: Job, w: Lambda): (r: seq<Effect>)
    requires w.render.Ok?
  {
    match PollOf(w)
    case Finished(outKey, outBucket) => [Download(outBucket, outKey, job.outputPath)]
    case _ => []
  }

  /** After dispatch: the progress queries, then the download. */
  function AwaitEffects(job: Job, w: Lambda): (r: seq<Effect>)
    requires w.render.Ok?
  {
    var q := QueryEffects(w.render.value, Queries(w.replies));
    q + FetchEffects(job, w)
  }

  /** After the site is deployed: the dispatch, then the rest when it succeeded. */
  function DispatchEffects(job: Job, w: Lambda): (r: seq<Effect>)
    requires w.deploy.Ok?
  {
    var rest := if w.render.Err? then [] else AwaitEffects(job, w);
    var head := [RenderMedia(RequestOf(job, w.deploy.value))];
    head + rest
  }

  /** Once the bucket is known: the deployment, then the rest when it succeeded. */
  function DeployEffects(job: Job, w: Lambda): (r: seq<Effect>)
    requires w.bucket.Ok?
  {
    var rest := if w.deploy.Err? then [] else DispatchEffects(job, w);
    var head := [DeploySite(w.bucket.value, job.siteName, EntryPoint(job))];
    head + rest
  }

  /** Once the project is written: the bucket, then the rest when it was obtained. */
  function BucketEffects(job: Job, w: Lambda): (r: seq<Effect>)
    requires w.project.Pass?
  {
    var rest := if w.bucket.Err? then [] else DeployEffects(job, w);
    [GetOrCreateBucket] + rest
  }

  /** What the try block does: each step once, in order, up to the first one that
      fails, with the progress query repeated once per reply up to the first
      terminal one. */
  function TryEffects(job: Job, w: Lambda): (r: seq<Effect>)
    ensures |r| > 0 && r[0] == WriteProject(job.tmpDir, job.files)
  {
    var rest := if w.project.Fail? then [] else BucketEffects(job, w);
    var head := [WriteProject(job.tmpDir, job.files)];
    head + rest
  }

  /** The stages of the try block each run their steps in order. */
  lemma AwaitInOrder(job: Job, w: Lambda)
    requires w.render.Ok?
    ensures InOrder(AwaitEffects(job, w)) && RanksWithin(AwaitEffects(job, w), 4, 5)
  {
    InOrderConcat(QueryEffects(w.render.value, Queries(w.replies)), FetchEffects(job, w), 4);
  }

  lemma DispatchInOrder(job: Job, w: Lambda)
    requires w.deploy.Ok?
    ensures InOrder(DispatchEffects(job, w)) && RanksWithin(DispatchEffects(job, w), 3, 5)
  {
    if w.render.Ok? {
      AwaitInOrder(job, w);
    }
    var rest := if w.render.Err? then [] else AwaitEffects(job, w);
    InOrderConcat([RenderMedia(RequestOf(job, w.deploy.value))], rest, 3);
  }

  lemma DeployInOrder(job: Job, w: Lambda)
    requires w.bucket.Ok?
    ensures InOrder(DeployEffects(job, w)) && RanksWithin(DeployEffects(job, w), 2, 5)
  {
    if w.deploy.Ok? {
      DispatchInOrder(job, w);
    }
    var rest := if w.deploy.Err? then [] else DispatchEffects(job, w);
    InOrderConcat([DeploySite(w.bucket.value, job.siteName, EntryPoint(job))], rest, 2);
  }

  lemma BucketInOrder(job: Job, w: Lambda)
    requires w.project.Pass?
    ensures InOrder(BucketEffects(job, w)) && RanksWithin(BucketEffects(job, w), 1, 5)
  {
    if w.bucket.Ok? {
      DeployInOrder(job, w);
    }
    var rest := if w.bucket.Err? then [] else DeployEffects(job, w);
    InOrderConcat([GetOrCreateBucket], rest, 1);
  }

  /** The try block runs its steps in order, and none of them is a cleanup step. */
  lemma TryInOrder(job: Job, w: Lambda)
    ensures InOrder(TryEffects(job, w)) && RanksWithin(TryEffects(job, w), 0, 5)
  {
    if w.project.Pass? {
      BucketInOrder(job, w);
    }
    var rest := if w.project.Fail? then [] else BucketEffects(job, w);
    InOrderConcat([WriteProject(job.tmpDir, job.files)], rest, 0);
  }

  /** How the try block ends: with the first failing step's error, still waiting
      when no reply ends the loop, and otherwise normally. */
  function TryExit(w: Lambda): Exit<()> {
    if w.project.Fail? then Threw(w.project.message)
    else if w.bucket.Err? then Threw(w.bucket.message)
    else if w.deploy.Err? then Threw(w.deploy.message)
    else if w.render.Err? then Threw(w.render.message)
    else AwaitExit(w)
  }

  /** How the try block ends once the render is dispatched: as the loop ends,
      then as the download ends. */
  function AwaitExit(w: Lambda): Exit<()>
    requires w.render.Ok?
  {
    match PollOf(w)
    case NoTerminal => StillPolling
    case PollThrew(m) => Threw(m)
    case Finished(_, _) => if w.download.Fail? then Threw(w.download.message) else Returned(())
  }

  /** The try block's exit carrying the caller's return value. */
  function WithValue<T>(e: Exit<()>, v: T): (r: Exit<T>)
    ensures r.Returned? <==> e.Returned?
    ensures r.Returned? ==> r.value == v
    ensures r.Threw? <==> e.Threw?
    ensures r.Threw? ==> r.message == e.message
    ensures r.StillPolling? <==> e.StillPolling?
  {
    match e
    case Returned(_) => Returned(v)
    case Threw(m) => Threw(m)
    case StillPolling => StillPolling
  }

  /** The bucket and site name the finally block sees. */
  datatype Site = Site(bucketName: string, siteName: string)

  /** `bucketName` and `siteName` are set together, once the bucket is obtained
      and before `deploySite` runs. */
  function SiteOf(job: Job, w: Lambda): Option<Site> {
    if w.project.Pass? && w.bucket.Ok? then Some(Site(w.bucket.value, job.siteName)) else None
  }

  /** The try block the two renders share. */
  method TryRender(job: Job, w: Lambda) returns (exit: Exit<()>, effects: seq<Effect>, site: Option<Site>)
    ensures exit == TryExit(w)
    ensures effects == TryEffects(job, w)
    ensures site == SiteOf(job, w)
  {
    StopsAtFirstFailure(job, w);
    site := None;
    effects := [WriteProject(job.tmpDir, job.files)];
    if w.project.Fail? {
      return Threw(w.project.message), effects, site;
    }
    effects := effects + [GetOrCreateBucket];
    if w.bucket.Err? {
      return Threw(w.bucket.message), effects, site;
    }
    var bucketName := w.bucket.value;
    var siteName := job.siteName;
    site := Some(Site(bucketName, siteName));
    effects := effects + [DeploySite(bucketName, siteName, EntryPoint(job))];
    if w.deploy.Err? {
      return Threw(w.deploy.message), effects, site;
    }
    var serveUrl := w.deploy.value;
    effects := effects + [RenderMedia(RequestOf(job, serveUrl))];
    if w.render.Err? {
      return Threw(w.render.message), effects, site;
    }
    DispatchedPrefix(job, w);
    var rest;
    exit, rest := AwaitRender(job, w);
    effects := effects + rest;
  }

  /** After dispatch: the poll loop, then the download once the loop finished. */
  method AwaitRender(job: Job, w: Lambda) returns (exit: Exit<()>, effects: seq<Effect>)
    requires w.render.Ok?
    ensures exit == AwaitExit(w)
    ensures effects == AwaitEffects(job, w)
  {
    var handle := w.render.value;
    var end, queries := Poll(handle, w.replies);
    match end {
      case NoTerminal =>
        assert queries + FetchEffects(job, w) == queries;
        return StillPolling, queries;
      case PollThrew(m) =>
        assert queries + FetchEffects(job, w) == queries;
        return Threw(m), queries;
      case Finished(outKey, outBucket) =>
        effects := queries + [Download(outBucket, outKey, job.outputPath)];
        if w.download.Fail? {
          return Threw(w.download.message), effects;
        }
        return Returned(()), effects;
    }
  }

  /** Once the render is dispatched, the try block's effects are the four steps
      before the loop, then the loop's queries and the download. */
  lemma DispatchedPrefix(job: Job, w: Lambda)
    requires w.project.Pass? && w.bucket.Ok? && w.deploy.Ok? && w.render.Ok?
    ensures TryEffects(job, w) ==
      [WriteProject(job.tmpDir, job.files)] + [GetOrCreateBucket] + [DeploySite(w.bucket.value, job.siteName, EntryPoint(job))]
      + [RenderMedia(RequestOf(job, w.deploy.value))] + AwaitEffects(job, w)
  {
    var head := [WriteProject(job.tmpDir, job.files)];
    var deployed := DeploySite(w.bucket.value, job.siteName, EntryPoint(job));
    var dispatched := RenderMedia(RequestOf(job, w.deploy.value));
    var a := AwaitEffects(job, w);
    assert DispatchEffects(job, w) == [dispatched] + a;
    assert DeployEffects(job, w) == [deployed] + ([dispatched] + a);
    assert BucketEffects(job, w) == [GetOrCreateBucket] + ([deployed] + ([dispatched] + a));
    assert TryEffects(job, w) == head + ([GetOrCreateBucket] + ([deployed] + ([dispatched] + a)));
  }

  // ---------------------------------------------------------------------------
  // The finally block
  // ---------------------------------------------------------------------------

  /** How `await` of a cleanup call with outcome `o` completes: a rejection
      throws its error. */
  function Awaited(o: Outcome): (r: Exit<()>)
    ensures r.Threw? <==> o.Fail?
    ensures o.Fail? ==> r.message == o.message
  {
    if o.Fail? then Threw(o.message) else Returned(())
  }

  /** `.catch(handler)` with a handler that returns nothing (`() => {}`, or one
      that only logs a warning): a rejection becomes a normal completion, and
      any other completion is kept. */
  function Caught(e: Exit<()>): (r: Exit<()>)
    ensures !r.Threw?
    ensures e.Threw? ==> r == Returned(())
    ensures !e.Threw? ==> r == e
  {
    if e.Threw? then Returned(()) else e
  }

  /** The finally block deletes the site only when it has both names. */
  predicate Deletes(site: Option<Site>) {
    site.Some? && site.value.siteName != "" && site.value.bucketName != ""
  }

  /** How the finally block completes, given how its two statements complete:
      the removal, then (when the site has both names) the deletion. The first
      statement that throws ends the block with its error. */
  function FinallyExit(site: Option<Site>, removal: Exit<()>, deletion: Exit<()>): Exit<()> {
    if removal.Threw? then removal
    else if Deletes(site) && deletion.Threw? then deletion
    else Returned(())
  }

  /** What the finally block attempts: the removal, then the deletion unless the
      removal threw. */
  function FinallyEffects(tmpDir: string, site: Option<Site>, removal: Exit<()>): seq<Effect> {
    [RemoveDir(tmpDir)]
    + (if !removal.Threw? && Deletes(site) then [DeleteSite(site.value.bucketName, site.value.siteName)] else [])
  }

  /** The finally block as the source runs it, every cleanup call completing
      normally: the temporary directory is always removed, and the site is deleted
      when both `siteName` and `bucketName` are non-empty. */
  function Finally(tmpDir: string, site: Option<Site>): (r: seq<Effect>)
    ensures |r| > 0 && r[0] == RemoveDir(tmpDir)
  {
    FinallyEffects(tmpDir, site, Returned(()))
  }

  /** The finally block over the completions of its two statements. */
  method RunFinally(tmpDir: string, site: Option<Site>, removal: Exit<()>, deletion: Exit<()>)
    returns (exit: Exit<()>, effects: seq<Effect>)
    ensures exit == FinallyExit(site, removal, deletion)
    ensures effects == FinallyEffects(tmpDir, site, removal)
  {
    effects := [RemoveDir(tmpDir)];
    if removal.Threw? {
      return removal, effects;
    }
    if site.Some? && site.value.siteName != "" && site.value.bucketName != "" {
      effects := effects + [DeleteSite(site.value.bucketName, site.value.siteName)];
      if deletion.Threw? {
        return deletion, effects;
      }
    }
    return Returned(()), effects;
  }

  /** How a try statement ends after its finally block: a finally block that
      throws replaces the try block's completion, one that completes normally
      keeps it (section 14.15.3 of ECMA-262). */
  function AfterFinally<T>(tryExit: Exit<T>, fin: Exit<()>): Exit<T> {
    if fin.Threw? then Threw(fin.message) else tryExit
  }

  /** How the finally block of the shared steps completes, each cleanup call
      with its catch. */
  function CleanupExit(job: Job, w: Lambda): Exit<()> {
    FinallyExit(SiteOf(job, w), Caught(Awaited(w.remove)), Caught(Awaited(w.delete)))
  }

  /** How a whole render ends: as the try block, then the finally block, end; a
      loop that never settles never reaches `finally`. */
  function RenderExit(job: Job, w: Lambda): Exit<()> {
    if TryExit(w).StillPolling? then StillPolling else AfterFinally(TryExit(w), CleanupExit(job, w))
  }

  /** What a whole render does: the try block, then the finally block unless the
      loop is still waiting. */
  function RenderEffects(job: Job, w: Lambda): seq<Effect> {
    TryEffects(job, w)
    + (if TryExit(w).StillPolling? then [] else FinallyEffects(job.tmpDir, SiteOf(job, w), Caught(Awaited(w.remove))))
  }

  /** The shared steps with their cleanup. Because of the catches, the render
      ends as its try block does. */
  method RunRender(job: Job, w: Lambda) returns (exit: Exit<()>, effects: seq<Effect>)
    ensures exit == RenderExit(job, w)
    ensures effects == RenderEffects(job, w)
    ensures exit == TryExit(w)
  {
    var site;
    exit, effects, site := TryRender(job, w);
    if exit.StillPolling? {
      return;
    }
    var cleanup, fin := RunFinally(job.tmpDir, site, Caught(Awaited(w.remove)), Caught(Awaited(w.delete)));
    effects := effects + fin;
    exit := AfterFinally(exit, cleanup);
    CleanupFailuresIgnored(job, w);
  }

  /** The catches make cleanup failures harmless: whatever the removal and the
      deletion do, the render ends as its try block did, and its finally block
      removes the directory and then deletes the site when it has both names. */
  lemma CleanupFailuresIgnored(job: Job, w: Lambda)
    ensures RenderExit(job, w) == TryExit(w)
    ensures RenderEffects(job, w) ==
      TryEffects(job, w) + (if TryExit(w).StillPolling? then [] else Finally(job.tmpDir, SiteOf(job, w)))
  {
    assert Caught(Awaited(w.remove)) == Returned(());
    assert Caught(Awaited(w.delete)) == Returned(());
  }

  /** Without its catch, a rejected removal would end the render with its error
      whatever the try block did, and the site would not be deleted; a rejected
      deletion would also end it with its error. */
  lemma UncaughtCleanupThrows(job: Job, w: Lambda)
    requires !TryExit(w).StillPolling?
    ensures var uncaught := FinallyExit(SiteOf(job, w), Awaited(w.remove), Awaited(w.delete));
      && (w.remove.Fail? ==>
            AfterFinally(TryExit(w), uncaught) == Threw(w.remove.message)
            && FinallyEffects(job.tmpDir, SiteOf(job, w), Awaited(w.remove)) == [RemoveDir(job.tmpDir)])
      && (w.remove.Pass? && w.delete.Fail? && Deletes(SiteOf(job, w)) ==>
            AfterFinally(TryExit(w), uncaught) == Threw(w.delete.message))
  {
  }

  // ---------------------------------------------------------------------------
  // Properties of a render
  // ---------------------------------------------------------------------------

  /** All effects of a render come in step order, the cleanup last. */
  lemma RenderInOrder(job: Job, w: Lambda)
    ensures InOrder(RenderEffects(job, w))
  {
    var t := TryEffects(job, w);
    var fin := if TryExit(w).StillPolling? then [] else Finally(job.tmpDir, SiteOf(job, w));
    CleanupFailuresIgnored(job, w);
    TryInOrder(job, w);
    FinallyInOrder(job.tmpDir, SiteOf(job, w));
    InOrderConcat(t, fin, 5);
  }

  /** The finally block removes the directory before it deletes the site. */
  lemma FinallyInOrder(tmpDir: string, site: Option<Site>)
    ensures InOrder(Finally(tmpDir, site))
    ensures forall i :: 0 <= i < |Finally(tmpDir, site)| ==> 6 <= Rank(StepOf(Finally(tmpDir, site)[i])) <= 7
  {
  }

  /** A render does nothing but its own steps and cleanup. */
  lemma RenderStepsOnly(job: Job, w: Lambda)
    ensures RanksWithin(RenderEffects(job, w), 0, 7)
  {
    var t := TryEffects(job, w);
    var fin := if TryExit(w).StillPolling? then [] else Finally(job.tmpDir, SiteOf(job, w));
    CleanupFailuresIgnored(job, w);
    TryInOrder(job, w);
    FinallyInOrder(job.tmpDir, SiteOf(job, w));
    RanksWithinConcat(t, fin, 7);
  }

  lemma RanksWithinConcat(a: seq<Effect>, b: seq<Effect>, hi: nat)
    requires RanksWithin(a, 0, hi) && RanksWithin(b, 0, hi)
    ensures RanksWithin(a + b, 0, hi)
  {
    forall i | 0 <= i < |a + b| ensures Rank(StepOf((a + b)[i])) <= hi {
      if i >= |a| {
        assert (a + b)[i] == b[i - |a|];
      }
    }
  }

  /** Counting a cleanup step over the try block and what follows it counts only
      what follows it. */
  lemma CountAfterTry(t: seq<Effect>, fin: seq<Effect>, s: Step)
    requires RanksWithin(t, 0, 5) && Rank(s) > 5
    ensures CountOf(t + fin, s) == CountOf(fin, s)
  {
    CountOfConcat(t, fin, s);
    CountOfAbsent(t, s);
  }

  /** The finally block removes the directory once and deletes the site at most
      once, exactly when it has both names. */
  lemma FinallyCounts(tmpDir: string, site: Option<Site>)
    ensures CountOf(Finally(tmpDir, site), RemoveTemp) == 1
    ensures CountOf(Finally(tmpDir, site), DropSite) ==
      if site.Some? && site.value.siteName != "" && site.value.bucketName != "" then 1 else 0
  {
    var fin := Finally(tmpDir, site);
    assert fin == [fin[0]] + fin[1..];
    CountOfConcat([fin[0]], fin[1..], RemoveTemp);
    CountOfConcat([fin[0]], fin[1..], DropSite);
    CountOfAbsent(fin[1..], RemoveTemp);
    assert CountOf([fin[0]], RemoveTemp) == 1;
  }

  /** The temporary directory is removed exactly once, right after the try block,
      on every way out of it; a loop still waiting never gets there. */
  lemma RenderRemovesTempDir(job: Job, w: Lambda)
    ensures CountOf(RenderEffects(job, w), RemoveTemp) == if TryExit(w).StillPolling? then 0 else 1
    ensures !TryExit(w).StillPolling? ==> RenderEffects(job, w)[|TryEffects(job, w)|] == RemoveDir(job.tmpDir)
  {
    var t := TryEffects(job, w);
    var fin := if TryExit(w).StillPolling? then [] else Finally(job.tmpDir, SiteOf(job, w));
    CleanupFailuresIgnored(job, w);
    TryInOrder(job, w);
    CountAfterTry(t, fin, RemoveTemp);
    FinallyCounts(job.tmpDir, SiteOf(job, w));
  }

  /** The site is deleted exactly when the bucket was obtained (so also when the
      deployment itself failed), both names are non-empty and the loop did not
      hang. */
  lemma RenderDeletesSite(job: Job, w: Lambda)
    ensures CountOf(RenderEffects(job, w), DropSite) ==
      if !TryExit(w).StillPolling? && w.project.Pass? && w.bucket.Ok?
         && w.bucket.value != "" && job.siteName != "" then 1 else 0
  {
    var t := TryEffects(job, w);
    var fin := if TryExit(w).StillPolling? then [] else Finally(job.tmpDir, SiteOf(job, w));
    CleanupFailuresIgnored(job, w);
    TryInOrder(job, w);
    CountAfterTry(t, fin, DropSite);
    FinallyCounts(job.tmpDir, SiteOf(job, w));
  }

  /** The only site ever deleted is the one the deployment was asked to create. */
  lemma DeletedSiteWasDeployed(job: Job, w: Lambda, bucketName: string, siteName: string)
    requires DeleteSite(bucketName, siteName) in RenderEffects(job, w)
    ensures DeploySite(bucketName, siteName, EntryPoint(job)) in TryEffects(job, w)
  {
    var t := TryEffects(job, w);
    var fin := if TryExit(w).StillPolling? then [] else Finally(job.tmpDir, SiteOf(job, w));
    CleanupFailuresIgnored(job, w);
    TryInOrder(job, w);
    NoDeleteInTry(t);
    DeletedFromFinally(job.tmpDir, SiteOf(job, w), fin, DeleteSite(bucketName, siteName));
    DeployedSite(job, w);
  }

  /** Effects of the try block's steps delete no site. */
  lemma NoDeleteInTry(t: seq<Effect>)
    requires RanksWithin(t, 0, 5)
    ensures forall x :: x in t ==> !x.DeleteSite?
  {
    forall x | x in t ensures !x.DeleteSite? {
      var i :| 0 <= i < |t| && t[i] == x;
      assert Rank(StepOf(t[i])) <= 5;
    }
  }

  /** The finally block deletes only the site it was given. */
  lemma DeletedFromFinally(tmpDir: string, site: Option<Site>, fin: seq<Effect>, x: Effect)
    requires fin == [] || fin == Finally(tmpDir, site)
    requires x in fin && x.DeleteSite?
    ensures site == Some(Site(x.bucketName, x.siteName))
  {
  }

  /** Once the bucket is obtained, the third step deploys the job's site into it. */
  lemma DeployedSite(job: Job, w: Lambda)
    requires w.project.Pass? && w.bucket.Ok?
    ensures DeploySite(w.bucket.value, job.siteName, EntryPoint(job)) in TryEffects(job, w)
  {
    var b := BucketEffects(job, w);
    assert TryEffects(job, w) == [WriteProject(job.tmpDir, job.files)] + b;
    assert b == [GetOrCreateBucket] + DeployEffects(job, w);
    assert TryEffects(job, w)[2] == DeployEffects(job, w)[0];
  }

  /** The try block is still waiting exactly when every step up to the dispatch
      succeeded and no reply is terminal. */
  lemma StillPollingIff(w: Lambda)
    ensures TryExit(w).StillPolling? <==>
      w.project.Pass? && w.bucket.Ok? && w.deploy.Ok? && w.render.Ok?
      && forall i :: 0 <= i < |w.replies| ==> !Terminal(w.replies[i])
  {
    if w.render.Ok? && exists i :: 0 <= i < |w.replies| && Terminal(w.replies[i]) {
      var i :| 0 <= i < |w.replies| && Terminal(w.replies[i]);
      PollEndsOnTerminal(w.replies, i, w.render.value.bucketName);
    }
  }

  /** A render that returns has downloaded the output the first terminal reply
      named, a completed (not failed) one, into the job's output path, as its last
      step. */
  lemma ReturnedAfterDownload(job: Job, w: Lambda)
    requires TryExit(w).Returned?
    ensures var t := TryEffects(job, w);
      var k := FirstTerminal(w.replies);
      && k < |w.replies| && w.replies[k].Report?
      && w.replies[k].progress.done && !w.replies[k].progress.fatalErrorEncountered
      && t[|t| - 1] == Download(
           if w.replies[k].progress.outBucket.Some? then w.replies[k].progress.outBucket.value
           else w.render.value.bucketName,
           w.replies[k].progress.outKey, job.outputPath)
  {
  }

  /** A failing step is the last one: nothing after it runs, and the download
      runs only when the loop finished. */
  lemma StopsAtFirstFailure(job: Job, w: Lambda)
    ensures var t := TryEffects(job, w);
      var head := [WriteProject(job.tmpDir, job.files)];
      && (w.project.Fail? ==> t == head)
      && (w.project.Pass? && w.bucket.Err? ==> t == head + [GetOrCreateBucket])
      && (w.project.Pass? && w.bucket.Ok? && w.deploy.Err? ==>
            t == head + [GetOrCreateBucket] + [DeploySite(w.bucket.value, job.siteName, EntryPoint(job))])
      && (w.project.Pass? && w.bucket.Ok? && w.deploy.Ok? && w.render.Err? ==>
            t == head + [GetOrCreateBucket] + [DeploySite(w.bucket.value, job.siteName, EntryPoint(job))]
                 + [RenderMedia(RequestOf(job, w.deploy.value))])
      && (w.project.Pass? && w.bucket.Ok? && w.deploy.Ok? && w.render.Ok? && !PollOf(w).Finished? ==>
            CountOf(t, Fetch) == 0)
  {
    var head := [WriteProject(job.tmpDir, job.files)];
    if w.project.Pass? {
      var b := BucketEffects(job, w);
      assert TryEffects(job, w) == head + b;
      if w.bucket.Ok? {
        var d := DeployEffects(job, w);
        assert b == [GetOrCreateBucket] + d;
        if w.deploy.Ok? {
          var r := DispatchEffects(job, w);
          var deployed := DeploySite(w.bucket.value, job.siteName, EntryPoint(job));
          var dispatched := RenderMedia(RequestOf(job, w.deploy.value));
          assert d == [deployed] + r;
          if w.render.Ok? && !PollOf(w).Finished? {
            var pre := head + [GetOrCreateBucket, deployed, dispatched];
            assert r == [dispatched] + AwaitEffects(job, w);
            assert TryEffects(job, w) == pre + AwaitEffects(job, w);
            AwaitInOrder(job, w);
            assert AwaitEffects(job, w) == QueryEffects(w.render.value, Queries(w.replies));
            CountOfAbsent(pre + AwaitEffects(job, w), Fetch);
          }
        }
      }
    }
  }

  /** A fatal report ends the render with its first error's message (or `Lambda
      render failed`) even when it also says `done`, and nothing is downloaded. */
  lemma FatalReplyThrows(job: Job, w: Lambda)
    requires w.project.Pass? && w.bucket.Ok? && w.deploy.Ok? && w.render.Ok?
    requires FirstTerminal(w.replies) < |w.replies|
    requires w.replies[FirstTerminal(w.replies)].Report?
    requires w.replies[FirstTerminal(w.replies)].progress.fatalErrorEncountered
    ensures var p := w.replies[FirstTerminal(w.replies)].progress;
      TryExit(w) == Threw(if |p.errors| > 0 && p.errors[0].message.Some? then p.errors[0].message.value
                          else "Lambda render failed")
    ensures CountOf(TryEffects(job, w), Fetch) == 0
  {
    StopsAtFirstFailure(job, w);
  }
}
