# motion-studio-server: caption timing, Lambda renders with cleanup, tool-output validation

This project is a Dafny model of the logic at the heart of motion-studio-server. It covers three parts.

- **The caption timing index** of `CaptionsComposition.jsx` (module `Timing`):
  - seconds to frames (`toFrame`, with `Math.round` as `(x + 1/2).Floor` over exact reals);
  - segmentation of a transcript into word groups (`groupWords`, with its "take `size + 1`" absorption rule);
  - the per-frame queries `findActiveGroup` and `isWordActive`;
  - the word `word-pop` shows;
  - the emoji overlay window and slots of `emoji-auto`;
  - the style switch with its `heat-glow` fallback.
- **Remotion Lambda renders with guaranteed cleanup** (modules `Remote`, `Renderer` and `Captions`). `renderVideo` in renderer.js and `renderCaptionsWithRemotion` in captions.js run the same fixed steps. Each step runs only if the previous one succeeded:
  1. write a temporary project;
  2. get or create the bucket;
  3. deploy a site;
  4. dispatch the render;
  5. poll until a terminal progress report;
  6. download the output.

  Then a `finally` block removes the temporary directory, and deletes the site when a bucket and a site name were set. `extractCaptions` wraps a captions render in a pipeline:
  - an optional Supabase job row;
  - the video download, audio extraction and transcription;
  - an early return for an empty transcription;
  - the dimension probe, the render and an optional completion notification;
  - a `finally` loop that unlinks the two temporary files.
- **Validation of the model's tool output** in `generateComponent` of claude.js (module `Claude`). This covers picking the first `tool_use` block, the checks on `component_code` and `duration_in_frames`, and the `fps || 30` default.

How the outside world is modelled:
- Every remote or file-system call is an outcome supplied in an oracle datatype: `Remote.Lambda` for a render, `Captions.Pipeline` for `extractCaptions`.
- The progress reports of the poll loop are a finite sequence of replies. If none of them is terminal, the call ends as `StillPolling`, a loop still waiting, and then no `finally` block has run.
- What each operation does to the outside world is returned as a list of `Effect`s in the order they happen. The contracts speak about that list:
  - order;
  - which steps happened;
  - how often the cleanup ran;
  - which site was deleted.
- JavaScript values that arrive untyped are `Js.Value`, with JavaScript truthiness, `typeof`, `||` and destructuring defaults.
- The fresh render id and the `REMOTION_FUNCTION_NAME` setting are parameters. An unset setting is the empty string.

Each imperative operation is a method proved equal to a specification function:
- `GroupWords`, `FindActiveGroup` and `Poll` are loops.
- `RenderVideo`, `RunRender` and `ExtractCaptions` have the step structure of the source.

The lemmas state the source's promises about these specification functions. The properties of `extractCaptions` are stated for any render call `r` that does nothing but render steps (its effects contain no Supabase request and no unlink); `Captions.CaptionsRunFacts` shows that the call the method makes is one.

One behaviour of the code is easy to misread:
- **A trailing one-word group can remain.** The absorption rule (`src/captions-remotion/CaptionsComposition.jsx:23`) takes `size + 1` words when between `size + 1` and `2 * size` remain, so that no group of one is cut off there. It does not rule out a final one-word group, though: 6 words grouped by 4 give groups of 5 and 1 (`Timing.SixByFour`). `Timing.LastGroupSingleton` characterises exactly when this happens.

## Model

| member | source | states |
|---|---|---|
| Js.TrimStart | src/claude.js:137 | the part of `trim` that drops leading white space: the result is a suffix of the input, everything cut off is white space, and the result does not start with white space |
| Js.TrimEnd | src/claude.js:137 | the part of `trim` that drops trailing white space: the result is a prefix of the input, everything cut off is white space, and the result does not end with white space |
| Js.TrimEmptyIff | src/claude.js:137 | `s.trim()` is empty exactly when every character of `s` is white space |
| Js.Find | src/captions-remotion/CaptionsComposition.jsx:163 | `array.find(p)`: the result is the first element satisfying `p` (all earlier ones fail it), and none exactly when no element satisfies it; `findVideo`, `find` of the tool-use block and `word-pop`'s active word use it |
| Timing.Round | src/captions-remotion/CaptionsComposition.jsx:16 | `Math.round` gives the integer within half a unit, halves rounded up |
| Timing.ToFrame | src/captions-remotion/CaptionsComposition.jsx:15-17 | `toFrame(s, fps)` is the frame nearest to `s * fps` |
| Timing.ToFrameMonotone | src/captions-remotion/CaptionsComposition.jsx:15-17 | for `fps >= 0`, a later time never maps to an earlier frame |
| Timing.GroupWords | src/captions-remotion/CaptionsComposition.jsx:19-28 | the loop's groups are the specified segmentation; concatenated, they give back the words in order; each group has 1 to `size + 1` words (`size >= 1`, as the loop never advances for 0) |
| Timing.GroupsPartition | src/captions-remotion/CaptionsComposition.jsx:19-28 | segmentation is a partition: the concatenated groups are the input, in order, with no gaps or overlaps |
| Timing.GroupsBounded | src/captions-remotion/CaptionsComposition.jsx:21-25 | there are no groups exactly when there are no words, and every group has between 1 and `size + 1` words |
| Timing.GroupsInnerSizes | src/captions-remotion/CaptionsComposition.jsx:23 | every group except the last has exactly `size` or `size + 1` words |
| Timing.AbsorbOrphan | src/captions-remotion/CaptionsComposition.jsx:23 | `size + 1` words form one group, not `size` words plus a one-word group |
| Timing.LastGroupSingleton | src/captions-remotion/CaptionsComposition.jsx:19-28 | the last group has one word exactly when there is one word, or when `size >= 2` and the count is at least `size + 2` and congruent to 2 modulo `size` |
| Timing.SixByFour | src/captions-remotion/CaptionsComposition.jsx:23 | 6 words grouped by 4 give a group of 5 and then a group of 1 |
| Timing.FiveWordExample | src/captions-remotion/CaptionsComposition.jsx:19-37 | the five words "the quick brown fox jumps" grouped by 4 form one group, which is the active group at frame 15 at 30 fps |
| Timing.WordActiveAtBounds | src/captions-remotion/CaptionsComposition.jsx:39-41 | given `start <= end` and `fps >= 0`, a word is active at both its start frame and its end frame |
| Timing.IsWordActiveIff | src/captions-remotion/CaptionsComposition.jsx:39-41 | `isWordActive(word, frame, fps)` holds exactly when `start * fps < frame + 1/2` and `frame - 1/2 <= end * fps`, i.e. when the frame lies between the rounded start and end frames |
| Timing.ActiveGroup | src/captions-remotion/CaptionsComposition.jsx:30-37 | the result is the first group whose inclusive window from its first word's start frame to its last word's end frame holds the frame; it is none exactly when no window holds it |
| Timing.FindActiveGroup | src/captions-remotion/CaptionsComposition.jsx:30-37 | the scan with early return yields the first group whose window holds the frame, or none |
| Timing.GroupsChronological | src/captions-remotion/CaptionsComposition.jsx:19-28 | for chronological words, every word of an earlier group ends no later than any word of a later group starts |
| Timing.ActiveGroupInside | src/captions-remotion/CaptionsComposition.jsx:30-37 | for chronological words, a frame after the start frame of group `k` and within its window selects group `k` |
| Timing.ActiveWord | src/captions-remotion/CaptionsComposition.jsx:161-164 | `word-pop` shows the first word of the whole list (not of a group) that is active at the frame, and nothing exactly when no word is active |
| Timing.VisibleCues | src/captions-remotion/CaptionsComposition.jsx:248-249 | the shown cues are exactly the visible ones, those with `startFrame <= frame <= startFrame + 60`, in number and multiplicity |
| Timing.VisibleCuesConcat | src/captions-remotion/CaptionsComposition.jsx:248-250 | the filter keeps the cues' order: the shown cues of `a + b` are those of `a` followed by those of `b`, so the index `i` that picks a cue's slot counts the shown cues before it |
| Timing.VisibleCuesSingle | src/captions-remotion/CaptionsComposition.jsx:249 | a single cue is shown exactly when `frame >= startFrame && frame <= startFrame + 60` |
| Timing.SlotsCycle | src/captions-remotion/CaptionsComposition.jsx:256-257 | a slot is 25, 50 or 75; neighbouring cues never share a slot; slots repeat every three cues |
| Timing.EmojiOverlays | src/captions-remotion/CaptionsComposition.jsx:248-257 | `emojiCues \|\| []` filtered to the visible cues, with the `i`th shown cue at `[25, 50, 75][i % 3]`; there are no overlays without cues |
| Timing.StyleOf | src/captions-remotion/CaptionsComposition.jsx:326-340 | each of the four named styles selects itself, and every other name, `heat-glow` included, renders as `heat-glow` |
| Timing.GroupSize | src/captions-remotion/CaptionsComposition.jsx:73-244 | `word-pop` does not group; `cinematic` groups by 6; `heat-glow`, `elegant` and `emoji-auto` group by 4 |
| Timing.GroupSizeByName | src/captions-remotion/CaptionsComposition.jsx:326-340 | by style name: `cinematic` groups by 6, `word-pop` does not group, and every other name, unknown ones included (the `default` branch), groups by 4 |
| Timing.RenderCaptions | src/captions-remotion/CaptionsComposition.jsx:72-340 | what the caption layer shows at a frame: `word-pop` shows the active word; every other style shows the active group of its grouping, with each word's highlight equal to `isWordActive` (plain for `cinematic`); emoji overlays appear only for `emoji-auto` |
| Claude.FindToolUse | src/claude.js:127 | the result is the first block of type `tool_use`, and none exactly when there is no such block |
| Claude.CodeTestIff | src/claude.js:137 | the guard `!code \|\| typeof code !== 'string' \|\| code.trim().length === 0` rejects exactly the values that are not a string with a non-white-space character |
| Claude.CheckInput | src/claude.js:134-153 | bad code is reported whenever the code is bad, even if the duration is bad too; a bad duration (missing, 0, or not a number) is reported only when the code is good; negative and fractional durations pass; on success the code, duration and title are returned unchanged, with `fps` unchecked and 30 when falsy |
| Claude.ValidateToolOutput | src/claude.js:127-153 | a reply without a `tool_use` block is rejected as "did not call the tool"; otherwise the first such block's input is checked |
| Remote.FirstTerminal | src/renderer.js:133-156 | the first reply that ends the loop: all replies before it are non-terminal |
| Remote.Settle | src/renderer.js:147-155 | a fatal report throws its first error's message, even when `done` is also set; a completed report finishes with its `outKey` and with `outBucket ?? renderBucket`; a failing query throws its error |
| Remote.Poll | src/renderer.js:133-156 | the loop makes one progress query per reply, up to and including the first terminal one, and ends as that reply settles, or still waiting when there is none |
| Remote.PollEndsOnTerminal | src/renderer.js:133-156 | once a terminal reply is among the replies, the loop does not hang |
| Remote.TryEffects | src/renderer.js:96-101 | the try block always starts by writing the job's project |
| Remote.TryRender | src/renderer.js:84-166 | the try block's exit, its effects, and the bucket and site name it leaves for `finally` |
| Remote.TryInOrder | src/renderer.js:96-163 | the try block's steps come in the order: write files, bucket, deploy, dispatch, poll, download; none of them is a cleanup step |
| Remote.StopsAtFirstFailure | src/renderer.js:96-163 | a failing step is the last one that runs: writing the files fails → nothing else; the bucket fails → no deploy; the deploy fails → no dispatch; the dispatch fails → no polling; and there is no download unless the loop finished |
| Remote.AwaitRender | src/renderer.js:133-163 | after the dispatch: the poll loop's queries, then, when it finished, the download of the reported output into the job's output path; it ends as the loop ends, or throws the download's error |
| Remote.FatalReplyThrows | src/renderer.js:147-149 | a fatal first terminal report ends the render with `errors[0].message`, or `Lambda render failed` when that is missing, and nothing is downloaded |
| Remote.StillPollingIff | src/renderer.js:133-156 | a render is still waiting exactly when every step through the dispatch succeeded and no reply is terminal |
| Remote.ReturnedAfterDownload | src/renderer.js:151-166 | a render that returns has downloaded, as its last try step, the output named by a report that completed without a fatal error, from `outBucket ?? renderBucket` into the job's output path |
| Remote.WithValue | src/renderer.js:166 | the try block's exit with the caller's return value: it returns, throws the same message, or waits exactly as the try block does |
| Remote.Awaited | src/renderer.js:169-174 | awaiting a cleanup call throws exactly when the call rejects, with its error's message |
| Remote.Caught | src/renderer.js:169-174 | `.catch(() => {})` (and the catch that only logs a warning) turns a rejection into a normal completion and keeps every other completion |
| Remote.RunFinally | src/renderer.js:167-176 | the finally block over how its two statements complete: it attempts the removal, then, when the removal did not throw and the site has both names, the deletion; the first statement that throws ends it with its error |
| Remote.Finally | src/renderer.js:167-176 | the finally block as it runs when its cleanup calls complete normally; it always removes the temporary directory first |
| Remote.RunRender | src/renderer.js:84-176 | a render is its try block followed by the finally block (each cleanup call with its catch), unless the loop is still waiting; the finally block's completion is combined with the try block's as JavaScript does, and the render ends exactly as its try block did |
| Remote.RenderInOrder | src/renderer.js:84-176 | all effects of a render come in step order, with the cleanup last |
| Remote.RenderStepsOnly | src/renderer.js:84-176 | a render does nothing but its own steps and cleanup |
| Remote.RenderRemovesTempDir | src/renderer.js:168-170 | the temporary directory is removed exactly once, right after the try block, on every way out that does not hang |
| Remote.RenderDeletesSite | src/renderer.js:104-175 | the site is deleted exactly once when the bucket was obtained and both names are non-empty (so also when `deploySite` failed), and never otherwise |
| Remote.DeletedSiteWasDeployed | src/renderer.js:107-175 | the only site ever deleted is the one the deployment was asked to create |
| Remote.DeployedSite | src/renderer.js:104-115 | once the bucket is obtained, the third step deploys the job's site into it |
| Remote.CleanupFailuresIgnored | src/renderer.js:167-176 | whatever the directory removal and the site deletion do, the catches make the render end as its try block did, and the finally block removes the directory and then deletes the site when it has both names |
| Remote.UncaughtCleanupThrows | src/renderer.js:167-176 | the catches matter: without them a rejected removal would end the render with its error whatever the try block did, and no site would be deleted; a rejected deletion would also end it with its error |
| Renderer.RenderVideo | src/renderer.js:77-177 | `renderVideo(componentCode, durationInFrames = 150, fps = 30)`: the argument errors come first, then the shared steps over the three-file project with the `MainVideo` request (h264, 120000 ms timeout, 20 frames per Lambda); a render that returns gives back the id |
| Renderer.RejectedBeforeAnyStep | src/renderer.js:84-170 | code that is falsy or not a string, or an unset function name, makes the call throw with nothing written and no remote call made, only the directory removal; the code error wins when both apply |
| Renderer.WritesProjectFirst | src/renderer.js:25-101 | the first step writes `Component.jsx` with the given code and a `Root.jsx` with composition `MainVideo` at 1280 by 720 with the given duration and frame rate (150 and 30 when undefined) |
| Renderer.RootRegistersRequestedComposition | src/renderer.js:25-41 | the `Root.jsx` that `buildRootJsx` fills registers `MainVideo`, the composition the render request asks for, over `MainComposition`, with the given duration and frame rate and a size of 1280 by 720 |
| Renderer.ReturnsIdAfterDownload | src/renderer.js:80-166 | a call that returns gives back its id, after downloading the output into `videos/<id>.mp4` from `outBucket ?? renderBucket` |
| Renderer.VideoCleanup | src/renderer.js:168-176 | every call that does not hang removes the temporary directory exactly once; the site is deleted exactly when the arguments passed and the bucket was obtained; all effects come in step order |
| Renderer.VideoRemovesTempDir | src/renderer.js:84-170 | every call that does not hang, a rejected one included, removes the temporary directory exactly once; a hanging call removes nothing |
| Renderer.VideoDeletesSite | src/renderer.js:104-175 | the site is deleted exactly once when the call does not hang, the arguments passed and the bucket was obtained, and never otherwise |
| Renderer.VideoInOrder | src/renderer.js:84-176 | all effects of a call come in step order, the cleanup last |
| Captions.FindVideo | src/captions.js:94 | the result is the first stream whose `codec_type` is `'video'`, and none exactly when there is no such stream |
| Captions.VideoDimensions | src/captions.js:88-106 | the first video stream's width and height, with its duration or 0; 1920 by 1080 with duration 0 when the probe fails or finds no video stream |
| Captions.Ceil | src/captions.js:116 | `Math.ceil` gives the least integer not below its argument |
| Captions.DurationCoversLastWord | src/captions.js:115-116 | the duration is at least `(lastWord.end + 0.5) * fps` and less than one frame more; it is positive when the last word does not end before 0 and `fps > 0` |
| Captions.RenderCaptionsWithRemotion | src/captions.js:108-199 | an empty word list throws before the try block and does nothing; otherwise the shared steps run over the copied composition with the `CaptionsVideo` request (240000 ms timeout, 60 frames per Lambda), returning `/tmp/<jobId>-captioned.mp4` |
| Captions.CaptionsProjectFirst | src/captions.js:108-150 | the first step copies the composition and writes a `Root.jsx` whose duration covers the last word, with the given size (1920 by 1080 when undefined) and frame rate (30 when undefined); the render receives the video, words, style and cues |
| Captions.CaptionsRootRegistersRequestedComposition | src/captions.js:51-65 | the `Root.jsx` that `buildCaptionsRootJsx` fills registers `CaptionsVideo`, the composition the render request asks for, over the component of the copied `CaptionsComposition.jsx`, with the computed duration, the frame rate and the size (1920 by 1080 when undefined) |
| Captions.CaptionsRenderCleanup | src/captions.js:192-198 | an empty word list removes nothing; otherwise a render that does not hang removes the temporary directory exactly once and deletes the site exactly when the bucket was obtained, all in step order |
| Captions.CaptionsRenderReturnsOutput | src/captions.js:111-190 | a render that returns had words, downloaded the output into `/tmp/<jobId>-captioned.mp4` as its last try step, and returns that path |
| Captions.DecimalRoundTrip | src/captions.js:264 | the status printed into the download error is digits only, with no leading zero, and denotes the status |
| Captions.Prepare | src/captions.js:261-290 | the download, the save, the audio extraction and the transcription run in this order, each only after the previous one succeeded; the result is the first failure's message (a response that is not ok gives `Failed to download video: <status>`), and none when all four succeed |
| Captions.TryRenderAndNotify | src/captions.js:292-311 | after the probe and the render call, completion is notified (as the last step) exactly when the render returned and `supabaseKey` is truthy; the steps return exactly when the render returned and a notification that was sent succeeded, with the words and the public URL |
| Captions.TryAfterRow | src/captions.js:261-311 | after the job row: the preparation steps, then an early return with a null URL for an empty word list, then the render and notification steps |
| Captions.TryExtract | src/captions.js:236-311 | the try block: the job row first when both Supabase settings are truthy, a rejected request ending the block; then the preparation steps up to the first failure; then, once there are words, the render and the notification |
| Captions.ExtractCaptions | src/captions.js:226-317 | `extractCaptions` is its try block followed by the `finally` loop that unlinks the video and then the audio file, unless the render is still waiting |
| Captions.CaptionsRunFacts | src/captions.js:108-199 | the render call `extractCaptions` makes does nothing but render steps; with words it returns, or waits, exactly when the shared steps do; when it returns it has downloaded the output to `/tmp/<jobId>-captioned.mp4` |
| Captions.ExtractHangsIff | src/captions.js:226-317 | `extractCaptions` is still waiting exactly when every step before the render succeeded, there were words, and the render call is still waiting |
| Captions.RenderAndNotifyBookkeeping | src/captions.js:292-311 | of the render and notification steps, only the notification (when sent) is a Supabase request or an unlink |
| Captions.TryBookkeeping | src/captions.js:236-311 | the try block's Supabase requests are the job row (when both settings are truthy) and then the notification (when the render returned and the key is truthy) |
| Captions.ExtractBookkeeping | src/captions.js:238-316 | the Supabase requests and unlinks of a whole call, in order: the job row exactly when both settings are truthy, the notification with the public URL exactly when the render returned and the key is truthy, then the two unlinks unless the call is still waiting |
| Captions.ExtractUnlinks | src/captions.js:312-316 | the video and audio files are unlinked as the last two steps on every way out that does not hang, and never while waiting |
| Captions.JobRowIff | src/captions.js:229-259 | the job row is created exactly when `supabaseUrl` and `supabaseKey` are both truthy, and then first, with the style defaulting to `heat` |
| Captions.NotifiesIff | src/captions.js:303-309 | completion is notified exactly when the render returned and `supabaseKey` is truthy, and then with the public URL, right before the unlinks |
| Captions.SucceedsWithPublicUrl | src/captions.js:233-311 | a URL is returned exactly when the render returned and, with a truthy key, the notification succeeded; the URL is `${baseUrl}/captions-output/<jobId>-captioned.mp4`, naming the file the render downloaded to `/tmp/<jobId>-captioned.mp4` |
| Captions.PublicUrlWasDownloaded | src/captions.js:233-311 | a call that returns a URL had its render return, and downloaded the rendered video to `/tmp/<jobId>-captioned.mp4`, the file the URL names |
| Captions.EmptyTranscriptionReturnsEarly | src/captions.js:285-290 | an empty transcription returns the words with a null URL right after transcribing, without probing, rendering or notifying, and then unlinks the files |
| Captions.DownloadNotOk | src/captions.js:263-264 | a response that is not ok throws `Failed to download video: <status>`, and only the unlinks follow |

## Left out

- Real I/O is not modelled: the file system, S3 streaming, `fetch`, ffmpeg and ffprobe, Whisper and the Supabase HTTP calls. Each is an outcome in an oracle, and an effect records the attempt.
- The bodies of the HTTP requests (headers, the job row's prompt, status and ratio fields) and `notifyJobComplete`'s response logging are left out: they are payload, and the model tracks only which call is made with which job id, URL and style.
- Asynchrony is left out. So are the 4-second `setTimeout` between polls and the `Promise.all` over the project files: the model runs the steps one after another and records the three files as one write.
- The `while (true)` poll loop is modelled over a finite sequence of replies. When no reply is terminal the render ends as `StillPolling` and no `finally` block runs, so the model does not say what eventually happens to such a call.
- The progress printing, console logging and `overallProgress` are left out: they are output only.
- The `webpackOverride` option and the `AWS_REGION` setting are left out: they are passed to the remote calls unchanged.
- The template text of `Root.jsx` and `index.jsx` is not modelled as text. `Root.jsx` is represented by the parameters `buildRootJsx` and `buildCaptionsRootJsx` fill in, and `index.jsx` by a constant.
- Absolute paths are left out: the model's paths are relative to the repository root (`tmp/<id>`, `videos/<id>.mp4`), while the code joins them onto `ROOT_DIR`, the repository root (`path.join(__dirname, '..')`).
- `initBrowser`, `server.js`, `scripts/deploy-lambda.mjs` and the placeholder `lambda-entry` composition are left out: they are setup, routing and presentation.
- The request to the model in `generateComponent` is outside this model; its reply's content blocks are the input. The thrown messages of the validation are represented by the kind of failure and the offending value, not their text.
- NaN and the infinities are left out: numbers arrive through JSON and are always finite. So a `duration_in_frames` of NaN, which the code rejects as falsy, is not modelled. `parseFloat` of a stream's duration is modelled as an already parsed optional number.
- A `null` `emojiCues` or `baseUrl` is not modelled: such values are either given or undefined, and `${baseUrl}` of an undefined one prints `undefined`.
- All animation values (`interpolate`, `spring`, opacity, scale) and the CSS are left out: they are library floating-point curves and presentation. `Timing.RenderCaptions` keeps only which words are shown and highlighted and which overlays are drawn.
- The two unlinks of `extractCaptions`' finally loop (`src/captions.js:313-315`) have no outcome in the oracle: each is wrapped in its own `try`/`catch` that discards the error, so the model records both attempts and leaves the exit unchanged.
- The `REMOTION_STYLES` list is left out: nothing in the modelled code reads it.
- Timing.RenderCaptions: takes the style as a string; a non-string style, which the `switch` also sends to `heat-glow`, is not modelled.
