# lumina-ffmpeg-server composition compiler, in Dafny

This project models the composition compiler of the lumina-ffmpeg-server
video service, and the request handling, storage and audio logic around it.
The compiler turns probed clip metadata and transition requests into ffmpeg
filter graphs and engine parameters:

- the hard-cut concatenation graph of `concatVideos`: one normalization node
  per clip, its audio or a silent track as long as the clip, then one N-way
  `concat` node;
- the speed choice and the `atempo` stage chain of `adjustSpeed`;
- the zoom/pan parameters of `applyZoom`, with its frame-rate parsing and
  defaults;
- the timing and the filter graphs of the light-leak and zoom-in transitions;
- the argument defaults of `trimVideo`.

Around the compiler sit:

- the controller's input-count guards and the audio/video dispatch of
  `agentTrim`;
- the segmented assembly of `projectStitch`. It resolves a light-leak overlay
  in a fixed order, folds a scene and the next one into one rendered segment,
  falls back to the plain scene when that fails, and concatenates the
  segments with hard cuts;
- the storage service: the content-type table, the local file names, and the
  upload retry loop with exponential backoff;
- the audio trim filter chain and its rejection of an empty output.

Filter parts are typed nodes (`FilterGraph.Node`: pads read, operation, pads
written). Durations are `real`. A `parseFloat` result is an `Option<real>`,
where `None` stands for `NaN`. The engine, the network, the file system and
the clock are inputs:

- a probe result per file;
- `download(url)`, the local path of a finished download, or `None` when it
  fails;
- `render(job)`, the output of running a transition job, or `None` when the
  engine fails;
- `clock(i)`, `stat(i)` and `store(i, request)` for upload attempt `i`.

Loops of the source are loops here, each proved against a function that
specifies it:

- `ConcatGraph.ConcatVideos` pushes filter parts;
- `Retiming.BuildAtempoFilter` runs the two tempo while-loops;
- `StorageService.UploadToSupabase` is the retry loop;
- `FfmpegController.AssembleSegments` is the scene loop, which skips an index
  after a merge.

Behaviours of the code that are easy to misread:

- Safe transition length. `Math.min(...) || 1.1` (and `|| 1.0` for the
  zoom-in) replaces the minimum only when it is `0` or `NaN`. A negative
  requested duration passes through unchanged
  (`Transitions.NegativeRequestPassesThrough`). A clip of length 0 gives the
  fallback, which then exceeds 80% of that clip.
- Overlay order. `projectStitch` tries the scene's asset, then the global
  setting, then the local `light-leak-overlay.mp4` if it is accessible, then
  a fixed preset URL, which is always tried. There is no "no overlay" case:
  a failed download or render at any step falls back to the plain scene.
- Stitch transition length. `projectStitch` passes the scene's raw
  `transition.duration || 1.5`, unparsed, to `lightLeakTransition`. A
  truthy value that `Math.min` converts to `NaN` (`"2s"`) or to 0 (`"0"`)
  gives the light leak's 1.1 s fallback, not 1.5
  (`FfmpegController.RawDuration`,
  `FfmpegControllerProofs.NonNumericDurationFallback`).
- `applyZoom` defaults. The default zoom endpoints test `options.type ===
  'in'` on the raw options. So an omitted `type` gives 1.5 → 1, even though
  `type` itself defaults to `'in'`.
- File names from requests. `agentTrim`, `agentConcat` and `agentProbe` join
  the name from the request body to the uploads directory with `path.join`,
  which resolves `..`. Nothing confines the name, so `../x.mp4` names a file
  outside that directory. The model's `Paths.Join` does not normalize and
  states no confinement. This is an observation from reading the code; it
  was not executed.

## Model

| member | source | states |
|---|---|---|
| MediaProbe.DurationOrZero | src/services/video-service.js:152 | a failed probe or a missing/`NaN` format duration counts as 0, otherwise the probed duration |
| MediaProbe.HasAudio | src/services/video-service.js:157-165 | a failed probe has no audio; otherwise audio iff some stream is an audio stream |
| MediaProbe.ProbeAll | src/services/video-service.js:167-170 | one probe per file, in file order |
| ConcatGraph.ConcatInputs | src/services/video-service.js:193 | the concat inputs of `n` clips are `2n` pads, only clip labels `[vi]`/`[ai]` with `i < n` |
| ConcatGraph.ClipParts | src/services/video-service.js:184-194 | the first `k` clips contribute exactly `2k` filter parts |
| ConcatGraph.ConcatVideos | src/services/video-service.js:167-243 | the loop builds exactly the hard-cut graph of the probed files whatever the transition arguments; inputs are the files in order; maps are `[outv]`, `[outa]` |
| ConcatGraphProofs.ClipPartsAt | src/services/video-service.js:184-192 | part `2i` is clip `i`'s normalization, part `2i+1` its audio or silence |
| ConcatGraphProofs.AudioPartOfClip | src/services/video-service.js:188-192 | clip `i` reads its own audio stream iff its probe found one; otherwise it gets silence as long as its probed duration (0 on a failed probe) |
| ConcatGraphProofs.ConcatInputsAt | src/services/video-service.js:193 | the concat reads `[vi]` at position `2i` and `[ai]` at `2i+1`: file order |
| ConcatGraphProofs.ConcatInputsDistinct | src/services/video-service.js:193 | no concat input label repeats |
| ConcatGraphProofs.ClipPartsOutputs | src/services/video-service.js:186-193 | the clip parts write exactly the labels the concat node reads, in the same order |
| ConcatGraphProofs.ClipPartsInputs | src/services/video-service.js:186-191 | the clip parts read only streams of existing input files |
| ConcatGraphProofs.ClipPartsPads | src/services/video-service.js:184-194 | both of the above |
| ConcatGraphProofs.ClipPartsInOrder | src/services/video-service.js:184-194 | every clip part can be appended after the ones before it |
| ConcatGraphProofs.HardCutWellFormed | src/services/video-service.js:180-195 | the hard-cut graph has `2n+1` parts, is well formed (labels unique, read only after written, no stream read twice), ends in `concat=n` over the clip labels, and its only outputs besides the clip labels are `[outv]`/`[outa]` |
| ConcatGraphProofs.ConcatPadBalance | src/services/video-service.js:193-195 | the concat node reads `n` video and `n` audio pads |
| FilterGraphProofs.AppendNode | src/services/video-service.js:184-195 | appending a node that writes fresh labels and reads only written, unread pads keeps the graph buildable and extends its pads |
| FilterGraphProofs.BuiltWellFormed | src/services/video-service.js:172-195 | a graph built node by node in that way is well formed |
| Retiming.RequestedSpeed | src/services/video-service.js:280 | `original/target` when the target is non-zero; else the given speed, or 1 when it is absent or 0 |
| Retiming.ClampSpeed | src/services/video-service.js:281 | the speed clamped into [0.25, 4], unchanged inside it |
| Retiming.ChainMeasureDecreases | src/services/video-service.js:287-288 | each halving or doubling step of the tempo loops decreases a natural measure, so the loops end |
| Retiming.AtempoChain | src/services/video-service.js:284-291 | at least one stage, every stage in [0.5, 2.0], a single stage for a speed already in range |
| Retiming.AtempoChainProduct | src/services/video-service.js:284-291 | the stages multiply back to the speed |
| Retiming.AtempoChainUniformPrefix | src/services/video-service.js:287-288 | all stages but the last are 2.0 for a speed above 2, and 0.5 otherwise |
| Retiming.BuildAtempoFilter | src/services/video-service.js:284-291 | the two while-loops emit exactly the tempo chain |
| Retiming.AdjustSpeed | src/services/video-service.js:269-296 | a probe error rejects; otherwise the clamped speed in [0.25, 4] and a tempo chain whose product is that speed |
| Retiming.AtempoChainAtClamps | src/services/video-service.js:281-291 | 0.25 gives [0.5, 0.5] and 4 gives [2.0, 2.0] |
| Retiming.SpeedExamples | src/services/video-service.js:280-281 | 0.1× clamps to 0.25, 9× to 4, a zero target gives 1 |
| Zoom.FirstVideoStream | src/services/video-service.js:310 | the first video stream in list order (every stream before it is not video), and none only when no stream is video |
| Zoom.RawFps | src/services/video-service.js:312-314 | `num/den` for a two-part rate with a non-zero denominator, `NaN` for a missing part or a zero denominator, the parsed value for a one-part rate |
| Zoom.ProbedFps | src/services/video-service.js:311-316 | never 0; 30 without a rate; the rounded rate when that is non-zero, and 30 when the rate is `NaN` or rounds to 0 |
| Zoom.GetVideoInfo | src/services/video-service.js:306-319 | rejects iff the probe fails; duration defaults to 0; fps is the probed fps of the first video stream; width and height are that stream's, each defaulting to 1920 and 1080, and 1920x1080 at 30 fps without a video stream |
| Zoom.ZoomEndpoints | src/services/video-service.js:322 | 1 → 1.5 only when `type` is exactly `'in'`, 1.5 → 1 otherwise (absent type included); explicit values win |
| Zoom.ApplyZoom | src/services/video-service.js:321-330 | rejects iff the probe fails; fps is the probed fps; `totalFrames` is the ceiling of duration × fps; the output size is the requested size, or the probed size when absent or 0; the working size is the output × 8 rounded, both sides; the centre defaults to (0.5, 0.5); the zoom endpoints are `ZoomEndpoints` |
| Zoom.ZoomAt | src/services/video-service.js:334 | zoom is `startZoom` at frame 0 and `endZoom` at frame `totalFrames` |
| Zoom.ZoomBetweenEndpoints | src/services/video-service.js:334 | between the first and the last frame the zoom stays between its endpoints |
| Zoom.CropInsideFrame | src/services/video-service.js:334 | for zoom ≥ 1 and centre in [0, 1] the crop's left edge lies in [0, iw − iw/zoom] |
| Transitions.SafeDuration | src/services/video-service.js:422 | never 0; the fallback for a `NaN` request or a zero minimum; otherwise the minimum of request, 80% of each clip and the cap |
| Transitions.SafeDurationBounds | src/services/video-service.js:422 | unless it is the fallback, the safe length is at most the request, 80% of either clip and the cap; positive for a positive request |
| Transitions.LightLeakTimingFor | src/services/video-service.js:422-429 | overlay window ends where clip A ends; the flare is retimed to fill exactly the safe length; the crossfade lasts 45% of it and starts 35% into the overlay window |
| Transitions.LightLeakWindows | src/services/video-service.js:428-442 | for a positive safe length the crossfade runs from 35% to 80% of the overlay window, inside clip A; in the graph the flare is trimmed to the safe length, its fade-out reads the trimmed flare, starts at 80% of it and ends exactly at the trim end, the flare is delayed to the window and the crossfade uses the timing's length and offset |
| Transitions.LightLeakExample | src/services/video-service.js:422-429 | (6, 5, 1.5) gives 1.5, 4.5, 0.675, 5.025 |
| Transitions.NegativeRequestPassesThrough | src/services/video-service.js:422 | a negative request is not replaced; a zero-length clip gives the 1.1 fallback |
| Transitions.LightLeakTransition | src/services/video-service.js:401-458 | fewer than three files rejects before probing; otherwise inputs are the first three files, the timing is that of their probed durations, the graph the nine light-leak parts, maps `[outv]`/`[outa]` |
| Transitions.LightLeakGraph | src/services/video-service.js:433-452 | nine parts; the overlay is the third input, retimed by the timing's speed; `[outv]` is written by the blend, `[outa]` by the audio crossfade of the timing's length |
| Transitions.ZoomInTiming | src/services/video-service.js:497-498 | the zoom-in safe length (cap 3, fallback 1), and `offset + safe == d1` |
| Transitions.ZoomInExample | src/services/video-service.js:497-498 | (3, 2, 5) gives safe 1.6 and offset 1.4 |
| Transitions.ZoomInTransition | src/services/video-service.js:479-517 | fewer than two files rejects; otherwise the first two files, the zoom-in graph of their timing, maps `[outv]`/`[outa]` |
| Transitions.ZoomInGraph | src/services/video-service.js:502-512 | four parts; the warp crossfade of the safe length at the offset writes `[outv]`, the audio crossfade of the same length writes `[outa]` |
| TransitionProofs.LightLeakGraphWellFormed | src/services/video-service.js:433-452 | the light-leak graph is well formed |
| TransitionProofs.ZoomInGraphWellFormed | src/services/video-service.js:502-512 | the zoom-in graph is well formed |
| VideoTrim.TrimVideoArgs | src/services/video-service.js:51-58 | start is the parsed start or 0; a duration is set iff it parses, with that value |
| FfmpegController.Concat | src/api/controllers/ffmpeg-controller.js:239-241 | 400 iff files are missing or fewer than two; otherwise the hard-cut graph of the files |
| FfmpegController.AgentConcat | src/api/controllers/ffmpeg-controller.js:343-346 | 400 iff names are missing or fewer than two; otherwise each file is the name joined to the uploads directory, in order |
| FfmpegController.LightLeakHandler | src/api/controllers/ffmpeg-controller.js:546-548 | 400 iff fewer than three files; otherwise exactly the light-leak job of `lightLeakTransition` on the first three files with the parsed duration |
| FfmpegController.ZoomTransitionHandler | src/api/controllers/ffmpeg-controller.js:566-568 | 400 iff fewer than two files; otherwise exactly the zoom-in job of `zoomInTransition` on the first two files with the parsed duration |
| FfmpegController.AgentTrim | src/api/controllers/ffmpeg-controller.js:319-328 | 400 iff the file name is missing or empty; audio trim iff the lower-cased name ends in `.mp3` or `.wav`; both trim the request's name joined to the uploads directory (not confined to it) with the request's start and duration |
| FfmpegController.IsAudioName | src/api/controllers/ffmpeg-controller.js:323 | a name is audio iff its last four characters, lower-cased, are `.mp3` or `.wav` |
| FfmpegController.OverlaySourceFor | src/api/controllers/ffmpeg-controller.js:415-431 | the overlay comes from the scene's asset iff given, else the global setting iff given, else the local file iff it exists, else the preset |
| FfmpegControllerProofs.ResolveOverlayOrder | src/api/controllers/ffmpeg-controller.js:409-431 | the overlay path is the download of the scene's asset if given, else of the global setting if given, else the local file in the uploads directory if accessible, else the download of the preset URL |
| FfmpegController.PickOverlay | src/api/controllers/ffmpeg-controller.js:409-431 | the `if`/`else` chain yields the resolved overlay; it downloads nothing iff the local file is used, and otherwise its result is that download |
| FfmpegController.TryLightLeak | src/api/controllers/ffmpeg-controller.js:413-443 | the try succeeds iff the overlay resolves and the engine renders the light leak of (current, next, overlay) timed with `duration \|\| 1.5`; a success is that job and what the engine rendered |
| FfmpegController.LeakRequest | src/api/controllers/ffmpeg-controller.js:440 | `transition.duration \|\| 1.5` as `Math.min` sees it: 1.5 for a falsy value, otherwise the value's numeric conversion, `NaN` included |
| FfmpegControllerProofs.NumberDurationRequest | src/api/controllers/ffmpeg-controller.js:440 | for a JSON number or an absent duration the request is `duration \|\| 1.5` |
| FfmpegControllerProofs.NonNumericDurationFallback | src/api/controllers/ffmpeg-controller.js:440 | a truthy duration that converts to `NaN` gives the light leak's own 1.1 s fallback, not 1.5 |
| FfmpegControllerProofs.ZeroStringDurationFallback | src/api/controllers/ffmpeg-controller.js:440 | a truthy duration that converts to 0 (`"0"`) also gives 1.1 s for clips of non-negative length |
| FfmpegController.MergeOutcome | src/api/controllers/ffmpeg-controller.js:400-443 | a merge is only ever produced for a `light-leak` scene that has a next path, and for such a scene the outcome is its try block's |
| FfmpegControllerProofs.MergeWhenRendered | src/api/controllers/ffmpeg-controller.js:400-445 | scene `i` is merged with the next one iff it is a `light-leak` scene with a next path, its overlay resolves and the light leak renders |
| FfmpegController.WantsMerge | src/api/controllers/ffmpeg-controller.js:400 | a merge is wanted only for a scene with a transition that has a next path |
| FfmpegController.Assemble | src/api/controllers/ffmpeg-controller.js:393-452 | no segments past the last scene; from scene `i` on, at least one and at most as many segments as scenes remain |
| FfmpegController.DownloadAll | src/api/controllers/ffmpeg-controller.js:380-381 | succeeds iff every download does, and then yields every path in URL order |
| FfmpegController.RenderLightLeak | src/api/controllers/ffmpeg-controller.js:413-448 | the try block's result is exactly `TryLightLeak`; it downloads an overlay iff the local file is not used |
| FfmpegController.AssembleStep | src/api/controllers/ffmpeg-controller.js:394-451 | one loop turn pushes the next segment of the assembly and advances by 1, or by 2 after a merge |
| FfmpegController.AssembleSegments | src/api/controllers/ffmpeg-controller.js:390-452 | the loop with its index skip builds exactly the assembly of the scenes' merge outcomes |
| FfmpegController.ProjectStitch | src/api/controllers/ffmpeg-controller.js:371-460 | 400 iff scene URLs are missing or fewer than two, and then nothing is downloaded; a 500 download failure iff some scene download fails; otherwise the assembled segments, concatenated with hard cuts in order |
| FfmpegControllerProofs.TrimsAgree | src/api/controllers/ffmpeg-controller.js:326-328 | audio and video trims of one request start at the same time and carry the same optional duration |
| FfmpegControllerProofs.AssembleCovers | src/api/controllers/ffmpeg-controller.js:393-452 | the segments cover every scene exactly once, in scene order |
| FfmpegControllerProofs.AssembleCount | src/api/controllers/ffmpeg-controller.js:443-451 | segments plus merges equals the number of scenes |
| FfmpegControllerProofs.AssembleSegmentsMatch | src/api/controllers/ffmpeg-controller.js:443-450 | a plain segment is its scene's path and had no merge; a merged one is its scene's merge outcome and never the last scene |
| FfmpegControllerProofs.AssembleWithoutMerges | src/api/controllers/ffmpeg-controller.js:449-451 | with no merges the segment paths are the scene paths unchanged |
| FfmpegControllerProofs.OutcomesMergeAhead | src/api/controllers/ffmpeg-controller.js:400 | the stitch only merges `light-leak` scenes that have a next scene |
| FfmpegControllerProofs.MergedOutcome | src/api/controllers/ffmpeg-controller.js:434-443 | a merge outcome is the rendered light leak of scene `i`, scene `i+1` and the resolved overlay, timed with `duration \|\| 1.5` |
| FfmpegControllerProofs.StitchSegments | src/api/controllers/ffmpeg-controller.js:393-452 | coverage, count, plain segments are downloads whose merge outcome is none, merged segments are rendered light leaks of a scene and its successor over the resolved overlay |
| FfmpegControllerProofs.StitchWithoutLightLeak | src/api/controllers/ffmpeg-controller.js:449-451 | a project without `light-leak` scenes is stitched from its downloads as they are |
| Paths.Extname | src/services/storage-service.js:99 | empty or a single leading '.' with no other '.' or '/'; from the last '.' of the base name to its end when that '.' is not the first character and the name is not `..`, empty otherwise |
| Paths.Basename | src/services/storage-service.js:18 | the base name holds no separator and is no longer than the path |
| PathsProofs.BasenameIsLastComponent | src/services/storage-service.js:18 | the base name is the longest separator-free suffix of the path without its trailing separators |
| Numbers.OrElse | src/services/video-service.js:322-324 | `x \|\| d`: `x` when it is a number other than 0, `d` when it is `NaN` or 0 |
| PathsProofs.ExtnameLower | src/services/storage-service.js:99 | lower-casing the path lower-cases its extension |
| StorageService.ContentType | src/services/storage-service.js:98-110 | a path without an extension is an octet stream |
| StorageService.MimeFor | src/services/storage-service.js:100-109 | each type is chosen exactly by its extensions (`.jpg` and `.jpeg` both give `image/jpeg`); any other extension gives the octet stream |
| StorageServiceProofs.ContentTypeTable | src/services/storage-service.js:98-110 | for any path, each content type holds iff the lower-cased extension is one of its extensions, and the octet stream iff it is none of them |
| StorageServiceProofs.ContentTypeIgnoresCase | src/services/storage-service.js:98-99 | the content type does not depend on the path's case |
| StorageServiceProofs.UpperCaseExtensionExample | src/services/storage-service.js:99-101 | `CLIP.MP4` is `video/mp4` |
| StorageServiceProofs.DotFileExample | src/services/storage-service.js:99-108 | `.mp4` has no extension and is an octet stream |
| StorageService.UploadFileName | src/services/storage-service.js:18 | the timestamp, then `-` and the base name, and nothing else; no separator unless the timestamp has one |
| StorageService.DownloadFileName | src/services/storage-service.js:72 | the timestamp, then `-download-` and the base name of the URL path, and nothing else; no separator unless the timestamp has one |
| StorageService.DownloadPath | src/services/storage-service.js:70-73 | fails iff the URL does not parse; otherwise the uploads directory, a separator, then the timestamp, `-download-` and the base name, and nothing else; no further separator unless the timestamp has one |
| StorageService.BodyFor | src/services/storage-service.js:26-34 | a buffer iff the size is under 5 MiB, a stream otherwise |
| StorageService.Attempt | src/services/storage-service.js:17-51 | an attempt succeeds iff `stat` succeeds and the bucket stores the request |
| StorageService.Backoff | src/services/storage-service.js:55-57 | one wait per counted failure |
| StorageService.UploadToSupabase | src/services/storage-service.js:14-62 | at most `retries` attempts; returns the first success's URL with no further attempt; otherwise throws the last attempt's error (`undefined` without attempts); waits `2^i` s after failure `i` except after the last allowed attempt |
| StorageServiceProofs.BackoffAt | src/services/storage-service.js:56 | wait `j` is `2^j · 1000` ms |
| StorageServiceProofs.BackoffTotal | src/services/storage-service.js:55-57 | `n` waits total `(2^n − 1) · 1000` ms |
| StorageServiceProofs.DefaultRetriesBackoff | src/services/storage-service.js:14-57 | three failing attempts wait 1000 then 2000 ms, nothing after the last |
| AudioService.TrimStart | src/services/audio-service.js:25-34 | the parsed start, or 0 when it does not parse |
| AudioService.TrimAudioChain | src/services/audio-service.js:33-38 | four filters in order: trim, timestamp reset, 0.02 s fade-in at 0, 0.02 s fade-out; trim carries a duration iff it parses; the fade-out ends at a non-zero duration, or starts at −0.02 without one |
| AudioService.TrimAudioJob | src/services/audio-service.js:21-39 | the job reads the given input with the trim chain, encodes with `libmp3lame` at 192 kbps, and writes `<outputsDir>/trim-<ts>.mp3` |
| AudioService.TrimAudioOutcome | src/services/audio-service.js:45-57 | resolves iff the engine finished with a non-empty file; an empty output is deleted and rejected; an engine error is rejected as is |

## Left out

- Running the engine is not modelled: fluent-ffmpeg's `.run()`, its events, progress logging and `ffprobe`. Probe results, render outcomes and output sizes are inputs. The engine's filter semantics (xfade, blend, zoompan, concat) are not modelled.
- HTTP plumbing and JSON response shaping are not modelled: routes, app setup, the upload middleware and status bodies. Handler outcomes are `Result` values.
- The storage client, axios and fs calls (stat, readFile, access, unlink, write streams) are inputs of the model. So are `getPublicUrl`, which is folded into the store outcome, and the directory set-up.
- Best-effort temporary-file cleanup in `projectStitch` and the master upload after the stitch are not modelled. `FfmpegController.ProjectStitch` stops at the concat job. `StorageService.UploadToSupabase` models the upload.
- `Promise.all` parallel probes and downloads are treated as a sequential map. A download that fails makes the whole map fail.
- `FfmpegController.DownloadAll`: the download oracle gives the same answer for the same URL each time it is asked.
- `Date.now()` is an opaque timestamp parameter.
- `toFixed` formatting and IEEE rounding are not modelled; numbers are exact reals.
- Serializing nodes to filter text is not modelled: JavaScript number formatting would be needed.
- `Zoom.RawFps`: a zero denominator is modelled as `NaN`, so the rate falls back to 30. The source produces `Infinity`, which survives `Math.round(...) || 30`.
- `Zoom.ZoomAt` requires `totalFrames > 0`. With 0 frames the source's zoompan expression divides by zero, which has no real-number meaning.
- `Paths.ToLower` lower-cases ASCII letters only. No other character lowers to the characters that are compared.
- `Paths.Join` models `path.join` of a directory and a plain file name only. `..` and duplicate separators are not normalized, so the model does not say where a request's `../` name resolves to.
- The dead transition branch of `concatVideos` is not modelled, because `forceNoTransitions` is hard-coded true.
- The controller's `speed` and `zoom` handlers are not modelled: they call functions that are never imported and would throw. Their logic is modelled from the service directly.
- The thin wrappers are not modelled: `convertVideo`, `resizeVideo`, `applyFilter`, `generateThumbnail`, `watermarkVideo`, `mergeAudioVideo` and `extractAudio`. Neither are `probe`, `agentProbe` and the other handlers with no logic of their own.
- The default parameter values of `lightLeakTransition` (0.8) and `zoomInTransition` (1.0) are not modelled. Every caller passes a value: `parseFloat` (possibly `NaN`) or `duration || 1.5`.
- The live-server test scripts are not modelled.
- `concatVideos` probes every file twice, once in `hasAudio` and once in `getVideoDuration`. The model probes once through a deterministic `probe`, so it cannot describe two probes of one file that disagree.
- `AudioService.TrimAudioOutcome` assumes that `fs.statSync` and `fs.unlinkSync` in the `'end'` callback never throw. In the source such a throw escapes the callback as an uncaught exception, and the promise is neither resolved nor rejected.
