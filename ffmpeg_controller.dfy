/** The request handlers around the compiler: the input-count guards, the
    audio/video dispatch of `agentTrim`, and `projectStitch`, which downloads
    the scenes, folds a scene marked `light-leak` together with the next one
    into a single rendered segment, and concatenates the segments.

    The network, the file system and the engine are inputs: `download(url)`
    is the local path of a finished download (`None` when it fails),
    `localOverlayExists` whether `uploads/light-leak-overlay.mp4` is
    accessible, and `render(job)` the output of running a transition job
    (`None` when the engine fails). */
module FfmpegController {
  import opened Wrappers
  import opened Numbers
  import opened Paths
  import opened MediaProbe
  import opened ConcatGraph
  import opened Transitions
  import opened AudioService
  import opened VideoTrim

  /** A request the handler answers with status 400, and a failed scene
      download, which `projectStitch` answers with status 500. */
  datatype ApiError = BadRequest | DownloadFailed

  /** `!xs || xs.length < min`. */
  predicate TooFew(xs: Option<seq<string>>, min: nat) {
    xs.None? || |xs.value| < min
  }

  /** `concat`: at least two uploaded files, then the hard-cut graph. */
  method Concat(files: Option<seq<string>>, transition: string, transitionDuration: real, probe: string -> Probe)
    returns (r: Result<ConcatCommand, ApiError>)
    ensures r.Failure? <==> TooFew(files, 2)
    ensures r.Failure? ==> r.error == BadRequest
    ensures r.Success? ==> r.value.inputs == files.value && r.value.graph == HardCutGraph(ProbeAll(files.value, probe))
  {
    if files.None? || |files.value| < 2 {
      return Failure(BadRequest);
    }
    var cmd := ConcatVideos(files.value, transition, transitionDuration, probe);
    r := Success(cmd);
  }

  /** `agentConcat`: at least two file names, each joined to the uploads
      directory. */
  method AgentConcat(uploadsDir: string, filenames: Option<seq<string>>, transition: string,
                     transitionDuration: real, probe: string -> Probe)
    returns (r: Result<ConcatCommand, ApiError>)
    ensures r.Failure? <==> TooFew(filenames, 2)
    ensures r.Failure? ==> r.error == BadRequest
    ensures r.Success? ==>
              && |r.value.inputs| == |filenames.value|
              && (forall k :: 0 <= k < |filenames.value| ==> r.value.inputs[k] == Join(uploadsDir, filenames.value[k]))
              && r.value.graph == HardCutGraph(ProbeAll(r.value.inputs, probe))
  {
    if filenames.None? || |filenames.value| < 2 {
      return Failure(BadRequest);
    }
    var names := filenames.value;
    var files := seq(|names|, k requires 0 <= k < |names| => Join(uploadsDir, names[k]));
    var cmd := ConcatVideos(files, transition, transitionDuration, probe);
    r := Success(cmd);
  }

  /** `lightLeak`: at least three files (clip A, clip B, overlay), then the
      light leak timed with the parsed `transitionDuration`. */
  function LightLeakHandler(files: Option<seq<string>>, transitionDuration: Option<real>, probe: string -> Probe)
    : (r: Result<TransitionJob, ApiError>)
    ensures r.Failure? <==> TooFew(files, 3)
    ensures r.Success? ==> r.value.inputs == files.value[..3]
    ensures r.Success? ==> r.value == LightLeakTransition(files.value, transitionDuration, probe).value.0
  {
    if files.None? || |files.value| < 3 then Failure(BadRequest)
    else
      var res := LightLeakTransition(files.value, transitionDuration, probe);
      Success(res.value.0)
  }

  /** `zoomTransition`: at least two files, then the zoom-in timed with the
      parsed `transitionDuration`. */
  function ZoomTransitionHandler(files: Option<seq<string>>, transitionDuration: Option<real>, probe: string -> Probe)
    : (r: Result<TransitionJob, ApiError>)
    ensures r.Failure? <==> TooFew(files, 2)
    ensures r.Success? ==> r.value.inputs == files.value[..2]
    ensures r.Success? ==> r.value == ZoomInTransition(files.value, transitionDuration, probe).value
  {
    if files.None? || |files.value| < 2 then Failure(BadRequest)
    else Success(ZoomInTransition(files.value, transitionDuration, probe).value)
  }

  /** `filename.toLowerCase()` ends in `.mp3` or `.wav`. */
  predicate IsAudioName(filename: string): (r: bool)
    ensures r <==> |filename| >= 4 && ToLower(filename[|filename| - 4..]) in {".mp3", ".wav"}
  {
    assert |filename| >= 4 ==> ToLower(filename)[|filename| - 4..] == ToLower(filename[|filename| - 4..]);
    EndsWith(ToLower(filename), ".mp3") || EndsWith(ToLower(filename), ".wav")
  }

  datatype TrimJob = AudioTrim(audio: AudioJob) | VideoTrimJob(input: string, args: TrimArgs)

  /** `agentTrim`: a missing or empty file name is a bad request; an audio
      name is trimmed by the audio chain, anything else as video, both on
      the request's name joined to the uploads directory (the name is not
      confined to that directory). */
  function AgentTrim(uploadsDir: string, outputsDir: string, ts: string, filename: Option<string>,
                     start: Option<real>, duration: Option<real>): (r: Result<TrimJob, ApiError>)
    ensures r.Failure? <==> filename.None? || filename.value == ""
    ensures r.Success? ==> (r.value.AudioTrim? <==> IsAudioName(filename.value))
    ensures r.Success? && r.value.AudioTrim? ==>
              r.value.audio.input == Join(uploadsDir, filename.value)
              && r.value.audio.filters == TrimAudioChain(start, duration)
    ensures r.Success? && r.value.VideoTrimJob? ==>
              r.value.input == Join(uploadsDir, filename.value) && r.value.args == TrimVideoArgs(start, duration)
  {
    if filename.None? || filename.value == "" then Failure(BadRequest)
    else
      var filePath := Join(uploadsDir, filename.value);
      if IsAudioName(filename.value) then Success(AudioTrim(TrimAudioJob(outputsDir, ts, filePath, start, duration)))
      else Success(VideoTrimJob(filePath, TrimVideoArgs(start, duration)))
  }

  /** A string or number given in the request body is truthy. */
  predicate Given(s: Option<string>) {
    s.Some? && s.value != ""
  }

  /** `scene.transition.duration` as the request body gives it: a falsy value
      (absent, `0`, `""`, `null`, `false`), or a truthy one together with the
      number `Math.min` converts it to (`None` when that is `NaN`, as for
      `"2s"`; `Some(0.0)` for `"0"`). */
  datatype RawDuration = Falsy | Truthy(asNumber: Option<real>)

  /** `scene.transition`: its `type`, `assetUrl` and `duration`. */
  datatype Transition = Transition(kind: Option<string>, assetUrl: Option<string>, duration: RawDuration)

  datatype Scene = Scene(transition: Option<Transition>)

  const LightLeakKind := "light-leak"
  const LocalOverlayName := "light-leak-overlay.mp4"
  const PresetLeakUrl := "https://uywpbubzkaotglmauagr.supabase.co/storage/v1/object/public/projects/9255039-hd_1920_1080_25fps.mp4"
  const DefaultLeakDuration := 1.5

  /** The request `lightLeakTransition` sees for `transition.duration || 1.5`:
      1.5 for a falsy value, otherwise the value as `Math.min` converts it. */
  function LeakRequest(d: RawDuration): (r: Option<real>)
    ensures d.Falsy? ==> r == Some(DefaultLeakDuration)
    ensures d.Truthy? ==> r == d.asNumber
  {
    match d
    case Falsy => Some(DefaultLeakDuration)
    case Truthy(n) => n
  }

  /** The duration a JSON number (or an absent one) arrives as: falsy when
      absent or 0. */
  function NumberDuration(v: Option<real>): RawDuration {
    if v.None? || v.value == 0.0 then Falsy else Truthy(v)
  }

  datatype OverlaySource = SceneAsset | GlobalSetting | LocalFile | Preset

  /** Where the overlay comes from: the first of the scene's asset, the
      global setting, the local file and the preset URL that is available;
      the preset always is. */
  function OverlaySourceFor(t: Transition, globalOverlay: Option<string>, localOverlayExists: bool): (r: OverlaySource)
    ensures r == SceneAsset <==> Given(t.assetUrl)
    ensures r == GlobalSetting <==> !Given(t.assetUrl) && Given(globalOverlay)
    ensures r == LocalFile <==> !Given(t.assetUrl) && !Given(globalOverlay) && localOverlayExists
    ensures r == Preset <==> !Given(t.assetUrl) && !Given(globalOverlay) && !localOverlayExists
  {
    if Given(t.assetUrl) then SceneAsset
    else if Given(globalOverlay) then GlobalSetting
    else if localOverlayExists then LocalFile
    else Preset
  }

  /** What the handler can observe of the outside world. */
  datatype StitchEnv = StitchEnv(uploadsDir: string, localOverlayExists: bool, download: string -> Option<string>,
                                 probe: string -> Probe, render: TransitionJob -> Option<string>)

  /** The overlay's local path: downloaded from the chosen URL, or the local
      file itself; `None` when the download fails. */
  function ResolveOverlay(env: StitchEnv, globalOverlay: Option<string>, t: Transition): (r: Option<string>)
  {
    match OverlaySourceFor(t, globalOverlay, env.localOverlayExists)
    case SceneAsset => env.download(t.assetUrl.value)
    case GlobalSetting => env.download(globalOverlay.value)
    case LocalFile => Some(Join(env.uploadsDir, LocalOverlayName))
    case Preset => env.download(PresetLeakUrl)
  }

  /** The `if`/`else` chain that sets `overlayPath`; `fetched` is the URL it
      downloads, if any. */
  method PickOverlay(env: StitchEnv, globalOverlay: Option<string>, t: Transition)
    returns (overlayPath: Option<string>, fetched: Option<string>)
    ensures overlayPath == ResolveOverlay(env, globalOverlay, t)
    ensures fetched.None? <==> OverlaySourceFor(t, globalOverlay, env.localOverlayExists) == LocalFile
    ensures fetched.Some? ==> overlayPath == env.download(fetched.value)
  {
    if Given(t.assetUrl) {
      fetched := Some(t.assetUrl.value);
      overlayPath := env.download(t.assetUrl.value);
    } else if Given(globalOverlay) {
      fetched := Some(globalOverlay.value);
      overlayPath := env.download(globalOverlay.value);
    } else if env.localOverlayExists {
      fetched := None;
      overlayPath := Some(Join(env.uploadsDir, LocalOverlayName));
    } else {
      fetched := Some(PresetLeakUrl);
      overlayPath := env.download(PresetLeakUrl);
    }
  }

  /** One entry of `finalSegments`: scene `scene` unchanged, or scenes
      `scene` and `scene + 1` rendered as one light-leak segment by `job`. */
  datatype Segment = Plain(scene: nat, path: string) | Merged(scene: nat, path: string, job: TransitionJob)

  /** The transition of scene `i`, if there is such a scene and it has one. */
  function SceneTransition(scenes: seq<Scene>, i: nat): Option<Transition> {
    if i < |scenes| then scenes[i].transition else None
  }

  /** `currentScene?.transition?.type === 'light-leak' && nextPath`. */
  predicate WantsMerge(scenes: seq<Scene>, paths: seq<string>, i: nat): (r: bool)
    ensures r ==> i + 1 < |paths| && SceneTransition(scenes, i).Some?
  {
    var t := SceneTransition(scenes, i);
    t.Some? && t.value.kind == Some(LightLeakKind) && i + 1 < |paths| && paths[i + 1] != ""
  }

  /** The `try` block of a merge: resolve the overlay, then render clip A,
      clip B and the overlay with `transition.duration || 1.5`. `None` when
      any step throws. */
  function TryLightLeak(env: StitchEnv, globalOverlay: Option<string>, t: Transition, a: string, b: string)
    : (r: Option<(string, TransitionJob)>)
    ensures r.Some? ==> |r.value.1.inputs| == 3 && r.value.1.inputs[0] == a && r.value.1.inputs[1] == b
    ensures r.Some? ==> ResolveOverlay(env, globalOverlay, t) == Some(r.value.1.inputs[2])
    ensures r.Some? ==> env.render(r.value.1) == Some(r.value.0)
    ensures r.Some? ==> r.value.1 == LightLeakTransition(r.value.1.inputs, LeakRequest(t.duration), env.probe).value.0
    ensures var ov := ResolveOverlay(env, globalOverlay, t);
            r.Some? <==> ov.Some? && env.render(LightLeakTransition([a, b, ov.value], LeakRequest(t.duration), env.probe).value.0).Some?
  {
    match ResolveOverlay(env, globalOverlay, t)
    case None => None
    case Some(overlay) =>
      var files := [a, b, overlay];
      assert files[..3] == files;
      var job := LightLeakTransition(files, LeakRequest(t.duration), env.probe);
      if job.Failure? then None
      else
        match env.render(job.value.0)
        case None => None
        case Some(out) => Some((out, job.value.0))
  }

  /** What the merge attempt at scene `i` yields: the rendered segment and
      its job, or `None` when no merge is wanted or its `try` block fails. */
  function MergeOutcome(env: StitchEnv, globalOverlay: Option<string>, scenes: seq<Scene>, paths: seq<string>, i: nat)
    : (r: Option<(string, TransitionJob)>)
    ensures r.Some? ==> WantsMerge(scenes, paths, i)
    ensures WantsMerge(scenes, paths, i) ==>
              r == TryLightLeak(env, globalOverlay, SceneTransition(scenes, i).value, paths[i], paths[i + 1])
  {
    if WantsMerge(scenes, paths, i) then
      TryLightLeak(env, globalOverlay, SceneTransition(scenes, i).value, paths[i], paths[i + 1])
    else None
  }

  /** The merge outcomes of all scenes, as one function of the index. */
  function Outcomes(env: StitchEnv, globalOverlay: Option<string>, scenes: seq<Scene>, paths: seq<string>)
    : nat -> Option<(string, TransitionJob)>
  {
    (i: nat) => MergeOutcome(env, globalOverlay, scenes, paths, i)
  }

  /** The segments produced from scene `i` on, given each scene's merge
      outcome: a merged segment skips the next scene. */
  function Assemble(outcome: nat -> Option<(string, TransitionJob)>, paths: seq<string>, i: nat): (r: seq<Segment>)
    ensures i >= |paths| ==> r == []
    ensures i < |paths| ==> 0 < |r| <= |paths| - i
    decreases |paths| - i
  {
    if i >= |paths| then []
    else match outcome(i)
      case Some((out, job)) => [Merged(i, out, job)] + Assemble(outcome, paths, i + 2)
      case None => [Plain(i, paths[i])] + Assemble(outcome, paths, i + 1)
  }

  /** `Promise.all(sceneUrls.map(downloadFile))`: every path, or a failure
      if any download fails. */
  function DownloadAll(urls: seq<string>, download: string -> Option<string>): (r: Option<seq<string>>)
    ensures r.Some? <==> forall k :: 0 <= k < |urls| ==> download(urls[k]).Some?
    ensures r.Some? ==> |r.value| == |urls| && forall k :: 0 <= k < |urls| ==> r.value[k] == download(urls[k]).value
  {
    if urls == [] then Some([])
    else
      var front := DownloadAll(urls[..|urls| - 1], download);
      var last := download(urls[|urls| - 1]);
      if front.Some? && last.Some? then Some(front.value + [last.value]) else None
  }

  function SegmentPaths(segments: seq<Segment>): (r: seq<string>)
    ensures |r| == |segments| && forall k :: 0 <= k < |segments| ==> r[k] == segments[k].path
  {
    seq(|segments|, k requires 0 <= k < |segments| => segments[k].path)
  }

  /** The `try` block of a merge: pick the overlay, then render the light
      leak of the two clips over it. */
  method RenderLightLeak(env: StitchEnv, globalOverlay: Option<string>, transition: Transition,
                         currentPath: string, nextPath: string)
    returns (segment: Option<(string, TransitionJob)>, fetched: Option<string>)
    ensures segment == TryLightLeak(env, globalOverlay, transition, currentPath, nextPath)
    ensures fetched.None? <==> OverlaySourceFor(transition, globalOverlay, env.localOverlayExists) == LocalFile
  {
    var overlayPath;
    overlayPath, fetched := PickOverlay(env, globalOverlay, transition);
    segment := None;
    if overlayPath.Some? {
      var files := [currentPath, nextPath, overlayPath.value];
      var job := LightLeakTransition(files, LeakRequest(transition.duration), env.probe);
      if job.Success? {
        var out := env.render(job.value.0);
        if out.Some? {
          segment := Some((out.value, job.value.0));
        }
      }
    }
  }

  /** One turn of the assembly loop at scene `i`: the segment it pushes,
      the index the loop goes on from, and the overlay URL downloaded, if
      any. */
  method AssembleStep(env: StitchEnv, globalOverlay: Option<string>, scenes: seq<Scene>, paths: seq<string>, i: nat)
    returns (segment: Segment, next: nat, fetched: Option<string>)
    requires i < |paths|
    ensures i < next <= |paths|
    ensures var outcome := Outcomes(env, globalOverlay, scenes, paths);
            Assemble(outcome, paths, i) == [segment] + Assemble(outcome, paths, next)
    ensures fetched.Some? ==> WantsMerge(scenes, paths, i)
  {
    ghost var outcome := Outcomes(env, globalOverlay, scenes, paths);
    var currentPath := paths[i];
    var t := SceneTransition(scenes, i);
    fetched := None;
    if t.Some? && t.value.kind == Some(LightLeakKind) && i + 1 < |paths| && paths[i + 1] != "" {
      assert WantsMerge(scenes, paths, i);
      var nextPath := paths[i + 1];
      var merged;
      merged, fetched := RenderLightLeak(env, globalOverlay, t.value, currentPath, nextPath);
      assert outcome(i) == merged;
      if merged.Some? {
        segment, next := Merged(i, merged.value.0, merged.value.1), i + 2;  // the next scene is part of this segment
        return;
      }
    } else {
      assert outcome(i) == None;
    }
    segment, next := Plain(i, currentPath), i + 1;
  }

  /** Pushing the first of the segments still to come keeps the whole. */
  lemma PushSegment(done: seq<Segment>, segment: Segment, rest: seq<Segment>, tail: seq<Segment>)
    requires rest == [segment] + tail
    ensures done + rest == (done + [segment]) + tail
  {
  }

  /** Step 2 of `projectStitch`, the segmented assembly: walk the scenes,
      merging a `light-leak` scene with the next one when its `try` block
      succeeds and skipping that next index. `overlayUrls` lists the
      overlay URLs downloaded on the way. */
  method AssembleSegments(env: StitchEnv, globalOverlay: Option<string>, scenes: seq<Scene>, paths: seq<string>)
    returns (finalSegments: seq<Segment>, overlayUrls: seq<string>)
    ensures finalSegments == Assemble(Outcomes(env, globalOverlay, scenes, paths), paths, 0)
  {
    ghost var outcome := Outcomes(env, globalOverlay, scenes, paths);
    overlayUrls := [];
    finalSegments := [];
    var i: nat := 0;
    while i < |paths|
      invariant i <= |paths|
      invariant finalSegments + Assemble(outcome, paths, i) == Assemble(outcome, paths, 0)
      decreases |paths| - i
    {
      var segment, next, fetchedUrl := AssembleStep(env, globalOverlay, scenes, paths, i);
      if fetchedUrl.Some? {
        overlayUrls := overlayUrls + [fetchedUrl.value];
      }
      PushSegment(finalSegments, segment, Assemble(outcome, paths, i), Assemble(outcome, paths, next));
      finalSegments := finalSegments + [segment];
      i := next;
    }
    assert Assemble(outcome, paths, i) == [];
  }

  /** `projectStitch` up to the final upload: validate, download every scene,
      assemble the segments, and concatenate them with hard cuts.
      `fetched` lists the URLs downloaded, in order. */
  method ProjectStitch(env: StitchEnv, sceneUrls: Option<seq<string>>, scenes: seq<Scene>, globalOverlay: Option<string>)
    returns (r: Result<(seq<Segment>, ConcatCommand), ApiError>, fetched: seq<string>)
    ensures TooFew(sceneUrls, 2) <==> r == Failure(BadRequest)
    ensures TooFew(sceneUrls, 2) ==> fetched == []
    ensures !TooFew(sceneUrls, 2) ==> |fetched| >= |sceneUrls.value| && fetched[..|sceneUrls.value|] == sceneUrls.value
    ensures !TooFew(sceneUrls, 2) ==> (r == Failure(DownloadFailed) <==> DownloadAll(sceneUrls.value, env.download).None?)
    ensures r.Success? ==>
              var paths := DownloadAll(sceneUrls.value, env.download).value;
              && r.value.0 == Assemble(Outcomes(env, globalOverlay, scenes, paths), paths, 0)
              && r.value.1.inputs == SegmentPaths(r.value.0)
              && r.value.1.graph == HardCutGraph(ProbeAll(SegmentPaths(r.value.0), env.probe))
  {
    if sceneUrls.None? || |sceneUrls.value| < 2 {
      return Failure(BadRequest), [];
    }
    var urls := sceneUrls.value;
    var downloads := DownloadAll(urls, env.download);
    if downloads.None? {
      return Failure(DownloadFailed), urls;
    }
    var finalSegments, overlayUrls := AssembleSegments(env, globalOverlay, scenes, downloads.value);
    // step 3: the transitions are already rendered, so the concat is plain
    var cmd := ConcatVideos(SegmentPaths(finalSegments), "none", 1.0, env.probe);
    r := Success((finalSegments, cmd));
    fetched := urls + overlayUrls;
    assert fetched[..|urls|] == urls;
  }
}

/** Properties of the handlers: the segmented assembly of `projectStitch`
    and the two trims of `agentTrim`. */
module FfmpegControllerProofs {
  import opened Wrappers
  import opened Numbers
  import opened Transitions
  import opened AudioService
  import opened VideoTrim
  import opened Paths
  import opened FfmpegController

  /** Whichever way `agentTrim` dispatches, the cut starts at the same time
      and has the same length: the audio chain's `isNaN(s) ? 0 : s` and the
      video's `s || 0` agree, and both carry the duration exactly when it
      parses. */
  lemma TrimsAgree(start: Option<real>, duration: Option<real>)
    ensures TrimAudioChain(start, duration)[0].start == TrimVideoArgs(start, duration).startTime
    ensures TrimAudioChain(start, duration)[0].length == TrimVideoArgs(start, duration).duration
  {
  }

  /** A merge is only ever attempted with a next scene to merge with. */
  ghost predicate MergesAhead(outcome: nat -> Option<(string, TransitionJob)>, paths: seq<string>) {
    forall i: nat :: outcome(i).Some? ==> i + 1 < |paths|
  }

  /** The scenes a segment covers, in order. */
  function Scenes(s: Segment): seq<nat> {
    if s.Merged? then [s.scene, s.scene + 1] else [s.scene]
  }

  /** The scenes covered by a list of segments, in order. */
  function Covered(segments: seq<Segment>): seq<nat> {
    if segments == [] then [] else Scenes(segments[0]) + Covered(segments[1..])
  }

  /** The scene indices `i`, `i + 1`, ..., `n - 1`. */
  function Range(i: nat, n: nat): (r: seq<nat>)
    decreases n - i
  {
    if i >= n then [] else [i] + Range(i + 1, n)
  }

  /** How many segments are merged pairs. */
  function MergedCount(segments: seq<Segment>): nat {
    if segments == [] then 0 else (if segments[0].Merged? then 1 else 0) + MergedCount(segments[1..])
  }

  lemma {:induction false} CoveredCons(s: Segment, rest: seq<Segment>)
    ensures Covered([s] + rest) == Scenes(s) + Covered(rest)
    ensures MergedCount([s] + rest) == (if s.Merged? then 1 else 0) + MergedCount(rest)
  {
    assert ([s] + rest)[1..] == rest;
  }

  /** Every scene from `i` on lands in exactly one segment, in scene
      order. */
  lemma {:induction false} AssembleCovers(outcome: nat -> Option<(string, TransitionJob)>, paths: seq<string>, i: nat)
    requires MergesAhead(outcome, paths) && i <= |paths|
    ensures Covered(Assemble(outcome, paths, i)) == Range(i, |paths|)
    decreases |paths| - i
  {
    if i < |paths| {
      match outcome(i)
      case Some((out, job)) =>
        AssembleCovers(outcome, paths, i + 2);
        CoveredCons(Merged(i, out, job), Assemble(outcome, paths, i + 2));
        assert Range(i, |paths|) == [i] + ([i + 1] + Range(i + 2, |paths|));
      case None =>
        AssembleCovers(outcome, paths, i + 1);
        CoveredCons(Plain(i, paths[i]), Assemble(outcome, paths, i + 1));
    }
  }

  /** Each merge saves one segment: segments plus merges is the number of
      scenes. */
  lemma {:induction false} AssembleCount(outcome: nat -> Option<(string, TransitionJob)>, paths: seq<string>, i: nat)
    requires MergesAhead(outcome, paths) && i <= |paths|
    ensures |Assemble(outcome, paths, i)| + MergedCount(Assemble(outcome, paths, i)) == |paths| - i
    decreases |paths| - i
  {
    if i < |paths| {
      match outcome(i)
      case Some((out, job)) =>
        AssembleCount(outcome, paths, i + 2);
        CoveredCons(Merged(i, out, job), Assemble(outcome, paths, i + 2));
      case None =>
        AssembleCount(outcome, paths, i + 1);
        CoveredCons(Plain(i, paths[i]), Assemble(outcome, paths, i + 1));
    }
  }

  /** A plain segment is its scene's own download, kept because its merge
      outcome is `None`; a merged one is its scene's merge outcome, and
      never the last scene's. */
  lemma {:induction false} AssembleSegmentsMatch(outcome: nat -> Option<(string, TransitionJob)>, paths: seq<string>, i: nat)
    requires MergesAhead(outcome, paths) && i <= |paths|
    ensures forall s :: s in Assemble(outcome, paths, i) ==>
              && i <= s.scene < |paths|
              && (s.Plain? ==> s.path == paths[s.scene] && outcome(s.scene).None?)
              && (s.Merged? ==> s.scene + 1 < |paths| && outcome(s.scene) == Some((s.path, s.job)))
    decreases |paths| - i
  {
    if i < |paths| {
      match outcome(i)
      case Some((out, job)) =>
        AssembleSegmentsMatch(outcome, paths, i + 2);
      case None =>
        AssembleSegmentsMatch(outcome, paths, i + 1);
    }
  }

  /** Without any merge, the segments are the downloaded scenes, unchanged. */
  lemma {:induction false} AssembleWithoutMerges(outcome: nat -> Option<(string, TransitionJob)>, paths: seq<string>, i: nat)
    requires i <= |paths|
    requires forall j: nat :: outcome(j).None?
    ensures SegmentPaths(Assemble(outcome, paths, i)) == paths[i..]
    decreases |paths| - i
  {
    if i < |paths| {
      var rest := Assemble(outcome, paths, i + 1);
      assert outcome(i).None?;
      assert Assemble(outcome, paths, i) == [Plain(i, paths[i])] + rest;
      AssembleWithoutMerges(outcome, paths, i + 1);
      assert SegmentPaths([Plain(i, paths[i])] + rest) == [paths[i]] + SegmentPaths(rest);
    }
  }

  /** The overlay of a light leak is the first available of the scene's
      asset, the global setting, the accessible local file and the preset,
      downloaded unless it is the local file. */
  lemma ResolveOverlayOrder(env: StitchEnv, globalOverlay: Option<string>, t: Transition)
    ensures Given(t.assetUrl) ==> ResolveOverlay(env, globalOverlay, t) == env.download(t.assetUrl.value)
    ensures !Given(t.assetUrl) && Given(globalOverlay) ==>
              ResolveOverlay(env, globalOverlay, t) == env.download(globalOverlay.value)
    ensures !Given(t.assetUrl) && !Given(globalOverlay) && env.localOverlayExists ==>
              ResolveOverlay(env, globalOverlay, t) == Some(Join(env.uploadsDir, LocalOverlayName))
    ensures !Given(t.assetUrl) && !Given(globalOverlay) && !env.localOverlayExists ==>
              ResolveOverlay(env, globalOverlay, t) == env.download(PresetLeakUrl)
  {
  }

  /** The stitch's merge outcomes only merge scenes that ask for it. */
  lemma OutcomesMergeAhead(env: StitchEnv, globalOverlay: Option<string>, scenes: seq<Scene>, paths: seq<string>)
    ensures MergesAhead(Outcomes(env, globalOverlay, scenes, paths), paths)
    ensures forall i: nat :: Outcomes(env, globalOverlay, scenes, paths)(i).Some? ==> WantsMerge(scenes, paths, i)
  {
  }

  /** A successful merge outcome at scene `i` is the rendered light leak of
      scene `i`, scene `i + 1` and the resolved overlay, timed with the
      transition's duration or 1.5 s. */
  lemma MergedOutcome(env: StitchEnv, globalOverlay: Option<string>, scenes: seq<Scene>, paths: seq<string>,
                      i: nat, out: string, job: TransitionJob)
    requires Outcomes(env, globalOverlay, scenes, paths)(i) == Some((out, job))
    ensures WantsMerge(scenes, paths, i)
    ensures |job.inputs| == 3 && job.inputs[..2] == [paths[i], paths[i + 1]]
    ensures ResolveOverlay(env, globalOverlay, SceneTransition(scenes, i).value) == Some(job.inputs[2])
    ensures env.render(job) == Some(out)
    ensures job == LightLeakTransition(job.inputs, LeakRequest(SceneTransition(scenes, i).value.duration), env.probe).value.0
  {
    assert MergeOutcome(env, globalOverlay, scenes, paths, i) == Some((out, job));
  }

  /** The merge at scene `i` happens exactly when the scene asks for it, its
      overlay resolves and the light leak renders. */
  lemma MergeWhenRendered(env: StitchEnv, globalOverlay: Option<string>, scenes: seq<Scene>, paths: seq<string>, i: nat)
    ensures var t := SceneTransition(scenes, i);
            Outcomes(env, globalOverlay, scenes, paths)(i).Some? <==>
              && WantsMerge(scenes, paths, i)
              && ResolveOverlay(env, globalOverlay, t.value).Some?
              && env.render(LightLeakTransition([paths[i], paths[i + 1], ResolveOverlay(env, globalOverlay, t.value).value],
                                                LeakRequest(t.value.duration), env.probe).value.0).Some?
  {
    assert Outcomes(env, globalOverlay, scenes, paths)(i) == MergeOutcome(env, globalOverlay, scenes, paths, i);
  }

  /** A JSON number, or no duration, requests `duration || 1.5`. */
  lemma NumberDurationRequest(v: Option<real>)
    ensures LeakRequest(NumberDuration(v)) == Some(OrElse(v, DefaultLeakDuration))
  {
  }

  /** A truthy duration that converts to `NaN` (`"2s"`) is not replaced by
      1.5: the light leak falls back to its own 1.1 s. */
  lemma NonNumericDurationFallback(d1: real, d2: real, dOverlay: real)
    ensures LightLeakTimingFor(LeakRequest(Truthy(None)), d1, d2, dOverlay).safe == LightLeakFallback
  {
  }

  /** Nor is one that converts to 0 (`"0"`), for clips of non-negative length. */
  lemma ZeroStringDurationFallback(d1: real, d2: real, dOverlay: real)
    requires d1 >= 0.0 && d2 >= 0.0
    ensures LightLeakTimingFor(LeakRequest(Truthy(Some(0.0))), d1, d2, dOverlay).safe == LightLeakFallback
  {
    assert Min4(0.0, d1 * 0.8, d2 * 0.8, LightLeakCap) == 0.0;
  }

  /** The segments of `projectStitch`: every scene covered once and in
      order, one segment fewer per merge; a plain segment is the scene's
      download; a merged segment starts at a `light-leak` scene that has a
      next scene and is the rendered light leak of that scene, the next one
      and the overlay, timed with the transition's duration or 1.5 s. */
  lemma StitchSegments(env: StitchEnv, globalOverlay: Option<string>, scenes: seq<Scene>, paths: seq<string>)
    ensures var segments := Assemble(Outcomes(env, globalOverlay, scenes, paths), paths, 0);
            && Covered(segments) == Range(0, |paths|)
            && |segments| + MergedCount(segments) == |paths|
            && forall s :: s in segments ==>
                 && s.scene < |paths|
                 && (s.Plain? ==> s.path == paths[s.scene] && Outcomes(env, globalOverlay, scenes, paths)(s.scene).None?)
                 && (s.Merged? ==>
                       && WantsMerge(scenes, paths, s.scene)
                       && |s.job.inputs| == 3
                       && s.job.inputs[..2] == [paths[s.scene], paths[s.scene + 1]]
                       && ResolveOverlay(env, globalOverlay, SceneTransition(scenes, s.scene).value) == Some(s.job.inputs[2])
                       && env.render(s.job) == Some(s.path)
                       && s.job == LightLeakTransition(s.job.inputs, LeakRequest(SceneTransition(scenes, s.scene).value.duration), env.probe).value.0)
  {
    var outcome := Outcomes(env, globalOverlay, scenes, paths);
    OutcomesMergeAhead(env, globalOverlay, scenes, paths);
    AssembleCovers(outcome, paths, 0);
    AssembleCount(outcome, paths, 0);
    AssembleSegmentsMatch(outcome, paths, 0);
    forall s | s in Assemble(outcome, paths, 0) && s.Merged?
      ensures WantsMerge(scenes, paths, s.scene)
      ensures |s.job.inputs| == 3 && s.job.inputs[..2] == [paths[s.scene], paths[s.scene + 1]]
      ensures ResolveOverlay(env, globalOverlay, SceneTransition(scenes, s.scene).value) == Some(s.job.inputs[2])
      ensures env.render(s.job) == Some(s.path)
      ensures s.job == LightLeakTransition(s.job.inputs, LeakRequest(SceneTransition(scenes, s.scene).value.duration), env.probe).value.0
    {
      MergedOutcome(env, globalOverlay, scenes, paths, s.scene, s.path, s.job);
    }
  }

  /** A project without `light-leak` scenes is stitched from its downloads
      as they are. */
  lemma StitchWithoutLightLeak(env: StitchEnv, globalOverlay: Option<string>, scenes: seq<Scene>, paths: seq<string>)
    requires forall i :: 0 <= i < |scenes| ==> scenes[i].transition.None? || scenes[i].transition.value.kind != Some(LightLeakKind)
    ensures SegmentPaths(Assemble(Outcomes(env, globalOverlay, scenes, paths), paths, 0)) == paths
  {
    var outcome := Outcomes(env, globalOverlay, scenes, paths);
    forall j: nat
      ensures outcome(j).None?
    {
      assert !WantsMerge(scenes, paths, j);
    }
    AssembleWithoutMerges(outcome, paths, 0);
  }
}
