/** `lightLeakTransition` and `zoomInTransition`: the safe transition length,
    the offsets derived from it, and the graphs that use them. */
module Transitions {
  import opened Wrappers
  import opened Numbers
  import opened MediaProbe
  import opened FilterGraph

  const LightLeakCap: real := 2.5
  const LightLeakFallback: real := 1.1
  const ZoomInCap: real := 3.0
  const ZoomInFallback: real := 1.0

  /** `Math.min(requested, d1 * 0.8, d2 * 0.8, cap) || fallback`. A `NaN`
      request makes the minimum `NaN`; only a minimum of exactly 0 or `NaN`
      is replaced, so a negative request passes through. */
  function SafeDuration(requested: Option<real>, d1: real, d2: real, cap: real, fallback: real): (r: real)
    requires fallback != 0.0
    ensures r != 0.0
    ensures requested.None? ==> r == fallback
    ensures requested.Some? ==>
              var m := Min4(requested.value, d1 * 0.8, d2 * 0.8, cap);
              (m != 0.0 ==> r == m) && (m == 0.0 ==> r == fallback)
  {
    if requested.None? then fallback
    else
      var m := Min4(requested.value, d1 * 0.8, d2 * 0.8, cap);
      if m != 0.0 then m else fallback
  }

  /** Unless it is the fallback, the safe length is at most the request, 80%
      of either clip and the cap; for a positive request over clips of
      non-negative length it is positive. */
  lemma SafeDurationBounds(requested: Option<real>, d1: real, d2: real, cap: real, fallback: real)
    requires fallback > 0.0 && cap > 0.0
    ensures var r := SafeDuration(requested, d1, d2, cap, fallback);
            r == fallback || (requested.Some? && r <= requested.value && r <= 0.8 * d1 && r <= 0.8 * d2 && r <= cap)
    ensures requested.Some? && requested.value > 0.0 && d1 >= 0.0 && d2 >= 0.0 ==>
              SafeDuration(requested, d1, d2, cap, fallback) > 0.0
  {
  }

  datatype LightLeakTiming = LightLeakTiming(safe: real, overlayOffset: real, overlaySpeed: real,
                                             xfadeDuration: real, xfadeOffset: real)

  /** The timing of a light leak between clips of lengths `d1`, `d2` with a
      flare of length `dOverlay`. */
  function LightLeakTimingFor(requested: Option<real>, d1: real, d2: real, dOverlay: real): (t: LightLeakTiming)
    ensures t.safe == SafeDuration(requested, d1, d2, LightLeakCap, LightLeakFallback)
    ensures t.overlayOffset + t.safe == d1
    ensures t.overlaySpeed * t.safe == dOverlay
    ensures t.xfadeDuration == 0.45 * t.safe && t.xfadeOffset == t.overlayOffset + 0.35 * t.safe
  {
    var safe := SafeDuration(requested, d1, d2, LightLeakCap, LightLeakFallback);
    var overlayOffset := d1 - safe;
    LightLeakTiming(safe, overlayOffset, dOverlay / safe, safe * 0.45, overlayOffset + safe * 0.35)
  }

  /** With a positive safe length the crossfade runs from 35% to 80% of the
      overlay window, which ends exactly where clip A ends; in the graph the
      flare, delayed to that window, fades out over its last 20% and the fade
      ends exactly where the trim cuts it. */
  lemma LightLeakWindows(requested: Option<real>, d1: real, d2: real, dOverlay: real)
    requires LightLeakTimingFor(requested, d1, d2, dOverlay).safe > 0.0
    ensures var t := LightLeakTimingFor(requested, d1, d2, dOverlay);
            && t.overlayOffset < t.xfadeOffset
            && t.xfadeOffset + t.xfadeDuration == t.overlayOffset + 0.8 * t.safe
            && t.xfadeOffset + t.xfadeDuration < d1
            && 0.0 < t.xfadeDuration < t.safe
            && var g := LightLeakGraph(t);
               && g[3].op == TrimTo(t.safe)
               && g[4].inputs == g[3].outputs
               && g[4].op.FadeOut? && g[4].op.start == 0.8 * t.safe
               && g[4].op.start + g[4].op.duration == g[3].op.end
               && g[5].op == DelayBy(t.overlayOffset)
               && g[6].op == XFade(Fade, t.xfadeDuration, t.xfadeOffset)
  {
  }

  /** (6, 5, 1.5) gives a 1.5 s overlap starting at 4.5 s and a 0.675 s
      crossfade at 5.025 s. */
  lemma LightLeakExample()
    ensures var t := LightLeakTimingFor(Some(1.5), 6.0, 5.0, 3.0);
            t.safe == 1.5 && t.overlayOffset == 4.5 && t.xfadeDuration == 0.675 && t.xfadeOffset == 5.025
  {
  }

  /** A negative request is not replaced by the fallback: the timing runs
      backwards from the end of clip A. */
  lemma NegativeRequestPassesThrough()
    ensures LightLeakTimingFor(Some(-1.0), 6.0, 5.0, 3.0).safe == -1.0
    ensures LightLeakTimingFor(Some(1.5), 0.0, 5.0, 3.0).safe == LightLeakFallback
  {
  }

  /** The nine filter parts of the light leak. */
  function LightLeakGraph(t: LightLeakTiming): (g: seq<Node>)
    ensures |g| == 9
    ensures g[2].inputs == [Input(2, VideoStream)] && g[2].op == RetimeFlare(t.overlaySpeed)
    ensures g[7].outputs == [OutV] && g[8].outputs == [OutA]
    ensures g[8].op == AudioCrossfade(t.xfadeDuration, false)
  {
    [ Node([Input(0, VideoStream)], NormalizeVideo, [Video(0)]),
      Node([Input(1, VideoStream)], NormalizeVideo, [Video(1)]),
      Node([Input(2, VideoStream)], RetimeFlare(t.overlaySpeed), [Named(FlareScaled)]),
      Node([Named(FlareScaled)], TrimTo(t.safe), [Named(FlareTrimmed)]),
      Node([Named(FlareTrimmed)], FadeOut(t.safe * 0.8, t.safe * 0.2), [Named(FlareFaded)]),
      Node([Named(FlareFaded)], DelayBy(t.overlayOffset), [Named(FlareDelayed)]),
      Node([Video(0), Video(1)], XFade(Fade, t.xfadeDuration, t.xfadeOffset), [Named(BaseVideo)]),
      Node([Named(BaseVideo), Named(FlareDelayed)], BlendLighten, [OutV]),
      Node([Input(0, AudioStream), Input(1, AudioStream)], AudioCrossfade(t.xfadeDuration, false), [OutA]) ]
  }

  /** What is handed to the engine: three inputs, the graph, the two maps. */
  datatype TransitionJob = TransitionJob(inputs: seq<string>, graph: seq<Node>, maps: seq<Pad>)

  datatype TransitionError = TooFewFiles

  /** `lightLeakTransition(files, transitionDuration)` up to the engine run:
      fewer than three files rejects before anything is probed; a failed
      probe counts as a zero duration. */
  function LightLeakTransition(files: seq<string>, requested: Option<real>, probe: string -> Probe)
    : (r: Result<(TransitionJob, LightLeakTiming), TransitionError>)
    ensures r.Failure? <==> |files| < 3
    ensures r.Success? ==>
              var (job, t) := r.value;
              && job.inputs == files[..3]
              && t == LightLeakTimingFor(requested, DurationOrZero(probe(files[0])),
                                         DurationOrZero(probe(files[1])), DurationOrZero(probe(files[2])))
              && job.graph == LightLeakGraph(t)
              && job.maps == [OutV, OutA]
  {
    if |files| < 3 then Failure(TooFewFiles)
    else
      var t := LightLeakTimingFor(requested, DurationOrZero(probe(files[0])),
                                  DurationOrZero(probe(files[1])), DurationOrZero(probe(files[2])));
      Success((TransitionJob(files[..3], LightLeakGraph(t), [OutV, OutA]), t))
  }

  /** `Math.min(requested, d1 * 0.8, d2 * 0.8, 3.0) || 1.0` and `d1 - safe`. */
  function ZoomInTiming(requested: Option<real>, d1: real, d2: real): (r: (real, real))
    ensures r.0 == SafeDuration(requested, d1, d2, ZoomInCap, ZoomInFallback)
    ensures r.1 + r.0 == d1
  {
    var safe := SafeDuration(requested, d1, d2, ZoomInCap, ZoomInFallback);
    (safe, d1 - safe)
  }

  /** (3, 2, 5) gives a 1.6 s warp starting at 1.4 s. */
  lemma ZoomInExample()
    ensures ZoomInTiming(Some(5.0), 3.0, 2.0) == (1.6, 1.4)
  {
  }

  function ZoomInGraph(safe: real, offset: real): (g: seq<Node>)
    ensures |g| == 4
    ensures g[2].op == XFade(ZoomInWarp, safe, offset) && g[2].outputs == [OutV]
    ensures g[3].op == AudioCrossfade(safe, true) && g[3].outputs == [OutA]
  {
    [ Node([Input(0, VideoStream)], NormalizeVideo, [Video(0)]),
      Node([Input(1, VideoStream)], NormalizeVideo, [Video(1)]),
      Node([Video(0), Video(1)], XFade(ZoomInWarp, safe, offset), [OutV]),
      Node([Input(0, AudioStream), Input(1, AudioStream)], AudioCrossfade(safe, true), [OutA]) ]
  }

  /** `zoomInTransition(files, transitionDuration)` up to the engine run:
      fewer than two files rejects before anything is probed. */
  function ZoomInTransition(files: seq<string>, requested: Option<real>, probe: string -> Probe)
    : (r: Result<TransitionJob, TransitionError>)
    ensures r.Failure? <==> |files| < 2
    ensures r.Success? ==>
              var (safe, offset) := ZoomInTiming(requested, DurationOrZero(probe(files[0])), DurationOrZero(probe(files[1])));
              r.value == TransitionJob(files[..2], ZoomInGraph(safe, offset), [OutV, OutA])
  {
    if |files| < 2 then Failure(TooFewFiles)
    else
      var (safe, offset) := ZoomInTiming(requested, DurationOrZero(probe(files[0])), DurationOrZero(probe(files[1])));
      Success(TransitionJob(files[..2], ZoomInGraph(safe, offset), [OutV, OutA]))
  }
}


/** The transition graphs are well formed. */
module TransitionProofs {
  import opened FilterGraph
  import opened FilterGraphProofs
  import opened Transitions

  /** The light-leak graph is well formed: every stage label is written once
      and read once, after it is written, and each input stream is read once. */
  lemma LightLeakGraphWellFormed(t: LightLeakTiming)
    ensures WellFormed(LightLeakGraph(t))
  {
    var g := LightLeakGraph(t);
    LightLeakVideoInOrder(t);
    AppendNode(g[..8], g[8]);
    assert g == g[..8] + [g[8]];
    BuiltWellFormed(g);
  }

  /** The first three nodes: both clips normalized and the overlay retimed. */
  lemma LightLeakHeadInOrder(t: LightLeakTiming)
    ensures BuiltInOrder(LightLeakGraph(t)[..3])
    ensures Outputs(LightLeakGraph(t)[..3]) == [Video(0), Video(1), Named(FlareScaled)]
    ensures Inputs(LightLeakGraph(t)[..3]) == [Input(0, VideoStream), Input(1, VideoStream), Input(2, VideoStream)]
  {
    var g := LightLeakGraph(t);
    var g1 := [] + [g[0]];
    AppendNode([], g[0]);
    var g2 := g1 + [g[1]];
    AppendNode(g1, g[1]);
    AppendNode(g2, g[2]);
    assert g[..3] == g2 + [g[2]];
  }

  /** The overlay chain: trim, fade and delay, each reading the previous label. */
  lemma LightLeakFlareInOrder(t: LightLeakTiming)
    ensures BuiltInOrder(LightLeakGraph(t)[..6])
    ensures Outputs(LightLeakGraph(t)[..6]) == [Video(0), Video(1), Named(FlareScaled), Named(FlareTrimmed),
                                                 Named(FlareFaded), Named(FlareDelayed)]
    ensures Inputs(LightLeakGraph(t)[..6]) == [Input(0, VideoStream), Input(1, VideoStream), Input(2, VideoStream),
                                               Named(FlareScaled), Named(FlareTrimmed), Named(FlareFaded)]
  {
    var g := LightLeakGraph(t);
    LightLeakHeadInOrder(t);
    var g3 := g[..3];
    var g4 := g3 + [g[3]];
    AppendNode(g3, g[3]);
    var g5 := g4 + [g[4]];
    AppendNode(g4, g[4]);
    AppendNode(g5, g[5]);
    assert g[..6] == g5 + [g[5]];
  }

  /** The crossfade of the two clips into the base label. */
  lemma LightLeakBaseInOrder(t: LightLeakTiming)
    ensures BuiltInOrder(LightLeakGraph(t)[..7])
    ensures Outputs(LightLeakGraph(t)[..7]) == [Video(0), Video(1), Named(FlareScaled), Named(FlareTrimmed),
                                                 Named(FlareFaded), Named(FlareDelayed), Named(BaseVideo)]
    ensures Inputs(LightLeakGraph(t)[..7]) == [Input(0, VideoStream), Input(1, VideoStream), Input(2, VideoStream),
                                               Named(FlareScaled), Named(FlareTrimmed), Named(FlareFaded),
                                               Video(0), Video(1)]
  {
    var g := LightLeakGraph(t);
    LightLeakFlareInOrder(t);
    AppendNode(g[..6], g[6]);
    assert g[..7] == g[..6] + [g[6]];
  }

  /** The lighten blend of base and overlay into `[outv]`. */
  lemma LightLeakVideoInOrder(t: LightLeakTiming)
    ensures BuiltInOrder(LightLeakGraph(t)[..8])
    ensures Outputs(LightLeakGraph(t)[..8]) == [Video(0), Video(1), Named(FlareScaled), Named(FlareTrimmed),
                                                 Named(FlareFaded), Named(FlareDelayed), Named(BaseVideo), OutV]
    ensures Inputs(LightLeakGraph(t)[..8]) == [Input(0, VideoStream), Input(1, VideoStream), Input(2, VideoStream),
                                               Named(FlareScaled), Named(FlareTrimmed), Named(FlareFaded),
                                               Video(0), Video(1), Named(BaseVideo), Named(FlareDelayed)]
  {
    var g := LightLeakGraph(t);
    LightLeakBaseInOrder(t);
    AppendNode(g[..7], g[7]);
    assert g[..8] == g[..7] + [g[7]];
  }

  /** The zoom-in graph is well formed. */
  lemma ZoomInGraphWellFormed(safe: real, offset: real)
    ensures WellFormed(ZoomInGraph(safe, offset))
  {
    var g := ZoomInGraph(safe, offset);
    ZoomInVideoInOrder(safe, offset);
    AppendNode(g[..3], g[3]);
    assert g == g[..3] + [g[3]];
    BuiltWellFormed(g);
  }

  /** The video half of the zoom-in: both clips normalized, then warped
      into `[outv]`. */
  lemma ZoomInVideoInOrder(safe: real, offset: real)
    ensures BuiltInOrder(ZoomInGraph(safe, offset)[..3])
    ensures Outputs(ZoomInGraph(safe, offset)[..3]) == [Video(0), Video(1), OutV]
    ensures Inputs(ZoomInGraph(safe, offset)[..3]) == [Input(0, VideoStream), Input(1, VideoStream), Video(0), Video(1)]
  {
    var g := ZoomInGraph(safe, offset);
    var g1 := [] + [g[0]];
    AppendNode([], g[0]);
    var g2 := g1 + [g[1]];
    AppendNode(g1, g[1]);
    AppendNode(g2, g[2]);
    assert g[..3] == g2 + [g[2]];
  }
}
