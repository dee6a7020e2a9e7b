/** `applyZoom`: the zoom/pan parameters of a kinetic zoom, computed from the
    probed clip and the caller's options. */
module Zoom {
  import opened Wrappers
  import opened Numbers
  import opened MediaProbe

  const Upscale: real := 8.0

  /** The caller's options; `None` is an absent (undefined) option. */
  datatype ZoomOptions = ZoomOptions(kind: Option<string>, startZoom: Option<real>, endZoom: Option<real>,
                                     centerX: Option<real>, centerY: Option<real>,
                                     width: Option<real>, height: Option<real>)

  /** What `getVideoInfo` resolves with. */
  datatype VideoInfo = VideoInfo(duration: real, width: real, height: real, fps: int)

  /** The first video stream, as `streams.find(...)`. */
  function FirstVideoStream(streams: seq<StreamInfo>): (r: Option<StreamInfo>)
    ensures r.Some? ==> r.value.codecType == VideoCodec
    ensures r.Some? ==> exists k :: 0 <= k < |streams| && streams[k] == r.value &&
                                    forall j :: 0 <= j < k ==> streams[j].codecType != VideoCodec
    ensures r.None? ==> forall k :: 0 <= k < |streams| ==> streams[k].codecType != VideoCodec
  {
    if streams == [] then None
    else if streams[0].codecType == VideoCodec then Some(streams[0])
    else FirstVideoStream(streams[1..])
  }

  /** The frame rate before rounding: `parseInt(a) / parseInt(b)` for "a/b",
      `parseFloat` of the text otherwise; `None` is `NaN`. */
  function RawFps(rate: FrameRate): (r: Option<real>)
    ensures rate.Ratio? && rate.num.Some? && rate.den.Some? && rate.den.value != 0 ==>
              r == Some(rate.num.value as real / rate.den.value as real)
    ensures rate.Ratio? && (rate.num.None? || rate.den.None? || rate.den.value == 0) ==> r.None?
    ensures rate.Single? ==> r == rate.value
  {
    match rate
    case Ratio(num, den) =>
      if num.Some? && den.Some? && den.value != 0 then Some(num.value as real / den.value as real) else None
    case Single(v) => v
  }

  /** `Math.round(fps) || 30`, where `fps` is 30 when the stream has no rate. */
  function ProbedFps(vs: Option<StreamInfo>): (r: int)
    ensures r != 0
    ensures (vs.None? || vs.value.rFrameRate.None?) ==> r == 30
    ensures vs.Some? && vs.value.rFrameRate.Some? && RawFps(vs.value.rFrameRate.value).Some? &&
            Round(RawFps(vs.value.rFrameRate.value).value) != 0 ==>
              r == Round(RawFps(vs.value.rFrameRate.value).value)
    ensures vs.Some? && vs.value.rFrameRate.Some? &&
            (RawFps(vs.value.rFrameRate.value).None? || Round(RawFps(vs.value.rFrameRate.value).value) == 0) ==>
              r == 30
  {
    var fps := if vs.Some? && vs.value.rFrameRate.Some? then RawFps(vs.value.rFrameRate.value) else Some(30.0);
    if fps.Some? && Round(fps.value) != 0 then Round(fps.value) else 30
  }

  /** `getVideoInfo`: rejects on a probe error; missing values default to a
      zero duration, 1920x1080 and 30 fps. */
  function GetVideoInfo(p: Probe): (r: Option<VideoInfo>)
    ensures r.None? <==> p.ProbeError?
    ensures r.Some? ==> r.value.duration == DurationOrZero(p) && r.value.fps != 0
    ensures r.Some? ==> r.value.fps == ProbedFps(FirstVideoStream(p.streams))
    ensures r.Some? && FirstVideoStream(p.streams).Some? ==>
              var vs := FirstVideoStream(p.streams).value;
              r.value.width == OrElse(vs.width, 1920.0) && r.value.height == OrElse(vs.height, 1080.0)
    ensures r.Some? && FirstVideoStream(p.streams).None? ==>
              r.value.width == 1920.0 && r.value.height == 1080.0 && r.value.fps == 30
  {
    if p.ProbeError? then None
    else
      var vs := FirstVideoStream(p.streams);
      Some(VideoInfo(DurationOrZero(p),
                     if vs.Some? then OrElse(vs.value.width, 1920.0) else 1920.0,
                     if vs.Some? then OrElse(vs.value.height, 1080.0) else 1080.0,
                     ProbedFps(vs)))
  }

  /** The zoompan parameters: the upscaled working size, the output size,
      the frame count, the zoom endpoints and the fractional centre. */
  datatype ZoomPlan = ZoomPlan(upW: int, upH: int, outW: real, outH: real, totalFrames: int, fps: int,
                               startZoom: real, endZoom: real, centerX: real, centerY: real)

  /** The zoom endpoints: `options.type === 'in'` gives 1 → 1.5, anything else,
      an absent type included, gives 1.5 → 1; explicit values win. */
  function ZoomEndpoints(o: ZoomOptions): (r: (real, real))
    ensures o.kind == Some("in") ==> r == (o.startZoom.GetOr(1.0), o.endZoom.GetOr(1.5))
    ensures o.kind != Some("in") ==> r == (o.startZoom.GetOr(1.5), o.endZoom.GetOr(1.0))
  {
    var isIn := o.kind.Some? && o.kind.value == "in";
    (o.startZoom.GetOr(if isIn then 1.0 else 1.5), o.endZoom.GetOr(if isIn then 1.5 else 1.0))
  }

  function PlanZoom(vi: VideoInfo, o: ZoomOptions): ZoomPlan {
    var (startZoom, endZoom) := ZoomEndpoints(o);
    var outW := OrElse(o.width, vi.width);
    var outH := OrElse(o.height, vi.height);
    ZoomPlan(Round(outW * Upscale), Round(outH * Upscale), outW, outH, Ceil(vi.duration * vi.fps as real), vi.fps,
             startZoom, endZoom, o.centerX.GetOr(0.5), o.centerY.GetOr(0.5))
  }

  datatype ZoomError = ProbeFailed

  /** `applyZoom(inputPath, options)` up to the engine run. */
  function ApplyZoom(p: Probe, o: ZoomOptions): (r: Result<ZoomPlan, ZoomError>)
    ensures r.Failure? <==> p.ProbeError?
    ensures r.Success? ==> r.value.totalFrames as real >= DurationOrZero(p) * r.value.fps as real
    ensures r.Success? ==> (r.value.totalFrames - 1) as real < DurationOrZero(p) * r.value.fps as real
    ensures r.Success? ==>
              var vi := GetVideoInfo(p).value;
              && r.value.fps == vi.fps
              && r.value.outW == OrElse(o.width, vi.width)
              && r.value.outH == OrElse(o.height, vi.height)
              && r.value.centerX == o.centerX.GetOr(0.5)
              && r.value.centerY == o.centerY.GetOr(0.5)
    ensures r.Success? && o.width.Some? && o.width.value != 0.0 ==> r.value.outW == o.width.value
    ensures r.Success? ==> r.value.upW == Round(r.value.outW * Upscale) && r.value.upH == Round(r.value.outH * Upscale)
    ensures r.Success? ==> (r.value.startZoom, r.value.endZoom) == ZoomEndpoints(o)
  {
    var vi := GetVideoInfo(p);
    if vi.None? then Failure(ProbeFailed) else Success(PlanZoom(vi.value, o))
  }

  /** The zoom level of output frame `on`:
      `startZoom + (endZoom - startZoom) * (on / totalFrames)`. */
  function ZoomAt(plan: ZoomPlan, on: int): (r: real)
    requires plan.totalFrames > 0
    ensures on == 0 ==> r == plan.startZoom
    ensures on == plan.totalFrames ==> r == plan.endZoom
  {
    plan.startZoom + (plan.endZoom - plan.startZoom) * (on as real / plan.totalFrames as real)
  }

  /** Between the first and the last frame the zoom stays between its endpoints. */
  lemma ZoomBetweenEndpoints(plan: ZoomPlan, on: int)
    requires plan.totalFrames > 0 && 0 <= on <= plan.totalFrames
    ensures Min(plan.startZoom, plan.endZoom) <= ZoomAt(plan, on) <= Max(plan.startZoom, plan.endZoom)
  {
    var t := on as real / plan.totalFrames as real;
    assert 0.0 <= t <= 1.0;
    var d := plan.endZoom - plan.startZoom;
    assert ZoomAt(plan, on) == plan.startZoom + d * t;
    assert d - d * t == d * (1.0 - t);
    if d >= 0.0 {
      assert d * t >= 0.0 && d * (1.0 - t) >= 0.0;
    } else {
      assert (-d) * t >= 0.0 && (-d) * (1.0 - t) >= 0.0;
    }
  }

  /** The crop's left edge `(iw - iw/zoom) * centerX`. */
  function CropX(iw: real, zoom: real, centerX: real): real
    requires zoom != 0.0
  {
    (iw - iw / zoom) * centerX
  }

  /** For a zoom of at least 1 and a centre within [0, 1] the crop window
      lies inside the frame. */
  lemma CropInsideFrame(iw: real, zoom: real, centerX: real)
    requires iw >= 0.0 && zoom >= 1.0 && 0.0 <= centerX <= 1.0
    ensures 0.0 <= CropX(iw, zoom, centerX) <= iw - iw / zoom
  {
    var visible := iw / zoom;
    assert visible * zoom == iw;
    assert visible <= iw;
    var slack := iw - visible;
    assert slack >= 0.0;
    assert slack * centerX <= slack * 1.0;
    assert CropX(iw, zoom, centerX) == slack * centerX;
  }
}
