/** What the engine's prober reports about a clip, taken as an input: the
    engine itself is not part of this model. */
module MediaProbe {
  import opened Wrappers
  import Numbers

  datatype CodecType = VideoCodec | AudioCodec | OtherCodec

  /** One stream of the probe; `rFrameRate` is the raw `r_frame_rate` text
      already split at '/', each part parsed (`None` is `NaN`). */
  datatype StreamInfo = StreamInfo(codecType: CodecType, width: Option<real>, height: Option<real>,
                                   rFrameRate: Option<FrameRate>)

  datatype FrameRate = Ratio(num: Option<int>, den: Option<int>) | Single(value: Option<real>)

  /** `ProbeError` is the error the callback receives; otherwise the format's
      duration (`None` when absent or `NaN`) and the streams. */
  datatype Probe = ProbeError | Metadata(formatDuration: Option<real>, streams: seq<StreamInfo>)

  /** `err ? 0 : (metadata.format.duration || 0)`. */
  function DurationOrZero(p: Probe): (r: real)
    ensures p.ProbeError? ==> r == 0.0
    ensures p.Metadata? && p.formatDuration.Some? ==> r == p.formatDuration.value
    ensures p.Metadata? && p.formatDuration.None? ==> r == 0.0
  {
    if p.ProbeError? then 0.0 else Numbers.OrElse(p.formatDuration, 0.0)
  }

  /** `!err && streams.find(s => s.codec_type === 'audio')` is defined. */
  predicate HasAudio(p: Probe): (r: bool)
    ensures p.ProbeError? ==> !r
    ensures r <==> p.Metadata? && exists s :: s in p.streams && s.codecType == AudioCodec
  {
    p.Metadata? && exists k :: 0 <= k < |p.streams| && p.streams[k].codecType == AudioCodec
  }

  /** The probes of all files, in file order (the source issues them in parallel). */
  function ProbeAll(files: seq<string>, probe: string -> Probe): (r: seq<Probe>)
    ensures |r| == |files| && forall i :: 0 <= i < |files| ==> r[i] == probe(files[i])
  {
    seq(|files|, i requires 0 <= i < |files| => probe(files[i]))
  }
}
