/** `trimAudio`: the audio filter chain built from the parsed start and
    duration, and what happens to the engine's output. `parseFloat` results
    are `Option<real>` (`None` is `NaN`); the engine run is an input. */
module AudioService {
  import opened Wrappers
  import opened Numbers
  import opened Paths

  /** Length of the fade-in and fade-out, in seconds. */
  const FadeLength := 0.02

  const Mp3Codec := "libmp3lame"
  const Mp3Bitrate := 192

  datatype AudioFilter =
    | ATrim(start: real, length: Option<real>)          // atrim=start=<s>[:duration=<d>]
    | ResetTimestamps                                   // asetpts=PTS-STARTPTS
    | AFadeIn(fadeStart: real, fadeLength: real)        // afade=t=in:st=<st>:d=<d>
    | AFadeOut(fadeStart: real, fadeLength: real)       // afade=t=out:st=<st>:d=<d>

  /** The `atrim` start: the parsed start, or 0 when it is `NaN`. */
  function TrimStart(start: Option<real>): (r: real)
    ensures start.Some? ==> r == start.value
    ensures start.None? ==> r == 0.0
  {
    if start.Some? then start.value else 0.0
  }

  /** The four filters, in order: trim, reset timestamps, a 0.02 s fade in
      at 0, a 0.02 s fade out. `atrim` carries a duration exactly when the
      duration parses; a non-zero duration makes the fade-out end exactly
      at the end of the trimmed audio, and without one (or with 0) the
      fade-out starts 0.02 s before 0. */
  function TrimAudioChain(start: Option<real>, duration: Option<real>): (r: seq<AudioFilter>)
    ensures |r| == 4 && r[0].ATrim? && r[1] == ResetTimestamps && r[2] == AFadeIn(0.0, 0.02)
    ensures r[0].start == TrimStart(start)
    ensures r[0].length.Some? <==> duration.Some?
    ensures duration.Some? ==> r[0].length.value == duration.value
    ensures r[3].AFadeOut? && r[3].fadeLength == 0.02
    ensures duration.Some? && duration.value != 0.0 ==> r[3].fadeStart + r[3].fadeLength == duration.value
    ensures duration.None? || duration.value == 0.0 ==> r[3].fadeStart == -0.02
  {
    [ ATrim(TrimStart(start), duration),
      ResetTimestamps,
      AFadeIn(0.0, FadeLength),
      AFadeOut(OrElse(duration, 0.0) - FadeLength, FadeLength) ]
  }

  /** The engine's run: it fails with an error, or finishes having written
      a file of the given size. */
  datatype EngineRun = EngineError(message: string) | Finished(outputSize: nat)

  datatype TrimError = EngineFailed(message: string) | EmptyOutput

  /** The job handed to the engine. */
  datatype AudioJob = AudioJob(input: string, filters: seq<AudioFilter>, codec: string, bitrate: nat, output: string)

  /** The chain on `inputPath`, encoded as 192 kbps MP3 into `trim-<ts>.mp3`. */
  function TrimAudioJob(outputsDir: string, ts: string, input: string,
                        start: Option<real>, duration: Option<real>): (r: AudioJob)
    ensures r.input == input && r.filters == TrimAudioChain(start, duration)
    ensures r.codec == Mp3Codec && r.bitrate == 192
    ensures |r.output| > |outputsDir| && r.output[..|outputsDir|] == outputsDir && EndsWith(r.output, ".mp3")
    ensures r.output[|outputsDir|] == '/' && r.output[|outputsDir| + 1..] == "trim-" + ts + ".mp3"
  {
    AudioJob(input, TrimAudioChain(start, duration), Mp3Codec, Mp3Bitrate, Join(outputsDir, "trim-" + ts + ".mp3"))
  }

  /** The promise's outcome, and the files deleted on the way: an empty
      output is removed and rejected, an engine error rejected as is. */
  function TrimAudioOutcome(output: string, run: EngineRun): (r: (Result<string, TrimError>, seq<string>))
    ensures r.0.Success? <==> run.Finished? && run.outputSize > 0
    ensures r.0.Success? ==> r.0.value == output && r.1 == []
    ensures run.Finished? && run.outputSize == 0 ==> r.0 == Failure(EmptyOutput) && r.1 == [output]
    ensures run.EngineError? ==> r.0 == Failure(EngineFailed(run.message)) && r.1 == []
  {
    match run
    case EngineError(m) => (Failure(EngineFailed(m)), [])
    case Finished(size) => if size == 0 then (Failure(EmptyOutput), [output]) else (Success(output), [])
  }
}
