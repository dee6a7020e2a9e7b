/** `trimVideo`'s arguments to the engine: the seek start and the optional
    duration, from the parsed request values (`None` is `NaN`). */
module VideoTrim {
  import opened Wrappers
  import opened Numbers

  datatype TrimArgs = TrimArgs(startTime: real, duration: Option<real>)

  /** `setStartTime(parseFloat(start) || 0)`, and `setDuration(d)` only when
      `d` parses. */
  function TrimVideoArgs(start: Option<real>, duration: Option<real>): (r: TrimArgs)
    ensures start.Some? ==> r.startTime == start.value
    ensures start.None? ==> r.startTime == 0.0
    ensures r.duration.Some? <==> duration.Some?
    ensures duration.Some? ==> r.duration.value == duration.value
  {
    TrimArgs(OrElse(start, 0.0), duration)
  }
}
