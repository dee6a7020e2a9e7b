/** A typed filter graph: each part of the engine's `-filter_complex` text is a
    node that reads some pads, applies one operation and writes some pads. */
module FilterGraph {

  datatype StreamKind = VideoStream | AudioStream

  /** The intermediate labels of the light-leak graph: `[flare_scaled]`,
      `[flare_trimmed]`, `[flare_faded]`, `[flare_delayed]` and `[base_vid]`. */
  datatype Stage = FlareScaled | FlareTrimmed | FlareFaded | FlareDelayed | BaseVideo

  /** A connection point. `Input(i, k)` is stream `k` of input file `i`
      (`[i:v]`, `[i:a]`); the others are labels written by nodes:
      `Video(i)` is `[vi]`, `Audio(i)` is `[ai]`, `OutV` and `OutA` are
      `[outv]` and `[outa]`, `Named(s)` is one of the stage labels. */
  datatype Pad = Input(file: nat, kind: StreamKind) | Video(index: nat) | Audio(index: nat)
               | OutV | OutA | Named(stage: Stage)

  datatype XFadeKind = Fade | ZoomInWarp

  /** The operations the compiler emits. Numbers are the ones interpolated
      into the filter text; fixed strings of a filter are implied by its name. */
  datatype Op =
    | NormalizeVideo                          // scale/pad to 1920x1080, fps=30, yuv420p, setsar=1
    | NormalizeAudio                          // aformat fltp, 44100 Hz, stereo
    | SilentAudio(duration: real)             // anullsrc stereo 44100 Hz of this length
    | Concat(segments: nat)                   // concat=n=<segments>:v=1:a=1
    | RetimeFlare(speed: real)                // normalize without pixel format, setpts=PTS/<speed>
    | TrimTo(end: real)                       // trim=end=<end>, setpts=PTS-STARTPTS
    | FadeOut(start: real, duration: real)    // fade=t=out:st=<start>:d=<duration>
    | DelayBy(offset: real)                   // tpad black + setpts=PTS+<offset>/TB, yuv420p
    | XFade(kind: XFadeKind, duration: real, offset: real)
    | BlendLighten                            // blend=all_mode=lighten:shortest=0
    | AudioCrossfade(duration: real, exponential: bool)

  datatype Node = Node(inputs: seq<Pad>, op: Op, outputs: seq<Pad>)

  predicate Distinct<T(==)>(s: seq<T>) {
    forall a, b :: 0 <= a < b < |s| ==> s[a] != s[b]
  }

  /** All pads written by the nodes of `g`, in order. */
  function Outputs(g: seq<Node>): seq<Pad> {
    if g == [] then [] else Outputs(g[..|g| - 1]) + g[|g| - 1].outputs
  }

  /** All pads read by the nodes of `g`, in order. */
  function Inputs(g: seq<Node>): seq<Pad> {
    if g == [] then [] else Inputs(g[..|g| - 1]) + g[|g| - 1].inputs
  }

  /** The graph invariants the engine relies on: nodes write labels only, every
      label is written once, every label read was written by an earlier node,
      and no stream or label is read twice. */
  ghost predicate WellFormed(g: seq<Node>) {
    && (forall p :: p in Outputs(g) ==> !p.Input?)
    && Distinct(Outputs(g))
    && (forall j, p :: 0 <= j < |g| && p in g[j].inputs && !p.Input? ==> p in Outputs(g[..j]))
    && Distinct(Inputs(g))
  }

  /** What the compiler checks implicitly when it appends `nd` after `g`:
      `nd` writes fresh labels, reads only labels already written, and
      reads nothing that is read already. */
  ghost predicate Appendable(g: seq<Node>, nd: Node) {
    && Distinct(nd.outputs)
    && (forall p :: p in nd.outputs ==> !p.Input? && p !in Outputs(g))
    && (forall p :: p in nd.inputs && !p.Input? ==> p in Outputs(g))
    && Distinct(nd.inputs)
    && (forall p :: p in nd.inputs ==> p !in Inputs(g))
  }

  /** `g` can be built node by node, each node appendable to the ones before. */
  ghost predicate BuiltInOrder(g: seq<Node>) {
    g == [] || (BuiltInOrder(g[..|g| - 1]) && Appendable(g[..|g| - 1], g[|g| - 1]))
  }

  predicate IsVideoPad(p: Pad) {
    p.Video? || (p.Input? && p.kind == VideoStream)
  }

  predicate IsAudioPad(p: Pad) {
    p.Audio? || (p.Input? && p.kind == AudioStream)
  }

  /** How many pads of `s` carry video. */
  function VideoPads(s: seq<Pad>): nat {
    if s == [] then 0 else VideoPads(s[..|s| - 1]) + (if IsVideoPad(s[|s| - 1]) then 1 else 0)
  }

  /** How many pads of `s` carry audio. */
  function AudioPads(s: seq<Pad>): nat {
    if s == [] then 0 else AudioPads(s[..|s| - 1]) + (if IsAudioPad(s[|s| - 1]) then 1 else 0)
  }
}

/** Building a well-formed graph one node at a time. */
module FilterGraphProofs {
  import opened FilterGraph

  /** The pads written and read grow by one node at a time. */
  lemma SnocPads(g: seq<Node>, nd: Node)
    ensures Outputs(g + [nd]) == Outputs(g) + nd.outputs
    ensures Inputs(g + [nd]) == Inputs(g) + nd.inputs
  {
    assert (g + [nd])[..|g|] == g;
  }

  lemma DistinctConcat<T>(a: seq<T>, b: seq<T>)
    requires Distinct(a) && Distinct(b)
    requires forall p :: p in b ==> p !in a
    ensures Distinct(a + b)
  {
    var c := a + b;
    forall x, y | 0 <= x < y < |c| ensures c[x] != c[y] {
      if x < |a| && y >= |a| {
        assert c[y] == b[y - |a|] && c[y] in b;
      } else if x >= |a| {
        assert c[x] == b[x - |a|] && c[y] == b[y - |a|];
      }
    }
  }

  lemma SnocWired(g: seq<Node>, nd: Node)
    requires forall j, p :: 0 <= j < |g| && p in g[j].inputs && !p.Input? ==> p in Outputs(g[..j])
    requires forall p :: p in nd.inputs && !p.Input? ==> p in Outputs(g)
    ensures forall j, p :: 0 <= j < |g + [nd]| && p in (g + [nd])[j].inputs && !p.Input? ==> p in Outputs((g + [nd])[..j])
  {
    var h := g + [nd];
    forall j | 0 <= j < |h|
      ensures forall p :: p in h[j].inputs && !p.Input? ==> p in Outputs(h[..j])
    {
      if j < |g| {
        assert h[..j] == g[..j];
        assert h[j] == g[j];
      } else {
        assert h[..j] == g;
      }
    }
  }

  /** Appending an appendable node keeps the graph built in order. */
  lemma AppendNode(g: seq<Node>, nd: Node)
    requires BuiltInOrder(g) && Appendable(g, nd)
    ensures BuiltInOrder(g + [nd])
    ensures Outputs(g + [nd]) == Outputs(g) + nd.outputs
    ensures Inputs(g + [nd]) == Inputs(g) + nd.inputs
  {
    SnocPads(g, nd);
    assert (g + [nd])[..|g|] == g;
  }

  /** A graph built in order is well formed. */
  lemma {:induction false} BuiltWellFormed(g: seq<Node>)
    requires BuiltInOrder(g)
    ensures WellFormed(g)
  {
    if g != [] {
      var h, nd := g[..|g| - 1], g[|g| - 1];
      assert g == h + [nd];
      BuiltWellFormed(h);
      SnocPads(h, nd);
      DistinctConcat(Outputs(h), nd.outputs);
      DistinctConcat(Inputs(h), nd.inputs);
      SnocWired(h, nd);
    }
  }
}
