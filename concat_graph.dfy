/** The hard-cut concatenation graph of `concatVideos`: one normalization node
    and one audio node per clip, then a single N-way `concat` node. */
module ConcatGraph {
  import opened FilterGraph
  import opened MediaProbe

  function NormalizeNode(i: nat): Node {
    Node([Input(i, VideoStream)], NormalizeVideo, [Video(i)])
  }

  /** The clip's own audio through `aformat`, or silence as long as the clip. */
  function AudioNode(i: nat, p: Probe): Node {
    if HasAudio(p) then Node([Input(i, AudioStream)], NormalizeAudio, [Audio(i)])
    else Node([], SilentAudio(DurationOrZero(p)), [Audio(i)])
  }

  /** `[v0][a0][v1][a1]...[v(n-1)][a(n-1)]`: only clip labels, of the first
      `n` clips. */
  function ConcatInputs(n: nat): (r: seq<Pad>)
    ensures |r| == 2 * n
    ensures forall p :: p in r ==> (p.Video? || p.Audio?) && p.index < n
  {
    if n == 0 then [] else ConcatInputs(n - 1) + [Video(n - 1), Audio(n - 1)]
  }

  function ConcatNode(n: nat): Node {
    Node(ConcatInputs(n), Concat(n), [OutV, OutA])
  }

  /** The nodes pushed for the first `k` clips, two per clip, in clip order. */
  function ClipParts(k: nat, probes: seq<Probe>): (r: seq<Node>)
    requires k <= |probes|
    ensures |r| == 2 * k
  {
    if k == 0 then [] else ClipParts(k - 1, probes) + [NormalizeNode(k - 1), AudioNode(k - 1, probes[k - 1])]
  }

  /** The whole hard-cut graph for clips with the given probes. */
  function HardCutGraph(probes: seq<Probe>): seq<Node> {
    ClipParts(|probes|, probes) + [ConcatNode(|probes|)]
  }

  /** What is handed to the engine: the input files in order, the graph and
      the two `-map` targets. */
  datatype ConcatCommand = ConcatCommand(inputs: seq<string>, graph: seq<Node>, maps: seq<Pad>)

  /** `concatVideos(files, transition, transitionDuration)`: probes every file
      and builds the hard-cut graph; `transition` and `transitionDuration`
      do not matter because the source hard-codes `forceNoTransitions`, so
      the pairwise branch is never taken. */
  method ConcatVideos(files: seq<string>, transition: string, transitionDuration: real, probe: string -> Probe)
    returns (cmd: ConcatCommand)
    ensures cmd.inputs == files
    ensures cmd.graph == HardCutGraph(ProbeAll(files, probe))
    ensures cmd.maps == [OutV, OutA]
  {
    var probes := ProbeAll(files, probe);
    var filterParts: seq<Node> := [];
    var concatInputs: seq<Pad> := [];
    var i := 0;
    while i < |files|
      invariant 0 <= i <= |files|
      invariant filterParts == ClipParts(i, probes)
      invariant concatInputs == ConcatInputs(i)
    {
      filterParts := filterParts + [NormalizeNode(i)];
      if HasAudio(probes[i]) {
        filterParts := filterParts + [Node([Input(i, AudioStream)], NormalizeAudio, [Audio(i)])];
      } else {
        filterParts := filterParts + [Node([], SilentAudio(DurationOrZero(probes[i])), [Audio(i)])];
      }
      concatInputs := concatInputs + [Video(i), Audio(i)];
      i := i + 1;
    }
    filterParts := filterParts + [Node(concatInputs, Concat(|files|), [OutV, OutA])];
    cmd := ConcatCommand(files, filterParts, [OutV, OutA]);
  }
}

/** Properties of the hard-cut graph. */
module ConcatGraphProofs {
  import opened FilterGraph
  import opened MediaProbe
  import opened ConcatGraph
  import opened FilterGraphProofs

  /** Clip `i` owns parts `2i` (its video) and `2i + 1` (its audio or silence). */
  lemma {:induction false} ClipPartsAt(k: nat, probes: seq<Probe>, i: nat)
    requires k <= |probes| && i < k
    ensures ClipParts(k, probes)[2 * i] == NormalizeNode(i)
    ensures ClipParts(k, probes)[2 * i + 1] == AudioNode(i, probes[i])
  {
    var prev := ClipParts(k - 1, probes);
    assert ClipParts(k, probes) == prev + [NormalizeNode(k - 1), AudioNode(k - 1, probes[k - 1])];
    if i < k - 1 {
      ClipPartsAt(k - 1, probes, i);
    }
  }

  /** Clip `i` reads its own audio stream exactly when the probe found one,
      and otherwise gets silence as long as the probed duration. */
  lemma AudioPartOfClip(probes: seq<Probe>, i: nat)
    requires i < |probes|
    ensures HardCutGraph(probes)[2 * i].inputs == [Input(i, VideoStream)]
    ensures HardCutGraph(probes)[2 * i + 1].inputs == [Input(i, AudioStream)] <==> HasAudio(probes[i])
    ensures !HasAudio(probes[i]) ==>
              HardCutGraph(probes)[2 * i + 1].inputs == []
              && HardCutGraph(probes)[2 * i + 1].op == SilentAudio(DurationOrZero(probes[i]))
  {
    ClipPartsAt(|probes|, probes, i);
  }

  /** `[vi]` sits at position `2i` and `[ai]` at `2i + 1`. */
  lemma {:induction false} ConcatInputsAt(n: nat, i: nat)
    requires i < n
    ensures ConcatInputs(n)[2 * i] == Video(i) && ConcatInputs(n)[2 * i + 1] == Audio(i)
  {
    if i < n - 1 {
      ConcatInputsAt(n - 1, i);
    }
  }

  lemma {:induction false} ConcatInputsDistinct(n: nat)
    ensures Distinct(ConcatInputs(n))
  {
    if n > 0 {
      ConcatInputsDistinct(n - 1);
      DistinctConcat(ConcatInputs(n - 1), [Video(n - 1), Audio(n - 1)]);
    }
  }

  /** The clip parts write exactly the labels the concat node reads, in
      the same order. */
  lemma {:induction false} ClipPartsOutputs(k: nat, probes: seq<Probe>)
    requires k <= |probes|
    ensures Outputs(ClipParts(k, probes)) == ConcatInputs(k)
  {
    if k > 0 {
      var m := k - 1;
      ClipPartsOutputs(m, probes);
      var prev := ClipParts(m, probes);
      var g := prev + [NormalizeNode(m)];
      assert ClipParts(k, probes) == g + [AudioNode(m, probes[m])];
      SnocPads(prev, NormalizeNode(m));
      SnocPads(g, AudioNode(m, probes[m]));
      assert ConcatInputs(m) + [Video(m)] + [Audio(m)] == ConcatInputs(m) + [Video(m), Audio(m)];
    }
  }

  /** The clip parts read only streams of the first `k` files. */
  lemma {:induction false} ClipPartsInputs(k: nat, probes: seq<Probe>)
    requires k <= |probes|
    ensures forall p :: p in Inputs(ClipParts(k, probes)) ==> p.Input? && p.file < k
  {
    if k > 0 {
      var m := k - 1;
      ClipPartsInputs(m, probes);
      var prev := ClipParts(m, probes);
      var g := prev + [NormalizeNode(m)];
      assert ClipParts(k, probes) == g + [AudioNode(m, probes[m])];
      SnocPads(prev, NormalizeNode(m));
      SnocPads(g, AudioNode(m, probes[m]));
    }
  }

  /** Both of the above. */
  lemma ClipPartsPads(k: nat, probes: seq<Probe>)
    requires k <= |probes|
    ensures Outputs(ClipParts(k, probes)) == ConcatInputs(k)
    ensures forall p :: p in Inputs(ClipParts(k, probes)) ==> p.Input? && p.file < k
  {
    ClipPartsOutputs(k, probes);
    ClipPartsInputs(k, probes);
  }

  /** Clip `m`'s video part can follow the parts of the clips before it. */
  lemma AppendVideoPart(m: nat, probes: seq<Probe>)
    requires m < |probes|
    requires BuiltInOrder(ClipParts(m, probes))
    requires Outputs(ClipParts(m, probes)) == ConcatInputs(m)
    requires forall p :: p in Inputs(ClipParts(m, probes)) ==> p.Input? && p.file < m
    ensures BuiltInOrder(ClipParts(m, probes) + [NormalizeNode(m)])
  {
    var prev := ClipParts(m, probes);
    assert Video(m) !in Outputs(prev);
    assert Input(m, VideoStream) !in Inputs(prev);
    AppendNode(prev, NormalizeNode(m));
  }

  /** Clip `m`'s audio part can follow its video part. */
  lemma AppendAudioPart(m: nat, probes: seq<Probe>)
    requires m < |probes|
    requires BuiltInOrder(ClipParts(m, probes) + [NormalizeNode(m)])
    requires Outputs(ClipParts(m, probes)) == ConcatInputs(m)
    requires forall p :: p in Inputs(ClipParts(m, probes)) ==> p.Input? && p.file < m
    ensures BuiltInOrder(ClipParts(m + 1, probes))
  {
    var prev := ClipParts(m, probes);
    var g := prev + [NormalizeNode(m)];
    SnocPads(prev, NormalizeNode(m));
    assert Audio(m) !in Outputs(g);
    assert Input(m, AudioStream) !in Inputs(g);
    AppendNode(g, AudioNode(m, probes[m]));
    assert ClipParts(m + 1, probes) == g + [AudioNode(m, probes[m])];
  }

  /** Clip `m`'s two parts can follow the parts of the clips before it. */
  lemma AppendClip(m: nat, probes: seq<Probe>)
    requires m < |probes| && BuiltInOrder(ClipParts(m, probes))
    ensures BuiltInOrder(ClipParts(m + 1, probes))
  {
    ClipPartsPads(m, probes);
    AppendVideoPart(m, probes);
    AppendAudioPart(m, probes);
  }

  /** The clip parts can be appended clip by clip. */
  lemma {:induction false} ClipPartsInOrder(k: nat, probes: seq<Probe>)
    requires k <= |probes|
    ensures BuiltInOrder(ClipParts(k, probes))
  {
    if k > 0 {
      ClipPartsInOrder(k - 1, probes);
      AppendClip(k - 1, probes);
    }
  }

  /** Every hard-cut graph is well formed: labels unique, each read label
      written earlier, no stream or label read twice. */
  lemma HardCutWellFormed(probes: seq<Probe>)
    ensures WellFormed(HardCutGraph(probes))
    ensures Outputs(HardCutGraph(probes)) == ConcatInputs(|probes|) + [OutV, OutA]
    ensures |HardCutGraph(probes)| == 2 * |probes| + 1
    ensures HardCutGraph(probes)[2 * |probes|] == Node(ConcatInputs(|probes|), Concat(|probes|), [OutV, OutA])
  {
    var n := |probes|;
    ClipPartsInOrder(n, probes);
    ClipPartsPads(n, probes);
    ConcatInputsDistinct(n);
    AppendNode(ClipParts(n, probes), ConcatNode(n));
    BuiltWellFormed(HardCutGraph(probes));
  }

  /** The final concat node reads as many video pads as audio pads, one of
      each per clip. */
  lemma {:induction false} ConcatPadBalance(n: nat)
    ensures VideoPads(ConcatInputs(n)) == n && AudioPads(ConcatInputs(n)) == n
  {
    if n > 0 {
      ConcatPadBalance(n - 1);
      var r := ConcatInputs(n);
      assert r[..|r| - 1] == ConcatInputs(n - 1) + [Video(n - 1)];
      assert r[..|r| - 1][..|r| - 2] == ConcatInputs(n - 1);
    }
  }
}
