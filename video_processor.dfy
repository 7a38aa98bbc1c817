/**
 * `VideoRenderer.build_ffmpeg_command` of `backend/video_processor.py`: the
 * argument list handed to FFmpeg for a project's layers. Layer fields are
 * abstract strings (their `str()` as the f-strings print them).
 */
module VideoProcessor {
  import opened Text

  /** One entry of `project_data['layers']`. */
  datatype Layer = Layer(kind: string, source: string, start: string, duration: string)

  /** The parts of `project_data` the builder reads. */
  datatype Project = Project(layers: seq<Layer>, resolution: string)

  const VideoKind := "video"

  const ImageKind := "image"

  predicate IsVideo(l: Layer) { l.kind == VideoKind }

  predicate IsImage(l: Layer) { l.kind == ImageKind }

  /** Video and image layers are the only ones that reach FFmpeg. */
  predicate IsMedia(l: Layer) { IsVideo(l) || IsImage(l) }

  /** The input options one layer adds. */
  function InputArgs(l: Layer): seq<string>
  {
    if IsVideo(l) then ["-i", l.source]
    else if IsImage(l) then ["-loop", "1", "-i", l.source]
    else []
  }

  /** `[{i}:v]`: stream `v` of input number `i`. */
  function StreamRef(i: nat): string
  {
    "[" + NatToString(i) + ":v]"
  }

  /** `[v{i}]`: the output label of a filter entry. */
  function OutLabel(i: nat): string
  {
    "[v" + NatToString(i) + "]"
  }

  /** What a media layer's filter does between its input reference and its label. */
  function Scaling(l: Layer, resolution: string): string
  {
    if IsVideo(l) then "scale=" + resolution + ",setpts=PTS-STARTPTS+" + l.start + "/TB"
    else "scale=" + resolution + ",trim=duration=" + l.duration
  }

  /** The filter entry of the layer at position `i` of the layer list, as the source writes it. */
  function StreamFilter(i: nat, l: Layer, resolution: string): (f: string)
    ensures |StreamRef(i)| + |OutLabel(i)| <= |f|
    ensures f[..|StreamRef(i)|] == StreamRef(i)
    ensures f[|f| - |OutLabel(i)|..] == OutLabel(i)
  {
    var f := StreamRef(i) + Scaling(l, resolution) + OutLabel(i);
    assert f == StreamRef(i) + (Scaling(l, resolution) + OutLabel(i));
    f
  }

  /** `inputs` after the loop has visited `layers`. */
  function Inputs(layers: seq<Layer>): seq<string>
  {
    if layers == [] then []
    else Inputs(layers[..|layers| - 1]) + InputArgs(layers[|layers| - 1])
  }

  /** `filter_complex` after the loop has visited `layers`: one entry per media layer, labelled by its position. */
  function Filters(layers: seq<Layer>, resolution: string): seq<string>
  {
    if layers == [] then []
    else
      var init := layers[..|layers| - 1];
      var last := layers[|layers| - 1];
      Filters(init, resolution) + (if IsMedia(last) then [StreamFilter(|init|, last, resolution)] else [])
  }

  /** `''.join([f'[v{i}]' for i in range(n)])`. */
  function OverlayLabels(n: nat): string
  {
    if n == 0 then "" else OverlayLabels(n - 1) + OutLabel(n - 1)
  }

  /** The entry that combines the layers. */
  function OverlayEntry(n: nat): string
  {
    OverlayLabels(n) + OverlayFilter
  }

  const OverlayFilter := "overlay=shortest=1[out]"

  /** `filter_complex` once the overlay entry has been appended to a non-empty list. */
  function FilterGraph(layers: seq<Layer>, resolution: string): seq<string>
  {
    var fs := Filters(layers, resolution);
    if fs == [] then [] else fs + [OverlayEntry(|layers|)]
  }

  /** The options after the filter graph, before the output path. */
  const Tail: seq<string> := ["-map", "[out]", "-c:v", "libx264", "-preset", "fast"]

  const BaseCommand: seq<string> := ["ffmpeg", "-y"]

  /** The command the source returns. */
  function Command(project: Project, outputPath: string): seq<string>
  {
    BaseCommand + Inputs(project.layers)
    + ["-filter_complex", Join(FilterGraph(project.layers, project.resolution), ";")]
    + Tail + [outputPath]
  }

  /** `VideoRenderer.build_ffmpeg_command`. */
  method BuildFfmpegCommand(project: Project, outputPath: string) returns (command: seq<string>)
    ensures command == Command(project, outputPath)
    ensures |command| == 11 + 2 * CountVideo(project.layers) + 4 * CountImage(project.layers)
    ensures command[..2] == ["ffmpeg", "-y"] && command[|command| - 1] == outputPath
  {
    var layers := project.layers;
    var inputs: seq<string> := [];
    var filterComplex: seq<string> := [];
    for i := 0 to |layers|
      invariant inputs == Inputs(layers[..i])
      invariant filterComplex == Filters(layers[..i], project.resolution)
    {
      var layer := layers[i];
      PrefixStep(layers, i, project.resolution);
      if layer.kind == VideoKind {
        inputs := inputs + ["-i", layer.source];
        filterComplex := filterComplex + [StreamFilter(i, layer, project.resolution)];
      } else if layer.kind == ImageKind {
        inputs := inputs + ["-loop", "1", "-i", layer.source];
        filterComplex := filterComplex + [StreamFilter(i, layer, project.resolution)];
      }
    }
    assert layers[..|layers|] == layers;
    if filterComplex != [] {
      filterComplex := filterComplex + [OverlayLabels(|layers|) + OverlayFilter];
    }
    command := ["ffmpeg", "-y"] + inputs + ["-filter_complex", Join(filterComplex, ";")];
    command := command + ["-map", "[out]", "-c:v", "libx264", "-preset", "fast", outputPath];
    CommandLength(project, outputPath);
  }

  /** What the loop adds for the layer at position `i`. */
  lemma PrefixStep(layers: seq<Layer>, i: nat, resolution: string)
    requires i < |layers|
    ensures Inputs(layers[..i + 1]) == Inputs(layers[..i]) + InputArgs(layers[i])
    ensures Filters(layers[..i + 1], resolution) == Filters(layers[..i], resolution)
              + (if IsMedia(layers[i]) then [StreamFilter(i, layers[i], resolution)] else [])
  {
    assert layers[..i + 1][..i] == layers[..i];
  }

  // ---------------------------------------------------------------------
  // Counting

  function CountVideo(layers: seq<Layer>): nat
  {
    if layers == [] then 0
    else CountVideo(layers[..|layers| - 1]) + (if IsVideo(layers[|layers| - 1]) then 1 else 0)
  }

  function CountImage(layers: seq<Layer>): nat
  {
    if layers == [] then 0
    else CountImage(layers[..|layers| - 1]) + (if IsImage(layers[|layers| - 1]) then 1 else 0)
  }

  /** The number of FFmpeg inputs: one per media layer. */
  function CountMedia(layers: seq<Layer>): nat
  {
    if layers == [] then 0
    else CountMedia(layers[..|layers| - 1]) + (if IsMedia(layers[|layers| - 1]) then 1 else 0)
  }

  /** Each video layer adds two input arguments and each image layer four. */
  lemma {:induction false} InputsLength(layers: seq<Layer>)
    ensures |Inputs(layers)| == 2 * CountVideo(layers) + 4 * CountImage(layers)
  {
    if layers != [] {
      InputsLength(layers[..|layers| - 1]);
    }
  }

  /** |command| = 11 + 2 * videos + 4 * images. */
  lemma CommandLength(project: Project, outputPath: string)
    ensures |Command(project, outputPath)| == 11 + 2 * CountVideo(project.layers) + 4 * CountImage(project.layers)
  {
    InputsLength(project.layers);
  }

  // ---------------------------------------------------------------------
  // Shape of the command

  /**
   * The command is `ffmpeg -y`, the inputs, `-filter_complex` with the joined
   * graph, the fixed options, and the output path as its last element.
   */
  lemma CommandShape(project: Project, outputPath: string)
    ensures var c := Command(project, outputPath);
            var ins := Inputs(project.layers);
            && |c| == |ins| + 11
            && c[..2] == ["ffmpeg", "-y"]
            && c[2..2 + |ins|] == ins
            && c[2 + |ins|] == "-filter_complex"
            && c[3 + |ins|] == Join(FilterGraph(project.layers, project.resolution), ";")
            && c[4 + |ins|..] == ["-map", "[out]", "-c:v", "libx264", "-preset", "fast", outputPath]
            && c[|c| - 1] == outputPath
  {
    var c := Command(project, outputPath);
    var ins := Inputs(project.layers);
    var g := Join(FilterGraph(project.layers, project.resolution), ";");
    assert c == BaseCommand + (ins + (["-filter_complex", g] + (Tail + [outputPath])));
  }

  /**
   * Appending a layer: a video adds `-i` and its source, an image adds
   * `-loop 1 -i` and its source, and any other layer adds no input and no
   * filter entry; a media layer's entry is labelled with its position.
   */
  lemma LayerContribution(prefix: seq<Layer>, l: Layer, resolution: string)
    ensures Inputs(prefix + [l]) == Inputs(prefix)
              + (if IsVideo(l) then ["-i", l.source]
                 else if IsImage(l) then ["-loop", "1", "-i", l.source]
                 else [])
    ensures Filters(prefix + [l], resolution) == Filters(prefix, resolution)
              + (if IsMedia(l) then [StreamFilter(|prefix|, l, resolution)] else [])
  {
    assert (prefix + [l])[..|prefix|] == prefix;
  }

  /** Splitting the layer list splits the inputs the same way: inputs appear in layer order. */
  lemma {:induction false} InputsAppend(a: seq<Layer>, b: seq<Layer>)
    ensures Inputs(a + b) == Inputs(a) + Inputs(b)
    decreases |b|
  {
    if b == [] {
      assert a + b == a;
    } else {
      var ab := a + b;
      var binit := b[..|b| - 1];
      var last := b[|b| - 1];
      assert ab[..|ab| - 1] == a + binit;
      assert ab[|ab| - 1] == last;
      calc {
        Inputs(ab);
        Inputs(a + binit) + InputArgs(last);
        { InputsAppend(a, binit); }
        (Inputs(a) + Inputs(binit)) + InputArgs(last);
        Inputs(a) + (Inputs(binit) + InputArgs(last));
        Inputs(a) + Inputs(b);
      }
    }
  }

  /** The positions of the media layers, in increasing order. */
  function MediaPositions(layers: seq<Layer>): seq<nat>
  {
    if layers == [] then []
    else
      var init := layers[..|layers| - 1];
      MediaPositions(init) + (if IsMedia(layers[|layers| - 1]) then [|init|] else [])
  }

  /** The media positions are the positions of exactly the media layers, in increasing order. */
  lemma {:induction false} MediaPositionsExactly(layers: seq<Layer>)
    ensures var ps := MediaPositions(layers);
            && |ps| == CountMedia(layers)
            && (forall k :: 0 <= k < |ps| ==> ps[k] < |layers| && IsMedia(layers[ps[k]]))
            && (forall k, m :: 0 <= k < m < |ps| ==> ps[k] < ps[m])
            && (forall i :: 0 <= i < |layers| && IsMedia(layers[i]) ==> i in ps)
  {
    if layers != [] {
      var init := layers[..|layers| - 1];
      MediaPositionsExactly(init);
      assert forall i :: 0 <= i < |init| ==> init[i] == layers[i];
    }
  }

  /**
   * `filter_complex` before the overlay has one entry per media layer, in
   * layer order; entry `k` belongs to the `k`-th media layer and is labelled
   * with that layer's position in the full list.
   */
  lemma {:induction false} FiltersFollowLayers(layers: seq<Layer>, resolution: string)
    ensures var ps := MediaPositions(layers);
            var fs := Filters(layers, resolution);
            && (forall k :: 0 <= k < |ps| ==> ps[k] < |layers|)
            && |fs| == |ps|
            && (forall k :: 0 <= k < |ps| ==> fs[k] == StreamFilter(ps[k], layers[ps[k]], resolution))
  {
    if layers != [] {
      var init := layers[..|layers| - 1];
      var last := layers[|layers| - 1];
      FiltersFollowLayers(init, resolution);
      var ps := MediaPositions(layers);
      var pi := MediaPositions(init);
      var fs := Filters(layers, resolution);
      var fi := Filters(init, resolution);
      if IsMedia(last) {
        assert ps == pi + [|init|];
        assert fs == fi + [StreamFilter(|init|, last, resolution)];
      } else {
        assert ps == pi && fs == fi;
      }
      forall k | 0 <= k < |ps|
        ensures ps[k] < |layers| && fs[k] == StreamFilter(ps[k], layers[ps[k]], resolution)
      {
        if k < |pi| {
          assert ps[k] == pi[k] && fs[k] == fi[k];
          assert layers[pi[k]] == init[pi[k]];
        }
      }
    }
  }

  /** Without video or image layers there are no filter entries, and conversely. */
  lemma FiltersEmptyExactly(layers: seq<Layer>, resolution: string)
    ensures Filters(layers, resolution) == [] <==> forall i :: 0 <= i < |layers| ==> !IsMedia(layers[i])
  {
    FiltersFollowLayers(layers, resolution);
    MediaPositionsExactly(layers);
    var ps := MediaPositions(layers);
    if Filters(layers, resolution) != [] {
      assert IsMedia(layers[ps[0]]);
    }
  }

  /** The `-filter_complex` argument is the empty string exactly when no layer is a video or an image. */
  lemma FilterArgumentEmptyExactly(project: Project)
    ensures Join(FilterGraph(project.layers, project.resolution), ";") == "" <==>
            forall i :: 0 <= i < |project.layers| ==> !IsMedia(project.layers[i])
  {
    var layers := project.layers;
    FiltersEmptyExactly(layers, project.resolution);
    var fs := Filters(layers, project.resolution);
    if fs != [] {
      FiltersFollowLayers(layers, project.resolution);
      var ps := MediaPositions(layers);
      var g := FilterGraph(layers, project.resolution);
      assert g[0] == StreamFilter(ps[0], layers[ps[0]], project.resolution);
      assert g[0] != "";
    }
  }

  /** When there are filter entries, the graph ends with the overlay over all layer labels. */
  lemma FilterGraphEndsWithOverlay(layers: seq<Layer>, resolution: string)
    requires Filters(layers, resolution) != []
    ensures var g := FilterGraph(layers, resolution);
            g[..|g| - 1] == Filters(layers, resolution) && g[|g| - 1] == OverlayEntry(|layers|)
  {
  }

  lemma {:induction false} OverlayLabelsMention(n: nat, i: nat)
    requires i < n
    ensures OccursAt(OverlayLabels(n), OutLabel(i), |OverlayLabels(i)|)
    decreases n
  {
    if n == i + 1 {
      OccursAtJunction(OverlayLabels(i), OutLabel(i));
    } else {
      OverlayLabelsMention(n - 1, i);
      OccursAtExtend(OverlayLabels(n - 1), OutLabel(i), |OverlayLabels(i)|, OutLabel(n - 1));
    }
  }

  /** The overlay entry names `[v{i}]` for every layer position `i`, media or not. */
  lemma OverlayMentionsEveryLayer(n: nat, i: nat)
    requires i < n
    ensures OccursAt(OverlayEntry(n), OutLabel(i), |OverlayLabels(i)|)
  {
    OverlayLabelsMention(n, i);
    OccursAtExtend(OverlayLabels(n), OutLabel(i), |OverlayLabels(i)|, OverlayFilter);
  }

  // ---------------------------------------------------------------------
  // Stream references

  /**
   * A text layer before a video layer: the video's filter reads input 1
   * (`[1:v]`) while the command has a single input, number 0.
   */
  lemma StreamRefSkipsInputs()
    ensures var layers := [Layer("text", "title.txt", "0", "5"), Layer("video", "clip.mp4", "0", "5")];
            var fs := Filters(layers, "1920x1080");
            && Inputs(layers) == ["-i", "clip.mp4"]
            && CountMedia(layers) == 1
            && |fs| == 1
            && fs[0][..|StreamRef(1)|] == StreamRef(1)
  {
    var layers := [Layer("text", "title.txt", "0", "5"), Layer("video", "clip.mp4", "0", "5")];
    assert layers[..1] == [layers[0]];
    assert [layers[0]][..0] == [];
  }

  /**
   * The same layers: the overlay entry reads `[v0]`, which no filter entry
   * produces (the only entry is labelled `[v1]`).
   */
  lemma OverlayReadsUndefinedLabel()
    ensures var layers := [Layer("text", "title.txt", "0", "5"), Layer("video", "clip.mp4", "0", "5")];
            var fs := Filters(layers, "1920x1080");
            && OccursAt(OverlayEntry(|layers|), OutLabel(0), 0)
            && |fs| == 1
            && fs[0][|fs[0]| - |OutLabel(1)|..] == OutLabel(1)
            && OutLabel(0) != OutLabel(1)
  {
    var layers := [Layer("text", "title.txt", "0", "5"), Layer("video", "clip.mp4", "0", "5")];
    assert layers[..1] == [layers[0]];
    assert [layers[0]][..0] == [];
    OverlayMentionsEveryLayer(2, 0);
    NatToStringInjective(0, 1);
    assert OutLabel(0)[2..|OutLabel(0)| - 1] == NatToString(0);
    assert OutLabel(1)[2..|OutLabel(1)| - 1] == NatToString(1);
  }

  /**
   * The filter entries as evidently intended: the `k`-th media layer reads
   * input number `k`, the ordinal of its `-i`, and keeps its positional label.
   */
  function CorrectedFilters(layers: seq<Layer>, resolution: string): seq<string>
  {
    if layers == [] then []
    else
      var init := layers[..|layers| - 1];
      var last := layers[|layers| - 1];
      CorrectedFilters(init, resolution)
      + (if IsMedia(last) then [StreamRef(CountMedia(init)) + Scaling(last, resolution) + OutLabel(|init|)] else [])
  }

  /** The labels the overlay should read: those of the media layers, in order. */
  function CorrectedOverlayLabels(layers: seq<Layer>): string
  {
    if layers == [] then ""
    else
      var init := layers[..|layers| - 1];
      CorrectedOverlayLabels(init) + (if IsMedia(layers[|layers| - 1]) then OutLabel(|init|) else "")
  }

  function CorrectedFilterGraph(layers: seq<Layer>, resolution: string): seq<string>
  {
    var fs := CorrectedFilters(layers, resolution);
    if fs == [] then [] else fs + [CorrectedOverlayLabels(layers) + OverlayFilter]
  }

  /** The input options of the layers at positions `ps`, in that order. */
  function ArgsAt(layers: seq<Layer>, ps: seq<nat>): seq<string>
    requires forall k :: 0 <= k < |ps| ==> ps[k] < |layers|
  {
    if ps == [] then []
    else ArgsAt(layers, ps[..|ps| - 1]) + InputArgs(layers[ps[|ps| - 1]])
  }

  /** Options of positions inside a prefix do not depend on what follows it. */
  lemma {:induction false} ArgsAtPrefix(init: seq<Layer>, layers: seq<Layer>, ps: seq<nat>)
    requires |init| <= |layers| && init == layers[..|init|]
    requires forall k :: 0 <= k < |ps| ==> ps[k] < |init|
    ensures ArgsAt(init, ps) == ArgsAt(layers, ps)
    decreases |ps|
  {
    if ps != [] {
      ArgsAtPrefix(init, layers, ps[..|ps| - 1]);
      assert init[ps[|ps| - 1]] == layers[ps[|ps| - 1]];
    }
  }

  /**
   * The inputs are the options of the media layers, in layer order: with
   * `MediaInputArgs`, input number `k` of FFmpeg is the source of the `k`-th
   * media layer.
   */
  lemma {:induction false} InputsFollowMediaLayers(layers: seq<Layer>)
    ensures var ps := MediaPositions(layers);
            && (forall k :: 0 <= k < |ps| ==> ps[k] < |layers|)
            && Inputs(layers) == ArgsAt(layers, ps)
  {
    MediaPositionsExactly(layers);
    if layers != [] {
      var init := layers[..|layers| - 1];
      var last := layers[|layers| - 1];
      InputsFollowMediaLayers(init);
      var pi := MediaPositions(init);
      var ps := MediaPositions(layers);
      ArgsAtPrefix(init, layers, pi);
      calc {
        Inputs(layers);
        Inputs(init) + InputArgs(last);
        ArgsAt(init, pi) + InputArgs(last);
        ArgsAt(layers, pi) + InputArgs(last);
      }
      if IsMedia(last) {
        assert ps == pi + [|init|];
        assert ps[..|ps| - 1] == pi;
        assert ArgsAt(layers, ps) == ArgsAt(layers, pi) + InputArgs(layers[|init|]);
      } else {
        assert ps == pi && InputArgs(last) == [];
      }
    }
  }

  /** A media layer's options name exactly one input, its source, with `-i` last. */
  lemma MediaInputArgs(l: Layer)
    requires IsMedia(l)
    ensures var args := InputArgs(l);
            && |args| >= 2 && args[|args| - 2..] == ["-i", l.source]
            && (forall j :: 0 <= j < |args| - 2 ==> args[j] != "-i")
  {
  }

  /** Every media layer is a video or an image, never both. */
  lemma {:induction false} CountMediaSplits(layers: seq<Layer>)
    ensures CountMedia(layers) == CountVideo(layers) + CountImage(layers)
  {
    assert VideoKind != ImageKind by {
      assert VideoKind[0] != ImageKind[0];
    }
    if layers != [] {
      CountMediaSplits(layers[..|layers| - 1]);
    }
  }

  /** The labels of the given positions, in order. */
  function LabelsOf(ps: seq<nat>): string
  {
    if ps == [] then "" else LabelsOf(ps[..|ps| - 1]) + OutLabel(ps[|ps| - 1])
  }

  /**
   * In the corrected graph entry `k` reads input `k`, which exists because
   * there are as many inputs as entries, and is labelled with the position
   * of the `k`-th media layer; the overlay reads exactly those labels.
   */
  lemma {:induction false} CorrectedFiltersReadExistingInputs(layers: seq<Layer>, resolution: string)
    ensures var fs := CorrectedFilters(layers, resolution);
            var ps := MediaPositions(layers);
            && (forall k :: 0 <= k < |ps| ==> ps[k] < |layers|)
            && |fs| == |ps| == CountMedia(layers)
            && (forall k :: 0 <= k < |fs| ==>
                  fs[k] == StreamRef(k) + Scaling(layers[ps[k]], resolution) + OutLabel(ps[k]))
            && CorrectedOverlayLabels(layers) == LabelsOf(ps)
  {
    if layers != [] {
      var init := layers[..|layers| - 1];
      var last := layers[|layers| - 1];
      CorrectedFiltersReadExistingInputs(init, resolution);
      var ps := MediaPositions(layers);
      var pi := MediaPositions(init);
      var fs := CorrectedFilters(layers, resolution);
      var fi := CorrectedFilters(init, resolution);
      if IsMedia(last) {
        assert ps == pi + [|init|];
        assert ps[..|ps| - 1] == pi;
        assert fs == fi + [StreamRef(|pi|) + Scaling(last, resolution) + OutLabel(|init|)];
      } else {
        assert ps == pi && fs == fi;
      }
      forall k | 0 <= k < |ps|
        ensures ps[k] < |layers|
        ensures fs[k] == StreamRef(k) + Scaling(layers[ps[k]], resolution) + OutLabel(ps[k])
      {
        if k < |pi| {
          assert ps[k] == pi[k] && fs[k] == fi[k];
          assert layers[pi[k]] == init[pi[k]];
        }
      }
    }
  }

  /** The command with the corrected graph; everything else is as before. */
  function CorrectedCommand(project: Project, outputPath: string): seq<string>
  {
    BaseCommand + Inputs(project.layers)
    + ["-filter_complex", Join(CorrectedFilterGraph(project.layers, project.resolution), ";")]
    + Tail + [outputPath]
  }

  /** The corrected command differs from the source's only in the `-filter_complex` argument. */
  lemma CorrectedCommandShape(project: Project, outputPath: string)
    ensures var c := Command(project, outputPath);
            var n := 3 + |Inputs(project.layers)|;
            && n < |c|
            && CorrectedCommand(project, outputPath)
               == c[n := Join(CorrectedFilterGraph(project.layers, project.resolution), ";")]
  {
    SameShape(Inputs(project.layers),
              Join(FilterGraph(project.layers, project.resolution), ";"),
              Join(CorrectedFilterGraph(project.layers, project.resolution), ";"),
              outputPath);
  }

  lemma SameShape(ins: seq<string>, g: string, h: string, outputPath: string)
    ensures var c := BaseCommand + ins + ["-filter_complex", g] + Tail + [outputPath];
            var n := 3 + |ins|;
            && n < |c|
            && BaseCommand + ins + ["-filter_complex", h] + Tail + [outputPath] == c[n := h]
  {
    var c := BaseCommand + ins + ["-filter_complex", g] + Tail + [outputPath];
    var d := BaseCommand + ins + ["-filter_complex", h] + Tail + [outputPath];
    var n := 3 + |ins|;
    assert |d| == |c|;
    forall k | 0 <= k < |c|
      ensures d[k] == c[n := h][k]
    {
      if k < 2 + |ins| {
        assert d[k] == (BaseCommand + ins)[k] == c[k];
      } else if k > n {
        assert d[k] == (Tail + [outputPath])[k - n - 1] == c[k];
      }
    }
  }

  /** On projects whose layers are all media, the corrected graph is the source's graph. */
  lemma {:induction false} MediaOnlyAgree(layers: seq<Layer>, resolution: string)
    requires forall i :: 0 <= i < |layers| ==> IsMedia(layers[i])
    ensures CountMedia(layers) == |layers|
    ensures CorrectedFilters(layers, resolution) == Filters(layers, resolution)
    ensures CorrectedOverlayLabels(layers) == OverlayLabels(|layers|)
  {
    if layers != [] {
      var init := layers[..|layers| - 1];
      assert forall i :: 0 <= i < |init| ==> init[i] == layers[i];
      MediaOnlyAgree(init, resolution);
    }
  }
}
