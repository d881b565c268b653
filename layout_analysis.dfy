/** src/steps/step_03_layout_analysis.py: a layout model, built once and
    kept in a module-wide cache, detects blocks on a preprocessed image;
    the blocks are saved as JSON records and drawn onto a visualization,
    under `output_dir/json` and `output_dir/visualizations`. Detection,
    drawing and JSON encoding belong to layoutparser, cv2 and json: the
    detector is a parameter, and what is saved is recorded, not encoded. */
module LayoutAnalysis {
  import opened Wrappers
  import opened PyValues
  import opened PyPaths
  import opened Files

  /** The `config_path` handed to layoutparser when `model_config` has no
      "type". */
  const DefaultModelType: string := "lp://PubLayNet/mask_rcnn_X_101_32x8d_FPN_3x/config"

  /** The label map used when `model_config` has no "label_map". */
  const DefaultLabelMap: Value :=
    VDict(map[VInt(0) := VStr("Text"), VInt(1) := VStr("Title"), VInt(2) := VStr("List"),
              VInt(3) := VStr("Table"), VInt(4) := VStr("Figure")])

  /** A `Detectron2LayoutModel`: an object, so two models built from the
      same settings are still two models. */
  class LayoutModel {
    const configPath: Value
    const labelMap: Value

    constructor (configPath: Value, labelMap: Value)
      ensures this.configPath == configPath && this.labelMap == labelMap
    {
      this.configPath := configPath;
      this.labelMap := labelMap;
    }
  }

  /** The module-global `_model_cache`: empty at import, set by the first
      successful `_initialize_model` and never reset. */
  class ModelCache {
    var cached: LayoutModel?

    constructor ()
      ensures cached == null
    {
      cached := null;
    }

    /** `_initialize_model(config)`: a cached model is returned as it is,
        without looking at `config`; otherwise a model is built from the
        config's "type" and "label_map" (or their defaults), cached and
        returned. `config.get` on anything but a mapping raises. */
    method InitializeModel(config: Value) returns (r: Result<LayoutModel, Error>)
      modifies this
      ensures old(cached) != null ==> r == Ok(old(cached)) && cached == old(cached)
      ensures old(cached) == null && !config.VDict? ==> r == Err(AttributeError("get")) && cached == null
      ensures old(cached) == null && config.VDict? ==>
                && r.Ok? && fresh(r.value) && cached == r.value
                && r.value.configPath == GetOr(config.entries, "type", VStr(DefaultModelType))
                && r.value.labelMap == GetOr(config.entries, "label_map", DefaultLabelMap)
    {
      if cached != null {
        return Ok(cached);
      }
      if !config.VDict? {
        return Err(AttributeError("get"));
      }
      var modelType := GetOr(config.entries, "type", VStr(DefaultModelType));
      var labelMap := GetOr(config.entries, "label_map", DefaultLabelMap);
      var model := new LayoutModel(modelType, labelMap);
      cached := model;
      r := Ok(model);
    }
  }

  /** A detected block: its box corners, its label and its confidence. */
  datatype Block = Block(coordinates: seq<real>, blockType: Value, score: real)

  /** One JSON record of `_save_layout_data`. */
  datatype LayoutRecord = LayoutRecord(box: seq<int>, blockType: Value, score: real)

  /** What the step saves: the records as JSON, or the image with the
      blocks drawn on it. */
  datatype Artifact =
    | LayoutJson(records: seq<LayoutRecord>)
    | Visualization(image: string, layout: seq<Block>)

  /** Python's `int(x)` on a float: it keeps the sign of `x`, drops less
      than one unit, and never grows in magnitude. */
  function Trunc(x: real): (n: int)
    ensures x >= 0.0 ==> 0.0 <= n as real <= x < n as real + 1.0
    ensures x < 0.0 ==> n as real - 1.0 < x <= n as real <= 0.0
  {
    if x >= 0.0 then x.Floor else -((-x).Floor)
  }

  /** An integral value is kept as it is. */
  lemma TruncOfInteger(n: int)
    ensures Trunc(n as real) == n
  {
  }

  function BoxOf(coordinates: seq<real>): seq<int> {
    seq(|coordinates|, j requires 0 <= j < |coordinates| => Trunc(coordinates[j]))
  }

  function RecordOf(block: Block): LayoutRecord {
    LayoutRecord(BoxOf(block.coordinates), block.blockType, block.score)
  }

  /** The records `_save_layout_data` writes for `layout`. */
  function LayoutRecords(layout: seq<Block>): seq<LayoutRecord> {
    if layout == [] then [] else LayoutRecords(layout[..|layout| - 1]) + [RecordOf(layout[|layout| - 1])]
  }

  /** One record per block, in block order: each box corner truncated
      toward zero, the type copied unchanged, the score kept. */
  lemma {:induction false} RecordsFollowBlocks(layout: seq<Block>)
    ensures |LayoutRecords(layout)| == |layout|
    ensures forall i :: 0 <= i < |layout| ==>
              && LayoutRecords(layout)[i].blockType == layout[i].blockType
              && LayoutRecords(layout)[i].score == layout[i].score
              && |LayoutRecords(layout)[i].box| == |layout[i].coordinates|
              && (forall j :: 0 <= j < |layout[i].coordinates| ==>
                    LayoutRecords(layout)[i].box[j] == Trunc(layout[i].coordinates[j]))
  {
    if layout != [] {
      RecordsFollowBlocks(layout[..|layout| - 1]);
    }
  }

  /** The records of two layouts together are the records of each, in
      order. */
  lemma {:induction false} RecordsOfConcatenation(first: seq<Block>, second: seq<Block>)
    ensures LayoutRecords(first + second) == LayoutRecords(first) + LayoutRecords(second)
    decreases |second|
  {
    if second == [] {
      assert first + second == first;
    } else {
      var init := second[..|second| - 1];
      assert (first + second)[..|first + second| - 1] == first + init;
      RecordsOfConcatenation(first, init);
    }
  }

  /** The loop of `_save_layout_data` that builds `layout_data`. */
  method BuildRecords(layout: seq<Block>) returns (records: seq<LayoutRecord>)
    ensures records == LayoutRecords(layout)
  {
    records := [];
    var i := 0;
    while i < |layout|
      invariant 0 <= i <= |layout|
      invariant records == LayoutRecords(layout[..i])
    {
      var block := layout[i];
      var box: seq<int> := [];
      var j := 0;
      while j < |block.coordinates|
        invariant 0 <= j <= |block.coordinates|
        invariant box == BoxOf(block.coordinates[..j])
      {
        box := box + [Trunc(block.coordinates[j])];
        j := j + 1;
      }
      assert block.coordinates[..j] == block.coordinates;
      records := records + [LayoutRecord(box, block.blockType, block.score)];
      assert layout[..i + 1][..i] == layout[..i];
      i := i + 1;
    }
    assert layout[..i] == layout;
  }

  /** `_save_layout_data(layout, output_path, label_map)`: the records are
      written to `outputPath`; `labelMap` is accepted and not used. */
  method SaveLayoutData(fs: FileSystem<Artifact>, layout: seq<Block>, outputPath: string, labelMap: Value)
    modifies fs
    ensures fs.writes == old(fs.writes) + [(outputPath, LayoutJson(LayoutRecords(layout)))]
    ensures fs.dirs == old(fs.dirs)
  {
    var records := BuildRecords(layout);
    fs.Write(outputPath, LayoutJson(records));
  }

  /** `_save_visualization(image, layout, output_path)`. */
  method SaveVisualization(fs: FileSystem<Artifact>, imagePath: string, layout: seq<Block>, outputPath: string)
    modifies fs
    ensures fs.writes == old(fs.writes) + [(outputPath, Visualization(imagePath, layout))]
    ensures fs.dirs == old(fs.dirs)
  {
    fs.Write(outputPath, Visualization(imagePath, layout));
  }

  /** What `process_image` reads from the configuration before anything
      else happens. */
  datatype LayoutSettings = LayoutSettings(outputDir: string, modelConfig: Dict, labelMap: Value)

  /** The lookups of `process_image`, in its order: the step section,
      "output_dir", "model_config" and its "label_map" (each a KeyError
      when missing), then `os.path.join` on `output_dir` (a TypeError
      unless it is a string). */
  function ReadSettings(config: Dict): (r: Result<LayoutSettings, Error>)
    ensures r.Ok? <==>
              && VStr("step_03_layout_analysis") in config
              && config[VStr("step_03_layout_analysis")].VDict?
              && var stepConfig := config[VStr("step_03_layout_analysis")].entries;
              && VStr("output_dir") in stepConfig && stepConfig[VStr("output_dir")].VStr?
              && VStr("model_config") in stepConfig && stepConfig[VStr("model_config")].VDict?
              && VStr("label_map") in stepConfig[VStr("model_config")].entries
    ensures r.Ok? ==> VStr("label_map") in r.value.modelConfig &&
                      r.value.labelMap == r.value.modelConfig[VStr("label_map")]
    ensures VStr("step_03_layout_analysis") !in config ==> r == Err(KeyError("step_03_layout_analysis"))
  {
    var stepConfig :- Section(config, "step_03_layout_analysis");
    var outputDir :- Index(stepConfig, "output_dir");
    var modelConfig :- Section(stepConfig, "model_config");
    var labelMap :- Index(modelConfig, "label_map");
    var outputDirPath :- AsStr(outputDir, "output_dir");
    Ok(LayoutSettings(outputDirPath, modelConfig, labelMap))
  }

  function JsonDir(outputDir: string): string {
    Join(outputDir, "json")
  }

  function VisualizationDir(outputDir: string): string {
    Join(outputDir, "visualizations")
  }

  /** Where the records of `imagePath` go. */
  function JsonPath(outputDir: string, imagePath: string): string {
    Join(JsonDir(outputDir), Root(Basename(imagePath)) + ".json")
  }

  /** Where the visualization of `imagePath` goes. */
  function VisualizationPath(outputDir: string, imagePath: string): string {
    Join(VisualizationDir(outputDir), Root(Basename(imagePath)) + ".png")
  }

  /** The two outputs sit directly under their directories, named after
      the input's base name without its last extension. */
  lemma OutputPathsNamedAfterInput(outputDir: string, imagePath: string)
    ensures var stem := Root(Basename(imagePath));
            && JsonPath(outputDir, imagePath) == DirPrefix(JsonDir(outputDir)) + stem + ".json"
            && Basename(JsonPath(outputDir, imagePath)) == stem + ".json"
            && VisualizationPath(outputDir, imagePath) == DirPrefix(VisualizationDir(outputDir)) + stem + ".png"
            && Basename(VisualizationPath(outputDir, imagePath)) == stem + ".png"
  {
    var stem := Root(Basename(imagePath));
    StemHasNoSeparator(imagePath);
    assert '/' !in ".json" && '/' !in ".png";
    assert '/' !in stem + ".json";
    assert '/' !in stem + ".png";
    JoinIsDirectlyUnder(JsonDir(outputDir), stem + ".json");
    JoinIsDirectlyUnder(VisualizationDir(outputDir), stem + ".png");
  }

  /** The records and the visualization of one input never share a path. */
  lemma JsonAndVisualizationDiffer(outputDir: string, imagePath: string)
    ensures JsonPath(outputDir, imagePath) != VisualizationPath(outputDir, imagePath)
  {
    OutputPathsNamedAfterInput(outputDir, imagePath);
    var stem := Root(Basename(imagePath));
    var a := stem + ".json";
    var b := stem + ".png";
    assert a[|a| - 1] == 'n' && b[|b| - 1] == 'g';
  }

  /** Two inputs get the same records path exactly when their stems agree:
      inputs differing only in directory or extension overwrite each
      other's outputs. */
  lemma JsonPathsCollideOnStem(outputDir: string, p1: string, p2: string)
    ensures JsonPath(outputDir, p1) == JsonPath(outputDir, p2) <==> Root(Basename(p1)) == Root(Basename(p2))
    ensures VisualizationPath(outputDir, p1) == VisualizationPath(outputDir, p2) <==> Root(Basename(p1)) == Root(Basename(p2))
  {
    var s1 := Root(Basename(p1));
    var s2 := Root(Basename(p2));
    StemHasNoSeparator(p1);
    StemHasNoSeparator(p2);
    assert '/' !in s1 + ".json" && '/' !in s2 + ".json";
    assert '/' !in s1 + ".png" && '/' !in s2 + ".png";
    JoinInjective(JsonDir(outputDir), s1 + ".json", s2 + ".json");
    JoinInjective(VisualizationDir(outputDir), s1 + ".png", s2 + ".png");
    if s1 + ".json" == s2 + ".json" {
      assert s1 == (s1 + ".json")[..|s1|];
    }
    if s1 + ".png" == s2 + ".png" {
      assert s1 == (s1 + ".png")[..|s1|];
    }
  }

  /** `process_image(image_path, config)`: read the settings, create both
      output directories, initialise (and so cache) the model, read the
      image, detect, and save the records and the visualization. The
      model is cached even when the image cannot be read; the label map
      that reaches the model on a first call is the configured one, since
      a missing "label_map" has already raised. */
  method ProcessImage(fs: FileSystem<Artifact>, cache: ModelCache, imagePath: string, config: Dict,
                      readable: string -> bool, detect: (Value, Value, string) -> seq<Block>)
    returns (r: Result<(string, string), Error>)
    modifies fs, cache
    ensures ReadSettings(config).Err? ==>
              r == Err(ReadSettings(config).error) && unchanged(fs) && cache.cached == old(cache.cached)
    ensures ReadSettings(config).Ok? ==>
              var settings := ReadSettings(config).value;
              && cache.cached != null
              && (old(cache.cached) != null ==> cache.cached == old(cache.cached))
              && (old(cache.cached) == null ==>
                    && fresh(cache.cached)
                    && cache.cached.configPath == GetOr(settings.modelConfig, "type", VStr(DefaultModelType))
                    && cache.cached.labelMap == settings.labelMap)
              && fs.dirs == WithDir(WithDir(old(fs.dirs), JsonDir(settings.outputDir)),
                                    VisualizationDir(settings.outputDir))
              && (!readable(imagePath) ==> r == Err(FileNotFoundError(imagePath)) && fs.writes == old(fs.writes))
              && (readable(imagePath) ==>
                    var layout := detect(cache.cached.configPath, cache.cached.labelMap, imagePath);
                    && r == Ok((JsonPath(settings.outputDir, imagePath), VisualizationPath(settings.outputDir, imagePath)))
                    && fs.writes == old(fs.writes) + [(r.value.0, LayoutJson(LayoutRecords(layout))),
                                                      (r.value.1, Visualization(imagePath, layout))])
  {
    var settings :- ReadSettings(config);
    var jsonOutputDir := Join(settings.outputDir, "json");
    var vizOutputDir := Join(settings.outputDir, "visualizations");
    fs.EnsureDir(jsonOutputDir);
    fs.EnsureDir(vizOutputDir);

    // `model_config` is a mapping here, so initialisation cannot raise.
    var initialized := cache.InitializeModel(VDict(settings.modelConfig));
    var model := initialized.value;

    if !readable(imagePath) {
      return Err(FileNotFoundError(imagePath));
    }
    var layout := detect(model.configPath, model.labelMap, imagePath);

    var baseFilename := Root(Basename(imagePath));
    var jsonPath := Join(jsonOutputDir, baseFilename + ".json");
    var vizPath := Join(vizOutputDir, baseFilename + ".png");

    SaveLayoutData(fs, layout, jsonPath, settings.labelMap);
    SaveVisualization(fs, imagePath, layout, vizPath);
    r := Ok((jsonPath, vizPath));
  }
}
