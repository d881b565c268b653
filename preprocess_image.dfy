/** src/steps/step_02_preprocess_image.py: an image is read, passed through
    the configured list of steps in order, optionally saved after each step,
    and saved once more at the end. The OpenCV operations are not computed:
    an image is the term of operations that produced it, so which operations
    ran, with which parameters and in what order, is visible in the result.
    Whether `cv2.imread` can read a path, and the angle `cv2.minAreaRect`
    reports for an image, are parameters. */
module PreprocessImage {
  import opened Wrappers
  import opened PyValues
  import opened PyPaths
  import opened Files
  import opened SeqFacts

  /** An image, as the OpenCV calls that produced it. */
  datatype Image =
    | Loaded(path: string)                                  // cv2.imread(path)
    | Gray(src: Image)                                      // cvtColor BGR -> GRAY
    | Blurred(src: Image, kernel: seq<Value>)               // GaussianBlur(src, kernel, 0)
    | AdaptiveBinary(src: Image, blockSize: Value, c: Value) // adaptiveThreshold, Gaussian, binary, max 255
    | OtsuBinary(src: Image)                                // threshold(src, 0, 255, BINARY + OTSU)
    | FixedBinary(src: Image, threshold: Value)             // threshold(src, t, 255, BINARY)
    | Rotated(src: Image, angle: real)                      // warpAffine about the centre, scale 1

  /** The number of operations applied on top of the image read from disk. */
  function Depth(image: Image): nat {
    if image.Loaded? then 0 else 1 + Depth(image.src)
  }

  /** `tuple(v)` on a configuration value: a list gives its items, a string
      its characters; anything else is not iterable here. */
  function AsTuple(v: Value): (r: Result<seq<Value>, Error>)
    ensures v.VList? ==> r == Ok(v.items)
    ensures v.VStr? ==> r == Ok(Chars(v.s))
    ensures r.Err? <==> !v.VList? && !v.VStr?
  {
    match v
    case VList(items) => Ok(items)
    case VStr(s) => Ok(Chars(s))
    case _ => Err(TypeError("tuple"))
  }

  /** `_apply_grayscale`. */
  function ApplyGrayscale(image: Image): (r: Image)
    ensures r.Gray? && r.src == image
  {
    Gray(image)
  }

  const DefaultKernel: Value := VList([VInt(5), VInt(5)])

  /** `_apply_denoise`: a Gaussian blur whose kernel is `kernel_size`, by
      default 5 by 5. */
  function ApplyDenoise(image: Image, params: Dict): (r: Result<Image, Error>)
    ensures VStr("kernel_size") !in params ==> r == Ok(Blurred(image, [VInt(5), VInt(5)]))
    ensures VStr("kernel_size") in params && params[VStr("kernel_size")].VList? ==>
              r == Ok(Blurred(image, params[VStr("kernel_size")].items))
    ensures r.Err? <==> VStr("kernel_size") in params && !params[VStr("kernel_size")].VList? &&
                        !params[VStr("kernel_size")].VStr?
    ensures r.Ok? ==> r.value.Blurred? && r.value.src == image
    ensures r.Err? ==> r.error == TypeError("tuple")
  {
    match AsTuple(GetOr(params, "kernel_size", DefaultKernel))
    case Ok(kernel) => Ok(Blurred(image, kernel))
    case Err(e) => Err(e)
  }

  /** The method `_apply_threshold` chooses, named as in the configuration. */
  function ThresholdMethod(params: Dict): Value {
    GetOr(params, "method", VStr("adaptive_gaussian"))
  }

  predicate KnownThresholdMethod(name: Value) {
    name == VStr("adaptive_gaussian") || name == VStr("otsu") || name == VStr("simple")
  }

  /** `_apply_threshold`: adaptive Gaussian by default (block size 11,
      constant 2), Otsu, or a fixed threshold (127 by default); any other
      method is a ValueError. */
  function ApplyThreshold(image: Image, params: Dict): (r: Result<Image, Error>)
    ensures r.Err? <==> !KnownThresholdMethod(ThresholdMethod(params))
    ensures r.Err? ==> r.error == UnknownThresholdMethod(ThresholdMethod(params))
    ensures ThresholdMethod(params) == VStr("adaptive_gaussian") ==>
              r == Ok(AdaptiveBinary(image, GetOr(params, "block_size", VInt(11)), GetOr(params, "c", VInt(2))))
    ensures ThresholdMethod(params) == VStr("otsu") ==> r == Ok(OtsuBinary(image))
    ensures ThresholdMethod(params) == VStr("simple") ==>
              r == Ok(FixedBinary(image, GetOr(params, "threshold", VInt(127))))
  {
    var requested := GetOr(params, "method", VStr("adaptive_gaussian"));
    if requested == VStr("adaptive_gaussian") then
      var blockSize := GetOr(params, "block_size", VInt(11));
      var c := GetOr(params, "c", VInt(2));
      Ok(AdaptiveBinary(image, blockSize, c))
    else if requested == VStr("otsu") then
      Ok(OtsuBinary(image))
    else if requested == VStr("simple") then
      var threshValue := GetOr(params, "threshold", VInt(127));
      Ok(FixedBinary(image, threshValue))
    else
      Err(UnknownThresholdMethod(requested))
  }

  /** The threshold defaults, on parameter records with only the method. */
  lemma ThresholdDefaults(image: Image)
    ensures ApplyThreshold(image, map[]) == Ok(AdaptiveBinary(image, VInt(11), VInt(2)))
    ensures ApplyThreshold(image, map[VStr("method") := VStr("simple")]) == Ok(FixedBinary(image, VInt(127)))
    ensures ApplyThreshold(image, map[VStr("method") := VStr("binary")]).Err?
  {
  }

  /** The fold-back of the angle `cv2.minAreaRect` reports: the rotation
      that straightens the text. */
  function DeskewAngle(angle: real): (r: real)
    ensures angle < -45.0 ==> r == -(90.0 + angle)
    ensures angle >= -45.0 ==> r == -angle
    ensures -90.0 <= angle < 0.0 ==> -45.0 < r <= 45.0
  {
    if angle < -45.0 then -(90.0 + angle) else -angle
  }

  /** `_apply_deskew`: the image rotated about its centre by the folded-back
      angle of its foreground's minimum-area rectangle; `skew(image)` is the
      angle `cv2.minAreaRect` reports. */
  function ApplyDeskew(image: Image, skew: Image -> real): (r: Image)
    ensures r.Rotated? && r.src == image && r.angle == DeskewAngle(skew(image))
  {
    Rotated(image, DeskewAngle(skew(image)))
  }

  /** What one pass of the loop body of `process_image` decides for the
      current image: skip the step (`None`), apply it (its type name and the
      new image), or raise. */
  function StepOutcome(image: Image, step: Value, skew: Image -> real): (r: Result<Option<(string, Image)>, Error>)
  {
    if !step.VDict? then Err(AttributeError("get"))
    else if !Truthy(GetOr(step.entries, "enabled", VBool(false))) then Ok(None)
    else
      match Index(step.entries, "type")
      case Err(e) => Err(e)
      case Ok(stepType) =>
        if stepType == VStr("grayscale") then Ok(Some(("grayscale", ApplyGrayscale(image))))
        else if stepType == VStr("denoise") then
          match ApplyDenoise(image, step.entries)
          case Ok(next) => Ok(Some(("denoise", next)))
          case Err(e) => Err(e)
        else if stepType == VStr("threshold") then
          match ApplyThreshold(image, step.entries)
          case Ok(next) => Ok(Some(("threshold", next)))
          case Err(e) => Err(e)
        else if stepType == VStr("deskew") then Ok(Some(("deskew", ApplyDeskew(image, skew))))
        else Ok(None)
  }

  predicate KnownStepType(stepType: Value) {
    stepType in [VStr("grayscale"), VStr("denoise"), VStr("threshold"), VStr("deskew")]
  }

  /** A step that the loop passes over: a mapping that is disabled (its
      `enabled` is missing or falsy), or enabled with a `type` that names no
      known operation. */
  predicate Inert(step: Value) {
    step.VDict? &&
    (!Truthy(GetOr(step.entries, "enabled", VBool(false))) ||
     (VStr("type") in step.entries && !KnownStepType(step.entries[VStr("type")])))
  }

  /** Whether intermediate images are saved, where, and under which name. */
  datatype SaveSettings = SaveSettings(saving: bool, intermediateDir: string, filename: string)

  /** The state of the step loop: the current image, the types of the steps
      applied so far, the step directories made and the intermediate images
      saved, and the exception that ended the loop, if one did. */
  datatype Trace = Trace(image: Image, applied: seq<string>, dirs: set<string>,
                         saved: seq<(string, Image)>, failure: Option<Error>)

  /** One pass of the loop body. */
  function StepTrace(t: Trace, step: Value, save: SaveSettings, skew: Image -> real): Trace {
    match StepOutcome(t.image, step, skew)
    case Err(e) => t.(failure := Some(e))
    case Ok(None) => t
    case Ok(Some((stepType, next))) =>
      if save.saving then
        var stepDir := Join(save.intermediateDir, stepType);
        Trace(next, t.applied + [stepType], t.dirs + {stepDir},
              t.saved + [(Join(stepDir, save.filename), next)], t.failure)
      else
        Trace(next, t.applied + [stepType], t.dirs, t.saved, t.failure)
  }

  /** The loop of `process_image` over `steps`, from the image read from
      disk; the first exception ends it. */
  function Run(image: Image, steps: seq<Value>, save: SaveSettings, skew: Image -> real): Trace {
    if steps == [] then Trace(image, [], {}, [], None)
    else
      var t := Run(image, steps[..|steps| - 1], save, skew);
      if t.failure.Some? then t else StepTrace(t, steps[|steps| - 1], save, skew)
  }

  /** Once a step has raised, the later steps do nothing. */
  lemma {:induction false} RunStopsAtFailure(image: Image, steps: seq<Value>, i: nat, save: SaveSettings,
                                             skew: Image -> real)
    requires i <= |steps|
    requires Run(image, steps[..i], save, skew).failure.Some?
    ensures Run(image, steps, save, skew) == Run(image, steps[..i], save, skew)
    decreases |steps| - i
  {
    if i < |steps| {
      assert steps[..i + 1][..i] == steps[..i];
      RunStopsAtFailure(image, steps, i + 1, save, skew);
    } else {
      assert steps[..i] == steps;
    }
  }

  /** A disabled step, or one of unknown type, changes nothing: no image,
      no directory, no file, no exception. */
  lemma InertStepChangesNothing(t: Trace, step: Value, save: SaveSettings, skew: Image -> real)
    requires Inert(step)
    ensures StepTrace(t, step, save, skew) == t
  {
  }

  /** Removing a disabled or unknown step from anywhere in the list does not
      change what the loop does. */
  lemma {:induction false} InertStepsAreSkipped(image: Image, before: seq<Value>, step: Value, after: seq<Value>,
                                                save: SaveSettings, skew: Image -> real)
    requires Inert(step)
    ensures Run(image, before + [step] + after, save, skew) == Run(image, before + after, save, skew)
    decreases |after|
  {
    var s := before + [step] + after;
    if after == [] {
      assert s[..|s| - 1] == before;
      assert before + after == before;
      InertStepChangesNothing(Run(image, before, save, skew), step, save, skew);
    } else {
      var init := after[..|after| - 1];
      InertStepsAreSkipped(image, before, step, init, save, skew);
      DropLastOfJoin(before + [step], after);
      DropLastOfJoin(before, after);
      assert s[|s| - 1] == (before + after)[|before + after| - 1];
    }
  }

  /** Which images come out does not depend on whether they are saved. */
  lemma {:induction false} SavingDoesNotChangeImages(image: Image, steps: seq<Value>, save1: SaveSettings,
                                                     save2: SaveSettings, skew: Image -> real)
    ensures var t1, t2 := Run(image, steps, save1, skew), Run(image, steps, save2, skew);
            t1.image == t2.image && t1.applied == t2.applied && t1.failure == t2.failure
  {
    if steps != [] {
      SavingDoesNotChangeImages(image, steps[..|steps| - 1], save1, save2, skew);
      StepTraceIgnoresSaving(Run(image, steps[..|steps| - 1], save1, skew),
                             Run(image, steps[..|steps| - 1], save2, skew), steps[|steps| - 1], save1, save2, skew);
    }
  }

  /** One pass of the loop computes the same image, names and exception
      whether or not it saves. */
  lemma StepTraceIgnoresSaving(t1: Trace, t2: Trace, step: Value, save1: SaveSettings, save2: SaveSettings,
                               skew: Image -> real)
    requires t1.image == t2.image && t1.applied == t2.applied && t1.failure == t2.failure
    ensures var u1, u2 := StepTrace(t1, step, save1, skew), StepTrace(t2, step, save2, skew);
            u1.image == u2.image && u1.applied == u2.applied && u1.failure == u2.failure
  {
  }

  /** `next` is `prev` with one more operation on top. */
  predicate OneMoreOperation(next: Image, prev: Image) {
    !next.Loaded? && next.src == prev
  }

  /** An applied step adds exactly one operation to the current image, and
      it is an enabled step whose type, one of the four known ones, is the
      name it is applied under. */
  lemma AppliedStepAddsOneOperation(image: Image, step: Value, skew: Image -> real)
    requires StepOutcome(image, step, skew).Ok? && StepOutcome(image, step, skew).value.Some?
    ensures OneMoreOperation(StepOutcome(image, step, skew).value.value.1, image)
    ensures KnownStepType(VStr(StepOutcome(image, step, skew).value.value.0))
    ensures Selected(step) && step.entries[VStr("type")] == VStr(StepOutcome(image, step, skew).value.value.0)
  {
  }

  /** A step the loop applies: a mapping with a truthy `enabled` whose
      `type` is one of the four known operations. */
  predicate Selected(step: Value) {
    && step.VDict?
    && Truthy(GetOr(step.entries, "enabled", VBool(false)))
    && VStr("type") in step.entries
    && KnownStepType(step.entries[VStr("type")])
  }

  /** The dispatch of the loop body: a selected step applies the operation
      its type names to the current image, with the step itself as the
      parameters, and is recorded under that type; the operation's own
      exception is the step's. */
  lemma SelectedStepDispatch(image: Image, step: Value, skew: Image -> real)
    requires Selected(step)
    ensures var stepType := step.entries[VStr("type")];
            var out := StepOutcome(image, step, skew);
            && (stepType == VStr("grayscale") ==> out == Ok(Some(("grayscale", ApplyGrayscale(image)))))
            && (stepType == VStr("denoise") ==>
                  var d := ApplyDenoise(image, step.entries);
                  (d.Ok? ==> out == Ok(Some(("denoise", d.value)))) && (d.Err? ==> out == Err(d.error)))
            && (stepType == VStr("threshold") ==>
                  var th := ApplyThreshold(image, step.entries);
                  (th.Ok? ==> out == Ok(Some(("threshold", th.value)))) && (th.Err? ==> out == Err(th.error)))
            && (stepType == VStr("deskew") ==> out == Ok(Some(("deskew", ApplyDeskew(image, skew)))))
  {
  }

  /** A step raises exactly when it is not a mapping (`step.get` fails),
      when it is enabled without a `type`, or when its denoise or threshold
      operation raises. */
  lemma StepFailures(image: Image, step: Value, skew: Image -> real)
    ensures StepOutcome(image, step, skew).Err? <==>
              || !step.VDict?
              || (&& Truthy(GetOr(step.entries, "enabled", VBool(false)))
                  && (|| VStr("type") !in step.entries
                      || (step.entries[VStr("type")] == VStr("denoise") && ApplyDenoise(image, step.entries).Err?)
                      || (step.entries[VStr("type")] == VStr("threshold") && ApplyThreshold(image, step.entries).Err?)))
  {
  }

  /** The types of the selected steps, in list order. */
  function SelectedTypes(steps: seq<Value>): seq<string> {
    if steps == [] then []
    else
      var last := steps[|steps| - 1];
      SelectedTypes(steps[..|steps| - 1])
        + (if Selected(last) && last.entries[VStr("type")].VStr? then [last.entries[VStr("type")].s] else [])
  }

  /** A loop that raises nothing applies exactly the selected steps, in
      list order, and every step it saw was a mapping. */
  lemma {:induction false} RunAppliesSelectedSteps(image: Image, steps: seq<Value>, save: SaveSettings,
                                                   skew: Image -> real)
    requires Run(image, steps, save, skew).failure.None?
    ensures Run(image, steps, save, skew).applied == SelectedTypes(steps)
    ensures forall i :: 0 <= i < |steps| ==> steps[i].VDict?
  {
    if steps != [] {
      var init := steps[..|steps| - 1];
      var last := steps[|steps| - 1];
      var prev := Run(image, init, save, skew);
      assert prev.failure.None?;
      RunAppliesSelectedSteps(image, init, save, skew);
      StepFailures(prev.image, last, skew);
      if Selected(last) {
        SelectedStepDispatch(prev.image, last, skew);
      }
      forall i | 0 <= i < |steps| ensures steps[i].VDict? {
        if i < |steps| - 1 { assert steps[i] == init[i]; }
      }
    }
  }

  /** The applied steps are threaded: each adds one operation on top of the
      previous step's output, starting from the image read from disk, so
      the loop's image carries exactly one operation per applied step. */
  lemma {:induction false} RunAppliesEachStepOnce(image: Image, steps: seq<Value>, save: SaveSettings,
                                                  skew: Image -> real)
    ensures Depth(Run(image, steps, save, skew).image) == Depth(image) + |Run(image, steps, save, skew).applied|
    ensures Run(image, steps, save, skew).applied == [] ==> Run(image, steps, save, skew).image == image
  {
    if steps != [] {
      var prev := Run(image, steps[..|steps| - 1], save, skew);
      RunAppliesEachStepOnce(image, steps[..|steps| - 1], save, skew);
      if prev.failure.None? && StepOutcome(prev.image, steps[|steps| - 1], skew).Ok?
         && StepOutcome(prev.image, steps[|steps| - 1], skew).value.Some? {
        AppliedStepAddsOneOperation(prev.image, steps[|steps| - 1], skew);
      }
    }
  }

  /** Without `save_intermediate_steps` and an `intermediate_dir`, the loop
      saves nothing and makes no directory. */
  lemma {:induction false} RunWithoutSavingSavesNothing(image: Image, steps: seq<Value>, save: SaveSettings,
                                                        skew: Image -> real)
    requires !save.saving
    ensures Run(image, steps, save, skew).saved == [] && Run(image, steps, save, skew).dirs == {}
  {
    if steps != [] {
      RunWithoutSavingSavesNothing(image, steps[..|steps| - 1], save, skew);
    }
  }

  /** When intermediate images are kept, there is one per applied step, in
      order, at `<intermediate_dir>/<type>/<filename>`, and the directories
      made are exactly those of the applied types. */
  lemma {:induction false} RunSavesEachAppliedStep(image: Image, steps: seq<Value>, save: SaveSettings,
                                                   skew: Image -> real)
    requires save.saving
    ensures var t := Run(image, steps, save, skew);
            |t.saved| == |t.applied| &&
            (forall k :: 0 <= k < |t.saved| ==>
               t.saved[k].0 == Join(Join(save.intermediateDir, t.applied[k]), save.filename)) &&
            (forall d :: d in t.dirs <==>
               exists k :: 0 <= k < |t.applied| && d == Join(save.intermediateDir, t.applied[k]))
  {
    if steps != [] {
      var prev := Run(image, steps[..|steps| - 1], save, skew);
      RunSavesEachAppliedStep(image, steps[..|steps| - 1], save, skew);
      if prev.failure.None? {
        var t := StepTrace(prev, steps[|steps| - 1], save, skew);
        match StepOutcome(prev.image, steps[|steps| - 1], skew)
        case Err(_) =>
        case Ok(None) =>
        case Ok(Some((stepType, next))) =>
          forall d ensures d in t.dirs <==> exists k :: 0 <= k < |t.applied| && d == Join(save.intermediateDir, t.applied[k]) {
            if d == Join(save.intermediateDir, stepType) {
              assert t.applied[|t.applied| - 1] == stepType;
            }
            if d in prev.dirs {
              var k :| 0 <= k < |prev.applied| && d == Join(save.intermediateDir, prev.applied[k]);
              assert t.applied[k] == prev.applied[k];
            }
          }
      }
    }
  }

  /** The intermediate images are the successive outputs: the first is the
      image read from disk with one operation, each next one is the previous
      one with one more, and the last is the loop's result. */
  lemma {:induction false} RunSavesSuccessiveOutputs(image: Image, steps: seq<Value>, save: SaveSettings,
                                                     skew: Image -> real)
    requires save.saving
    ensures var t := Run(image, steps, save, skew);
            (t.saved != [] ==> OneMoreOperation(t.saved[0].1, image) && t.saved[|t.saved| - 1].1 == t.image) &&
            (t.saved == [] ==> t.image == image) &&
            (forall k :: 0 < k < |t.saved| ==> OneMoreOperation(t.saved[k].1, t.saved[k - 1].1))
  {
    if steps != [] {
      var prev := Run(image, steps[..|steps| - 1], save, skew);
      RunSavesSuccessiveOutputs(image, steps[..|steps| - 1], save, skew);
      if prev.failure.None? {
        StepTraceSavesItsImage(prev, steps[|steps| - 1], save, skew);
      }
    }
  }

  /** With saving on, one pass of the loop either leaves the image and the
      saved files as they were, or saves exactly its new image, which is the
      old one with one more operation. */
  lemma StepTraceSavesItsImage(t: Trace, step: Value, save: SaveSettings, skew: Image -> real)
    requires save.saving
    ensures var u := StepTrace(t, step, save, skew);
            || (u.image == t.image && u.saved == t.saved)
            || (&& OneMoreOperation(u.image, t.image)
                && |u.saved| == |t.saved| + 1 && u.saved[..|t.saved|] == t.saved
                && u.saved[|t.saved|].1 == u.image)
  {
    var o := StepOutcome(t.image, step, skew);
    if o.Ok? && o.value.Some? {
      AppliedStepAddsOneOperation(t.image, step, skew);
    }
  }

  /** What `process_image` returns, the directories it makes and the files
      it writes, in order. */
  datatype Outcome = Outcome(result: Result<string, Error>, dirs: set<string>, writes: seq<(string, Image)>)

  /** `for step in pipeline_steps`: a list gives its items and a string its
      characters; an empty mapping gives nothing and a non-empty one keys
      that are not mappings (so the first `step.get` fails); other values are
      not iterable. */
  function Iterate(v: Value): (r: Result<seq<Value>, Error>)
    ensures v.VList? ==> r == Ok(v.items)
    ensures v.VStr? ==> r == Ok(Chars(v.s))
    ensures v.VDict? ==> (r.Ok? <==> v.entries == map[]) && (r.Ok? ==> r.value == [])
    ensures v.VNone? || v.VBool? || v.VInt? ==> r.Err?
  {
    match v
    case VList(items) => Ok(items)
    case VStr(s) => Ok(Chars(s))
    case VDict(entries) => if entries == map[] then Ok([]) else Err(AttributeError("get"))
    case _ => Err(TypeError("pipeline"))
  }

  /** The whole of `process_image(image_path, config)`. */
  function Preprocess(imagePath: string, config: Dict, readable: string -> bool, skew: Image -> real): Outcome {
    match Section(config, "step_02_preprocess_image")
    case Err(e) => Outcome(Err(e), {}, [])
    case Ok(stepConfig) => PreprocessStep(imagePath, stepConfig, readable, skew)
  }

  /** `save_intermediate and intermediate_dir`: whether the steps' images
      are saved and their directory made. */
  predicate SavesIntermediate(stepConfig: Dict) {
    Truthy(GetOr(stepConfig, "save_intermediate_steps", VBool(false))) &&
    Truthy(GetOr(stepConfig, "intermediate_dir", VNone))
  }

  /** `process_image` once its section of the configuration is found. */
  function PreprocessStep(imagePath: string, stepConfig: Dict, readable: string -> bool, skew: Image -> real)
    : Outcome
  {
      match Index(stepConfig, "output_dir")
      case Err(e) => Outcome(Err(e), {}, [])
      case Ok(outputDirValue) =>
        var intermediateDir := GetOr(stepConfig, "intermediate_dir", VNone);
        var saving := SavesIntermediate(stepConfig);
        var pipelineSteps := GetOr(stepConfig, "pipeline", VList([]));
        match AsStr(outputDirValue, "output_dir")
        case Err(e) => Outcome(Err(e), {}, [])
        case Ok(outputDir) => WithOutputDir(imagePath, outputDir, saving, intermediateDir, pipelineSteps, readable, skew)
  }

  /** `process_image` once `output_dir` is known to be a string: the
      directories are made, then the image is read and processed. */
  function WithOutputDir(imagePath: string, outputDir: string, saving: bool, intermediateDir: Value,
                         pipelineSteps: Value, readable: string -> bool, skew: Image -> real): Outcome
  {
    if saving && !intermediateDir.VStr? then Outcome(Err(TypeError("intermediate_dir")), {outputDir}, [])
    else
      var intermediate := if saving then intermediateDir.s else "";
      var dirs := {outputDir} + (if saving then {intermediate} else {});
      var rest := FromRead(imagePath, outputDir, SaveSettings(saving, intermediate, Basename(imagePath)),
                           pipelineSteps, readable, skew);
      Outcome(rest.result, dirs + rest.dirs, rest.writes)
  }

  /** `process_image` from `cv2.imread` on, once the directories exist. */
  function FromRead(imagePath: string, outputDir: string, save: SaveSettings, pipelineSteps: Value,
                    readable: string -> bool, skew: Image -> real): Outcome
  {
    if !readable(imagePath) then Outcome(Err(FileNotFoundError(imagePath)), {}, [])
    else
      match Iterate(pipelineSteps)
      case Err(e) => Outcome(Err(e), {}, [])
      case Ok(steps) =>
        var t := Run(Loaded(imagePath), steps, save, skew);
        if t.failure.Some? then Outcome(Err(t.failure.value), t.dirs, t.saved)
        else
          var finalPath := Join(outputDir, save.filename);
          Outcome(Ok(finalPath), t.dirs, t.saved + [(finalPath, t.image)])
  }

  /** An unreadable input is reported before any step runs: nothing is
      written, and with a usable configuration the error is
      FileNotFoundError for that path. */
  lemma UnreadableInputWritesNothing(imagePath: string, config: Dict, readable: string -> bool, skew: Image -> real)
    requires !readable(imagePath)
    ensures Preprocess(imagePath, config, readable, skew).writes == []
    ensures Preprocess(imagePath, config, readable, skew).result.Err?
    ensures UsableSettings(config) ==> Preprocess(imagePath, config, readable, skew).result == Err(FileNotFoundError(imagePath))
  {
  }

  /** A configuration under which `process_image` gets as far as reading
      the image: its section and `output_dir` can be read, and when
      intermediate images are asked for, `intermediate_dir` is a string. */
  predicate UsableSettings(config: Dict) {
    && VStr("step_02_preprocess_image") in config
    && config[VStr("step_02_preprocess_image")].VDict?
    && var stepConfig := config[VStr("step_02_preprocess_image")].entries;
    && VStr("output_dir") in stepConfig
    && stepConfig[VStr("output_dir")].VStr?
    && (SavesIntermediate(stepConfig) ==> GetOr(stepConfig, "intermediate_dir", VNone).VStr?)
  }

  /** FileNotFoundError is raised only for an unreadable input. */
  lemma FileNotFoundOnlyWhenUnreadable(imagePath: string, config: Dict, readable: string -> bool,
                                       skew: Image -> real, path: string)
    requires Preprocess(imagePath, config, readable, skew).result == Err(FileNotFoundError(path))
    ensures !readable(imagePath) && path == imagePath
  {
    var stepConfig := config[VStr("step_02_preprocess_image")].entries;
    var intermediateDir := GetOr(stepConfig, "intermediate_dir", VNone);
    var saving := SavesIntermediate(stepConfig);
    var save := SaveSettings(saving, if saving then intermediateDir.s else "", Basename(imagePath));
    FromReadFileNotFound(imagePath, stepConfig[VStr("output_dir")].s, save,
                         GetOr(stepConfig, "pipeline", VList([])), readable, skew, path);
  }

  lemma FromReadFileNotFound(imagePath: string, outputDir: string, save: SaveSettings, pipelineSteps: Value,
                             readable: string -> bool, skew: Image -> real, path: string)
    requires FromRead(imagePath, outputDir, save, pipelineSteps, readable, skew).result == Err(FileNotFoundError(path))
    ensures !readable(imagePath) && path == imagePath
  {
    var steps := Iterate(pipelineSteps);
    if readable(imagePath) && steps.Ok? {
      StepsNeverRaiseFileNotFound(Loaded(imagePath), steps.value, save, skew);
    }
  }

  /** No step raises FileNotFoundError. */
  lemma {:induction false} StepsNeverRaiseFileNotFound(image: Image, steps: seq<Value>, save: SaveSettings,
                                                       skew: Image -> real)
    ensures Run(image, steps, save, skew).failure.Some? ==> !Run(image, steps, save, skew).failure.value.FileNotFoundError?
  {
    if steps != [] {
      StepsNeverRaiseFileNotFound(image, steps[..|steps| - 1], save, skew);
    }
  }

  /** On success the result is `output_dir` joined with the input's base
      name, written last with the loop's image; without intermediate images
      it is the only file written, and with them it follows one file per
      applied step. */
  lemma FinalImageWrittenLast(imagePath: string, config: Dict, readable: string -> bool, skew: Image -> real)
    requires Preprocess(imagePath, config, readable, skew).result.Ok?
    ensures var o := Preprocess(imagePath, config, readable, skew);
            var stepConfig := config[VStr("step_02_preprocess_image")].entries;
            VStr("output_dir") in stepConfig && stepConfig[VStr("output_dir")].VStr? &&
            o.result.value == Join(stepConfig[VStr("output_dir")].s, Basename(imagePath)) &&
            o.writes != [] && o.writes[|o.writes| - 1].0 == o.result.value &&
            (!SavesIntermediate(stepConfig) ==> |o.writes| == 1)
  {
    var stepConfig := config[VStr("step_02_preprocess_image")].entries;
    var intermediateDir := GetOr(stepConfig, "intermediate_dir", VNone);
    var saving := SavesIntermediate(stepConfig);
    var save := SaveSettings(saving, if saving then intermediateDir.s else "", Basename(imagePath));
    FromReadFinalWrite(imagePath, stepConfig[VStr("output_dir")].s, save,
                       GetOr(stepConfig, "pipeline", VList([])), readable, skew);
  }

  lemma FromReadFinalWrite(imagePath: string, outputDir: string, save: SaveSettings, pipelineSteps: Value,
                           readable: string -> bool, skew: Image -> real)
    requires FromRead(imagePath, outputDir, save, pipelineSteps, readable, skew).result.Ok?
    ensures var o := FromRead(imagePath, outputDir, save, pipelineSteps, readable, skew);
            && o.result.value == Join(outputDir, save.filename)
            && o.writes != [] && o.writes[|o.writes| - 1].0 == o.result.value
            && (!save.saving ==> |o.writes| == 1)
  {
    if !save.saving {
      RunWithoutSavingSavesNothing(Loaded(imagePath), Iterate(pipelineSteps).value, save, skew);
    }
  }

  /** A worked pipeline: a step without `enabled` and a step of unknown
      type are passed over, grayscale and a simple threshold (default 127)
      are applied in list order. */
  const ExampleSteps: seq<Value> := [
    VDict(map[VStr("type") := VStr("deskew")]),
    VDict(map[VStr("type") := VStr("grayscale"), VStr("enabled") := VBool(true)]),
    VDict(map[VStr("type") := VStr("sharpen"), VStr("enabled") := VBool(true)]),
    VDict(map[VStr("type") := VStr("threshold"), VStr("enabled") := VBool(true), VStr("method") := VStr("simple")])]

  const ExampleConfig: Dict := map[VStr("step_02_preprocess_image") := VDict(map[
    VStr("output_dir") := VStr("out"),
    VStr("intermediate_dir") := VStr("tmp"),
    VStr("save_intermediate_steps") := VBool(true),
    VStr("pipeline") := VList(ExampleSteps)])]

  lemma ExampleStepOutcomes(image: Image, skew: Image -> real)
    ensures StepOutcome(image, ExampleSteps[0], skew) == Ok(None)
    ensures StepOutcome(image, ExampleSteps[1], skew) == Ok(Some(("grayscale", Gray(image))))
    ensures StepOutcome(image, ExampleSteps[2], skew) == Ok(None)
    ensures StepOutcome(image, ExampleSteps[3], skew) == Ok(Some(("threshold", FixedBinary(image, VInt(127)))))
  {
  }

  lemma ExampleGrayscalePaths()
    ensures Join("tmp", "grayscale") == "tmp/grayscale"
    ensures Join("tmp/grayscale", "a.png") == "tmp/grayscale/a.png"
  {
    assert DirPrefix("tmp") == "tmp/";
    assert DirPrefix("tmp/grayscale") == "tmp/grayscale/";
  }

  lemma ExampleThresholdPaths()
    ensures Join("tmp", "threshold") == "tmp/threshold"
    ensures Join("tmp/threshold", "a.png") == "tmp/threshold/a.png"
  {
    assert DirPrefix("tmp") == "tmp/";
    assert DirPrefix("tmp/threshold") == "tmp/threshold/";
  }

  /** The first two steps: the disabled deskew is passed over and grayscale
      is applied and saved. */
  lemma ExampleRunFirstHalf(skew: Image -> real)
    ensures var image := Loaded("in/a.png");
            Run(image, ExampleSteps[..2], SaveSettings(true, "tmp", "a.png"), skew) ==
              Trace(Gray(image), ["grayscale"], {"tmp/grayscale"}, [("tmp/grayscale/a.png", Gray(image))], None)
  {
    var s := ExampleSteps;
    var save := SaveSettings(true, "tmp", "a.png");
    var image := Loaded("in/a.png");
    ExampleStepOutcomes(image, skew);
    ExampleGrayscalePaths();
    PrefixStep(s, 0);
    PrefixStep(s, 1);
    assert Run(image, s[..1], save, skew) == Trace(image, [], {}, [], None);
  }

  lemma ExampleRun(skew: Image -> real)
    ensures var gray := Gray(Loaded("in/a.png"));
            var binary := FixedBinary(gray, VInt(127));
            Run(Loaded("in/a.png"), ExampleSteps, SaveSettings(true, "tmp", "a.png"), skew) ==
              Trace(binary, ["grayscale", "threshold"], {"tmp/grayscale", "tmp/threshold"},
                    [("tmp/grayscale/a.png", gray), ("tmp/threshold/a.png", binary)], None)
  {
    var s := ExampleSteps;
    var save := SaveSettings(true, "tmp", "a.png");
    var image := Loaded("in/a.png");
    ExampleRunFirstHalf(skew);
    ExampleStepOutcomes(Gray(image), skew);
    ExampleThresholdPaths();
    PrefixStep(s, 2);
    assert s[..3] == s[..|s| - 1];
  }

  /** The worked pipeline on "in/a.png": each applied step's image is saved
      under its own directory below `intermediate_dir`, and the final image
      under `output_dir`. */
  lemma ExamplePipeline(skew: Image -> real)
    ensures var gray := Gray(Loaded("in/a.png"));
            var binary := FixedBinary(gray, VInt(127));
            Preprocess("in/a.png", ExampleConfig, _ => true, skew) ==
              Outcome(Ok("out/a.png"),
                      {"out", "tmp", "tmp/grayscale", "tmp/threshold"},
                      [("tmp/grayscale/a.png", gray), ("tmp/threshold/a.png", binary), ("out/a.png", binary)])
  {
    ExampleConfigReads();
    ExampleFinalPath();
    ExampleRun(skew);
  }

  lemma ExampleConfigReads()
    ensures var stepConfig := ExampleConfig[VStr("step_02_preprocess_image")].entries;
            && Section(ExampleConfig, "step_02_preprocess_image") == Ok(stepConfig)
            && Index(stepConfig, "output_dir") == Ok(VStr("out"))
            && GetOr(stepConfig, "intermediate_dir", VNone) == VStr("tmp")
            && GetOr(stepConfig, "save_intermediate_steps", VBool(false)) == VBool(true)
            && Iterate(GetOr(stepConfig, "pipeline", VList([]))) == Ok(ExampleSteps)
  {
  }

  lemma ExampleFinalPath()
    ensures Basename("in/a.png") == "a.png"
    ensures Join("out", "a.png") == "out/a.png"
  {
    RFindIsLast("in/a.png", '/', 2);
    assert DirPrefix("out") == "out/";
  }

  /** The `for step in pipeline_steps` loop of `process_image`: each enabled
      step of a known type replaces the current image with its output, which
      is saved under the step's directory when intermediate images are kept;
      the first exception ends the loop. */
  method ApplySteps(fs: FileSystem<Image>, img: Image, steps: seq<Value>, save: SaveSettings, skew: Image -> real)
    returns (processed: Image, failure: Option<Error>)
    modifies fs
    ensures var t := Run(img, steps, save, skew);
            processed == t.image && failure == t.failure &&
            fs.dirs == old(fs.dirs) + t.dirs && fs.writes == old(fs.writes) + t.saved
  {
    processed := img;
    var i := 0;
    while i < |steps|
      invariant 0 <= i <= |steps|
      invariant fs.dirs == old(fs.dirs) + Run(img, steps[..i], save, skew).dirs
      invariant fs.writes == old(fs.writes) + Run(img, steps[..i], save, skew).saved
      invariant processed == Run(img, steps[..i], save, skew).image
      invariant Run(img, steps[..i], save, skew).failure.None?
    {
      ghost var before := Run(img, steps[..i], save, skew);
      assert steps[..i + 1][..i] == steps[..i];
      assert Run(img, steps[..i + 1], save, skew) == StepTrace(before, steps[i], save, skew);
      var stepFailure;
      processed, stepFailure := ApplyStep(fs, processed, steps[i], save, skew, before, old(fs.dirs), old(fs.writes));
      if stepFailure.Some? {
        RunStopsAtFailure(img, steps, i + 1, save, skew);
        return processed, stepFailure;
      }
      i := i + 1;
    }
    assert steps[..i] == steps;
    return processed, None;
  }

  /** One pass of the step loop of `process_image`: the step is applied to
      the current image and, when saving, the result is saved under the
      step's own directory. `before` is the trace of the steps already run,
      and `dirs0`/`writes0` the file system before the loop. */
  method ApplyStep(fs: FileSystem<Image>, current: Image, step: Value, save: SaveSettings, skew: Image -> real,
                   ghost before: Trace, ghost dirs0: set<string>, ghost writes0: seq<(string, Image)>)
    returns (processed: Image, failure: Option<Error>)
    requires current == before.image && before.failure.None?
    requires fs.dirs == dirs0 + before.dirs && fs.writes == writes0 + before.saved
    modifies fs
    ensures var t := StepTrace(before, step, save, skew);
            processed == t.image && failure == t.failure &&
            fs.dirs == dirs0 + t.dirs && fs.writes == writes0 + t.saved
  {
    processed := current;
    if !step.VDict? {
      return processed, Some(AttributeError("get"));
    }
    if !Truthy(GetOr(step.entries, "enabled", VBool(false))) {
      return processed, None;
    }
    var typeLookup := Index(step.entries, "type");
    if typeLookup.Err? {
      return processed, Some(typeLookup.error);
    }
    var stepType := typeLookup.value;
    var params := step.entries;
    if stepType == VStr("grayscale") {
      processed := ApplyGrayscale(processed);
    } else if stepType == VStr("denoise") {
      var denoised := ApplyDenoise(processed, params);
      if denoised.Err? {
        return processed, Some(denoised.error);
      }
      processed := denoised.value;
    } else if stepType == VStr("threshold") {
      var thresholded := ApplyThreshold(processed, params);
      if thresholded.Err? {
        return processed, Some(thresholded.error);
      }
      processed := thresholded.value;
    } else if stepType == VStr("deskew") {
      processed := ApplyDeskew(processed, skew);
    } else {
      // an unknown step type is passed over
      return processed, None;
    }
    assert StepOutcome(current, step, skew) == Ok(Some((stepType.s, processed)));

    if save.saving {
      var stepOutputDir := Join(save.intermediateDir, stepType.s);
      fs.EnsureDir(stepOutputDir);
      var savePath := Join(stepOutputDir, save.filename);
      fs.Write(savePath, processed);
    }
    return processed, None;
  }

  /** `process_image`. */
  method ProcessImage(fs: FileSystem<Image>, imagePath: string, config: Dict, readable: string -> bool,
                      skew: Image -> real)
    returns (r: Result<string, Error>)
    modifies fs
    ensures var o := Preprocess(imagePath, config, readable, skew);
            r == o.result && fs.dirs == old(fs.dirs) + o.dirs && fs.writes == old(fs.writes) + o.writes
  {
    var stepConfig :- Section(config, "step_02_preprocess_image");
    r := ProcessStepConfig(fs, imagePath, stepConfig, readable, skew);
  }

  /** `process_image` from its first read of the step's section on. */
  method ProcessStepConfig(fs: FileSystem<Image>, imagePath: string, stepConfig: Dict, readable: string -> bool,
                           skew: Image -> real)
    returns (r: Result<string, Error>)
    modifies fs
    ensures var o := PreprocessStep(imagePath, stepConfig, readable, skew);
            r == o.result && fs.dirs == old(fs.dirs) + o.dirs && fs.writes == old(fs.writes) + o.writes
  {
    var outputDirValue :- Index(stepConfig, "output_dir");
    var intermediateDir := GetOr(stepConfig, "intermediate_dir", VNone);
    var saveIntermediate := GetOr(stepConfig, "save_intermediate_steps", VBool(false));
    var pipelineSteps := GetOr(stepConfig, "pipeline", VList([]));

    var outputDir :- AsStr(outputDirValue, "output_dir");
    var saving := Truthy(saveIntermediate) && Truthy(intermediateDir);
    r := ProcessOutputDir(fs, imagePath, outputDir, saving, intermediateDir, pipelineSteps, readable, skew);
  }

  /** `process_image` from making `output_dir` on. */
  method ProcessOutputDir(fs: FileSystem<Image>, imagePath: string, outputDir: string, saving: bool,
                          intermediateDir: Value, pipelineSteps: Value, readable: string -> bool, skew: Image -> real)
    returns (r: Result<string, Error>)
    modifies fs
    ensures var o := WithOutputDir(imagePath, outputDir, saving, intermediateDir, pipelineSteps, readable, skew);
            r == o.result && fs.dirs == old(fs.dirs) + o.dirs && fs.writes == old(fs.writes) + o.writes
  {
    fs.EnsureDir(outputDir);
    var intermediate := "";
    if saving {
      intermediate :- AsStr(intermediateDir, "intermediate_dir");
      fs.EnsureDir(intermediate);
    }
    ghost var made := {outputDir} + (if saving then {intermediate} else {});
    assert fs.dirs == old(fs.dirs) + made;
    var save := SaveSettings(saving, intermediate, Basename(imagePath));
    ghost var rest := FromRead(imagePath, outputDir, save, pipelineSteps, readable, skew);
    assert WithOutputDir(imagePath, outputDir, saving, intermediateDir, pipelineSteps, readable, skew)
        == Outcome(rest.result, made + rest.dirs, rest.writes);
    UnionRegroup(old(fs.dirs), made, rest.dirs);
    r := ProcessRead(fs, imagePath, outputDir, save, pipelineSteps, readable, skew);
  }

  /** The part of `process_image` from `cv2.imread` on. */
  method ProcessRead(fs: FileSystem<Image>, imagePath: string, outputDir: string, save: SaveSettings,
                     pipelineSteps: Value, readable: string -> bool, skew: Image -> real)
    returns (r: Result<string, Error>)
    modifies fs
    ensures var o := FromRead(imagePath, outputDir, save, pipelineSteps, readable, skew);
            r == o.result && fs.dirs == old(fs.dirs) + o.dirs && fs.writes == old(fs.writes) + o.writes
  {
    if !readable(imagePath) {
      return Err(FileNotFoundError(imagePath));
    }
    var img := Loaded(imagePath);

    var steps :- Iterate(pipelineSteps);
    var processed, failure := ApplySteps(fs, img, steps, save, skew);
    if failure.Some? {
      return Err(failure.value);
    }

    var finalPath := Join(outputDir, save.filename);
    fs.Write(finalPath, processed);
    return Ok(finalPath);
  }
}
