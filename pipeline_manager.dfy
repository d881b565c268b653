/** src/pipeline_manager.py: the `PipelineManager` holds the loaded
    configuration, decides how many Dask workers to request, and runs the
    input-normalisation step: every supported file under `input_dir`
    becomes one normalisation task, and the per-file results are
    flattened into one list of image paths. Dask's scheduling is a
    sequential, order-preserving map here. */
module Pipeline {
  import opened Wrappers
  import opened PyValues
  import opened PyText
  import opened PyPaths
  import opened Decimal
  import opened Files
  import opened NormalizeInput
  import opened SeqFacts

  /** The extensions step 1 looks for. */
  const Supported: seq<string> := [".pdf", ".png", ".jpg", ".jpeg", ".tiff", ".bmp"]

  /** What `_setup_dask` asks of `LocalCluster`: its default worker count,
      or `n_workers=n`. */
  datatype WorkerRequest = Auto | Count(n: int)

  /** Python's `int(value)` on a configuration value: integers as they are,
      booleans as 0 and 1, strings by their decimal text (a ValueError
      otherwise), anything else a TypeError. */
  function PyInt(value: Value): (r: Result<int, Error>)
    ensures value.VInt? ==> r == Ok(value.i)
    ensures value.VBool? ==> r == Ok(if value.b then 1 else 0)
    ensures value.VStr? ==> (r.Ok? <==> ParseInt(value.s).Some?)
    ensures value.VStr? && r.Ok? ==> r.value == ParseInt(value.s).value
    ensures value.VStr? && r.Err? ==> r.error == InvalidIntLiteral(value.s)
    ensures value.VNone? || value.VList? || value.VDict? ==> r == Err(TypeError("int"))
  {
    match value
    case VInt(i) => Ok(i)
    case VBool(b) => Ok(if b then 1 else 0)
    case VStr(s) =>
      (match ParseInt(s)
       case Some(i) => Ok(i)
       case None => Err(InvalidIntLiteral(s)))
    case _ => Err(TypeError("int"))
  }

  /** The decision of `_setup_dask`: the "dask" section (a mapping by
      default) and its "num_workers" ("auto" by default); "auto" keeps the
      default cluster, anything else goes through `int`. */
  function WorkerRequestOf(config: Dict): (r: Result<WorkerRequest, Error>)
    ensures r == Ok(Auto) <==>
              || VStr("dask") !in config
              || (&& config[VStr("dask")].VDict?
                  && (|| VStr("num_workers") !in config[VStr("dask")].entries
                      || config[VStr("dask")].entries[VStr("num_workers")] == VStr("auto")))
    ensures VStr("dask") in config && !config[VStr("dask")].VDict? ==> r == Err(AttributeError("get"))
    ensures VStr("dask") in config && config[VStr("dask")].VDict? &&
            VStr("num_workers") in config[VStr("dask")].entries &&
            config[VStr("dask")].entries[VStr("num_workers")] != VStr("auto") ==>
              && (r.Ok? <==> PyInt(config[VStr("dask")].entries[VStr("num_workers")]).Ok?)
              && (r.Ok? ==> r.value == Count(PyInt(config[VStr("dask")].entries[VStr("num_workers")]).value))
  {
    var daskConfig := GetOr(config, "dask", VDict(map[]));
    if !daskConfig.VDict? then Err(AttributeError("get"))
    else
      var numWorkers := GetOr(daskConfig.entries, "num_workers", VStr("auto"));
      if numWorkers == VStr("auto") then Ok(Auto)
      else
        match PyInt(numWorkers)
        case Ok(n) => Ok(Count(n))
        case Err(e) => Err(e)
  }

  /** A worker count written as decimal text is requested as that count. */
  lemma WorkerCountFromText(n: int)
    ensures var text := if n < 0 then "-" + NatToString(-n) else NatToString(n);
            var config := map[VStr("dask") := VDict(map[VStr("num_workers") := VStr(text)])];
            WorkerRequestOf(config) == Ok(Count(n))
  {
    var text := if n < 0 then "-" + NatToString(-n) else NatToString(n);
    ParseIntOfString(n);
    assert text != "auto" by {
      assert text[0] == '-' || IsDigit(text[0]);
    }
  }

  /** Text that is not an integer fails the setup instead of falling back
      to the default cluster. */
  lemma UnparsableWorkerCountFails(text: string)
    requires text != "auto" && ParseInt(text).None?
    ensures var config := map[VStr("dask") := VDict(map[VStr("num_workers") := VStr(text)])];
            WorkerRequestOf(config) == Err(InvalidIntLiteral(text))
  {
  }

  /** One delayed `normalize_file` call. */
  datatype Task = Task(filePath: string, outputDir: string, pdfDpi: Value, outputFormat: string)

  /** The task list comprehension. */
  function Tasks(files: seq<string>, outputDir: string, pdfDpi: Value, outputFormat: string): seq<Task> {
    seq(|files|, i requires 0 <= i < |files| => Task(files[i], outputDir, pdfDpi, outputFormat))
  }

  /** What one task returns. */
  function TaskResult(t: Task, pageCount: string -> nat): Normalized {
    NormalizedPaths(t.filePath, t.outputDir, t.outputFormat, pageCount)
  }

  /** What `compute(*tasks)` returns: each task's result, in task order. */
  function Results(tasks: seq<Task>, pageCount: string -> nat): (r: seq<Normalized>)
    ensures |r| == |tasks|
    ensures forall i :: 0 <= i < |tasks| ==> r[i] == TaskResult(tasks[i], pageCount)
  {
    seq(|tasks|, i requires 0 <= i < |tasks| => TaskResult(tasks[i], pageCount))
  }

  /** What the tasks save, one task after another. */
  function TaskWrites(tasks: seq<Task>, pageCount: string -> nat): seq<(string, Rendition)> {
    if tasks == [] then []
    else
      var t := tasks[|tasks| - 1];
      TaskWrites(tasks[..|tasks| - 1], pageCount)
        + NormalizeWrites(t.filePath, t.outputDir, t.pdfDpi, t.outputFormat, pageCount)
  }

  /** The directories the tasks create. */
  function OutputDirs(tasks: seq<Task>): set<string> {
    set t | t in tasks :: t.outputDir
  }

  /** The results of one more task are the earlier results and its own. */
  lemma ResultsGrow(tasks: seq<Task>, i: int, pageCount: string -> nat)
    requires 0 <= i < |tasks|
    ensures Results(tasks[..i + 1], pageCount) == Results(tasks[..i], pageCount) + [TaskResult(tasks[i], pageCount)]
  {
    var longer, shorter := Results(tasks[..i + 1], pageCount), Results(tasks[..i], pageCount);
    forall k | 0 <= k < i ensures longer[k] == shorter[k] {
      assert tasks[..i + 1][k] == tasks[..i][k];
    }
  }

  lemma TaskPrefixStep(tasks: seq<Task>, i: int, pageCount: string -> nat)
    requires 0 <= i < |tasks|
    ensures var t := tasks[i];
            && Results(tasks[..i + 1], pageCount) == Results(tasks[..i], pageCount) + [TaskResult(t, pageCount)]
            && TaskWrites(tasks[..i + 1], pageCount)
                 == TaskWrites(tasks[..i], pageCount) + NormalizeWrites(t.filePath, t.outputDir, t.pdfDpi, t.outputFormat, pageCount)
            && OutputDirs(tasks[..i + 1]) == OutputDirs(tasks[..i]) + {t.outputDir}
  {
    PrefixStep(tasks, i);
    ResultsGrow(tasks, i, pageCount);
  }

  /** One task run by the scheduler. */
  method RunTask(fs: FileSystem<Rendition>, t: Task, pageCount: string -> nat) returns (r: Normalized)
    modifies fs
    ensures r == NormalizedPaths(t.filePath, t.outputDir, t.outputFormat, pageCount)
    ensures fs.writes == old(fs.writes) + NormalizeWrites(t.filePath, t.outputDir, t.pdfDpi, t.outputFormat, pageCount)
    ensures fs.dirs == old(fs.dirs) + {t.outputDir}
  {
    r := NormalizeFile(fs, t.filePath, t.outputDir, t.pdfDpi, t.outputFormat, pageCount);
  }

  /** `compute(*tasks)`, run one task after another. */
  method ComputeTasks(fs: FileSystem<Rendition>, tasks: seq<Task>, pageCount: string -> nat)
    returns (results: seq<Normalized>)
    modifies fs
    ensures results == Results(tasks, pageCount)
    ensures fs.writes == old(fs.writes) + TaskWrites(tasks, pageCount)
    ensures fs.dirs == old(fs.dirs) + OutputDirs(tasks)
  {
    results := [];
    var i := 0;
    while i < |tasks|
      invariant 0 <= i <= |tasks|
      invariant results == Results(tasks[..i], pageCount)
      invariant fs.writes == old(fs.writes) + TaskWrites(tasks[..i], pageCount)
      invariant fs.dirs == old(fs.dirs) + OutputDirs(tasks[..i])
    {
      var t := tasks[i];
      var r := RunTask(fs, t, pageCount);
      results := results + [r];
      TaskPrefixStep(tasks, i, pageCount);
      AppendInSteps(old(fs.writes), TaskWrites(tasks[..i], pageCount),
                    NormalizeWrites(t.filePath, t.outputDir, t.pdfDpi, t.outputFormat, pageCount),
                    TaskWrites(tasks[..i + 1], pageCount));
      i := i + 1;
    }
    assert tasks[..i] == tasks;
  }

  /** What one result contributes to the flattened list: a list all its
      elements, anything else itself. */
  function Items(result: Normalized): seq<string> {
    match result
    case PathList(paths) => paths
    case SinglePath(path) => [path]
  }

  /** The flattened results. */
  function Concat(results: seq<Normalized>): seq<string> {
    if results == [] then [] else Concat(results[..|results| - 1]) + Items(results[|results| - 1])
  }

  /** The flattening loop of `_run_step_01_normalize_input`. */
  method Flatten(results: seq<Normalized>) returns (processed: seq<string>)
    ensures processed == Concat(results)
  {
    processed := [];
    var i := 0;
    while i < |results|
      invariant 0 <= i <= |results|
      invariant processed == Concat(results[..i])
    {
      match results[i] {
        case PathList(paths) =>
          processed := processed + paths;
        case SinglePath(path) =>
          processed := processed + [path];
      }
      assert results[..i + 1][..i] == results[..i];
      i := i + 1;
    }
    assert results[..i] == results;
  }

  /** Flattening two runs of results is flattening each, in order. */
  lemma {:induction false} ConcatOfConcatenation(first: seq<Normalized>, second: seq<Normalized>)
    ensures Concat(first + second) == Concat(first) + Concat(second)
    decreases |second|
  {
    if second == [] {
      assert first + second == first;
    } else {
      DropLastOfJoin(first, second);
      ConcatOfConcatenation(first, second[..|second| - 1]);
    }
  }

  /** Result `k` contributes its items right after everything the earlier
      results contributed. */
  lemma ResultContributesInPlace(results: seq<Normalized>, k: int)
    requires 0 <= k < |results|
    ensures Concat(results) == Concat(results[..k]) + Items(results[k]) + Concat(results[k + 1..])
  {
    var rest := [results[k]] + results[k + 1..];
    SplitAt(results, k);
    ConcatOfConcatenation(results[..k], rest);
    ConcatOfConcatenation([results[k]], results[k + 1..]);
    ConcatOfSingle(results[k]);
    AppendInSteps(Concat(results[..k]), Items(results[k]), Concat(results[k + 1..]), Concat(rest));
  }

  lemma ConcatOfSingle(result: Normalized)
    ensures Concat([result]) == Items(result)
  {
    assert [result][..0] == [];
  }

  /** How many paths a result contributes. */
  function Size(result: Normalized): nat {
    if result.PathList? then |result.paths| else 1
  }

  function TotalSize(results: seq<Normalized>): nat {
    if results == [] then 0 else TotalSize(results[..|results| - 1]) + Size(results[|results| - 1])
  }

  /** The flattened length is the sum of the list lengths plus the number
      of single paths. */
  lemma {:induction false} ConcatLength(results: seq<Normalized>)
    ensures |Concat(results)| == TotalSize(results)
  {
    if results != [] {
      ConcatLength(results[..|results| - 1]);
    }
  }

  /** A path is in the flattened list exactly when some result holds it. */
  lemma {:induction false} ConcatMembers(results: seq<Normalized>, p: string)
    ensures p in Concat(results) <==> exists k :: 0 <= k < |results| && p in Items(results[k])
  {
    if results != [] {
      var init := results[..|results| - 1];
      ConcatMembers(init, p);
      if p in Items(results[|results| - 1]) {
        assert 0 <= |results| - 1 < |results|;
      }
      if exists k :: 0 <= k < |results| && p in Items(results[k]) {
        var k :| 0 <= k < |results| && p in Items(results[k]);
        if k < |results| - 1 {
          assert results[k] == init[k];
        }
      }
    }
  }

  /** The configuration entries step 1 reads, in its order. */
  datatype Step01Settings = Step01Settings(inputDir: Value, outputDir: Value, pdfDpi: Value, outputFormat: Value)

  function ReadStep01(config: Dict): (r: Result<Step01Settings, Error>)
    ensures r.Ok? <==>
              && VStr("step_01_normalize_input") in config
              && config[VStr("step_01_normalize_input")].VDict?
              && var stepConfig := config[VStr("step_01_normalize_input")].entries;
              && VStr("input_dir") in stepConfig && VStr("output_dir") in stepConfig
              && VStr("pdf_dpi") in stepConfig && VStr("output_format") in stepConfig
    ensures r.Ok? ==>
              var stepConfig := config[VStr("step_01_normalize_input")].entries;
              r.value == Step01Settings(stepConfig[VStr("input_dir")], stepConfig[VStr("output_dir")],
                                        stepConfig[VStr("pdf_dpi")], stepConfig[VStr("output_format")])
  {
    var stepConfig :- Section(config, "step_01_normalize_input");
    var inputDir :- Index(stepConfig, "input_dir");
    var outputDir :- Index(stepConfig, "output_dir");
    var pdfDpi :- Index(stepConfig, "pdf_dpi");
    var outputFormat :- Index(stepConfig, "output_format");
    Ok(Step01Settings(inputDir, outputDir, pdfDpi, outputFormat))
  }

  /** The tasks step 1 builds, where `walk(d)` is what `os.walk(d)` yields:
      one per supported file found, in the order found. `os.walk` needs a
      string directory; the output directory and format are used as
      strings only once some task runs. */
  function Step01Tasks(config: Dict, walk: string -> seq<WalkEntry>): (r: Result<seq<Task>, Error>)
    ensures r.Ok? ==>
              && ReadStep01(config).Ok?
              && var settings := ReadStep01(config).value;
              && settings.inputDir.VStr?
              && var files := Found(walk(settings.inputDir.s), Supported);
              && |r.value| == |files|
              && forall i :: 0 <= i < |r.value| ==>
                   && r.value[i].filePath == files[i]
                   && r.value[i].pdfDpi == settings.pdfDpi
                   && VStr(r.value[i].outputDir) == settings.outputDir
                   && VStr(r.value[i].outputFormat) == settings.outputFormat
    ensures r.Ok? <==>
              && ReadStep01(config).Ok?
              && var settings := ReadStep01(config).value;
              && settings.inputDir.VStr?
              && (|| Found(walk(settings.inputDir.s), Supported) == []
                  || (settings.outputDir.VStr? && settings.outputFormat.VStr?))
    ensures ReadStep01(config).Err? ==> r == Err(ReadStep01(config).error)
    ensures ReadStep01(config).Ok? && !ReadStep01(config).value.inputDir.VStr? ==> r == Err(TypeError("input_dir"))
  {
    var settings :- ReadStep01(config);
    var inputDir :- AsStr(settings.inputDir, "input_dir");
    var files := Found(walk(inputDir), Supported);
    if files == [] then Ok([])
    else
      var outputDir :- AsStr(settings.outputDir, "output_dir");
      var outputFormat :- AsStr(settings.outputFormat, "output_format");
      Ok(Tasks(files, outputDir, settings.pdfDpi, outputFormat))
  }

  /** Every task is for a file whose lower-cased name ends in a supported
      extension, found directly in a walked directory. */
  lemma TasksAreSupportedFiles(config: Dict, walk: string -> seq<WalkEntry>, i: int)
    requires Step01Tasks(config, walk).Ok? && 0 <= i < |Step01Tasks(config, walk).value|
    ensures var inputDir := ReadStep01(config).value.inputDir.s;
            exists entry, name :: entry in walk(inputDir) && name in entry.files &&
              HasExtension(name, Supported) && Step01Tasks(config, walk).value[i].filePath == Join(entry.root, name)
  {
    var inputDir := ReadStep01(config).value.inputDir.s;
    var files := Found(walk(inputDir), Supported);
    assert files[i] in files;
    FoundIsSound(walk(inputDir), Supported, files[i]);
  }

  /** A PDF by the dispatch of `normalize_file` is always found; a hidden
      file named ".pdf" is found too but converted as an image. */
  lemma PdfIsSupported(name: string)
    requires IsPdf(name)
    ensures HasExtension(name, Supported)
  {
    SplitextSplits(name);
    EndsWithLowered(name, Ext(name));
    assert Supported[0] == ".pdf";
  }

  lemma HiddenPdfIsSupportedButNotPdf()
    ensures HasExtension(".pdf", Supported) && !IsPdf(".pdf")
  {
    assert Lower(".pdf") == ".pdf";
    assert EndsWith(Lower(".pdf"), Supported[0]);
    NonPdfDispatchExamples();
  }

  /** What step 1 returns: the flattened task results. */
  function Step01(config: Dict, walk: string -> seq<WalkEntry>, pageCount: string -> nat)
    : Result<seq<string>, Error>
  {
    match Step01Tasks(config, walk)
    case Ok(tasks) => Ok(Concat(Results(tasks, pageCount)))
    case Err(e) => Err(e)
  }

  /** How many paths the files give: the page count of each PDF, one for
      anything else. */
  function OutputCount(files: seq<string>, pageCount: string -> nat): nat {
    if files == [] then 0
    else
      var last := files[|files| - 1];
      OutputCount(files[..|files| - 1], pageCount) + (if IsPdf(last) then pageCount(last) else 1)
  }

  lemma {:induction false} TotalSizeOfResults(tasks: seq<Task>, pageCount: string -> nat, files: seq<string>)
    requires |files| == |tasks| && forall i :: 0 <= i < |tasks| ==> tasks[i].filePath == files[i]
    ensures TotalSize(Results(tasks, pageCount)) == OutputCount(files, pageCount)
  {
    if tasks != [] {
      var n := |tasks| - 1;
      assert Results(tasks, pageCount)[..n] == Results(tasks[..n], pageCount);
      TotalSizeOfResults(tasks[..n], pageCount, files[..n]);
    }
  }

  /** Step 1 produces one path per page of each PDF found and one per other
      file found. */
  lemma Step01Count(config: Dict, walk: string -> seq<WalkEntry>, pageCount: string -> nat)
    requires Step01(config, walk, pageCount).Ok?
    ensures |Step01(config, walk, pageCount).value| ==
              OutputCount(Found(walk(ReadStep01(config).value.inputDir.s), Supported), pageCount)
  {
    var tasks := Step01Tasks(config, walk).value;
    var files := Found(walk(ReadStep01(config).value.inputDir.s), Supported);
    ConcatLength(Results(tasks, pageCount));
    TotalSizeOfResults(tasks, pageCount, files);
  }

  /** `logging.getLogger(config.get("app_name", "pipeline"))`: a falsy name
      gives the root logger (`None` here), a string its named logger, and
      any other name is a TypeError. */
  function GetLogger(config: Dict): (r: Result<Option<string>, Error>)
    ensures var name := GetOr(config, "app_name", VStr("pipeline"));
            && (r.Err? <==> Truthy(name) && !name.VStr?)
            && (r.Err? ==> r.error == TypeError("getLogger"))
            && (Truthy(name) && name.VStr? ==> r == Ok(Some(name.s)))
            && (!Truthy(name) ==> r == Ok(None))
  {
    var name := GetOr(config, "app_name", VStr("pipeline"));
    if !Truthy(name) then Ok(None)
    else if name.VStr? then Ok(Some(name.s))
    else Err(TypeError("getLogger"))
  }

  /** The orchestrator. `config` is what `load_config` returned; `workers`
      and `clientOpen` stand for the Dask cluster and client. */
  class PipelineManager {
    const config: Dict
    const logger: Option<string>
    var workers: WorkerRequest
    var clientOpen: bool

    /** The attribute assignment of `__init__`; the cluster comes from
        `SetupDask`. */
    constructor (config: Dict, logger: Option<string>)
      ensures this.config == config && this.logger == logger && !clientOpen
    {
      this.config := config;
      this.logger := logger;
      workers := Auto;
      clientOpen := false;
    }

    /** `_setup_dask`: start a cluster of the requested size and a client
        on it, or raise while reading the request. */
    method SetupDask() returns (failure: Option<Error>)
      modifies this
      ensures failure.None? <==> WorkerRequestOf(config).Ok?
      ensures failure.Some? ==> failure.value == WorkerRequestOf(config).error &&
                                workers == old(workers) && clientOpen == old(clientOpen)
      ensures failure.None? ==> workers == WorkerRequestOf(config).value && clientOpen
    {
      var request := WorkerRequestOf(config);
      if request.Err? {
        return Some(request.error);
      }
      workers := request.value;
      clientOpen := true;
      failure := None;
    }

    /** `_run_step_01_normalize_input`. */
    method RunNormalizeInput(fs: FileSystem<Rendition>, walk: string -> seq<WalkEntry>, pageCount: string -> nat)
      returns (r: Result<seq<string>, Error>)
      modifies fs
      ensures r == Step01(config, walk, pageCount)
      ensures Step01Tasks(config, walk).Err? ==> unchanged(fs)
      ensures Step01Tasks(config, walk).Ok? ==>
                && fs.writes == old(fs.writes) + TaskWrites(Step01Tasks(config, walk).value, pageCount)
                && fs.dirs == old(fs.dirs) + OutputDirs(Step01Tasks(config, walk).value)
    {
      var settings :- ReadStep01(config);
      var inputDir :- AsStr(settings.inputDir, "input_dir");
      var inputFiles := FindFiles(walk(inputDir), Supported);
      var outputDir, outputFormat := "", "";
      if inputFiles != [] {
        outputDir :- AsStr(settings.outputDir, "output_dir");
        outputFormat :- AsStr(settings.outputFormat, "output_format");
      }
      var tasks := Tasks(inputFiles, outputDir, settings.pdfDpi, outputFormat);
      var results := ComputeTasks(fs, tasks, pageCount);
      var processed := Flatten(results);
      r := Ok(processed);
    }

    /** `run`: step 1, then close the client; when step 1 raises the client
        is left open. The result is the number of files step 1 produced,
        which `run` logs. */
    method Run(fs: FileSystem<Rendition>, walk: string -> seq<WalkEntry>, pageCount: string -> nat)
      returns (r: Result<nat, Error>)
      modifies this, fs
      ensures Step01(config, walk, pageCount).Err? ==>
                r == Err(Step01(config, walk, pageCount).error) && clientOpen == old(clientOpen)
      ensures Step01(config, walk, pageCount).Ok? ==>
                r == Ok(|Step01(config, walk, pageCount).value|) && !clientOpen
      ensures workers == old(workers)
      ensures Step01Tasks(config, walk).Err? ==> unchanged(fs)
      ensures Step01Tasks(config, walk).Ok? ==>
                && fs.writes == old(fs.writes) + TaskWrites(Step01Tasks(config, walk).value, pageCount)
                && fs.dirs == old(fs.dirs) + OutputDirs(Step01Tasks(config, walk).value)
    {
      var normalized := RunNormalizeInput(fs, walk, pageCount);
      if normalized.Err? {
        return Err(normalized.error);
      }
      clientOpen := false;
      r := Ok(|normalized.value|);
    }
  }

  /** `PipelineManager(config_path)` with the configuration already
      loaded: the logger is looked up, then the cluster is started; the
      manager, or the first exception raised. */
  method NewPipelineManager(config: Dict) returns (r: Result<PipelineManager, Error>)
    ensures r.Ok? <==> GetLogger(config).Ok? && WorkerRequestOf(config).Ok?
    ensures r.Ok? ==> fresh(r.value) && r.value.config == config && r.value.logger == GetLogger(config).value &&
                      r.value.workers == WorkerRequestOf(config).value && r.value.clientOpen
    ensures GetLogger(config).Err? ==> r == Err(GetLogger(config).error)
    ensures GetLogger(config).Ok? && r.Err? ==> r.error == WorkerRequestOf(config).error
  {
    var logger :- GetLogger(config);
    var manager := new PipelineManager(config, logger);
    var failure := manager.SetupDask();
    if failure.Some? {
      return Err(failure.value);
    }
    r := Ok(manager);
  }
}
