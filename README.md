# Document preprocessing pipeline — a Dafny model

This project models the core of a configuration-driven document
preprocessing pipeline written in Python:

- **Input normalisation.** Every supported file under an input directory
  becomes images. A PDF becomes one image per page, named
  `<stem>_page_<n>.<format>`. Any other file is converted once, as
  `<stem>.<format>`.
- **Preprocessing.** Each image goes through a configured, ordered list of
  OpenCV steps: grayscale, denoise, threshold and deskew. Each intermediate
  result can optionally be saved, and the final image is saved at the end.
- **Layout analysis.** A layout model is built once and cached for the
  whole module. Its detections are saved as JSON records and as a
  visualization.
- **Orchestration.** The `PipelineManager` decides how many Dask workers to
  ask for. It builds one normalisation task per discovered file and
  flattens the per-file results into one list.

The model is organised by source file:

| module | file | models |
|---|---|---|
| `Wrappers` | `wrappers.dfy` | `Option` and `Result`, the error channel for Python exceptions |
| `PyValues` | `py_values.dfy` | configuration values as YAML gives them: truthiness, `dict.get`, `dict[key]`, the exceptions raised |
| `PyText` | `py_text.dfy` | `str.lower`, `str.upper`, `str.endswith` |
| `PyPaths` | `py_paths.dfy` | `os.path.basename`, `os.path.splitext`, `os.path.join` (POSIX) |
| `Decimal` | `decimal.dfy` | `str(n)` and `int(text)` on decimal text |
| `SeqFacts` | `seq_facts.dfy` | generic sequence and set facts used by the proofs |
| `Files` | `files.dfy` | `src/utils/files.py` |
| `NormalizeInput` | `normalize_input.dfy` | `src/steps/step_01_normalize_input.py` |
| `PreprocessImage` | `preprocess_image.dfy` | `src/steps/step_02_preprocess_image.py` |
| `LayoutAnalysis` | `layout_analysis.dfy` | `src/steps/step_03_layout_analysis.py` |
| `Pipeline` | `pipeline_manager.dfy` | `src/pipeline_manager.py` |

**File system.** The generic class `Files.FileSystem<C>` stands for the
file system. `dirs` holds the directories created. `writes` holds every
saved file in order: its path and a description of its content.

**Stateful code keeps the source's shape.** Code that changes state in
place is modelled by methods and loops. Each is proved equal to a
specification function, and the properties are proved about those
functions. The state-changing code is:

- the `process_pdf` page loop;
- the step loop of `process_image`;
- the `find_files` walk;
- the `_save_layout_data` record loop;
- the flattening loop;
- the model cache;
- the manager's fields.

**Exceptions.** A Python exception becomes an `Err` carrying a
`PyValues.Error`. The model keeps the source's order of raising, and its
side effects up to the raise.

**Foreign calls become parameters or terms:**

- Whether `cv2.imread` can read a path: `readable`.
- How many pages `convert_from_path` renders: `pageCount`.
- What `os.walk` yields: `walk`.
- The angle `cv2.minAreaRect` reports: `skew`.
- The blocks layoutparser detects: `detect`.
- OpenCV operations are constructors of `PreprocessImage.Image`. An image
  is the term of the operations that produced it, so order, parameters
  and "nothing else was applied" can be checked.

## Model

| member | source | states |
|---|---|---|
| PyValues.Get | src/steps/step_02_preprocess_image.py:142 | `d.get(key)` finds a value exactly when the string key is present, and it is the stored value |
| PyValues.GetOr | src/steps/step_02_preprocess_image.py:143-144 | `d.get(key, default)` is the stored value when the key is present and the default otherwise |
| PyValues.Index | src/steps/step_02_preprocess_image.py:140-141 | `d[key]` succeeds exactly when the key is present; otherwise it raises KeyError naming the key |
| PyValues.Section | src/steps/step_03_layout_analysis.py:130-133 | subscripting a sub-mapping succeeds exactly when the key holds a mapping; a missing key is KeyError |
| PyValues.Chars | src/steps/step_02_preprocess_image.py:44 | iterating over a string gives one one-character string per character, in order |
| PyValues.AsStr | src/steps/step_02_preprocess_image.py:146 | a value is usable as a path exactly when it is a string; otherwise it is TypeError |
| PyText.LowerChar | src/utils/files.py:35 | upper-case ASCII letters map to lower case; every other character is kept |
| PyText.UpperChar | src/steps/step_01_normalize_input.py:40 | lower-case ASCII letters map to upper case; every other character is kept |
| PyText.Lower | src/utils/files.py:35 | `str.lower` keeps the length and lowers each character in place |
| PyText.Upper | src/steps/step_01_normalize_input.py:40 | `str.upper` keeps the length and raises each character in place |
| PyText.LowerIsLower | src/utils/files.py:35 | a lowered name holds no upper-case letter, and lowering twice is lowering once |
| PyText.LowerAppend | src/utils/files.py:35 | lowering distributes over concatenation |
| PyText.UpperSuffixNeverMatchesLowered | src/utils/files.py:35 | no lowered name ends with a suffix that holds an upper-case letter |
| PyText.EndsWithLowered | src/steps/step_01_normalize_input.py:98 | a name ending in `x` ends, once lowered, in `x` lowered |
| PyPaths.RFind | src/steps/step_01_normalize_input.py:35 | the index of the last occurrence of a character, or -1 when it does not occur |
| PyPaths.BasenameIsLastComponent | src/steps/step_02_preprocess_image.py:150 | the base name holds no '/', is a suffix of the path, and is the whole path when there is no '/' |
| PyPaths.SplitextSplits | src/steps/step_01_normalize_input.py:35 | `root + ext` is the path; an extension is '.' plus characters other than '.' and '/'; with an extension, the root is non-empty and does not end in '/' |
| PyPaths.StemHasNoSeparator | src/steps/step_01_normalize_input.py:35 | the base name without its extension holds no '/' |
| PyPaths.JoinIsDirectlyUnder | src/utils/files.py:36 | joining a plain name puts it directly under the directory, and the joined path's base name is that name |
| PyPaths.JoinInjective | src/utils/files.py:36 | different plain names joined to one directory give different paths |
| PyPaths.RFindIsLast | src/steps/step_01_normalize_input.py:35 | a character that occurs at `i` and nowhere after `i` is found at `i` |
| PyPaths.SplitextExamples | src/steps/step_01_normalize_input.py:98 | "scan.PDF" splits as ("scan", ".PDF"); "archive.tar.gz" splits at its last dot; ".pdf" has no extension |
| PyPaths.SplitextDotExamples | src/steps/step_01_normalize_input.py:98 | "..bmp" has no extension; a dot in a directory name is not an extension; "in/.hidden.png" has ".png" |
| Decimal.DigitChar | src/steps/step_01_normalize_input.py:38 | a digit value below ten becomes the digit character with that value |
| Decimal.DigitValue | src/pipeline_manager.py:39 | a digit character's value is below ten and maps back to that character |
| Decimal.NatToString | src/steps/step_01_normalize_input.py:38 | `str(n)` is non-empty, all digits, and has no leading zero |
| Decimal.DigitsValueOfNatToString | src/steps/step_01_normalize_input.py:38 | reading back `str(n)` gives `n` |
| Decimal.NatToStringInjective | src/steps/step_01_normalize_input.py:38 | different page numbers are written differently |
| Decimal.ParseInt | src/pipeline_manager.py:39 | `int(text)` accepts exactly a non-empty run of decimal digits with an optional leading sign; the value is that of the digits, negated after a `-` |
| Decimal.ParseIntOfString | src/pipeline_manager.py:39 | `int(str(i)) == i` for every integer, negative ones included |
| Decimal.ParseIntRejectsNonDigit | src/pipeline_manager.py:39 | text with a non-digit after the first character is not an integer |
| Files.FileSystem.constructor | src/utils/files.py:5-14 | the file system starts with the given directories and no writes |
| Files.FileSystem.EnsureDir | src/utils/files.py:5-14 | `ensure_dir` adds the directory and writes nothing |
| Files.FileSystem.Write | src/steps/step_02_preprocess_image.py:180 | a save appends one write and creates no directory |
| Files.WithDir | src/utils/files.py:14 | after `ensure_dir` the directory exists and nothing else was added |
| Files.EnsureDirIdempotent | src/utils/files.py:14 | `ensure_dir` twice is `ensure_dir` once, and on an existing directory it changes nothing |
| Files.FindFiles | src/utils/files.py:17-36 | the nested walk loop yields exactly `Found(walk, extensions)`, in walk order then listing order |
| Files.SelectedInMembers | src/utils/files.py:34-36 | within one directory, a path is yielded iff it is the root joined with a listed name whose lowered form ends with a listed extension |
| Files.FoundMembers | src/utils/files.py:33-36 | over the whole walk, a path is yielded iff some walked root joined with one of its selected names gives it |
| Files.FoundIsSound | src/utils/files.py:35-36 | every yielded path is a walked root joined with a file name carrying a listed extension |
| Files.FoundIsComplete | src/utils/files.py:35-36 | every listed file carrying a listed extension is yielded, as root joined with name |
| Files.NoExtensionsFindNothing | src/utils/files.py:35 | an empty extension list yields no files |
| Files.NoExtensionsSelectNothing | src/utils/files.py:35 | within one directory, an empty extension list selects nothing |
| Files.UpperCaseExtensionNeverMatches | src/utils/files.py:35 | adding an extension that holds an upper-case letter changes no selection |
| Files.NameCaseIgnored | src/utils/files.py:35 | the case of the file name does not affect selection |
| NormalizeInput.PagePathsGrow | src/steps/step_01_normalize_input.py:36-41 | the page paths of `n+1` pages are those of `n` pages followed by page `n`'s path |
| NormalizeInput.PageWritesGrow | src/steps/step_01_normalize_input.py:36-41 | the saves for `n+1` pages are those for `n` pages followed by page `n`'s save |
| NormalizeInput.ProcessPdf | src/steps/step_01_normalize_input.py:10-42 | returns one path per rendered page in page order, creates the output directory, and saves each page once, in order, in the upper-cased format |
| NormalizeInput.ProcessImage | src/steps/step_01_normalize_input.py:45-70 | returns `<output_dir>/<stem>.<format lowered>`, creates the output directory, and saves the converted image there once |
| NormalizeInput.NormalizeFile | src/steps/step_01_normalize_input.py:73-102 | gives a list exactly for a PDF (lower-cased extension ".pdf") and one path otherwise; its result and saves are those of the branch taken |
| NormalizeInput.WritesMatchResult | src/steps/step_01_normalize_input.py:40-41 | the saved paths are exactly the returned paths, in the same order |
| NormalizeInput.PageFileNameIsPlain | src/steps/step_01_normalize_input.py:38 | a page file name is non-empty and holds no '/' when the format holds none |
| NormalizeInput.PagePathIsDirectlyUnder | src/steps/step_01_normalize_input.py:37-38 | page `i` is saved directly under the output directory as `<stem>_page_<i+1>.<format lowered>` |
| NormalizeInput.PdfPathsOnePerPage | src/steps/step_01_normalize_input.py:34-42 | `n` pages give `n` paths, no pages give none, and no two paths are equal, for any format; when the format holds no '/', path `i` is named for page `i+1` |
| NormalizeInput.PagePathsDistinct | src/steps/step_01_normalize_input.py:37-38 | two different pages of one PDF never share an output path |
| NormalizeInput.SameFrameSameMiddle | src/steps/step_01_normalize_input.py:38 | text between the same head and tail determines what lies between them |
| NormalizeInput.ImagePathIsDirectlyUnder | src/steps/step_01_normalize_input.py:65-68 | a converted image is saved directly under the output directory as `<stem>.<format lowered>` |
| NormalizeInput.PdfDispatchExamples | src/steps/step_01_normalize_input.py:98-100 | ".PDF" is a PDF, and so is "report.final.pdf" (only the last extension counts) |
| NormalizeInput.NonPdfDispatchExamples | src/steps/step_01_normalize_input.py:98-102 | "scan.pdf.png", a file named ".pdf", and a dot in a directory name all take the image branch |
| PreprocessImage.AsTuple | src/steps/step_02_preprocess_image.py:44 | `tuple(v)` gives a list's items, or a string's characters one by one; it fails exactly for anything else |
| PreprocessImage.ApplyGrayscale | src/steps/step_02_preprocess_image.py:10-24 | grayscale applies exactly one conversion to its input |
| PreprocessImage.ApplyDenoise | src/steps/step_02_preprocess_image.py:27-45 | the kernel defaults to (5, 5), and a configured list is the kernel used; it fails exactly when `kernel_size` is present and neither a list nor a string; on success exactly one blur is applied to the input |
| PreprocessImage.ApplyThreshold | src/steps/step_02_preprocess_image.py:48-80 | raises exactly for an unknown method; the method defaults to adaptive Gaussian with block size 11 and c 2; Otsu; `simple` defaults to threshold 127 |
| PreprocessImage.ThresholdDefaults | src/steps/step_02_preprocess_image.py:65-80 | no parameters gives adaptive (11, 2); `simple` alone gives 127; "binary" is rejected |
| PreprocessImage.DeskewAngle | src/steps/step_02_preprocess_image.py:110-113 | below -45 the result is `-(90+angle)`, from -45 up it is `-angle`; a `minAreaRect` angle in [-90, 0) folds into (-45, 45] |
| PreprocessImage.ApplyDeskew | src/steps/step_02_preprocess_image.py:83-121 | deskew applies one rotation by the folded-back angle of the reported skew |
| PreprocessImage.RunStopsAtFailure | src/steps/step_02_preprocess_image.py:157-174 | after a step raises, the remaining steps change nothing |
| PreprocessImage.InertStepChangesNothing | src/steps/step_02_preprocess_image.py:157-174 | a disabled step or one of unknown type changes no image, no directory and no write |
| PreprocessImage.InertStepsAreSkipped | src/steps/step_02_preprocess_image.py:157-174 | removing a disabled or unknown step from anywhere in the list leaves the whole run unchanged |
| PreprocessImage.SavingDoesNotChangeImages | src/steps/step_02_preprocess_image.py:176-180 | the images produced, the steps applied and any failure do not depend on the save settings |
| PreprocessImage.StepTraceIgnoresSaving | src/steps/step_02_preprocess_image.py:157-180 | one pass of the loop computes the same image, applied types and exception whatever the save settings |
| PreprocessImage.StepTraceSavesItsImage | src/steps/step_02_preprocess_image.py:164-180 | when saving, one pass either leaves the image and the saves as they were, or saves exactly its new image, which adds one operation to the old one |
| PreprocessImage.AppliedStepAddsOneOperation | src/steps/step_02_preprocess_image.py:157-171 | a step is applied only when it is a mapping with a truthy `enabled` and a known `type`, it is recorded under that type, and it adds exactly one operation on top of the current image |
| PreprocessImage.SelectedStepDispatch | src/steps/step_02_preprocess_image.py:161-171 | an enabled step of a known type applies the operation its type names (grayscale, denoise, threshold, deskew) to the current image with the step as parameters; a denoise or threshold error is the step's error |
| PreprocessImage.StepFailures | src/steps/step_02_preprocess_image.py:157-171 | a step raises exactly when it is not a mapping, or it is enabled and has no `type`, or its denoise or threshold operation raises |
| PreprocessImage.RunAppliesSelectedSteps | src/steps/step_02_preprocess_image.py:155-174 | a loop that raises nothing applies exactly the enabled steps of known type, in list order, and every step was a mapping |
| PreprocessImage.RunAppliesEachStepOnce | src/steps/step_02_preprocess_image.py:155-171 | the final image carries one operation per applied step over the loaded image; with no applied step it is the loaded image |
| PreprocessImage.RunWithoutSavingSavesNothing | src/steps/step_02_preprocess_image.py:176 | without `save_intermediate_steps` and `intermediate_dir`, the loop creates no directory and writes nothing |
| PreprocessImage.RunSavesEachAppliedStep | src/steps/step_02_preprocess_image.py:176-180 | when saving, there is one save per applied step, in order, at `<intermediate_dir>/<type>/<filename>`; the directories made are exactly those of the applied types |
| PreprocessImage.RunSavesSuccessiveOutputs | src/steps/step_02_preprocess_image.py:155-180 | the saved images are the successive outputs: each adds one operation to the one before, and the last is the loop's result |
| PreprocessImage.Iterate | src/steps/step_02_preprocess_image.py:144-157 | `for step in pipeline_steps`: a list gives its items in order and a string its characters; a mapping is usable only when empty (its keys have no `.get`); None, booleans and integers are not iterable |
| PreprocessImage.UnreadableInputWritesNothing | src/steps/step_02_preprocess_image.py:151-153 | an unreadable input writes nothing and fails. The failure is FileNotFoundError for that path whenever the section and a string `output_dir` can be read and, if `save_intermediate_steps and intermediate_dir` holds, `intermediate_dir` is a string |
| PreprocessImage.FileNotFoundOnlyWhenUnreadable | src/steps/step_02_preprocess_image.py:151-153 | FileNotFoundError is raised only when the input cannot be read, and it names the input (the model leaves out the error `os.makedirs` raises for an empty `output_dir`; see Files.FileSystem.EnsureDir under Left out) |
| PreprocessImage.FromReadFileNotFound | src/steps/step_02_preprocess_image.py:151-153 | from the read on, FileNotFoundError comes only from the read, and it names the input |
| PreprocessImage.StepsNeverRaiseFileNotFound | src/steps/step_02_preprocess_image.py:157-174 | no step raises FileNotFoundError |
| PreprocessImage.FinalImageWrittenLast | src/steps/step_02_preprocess_image.py:150-184 | on success the result is `output_dir` joined with the input's base name, which is the last write; unless `save_intermediate_steps and intermediate_dir` holds, it is the only write |
| PreprocessImage.FromReadFinalWrite | src/steps/step_02_preprocess_image.py:182-184 | from the read on, success writes the final path last, and alone when not saving |
| PreprocessImage.ExamplePipeline | src/steps/step_02_preprocess_image.py:124-184 | a concrete run: disabled and unknown steps are passed over; grayscale then simple threshold 127 are saved under `tmp/<type>/a.png`, then `out/a.png` |
| PreprocessImage.ExampleRun | src/steps/step_02_preprocess_image.py:155-180 | the loop of that concrete run, from the read image |
| PreprocessImage.ExampleRunFirstHalf | src/steps/step_02_preprocess_image.py:157-180 | its first two steps: the step without `enabled` is passed over, and grayscale is applied and saved |
| PreprocessImage.ApplyStep | src/steps/step_02_preprocess_image.py:157-180 | one pass of the step loop ends with the image, failure, directories and writes that `StepTrace` specifies |
| PreprocessImage.ApplySteps | src/steps/step_02_preprocess_image.py:155-180 | the step loop ends with the image, failure, directories and writes that `Run` specifies |
| PreprocessImage.ProcessImage | src/steps/step_02_preprocess_image.py:124-184 | `process_image` returns, creates and writes exactly what `Preprocess` specifies, including on every error path |
| PreprocessImage.ProcessStepConfig | src/steps/step_02_preprocess_image.py:141-184 | once the step's section is found, the result and effects are those `PreprocessStep` specifies |
| PreprocessImage.ProcessOutputDir | src/steps/step_02_preprocess_image.py:146-184 | once `output_dir` is a string, the directories made, the result and the writes are those `WithOutputDir` specifies |
| PreprocessImage.ProcessRead | src/steps/step_02_preprocess_image.py:150-184 | from the read on, the result and effects are those `FromRead` specifies |
| LayoutAnalysis.LayoutModel.constructor | src/steps/step_03_layout_analysis.py:55-58 | a model keeps the config path and label map it was built with |
| LayoutAnalysis.ModelCache.constructor | src/steps/step_03_layout_analysis.py:24 | the cache starts empty |
| LayoutAnalysis.ModelCache.InitializeModel | src/steps/step_03_layout_analysis.py:27-61 | a set cache is returned unchanged without reading the config; otherwise a new model is built with the "type" and "label_map" defaults, cached and returned |
| LayoutAnalysis.Trunc | src/steps/step_03_layout_analysis.py:83 | `int(x)` keeps the sign, drops less than one unit, and never grows in magnitude |
| LayoutAnalysis.TruncOfInteger | src/steps/step_03_layout_analysis.py:83 | an integral coordinate is kept as it is |
| LayoutAnalysis.RecordsFollowBlocks | src/steps/step_03_layout_analysis.py:79-87 | one record per block, in block order: corners truncated toward zero, type copied, score kept |
| LayoutAnalysis.RecordsOfConcatenation | src/steps/step_03_layout_analysis.py:80-87 | the records of two layouts together are the records of each, in order |
| LayoutAnalysis.BuildRecords | src/steps/step_03_layout_analysis.py:79-87 | the append loop builds exactly `LayoutRecords(layout)` |
| LayoutAnalysis.SaveLayoutData | src/steps/step_03_layout_analysis.py:64-90 | writes the records once to the given path; the label map plays no part |
| LayoutAnalysis.SaveVisualization | src/steps/step_03_layout_analysis.py:93-108 | writes the drawn layout once to the given path |
| LayoutAnalysis.ReadSettings | src/steps/step_03_layout_analysis.py:130-135 | the settings are read exactly when the section, a string `output_dir`, and a `model_config` mapping with a `label_map` are present; a missing section is KeyError |
| LayoutAnalysis.OutputPathsNamedAfterInput | src/steps/step_03_layout_analysis.py:135-155 | the outputs are `<output_dir>/json/<stem>.json` and `<output_dir>/visualizations/<stem>.png`, directly under their directories |
| LayoutAnalysis.JsonAndVisualizationDiffer | src/steps/step_03_layout_analysis.py:154-155 | an input's records and its visualization never share a path |
| LayoutAnalysis.JsonPathsCollideOnStem | src/steps/step_03_layout_analysis.py:151-155 | two inputs get the same output paths exactly when their stems agree |
| LayoutAnalysis.ProcessImage | src/steps/step_03_layout_analysis.py:111-161 | on a settings error nothing changes. Otherwise both directories exist and the model is cached, even for an unreadable image. An unreadable image writes nothing; a readable one writes records and visualization, in order, at the derived paths |
| Pipeline.PyInt | src/pipeline_manager.py:39 | `int(v)`: integers as they are, booleans as 0/1, strings by their decimal text or ValueError, other values TypeError |
| Pipeline.WorkerRequestOf | src/pipeline_manager.py:34-39 | the default cluster is used exactly when the `dask` section or `num_workers` is absent or `num_workers` is "auto"; otherwise `int(num_workers)` workers are requested |
| Pipeline.WorkerCountFromText | src/pipeline_manager.py:35-39 | a worker count written as decimal text requests that many workers |
| Pipeline.UnparsableWorkerCountFails | src/pipeline_manager.py:39 | text that is not an integer fails the setup with ValueError instead of falling back to the default |
| Pipeline.Results | src/pipeline_manager.py:87 | `compute` returns one result per task, and result `i` is what `normalize_file` returns for task `i` |
| Pipeline.ResultsGrow | src/pipeline_manager.py:87 | the results of one more task are the earlier results followed by its own |
| Pipeline.TaskPrefixStep | src/pipeline_manager.py:77-87 | running one more task adds its result, its saves and its output directory |
| Pipeline.RunTask | src/pipeline_manager.py:78-83 | a task returns and saves what `normalize_file` does for its file |
| Pipeline.ComputeTasks | src/pipeline_manager.py:87 | the results follow task order, the saves are those of each task in turn, and each task's output directory is created |
| Pipeline.Flatten | src/pipeline_manager.py:89-97 | the loop builds exactly the in-order concatenation `Concat(results)` |
| Pipeline.ConcatOfConcatenation | src/pipeline_manager.py:90-95 | flattening two runs of results is flattening each, in order |
| Pipeline.ResultContributesInPlace | src/pipeline_manager.py:92-95 | result `k` contributes all its items right after those of the earlier results |
| Pipeline.ConcatOfSingle | src/pipeline_manager.py:92-95 | a list contributes its elements; a single path contributes itself |
| Pipeline.ConcatLength | src/pipeline_manager.py:90-95 | the output length is the sum of the list lengths plus the number of single paths |
| Pipeline.ConcatMembers | src/pipeline_manager.py:90-95 | a path is in the output exactly when some result holds it |
| Pipeline.ReadStep01 | src/pipeline_manager.py:66-70 | the four step-1 settings are read exactly when the section and all four keys are present |
| Pipeline.Step01Tasks | src/pipeline_manager.py:66-85 | succeeds exactly when the four settings are present, `input_dir` is a string, and either no file is found or `output_dir` and `output_format` are strings; then one task per discovered file, in discovery order, each with the same output_dir, pdf_dpi and output_format; a settings error is propagated, and a non-string `input_dir` is TypeError |
| Pipeline.TasksAreSupportedFiles | src/pipeline_manager.py:73-74 | every task is for a walked file whose lowered name ends in `.pdf`, `.png`, `.jpg`, `.jpeg`, `.tiff` or `.bmp` |
| Pipeline.PdfIsSupported | src/pipeline_manager.py:73-74 | every file `normalize_file` treats as a PDF is selected |
| Pipeline.HiddenPdfIsSupportedButNotPdf | src/pipeline_manager.py:73-74 | a file named ".pdf" is selected but converted as an image |
| Pipeline.TotalSizeOfResults | src/pipeline_manager.py:87-95 | the results of the tasks add up to one path per PDF page plus one per other file |
| Pipeline.Step01Count | src/pipeline_manager.py:56-97 | step 1 produces one path per page of each PDF found and one per other file found |
| Pipeline.GetLogger | src/pipeline_manager.py:27 | `getLogger(config.get("app_name", "pipeline"))`: a falsy name gives the root logger, a string its named logger, and any other name raises TypeError |
| Pipeline.PipelineManager.constructor | src/pipeline_manager.py:17-27 | the manager keeps the loaded configuration and its logger, and no client is open yet |
| Pipeline.PipelineManager.SetupDask | src/pipeline_manager.py:30-41 | succeeds exactly when the worker request can be read, then records it and opens the client; on failure nothing changes |
| Pipeline.PipelineManager.RunNormalizeInput | src/pipeline_manager.py:56-97 | returns `Step01`; on a settings error nothing is written; otherwise the saves and directories are those of the tasks |
| Pipeline.PipelineManager.Run | src/pipeline_manager.py:43-54 | on success reports how many files step 1 produced and closes the client; when step 1 raises, the client stays open; the saves and directories are those of step 1's tasks, and nothing is saved on a settings error; the worker request is unchanged |
| Pipeline.NewPipelineManager | src/pipeline_manager.py:17-28 | construction succeeds exactly when the logger name is usable and the worker request can be read, with that logger, that request and an open client; a logger error comes first, then the worker request's error |

## Left out

- Pixel computation in OpenCV (`cvtColor`, `GaussianBlur`, `adaptiveThreshold`, Otsu, `minAreaRect`, `warpAffine`, the mean-brightness inversion). These are floating-point numerics inside a foreign library. Images are terms; the skew angle is the parameter `skew`.
- Rendering and encoding: pdf2image, PIL open/save, cv2 `imread`/`imwrite`, layoutparser detection and drawing, JSON encoding. These are foreign calls. Readability, page count, the walk and the detections are parameters; what is saved is recorded, not encoded.
- Exceptions raised inside those libraries: a corrupt PDF, an unreadable PIL image, an invalid kernel size or threshold parameter passed to cv2, a failing write. The model only has the exceptions the shown code and Python's builtins raise.
- The Pillow `getsize` monkey-patch and the log messages. Neither affects results. The one logging call that can raise, `getLogger` on `app_name`, is modelled by `Pipeline.GetLogger`.
- YAML loading (`load_config`). The manager is given the loaded configuration. Configuration values have no floats, dates or byte strings.
- Dask parallelism: `LocalCluster`, `Client`, `delayed`, `compute`. `compute` is modelled as a sequential map that keeps order, so the interleaving of saves from parallel tasks is not modelled.
- The cluster itself. A worker request of zero or fewer workers is recorded as it is, whatever `LocalCluster` would do with it.
- Files.FileSystem.EnsureDir: does not record the parent directories `os.makedirs` creates. It also does not model the error `os.makedirs` raises for an empty path or for a path that is an existing file.
- PyText.Lower: ASCII case mapping only, because Python's Unicode case tables are out of scope. Names with non-ASCII letters may select differently.
- PyText.LowerChar: ASCII only, for the same reason.
- PyText.Upper: ASCII only, for the same reason. It keeps the length, which Python's `upper` does not always do ('ß' becomes 'SS'). The format name handed to the encoder may differ for a format with non-ASCII letters.
- PyText.UpperChar: ASCII only; non-ASCII lower-case letters ('é') are kept as they are.
- Decimal.ParseInt: does not accept the surrounding whitespace, underscores or non-ASCII digits that Python's `int` also accepts.
- LayoutAnalysis.Trunc: coordinates are exact reals, so the ValueError and OverflowError `int()` raises on NaN and infinity are not modelled.
- PreprocessImage.AsTuple: a mapping given as `kernel_size` is an error here. Python's `tuple()` would take its keys as the kernel size.
- PreprocessImage.ApplyDeskew: the image-shape branch that converts colour images before measuring is inside the term, so it is not a separate case.
- PreprocessImage.ProcessImage: a non-string `output_dir` or `intermediate_dir` is a TypeError at the `ensure_dir` that first uses it. A step type that is not a string cannot be one of the known types, so it is skipped.
- Pipeline.PipelineManager.RunNormalizeInput: when files are found, a non-string `output_dir` or `output_format` is a TypeError raised before any task runs, so nothing is saved. In Python the exception comes from inside the tasks, and its type depends on which call first uses the value; parallel tasks may already have saved files. A PDF with no pages never uses `output_format`.
- The `config_path` of `PipelineManager.__init__`: `load_config` is not part of this model.
