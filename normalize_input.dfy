/** src/steps/step_01_normalize_input.py: a PDF becomes one image file per
    page, any other input one converted image file, all under the output
    directory and named after the input's base name. Rendering a PDF and
    encoding images belong to pdf2image and PIL; a PDF's page count is a
    parameter, and what is saved is recorded, not computed. */
module NormalizeInput {
  import opened PyValues
  import opened PyText
  import opened PyPaths
  import opened Decimal
  import opened Files
  import opened SeqFacts

  /** What a normalisation saves: page `page` (0-based) of a PDF rendered at
      `dpi`, or an input image re-encoded; `format` is the format name
      handed to the encoder. */
  datatype Rendition =
    | RenderedPage(pdf: string, dpi: Value, page: nat, format: string)
    | ConvertedImage(source: string, format: string)

  /** `normalize_file` returns a list of paths for a PDF and one path for
      anything else. */
  datatype Normalized = PathList(paths: seq<string>) | SinglePath(path: string)

  /** The dispatch of `normalize_file`: the extension of the whole path,
      lower-cased, is ".pdf". */
  predicate IsPdf(filePath: string) {
    Lower(Ext(filePath)) == ".pdf"
  }

  /** The input's base name without its last extension. */
  function Stem(path: string): string {
    Root(Basename(path))
  }

  function PageFileName(pdfPath: string, i: nat, outputFormat: string): string {
    Stem(pdfPath) + "_page_" + NatToString(i + 1) + "." + Lower(outputFormat)
  }

  /** Where page `i` (0-based) of a PDF is saved. */
  function PagePath(outputDir: string, pdfPath: string, i: nat, outputFormat: string): string {
    Join(outputDir, PageFileName(pdfPath, i, outputFormat))
  }

  function ImageFileName(imagePath: string, outputFormat: string): string {
    Stem(imagePath) + "." + Lower(outputFormat)
  }

  /** Where a converted image is saved. */
  function ImagePath(outputDir: string, imagePath: string, outputFormat: string): string {
    Join(outputDir, ImageFileName(imagePath, outputFormat))
  }

  /** The saves `process_pdf` makes for a PDF of `pages` pages, in page
      order. */
  function PageWrites(pdfPath: string, outputDir: string, dpi: Value, outputFormat: string, pages: nat)
    : seq<(string, Rendition)>
  {
    seq(pages, i requires 0 <= i < pages =>
      (PagePath(outputDir, pdfPath, i, outputFormat), RenderedPage(pdfPath, dpi, i, Upper(outputFormat))))
  }

  /** The paths `process_pdf` returns for a PDF of `pages` pages. */
  function PagePaths(pdfPath: string, outputDir: string, outputFormat: string, pages: nat): seq<string> {
    seq(pages, i requires 0 <= i < pages => PagePath(outputDir, pdfPath, i, outputFormat))
  }

  lemma PagePathsGrow(pdfPath: string, outputDir: string, outputFormat: string, n: nat)
    ensures PagePaths(pdfPath, outputDir, outputFormat, n + 1)
         == PagePaths(pdfPath, outputDir, outputFormat, n) + [PagePath(outputDir, pdfPath, n, outputFormat)]
  {
  }

  lemma PageWritesGrow(pdfPath: string, outputDir: string, dpi: Value, outputFormat: string, n: nat)
    ensures PageWrites(pdfPath, outputDir, dpi, outputFormat, n + 1)
         == PageWrites(pdfPath, outputDir, dpi, outputFormat, n)
            + [(PagePath(outputDir, pdfPath, n, outputFormat), RenderedPage(pdfPath, dpi, n, Upper(outputFormat)))]
  {
  }

  /** `process_pdf`: one output path per rendered page, in page order, each
      saved once; `pageCount(pdfPath)` is how many pages `convert_from_path`
      renders. */
  method ProcessPdf(fs: FileSystem<Rendition>, pdfPath: string, outputDir: string, dpi: Value,
                    outputFormat: string, pageCount: string -> nat)
    returns (outputPaths: seq<string>)
    modifies fs
    ensures outputPaths == PagePaths(pdfPath, outputDir, outputFormat, pageCount(pdfPath))
    ensures fs.dirs == WithDir(old(fs.dirs), outputDir)
    ensures fs.writes == old(fs.writes) + PageWrites(pdfPath, outputDir, dpi, outputFormat, pageCount(pdfPath))
  {
    fs.EnsureDir(outputDir);
    var pages := pageCount(pdfPath);
    outputPaths := [];
    var i := 0;
    while i < pages
      invariant 0 <= i <= pages
      invariant outputPaths == PagePaths(pdfPath, outputDir, outputFormat, i)
      invariant fs.dirs == WithDir(old(fs.dirs), outputDir)
      invariant fs.writes == old(fs.writes) + PageWrites(pdfPath, outputDir, dpi, outputFormat, i)
    {
      var outputPath := PagePath(outputDir, pdfPath, i, outputFormat);
      fs.Write(outputPath, RenderedPage(pdfPath, dpi, i, Upper(outputFormat)));
      PageWritesGrow(pdfPath, outputDir, dpi, outputFormat, i);
      AppendInSteps(old(fs.writes), PageWrites(pdfPath, outputDir, dpi, outputFormat, i),
                    [(outputPath, RenderedPage(pdfPath, dpi, i, Upper(outputFormat)))],
                    PageWrites(pdfPath, outputDir, dpi, outputFormat, i + 1));
      PagePathsGrow(pdfPath, outputDir, outputFormat, i);
      outputPaths := outputPaths + [outputPath];
      i := i + 1;
    }
  }

  /** `process_image`: the input re-encoded once, under the output
      directory, as `<stem>.<format lower-cased>`. */
  method ProcessImage(fs: FileSystem<Rendition>, imagePath: string, outputDir: string, outputFormat: string)
    returns (outputPath: string)
    modifies fs
    ensures outputPath == ImagePath(outputDir, imagePath, outputFormat)
    ensures fs.dirs == WithDir(old(fs.dirs), outputDir)
    ensures fs.writes == old(fs.writes) + [(outputPath, ConvertedImage(imagePath, Upper(outputFormat)))]
  {
    fs.EnsureDir(outputDir);
    var baseFilename := Stem(imagePath);
    outputPath := Join(outputDir, baseFilename + "." + Lower(outputFormat));
    fs.Write(outputPath, ConvertedImage(imagePath, Upper(outputFormat)));
  }

  /** What `normalize_file` returns. */
  function NormalizedPaths(filePath: string, outputDir: string, outputFormat: string, pageCount: string -> nat)
    : Normalized
  {
    if IsPdf(filePath) then
      PathList(PagePaths(filePath, outputDir, outputFormat, pageCount(filePath)))
    else
      SinglePath(ImagePath(outputDir, filePath, outputFormat))
  }

  /** What `normalize_file` saves. */
  function NormalizeWrites(filePath: string, outputDir: string, dpi: Value, outputFormat: string,
                           pageCount: string -> nat): seq<(string, Rendition)>
  {
    if IsPdf(filePath) then PageWrites(filePath, outputDir, dpi, outputFormat, pageCount(filePath))
    else [(ImagePath(outputDir, filePath, outputFormat), ConvertedImage(filePath, Upper(outputFormat)))]
  }

  /** `normalize_file`: PDFs (by lower-cased extension) go to `process_pdf`,
      everything else to `process_image`. */
  method NormalizeFile(fs: FileSystem<Rendition>, filePath: string, outputDir: string, pdfDpi: Value,
                       outputFormat: string, pageCount: string -> nat)
    returns (r: Normalized)
    modifies fs
    ensures r.PathList? <==> IsPdf(filePath)
    ensures r == NormalizedPaths(filePath, outputDir, outputFormat, pageCount)
    ensures fs.dirs == WithDir(old(fs.dirs), outputDir)
    ensures fs.writes == old(fs.writes) + NormalizeWrites(filePath, outputDir, pdfDpi, outputFormat, pageCount)
  {
    var extension := Lower(Ext(filePath));
    if extension == ".pdf" {
      var paths := ProcessPdf(fs, filePath, outputDir, pdfDpi, outputFormat, pageCount);
      r := PathList(paths);
    } else {
      var path := ProcessImage(fs, filePath, outputDir, outputFormat);
      r := SinglePath(path);
    }
  }

  /** The saved paths are exactly the returned ones, in the same order. */
  lemma WritesMatchResult(filePath: string, outputDir: string, dpi: Value, outputFormat: string,
                          pageCount: string -> nat)
    ensures var r := NormalizedPaths(filePath, outputDir, outputFormat, pageCount);
            var w := NormalizeWrites(filePath, outputDir, dpi, outputFormat, pageCount);
            (r.PathList? ==> |w| == |r.paths| && forall i :: 0 <= i < |w| ==> w[i].0 == r.paths[i]) &&
            (r.SinglePath? ==> |w| == 1 && w[0].0 == r.path)
  {
  }

  /** A page file name holds no separator when the format holds none. */
  lemma PageFileNameIsPlain(pdfPath: string, i: nat, outputFormat: string)
    requires '/' !in outputFormat
    ensures PageFileName(pdfPath, i, outputFormat) != []
    ensures '/' !in PageFileName(pdfPath, i, outputFormat)
  {
    StemHasNoSeparator(pdfPath);
    var digits := NatToString(i + 1);
    assert '/' !in digits by {
      assert forall k :: 0 <= k < |digits| ==> IsDigit(digits[k]);
    }
    assert '/' !in Lower(outputFormat) by {
      assert forall k :: 0 <= k < |outputFormat| ==> Lower(outputFormat)[k] == LowerChar(outputFormat[k]);
    }
  }

  /** Page `i` of a PDF is saved directly under the output directory, under
      the name `<stem>_page_<i+1>.<format lower-cased>`. */
  lemma PagePathIsDirectlyUnder(outputDir: string, pdfPath: string, i: nat, outputFormat: string)
    requires '/' !in outputFormat
    ensures PagePath(outputDir, pdfPath, i, outputFormat) == DirPrefix(outputDir) + PageFileName(pdfPath, i, outputFormat)
    ensures Basename(PagePath(outputDir, pdfPath, i, outputFormat)) == PageFileName(pdfPath, i, outputFormat)
  {
    PageFileNameIsPlain(pdfPath, i, outputFormat);
    JoinIsDirectlyUnder(outputDir, PageFileName(pdfPath, i, outputFormat));
  }

  /** Two pages of one PDF never share an output path. */
  lemma PagePathsDistinct(outputDir: string, pdfPath: string, i: nat, j: nat, outputFormat: string)
    requires i != j
    ensures PagePath(outputDir, pdfPath, i, outputFormat) != PagePath(outputDir, pdfPath, j, outputFormat)
  {
    var ni, nj := PageFileName(pdfPath, i, outputFormat), PageFileName(pdfPath, j, outputFormat);
    var head := Stem(pdfPath) + "_page_";
    var tail := "." + Lower(outputFormat);
    var di, dj := NatToString(i + 1), NatToString(j + 1);
    assert ni == head + di + tail;
    assert nj == head + dj + tail;
    assert ni[0] != '/' by {
      StemHasNoSeparator(pdfPath);
      if Stem(pdfPath) != [] { assert ni[0] == Stem(pdfPath)[0]; } else { assert ni[0] == '_'; }
    }
    assert nj[0] != '/' by {
      StemHasNoSeparator(pdfPath);
      if Stem(pdfPath) != [] { assert nj[0] == Stem(pdfPath)[0]; } else { assert nj[0] == '_'; }
    }
    NatToStringInjective(i + 1, j + 1);
    SameFrameSameMiddle(head, di, dj, tail);
    SameFrameSameMiddle(DirPrefix(outputDir), ni, nj, "");
  }

  /** A PDF of `n` pages gives `n` paths, one per page in page order, no
      two alike; no pages give no paths; and when the format holds no
      separator each is named for its page directly under the output
      directory. */
  lemma PdfPathsOnePerPage(outputDir: string, pdfPath: string, outputFormat: string, n: nat)
    ensures |PagePaths(pdfPath, outputDir, outputFormat, n)| == n
    ensures n == 0 ==> PagePaths(pdfPath, outputDir, outputFormat, n) == []
    ensures forall i, j :: 0 <= i < j < n ==>
              PagePaths(pdfPath, outputDir, outputFormat, n)[i] != PagePaths(pdfPath, outputDir, outputFormat, n)[j]
    ensures '/' !in outputFormat ==> forall i :: 0 <= i < n ==>
              Basename(PagePaths(pdfPath, outputDir, outputFormat, n)[i]) == PageFileName(pdfPath, i, outputFormat)
  {
    var paths := PagePaths(pdfPath, outputDir, outputFormat, n);
    forall i, j | 0 <= i < j < n
      ensures paths[i] != paths[j]
    {
      PagePathsDistinct(outputDir, pdfPath, i, j, outputFormat);
    }
    if '/' !in outputFormat {
      forall i | 0 <= i < n
        ensures Basename(paths[i]) == PageFileName(pdfPath, i, outputFormat)
      {
        PagePathIsDirectlyUnder(outputDir, pdfPath, i, outputFormat);
      }
    }
  }

  /** Text framed by the same head and tail determines its middle. */
  lemma SameFrameSameMiddle(head: string, m1: string, m2: string, tail: string)
    ensures head + m1 + tail == head + m2 + tail ==> m1 == m2
  {
    if head + m1 + tail == head + m2 + tail {
      assert |m1| == |m2|;
      assert m1 == (head + m1 + tail)[|head|..|head| + |m1|];
      assert m2 == (head + m2 + tail)[|head|..|head| + |m2|];
    }
  }

  /** A converted image is saved directly under the output directory as
      `<stem>.<format lower-cased>`. */
  lemma ImagePathIsDirectlyUnder(outputDir: string, imagePath: string, outputFormat: string)
    requires '/' !in outputFormat
    ensures ImagePath(outputDir, imagePath, outputFormat) == DirPrefix(outputDir) + ImageFileName(imagePath, outputFormat)
    ensures Basename(ImagePath(outputDir, imagePath, outputFormat)) == ImageFileName(imagePath, outputFormat)
  {
    StemHasNoSeparator(imagePath);
    assert '/' !in Lower(outputFormat) by {
      assert forall k :: 0 <= k < |outputFormat| ==> Lower(outputFormat)[k] == LowerChar(outputFormat[k]);
    }
    JoinIsDirectlyUnder(outputDir, ImageFileName(imagePath, outputFormat));
  }

  /** The dispatch ignores the case of the extension and looks only at the
      last one. */
  lemma PdfDispatchExamples()
    ensures IsPdf("in/scan.PDF")
    ensures IsPdf("in/report.final.pdf")
  {
    var p := "in/scan.PDF";
    RFindIsLast(p, '/', 2);
    RFindIsLast(p, '.', 7);
    assert NonDotBetween(p, 2, 7) by { assert p[3] != '.'; }
    assert Ext(p) == ".PDF";
    p := "in/report.final.pdf";
    RFindIsLast(p, '/', 2);
    RFindIsLast(p, '.', 15);
    assert NonDotBetween(p, 2, 15) by { assert p[3] != '.'; }
    assert Ext(p) == ".pdf";
  }

  /** A PDF name before another extension, a file whose whole name is
      ".pdf" (`splitext` gives it no extension) and a dot in a directory
      name do not make a PDF. */
  lemma NonPdfDispatchExamples()
    ensures !IsPdf("in/scan.pdf.png")
    ensures !IsPdf("in/.pdf")
    ensures !IsPdf("in.pdf/page")
  {
    var p := "in/scan.pdf.png";
    RFindIsLast(p, '/', 2);
    RFindIsLast(p, '.', 11);
    assert NonDotBetween(p, 2, 11) by { assert p[3] != '.'; }
    assert Ext(p) == ".png";
    RFindIsLast("in/.pdf", '/', 2);
    RFindIsLast("in/.pdf", '.', 3);
    assert Ext("in/.pdf") == "";
    RFindIsLast("in.pdf/page", '/', 6);
    RFindIsLast("in.pdf/page", '.', 2);
    assert Ext("in.pdf/page") == "";
  }
}
