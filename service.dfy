/**
 * The two upload endpoints: `create_upload_file` saves one upload and
 * parses it; `upload_files` does the same for each upload of a batch
 * (`process_file`) and collects one `{filename: result}` entry per upload in
 * the order the workers finish.
 */
module Service {
  import opened Wrappers
  import opened PosixPath
  import opened Naming
  import opened Collaborators
  import opened Pipeline
  import opened PipelineProperties
  import opened CompletionOrder

  /** Where uploads are saved. */
  const UploadDirectory: string := "uploads"

  /** Where the artifacts of every upload go. */
  const ExtractDirectory: string := "mineru"

  /** `__use_inside_model__`, set at import and never cleared. */
  const UseInsideModel: bool := true

  /**
   * One uploaded file: its client-side name, its bytes, what saving it
   * raises (if anything), and how the analysis library behaves on it.
   */
  datatype Upload = Upload(filename: string, contents: seq<bv8>, saveFault: Option<string>, library: Library)

  /** `{"filename": ..., "pdf_path": ...}` or `{"error": ...}`. */
  datatype UploadResponse = Uploaded(filename: string, pdfPath: string) | UploadFailed(error: string)

  /** `{filename: result}`, one entry of the batch response. */
  datatype Entry = Entry(filename: string, result: ParseResult)

  /** The arguments the endpoints pass to `pdf_parse_main`. */
  function UploadRequest(filename: string): (req: Request)
    ensures req.modelJsonPath == "" && req.isJsonMdDump && req.outputDir == ExtractDirectory
    ensures req.pdfPath == Join(UploadDirectory, filename)
    ensures filename != "" && filename[0] != Sep ==> req.pdfPath == UploadDirectory + [Sep] + filename
  {
    Request(Join(UploadDirectory, filename), "", true, ExtractDirectory)
  }

  /** What `pdf_parse_main` finds when it runs on a saved upload: the bytes just saved, no model list. */
  function UploadEnv(u: Upload): (env: Env)
    ensures env.pdf == Ok(u.contents) && env.useInsideModel && env.library == u.library
    ensures LoadedModel(UploadRequest(u.filename), env) == Ok([])
  {
    Env(Ok(u.contents), Ok([]), UseInsideModel, u.library)
  }

  /** The `pdf_path` reported for an upload: the extraction directory and the filename up to its first dot. */
  function ResponsePath(filename: string): (p: string)
    ensures p == ExtractDirectory + [Sep] + FirstSegment(filename)
    ensures Dot !in filename ==> p == ExtractDirectory + [Sep] + filename
  {
    ExtractDirectory + [Sep] + FirstSegment(filename)
  }

  /** The outcome of parsing a saved upload. */
  function ParseUpload(u: Upload, diskFaults: map<Location, string>): Outcome
  {
    Run(UploadRequest(u.filename), UploadEnv(u), diskFaults)
  }

  /**
   * `create_upload_file`'s response: the save's exception, or the filename
   * and the reported path whatever the parse returned.
   */
  function UploadResponseFor(u: Upload): (r: UploadResponse)
    ensures r.UploadFailed? <==> u.saveFault.Some?
    ensures u.saveFault.Some? ==> r == UploadFailed(u.saveFault.value)
    ensures r.Uploaded? ==> r.filename == u.filename && r.pdfPath == ResponsePath(u.filename)
  {
    if u.saveFault.Some? then UploadFailed(u.saveFault.value) else Uploaded(u.filename, ResponsePath(u.filename))
  }

  /** `process_file`'s entry: the save's exception, or the parse's own result, under the upload's filename. */
  function EntryFor(u: Upload, diskFaults: map<Location, string>): (e: Entry)
    ensures e.filename == u.filename
    ensures u.saveFault.Some? ==> e.result == Failed(u.saveFault.value)
    ensures u.saveFault.None? ==> e.result == ParseUpload(u, diskFaults).result
  {
    Entry(u.filename, if u.saveFault.Some? then Failed(u.saveFault.value) else ParseUpload(u, diskFaults).result)
  }

  /** The artifacts written while processing one upload. */
  function WritesFor(u: Upload, diskFaults: map<Location, string>): seq<FileWrite>
  {
    if u.saveFault.Some? then [] else ParseUpload(u, diskFaults).writes
  }

  /** `create_upload_file`. */
  method CreateUploadFile(u: Upload, disk: Disk) returns (r: UploadResponse)
    modifies disk
    ensures r == UploadResponseFor(u)
    ensures disk.written == old(disk.written) + WritesFor(u, disk.faults)
  {
    if u.saveFault.Some? {
      return UploadFailed(u.saveFault.value);
    }
    var _, _ := ParseMain(UploadRequest(u.filename), UploadEnv(u), disk);
    r := Uploaded(u.filename, ResponsePath(u.filename));
  }

  /** `process_file`. */
  method ProcessFile(u: Upload, disk: Disk) returns (e: Entry)
    modifies disk
    ensures e == EntryFor(u, disk.faults)
    ensures disk.written == old(disk.written) + WritesFor(u, disk.faults)
  {
    if u.saveFault.Some? {
      return Entry(u.filename, Failed(u.saveFault.value));
    }
    var result, _ := ParseMain(UploadRequest(u.filename), UploadEnv(u), disk);
    e := Entry(u.filename, result);
  }

  /** The entry of each upload, in upload order. */
  function Entries(files: seq<Upload>, diskFaults: map<Location, string>): (es: seq<Entry>)
    ensures |es| == |files|
    ensures forall i :: 0 <= i < |files| ==> es[i].filename == files[i].filename
    ensures forall i :: 0 <= i < |files| && files[i].saveFault.Some? ==> es[i].result == Failed(files[i].saveFault.value)
    ensures forall i :: 0 <= i < |files| && files[i].saveFault.None? ==> es[i].result == ParseUpload(files[i], diskFaults).result
  {
    seq(|files|, i requires 0 <= i < |files| => EntryFor(files[i], diskFaults))
  }

  /** The artifacts written by a batch, upload by upload in completion order. */
  function BatchWrites(files: seq<Upload>, order: seq<nat>, diskFaults: map<Location, string>): seq<FileWrite>
    requires forall i :: 0 <= i < |order| ==> order[i] < |files|
  {
    if order == [] then []
    else BatchWrites(files, order[..|order| - 1], diskFaults) + WritesFor(files[order[|order| - 1]], diskFaults)
  }

  /**
   * `upload_files`: the uploads are processed one after another, in
   * `order`, the order in which the pool's workers finish.
   */
  method UploadFiles(files: seq<Upload>, order: seq<nat>, disk: Disk) returns (results: seq<Entry>)
    requires IsCompletionOrder(order, |files|)
    modifies disk
    ensures results == Pick(Entries(files, disk.faults), order)
    ensures disk.written == old(disk.written) + BatchWrites(files, order, disk.faults)
  {
    results := [];
    var k := 0;
    while k < |order|
      invariant 0 <= k <= |order|
      invariant results == Pick(Entries(files, disk.faults), order[..k])
      invariant disk.written == old(disk.written) + BatchWrites(files, order[..k], disk.faults)
    {
      var e := ProcessFile(files[order[k]], disk);
      BatchStep(files, order, k, disk.faults);
      AppendAssociates(old(disk.written), BatchWrites(files, order[..k], disk.faults), WritesFor(files[order[k]], disk.faults));
      results := results + [e];
      k := k + 1;
    }
    assert order[..k] == order;
  }

  /** Regrouping a concatenation: a step the batch loop and the path lemmas need spelled out. */
  lemma AppendAssociates<T>(a: seq<T>, b: seq<T>, c: seq<T>)
    ensures (a + b) + c == a + (b + c)
  {
  }

  /** One more upload finished: its entry and its writes come after those of the uploads before it. */
  lemma BatchStep(files: seq<Upload>, order: seq<nat>, k: nat, diskFaults: map<Location, string>)
    requires k < |order| && forall i :: 0 <= i < |order| ==> order[i] < |files|
    ensures Pick(Entries(files, diskFaults), order[..k + 1])
         == Pick(Entries(files, diskFaults), order[..k]) + [EntryFor(files[order[k]], diskFaults)]
    ensures BatchWrites(files, order[..k + 1], diskFaults)
         == BatchWrites(files, order[..k], diskFaults) + WritesFor(files[order[k]], diskFaults)
  {
    assert order[..k + 1][..k] == order[..k] && order[..k + 1][k] == order[k];
  }

  /**
   * An upload's entry depends on that upload alone: whatever the other
   * uploads of the batch are, and whether their saves or parses fail.
   */
  lemma EntriesIsolated(files: seq<Upload>, others: seq<Upload>, diskFaults: map<Location, string>, i: nat)
    requires i < |files| && i < |others| && files[i] == others[i]
    ensures Entries(files, diskFaults)[i] == Entries(others, diskFaults)[i]
  {
  }

  /**
   * An upload that is saved, whose pipe is built and whose stages and
   * writes all succeed gets a success entry with its document name, and
   * writes exactly the four artifacts of its layout.
   */
  lemma CleanUploadSucceeds(u: Upload, diskFaults: map<Location, string>)
    requires u.saveFault.None? && u.library.buildFault.None? && u.library.faults == map[]
    requires var layout := DeriveLayout(Join(UploadDirectory, u.filename), ExtractDirectory);
      forall j :: 0 <= j < 4 ==> DumpFor(layout, u.library)[j].Loc() !in diskFaults
    ensures EntryFor(u, diskFaults).result == Succeeded(PdfName(Join(UploadDirectory, u.filename)))
    ensures WritesFor(u, diskFaults) == DumpFor(DeriveLayout(Join(UploadDirectory, u.filename), ExtractDirectory), u.library)
  {
    var req, env := UploadRequest(u.filename), UploadEnv(u);
    var layout := DeriveLayout(req.pdfPath, req.outputDir);
    RunIsDrive(req, env, diskFaults);
    CleanRunSucceeds(layout, [], true, true, u.library, diskFaults);
  }

  /**
   * The batch response has exactly one entry per upload, whatever the
   * completion order: the entries are the uploads' own entries, rearranged.
   */
  lemma BatchIsPermutation(files: seq<Upload>, order: seq<nat>, diskFaults: map<Location, string>)
    requires IsCompletionOrder(order, |files|)
    ensures multiset(Pick(Entries(files, diskFaults), order)) == multiset(Entries(files, diskFaults))
  {
    var es := Entries(files, diskFaults);
    PickRespectsMultiset(es, order, Indices(|files|));
    PickIndices(es);
  }

  /**
   * When the filename has no '/', the reported `pdf_path` is the directory
   * the artifacts were actually written to.
   */
  lemma ResponsePathIsOutputDir(filename: string)
    requires Sep !in filename
    ensures ResponsePath(filename) == DeriveLayout(Join(UploadDirectory, filename), ExtractDirectory).outputPath
  {
    BasenameOfJoin(UploadDirectory, filename);
    LayoutUnderRoot(Join(UploadDirectory, filename), ExtractDirectory);
  }

  /** A dot-free directory part of the filename stays in the reported `pdf_path`. */
  lemma ResponsePathOfNested(dir: string, base: string)
    requires Dot !in dir
    ensures ResponsePath(dir + [Sep] + base) == ExtractDirectory + [Sep] + dir + [Sep] + FirstSegment(base)
  {
    FirstSegmentSkips(dir + [Sep], base);
    AppendAssociates(ExtractDirectory + [Sep], dir + [Sep], FirstSegment(base));
    AppendAssociates(ExtractDirectory + [Sep], dir, [Sep]);
  }

  /** The artifacts of a nested filename go under its basename's first segment. */
  lemma OutputPathOfNested(dir: string, base: string)
    requires dir != "" && dir[0] != Sep && Sep !in base
    ensures DeriveLayout(Join(UploadDirectory, dir + [Sep] + base), ExtractDirectory).outputPath
         == ExtractDirectory + [Sep] + FirstSegment(base)
  {
    var filename := dir + [Sep] + base;
    var path := Join(UploadDirectory, filename);
    assert path == UploadDirectory + [Sep] + filename by {
      assert filename[0] == dir[0];
      assert UploadDirectory[|UploadDirectory| - 1] != Sep;
    }
    AppendAssociates(UploadDirectory + [Sep], dir + [Sep], base);
    AppendAssociates(UploadDirectory + [Sep], dir, [Sep]);
    BasenameAfterSep(UploadDirectory + [Sep] + dir, base);
    LayoutUnderRoot(path, ExtractDirectory);
  }

  /**
   * With a '/' in the filename the two differ: the response keeps the
   * directory part, while the artifacts go under the basename.
   */
  lemma ResponsePathKeepsDirectories(dir: string, base: string)
    requires dir != "" && dir[0] != Sep && Dot !in dir && Sep !in base
    ensures ResponsePath(dir + [Sep] + base)
         != DeriveLayout(Join(UploadDirectory, dir + [Sep] + base), ExtractDirectory).outputPath
  {
    ResponsePathOfNested(dir, base);
    OutputPathOfNested(dir, base);
    assert |ResponsePath(dir + [Sep] + base)| == |ExtractDirectory + [Sep] + FirstSegment(base)| + |dir| + 1;
  }

  /**
   * The endpoints never take the "need model list input" branch: they pass
   * no model list and in-process analysis is on, so after a successful
   * classification `pipe_analyze` runs, and the calls follow the full plan.
   */
  lemma UploadsAlwaysAnalyze(u: Upload, diskFaults: map<Location, string>)
    requires u.library.buildFault.None? && Classify !in u.library.faults
    ensures var o := ParseUpload(u, diskFaults);
      Call(Analyze, []) in o.calls && o.calls <= StagePlan(true, ImagesDir)
  {
    var req, env := UploadRequest(u.filename), UploadEnv(u);
    RunIsDrive(req, env, diskFaults);
    var layout := DeriveLayout(req.pdfPath, req.outputDir);
    AnalyzeIffNoModelList(layout, [], true, true, u.library, diskFaults);
    CallsFollowPlan(layout, [], true, true, u.library, diskFaults);
  }
}
