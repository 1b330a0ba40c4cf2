/**
 * `pdf_parse_main` and `json_md_dump`: the stage sequence driven on a pipe
 * and the four artifacts written for a document.
 *
 * `Run` is the specification: what a call does for a given request and a
 * given behaviour of its collaborators (the result, the stage calls made,
 * the files written). `ParseMain` is the imperative procedure, proved to do
 * exactly what `Run` says. `RunStages` and `Persist` are the reference
 * runs of a plan of calls or writes that stops at the first exception.
 */
module Pipeline {
  import opened Wrappers
  import opened PosixPath
  import opened Naming
  import opened Collaborators

  /** The error returned when no model list is given and in-process analysis is off. */
  const NeedModelList: string := "need model list input"

  /** The `drop_mode` both renderers receive. */
  const DropNone: string := "none"

  /** The arguments of `pdf_parse_main`; "" stands for a falsy `None`. */
  datatype Request = Request(pdfPath: string, modelJsonPath: string, isJsonMdDump: bool, outputDir: string)

  /**
   * What the world does for one call: reading the PDF (bytes or the text of
   * the exception), reading and parsing `model_json_path` when one is given,
   * the `__use_inside_model__` flag, and the analysis library's behaviour.
   */
  datatype Env = Env(
    pdf: Result<seq<bv8>, string>,
    modelFile: Result<seq<ModelPage>, string>,
    useInsideModel: bool,
    library: Library)

  /** `{"status": "success", "pdf_name": ...}` or `{"error": ...}`. */
  datatype ParseResult = Succeeded(pdfName: string) | Failed(error: string)

  /** The returned value, the calls made on the pipe, and the files written. */
  datatype Outcome = Outcome(result: ParseResult, calls: seq<Call>, writes: seq<FileWrite>)

  /** The model list the pipe is built with: the parsed file, or `[]` when no path is given. */
  function LoadedModel(req: Request, env: Env): (m: Result<seq<ModelPage>, string>)
    ensures m.Err? <==> req.modelJsonPath != "" && env.modelFile.Err?
    ensures req.modelJsonPath == "" ==> m == Ok([])
    ensures m.Ok? && m.value != [] ==> req.modelJsonPath != "" && m == env.modelFile
  {
    if req.modelJsonPath != "" then env.modelFile else Ok([])
  }

  /** The stages of a run that does not stop early, in order. */
  function StagePlan(analyze: bool, imagePrefix: string): seq<Call>
  {
    [Call(Classify, [])] + (if analyze then [Call(Analyze, [])] else [])
    + [Call(Parse, []), Call(MkUniFormat, [imagePrefix, DropNone]), Call(MkMarkdown, [imagePrefix, DropNone])]
  }

  /** The four artifact names, in the order they are written. */
  function ArtifactNames(pdfName: string): (names: seq<string>)
    ensures |names| == 4
    ensures forall j :: 0 <= j < 4 ==> |pdfName| < |names[j]| && names[j][..|pdfName|] == pdfName
    ensures forall i, j :: 0 <= i < j < 4 ==> names[i] != names[j]
  {
    [pdfName + "_model.json", pdfName + "_middle.json", pdfName + "_content_list.json", pdfName + ".md"]
  }

  /** The four writes of `json_md_dump`, in order. */
  function DumpPlan(dir: string, pdfName: string, modelListJson: string, midDataJson: string,
                    contentList: string, mdContent: string): (plan: seq<FileWrite>)
    ensures |plan| == 4
    ensures forall j :: 0 <= j < 4 ==> plan[j].dir == dir && plan[j].name == ArtifactNames(pdfName)[j]
    ensures forall i, j :: 0 <= i < j < 4 ==> plan[i].Loc() != plan[j].Loc()
    ensures [plan[0].content, plan[1].content, plan[2].content, plan[3].content]
         == [modelListJson, midDataJson, contentList, mdContent]
  {
    var names := ArtifactNames(pdfName);
    [FileWrite(dir, names[0], modelListJson), FileWrite(dir, names[1], midDataJson),
     FileWrite(dir, names[2], contentList), FileWrite(dir, names[3], mdContent)]
  }


  datatype StageRun = StageRun(ran: seq<Call>, fault: Option<string>)

  /** Calls the stages of `plan` in order; the first one that raises is the last one called. */
  function RunStages(plan: seq<Call>, faults: map<Stage, string>): (s: StageRun)
    ensures s.ran <= plan
    ensures s.fault.None? ==> s.ran == plan
  {
    if plan == [] then StageRun([], None)
    else if plan[0].stage in faults then StageRun([plan[0]], Some(faults[plan[0].stage]))
    else
      var rest := RunStages(plan[1..], faults);
      StageRun([plan[0]] + rest.ran, rest.fault)
  }

  /** When the first stage of `plan` that raises is the `k`-th, the run makes the calls up to it and reports its exception. */
  lemma {:induction false} RunStagesStopsAt(plan: seq<Call>, faults: map<Stage, string>, k: nat)
    requires k < |plan| && plan[k].stage in faults
    requires forall j :: 0 <= j < k ==> plan[j].stage !in faults
    ensures RunStages(plan, faults) == StageRun(plan[..k + 1], Some(faults[plan[k].stage]))
  {
    if k > 0 {
      assert plan[0].stage !in faults;
      RunStagesStopsAt(plan[1..], faults, k - 1);
      assert plan[..k + 1] == [plan[0]] + plan[1..][..k];
    }
  }

  /** When no stage of `plan` raises, every stage is called and the run reports no exception. */
  lemma {:induction false} RunStagesClean(plan: seq<Call>, faults: map<Stage, string>)
    requires forall j :: 0 <= j < |plan| ==> plan[j].stage !in faults
    ensures RunStages(plan, faults) == StageRun(plan, None)
  {
    if plan != [] {
      assert plan[0].stage !in faults;
      RunStagesClean(plan[1..], faults);
      assert plan == [plan[0]] + plan[1..];
    }
  }

  datatype PersistRun = PersistRun(written: seq<FileWrite>, fault: Option<string>)

  /** Performs the writes of `plan` in order; the first one that raises stores nothing and ends it. */
  function Persist(plan: seq<FileWrite>, faults: map<Location, string>): (p: PersistRun)
    ensures p.written <= plan
    ensures p.fault.None? ==> p.written == plan
  {
    if plan == [] then PersistRun([], None)
    else if plan[0].Loc() in faults then PersistRun([], Some(faults[plan[0].Loc()]))
    else
      var rest := Persist(plan[1..], faults);
      PersistRun([plan[0]] + rest.written, rest.fault)
  }

  /** When the first write of `plan` that raises is the `k`-th, exactly the writes before it are stored. */
  lemma {:induction false} PersistStopsAt(plan: seq<FileWrite>, faults: map<Location, string>, k: nat)
    requires k < |plan| && plan[k].Loc() in faults
    requires forall j :: 0 <= j < k ==> plan[j].Loc() !in faults
    ensures Persist(plan, faults) == PersistRun(plan[..k], Some(faults[plan[k].Loc()]))
  {
    if k > 0 {
      assert plan[0].Loc() !in faults;
      PersistStopsAt(plan[1..], faults, k - 1);
      assert plan[..k] == [plan[0]] + plan[1..][..k - 1];
    }
  }

  /** When no write of `plan` raises, all of them are stored in order. */
  lemma {:induction false} PersistClean(plan: seq<FileWrite>, faults: map<Location, string>)
    requires forall j :: 0 <= j < |plan| ==> plan[j].Loc() !in faults
    ensures Persist(plan, faults) == PersistRun(plan, None)
  {
    if plan != [] {
      assert plan[0].Loc() !in faults;
      PersistClean(plan[1..], faults);
      assert plan == [plan[0]] + plan[1..];
    }
  }

  /** A run that calls `c` first and `rest` after it. */
  lemma RunStagesCons(c: Call, rest: seq<Call>, faults: map<Stage, string>)
    ensures RunStages([c] + rest, faults) == Then(c, faults, RunStages(rest, faults))
  {
    assert ([c] + rest)[1..] == rest;
  }

  /** One stage call followed by the rest of the run, unless the call raises. */
  function Then(c: Call, faults: map<Stage, string>, next: StageRun): (s: StageRun)
    ensures s.ran != [] && s.ran[0] == c
  {
    if c.stage in faults then StageRun([c], Some(faults[c.stage])) else StageRun([c] + next.ran, next.fault)
  }

  /**
   * The specification of `pdf_parse_main`: derive the layout, read the PDF
   * and the model list, build the pipe, then drive it (`Drive`). Any
   * exception becomes `Failed` with its text.
   */
  function Run(req: Request, env: Env, diskFaults: map<Location, string>): (o: Outcome)
    ensures o.calls == [] <==> env.pdf.Err? || LoadedModel(req, env).Err? || env.library.buildFault.Some?
    ensures o.calls == [] ==> o.writes == [] && o.result.Failed?
    ensures o.calls != [] ==> o.calls[0] == Call(Classify, [])
    ensures |o.writes| <= 4
    ensures o.result.Succeeded? ==> o.result.pdfName == PdfName(req.pdfPath)
  {
    var model := LoadedModel(req, env);
    if env.pdf.Err? then Outcome(Failed(env.pdf.error), [], [])
    else if model.Err? then Outcome(Failed(model.error), [], [])
    else if env.library.buildFault.Some? then Outcome(Failed(env.library.buildFault.value), [], [])
    else Drive(DeriveLayout(req.pdfPath, req.outputDir), model.value, env.useInsideModel,
               req.isJsonMdDump, env.library, diskFaults)
  }

  /**
   * The calls made on a freshly built pipe, one transition per stage:
   * classify; then analyze when no model list is given, or stop with
   * `NeedModelList` when in-process analysis is off; then parse and render
   * twice. `fault` is how the sequence stopped early, if it did.
   */
  function Stages(analyze: bool, useInsideModel: bool, imagePrefix: string, faults: map<Stage, string>): (s: StageRun)
    ensures s.ran != [] && s.ran[0] == Call(Classify, [])
  {
    var render := Render(imagePrefix, faults);
    Then(Call(Classify, []), faults,
      if !analyze then render
      else if useInsideModel then Then(Call(Analyze, []), faults, render)
      else StageRun([], Some(NeedModelList)))
  }

  /** The stages after the model is in place: parse, then render the content list and the markdown. */
  function Render(imagePrefix: string, faults: map<Stage, string>): (s: StageRun)
    ensures s.ran != [] && s.ran[0] == Call(Parse, [])
  {
    Then(Call(Parse, []), faults,
    Then(Call(MkUniFormat, [imagePrefix, DropNone]), faults,
    Then(Call(MkMarkdown, [imagePrefix, DropNone]), faults, StageRun([], None))))
  }

  /** The body of `pdf_parse_main` from `pipe_classify()` on: the stages, then the dump when asked for. */
  function Drive(layout: Layout, model: seq<ModelPage>, useInsideModel: bool, isJsonMdDump: bool,
                 lib: Library, diskFaults: map<Location, string>): (o: Outcome)
    ensures o.calls != [] && o.calls[0] == Call(Classify, [])
    ensures |o.writes| <= 4
    ensures o.result.Succeeded? ==> o.result.pdfName == layout.pdfName
  {
    var s := Stages(|model| == 0, useInsideModel, layout.imagePrefix, lib.faults);
    var plan := DumpPlan(layout.outputPath, layout.pdfName, lib.modelListJson, lib.midDataJson,
                         lib.contentList, lib.markdown);
    if s.fault.Some? then Outcome(Failed(s.fault.value), s.ran, [])
    else if !isJsonMdDump then Outcome(Succeeded(layout.pdfName), s.ran, [])
    else
      var p := Persist(plan, diskFaults);
      Outcome(if p.fault.Some? then Failed(p.fault.value) else Succeeded(layout.pdfName), s.ran, p.written)
  }

  /** `json_md_dump`: the four writes, stopping at the first that raises. */
  method JsonMdDump(pipe: Pipe, disk: Disk, dir: string, pdfName: string, contentList: string, mdContent: string)
    returns (fault: Option<string>)
    modifies disk
    ensures var p := Persist(DumpPlan(dir, pdfName, pipe.library.modelListJson, pipe.library.midDataJson,
                                      contentList, mdContent), disk.faults);
      fault == p.fault && disk.written == old(disk.written) + p.written
  {
    ghost var plan := DumpPlan(dir, pdfName, pipe.library.modelListJson, pipe.library.midDataJson,
                               contentList, mdContent);
    fault := disk.Write(dir, pdfName + "_model.json", pipe.library.modelListJson);
    if fault.Some? {
      PersistStopsAt(plan, disk.faults, 0);
      return;
    }
    fault := disk.Write(dir, pdfName + "_middle.json", pipe.library.midDataJson);
    if fault.Some? {
      PersistStopsAt(plan, disk.faults, 1);
      return;
    }
    fault := disk.Write(dir, pdfName + "_content_list.json", contentList);
    if fault.Some? {
      PersistStopsAt(plan, disk.faults, 2);
      return;
    }
    fault := disk.Write(dir, pdfName + ".md", mdContent);
    if fault.Some? {
      PersistStopsAt(plan, disk.faults, 3);
      return;
    }
    PersistClean(plan, disk.faults);
    assert disk.written == old(disk.written) + plan;
  }

  /**
   * `pdf_parse_main`: returns the result, and the pipe it built (`null` when
   * reading the inputs or building the pipe raised).
   */
  method ParseMain(req: Request, env: Env, disk: Disk) returns (r: ParseResult, pipe: Pipe?)
    modifies disk
    ensures r == Run(req, env, disk.faults).result
    ensures disk.written == old(disk.written) + Run(req, env, disk.faults).writes
    ensures pipe == null <==> Run(req, env, disk.faults).calls == []
    ensures pipe != null ==> fresh(pipe) && pipe.trace == Run(req, env, disk.faults).calls
    ensures pipe != null ==> pipe.imageDir == DeriveLayout(req.pdfPath, req.outputDir).imagePath
    ensures pipe != null ==> pipe.pdfBytes == env.pdf.value && pipe.modelList == LoadedModel(req, env).value
    ensures pipe != null ==> pipe.library == env.library
  {
    ghost var o := Run(req, env, disk.faults);
    pipe := null;
    if env.pdf.Err? {
      r := Failed(env.pdf.error);
      assert o == Outcome(r, [], []);
      return;
    }
    var pdfBytes := env.pdf.value;
    var modelJson: seq<ModelPage>;
    if req.modelJsonPath != "" {
      if env.modelFile.Err? {
        r := Failed(env.modelFile.error);
        assert o == Outcome(r, [], []);
        return;
      }
      modelJson := env.modelFile.value;
    } else {
      modelJson := [];
    }
    // the derivation cannot raise, so computing it after the reads changes nothing observable
    var layout := DeriveLayout(req.pdfPath, req.outputDir);
    assert LoadedModel(req, env) == Ok(modelJson);
    if env.library.buildFault.Some? {
      r := Failed(env.library.buildFault.value);
      assert o == Outcome(r, [], []);
      return;
    }
    assert o == Drive(layout, modelJson, env.useInsideModel, req.isJsonMdDump, env.library, disk.faults);
    pipe := new Pipe(pdfBytes, modelJson, layout.imagePath, env.library);
    r := DriveStages(pipe, disk, layout, env.useInsideModel, req.isJsonMdDump);
  }

  /** The body of `pdf_parse_main` from `pipe_classify()` on. */
  method DriveStages(pipe: Pipe, disk: Disk, layout: Layout, useInsideModel: bool, isJsonMdDump: bool)
    returns (r: ParseResult)
    requires pipe.trace == []
    modifies pipe, disk
    ensures var o := Drive(layout, pipe.modelList, useInsideModel, isJsonMdDump, pipe.library, disk.faults);
      r == o.result && pipe.trace == o.calls && disk.written == old(disk.written) + o.writes
  {
    var fault, contentList, mdContent := CallStages(pipe, layout.imagePrefix, useInsideModel);
    if fault.Some? {
      r := Failed(fault.value);
      return;
    }
    if isJsonMdDump {
      fault := JsonMdDump(pipe, disk, layout.outputPath, layout.pdfName, contentList, mdContent);
      if fault.Some? {
        r := Failed(fault.value);
        return;
      }
    }
    r := Succeeded(layout.pdfName);
  }

  /**
   * From `pipe_classify()` to `pipe_mk_markdown(...)`: the stage calls, the
   * exception that stopped them (or `NeedModelList`), and the two renderings.
   */
  method CallStages(pipe: Pipe, imagePrefix: string, useInsideModel: bool)
    returns (fault: Option<string>, contentList: string, mdContent: string)
    requires pipe.trace == []
    modifies pipe
    ensures StageRun(pipe.trace, fault) == Stages(|pipe.modelList| == 0, useInsideModel, imagePrefix, pipe.library.faults)
    ensures fault.None? ==> contentList == pipe.library.contentList && mdContent == pipe.library.markdown
  {
    contentList, mdContent := "", "";
    fault := pipe.PipeClassify();
    if fault.Some? {
      return;
    }
    if |pipe.modelList| == 0 {
      if useInsideModel {
        fault := pipe.PipeAnalyze();
        if fault.Some? {
          return;
        }
      } else {
        fault := Some(NeedModelList);
        return;
      }
    }
    fault, contentList, mdContent := CallRender(pipe, imagePrefix);
  }

  /** From `pipe_parse()` to `pipe_mk_markdown(...)`, on a pipe whose model is in place. */
  method CallRender(pipe: Pipe, imagePrefix: string)
    returns (fault: Option<string>, contentList: string, mdContent: string)
    modifies pipe
    ensures var s := Render(imagePrefix, pipe.library.faults);
      pipe.trace == old(pipe.trace) + s.ran && fault == s.fault
    ensures fault.None? ==> contentList == pipe.library.contentList && mdContent == pipe.library.markdown
  {
    contentList, mdContent := "", "";
    fault := pipe.PipeParse();
    if fault.Some? {
      return;
    }
    var uniFormat := pipe.PipeMkUniFormat(imagePrefix, DropNone);
    if uniFormat.Err? {
      fault := Some(uniFormat.error);
      return;
    }
    contentList := uniFormat.value;
    var markdown := pipe.PipeMkMarkdown(imagePrefix, DropNone);
    if markdown.Err? {
      fault := Some(markdown.error);
      return;
    }
    mdContent := markdown.value;
  }
}
