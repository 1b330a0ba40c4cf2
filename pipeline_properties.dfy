/**
 * What `pdf_parse_main` promises: the order in which the stages are called,
 * when analysis runs, when the run stops with "need model list input", what
 * the renderers receive, and which files end up written. Most are stated
 * about `Drive`, the part of `Run` after the inputs are read and the pipe is
 * built; `RunIsDrive` connects the two.
 */
module PipelineProperties {
  import opened Wrappers
  import opened PosixPath
  import opened Naming
  import opened Collaborators
  import opened Pipeline

  /** Shorthand: `StagePlan` for a layout and a model list, the stages a run is meant to call, in order. */
  function PlanFor(layout: Layout, model: seq<ModelPage>): seq<Call>
  {
    StagePlan(|model| == 0, layout.imagePrefix)
  }

  /** Shorthand: `DumpPlan` for a layout and a library, the four writes a run is meant to make, in order. */
  function DumpFor(layout: Layout, lib: Library): seq<FileWrite>
  {
    DumpPlan(layout.outputPath, layout.pdfName, lib.modelListJson, lib.midDataJson, lib.contentList, lib.markdown)
  }

  /**
   * Once the PDF and the model list are read and the pipe is built,
   * `pdf_parse_main` is `Drive` on the derived layout; before that, nothing
   * is called or written.
   */
  lemma RunIsDrive(req: Request, env: Env, diskFaults: map<Location, string>)
    ensures var o := Run(req, env, diskFaults);
      if env.pdf.Err? then o == Outcome(Failed(env.pdf.error), [], [])
      else if LoadedModel(req, env).Err? then o == Outcome(Failed(LoadedModel(req, env).error), [], [])
      else if env.library.buildFault.Some? then o == Outcome(Failed(env.library.buildFault.value), [], [])
      else o == Drive(DeriveLayout(req.pdfPath, req.outputDir), LoadedModel(req, env).value,
                      env.useInsideModel, req.isJsonMdDump, env.library, diskFaults)
  {
  }

  /**
   * Whenever in-process analysis is not ruled out, the transition chain
   * `Stages` is the plain run of the plan: every stage in order until the
   * first one that raises.
   */
  lemma {:induction false} StagesFollowPlan(analyze: bool, useInsideModel: bool, imagePrefix: string,
                                            faults: map<Stage, string>)
    requires !analyze || useInsideModel
    ensures Stages(analyze, useInsideModel, imagePrefix, faults) == RunStages(StagePlan(analyze, imagePrefix), faults)
  {
    var classify, analysis := Call(Classify, []), Call(Analyze, []);
    var parse := Call(Parse, []);
    var uniFormat := Call(MkUniFormat, [imagePrefix, DropNone]);
    var markdown := Call(MkMarkdown, [imagePrefix, DropNone]);
    RunStagesCons(markdown, [], faults);
    assert [markdown] == [markdown] + [];
    RunStagesCons(uniFormat, [markdown], faults);
    assert [uniFormat, markdown] == [uniFormat] + [markdown];
    RunStagesCons(parse, [uniFormat, markdown], faults);
    assert [parse, uniFormat, markdown] == [parse] + [uniFormat, markdown];
    assert RunStages([parse, uniFormat, markdown], faults) == Render(imagePrefix, faults);
    if analyze {
      RunStagesCons(analysis, [parse, uniFormat, markdown], faults);
      assert StagePlan(analyze, imagePrefix) == [classify] + ([analysis] + [parse, uniFormat, markdown]);
      RunStagesCons(classify, [analysis] + [parse, uniFormat, markdown], faults);
    } else {
      assert StagePlan(analyze, imagePrefix) == [classify] + [parse, uniFormat, markdown];
      RunStagesCons(classify, [parse, uniFormat, markdown], faults);
    }
  }

  /**
   * After a successful classification, `pipe_analyze` is called if and only
   * if no model list was supplied and in-process analysis is on.
   */
  lemma AnalyzeIffNoModelList(layout: Layout, model: seq<ModelPage>, useInsideModel: bool, isJsonMdDump: bool,
                              lib: Library, diskFaults: map<Location, string>)
    requires Classify !in lib.faults
    ensures var o := Drive(layout, model, useInsideModel, isJsonMdDump, lib, diskFaults);
      Call(Analyze, []) in o.calls <==> |model| == 0 && useInsideModel
  {
    var render := Render(layout.imagePrefix, lib.faults);
    assert forall j :: 0 <= j < |render.ran| ==> render.ran[j].stage != Analyze;
    var o := Drive(layout, model, useInsideModel, isJsonMdDump, lib, diskFaults);
    if |model| == 0 && useInsideModel {
      assert o.calls[1] == Call(Analyze, []);
    }
  }

  /**
   * No model list and in-process analysis off: after a successful classification the run
   * returns the "need model list input" error, calls nothing more and writes
   * nothing.
   */
  lemma MissingModelList(layout: Layout, isJsonMdDump: bool, lib: Library, diskFaults: map<Location, string>)
    requires Classify !in lib.faults
    ensures Drive(layout, [], false, isJsonMdDump, lib, diskFaults)
         == Outcome(Failed(NeedModelList), [Call(Classify, [])], [])
  {
  }

  /**
   * Otherwise the calls are the plan up to the first stage that raises:
   * classify, analyze when there is no model list, parse, then the two
   * renderings; a successful run made all of them.
   */
  lemma CallsFollowPlan(layout: Layout, model: seq<ModelPage>, useInsideModel: bool, isJsonMdDump: bool,
                        lib: Library, diskFaults: map<Location, string>)
    requires |model| > 0 || useInsideModel
    ensures var o := Drive(layout, model, useInsideModel, isJsonMdDump, lib, diskFaults);
      o.calls <= PlanFor(layout, model) && (o.result.Succeeded? ==> o.calls == PlanFor(layout, model))
  {
    StagesFollowPlan(|model| == 0, useInsideModel, layout.imagePrefix, lib.faults);
  }

  /** Both renderers are always called with the layout's image prefix and the drop mode "none". */
  lemma RenderArguments(layout: Layout, model: seq<ModelPage>, useInsideModel: bool, isJsonMdDump: bool,
                        lib: Library, diskFaults: map<Location, string>)
    ensures var o := Drive(layout, model, useInsideModel, isJsonMdDump, lib, diskFaults);
      forall j :: 0 <= j < |o.calls| && o.calls[j].stage in {MkUniFormat, MkMarkdown} ==>
        o.calls[j].args == [layout.imagePrefix, DropNone]
  {
    var o := Drive(layout, model, useInsideModel, isJsonMdDump, lib, diskFaults);
    if |model| > 0 || useInsideModel {
      CallsFollowPlan(layout, model, useInsideModel, isJsonMdDump, lib, diskFaults);
      var plan := PlanFor(layout, model);
      assert forall j :: 0 <= j < |plan| && plan[j].stage in {MkUniFormat, MkMarkdown} ==>
        plan[j].args == [layout.imagePrefix, DropNone];
      assert forall j :: 0 <= j < |o.calls| ==> o.calls[j] == plan[j];
    } else {
      assert o.calls == [Call(Classify, [])];
    }
  }

  /** In a run of `pdf_parse_main` whose inputs were read, the renderers receive "images" and "none". */
  lemma RunRenderArguments(req: Request, env: Env, diskFaults: map<Location, string>)
    ensures var o := Run(req, env, diskFaults);
      forall j :: 0 <= j < |o.calls| && o.calls[j].stage in {MkUniFormat, MkMarkdown} ==>
        o.calls[j].args == [ImagesDir, DropNone]
  {
    RunIsDrive(req, env, diskFaults);
    if env.pdf.Ok? && LoadedModel(req, env).Ok? && env.library.buildFault.None? {
      RenderArguments(DeriveLayout(req.pdfPath, req.outputDir), LoadedModel(req, env).value,
                      env.useInsideModel, req.isJsonMdDump, env.library, diskFaults);
    }
  }

  /**
   * Files are written only after every stage succeeded and only when the
   * dump was asked for; they are the four artifacts in order, up to the
   * first write that raises. A successful run with the dump wrote all four.
   */
  lemma WritesFollowDump(layout: Layout, model: seq<ModelPage>, useInsideModel: bool, isJsonMdDump: bool,
                         lib: Library, diskFaults: map<Location, string>)
    ensures var o := Drive(layout, model, useInsideModel, isJsonMdDump, lib, diskFaults);
      o.writes <= DumpFor(layout, lib)
      && (o.writes != [] ==> isJsonMdDump && o.calls == PlanFor(layout, model))
      && (o.result.Succeeded? ==> o.writes == if isJsonMdDump then DumpFor(layout, lib) else [])
  {
    if |model| > 0 || useInsideModel {
      CallsFollowPlan(layout, model, useInsideModel, isJsonMdDump, lib, diskFaults);
    }
  }

  /**
   * A run in which nothing raises succeeds with the document name, makes
   * every planned call, and writes the four artifacts exactly when asked to.
   */
  lemma CleanRunSucceeds(layout: Layout, model: seq<ModelPage>, useInsideModel: bool, isJsonMdDump: bool,
                         lib: Library, diskFaults: map<Location, string>)
    requires |model| > 0 || useInsideModel
    requires lib.faults == map[]
    requires isJsonMdDump ==> forall j :: 0 <= j < 4 ==> DumpFor(layout, lib)[j].Loc() !in diskFaults
    ensures Drive(layout, model, useInsideModel, isJsonMdDump, lib, diskFaults)
         == Outcome(Succeeded(layout.pdfName), PlanFor(layout, model), if isJsonMdDump then DumpFor(layout, lib) else [])
  {
    StagesFollowPlan(|model| == 0, useInsideModel, layout.imagePrefix, lib.faults);
    RunStagesClean(PlanFor(layout, model), lib.faults);
    if isJsonMdDump {
      PersistClean(DumpFor(layout, lib), diskFaults);
    }
  }

  /**
   * When the `k`-th planned stage is the first that raises, the run returns
   * that exception's text, calls nothing after it and writes nothing.
   */
  lemma StageFaultStops(layout: Layout, model: seq<ModelPage>, useInsideModel: bool, isJsonMdDump: bool,
                        lib: Library, diskFaults: map<Location, string>, k: nat)
    requires |model| > 0 || useInsideModel
    requires k < |PlanFor(layout, model)| && PlanFor(layout, model)[k].stage in lib.faults
    requires forall j :: 0 <= j < k ==> PlanFor(layout, model)[j].stage !in lib.faults
    ensures Drive(layout, model, useInsideModel, isJsonMdDump, lib, diskFaults)
         == Outcome(Failed(lib.faults[PlanFor(layout, model)[k].stage]), PlanFor(layout, model)[..k + 1], [])
  {
    StagesFollowPlan(|model| == 0, useInsideModel, layout.imagePrefix, lib.faults);
    RunStagesStopsAt(PlanFor(layout, model), lib.faults, k);
  }

  /**
   * The dump is not all-or-nothing: when the `k`-th artifact cannot be
   * written, the run reports that write's exception and the artifacts
   * before it stay on disk.
   */
  lemma FailedDumpKeepsEarlierArtifacts(layout: Layout, model: seq<ModelPage>, useInsideModel: bool,
                                        lib: Library, diskFaults: map<Location, string>, k: nat)
    requires |model| > 0 || useInsideModel
    requires lib.faults == map[]
    requires k < 4 && DumpFor(layout, lib)[k].Loc() in diskFaults
    requires forall j :: 0 <= j < k ==> DumpFor(layout, lib)[j].Loc() !in diskFaults
    ensures var o := Drive(layout, model, useInsideModel, true, lib, diskFaults);
      o.result == Failed(diskFaults[DumpFor(layout, lib)[k].Loc()]) && o.writes == DumpFor(layout, lib)[..k]
  {
    StagesFollowPlan(|model| == 0, useInsideModel, layout.imagePrefix, lib.faults);
    RunStagesClean(PlanFor(layout, model), lib.faults);
    PersistStopsAt(DumpFor(layout, lib), diskFaults, k);
  }
}
