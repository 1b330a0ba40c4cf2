# mineruFastAPI: document naming, stage orchestration, artifact dump and batch collection

The service is a small FastAPI front end to a PDF analysis library. An upload is
saved under `uploads/`. `pdf_parse_main` then:

- derives the document's name and its output directory;
- drives an analysis pipe through its stages: classify; analyze, when the model
  list is empty (none supplied, or a supplied file holding `[]`) and in-process
  analysis is on, or else stop with "need model list input" when it is off;
  parse; render the content list; render the markdown;
- when asked to, writes four artifacts into the output directory.

Any exception becomes `{"error": str(e)}`. The single-upload endpoint answers with
the filename and a path built from it. The batch endpoint processes the uploads on a
thread pool and collects one `{filename: result}` entry per upload, in the order the
workers finish.

The modules are:

- `PosixPath` holds `os.path.basename`, `dirname` and `join` with POSIX semantics.
- `Naming` holds `split(".")[0]`, the document name and the output layout.
- `Collaborators` holds two stand-ins. The first is the analysis pipe: a class
  whose `trace` records every stage call and whose behaviour for one document
  (which stages raise, what they produce) is a parameter. The second is the disk
  writer: a class whose `written` records every stored file, and whose failing
  locations are a parameter.
- `Pipeline` holds `Run` and `ParseMain`:
  - `Run` is the specification of `pdf_parse_main`: the result, the calls made
    on the pipe, and the files written.
  - `ParseMain` and its helpers are the imperative procedure, proved equal to `Run`.
  - `RunStages` and `Persist` are the reference runs of a plan that stops at the
    first exception.
- `PipelineProperties` holds what the orchestration promises, proved about `Run`
  and its `Drive` part.
- `CompletionOrder` takes a sequence in a given completion order, and proves that
  any complete order is a permutation.
- `Service` holds the two endpoints. The batch endpoint is a loop over an
  arbitrary completion order.

## Model

| member | source | states |
|---|---|---|
| PosixPath.Basename | main.py:96 | the result is the longest separator-free suffix of the path |
| PosixPath.Dirname | main.py:97 | the result is everything up to and including the last '/', with trailing '/'s then removed unless it consists of '/' only. It is empty exactly when the path has no '/' |
| PosixPath.DirnameOfJoin | main.py:97 | the directory part of `a/b`, for a '/'-free `b` and an `a` not ending in '/', is `a`. For an upload saved as `uploads/name`, this is `uploads` |
| PosixPath.Join | main.py:100-104 | an absolute second part is the result. Otherwise the second part is appended to the first, with one '/' between them exactly when the first is non-empty and does not end in '/' |
| PosixPath.BasenameOfJoin | main.py:104-106 | joining a separator-free component and taking the basename gives back that component, so the image prefix is "images" |
| PosixPath.BasenameAfterSep | main.py:96 | the basename of `prefix/b`, for a separator-free `b`, is `b` |
| Naming.FirstSegment | main.py:96 | `split(".")[0]` is a dot-free prefix that stops at the first dot, and is the whole string when there is no dot |
| Naming.FirstSegmentSkips | main.py:168 | a dot-free start passes through `split(".")[0]` unchanged |
| Naming.PdfName | main.py:96 | the document name is the part of the basename before its first '.': a prefix of the basename with no '.' and no '/', followed in the basename by a '.' or by nothing |
| Naming.DeriveLayout | main.py:96-106 | the output path is `join(output_dir or dirname(pdf_path), name)` and its basename is the name. The image directory is `join(output_path, "images")`. The renderers' prefix is "images" |
| Naming.LayoutUnderRoot | main.py:99-104 | under a non-empty root with no trailing '/', the output path is `root/name`. For a non-empty name the image path is `root/name/images` |
| Collaborators.Pipe.constructor | main.py:129-130 | a new pipe holds the PDF bytes, the model list, the image directory and the library behaviour, and no call has been made on it yet |
| Collaborators.Pipe.PipeClassify | main.py:132 | records the classify call and reports the exception it raises, if any |
| Collaborators.Pipe.PipeAnalyze | main.py:136 | records the analyze call and reports its exception |
| Collaborators.Pipe.PipeParse | main.py:141 | records the parse call and reports its exception |
| Collaborators.Pipe.PipeMkUniFormat | main.py:143 | records the call with its image prefix and drop mode, and returns the content list or the exception |
| Collaborators.Pipe.PipeMkMarkdown | main.py:144 | records the call with its image prefix and drop mode, and returns the markdown or the exception |
| Collaborators.Disk.Write | main.py:65-68 | a write to a failing location raises and stores nothing. Any other write appends exactly that file |
| Pipeline.RunStages | main.py:132-144 | the calls made are a prefix of the plan. With no exception they are the whole plan |
| Pipeline.RunStagesStopsAt | main.py:132-153 | when the k-th stage is the first that raises, exactly the stages up to and including it are called, and its exception is reported |
| Pipeline.RunStagesClean | main.py:132-144 | with no raising stage, every planned stage is called and no exception is reported |
| Pipeline.Persist | main.py:65-83 | the stored files are a prefix of the plan. With no exception they are all of it |
| Pipeline.PersistStopsAt | main.py:65-83 | when the k-th write is the first that raises, exactly the k writes before it are stored, and its exception is reported |
| Pipeline.PersistClean | main.py:65-83 | with no failing location, every write of the plan is stored, in order, and no exception is reported |
| Pipeline.RunStagesCons | main.py:132-144 | a run of `c` followed by a plan is one transition on `c` followed by the run of the plan |
| Pipeline.Then | main.py:132-144 | the transition on a stage always calls that stage first |
| Pipeline.Stages | main.py:132-144 | every stage sequence starts with classify |
| Pipeline.Render | main.py:141-144 | the rendering sequence starts with parse |
| Pipeline.Drive | main.py:132-149 | a run that reached the pipe called classify first, wrote at most four files, and reports the layout's name on success |
| Pipeline.Run | main.py:88-153 | nothing is called exactly when reading the PDF or the model list raised, or building the writers and the pipe raised. Such a run fails and writes nothing. Otherwise classify comes first. At most four files are written. On success the name is the derived document name |
| Pipeline.LoadedModel | main.py:110-113 | the model list is an error only when a model file was named and reading it raised. It is empty when no file is named. A non-empty list always comes from the named file |
| Pipeline.ArtifactNames | main.py:65-83 | four names, each the document name followed by a non-empty suffix, no two alike |
| Pipeline.DumpPlan | main.py:65-83 | the dump is four writes, all into the output directory under the four artifact names in order, to four different files, carrying the model list, the mid-stage data, the content list and the markdown |
| Pipeline.JsonMdDump | main.py:57-83 | the dump's exception and the files it stored are those of `Persist` on the four planned writes |
| Pipeline.ParseMain | main.py:88-153 | matches `Run`: the result, the files appended to the disk, the pipe's call trace, and whether a pipe was built. The pipe gets the PDF bytes, the model list, the image directory and the library |
| Pipeline.DriveStages | main.py:132-149 | matches `Drive`: the result, the calls on the pipe and the files written |
| Pipeline.CallStages | main.py:132-144 | the call trace and the stopping exception are those of `Stages`. Without an exception, the returned renderings are the library's |
| Pipeline.CallRender | main.py:141-144 | the calls appended and the exception are those of `Render`. Without an exception, the renderings are the library's |
| PipelineProperties.StagesFollowPlan | main.py:132-144 | unless the "need model list" branch is taken, the stage machine is the plain run of classify, (analyze,) parse, uni-format, markdown |
| PipelineProperties.AnalyzeIffNoModelList | main.py:132-136 | after a successful classify, analyze is called if and only if the model list is empty and in-process analysis is on |
| PipelineProperties.MissingModelList | main.py:134-139 | after a successful classify, with an empty model list and in-process analysis off, the run returns "need model list input". Only classify is called and nothing is written |
| PipelineProperties.CallsFollowPlan | main.py:132-144 | in a run that does not take the "need model list" branch, the calls are a prefix of the plan, and a successful run made all of them |
| PipelineProperties.RenderArguments | main.py:143-144 | both renderers always receive the layout's image prefix and drop mode "none" |
| PipelineProperties.RunRenderArguments | main.py:104-144 | in any run, the renderers receive "images" and "none" |
| PipelineProperties.WritesFollowDump | main.py:65-149 | the files written are a prefix of the four artifacts. Files are written only when the dump was asked for and every stage ran. A successful run wrote all four when asked and none otherwise |
| PipelineProperties.CleanRunSucceeds | main.py:132-149 | a run that does not take the "need model list" branch and in which nothing raises returns success with the document name, makes every planned call, and writes the four artifacts exactly when asked |
| PipelineProperties.StageFaultStops | main.py:132-153 | in a run that does not take the "need model list" branch, when the k-th planned stage is the first that raises, the run returns its exception's text, calls nothing after it and writes nothing |
| PipelineProperties.FailedDumpKeepsEarlierArtifacts | main.py:65-83 | in a run whose stages all succeed and that dumps, when the k-th artifact is the first that cannot be written, the run fails with that write's exception and the k artifacts before it stay written |
| CompletionOrder.Indices | main.py:195 | the futures in submission order: `0 .. n-1` |
| CompletionOrder.Pick | main.py:196-197 | collecting in completion order gives, at each position, the result of the worker that finished there |
| CompletionOrder.PickConcat | main.py:196-197 | collecting along two consecutive stretches of an order is collecting along each in turn |
| CompletionOrder.PickRespectsMultiset | main.py:194-197 | two orders with the same indices collect the same multiset of results |
| CompletionOrder.PickIndices | main.py:195-197 | collecting in submission order gives the results in upload order |
| Service.ResponsePath | main.py:168 | the reported path is "mineru/" followed by the filename up to its first dot, or the whole filename when it has no dot |
| Service.UploadRequest | main.py:159-167 | the parse is asked for the saved upload under `uploads`, with no model file, the dump on, and the output under `mineru` |
| Service.UploadEnv | main.py:179-187 | the parse reads the bytes just saved, with in-process analysis on, and its model list is empty |
| Service.UploadResponseFor | main.py:155-170 | the response is `{"error": ...}` with the save's exception text exactly when saving the upload raised. Otherwise it carries the upload's own filename and `ResponsePath` of it, whatever the parse returned |
| Service.EntryFor | main.py:176-190 | the entry is keyed by the upload's filename. A save that raised becomes that file's error entry. Otherwise the entry holds `pdf_parse_main`'s own result for the saved upload (`ParseUpload`) |
| Service.CleanUploadSucceeds | main.py:176-190 | an upload that is saved, whose pipe is built and whose stages and writes all succeed gets a success entry with its document name, and writes exactly the four artifacts of its layout, in order |
| Service.CreateUploadFile | main.py:155-170 | returns `UploadResponseFor`, and the disk gains exactly the parse's artifacts (none when the save failed) |
| Service.ProcessFile | main.py:176-190 | returns `EntryFor`, and the disk gains exactly this upload's artifacts |
| Service.Entries | main.py:195 | one entry per upload, in upload order, each keyed by that upload's filename. It holds the save's error when the save raised, and otherwise the parse's result for that upload |
| Service.EntriesIsolated | main.py:176-197 | an upload's entry depends on that upload alone: it is the same whatever the other uploads of the batch are and however they fail |
| Service.UploadFiles | main.py:172-199 | the results are the uploads' entries taken in completion order, and the disk gains each upload's artifacts in that order |
| Service.BatchStep | main.py:196-197 | one more finished worker appends its entry and its artifacts after those of the workers before it |
| Service.BatchIsPermutation | main.py:193-199 | for any completion order, the batch response is a permutation of the per-upload entries: one entry per file, none lost, none duplicated |
| Service.ResponsePathIsOutputDir | main.py:159-168 | for a filename with no '/', the reported path is the directory the artifacts were written to |
| Service.ResponsePathOfNested | main.py:168 | a dot-free directory part of the filename is kept in the reported path |
| Service.OutputPathOfNested | main.py:96-104 | a nested filename's artifacts go under `mineru/` and its basename's first segment |
| Service.ResponsePathKeepsDirectories | main.py:159-168 | when the filename holds a dot-free directory part, the reported path differs from the directory the artifacts were written to |
| Service.UploadsAlwaysAnalyze | main.py:134-136 | uploads never take the "need model list" branch. In-process analysis is set on at import and no model list is passed. So once the pipe is built and classify succeeds, analyze runs and the calls follow the full plan |

## Left out

- The analysis library (`ModelPipe` and `magic_pdf`) is not modelled. Each stage is an opaque call whose exception, and whose rendered output, is a parameter (`Library`).
- `init_model`, `ModelSingleton` and the `ocr_model`/`txt_model` handles passed to the pipe (main.py:24-39, 85-86) are not modelled. They are foreign model loading and change no branch of the orchestration.
- `json.dumps` and `copy.deepcopy` of the model list and the mid-stage data (main.py:64-76) are not modelled. The serialised texts are opaque strings supplied by `Library`.
- Reading the PDF and the model JSON (main.py:108-111) is not modelled. Each read is a parameter: the bytes or model list, or the text of the exception it raises. The model list is a sequence of opaque page records, and JSON that does not parse to a list is not modelled.
- `DiskReaderWriter` is modelled only as `Disk.Write`: a write stores one whole file or raises. Building the two writers and the `ModelPipe` (main.py:115, 130) is one step that either raises with a given message (`Library.buildFault`) or succeeds. The image writer and the images the library writes are not modelled.
- Saving uploads with `aiofiles`/`open` (main.py:162-164, 182-184) is not modelled. A save either raises with a given message or stores the upload's bytes, which the parse then reads back unchanged.
- The directory creation at import time (main.py:51-54) is not modelled: it happens once, before any request.
- FastAPI routing, `JSONResponse`, the startup hook, `/test`, `uvicorn.run` and logging are not modelled: they are transport and plumbing.
- The thread pool (main.py:193-197) is not modelled as concurrency. The batch runs sequentially in an arbitrary complete completion order. Two concurrent uploads with the same filename, which would race on one file, are not modelled.
- `parse_method` is not modelled: the code never reads it (its branch is commented out).
- Paths are POSIX only; Windows `ntpath` semantics are not modelled.
- Pipeline.ParseMain: derives the layout after reading the inputs, not before. Deriving it cannot raise, so nothing observable changes.
- Pipeline.Run: persistence is not all-or-nothing. A dump that fails at its k-th write leaves the k artifacts before it on disk (`FailedDumpKeepsEarlierArtifacts`).
