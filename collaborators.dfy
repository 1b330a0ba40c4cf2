/**
 * Stand-ins for the code the service drives but does not contain: the
 * `ModelPipe` analysis pipe (from an external library) and the disk writer.
 * Their behaviour for one document is a parameter; what the model
 * observes is the order of the calls made on them and the files written.
 */
module Collaborators {
  import opened Wrappers

  /** The five stages of the pipe. */
  datatype Stage = Classify | Analyze | Parse | MkUniFormat | MkMarkdown

  /** One call made on a pipe: the stage and its positional arguments. */
  datatype Call = Call(stage: Stage, args: seq<string>)

  /** One page record of a supplied model list (opaque JSON). */
  datatype ModelPage = ModelPage(json: string)

  /**
   * What the analysis library does with one document: what building the
   * disk writers and the `ModelPipe` for it raises, if anything (nothing
   * observable happens between the two); the stages that raise (with the text of
   * the exception); and the serialised outputs it produces.
   */
  datatype Library = Library(
    buildFault: Option<string>,
    faults: map<Stage, string>,
    modelListJson: string,
    midDataJson: string,
    contentList: string,
    markdown: string)
  {
    function Raised(s: Stage): Option<string>
    {
      if s in faults then Some(faults[s]) else None
    }
  }

  /** A `ModelPipe` built for one document; `trace` lists the stage calls made on it. */
  class Pipe {
    const pdfBytes: seq<bv8>
    const modelList: seq<ModelPage>
    const imageDir: string
    const library: Library
    var trace: seq<Call>

    constructor (pdfBytes: seq<bv8>, modelList: seq<ModelPage>, imageDir: string, library: Library)
      ensures this.pdfBytes == pdfBytes && this.modelList == modelList
      ensures this.imageDir == imageDir && this.library == library
      ensures trace == []
    {
      this.pdfBytes := pdfBytes;
      this.modelList := modelList;
      this.imageDir := imageDir;
      this.library := library;
      trace := [];
    }

    /** `pipe_classify()`; a fault is the exception it raises. */
    method PipeClassify() returns (fault: Option<string>)
      modifies this
      ensures trace == old(trace) + [Call(Stage.Classify, [])]
      ensures fault == library.Raised(Stage.Classify)
    {
      trace := trace + [Call(Stage.Classify, [])];
      fault := library.Raised(Stage.Classify);
    }

    /** `pipe_analyze()`. */
    method PipeAnalyze() returns (fault: Option<string>)
      modifies this
      ensures trace == old(trace) + [Call(Stage.Analyze, [])]
      ensures fault == library.Raised(Stage.Analyze)
    {
      trace := trace + [Call(Stage.Analyze, [])];
      fault := library.Raised(Stage.Analyze);
    }

    /** `pipe_parse()`. */
    method PipeParse() returns (fault: Option<string>)
      modifies this
      ensures trace == old(trace) + [Call(Stage.Parse, [])]
      ensures fault == library.Raised(Stage.Parse)
    {
      trace := trace + [Call(Stage.Parse, [])];
      fault := library.Raised(Stage.Parse);
    }

    /** `pipe_mk_uni_format(img_parent_path, drop_mode)`: the content list, or the exception. */
    method PipeMkUniFormat(imgParentPath: string, dropMode: string) returns (r: Result<string, string>)
      modifies this
      ensures trace == old(trace) + [Call(Stage.MkUniFormat, [imgParentPath, dropMode])]
      ensures r == if library.Raised(Stage.MkUniFormat).Some? then Err(library.Raised(Stage.MkUniFormat).value) else Ok(library.contentList)
    {
      trace := trace + [Call(Stage.MkUniFormat, [imgParentPath, dropMode])];
      r := if library.Raised(Stage.MkUniFormat).Some? then Err(library.Raised(Stage.MkUniFormat).value) else Ok(library.contentList);
    }

    /** `pipe_mk_markdown(img_parent_path, drop_mode)`: the markdown text, or the exception. */
    method PipeMkMarkdown(imgParentPath: string, dropMode: string) returns (r: Result<string, string>)
      modifies this
      ensures trace == old(trace) + [Call(Stage.MkMarkdown, [imgParentPath, dropMode])]
      ensures r == if library.Raised(Stage.MkMarkdown).Some? then Err(library.Raised(Stage.MkMarkdown).value) else Ok(library.markdown)
    {
      trace := trace + [Call(Stage.MkMarkdown, [imgParentPath, dropMode])];
      r := if library.Raised(Stage.MkMarkdown).Some? then Err(library.Raised(Stage.MkMarkdown).value) else Ok(library.markdown);
    }
  }

  /** A file: the writer's root directory and the path given to `write`. */
  datatype Location = Location(dir: string, name: string)

  datatype FileWrite = FileWrite(dir: string, name: string, content: string)
  {
    function Loc(): Location { Location(dir, name) }
  }

  /**
   * The file system as seen through `DiskReaderWriter(dir).write(content, path)`:
   * writes to a location in `faults` raise with that message and store nothing.
   */
  class Disk {
    const faults: map<Location, string>
    var written: seq<FileWrite>

    constructor (faults: map<Location, string>)
      ensures this.faults == faults && written == []
    {
      this.faults := faults;
      written := [];
    }

    method Write(dir: string, name: string, content: string) returns (fault: Option<string>)
      modifies this
      ensures Location(dir, name) in faults ==> fault == Some(faults[Location(dir, name)]) && written == old(written)
      ensures Location(dir, name) !in faults ==> fault == None && written == old(written) + [FileWrite(dir, name, content)]
    {
      if Location(dir, name) in faults {
        fault := Some(faults[Location(dir, name)]);
      } else {
        fault := None;
        written := written + [FileWrite(dir, name, content)];
      }
    }
  }
}
