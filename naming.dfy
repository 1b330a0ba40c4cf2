/**
 * How the service names a document and lays out its output directory
 * (the first lines of `pdf_parse_main` and the response of the
 * single-upload endpoint).
 */
module Naming {
  import opened PosixPath

  const Dot: char := '.'

  /** Name of the image sub-directory, and the image prefix handed to both renderers. */
  const ImagesDir: string := "images"

  /** The image directory's name is a single path component. */
  lemma ImagesDirIsComponent()
    ensures Sep !in ImagesDir
  {
    assert forall k :: 0 <= k < |ImagesDir| ==> ImagesDir[k] != Sep;
  }

  /** `s.split(".")[0]`: the part of `s` before its first dot. */
  function FirstSegment(s: string): (r: string)
    ensures |r| <= |s| && r == s[..|r|]
    ensures Dot !in r
    ensures |r| < |s| ==> s[|r|] == Dot
    ensures Dot !in s ==> r == s
  {
    if s == [] || s[0] == Dot then "" else [s[0]] + FirstSegment(s[1..])
  }

  /** `split(".")[0]` is the one dot-free prefix that reaches the first dot or the end. */
  lemma FirstSegmentUnique(s: string, r: string)
    requires |r| <= |s| && r == s[..|r|] && Dot !in r
    requires |r| < |s| ==> s[|r|] == Dot
    ensures FirstSegment(s) == r
  {
  }

  /** A dot-free start passes through `split(".")[0]` unchanged. */
  lemma FirstSegmentSkips(a: string, b: string)
    requires Dot !in a
    ensures FirstSegment(a + b) == a + FirstSegment(b)
  {
    var f := FirstSegment(b);
    var r := a + f;
    assert (a + b)[..|r|] == a + b[..|f|];
    if |r| < |a + b| {
      assert (a + b)[|r|] == b[|f|];
    }
    FirstSegmentUnique(a + b, r);
  }

  /** `os.path.basename(pdf_path).split(".")[0]`. */
  function PdfName(pdfPath: string): (name: string)
    ensures Dot !in name && Sep !in name
    ensures |name| <= |Basename(pdfPath)| && name == Basename(pdfPath)[..|name|]
    ensures |name| < |Basename(pdfPath)| ==> Basename(pdfPath)[|name|] == Dot
    ensures Dot !in Basename(pdfPath) ==> name == Basename(pdfPath)
  {
    var base := Basename(pdfPath);
    var name := FirstSegment(base);
    assert forall k :: 0 <= k < |name| ==> name[k] == base[k];
    name
  }

  /** Where one document's outputs go. */
  datatype Layout = Layout(pdfName: string, outputPath: string, imagePath: string, imagePrefix: string)

  /**
   * Name and path derivation: the output directory is `output_dir/name`, or
   * `dirname(pdf_path)/name` when no output directory is given (an empty
   * string stands for Python's falsy `None`); images go to `output/images`,
   * and the prefix handed to the renderers is the basename of that directory.
   */
  function DeriveLayout(pdfPath: string, outputDir: string): (l: Layout)
    ensures l.pdfName == PdfName(pdfPath)
    ensures l.outputPath == Join(if outputDir != "" then outputDir else Dirname(pdfPath), l.pdfName)
    ensures Basename(l.outputPath) == l.pdfName
    ensures l.imagePath == Join(l.outputPath, ImagesDir)
    ensures l.imagePrefix == ImagesDir
  {
    var name := PdfName(pdfPath);
    var root := if outputDir != "" then outputDir else Dirname(pdfPath);
    var outputPath := Join(root, name);
    var imagePath := Join(outputPath, ImagesDir);
    BasenameOfJoin(root, name);
    ImagesDirIsComponent();
    BasenameOfJoin(outputPath, ImagesDir);
    Layout(name, outputPath, imagePath, Basename(imagePath))
  }

  /** Under a root without a trailing slash, the layout is `root/name` and `root/name/images`. */
  lemma LayoutUnderRoot(pdfPath: string, root: string)
    requires root != "" && root[|root| - 1] != Sep
    ensures var l := DeriveLayout(pdfPath, root);
      && l.outputPath == root + [Sep] + l.pdfName
      && (l.pdfName != "" ==> l.imagePath == root + [Sep] + l.pdfName + [Sep] + ImagesDir)
  {
    var l := DeriveLayout(pdfPath, root);
    if l.pdfName != "" {
      assert l.outputPath[|l.outputPath| - 1] == l.pdfName[|l.pdfName| - 1];
    }
  }
}
