/** Markdown ingestion: header splitting (an external splitter) followed by the
    `source`/`feature:` post-processing of `process_single_markdown_file`, and the
    per-file aggregation of `chunk_markdown_files`. */
module MarkdownChunking {
  import opened Wrappers
  import opened PyText

  /** Splitter metadata: header level name ("Header 1", "Header 2") to header text,
      plus the `source` key stamped by post-processing. */
  type MdMetadata = map<string, string>

  /** A LangChain `Document` produced by the markdown splitter. */
  datatype MdChunk = MdChunk(pageContent: string, metadata: MdMetadata)

  /** One markdown file: its path and its text, or `None` when reading it raised. */
  datatype MdFile = MdFile(path: string, text: Option<string>)

  /** `MarkdownHeaderTextSplitter.split_text` on "#"/"##": an external library. */
  type Splitter = string -> seq<MdChunk>

  const FeatureMarker := "\n---\nfeature: "
  const UnknownFeature := "Unknown"

  /** `os.path.basename`: the longest suffix of `path` without a '/'. */
  function Basename(path: string): (r: string)
    ensures |r| <= |path| && r == path[|path| - |r|..]
    ensures forall i :: 0 <= i < |r| ==> r[i] != '/'
    ensures |r| < |path| ==> path[|path| - |r| - 1] == '/'
  {
    if |path| == 0 || path[|path| - 1] == '/' then ""
    else Basename(path[..|path| - 1]) + [path[|path| - 1]]
  }

  /** The feature name shown in the marker: a non-empty 'Header 2', else "Unknown". */
  function Feature(md: MdMetadata): (f: string)
    ensures f != ""
    ensures "Header 2" in md && md["Header 2"] != "" ==> f == md["Header 2"]
    ensures ("Header 2" !in md || md["Header 2"] == "") ==> f == UnknownFeature
  {
    if "Header 2" in md && md["Header 2"] != "" then md["Header 2"] else UnknownFeature
  }

  /** Post-processing of one splitter chunk from the file named `filename`. */
  function PostProcess(filename: string, c: MdChunk): (r: MdChunk)
    ensures "source" in r.metadata && r.metadata["source"] == filename
    ensures r.metadata.Keys == c.metadata.Keys + {"source"}
    ensures forall k :: k in c.metadata && k != "source" ==> r.metadata[k] == c.metadata[k]
    ensures StartsWith(r.pageContent, FeatureMarker)
    ensures |c.pageContent| <= |r.pageContent|
    ensures r.pageContent[|r.pageContent| - |c.pageContent|..] == c.pageContent
  {
    var md := c.metadata["source" := filename];
    MdChunk(FeatureMarker + Feature(c.metadata) + "\n" + c.pageContent, md)
  }

  /** The post-processing loop over the splitter's chunks, in order. */
  function PostProcessAll(filename: string, cs: seq<MdChunk>): (r: seq<MdChunk>)
    ensures |r| == |cs|
    ensures forall i :: 0 <= i < |r| ==> r[i] == PostProcess(filename, cs[i])
  {
    if |cs| == 0 then [] else [PostProcess(filename, cs[0])] + PostProcessAll(filename, cs[1..])
  }

  /** `process_single_markdown_file`: an unreadable file yields no chunks. */
  function ProcessFile(split: Splitter, f: MdFile): (r: seq<MdChunk>)
    ensures f.text.None? ==> r == []
    ensures f.text.Some? ==> |r| == |split(f.text.value)|
  {
    match f.text
    case None => []
    case Some(t) => PostProcessAll(Basename(f.path), split(t))
  }

  /** Per-file results in file order. */
  function PerMdFile(split: Splitter, files: seq<MdFile>): (r: seq<seq<MdChunk>>)
    ensures |r| == |files|
    ensures forall i :: 0 <= i < |files| ==> r[i] == ProcessFile(split, files[i])
  {
    seq(|files|, i requires 0 <= i < |files| => ProcessFile(split, files[i]))
  }

  /** `chunk_markdown_files`: every file's chunks, file after file. */
  function ChunkMarkdownFiles(split: Splitter, files: seq<MdFile>): (r: seq<MdChunk>)
    ensures |files| == 0 ==> r == []
  {
    Concat(PerMdFile(split, files))
  }

  // ---------------------------------------------------------------------------
  // Properties
  // ---------------------------------------------------------------------------

  /** The new content is the marker, the feature name, a newline, then the old
      content: "feature: <Header 2>" when 'Header 2' is non-empty, else
      "feature: Unknown". */
  lemma PostProcessContent(filename: string, c: MdChunk)
    ensures "Header 2" in c.metadata && c.metadata["Header 2"] != "" ==>
      PostProcess(filename, c).pageContent
        == "\n---\nfeature: " + c.metadata["Header 2"] + "\n" + c.pageContent
    ensures ("Header 2" !in c.metadata || c.metadata["Header 2"] == "") ==>
      PostProcess(filename, c).pageContent == "\n---\nfeature: Unknown\n" + c.pageContent
  {
    if "Header 2" !in c.metadata || c.metadata["Header 2"] == "" {
      assert FeatureMarker + UnknownFeature + "\n" == "\n---\nfeature: Unknown\n";
    }
  }

  /** Every chunk of a readable file carries the file's base name as `source`. */
  lemma ProcessFileSource(split: Splitter, f: MdFile, i: nat)
    requires f.text.Some? && i < |split(f.text.value)|
    ensures i < |ProcessFile(split, f)|
    ensures ProcessFile(split, f)[i].metadata["source"] == Basename(f.path)
    ensures ProcessFile(split, f)[i] == PostProcess(Basename(f.path), split(f.text.value)[i])
  {
  }

  /** Aggregation distributes over concatenation of file lists. */
  lemma ChunkMarkdownFilesAppend(split: Splitter, a: seq<MdFile>, b: seq<MdFile>)
    ensures ChunkMarkdownFiles(split, a + b)
      == ChunkMarkdownFiles(split, a) + ChunkMarkdownFiles(split, b)
  {
    var pa, pb, pab := PerMdFile(split, a), PerMdFile(split, b), PerMdFile(split, a + b);
    forall i | 0 <= i < |pab|
      ensures pab[i] == (pa + pb)[i]
    {
      if i < |a| {
        assert (a + b)[i] == a[i];
      } else {
        assert (a + b)[i] == b[i - |a|];
      }
    }
    assert pab == pa + pb;
    ConcatAppend(pa, pb);
  }

  /** An unreadable file contributes nothing and the files after it still count. */
  lemma UnreadableFileSkipped(split: Splitter, a: seq<MdFile>, f: MdFile, b: seq<MdFile>)
    requires f.text.None?
    ensures ChunkMarkdownFiles(split, a + [f] + b)
      == ChunkMarkdownFiles(split, a) + ChunkMarkdownFiles(split, b)
  {
    var af := a + [f];
    ChunkMarkdownFilesAppend(split, af, b);
    ChunkMarkdownFilesAppend(split, a, [f]);
    UnreadableAlone(split, f);
    var ca := ChunkMarkdownFiles(split, a);
    assert ChunkMarkdownFiles(split, af) == ca + [];
    assert ca + [] == ca;
  }

  /** An unreadable file on its own gives no chunks. */
  lemma UnreadableAlone(split: Splitter, f: MdFile)
    requires f.text.None?
    ensures ChunkMarkdownFiles(split, [f]) == []
  {
    var pf := PerMdFile(split, [f]);
    assert pf[0] == [] && pf[1..] == [];
    assert Concat(pf) == pf[0] + Concat(pf[1..]);
  }

  /** Chunk `j` of file `i` sits at position `Offset(PerMdFile(split, files), i) + j`
      of the aggregate: file order, then splitter order. */
  lemma ChunkMarkdownFilesAt(split: Splitter, files: seq<MdFile>, i: nat, j: nat)
    requires i < |files| && files[i].text.Some? && j < |split(files[i].text.value)|
    ensures j < |ProcessFile(split, files[i])|
    ensures Offset(PerMdFile(split, files), i) + j < |ChunkMarkdownFiles(split, files)|
    ensures ChunkMarkdownFiles(split, files)[Offset(PerMdFile(split, files), i) + j]
      == ProcessFile(split, files[i])[j]
  {
    ConcatAt(PerMdFile(split, files), i, j);
  }

  /** The aggregate holds exactly one chunk per splitter chunk of each readable file. */
  lemma ChunkMarkdownFilesLength(split: Splitter, files: seq<MdFile>)
    ensures |ChunkMarkdownFiles(split, files)| == Offset(PerMdFile(split, files), |files|)
  {
    ConcatLength(PerMdFile(split, files));
  }
}
