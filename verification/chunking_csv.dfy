/** Row-per-chunk ingestion of task-tracker CSV exports (`chunk_csv_files`). */
module CsvChunking {
  import opened PyText

  /** One CSV row after key cleaning: column name to cell text. */
  type Row = map<string, string>

  /** One loaded CSV file: its base name and its rows in file order. */
  datatype CsvFile = CsvFile(filename: string, rows: seq<Row>)

  /** The metadata dict attached to every CSV chunk. */
  datatype ChunkMetadata = ChunkMetadata(
    source: string,
    chunkId: string,
    rowNumber: nat,
    taskId: string,
    taskName: string,
    listName: string,
    folderName: string,
    spaceName: string,
    dateCreated: string,
    header: string)

  /** `CSVChunk`: searchable text plus metadata. */
  datatype CsvChunk = CsvChunk(pageContent: string, metadata: ChunkMetadata)

  /** The two `Space Name` values whose rows are administrative and skipped. */
  const ExcludedSpaces: seq<string> := ["내 업무 리스트", "이사회"]

  const InfoTitle := "=== 작업 정보 ==="
  const BodyTitle := "=== 작업 내용 ==="
  const CommentTitle := "=== 댓글 ==="

  const Bom: char := '\U{FEFF}'

  // ---------------------------------------------------------------------------
  // Key cleaning (load_csv_from_docs)
  // ---------------------------------------------------------------------------

  /** A column name that needs no cleaning: no byte-order mark anywhere and no
      whitespace at either end. */
  predicate CleanName(s: string) {
    && (forall i :: 0 <= i < |s| ==> s[i] != Bom)
    && (|s| == 0 || (!IsSpace(s[0]) && !IsSpace(s[|s| - 1])))
  }

  /** What may surround a column name in an export: whitespace and byte-order marks. */
  predicate Padding(s: string) {
    forall i :: 0 <= i < |s| ==> IsSpace(s[i]) || s[i] == Bom
  }

  /** A column name with every byte-order mark removed, then stripped. */
  function CleanKey(key: string): (k: string)
    ensures forall i :: 0 <= i < |k| ==> k[i] != Bom
    ensures |k| == 0 || (!IsSpace(k[0]) && !IsSpace(k[|k| - 1]))
    ensures CleanName(key) ==> k == key
  {
    var k := Strip(RemoveAll(key, Bom));
    StripSpec(RemoveAll(key, Bom));
    assert forall i :: 0 <= i < |k| ==> k[i] in RemoveAll(key, Bom);
    assert CleanName(key) ==> k == key by {
      if CleanName(key) {
        StripPadded("", key, "");
        assert "" + key + "" == key;
      }
    }
    k
  }

  /** Once the byte-order marks are gone, padding is plain whitespace. */
  lemma {:induction false} PaddingWithoutBom(p: string)
    requires Padding(p)
    ensures forall i :: 0 <= i < |RemoveAll(p, Bom)| ==> IsSpace(RemoveAll(p, Bom)[i])
  {
    if |p| > 0 {
      PaddingWithoutBom(p[1..]);
    }
  }

  /** A column name keeps its identity through cleaning however it is padded with
      whitespace and byte-order marks: `"\ufeff Task ID "` is looked up as `"Task ID"`. */
  lemma CleanKeyDropsPadding(pre: string, name: string, post: string)
    requires Padding(pre) && Padding(post) && CleanName(name)
    ensures CleanKey(pre + name + post) == name
  {
    RemoveAllAppend(pre + name, post, Bom);
    RemoveAllAppend(pre, name, Bom);
    PaddingWithoutBom(pre);
    PaddingWithoutBom(post);
    StripPadded(RemoveAll(pre, Bom), name, RemoveAll(post, Bom));
  }

  /** Builds the cleaned dict from a row's (key, value) pairs in column order;
      when two keys clean to the same name the later column wins. */
  function CleanRow(pairs: seq<(string, string)>): (row: Row)
    ensures row.Keys == set i | 0 <= i < |pairs| :: CleanKey(pairs[i].0)
  {
    if |pairs| == 0 then map[]
    else
      var last := pairs[|pairs| - 1];
      var prev := pairs[..|pairs| - 1];
      var r := CleanRow(prev)[CleanKey(last.0) := last.1];
      assert r.Keys == (set i | 0 <= i < |prev| :: CleanKey(prev[i].0)) + {CleanKey(last.0)};
      assert forall i :: 0 <= i < |prev| ==> prev[i] == pairs[i];
      r
  }

  /** No later column of the row cleans to the same key as column `i`. */
  predicate LastWithKey(pairs: seq<(string, string)>, i: nat)
    requires i < |pairs|
  {
    forall j :: i < j < |pairs| ==> CleanKey(pairs[j].0) != CleanKey(pairs[i].0)
  }

  /** Cleaned keys carry no BOM and no surrounding whitespace; each value is the
      cell of the last column whose name cleans to that key, unchanged. */
  lemma {:induction false} CleanRowFaithful(pairs: seq<(string, string)>)
    ensures forall k :: k in CleanRow(pairs) ==>
      (forall i :: 0 <= i < |k| ==> k[i] != Bom) && (|k| == 0 || (!IsSpace(k[0]) && !IsSpace(k[|k| - 1])))
    ensures forall i :: 0 <= i < |pairs| && LastWithKey(pairs, i) ==>
      CleanRow(pairs)[CleanKey(pairs[i].0)] == pairs[i].1
  {
    forall k | k in CleanRow(pairs) ensures CleanName(k) {
      var i :| 0 <= i < |pairs| && CleanKey(pairs[i].0) == k;
    }
    CleanRowLastWins(pairs);
  }

  /** Each value of the cleaned row is the cell of the last column with that key. */
  lemma {:induction false} CleanRowLastWins(pairs: seq<(string, string)>)
    ensures forall i :: 0 <= i < |pairs| && LastWithKey(pairs, i) ==>
      CleanRow(pairs)[CleanKey(pairs[i].0)] == pairs[i].1
  {
    if |pairs| > 0 {
      var prev := pairs[..|pairs| - 1];
      CleanRowLastWins(prev);
      forall i | 0 <= i < |pairs| && LastWithKey(pairs, i)
        ensures CleanRow(pairs)[CleanKey(pairs[i].0)] == pairs[i].1
      {
        if i < |pairs| - 1 {
          assert prev[i] == pairs[i];
          forall j | i < j < |prev| ensures CleanKey(prev[j].0) != CleanKey(prev[i].0) {
            assert prev[j] == pairs[j];
          }
          assert LastWithKey(prev, i);
        }
      }
    }
  }

  // ---------------------------------------------------------------------------
  // Row filter
  // ---------------------------------------------------------------------------

  /** `row.get(key, '')`. */
  function Cell(row: Row, key: string): string {
    if key in row then row[key] else ""
  }

  /** True for rows the chunker skips. */
  predicate Excluded(row: Row) {
    Cell(row, "Space Name") in ExcludedSpaces
  }

  /** Original indices `>= start` of the rows that are kept, in increasing order. */
  function KeptFrom(rows: seq<Row>, start: nat): (ks: seq<nat>)
    decreases |rows| - start
  {
    if start >= |rows| then []
    else if Excluded(rows[start]) then KeptFrom(rows, start + 1)
    else [start] + KeptFrom(rows, start + 1)
  }

  /** Number of rows at index `>= start` that are skipped. */
  function ExcludedFrom(rows: seq<Row>, start: nat): nat
    decreases |rows| - start
  {
    if start >= |rows| then 0
    else (if Excluded(rows[start]) then 1 else 0) + ExcludedFrom(rows, start + 1)
  }

  /** The kept indices are exactly the non-skipped rows from `start` on, strictly
      increasing, and together with the skipped ones they account for every row. */
  lemma {:induction false} KeptFromSpec(rows: seq<Row>, start: nat)
    requires start <= |rows|
    ensures var ks := KeptFrom(rows, start);
      && (forall j :: 0 <= j < |ks| ==> start <= ks[j] < |rows| && !Excluded(rows[ks[j]]))
      && (forall j, l :: 0 <= j < l < |ks| ==> ks[j] < ks[l])
      && (forall i :: start <= i < |rows| && !Excluded(rows[i]) ==> i in ks)
      && |ks| + ExcludedFrom(rows, start) == |rows| - start
    decreases |rows| - start
  {
    if start < |rows| {
      KeptFromSpec(rows, start + 1);
    }
  }

  // ---------------------------------------------------------------------------
  // Content, header and metadata assembly
  // ---------------------------------------------------------------------------

  /** One labelled line of the content or header: printed as `caption + value` when shown. */
  datatype Field = Field(shown: bool, caption: string, value: string)

  /** The printed lines of the shown fields, in field order. */
  function Render(fs: seq<Field>): (lines: seq<string>)
    ensures |lines| <= |fs|
  {
    if |fs| == 0 then []
    else (if fs[0].shown then [fs[0].caption + fs[0].value] else []) + Render(fs[1..])
  }

  /** A line is printed exactly when some shown field prints it. */
  lemma {:induction false} RenderMember(fs: seq<Field>, x: string)
    ensures x in Render(fs) <==> exists i :: 0 <= i < |fs| && fs[i].shown && fs[i].caption + fs[i].value == x
  {
    if |fs| > 0 {
      RenderMember(fs[1..], x);
      if x in Render(fs[1..]) {
        var i :| 1 <= i + 1 < |fs| && fs[1..][i].shown && fs[1..][i].caption + fs[1..][i].value == x;
        assert fs[i + 1] == fs[1..][i];
      }
      forall i | 1 <= i < |fs| && fs[i].shown && fs[i].caption + fs[i].value == x
        ensures x in Render(fs[1..])
      {
        assert fs[1..][i - 1] == fs[i];
      }
    }
  }

  /** Fields whose captions are non-empty print only non-empty lines. */
  lemma {:induction false} RenderNonEmpty(fs: seq<Field>)
    requires forall i :: 0 <= i < |fs| ==> fs[i].caption != ""
    ensures forall x :: x in Render(fs) ==> x != ""
  {
    forall x | x in Render(fs) ensures x != "" {
      RenderMember(fs, x);
    }
  }

  /** When field `k`'s caption differs from every other caption at position `d`, the line
      `caption_k + v` is printed exactly when field `k` is shown with value `v`. */
  lemma RenderDistinctLabel(fs: seq<Field>, k: nat, d: nat, v: string)
    requires k < |fs| && d < |fs[k].caption|
    requires forall i :: 0 <= i < |fs| && i != k ==> d < |fs[i].caption| && fs[i].caption[d] != fs[k].caption[d]
    ensures fs[k].caption + v in Render(fs) <==> fs[k].shown && fs[k].value == v
  {
    var x := fs[k].caption + v;
    RenderMember(fs, x);
    if x in Render(fs) {
      var i :| 0 <= i < |fs| && fs[i].shown && fs[i].caption + fs[i].value == x;
      assert (fs[i].caption + fs[i].value)[d] == fs[i].caption[d];
      assert x[d] == fs[k].caption[d];
      assert fs[k].caption + fs[k].value == fs[k].caption + v;
      assert fs[k].value == (fs[k].caption + fs[k].value)[|fs[k].caption|..];
      assert v == x[|fs[k].caption|..];
    }
  }

  predicate HasText(s: string) {
    Strip(s) != ""
  }

  predicate ShowsParent(row: Row) {
    HasText(Cell(row, "Parent ID")) && Cell(row, "Parent ID") != "null"
  }

  predicate ShowsTags(row: Row) {
    Cell(row, "Tags") != "" && Cell(row, "Tags") != "[]"
  }

  predicate ShowsAssignees(row: Row) {
    Cell(row, "Assignees") != "" && Cell(row, "Assignees") != "[]"
  }

  predicate HasBody(row: Row) {
    Cell(row, "Task Content") != ""
  }

  predicate HasComments(row: Row) {
    Cell(row, "Comments") != "" && Cell(row, "Comments") != "[]"
  }

  /** The "작업 정보" block: the title followed by the labelled task fields. */
  function InfoFields(row: Row): seq<Field> {
    [ Field(true, InfoTitle, ""),
      Field(HasText(Cell(row, "Task ID")), "작업ID: ", Cell(row, "Task ID")),
      Field(HasText(Cell(row, "Task Name")), "작업명: ", Strip(Cell(row, "Task Name"))),
      Field(ShowsParent(row), "상위작업ID: ", Cell(row, "Parent ID")),
      Field(Cell(row, "List Name") != "", "리스트: ", Cell(row, "List Name")),
      Field(Cell(row, "Folder Name") != "", "폴더: ", Cell(row, "Folder Name")),
      Field(Cell(row, "Space Name") != "", "스페이스: ", Cell(row, "Space Name")),
      Field(ShowsTags(row), "태그: ", Cell(row, "Tags")),
      Field(ShowsAssignees(row), "담당자: ", Cell(row, "Assignees")),
      Field(HasText(Cell(row, "Date Created Text")), "생성일: ", Cell(row, "Date Created Text")) ]
  }

  function InfoLines(row: Row): seq<string> {
    Render(InfoFields(row))
  }

  function BodySection(row: Row): seq<string> {
    if HasBody(row) then ["", BodyTitle, Cell(row, "Task Content")] else []
  }

  function CommentSection(row: Row): seq<string> {
    if HasComments(row) then ["", CommentTitle, "댓글: " + Cell(row, "Comments")] else []
  }

  /** The lines that are joined with "\n" into `page_content`. */
  function ContentParts(row: Row): seq<string> {
    InfoLines(row) + BodySection(row) + CommentSection(row)
  }

  function PageContent(row: Row): string {
    Join(ContentParts(row), "\n")
  }

  /** The parts that are joined with ", " into the `header` metadata string. */
  function HeaderFields(filename: string, row: Row): seq<Field> {
    [ Field(true, "Source: ", filename),
      Field(HasText(Cell(row, "Task ID")), "TaskID: ", Cell(row, "Task ID")),
      Field(Cell(row, "Parent ID") != "", "ParentID: ", Cell(row, "Parent ID")),
      Field(Cell(row, "Tags") != "", "Tags: ", Cell(row, "Tags")),
      Field(Cell(row, "List Name") != "", "ListName: ", Cell(row, "List Name")),
      Field(Cell(row, "Folder Name") != "", "FolderName: ", Cell(row, "Folder Name")),
      Field(Cell(row, "Space Name") != "", "SpaceName: ", Cell(row, "Space Name")),
      Field(Cell(row, "Comments") != "", "Comments: ", Cell(row, "Comments")),
      Field(Cell(row, "Date Created Text") != "", "DateCreated: ", Cell(row, "Date Created Text")) ]
  }

  function HeaderParts(filename: string, row: Row): seq<string> {
    Render(HeaderFields(filename, row))
  }

  function Header(filename: string, row: Row): string {
    Join(HeaderParts(filename, row), ", ")
  }

  /** `<filename>_<n>`. */
  function ChunkId(filename: string, n: nat): string {
    filename + "_" + NatToString(n)
  }

  /** The chunk for the row at original index `idx`, the `processed`-th kept row of its file. */
  function MakeChunk(filename: string, row: Row, idx: nat, processed: nat): CsvChunk {
    var taskName := Cell(row, "Task Name");
    CsvChunk(
      PageContent(row),
      ChunkMetadata(
        source := filename,
        chunkId := ChunkId(filename, processed + 1),
        rowNumber := idx + 1,
        taskId := Cell(row, "Task ID"),
        taskName := if taskName != "" then Strip(taskName) else "",
        listName := Cell(row, "List Name"),
        folderName := Cell(row, "Folder Name"),
        spaceName := Cell(row, "Space Name"),
        dateCreated := Cell(row, "Date Created Text"),
        header := Header(filename, row)))
  }

  // ---------------------------------------------------------------------------
  // The chunking loop
  // ---------------------------------------------------------------------------

  /** The inner loop of `chunk_csv_files` from row `start` on, with `processed`
      chunks already emitted for this file; `build` turns a kept row, its original
      index and the number of chunks before it into a chunk. */
  function ChunkRowsFrom(build: (Row, nat, nat) -> CsvChunk, rows: seq<Row>, start: nat, processed: nat): seq<CsvChunk>
    decreases |rows| - start
  {
    if start >= |rows| then []
    else if Excluded(rows[start]) then ChunkRowsFrom(build, rows, start + 1, processed)
    else [build(rows[start], start, processed)] + ChunkRowsFrom(build, rows, start + 1, processed + 1)
  }

  /** The row builder of one file. */
  function Builder(filename: string): (Row, nat, nat) -> CsvChunk {
    (row: Row, idx: nat, processed: nat) => MakeChunk(filename, row, idx, processed)
  }

  /** The chunks of one file. */
  function FileChunks(f: CsvFile): seq<CsvChunk> {
    ChunkRowsFrom(Builder(f.filename), f.rows, 0, 0)
  }

  /** `chunk_csv_files`: the chunks of every file, file after file (a `None` list is
      represented by the empty sequence). */
  function ChunkCsvFiles(files: seq<CsvFile>): seq<CsvChunk> {
    if |files| == 0 then [] else FileChunks(files[0]) + ChunkCsvFiles(files[1..])
  }

  // ---------------------------------------------------------------------------
  // Properties
  // ---------------------------------------------------------------------------

  /** The `j`-th chunk emitted from row `start` on is built from the `j`-th kept row,
      with `processed + j` chunks before it. */
  lemma {:induction false} ChunkRowsFromSpec(build: (Row, nat, nat) -> CsvChunk, rows: seq<Row>, start: nat, processed: nat)
    requires start <= |rows|
    ensures var cs := ChunkRowsFrom(build, rows, start, processed);
      var ks := KeptFrom(rows, start);
      && |cs| == |ks|
      && (forall j :: 0 <= j < |ks| ==> ks[j] < |rows|)
      && (forall j :: 0 <= j < |cs| ==> cs[j] == build(rows[ks[j]], ks[j], processed + j))
    decreases |rows| - start
  {
    if start < |rows| {
      if Excluded(rows[start]) {
        ChunkRowsFromSpec(build, rows, start + 1, processed);
      } else {
        var rest := ChunkRowsFrom(build, rows, start + 1, processed + 1);
        var ks' := KeptFrom(rows, start + 1);
        ChunkRowsFromSpec(build, rows, start + 1, processed + 1);
        var cs := ChunkRowsFrom(build, rows, start, processed);
        var ks := KeptFrom(rows, start);
        assert cs == [build(rows[start], start, processed)] + rest;
        assert ks == [start] + ks';
        forall j | 0 < j < |cs|
          ensures cs[j] == build(rows[ks[j]], ks[j], processed + j)
        {
          assert cs[j] == rest[j - 1];
          assert ks[j] == ks'[j - 1];
        }
      }
    }
  }

  /** Per file: one chunk per kept row, in row order; the `j`-th chunk is numbered
      `<filename>_<j+1>` and carries `row_number` = original index + 1; no skipped
      row contributes, and emitted + skipped = rows. */
  lemma FileChunksSpec(f: CsvFile)
    ensures var cs := FileChunks(f);
      var ks := KeptFrom(f.rows, 0);
      && |cs| + ExcludedFrom(f.rows, 0) == |f.rows|
      && |cs| == |ks|
      && (forall j :: 0 <= j < |ks| ==> ks[j] < |f.rows|)
      && (forall j :: 0 <= j < |cs| ==>
            && cs[j] == MakeChunk(f.filename, f.rows[ks[j]], ks[j], j)
            && cs[j].metadata.chunkId == f.filename + "_" + NatToString(j + 1)
            && cs[j].metadata.rowNumber == ks[j] + 1
            && cs[j].metadata.source == f.filename
            && cs[j].metadata.spaceName !in ExcludedSpaces)
      && (forall j, l :: 0 <= j < l < |cs| ==> cs[j].metadata.rowNumber < cs[l].metadata.rowNumber)
  {
    ChunkRowsFromSpec(Builder(f.filename), f.rows, 0, 0);
    KeptFromSpec(f.rows, 0);
  }

  /** The `j`-th chunk of a file is numbered `<filename>_<j+1>`. */
  lemma ChunkIdAt(f: CsvFile, j: nat)
    requires j < |FileChunks(f)|
    ensures FileChunks(f)[j].metadata.chunkId == f.filename + "_" + NatToString(j + 1)
  {
    FileChunksSpec(f);
  }

  /** Chunk ids within a file are pairwise distinct. */
  lemma ChunkIdsDistinct(f: CsvFile, j: nat, l: nat)
    requires j < l < |FileChunks(f)|
    ensures FileChunks(f)[j].metadata.chunkId != FileChunks(f)[l].metadata.chunkId
  {
    ChunkIdAt(f, j);
    ChunkIdAt(f, l);
    var cs := FileChunks(f);
    if cs[j].metadata.chunkId == cs[l].metadata.chunkId {
      var p := f.filename + "_";
      assert p + NatToString(j + 1) == p + NatToString(l + 1);
      assert NatToString(j + 1) == (p + NatToString(j + 1))[|p|..];
      assert NatToString(l + 1) == (p + NatToString(l + 1))[|p|..];
      NatToStringInjective(j + 1, l + 1);
    }
  }

  /** The chunks of each file, one entry per file. */
  function PerFile(files: seq<CsvFile>): (per: seq<seq<CsvChunk>>)
    ensures |per| == |files|
    ensures forall i :: 0 <= i < |files| ==> per[i] == FileChunks(files[i])
  {
    seq(|files|, i requires 0 <= i < |files| => FileChunks(files[i]))
  }

  /** The output is every file's chunks in file order: chunk `j` of file `i` sits at
      position `Offset(PerFile(files), i) + j`. */
  lemma ChunkCsvFilesAt(files: seq<CsvFile>, i: nat, j: nat)
    requires i < |files| && j < |FileChunks(files[i])|
    ensures Offset(PerFile(files), i) + j < |ChunkCsvFiles(files)|
    ensures ChunkCsvFiles(files)[Offset(PerFile(files), i) + j] == FileChunks(files[i])[j]
  {
    ChunkCsvFilesIsConcat(files);
    ConcatAt(PerFile(files), i, j);
  }

  /** Nothing else is emitted: the output is exactly as long as all files' chunks. */
  lemma ChunkCsvFilesLength(files: seq<CsvFile>)
    ensures |ChunkCsvFiles(files)| == Offset(PerFile(files), |files|)
  {
    ChunkCsvFilesIsConcat(files);
    ConcatLength(PerFile(files));
  }

  /** `chunk_csv_files` is the flattening of the per-file chunk lists. */
  lemma {:induction false} ChunkCsvFilesIsConcat(files: seq<CsvFile>)
    ensures ChunkCsvFiles(files) == Concat(PerFile(files))
  {
    if |files| > 0 {
      ChunkCsvFilesIsConcat(files[1..]);
      assert PerFile(files)[1..] == PerFile(files[1..]);
    }
  }

  /** With no files (or a `None` list) nothing is emitted; more generally, the
      output is empty exactly when every row of every file is skipped. */
  lemma {:induction false} NoFilesNoChunks(files: seq<CsvFile>)
    ensures ChunkCsvFiles([]) == []
    ensures ChunkCsvFiles(files) == [] <==>
      forall i :: 0 <= i < |files| ==> ExcludedFrom(files[i].rows, 0) == |files[i].rows|
  {
    if |files| > 0 {
      FileChunksSpec(files[0]);
      NoFilesNoChunks(files[1..]);
      assert forall i :: 1 <= i < |files| ==> files[1..][i - 1] == files[i];
    }
  }

  /** `page_content` always opens with the "작업 정보" title; the body section, when
      present, follows the info block directly and the comment section, when present,
      closes the content; the info block holds no blank line, so the blank line before
      each optional section marks where that section begins. */
  lemma PageLayout(row: Row)
    ensures StartsWith(PageContent(row), InfoTitle)
    ensures var parts := ContentParts(row);
      var n := |InfoLines(row)|;
      && (forall i :: 0 <= i < n ==> parts[i] != "")
      && |parts| == n + (if HasBody(row) then 3 else 0) + (if HasComments(row) then 3 else 0)
      && (HasBody(row) ==> parts[n..n + 3] == ["", BodyTitle, Cell(row, "Task Content")])
      && (HasComments(row) ==> parts[|parts| - 3..] == ["", CommentTitle, "댓글: " + Cell(row, "Comments")])
  {
    var fs := InfoFields(row);
    assert Render(fs) == [InfoTitle + ""] + Render(fs[1..]);
    assert InfoTitle + "" == InfoTitle;
    JoinStartsWith(ContentParts(row), "\n");
    RenderNonEmpty(fs);
    var parts := ContentParts(row);
    forall i | 0 <= i < |InfoLines(row)| ensures parts[i] != "" {
      assert parts[i] == InfoLines(row)[i];
      assert InfoLines(row)[i] in Render(fs);
    }
  }

  /** In the info block a Parent ID is omitted when blank or "null", Tags and
      Assignees when empty or "[]". */
  lemma InfoOmissions(row: Row)
    ensures ("상위작업ID: " + Cell(row, "Parent ID") in InfoLines(row)) <==> ShowsParent(row)
    ensures ("태그: " + Cell(row, "Tags") in InfoLines(row)) <==> ShowsTags(row)
    ensures ("담당자: " + Cell(row, "Assignees") in InfoLines(row)) <==> ShowsAssignees(row)
  {
    InfoOmitsParent(row);
    InfoOmitsTags(row);
    InfoOmitsAssignees(row);
  }

  lemma InfoOmitsParent(row: Row)
    ensures ("상위작업ID: " + Cell(row, "Parent ID") in InfoLines(row)) <==> ShowsParent(row)
  {
    RenderDistinctLabel(InfoFields(row), 3, 0, Cell(row, "Parent ID"));
  }

  lemma InfoOmitsTags(row: Row)
    ensures ("태그: " + Cell(row, "Tags") in InfoLines(row)) <==> ShowsTags(row)
  {
    RenderDistinctLabel(InfoFields(row), 7, 0, Cell(row, "Tags"));
  }

  lemma InfoOmitsAssignees(row: Row)
    ensures ("담당자: " + Cell(row, "Assignees") in InfoLines(row)) <==> ShowsAssignees(row)
  {
    RenderDistinctLabel(InfoFields(row), 8, 0, Cell(row, "Assignees"));
  }

  /** The header starts with "Source: <filename>" and, unlike the content, keeps any
      non-empty Parent ID, Tags and Comments, "null" and "[]" included. */
  lemma HeaderInclusions(filename: string, row: Row)
    ensures StartsWith(Header(filename, row), "Source: " + filename)
    ensures ("ParentID: " + Cell(row, "Parent ID") in HeaderParts(filename, row)) <==> Cell(row, "Parent ID") != ""
    ensures ("Tags: " + Cell(row, "Tags") in HeaderParts(filename, row)) <==> Cell(row, "Tags") != ""
    ensures ("Comments: " + Cell(row, "Comments") in HeaderParts(filename, row)) <==> Cell(row, "Comments") != ""
  {
    HeaderStartsWithSource(filename, row);
    HeaderKeepsParent(filename, row);
    HeaderKeepsTags(filename, row);
    HeaderKeepsComments(filename, row);
  }

  lemma HeaderStartsWithSource(filename: string, row: Row)
    ensures StartsWith(Header(filename, row), "Source: " + filename)
  {
    var fs := HeaderFields(filename, row);
    assert Render(fs) == ["Source: " + filename] + Render(fs[1..]);
    JoinStartsWith(HeaderParts(filename, row), ", ");
  }

  lemma HeaderKeepsParent(filename: string, row: Row)
    ensures ("ParentID: " + Cell(row, "Parent ID") in HeaderParts(filename, row)) <==> Cell(row, "Parent ID") != ""
  {
    RenderDistinctLabel(HeaderFields(filename, row), 2, 0, Cell(row, "Parent ID"));
  }

  lemma HeaderKeepsTags(filename: string, row: Row)
    ensures ("Tags: " + Cell(row, "Tags") in HeaderParts(filename, row)) <==> Cell(row, "Tags") != ""
  {
    RenderDistinctLabel(HeaderFields(filename, row), 3, 2, Cell(row, "Tags"));
  }

  lemma HeaderKeepsComments(filename: string, row: Row)
    ensures ("Comments: " + Cell(row, "Comments") in HeaderParts(filename, row)) <==> Cell(row, "Comments") != ""
  {
    RenderDistinctLabel(HeaderFields(filename, row), 7, 0, Cell(row, "Comments"));
  }
}
