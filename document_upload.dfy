/**
 * components/ui/document-upload.tsx: the text chunker used before storing a
 * document's text, the default document name and storage path derived from
 * the chosen file, and the form's state (drag highlight, selected file,
 * name, type, access level, uploading flag).
 *
 * The clock (`Date.now()`) and the file's text (`file.text()`) are
 * parameters; storage, auth and database calls are left to the caller.
 */
module DocumentUpload {
  import opened Common

  /** The chunk size `processDocumentForEmbedding` passes to `chunkText`. */
  const ChunkSize: nat := 1000

  // ---------------------------------------------------------------------------
  // chunkText

  /** The chunks of `text`: consecutive slices of `n` characters, the last one shorter. */
  function Chunks(text: string, n: nat): (cs: seq<string>)
    requires n > 0
    ensures forall k :: 0 <= k < |cs| ==> 0 < |cs[k]| <= n
    ensures forall k :: 0 <= k < |cs| - 1 ==> |cs[k]| == n
    ensures text == [] <==> cs == []
    decreases |text|
  {
    if text == [] then []
    else if |text| <= n then [text]
    else [text[..n]] + Chunks(text[n..], n)
  }

  /** `chunks.join('')` */
  function Concat(cs: seq<string>): string
  {
    if cs == [] then "" else cs[0] + Concat(cs[1..])
  }

  /** Joining the chunks in order gives back the text exactly. */
  lemma {:induction false} ChunksConcat(text: string, n: nat)
    requires n > 0
    ensures Concat(Chunks(text, n)) == text
    decreases |text|
  {
    if text != [] && |text| > n {
      var cs := Chunks(text, n);
      ChunksConcat(text[n..], n);
      assert cs[0] == text[..n] && cs[1..] == Chunks(text[n..], n);
      assert text == text[..n] + text[n..];
    } else if text != [] {
      assert Chunks(text, n)[1..] == [];
    }
  }

  /** There are ceil(|text| / n) chunks: the fewest slices of n that cover the text. */
  lemma {:induction false} ChunkCount(text: string, n: nat)
    requires n > 0
    ensures |text| <= |Chunks(text, n)| * n < |text| + n
    decreases |text|
  {
    if text != [] && |text| > n {
      var k := |Chunks(text[n..], n)|;
      ChunkCount(text[n..], n);
      assert |Chunks(text, n)| == k + 1;
      assert (k + 1) * n == k * n + n;
    }
  }

  /**
   * `chunkText(text, chunkSize)`: the source's loop, which slices from every
   * multiple of `chunkSize` below the length (the last slice is clamped to the
   * end of the text). `chunkSize` must be positive: with 0 the loop never ends.
   */
  method ChunkText(text: string, chunkSize: nat) returns (chunks: seq<string>)
    requires chunkSize > 0
    ensures chunks == Chunks(text, chunkSize)
    ensures Concat(chunks) == text
    ensures |text| <= |chunks| * chunkSize < |text| + chunkSize
  {
    chunks := [];
    var i := 0;
    while i < |text|
      invariant i <= |text| ==> chunks + Chunks(text[i..], chunkSize) == Chunks(text, chunkSize)
      invariant i > |text| ==> chunks == Chunks(text, chunkSize)
      decreases |text| - i
    {
      var end := if i + chunkSize <= |text| then i + chunkSize else |text|;
      var rest := text[i..];
      var piece := text[i..end];
      if |rest| > chunkSize {
        assert rest[..chunkSize] == piece && rest[chunkSize..] == text[end..];
        assert Chunks(rest, chunkSize) == [piece] + Chunks(text[end..], chunkSize);
        assert chunks + [piece] + Chunks(text[end..], chunkSize) == Chunks(text, chunkSize);
      } else {
        assert rest == piece;
        assert Chunks(rest, chunkSize) == [piece];
        assert end == |text| && text[end..] == [];
      }
      chunks := chunks + [piece];
      i := i + chunkSize;
    }
    if i == |text| {
      assert text[i..] == [];
    }
    ChunksConcat(text, chunkSize);
    ChunkCount(text, chunkSize);
  }

  datatype ChunkRow = ChunkRow(documentId: string, content: string, chunkIndex: nat)

  /** `chunks.map((chunk, index) => ({ document_id, content: chunk, chunk_index: index }))` */
  function ChunkRows(documentId: string, chunks: seq<string>): (rows: seq<ChunkRow>)
    ensures |rows| == |chunks|
    ensures forall k :: 0 <= k < |rows| ==> rows[k].chunkIndex == k && rows[k].content == chunks[k] && rows[k].documentId == documentId
  {
    seq(|chunks|, k requires 0 <= k < |chunks| => ChunkRow(documentId, chunks[k], k))
  }

  /** Only text and PDF files are chunked: the MIME type includes "text" or "pdf". */
  predicate ShouldChunk(mimeType: string)
  {
    Contains(mimeType, "text") || Contains(mimeType, "pdf")
  }

  // ---------------------------------------------------------------------------
  // Names and paths

  /** A non-empty run of characters with no "." and no "/": what `[^/.]+` matches. */
  predicate IsExtension(ext: string)
  {
    |ext| > 0 && '.' !in ext && '/' !in ext
  }

  /** The name ends in "." plus an extension, the pattern `/\.[^/.]+$/`. */
  predicate EndsWithExtension(name: string)
  {
    exists k :: 0 <= k < |name| && name[k] == '.' && IsExtension(name[k + 1..])
  }

  /**
   * `file.name.replace(/\.[^/.]+$/, '')`: the default document name, which is
   * the file name without its final extension.
   */
  function DefaultName(fileName: string): (r: string)
    ensures EndsWithExtension(fileName) ==>
              |r| < |fileName| && r == fileName[..|r|] && fileName[|r|] == '.' && IsExtension(fileName[|r| + 1..])
    ensures !EndsWithExtension(fileName) ==> r == fileName
  {
    match LastIndexOf(fileName, '.')
    case None => fileName
    case Some(k) =>
      var ext := fileName[k + 1..];
      if IsExtension(ext) then
        fileName[..k]
      else
        assert !EndsWithExtension(fileName) by {
          forall j | 0 <= j < |fileName| && fileName[j] == '.' ensures !IsExtension(fileName[j + 1..]) {
            if j < k {
              assert fileName[j + 1..][k - j - 1] == '.';
            }
          }
        }
        fileName
  }

  /** `file.name.split('.').pop()`: the text after the last ".", or the whole name. */
  function FileExt(fileName: string): (ext: string)
    ensures '.' !in ext
    ensures '.' in fileName ==> |ext| < |fileName| && fileName == fileName[..|fileName| - |ext| - 1] + "." + ext
    ensures '.' !in fileName ==> ext == fileName
  {
    AfterLast(fileName, '.')
  }

  /** `${companyId}/${Date.now()}.${fileExt}`: the object's path inside the documents bucket. */
  function StoragePath(companyId: string, now: nat, fileName: string): (path: string)
    ensures path == companyId + "/" + NatToString(now) + "." + FileExt(fileName)
    ensures '/' in path
  {
    var path := companyId + "/" + NatToString(now) + "." + FileExt(fileName);
    assert path[|companyId|] == '/';
    path
  }

  // ---------------------------------------------------------------------------
  // The form

  datatype FileInfo = FileInfo(name: string, size: nat, mimeType: string)

  /** What an upload sends: the storage path, the metadata row's fields and the text chunks. */
  datatype UploadAttempt = UploadAttempt(
    path: string,
    name: string,
    docType: string,
    accessLevel: string,
    fileSize: nat,
    chunks: seq<string>)

  /** The chunks stored for a file: those of its text when it is a text or PDF file, none otherwise. */
  function ChunksFor(file: FileInfo, fileText: string): seq<string>
  {
    if ShouldChunk(file.mimeType) then Chunks(fileText, ChunkSize) else []
  }

  /** The upload of `file` under the form's name, type and access level at time `now`. */
  function AttemptFor(companyId: string, now: nat, fileText: string, file: FileInfo,
                      name: string, docType: string, accessLevel: string): (a: UploadAttempt)
    ensures a.path == StoragePath(companyId, now, file.name)
    ensures Concat(a.chunks) == (if ShouldChunk(file.mimeType) then fileText else "")
  {
    ChunksConcat(fileText, ChunkSize);
    UploadAttempt(StoragePath(companyId, now, file.name), name, docType, accessLevel, file.size,
                  ChunksFor(file, fileText))
  }

  class UploadForm {
    var dragActive: bool
    var uploading: bool
    var selectedFile: Option<FileInfo>
    var documentType: string
    var accessLevel: string
    var documentName: string

    /** The form's defaults. */
    predicate IsReset()
      reads this
    {
      selectedFile.None? && documentName == "" && documentType == "pitch_deck" && accessLevel == "investors"
    }

    constructor ()
      ensures IsReset() && !dragActive && !uploading
    {
      dragActive := false;
      uploading := false;
      selectedFile := None;
      documentType := "pitch_deck";
      accessLevel := "investors";
      documentName := "";
    }

    /** `handleDrag`: enter and over light the drop zone, leave darkens it, anything else is ignored. */
    method HandleDrag(eventType: string)
      modifies this`dragActive
      ensures eventType == "dragenter" || eventType == "dragover" ==> dragActive
      ensures eventType == "dragleave" ==> !dragActive
      ensures eventType !in {"dragenter", "dragover", "dragleave"} ==> dragActive == old(dragActive)
    {
      if eventType == "dragenter" || eventType == "dragover" {
        dragActive := true;
      } else if eventType == "dragleave" {
        dragActive := false;
      }
    }

    /** Selecting a file; the name field is filled from it only while empty. */
    method Select(files: seq<FileInfo>)
      modifies this`selectedFile, this`documentName
      ensures |files| == 0 ==> selectedFile == old(selectedFile) && documentName == old(documentName)
      ensures |files| > 0 ==> selectedFile == Some(files[0])
      ensures |files| > 0 && old(documentName) == "" ==> documentName == DefaultName(files[0].name)
      ensures old(documentName) != "" ==> documentName == old(documentName)
    {
      if |files| > 0 {
        var file := files[0];
        selectedFile := Some(file);
        if documentName == "" {
          documentName := DefaultName(file.name);
        }
      }
    }

    /** `handleDrop`: the highlight goes off, then the first dropped file is selected. */
    method HandleDrop(files: seq<FileInfo>)
      modifies this`dragActive, this`selectedFile, this`documentName
      ensures !dragActive
      ensures |files| > 0 ==> selectedFile == Some(files[0])
      ensures |files| > 0 && old(documentName) == "" ==> documentName == DefaultName(files[0].name)
      ensures |files| == 0 || old(documentName) != "" ==> documentName == old(documentName)
      ensures |files| == 0 ==> selectedFile == old(selectedFile)
    {
      dragActive := false;
      Select(files);
    }

    /** `handleFileSelect`: the file input's change. */
    method HandleFileSelect(files: seq<FileInfo>)
      modifies this`selectedFile, this`documentName
      ensures |files| > 0 ==> selectedFile == Some(files[0])
      ensures |files| > 0 && old(documentName) == "" ==> documentName == DefaultName(files[0].name)
      ensures |files| == 0 || old(documentName) != "" ==> documentName == old(documentName)
      ensures |files| == 0 ==> selectedFile == old(selectedFile)
    {
      Select(files);
    }

    method SetDocumentName(name: string)
      modifies this`documentName
      ensures documentName == name
    {
      documentName := name;
    }

    method SetDocumentType(t: string)
      modifies this`documentType
      ensures documentType == t
    {
      documentType := t;
    }

    method SetAccessLevel(level: string)
      modifies this`accessLevel
      ensures accessLevel == level
    {
      accessLevel := level;
    }

    /** The upload button is disabled while uploading or while the name is empty. */
    predicate UploadDisabled()
      reads this
    {
      uploading || documentName == ""
    }

    /**
     * `uploadDocument`. Without a selected file or with an empty name nothing
     * happens. Otherwise the attempt is described in the order the calls are
     * made: the storage upload to the path, the row insert with the form's
     * fields, and, only once both of those succeed, the embedding of the
     * chunks of a text or PDF file. `succeeded` says whether the calls
     * succeeded; when they did the form returns to its defaults. Either way
     * the uploading flag ends off.
     * `now` is `Date.now()`, `fileText` is `file.text()`.
     */
    method UploadDocument(companyId: string, now: nat, fileText: string, succeeded: bool)
      returns (attempt: Option<UploadAttempt>)
      modifies this
      ensures attempt.None? <==> old(selectedFile).None? || old(documentName) == ""
      ensures attempt.Some? ==>
                attempt.value == AttemptFor(companyId, now, fileText, old(selectedFile).value,
                                            old(documentName), old(documentType), old(accessLevel))
      ensures attempt.None? ==> uploading == old(uploading)
      ensures attempt.Some? ==> !uploading
      ensures dragActive == old(dragActive)
      ensures attempt.Some? && succeeded ==> IsReset()
      ensures attempt.None? || !succeeded ==>
                selectedFile == old(selectedFile) && documentName == old(documentName) &&
                documentType == old(documentType) && accessLevel == old(accessLevel)
    {
      if selectedFile.None? || documentName == "" {
        return None;
      }
      uploading := true;
      var file := selectedFile.value;
      var path := StoragePath(companyId, now, file.name);
      var chunks: seq<string> := [];
      if ShouldChunk(file.mimeType) {
        chunks := ChunkText(fileText, ChunkSize);
      }
      assert chunks == ChunksFor(file, fileText);
      attempt := Some(UploadAttempt(path, documentName, documentType, accessLevel, file.size, chunks));
      if succeeded {
        selectedFile := None;
        documentName := "";
        documentType := "pitch_deck";
        accessLevel := "investors";
      }
      uploading := false;
    }
  }
}
