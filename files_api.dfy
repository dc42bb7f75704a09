/** backend/app/api/files.py: uploading a file into a chat's context, listing a
    chat's files and deleting one. The uuid the stored name starts with is the
    parameter `stem`; the document parser is the parameter `extract`. */
module FilesApi {
  import opened Wrappers
  import opened Text
  import opened Models
  import opened Schemas
  import FileService
  import opened Sequences

  const FileNotFound := HttpError(404, "File not found")

  /** `str(e)` for an `HTTPException`: Starlette prints "<status>: <detail>". */
  function ExceptionText(e: HttpError): string
  {
    IntToString(e.status) + ": " + e.detail
  }

  /** The row `upload_file` stores for an upload named `name` whose extracted
      text is `content`. */
  function UploadRecord(id: int, chatId: int, name: string, content: string, stem: string, now: int): FileRow
  {
    FileRow(id, chatId, stem + FileService.Extension(name), name, FileService.GetFileType(name), |content|, content, now)
  }

  /** `upload_file`. Any error of the extraction is rolled back and re-raised
      as a 500 carrying its text; otherwise one row is added. The chat id is
      not checked against the chats table. */
  method UploadFile(db: Database, chatId: int, file: FileService.UploadFile,
                    extract: FileService.Extractor -> Result<string, HttpError>, stem: string, now: int)
    returns (r: Result<FileUploadResponse, HttpError>)
    requires db.Valid() && now >= db.clock
    modifies db, file`position
    ensures db.Valid()
    ensures db.chats == old(db.chats) && db.messages == old(db.messages)
    ensures match FileService.Extraction(file.filename, file.size, extract)
      case Err(e) => r == Err(HttpError(500, ExceptionText(e))) && db.files == old(db.files)
      case Ok(content) =>
        var row := UploadRecord(old(db.nextFileId), chatId, file.filename.value, content, stem, now);
        db.files == old(db.files) + [row] && r == Ok(FileResponse(row))
  {
    var content := FileService.ExtractTextFromFile(file, extract);
    if content.Err? {
      // db.rollback(): nothing was added yet
      return Err(HttpError(500, ExceptionText(content.error)));
    }
    FileService.ExtractionOutcomes(file.filename, file.size, extract);
    var name := file.filename.value;
    var fileExtension := FileService.Extension(name);
    var uniqueFilename := stem + fileExtension;
    var row := db.InsertFile(chatId, uniqueFilename, name, FileService.GetFileType(name), |content.value|,
                             content.value, now);
    r := Ok(FileResponse(row));
  }

  /** `upload_file`'s handler turns every extraction error, the 400s of
      `validate_file` and of an unsupported type included, into a 500 whose
      text starts with the original status: an upload without a name is
      answered 500 "400: No filename provided". */
  lemma ValidationErrorsBecome500(extract: FileService.Extractor -> Result<string, HttpError>)
    ensures FileService.Extraction(None, 0, extract) == Err(HttpError(400, FileService.NoFilenameDetail))
    ensures HttpError(500, ExceptionText(HttpError(400, FileService.NoFilenameDetail)))
         == HttpError(500, "400: " + FileService.NoFilenameDetail)
  {
    assert IntToString(400) == "400" by {
      assert NatToString(4) == "4";
      assert NatToString(40) == NatToString(4) + [Digit(0)];
    }
  }

  /** What the handler evidently means to answer: an `HTTPException` raised
      while extracting passes through as it is. The client is then told 400
      exactly when the upload itself is at fault (no name, a type not
      allowed, too large, or a type without an extractor), and 500 when the
      parser fails. */
  lemma IntendedUploadStatus(filename: Option<string>, size: nat,
                             extract: FileService.Extractor -> Result<string, HttpError>)
    requires forall x :: extract(x).Err? ==> extract(x).error.status == 500
    requires FileService.Extraction(filename, size, extract).Err?
    ensures var e := FileService.Extraction(filename, size, extract).error;
      (e.status == 400 || e.status == 500)
      && (e.status == 400 <==> FileService.Validation(filename, size).Some?
                               || FileService.GetFileType(filename.value) in ["doc", "rtf"])
  {
    FileService.ExtractionOutcomes(filename, size, extract);
    if FileService.Validation(filename, size).None? {
      FileService.AllowedIffKnownType(filename.value);
    }
  }

  /** What is stored for a successful upload: the original name verbatim,
      its type (one of the four extractable ones), the length of the text
      rather than of the upload, and a stored name whose extension, and so
      whose type, is the original's. */
  lemma UploadRecordFaithful(id: int, chatId: int, filename: Option<string>, size: nat,
                             extract: FileService.Extractor -> Result<string, HttpError>, stem: string, now: int)
    requires stem != [] && forall k :: 0 <= k < |stem| ==> stem[k] != '.' && stem[k] != '/'
    requires FileService.Extraction(filename, size, extract).Ok?
    ensures var content := FileService.Extraction(filename, size, extract).value;
      var row := UploadRecord(id, chatId, filename.value, content, stem, now);
      && row.originalFilename == filename.value
      && row.fileType in ["pdf", "docx", "txt", "md"]
      && row.fileSize == |content|
      && FileService.Extension(row.filename) == FileService.Extension(filename.value)
      && FileService.GetFileType(row.filename) == row.fileType
      && size <= FileService.MaxFileSize
  {
    FileService.ExtractionOutcomes(filename, size, extract);
    FileService.StoredNameKeepsExtension(stem, filename.value);
  }

  /** `get_chat_files`: the responses for the chat's files, in table order. */
  function ChatFiles(files: seq<FileRow>, chatId: int): (r: seq<FileUploadResponse>)
    ensures |r| == |FilesOf(files, chatId)|
    ensures forall i :: 0 <= i < |r| ==> r[i] == FileResponse(FilesOf(files, chatId)[i])
  {
    var mine := FilesOf(files, chatId);
    seq(|mine|, i requires 0 <= i < |mine| => FileResponse(mine[i]))
  }

  /** Every file of the chat is listed, and every listed entry is a file of
      the chat. */
  lemma ChatFilesExactly(files: seq<FileRow>, chatId: int)
    ensures forall f :: f in files && f.chatId == chatId ==> FileResponse(f) in ChatFiles(files, chatId)
    ensures forall x :: x in ChatFiles(files, chatId) ==> exists f :: f in files && f.chatId == chatId && x == FileResponse(f)
  {
    var mine := FilesOf(files, chatId);
    var r := ChatFiles(files, chatId);
    forall f | f in files && f.chatId == chatId ensures FileResponse(f) in r {
      var i :| 0 <= i < |mine| && mine[i] == f;
      assert r[i] == FileResponse(f);
    }
    forall x | x in r ensures exists f :: f in files && f.chatId == chatId && x == FileResponse(f) {
      var i :| 0 <= i < |r| && r[i] == x;
      assert mine[i] in mine;
    }
  }

  /** `delete_file`: only a row matching both the file id and the chat id is
      deleted; otherwise 404 and nothing changes. */
  method DeleteFile(db: Database, chatId: int, fileId: int) returns (r: Result<string, HttpError>)
    requires db.Valid()
    modifies db
    ensures db.Valid()
    ensures db.chats == old(db.chats) && db.messages == old(db.messages)
    ensures FindFile(old(db.files), fileId, chatId).None? ==> r == Err(FileNotFound) && db.files == old(db.files)
    ensures FindFile(old(db.files), fileId, chatId).Some? ==>
      r == Ok("File deleted successfully") && db.files == FilesWithoutId(old(db.files), fileId)
  {
    var file := FindFile(db.files, fileId, chatId);
    if file.None? {
      return Err(FileNotFound);
    }
    db.DeleteFile(file.value.id);
    r := Ok("File deleted successfully");
  }

  /** When no other row has the id of row `k`, deleting by that id removes
      exactly row `k` and keeps the others in order. */
  lemma {:induction false} RemovesExactlyOne(files: seq<FileRow>, k: nat)
    requires k < |files|
    requires forall j :: 0 <= j < |files| && j != k ==> files[j].id != files[k].id
    ensures FilesWithoutId(files, files[k].id) == files[..k] + files[k + 1..]
  {
    var id := files[k].id;
    if k == 0 {
      assert forall f :: f in files[1..] ==> f.id != id by {
        forall f | f in files[1..] ensures f.id != id {
          var j :| 0 <= j < |files[1..]| && files[1..][j] == f;
          assert files[j + 1] == f;
        }
      }
      KeepsAllOthers(files[1..], id);
    } else {
      var rest := files[1..];
      assert forall j :: 0 <= j < |rest| && j != k - 1 ==> rest[j].id != rest[k - 1].id by {
        forall j | 0 <= j < |rest| && j != k - 1 ensures rest[j].id != rest[k - 1].id {
          assert rest[j] == files[j + 1] && rest[k - 1] == files[k];
        }
      }
      assert files[0].id != id;
      calc {
        FilesWithoutId(files, id);
        [files[0]] + FilesWithoutId(rest, id);
        { RemovesExactlyOne(rest, k - 1); }
        [files[0]] + (rest[..k - 1] + rest[k..]);
        { assert rest[..k - 1] == files[1..k] && rest[k..] == files[k + 1..]; }
        [files[0]] + (files[1..k] + files[k + 1..]);
        { Associative([files[0]], files[1..k], files[k + 1..]); }
        ([files[0]] + files[1..k]) + files[k + 1..];
        { assert files[..k] == [files[0]] + files[1..k]; }
        files[..k] + files[k + 1..];
      }
    }
  }

  lemma {:induction false} KeepsAllOthers(files: seq<FileRow>, id: int)
    requires forall f :: f in files ==> f.id != id
    ensures FilesWithoutId(files, id) == files
  {
    if files != [] {
      assert files[0] in files;
      assert forall f :: f in files[1..] ==> f in files;
      KeepsAllOthers(files[1..], id);
      assert files == [files[0]] + files[1..];
    }
  }

  /** A successful `delete_file` removes one row, the matched one. */
  lemma DeleteRemovesMatch(files: seq<FileRow>, fileId: int, chatId: int)
    requires FileIdsUnique(files) && FindFile(files, fileId, chatId).Some?
    ensures var f := FindFile(files, fileId, chatId).value;
      exists k :: 0 <= k < |files| && files[k] == f && FilesWithoutId(files, fileId) == files[..k] + files[k + 1..]
    ensures |FilesWithoutId(files, fileId)| == |files| - 1
  {
    var f := FindFile(files, fileId, chatId).value;
    var k :| 0 <= k < |files| && files[k] == f;
    RemovesExactlyOne(files, k);
  }
}
