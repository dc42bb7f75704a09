/** frontend/src/components/FileUpload.js: the client-side filter applied
    before each upload, and the list of uploaded files. Each request to the
    server is a parameter giving its outcome: the stored file, or the text
    of the error. */
module FileUpload {
  import opened Wrappers
  import opened Text
  import opened Schemas
  import FileService
  import opened Sequences

  /** `allowedTypes`: the MIME types the picker sends on. */
  const AllowedTypes := ["application/pdf",
                         "application/vnd.openxmlformats-officedocument.wordprocessingml.document",
                         "application/msword", "text/plain", "text/markdown", "application/rtf"]

  /** 10MB. */
  const MaxUploadSize := 10 * 1024 * 1024

  /** A file the user dropped or picked: its name, the MIME type the browser
      gives it, and its size in bytes. */
  datatype PickedFile = PickedFile(name: string, mimeType: string, size: nat)

  /** What one pass of the `uploadFiles` loop does with one file. */
  datatype FileOutcome =
    | Rejected(alert: string)
    | Failed(alert: string)
    | Added(file: FileUploadResponse)

  function UnsupportedAlert(name: string): string
  {
    "File type not supported: " + name + ". Supported types: PDF, DOCX, DOC, TXT, MD, RTF"
  }

  function TooLargeAlert(name: string): string
  {
    "File too large: " + name + ". Maximum size: 10MB"
  }

  function UploadErrorAlert(name: string, reason: string): string
  {
    "Error uploading " + name + ": " + reason
  }

  /** The two checks made before a file is sent. */
  predicate Acceptable(f: PickedFile)
  {
    f.mimeType in AllowedTypes && f.size <= MaxUploadSize
  }

  function Process(f: PickedFile, upload: PickedFile -> Result<FileUploadResponse, string>): FileOutcome
  {
    if f.mimeType !in AllowedTypes then Rejected(UnsupportedAlert(f.name))
    else if f.size > MaxUploadSize then Rejected(TooLargeAlert(f.name))
    else
      match upload(f)
      case Ok(r) => Added(r)
      case Err(reason) => Failed(UploadErrorAlert(f.name, reason))
  }

  /** A file is turned away before any request exactly when it fails one of
      the two checks, and the size limit is inclusive. */
  lemma ProcessChecksFirst(f: PickedFile, upload: PickedFile -> Result<FileUploadResponse, string>)
    ensures Process(f, upload).Rejected? <==> !Acceptable(f)
    ensures Process(f, upload).Added? ==> Acceptable(f) && upload(f) == Ok(Process(f, upload).file)
    ensures f.mimeType in AllowedTypes && f.size == MaxUploadSize ==> !Process(f, upload).Rejected?
    ensures f.mimeType in AllowedTypes && f.size == MaxUploadSize + 1 ==>
      Process(f, upload) == Rejected(TooLargeAlert(f.name))
  {
  }

  /** The files sent to the server, in order. */
  function Accepted(files: seq<PickedFile>): seq<PickedFile>
  {
    if files == [] then []
    else
      var last := files[|files| - 1];
      Accepted(files[..|files| - 1]) + (if Acceptable(last) then [last] else [])
  }

  /** The stored files the server answered with, in order. */
  function Uploaded(files: seq<PickedFile>, upload: PickedFile -> Result<FileUploadResponse, string>)
    : seq<FileUploadResponse>
  {
    if files == [] then []
    else
      var out := Process(files[|files| - 1], upload);
      Uploaded(files[..|files| - 1], upload) + (if out.Added? then [out.file] else [])
  }

  /** The alerts shown, in order. */
  function Alerts(files: seq<PickedFile>, upload: PickedFile -> Result<FileUploadResponse, string>): seq<string>
  {
    if files == [] then []
    else
      var out := Process(files[|files| - 1], upload);
      Alerts(files[..|files| - 1], upload) + (if out.Added? then [] else [out.alert])
  }

  /** Exactly the acceptable files are sent, in their order. */
  lemma {:induction false} AcceptedExactly(files: seq<PickedFile>)
    ensures forall f :: f in Accepted(files) <==> f in files && Acceptable(f)
    ensures |Accepted(files)| <= |files|
  {
    if files != [] {
      var init := files[..|files| - 1];
      AcceptedExactly(init);
      assert files == init + [files[|files| - 1]];
    }
  }

  /** Every file ends either in the list or in an alert, never both, and no
      more files are stored than were sent. */
  lemma {:induction false} EachFileAccountedFor(files: seq<PickedFile>,
                                                upload: PickedFile -> Result<FileUploadResponse, string>)
    ensures |Uploaded(files, upload)| + |Alerts(files, upload)| == |files|
    ensures |Uploaded(files, upload)| <= |Accepted(files)|
  {
    if files != [] {
      EachFileAccountedFor(files[..|files| - 1], upload);
      ProcessChecksFirst(files[|files| - 1], upload);
    }
  }

  /** Handling one more file extends each list by what happens to that
      file. */
  lemma Snoc(files: seq<PickedFile>, f: PickedFile, upload: PickedFile -> Result<FileUploadResponse, string>)
    ensures Accepted(files + [f]) == Accepted(files) + (if Acceptable(f) then [f] else [])
    ensures Uploaded(files + [f], upload)
         == Uploaded(files, upload) + (if Process(f, upload).Added? then [Process(f, upload).file] else [])
    ensures Alerts(files + [f], upload)
         == Alerts(files, upload) + (if Process(f, upload).Added? then [] else [Process(f, upload).alert])
  {
    assert (files + [f])[..|files|] == files;
  }

  /** A non-empty second half splits into its front and its last file. */
  lemma SplitLast(a: seq<PickedFile>, b: seq<PickedFile>)
    requires b != []
    ensures b == b[..|b| - 1] + [b[|b| - 1]]
    ensures a + b == (a + b[..|b| - 1]) + [b[|b| - 1]]
  {
  }

  /** A file that is turned away does not stop the ones after it: a batch is
      handled as its two halves one after the other. */
  lemma {:induction false} BatchesCompose(a: seq<PickedFile>, b: seq<PickedFile>,
                                          upload: PickedFile -> Result<FileUploadResponse, string>)
    ensures Accepted(a + b) == Accepted(a) + Accepted(b)
    ensures Uploaded(a + b, upload) == Uploaded(a, upload) + Uploaded(b, upload)
    ensures Alerts(a + b, upload) == Alerts(a, upload) + Alerts(b, upload)
  {
    if b == [] {
      assert a + b == a;
    } else {
      var init, last := b[..|b| - 1], b[|b| - 1];
      SplitLast(a, b);
      BatchesCompose(a, init, upload);
      Snoc(a + init, last, upload);
      Snoc(init, last, upload);
      var out := Process(last, upload);
      Associative(Accepted(a), Accepted(init), if Acceptable(last) then [last] else []);
      Associative(Uploaded(a, upload), Uploaded(init, upload), if out.Added? then [out.file] else []);
      Associative(Alerts(a, upload), Alerts(init, upload), if out.Added? then [] else [out.alert]);
    }
  }

  /** `prev.filter(file => file.id !== fileId)`. */
  function WithoutFile(list: seq<FileUploadResponse>, fileId: int): (r: seq<FileUploadResponse>)
    ensures forall f :: f in r <==> f in list && f.id != fileId
    ensures |r| <= |list|
  {
    if list == [] then []
    else (if list[0].id != fileId then [list[0]] else []) + WithoutFile(list[1..], fileId)
  }

  /** Removing an id that is not listed changes nothing. */
  lemma {:induction false} WithoutAbsentFile(list: seq<FileUploadResponse>, fileId: int)
    requires forall f :: f in list ==> f.id != fileId
    ensures WithoutFile(list, fileId) == list
  {
    if list != [] {
      assert list[0] in list;
      assert forall f :: f in list[1..] ==> f in list;
      WithoutAbsentFile(list[1..], fileId);
      assert list == [list[0]] + list[1..];
    }
  }

  /** Removing the entries of one id keeps the others in their order: it
      works piece by piece. */
  lemma {:induction false} WithoutFileAppend(list: seq<FileUploadResponse>, other: seq<FileUploadResponse>, fileId: int)
    ensures WithoutFile(list + other, fileId) == WithoutFile(list, fileId) + WithoutFile(other, fileId)
  {
    if list == [] {
      assert list + other == other;
    } else {
      var head := if list[0].id != fileId then [list[0]] else [];
      assert (list + other)[1..] == list[1..] + other;
      calc {
        WithoutFile(list + other, fileId);
        head + WithoutFile(list[1..] + other, fileId);
        { WithoutFileAppend(list[1..], other, fileId); }
        head + (WithoutFile(list[1..], fileId) + WithoutFile(other, fileId));
        { Associative(head, WithoutFile(list[1..], fileId), WithoutFile(other, fileId)); }
        (head + WithoutFile(list[1..], fileId)) + WithoutFile(other, fileId);
      }
    }
  }

  /** `getFileType`: the lower-cased text after the last '.', or the whole
      lower-cased name when it has none. */
  function GetFileType(filename: string): (r: string)
    ensures |r| <= |filename|
    ensures r == Lower(filename[|filename| - |r|..])
    ensures forall k :: 0 <= k < |r| ==> r[k] != '.'
    ensures |r| < |filename| ==> filename[|filename| - |r| - 1] == '.'
  {
    var dot := FileService.LastIndexOf(filename, '.');
    var ext := filename[dot + 1..];
    forall k | 0 <= k < |ext| ensures LowerChar(ext[k]) != '.' {
      assert ext[k] == filename[dot + 1 + k];
      LowerCharKeepsPunctuation(ext[k]);
    }
    Lower(ext)
  }

  /** For every file the server accepts, the type the list shows for it is
      the type the server stores. */
  lemma SameTypeAsServer(filename: string)
    requires FileService.IsAllowedFile(filename)
    ensures GetFileType(filename) == FileService.GetFileType(filename)
  {
    var p := Lower(filename);
    var ext := FileService.Extension(p);
    assert ext != "";
    var dot := FileService.LastIndexOf(p, '.');
    assert ext == p[dot..];
    FileService.LastIndexOfLower(filename, '.');
    LowerSlice(filename, dot + 1, |filename|);
  }

  /** The state of the upload panel. */
  class FileUpload {
    var uploading: bool
    var uploadedFiles: seq<FileUploadResponse>

    constructor ()
      ensures !uploading && uploadedFiles == []
    {
      uploading := false;
      uploadedFiles := [];
    }

    /** `uploadFiles`: the files are taken in order; one that fails a check
        is reported and skipped, the others are sent, and each one stored is
        appended to the list. `sent` are the files sent, `alerts` the
        alerts shown. */
    method UploadFiles(files: seq<PickedFile>, upload: PickedFile -> Result<FileUploadResponse, string>)
      returns (sent: seq<PickedFile>, alerts: seq<string>)
      modifies this
      ensures uploadedFiles == old(uploadedFiles) + Uploaded(files, upload)
      ensures sent == Accepted(files)
      ensures alerts == Alerts(files, upload)
      ensures !uploading
    {
      uploading := true;
      sent, alerts := [], [];
      var i := 0;
      while i < |files|
        invariant 0 <= i <= |files|
        invariant uploading
        invariant uploadedFiles == old(uploadedFiles) + Uploaded(files[..i], upload)
        invariant sent == Accepted(files[..i])
        invariant alerts == Alerts(files[..i], upload)
      {
        var file := files[i];
        assert files[..i + 1] == files[..i] + [file];
        Snoc(files[..i], file, upload);
        Associative(old(uploadedFiles), Uploaded(files[..i], upload),
                    if Process(file, upload).Added? then [Process(file, upload).file] else []);
        i := i + 1;
        if file.mimeType !in AllowedTypes {
          alerts := alerts + [UnsupportedAlert(file.name)];
          continue;
        }
        if file.size > MaxUploadSize {
          alerts := alerts + [TooLargeAlert(file.name)];
          continue;
        }
        sent := sent + [file];
        var response := upload(file);
        if response.Ok? {
          uploadedFiles := uploadedFiles + [response.value];
        } else {
          alerts := alerts + [UploadErrorAlert(file.name, response.error)];
        }
      }
      assert files[..i] == files;
      uploading := false;
    }

    /** `deleteFile`: after a successful delete every entry with the id is
        dropped; after a failure the list stays and an alert is shown. */
    method DeleteFile(fileId: int, deleted: Result<string, string>) returns (alert: Option<string>)
      modifies this`uploadedFiles
      ensures deleted.Ok? ==> uploadedFiles == WithoutFile(old(uploadedFiles), fileId) && alert.None?
      ensures deleted.Err? ==> uploadedFiles == old(uploadedFiles) && alert == Some("Error deleting file")
    {
      if deleted.Ok? {
        uploadedFiles := WithoutFile(uploadedFiles, fileId);
        alert := None;
      } else {
        alert := Some("Error deleting file");
      }
    }

    /** `loadExistingFiles`, run when `chatId` is truthy: an answer replaces
        the list with its `files`, or with [] when it has none; a failed
        request leaves the list. */
    method LoadExistingFiles(chatId: Option<int>, fetched: Result<Option<seq<FileUploadResponse>>, string>)
      modifies this`uploadedFiles
      ensures chatId.None? || chatId.value == 0 || fetched.Err? ==> uploadedFiles == old(uploadedFiles)
      ensures chatId.Some? && chatId.value != 0 && fetched.Ok? ==>
        uploadedFiles == (if fetched.value.Some? then fetched.value.value else [])
    {
      if chatId.Some? && chatId.value != 0 {
        if fetched.Ok? {
          uploadedFiles := if fetched.value.Some? then fetched.value.value else [];
        }
      }
    }
  }
}
