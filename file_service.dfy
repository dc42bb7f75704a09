/** The upload rules of backend/app/services/file_service.py: extension
    allow-listing, the size limit, dispatch to a text extractor and the layout
    of the context block handed to the language model. */
module FileService {
  import opened Text
  import opened Wrappers
  import opened Sequences

  /** The keys of ALLOWED_EXTENSIONS, in the order the dictionary lists them. */
  const AllowedExtensions: seq<string> := [".pdf", ".docx", ".doc", ".txt", ".md", ".rtf"]

  /** The MIME types ALLOWED_EXTENSIONS maps those keys to, in the same order. */
  const AllowedMimeTypes: seq<string> := [
    "application/pdf",
    "application/vnd.openxmlformats-officedocument.wordprocessingml.document",
    "application/msword",
    "text/plain",
    "text/markdown",
    "application/rtf"
  ]

  /** The allowed types without their leading dot. */
  const AllowedTypes: seq<string> := ["pdf", "docx", "doc", "txt", "md", "rtf"]

  /** MAX_FILE_SIZE: 10 MB. */
  const MaxFileSize: nat := 10 * 1024 * 1024

  const NoFilenameDetail := "No filename provided"
  const TypeNotAllowedDetail := "File type not allowed. Allowed types: .pdf, .docx, .doc, .txt, .md, .rtf"
  const TooLargeDetail := "File too large. Maximum size: 10MB"

  // ---------------------------------------------------------------------------
  // os.path.splitext (POSIX)

  /** Position of the last `c` in `s`, or -1 when `s` has none. */
  function LastIndexOf(s: string, c: char): (r: int)
    ensures -1 <= r < |s|
    ensures r >= 0 ==> s[r] == c
    ensures forall k :: r < k < |s| ==> s[k] != c
  {
    if s == [] then -1
    else if s[|s| - 1] == c then |s| - 1
    else LastIndexOf(s[..|s| - 1], c)
  }

  /** Some character of `s[lo..hi]` is not a dot. */
  predicate HasNonDot(s: string, lo: int, hi: int)
    requires 0 <= lo && hi <= |s|
  {
    exists k :: lo <= k < hi && s[k] != '.'
  }

  /** `os.path.splitext(p)`: the extension starts at the last dot of the last
      path component, unless everything before that dot in the component is
      dots (so ".bashrc" has no extension). */
  function SplitExt(p: string): (r: (string, string))
  {
    var sep := LastIndexOf(p, '/');
    var dot := LastIndexOf(p, '.');
    if dot > sep && HasNonDot(p, sep + 1, dot) then (p[..dot], p[dot..]) else (p, "")
  }

  /** `os.path.splitext(p)[1]`. */
  function Extension(p: string): string
  {
    SplitExt(p).1
  }

  /** The pieces of `splitext` put back together give the path, and a non-empty
      extension is one dot followed by a run without dots or slashes. */
  lemma SplitExtShape(p: string)
    ensures SplitExt(p).0 + SplitExt(p).1 == p
    ensures var e := Extension(p);
      e == "" || (e[0] == '.' && forall k :: 1 <= k < |e| ==> e[k] != '.' && e[k] != '/')
  {
    var sep := LastIndexOf(p, '/');
    var dot := LastIndexOf(p, '.');
    if dot > sep && HasNonDot(p, sep + 1, dot) {
      var e := p[dot..];
      forall k | 1 <= k < |e| ensures e[k] != '.' && e[k] != '/' {
        assert e[k] == p[dot + k];
      }
    }
  }

  lemma {:induction false} LastIndexOfLower(s: string, c: char)
    requires c == '.' || c == '/'
    ensures LastIndexOf(Lower(s), c) == LastIndexOf(s, c)
  {
    if s != [] {
      LowerCharKeepsPunctuation(s[|s| - 1]);
      assert Lower(s)[..|s| - 1] == Lower(s[..|s| - 1]);
      LastIndexOfLower(s[..|s| - 1], c);
    }
  }

  /** Lower-casing a path and then splitting it gives the lower-cased
      extension of the original path. */
  lemma ExtensionOfLower(p: string)
    ensures Extension(Lower(p)) == Lower(Extension(p))
  {
    var q := Lower(p);
    LastIndexOfLower(p, '/');
    LastIndexOfLower(p, '.');
    var sep := LastIndexOf(p, '/');
    var dot := LastIndexOf(p, '.');
    if dot > sep {
      forall k | sep + 1 <= k < dot ensures (q[k] != '.') == (p[k] != '.') {
        LowerCharKeepsPunctuation(p[k]);
      }
      assert HasNonDot(q, sep + 1, dot) == HasNonDot(p, sep + 1, dot);
    }
  }

  // ---------------------------------------------------------------------------
  // is_allowed_file, get_file_type

  /** `is_allowed_file`. */
  predicate IsAllowedFile(filename: string)
  {
    Extension(Lower(filename)) in AllowedExtensions
  }

  /** `get_file_type`: the lower-cased extension without its dot, or "unknown". */
  function GetFileType(filename: string): (r: string)
  {
    var ext := Extension(Lower(filename));
    if ext != "" then ext[1..] else "unknown"
  }

  /** The file's own extension matches one of the allowed ones when letter case
      is ignored, exactly when the file is allowed. */
  lemma AllowedIgnoresCase(filename: string)
    ensures IsAllowedFile(filename) <==>
      exists e :: e in AllowedExtensions && EqualIgnoringCase(Extension(filename), e)
  {
    ExtensionOfLower(filename);
    var ext := Extension(filename);
    if IsAllowedFile(filename) {
      var e := Lower(ext);
      LowerIdempotent(ext);
      assert e in AllowedExtensions && EqualIgnoringCase(ext, e);
    } else {
      forall e | e in AllowedExtensions ensures !EqualIgnoringCase(ext, e) {
        assert Lower(e) == e;
      }
    }
  }

  /** A file is allowed exactly when its reported type is one of the six
      allowed types. */
  lemma AllowedIffKnownType(filename: string)
    ensures IsAllowedFile(filename) <==> GetFileType(filename) in AllowedTypes
  {
    var ext := Extension(Lower(filename));
    SplitExtShape(Lower(filename));
    if ext != "" {
      assert ext == "." + ext[1..];
      DottedType(ext[1..]);
    }
  }

  /** Each allowed extension is an allowed type behind a dot. */
  lemma DottedType(t: string)
    ensures "." + t in AllowedExtensions <==> t in AllowedTypes
  {
    forall i | 0 <= i < |AllowedTypes|
      ensures ("." + t == AllowedExtensions[i]) == (t == AllowedTypes[i])
    {
      assert AllowedExtensions[i] == "." + AllowedTypes[i];
      if "." + t == AllowedExtensions[i] {
        assert t == ("." + t)[1..] == AllowedExtensions[i][1..];
      }
    }
  }

  // ---------------------------------------------------------------------------
  // validate_file

  /** The uploaded file: its name (absent or empty counts as missing), its size
      in bytes and the read position of its underlying stream. */
  class UploadFile {
    var filename: Option<string>
    var size: nat
    var position: nat

    constructor (filename: Option<string>, size: nat)
      ensures this.filename == filename && this.size == size && position == 0
    {
      this.filename := filename;
      this.size := size;
      position := 0;
    }
  }

  predicate HasFilename(filename: Option<string>)
  {
    filename.Some? && filename.value != ""
  }

  /** The error `validate_file` raises for a file with this name and size, if
      any. */
  function Validation(filename: Option<string>, size: nat): (r: Option<HttpError>)
    ensures r.Some? ==> r.value.status == 400
    ensures r == None <==> HasFilename(filename) && IsAllowedFile(filename.value) && size <= MaxFileSize
  {
    if !HasFilename(filename) then Some(HttpError(400, NoFilenameDetail))
    else if !IsAllowedFile(filename.value) then Some(HttpError(400, TypeNotAllowedDetail))
    else if size > MaxFileSize then Some(HttpError(400, TooLargeDetail))
    else None
  }

  /** The checks run in a fixed order: a missing name is reported before a
      disallowed extension, which is reported before the size. */
  lemma ValidationOrder(filename: Option<string>, size: nat)
    ensures !HasFilename(filename) ==> Validation(filename, size) == Some(HttpError(400, NoFilenameDetail))
    ensures HasFilename(filename) && !IsAllowedFile(filename.value) ==>
      Validation(filename, size) == Some(HttpError(400, TypeNotAllowedDetail))
    ensures HasFilename(filename) && IsAllowedFile(filename.value) && size > MaxFileSize ==>
      Validation(filename, size) == Some(HttpError(400, TooLargeDetail))
  {
  }

  /** Exactly 10 MB passes the size check, one byte more fails it. */
  lemma SizeBoundary(name: string)
    requires name != "" && IsAllowedFile(name)
    ensures Validation(Some(name), 10 * 1024 * 1024) == None
    ensures Validation(Some(name), 10 * 1024 * 1024 + 1) == Some(HttpError(400, TooLargeDetail))
  {
  }

  /** `validate_file`: the name checks come first; only once they pass is the
      stream moved to its end to measure it and then back to the start. */
  method ValidateFile(file: UploadFile) returns (err: Option<HttpError>)
    modifies file`position
    ensures err == Validation(file.filename, file.size)
    ensures file.position == if HasFilename(file.filename) && IsAllowedFile(file.filename.value) then 0 else old(file.position)
  {
    if !HasFilename(file.filename) {
      return Some(HttpError(400, NoFilenameDetail));
    }
    if !IsAllowedFile(file.filename.value) {
      return Some(HttpError(400, TypeNotAllowedDetail));
    }
    file.position := file.size;      // seek(0, 2)
    var size := file.position;       // tell()
    file.position := 0;              // seek(0)
    if size > MaxFileSize {
      return Some(HttpError(400, TooLargeDetail));
    }
    return None;
  }

  // ---------------------------------------------------------------------------
  // extract_text_from_file

  /** The extractor a file type is routed to. */
  datatype Extractor = PdfExtractor | DocxExtractor | PlainTextExtractor

  /** The dispatch of `extract_text_from_file`: pdf, docx, and txt/md have an
      extractor; every other type is unsupported. */
  function ExtractorFor(fileType: string): Option<Extractor>
  {
    if fileType == "pdf" then Some(PdfExtractor)
    else if fileType == "docx" then Some(DocxExtractor)
    else if fileType in ["txt", "md"] then Some(PlainTextExtractor)
    else None
  }

  /** Of the allowed types, exactly ".doc" and ".rtf" pass validation but have
      no extractor; each other allowed type has its own. */
  lemma AllowedWithoutExtractor(filename: string)
    requires IsAllowedFile(filename)
    ensures ExtractorFor(GetFileType(filename)) == None <==> GetFileType(filename) in ["doc", "rtf"]
    ensures GetFileType(filename) == "pdf" ==> ExtractorFor(GetFileType(filename)) == Some(PdfExtractor)
    ensures GetFileType(filename) == "docx" ==> ExtractorFor(GetFileType(filename)) == Some(DocxExtractor)
    ensures GetFileType(filename) in ["txt", "md"] ==> ExtractorFor(GetFileType(filename)) == Some(PlainTextExtractor)
  {
    AllowedIffKnownType(filename);
  }

  /** What `extract_text_from_file` returns or raises. Parsing the document
      is the parameter `extract`: what the routed extractor yields for this
      file (a 500 error when the parser fails). */
  function Extraction(filename: Option<string>, size: nat, extract: Extractor -> Result<string, HttpError>)
    : Result<string, HttpError>
  {
    match Validation(filename, size)
    case Some(e) => Err(e)
    case None =>
      var t := GetFileType(filename.value);
      match ExtractorFor(t)
      case None => Err(HttpError(400, "Unsupported file type: " + t))
      case Some(x) => extract(x)
  }

  /** Text comes back only for a valid pdf, docx, txt or md file, and then it
      is what that file's extractor produced; a valid .doc or .rtf file is
      refused with 400. */
  lemma ExtractionOutcomes(filename: Option<string>, size: nat, extract: Extractor -> Result<string, HttpError>)
    ensures Extraction(filename, size, extract).Ok? ==>
      Validation(filename, size) == None && GetFileType(filename.value) in ["pdf", "docx", "txt", "md"]
    ensures Validation(filename, size) == None && GetFileType(filename.value) in ["doc", "rtf"] ==>
      Extraction(filename, size, extract) == Err(HttpError(400, "Unsupported file type: " + GetFileType(filename.value)))
    ensures Validation(filename, size) == None && GetFileType(filename.value) == "pdf" ==>
      Extraction(filename, size, extract) == extract(PdfExtractor)
    ensures Validation(filename, size) == None && GetFileType(filename.value) == "docx" ==>
      Extraction(filename, size, extract) == extract(DocxExtractor)
    ensures Validation(filename, size) == None && GetFileType(filename.value) in ["txt", "md"] ==>
      Extraction(filename, size, extract) == extract(PlainTextExtractor)
  {
    if Validation(filename, size) == None {
      AllowedWithoutExtractor(filename.value);
    }
  }

  /** `extract_text_from_file`. Reading the upload into a temporary file
      leaves the stream at its end. */
  method ExtractTextFromFile(file: UploadFile, extract: Extractor -> Result<string, HttpError>)
    returns (r: Result<string, HttpError>)
    modifies file`position
    ensures r == Extraction(file.filename, file.size, extract)
    ensures file.position == if Validation(file.filename, file.size) == None then file.size
                             else if HasFilename(file.filename) && IsAllowedFile(file.filename.value) then 0
                             else old(file.position)
  {
    var err := ValidateFile(file);
    if err.Some? {
      return Err(err.value);
    }
    file.position := file.size;   // file.read()
    var fileType := GetFileType(file.filename.value);
    match ExtractorFor(fileType)
    case None =>
      r := Err(HttpError(400, "Unsupported file type: " + fileType));
    case Some(x) =>
      r := extract(x);
  }

  /** A stored upload is named by a fresh stem (a uuid: no dots, no slashes)
      followed by the original's extension; `splitext` recovers that
      extension from the stored name, so the stored name has the original's
      type. */
  lemma StoredNameKeepsExtension(stem: string, name: string)
    requires stem != [] && forall k :: 0 <= k < |stem| ==> stem[k] != '.' && stem[k] != '/'
    ensures Extension(stem + Extension(name)) == Extension(name)
    ensures GetFileType(stem + Extension(name)) == GetFileType(name)
  {
    var e := Extension(name);
    var p := stem + e;
    SplitExtShape(name);
    assert forall k :: 0 <= k < |p| ==> p[k] != '/' by {
      forall k | 0 <= k < |p| ensures p[k] != '/' {
        if k >= |stem| { assert p[k] == e[k - |stem|]; }
      }
    }
    var sep := LastIndexOf(p, '/');
    assert sep == -1;
    var dot := LastIndexOf(p, '.');
    if e == "" {
      assert p == stem;
      assert dot == -1;
    } else {
      assert p[|stem|] == '.';
      forall k | |stem| < k < |p| ensures p[k] != '.' {
        assert p[k] == e[k - |stem|];
      }
      assert dot == |stem|;
      assert p[0] != '.';
      assert HasNonDot(p, sep + 1, dot);
      assert p[dot..] == e;
    }
    ExtensionOfLower(p);
    ExtensionOfLower(name);
  }

  // ---------------------------------------------------------------------------
  // format_file_context

  /** One entry of the list handed to `format_file_context`. */
  datatype ContextFile = ContextFile(originalFilename: string, fileType: string, content: string)

  const ContextHeader := "\n\n--- CONTEXT FILES ---\n"
  const ContextFooter := "\n--- END CONTEXT FILES ---\n\n"
  /** `"-" * 50`. */
  function Dashes(): (r: string)
    ensures |r| == 50 && forall k :: 0 <= k < 50 ==> r[k] == '-'
  {
    seq(50, i => '-')
  }

  function Separator(): string
  {
    Dashes() + "\n"
  }

  function NameLine(f: ContextFile): string
  {
    "\nFile: " + f.originalFilename + "\n"
  }

  function TypeLine(f: ContextFile): string
  {
    "Type: " + f.fileType + "\n"
  }

  function ContentLines(f: ContextFile): string
  {
    "Content:\n" + f.content + "\n"
  }

  /** The lines one file contributes. */
  function Block(f: ContextFile): string
  {
    NameLine(f) + TypeLine(f) + ContentLines(f) + Separator()
  }

  /** The blocks of `files`, one after the other in list order. */
  function Blocks(files: seq<ContextFile>): string
  {
    if files == [] then "" else Blocks(files[..|files| - 1]) + Block(files[|files| - 1])
  }

  /** The text `format_file_context` returns. */
  function FileContext(files: seq<ContextFile>): string
  {
    if files == [] then "" else ContextHeader + Blocks(files) + ContextFooter
  }

  /** Each block closes with a line of exactly fifty dashes. */
  lemma BlockEndsWithSeparator(f: ContextFile)
    ensures var b := Block(f);
      |b| >= 52 && b[|b| - 52] == '\n' && b[|b| - 1] == '\n' &&
      forall k :: |b| - 51 <= k < |b| - 1 ==> b[k] == '-'
  {
  }

  /** Concatenating two file lists concatenates their blocks: every file gets
      its own block, in input order. */
  lemma {:induction false} BlocksAppend(a: seq<ContextFile>, b: seq<ContextFile>)
    ensures Blocks(a + b) == Blocks(a) + Blocks(b)
  {
    if b == [] {
      assert a + b == a;
    } else {
      var init, last := b[..|b| - 1], b[|b| - 1];
      assert (a + b)[..|a + b| - 1] == a + init;
      assert (a + b)[|a + b| - 1] == last;
      var x, y, z := Blocks(a), Blocks(init), Block(last);
      calc {
        Blocks(a + b);
        Blocks(a + init) + z;
        { BlocksAppend(a, init); }
        (x + y) + z;
        { Associative(x, y, z); }
        x + (y + z);
        x + Blocks(b);
      }
    }
  }

  /** One more file adds its block at the end. */
  lemma BlocksSnoc(files: seq<ContextFile>, f: ContextFile)
    ensures Blocks(files + [f]) == Blocks(files) + Block(f)
  {
    assert (files + [f])[..|files|] == files;
  }

  /** The context is empty exactly for an empty list; otherwise it is framed by
      the header and the footer. */
  lemma FileContextFrame(files: seq<ContextFile>)
    ensures FileContext(files) == "" <==> files == []
    ensures files != [] ==>
      var c := FileContext(files);
      |c| >= |ContextHeader| + |ContextFooter| &&
      c[..|ContextHeader|] == ContextHeader &&
      c[|c| - |ContextFooter|..] == ContextFooter
  {
  }

  /** `format_file_context`: the header, then `+=` of one block per file, then
      the footer. */
  method FormatFileContext(files: seq<ContextFile>) returns (context: string)
    ensures context == FileContext(files)
  {
    if files == [] {
      return "";
    }
    context := ContextHeader;
    var i := 0;
    while i < |files|
      invariant 0 <= i <= |files|
      invariant context == ContextHeader + Blocks(files[..i])
    {
      var file := files[i];
      ghost var before := context;
      context := context + NameLine(file);
      context := context + TypeLine(file);
      context := context + ContentLines(file);
      context := context + Separator();
      Associative(before, NameLine(file), TypeLine(file));
      Associative(before, NameLine(file) + TypeLine(file), ContentLines(file));
      Associative(before, NameLine(file) + TypeLine(file) + ContentLines(file), Separator());
      Associative(ContextHeader, Blocks(files[..i]), Block(file));
      TakeOneMore(files, i);
      BlocksSnoc(files[..i], file);
      i := i + 1;
    }
    assert files[..i] == files;
    context := context + ContextFooter;
  }
}
