/** The résumé upload box: the type and size gate a chosen file must pass,
    the content handed on for each accepted type, and the component state
    `handleFile` updates around them. */
module FileUpload {
  import opened Wrappers
  import opened Strings

  /** A browser `File` as `handleFile` reads it; `text` is what
      `file.text()` resolves to. */
  datatype File = File(name: string, mimeType: string, size: nat, text: string)

  const PDF := "application/pdf"
  const MSWORD := "application/msword"
  const DOCX := "application/vnd.openxmlformats-officedocument.wordprocessingml.document"
  const PLAIN_TEXT := "text/plain"

  /** The `allowedTypes` list. */
  const ALLOWED_TYPES := [PDF, MSWORD, DOCX, PLAIN_TEXT]

  /** `10 * 1024 * 1024` bytes. */
  const MAX_SIZE: nat := 10 * 1024 * 1024

  const TYPE_ERROR := "Please upload a PDF, DOC, DOCX, or TXT file"
  const SIZE_ERROR := "File size must be less than 10MB"

  const PDF_PLACEHOLDER := "PDF file uploaded: "
  const DOCUMENT_PLACEHOLDER := "Document uploaded: "
  const PLACEHOLDER_END := ". Content extraction will be implemented."

  /** The two checks, in order: the error the upload is refused with, if
      any. The type is checked first, so a file of the wrong type is refused
      for its type whatever its size; a size of exactly 10 MiB passes. */
  function Gate(f: File): (error: Option<string>)
    ensures error == Some(TYPE_ERROR) <==> f.mimeType !in ALLOWED_TYPES
    ensures error == Some(SIZE_ERROR) <==> f.mimeType in ALLOWED_TYPES && f.size > 10485760
    ensures error == None <==> f.mimeType in ALLOWED_TYPES && f.size <= 10485760
  {
    if f.mimeType !in ALLOWED_TYPES then Some(TYPE_ERROR)
    else if f.size > MAX_SIZE then Some(SIZE_ERROR)
    else None
  }

  /** The content passed on for an accepted file: the text itself for a
      plain-text file, else a placeholder naming the file. */
  function Content(f: File): string {
    if f.mimeType == PLAIN_TEXT then f.text
    else if f.mimeType == PDF then PDF_PLACEHOLDER + f.name + PLACEHOLDER_END
    else DOCUMENT_PLACEHOLDER + f.name + PLACEHOLDER_END
  }

  /** A plain-text file is passed on verbatim; any other accepted file is
      passed on as a placeholder that names the file, does not depend on
      the file's bytes, and tells a PDF from a Word document. */
  lemma ContentRule(f: File, text: string)
    ensures f.mimeType == PLAIN_TEXT ==> Content(f) == f.text
    ensures f.mimeType != PLAIN_TEXT ==>
      Contains(Content(f), f.name) && Content(f.(text := text)) == Content(f)
    ensures f.mimeType == PDF ==> Content(f)[..19] == "PDF file uploaded: "
    ensures f.mimeType != PLAIN_TEXT && f.mimeType != PDF ==>
      Content(f)[..19] == "Document uploaded: "
  {
    if f.mimeType == PDF {
      ContainsMiddle(PDF_PLACEHOLDER, f.name, PLACEHOLDER_END);
    } else if f.mimeType != PLAIN_TEXT {
      ContainsMiddle(DOCUMENT_PLACEHOLDER, f.name, PLACEHOLDER_END);
    }
  }

  /** What the component shows as a notification. */
  datatype Toast = Success(message: string) | Failure(message: string)

  /** One call of the `onFileUpload(content, filename)` callback. */
  datatype Upload = Upload(content: string, filename: string)

  /** The upload box's state: the spinner flag, the name shown as
      uploaded, the callbacks made so far and the notifications shown. */
  class FileUploader {
    var isUploading: bool
    var uploadedFile: Option<string>
    var uploads: seq<Upload>
    var toasts: seq<Toast>

    constructor ()
      ensures !isUploading && uploadedFile == None && uploads == [] && toasts == []
    {
      isUploading := false;
      uploadedFile := None;
      uploads := [];
      toasts := [];
    }

    /** `handleFile(file)`: an accepted file is recorded as uploaded, handed
        to the callback exactly once and announced; a refused one leaves the
        shown file and the callbacks alone and shows the error. Either way
        the spinner is off afterwards. */
    method HandleFile(f: File)
      modifies this
      ensures !isUploading
      ensures Gate(f).None? ==>
        && uploadedFile == Some(f.name)
        && uploads == old(uploads) + [Upload(Content(f), f.name)]
        && toasts == old(toasts) + [Success(f.name + " uploaded successfully!")]
      ensures Gate(f).Some? ==>
        && uploadedFile == old(uploadedFile)
        && uploads == old(uploads)
        && toasts == old(toasts) + [Failure(Gate(f).value)]
    {
      isUploading := true;
      var error: Option<string> := None;
      if f.mimeType !in ALLOWED_TYPES {
        error := Some(TYPE_ERROR);
      } else if f.size > MAX_SIZE {
        error := Some(SIZE_ERROR);
      }
      if error.None? {
        var content := "";
        if f.mimeType == PLAIN_TEXT {
          content := f.text;
        } else if f.mimeType == PDF {
          content := PDF_PLACEHOLDER + f.name + PLACEHOLDER_END;
        } else {
          content := DOCUMENT_PLACEHOLDER + f.name + PLACEHOLDER_END;
        }
        uploadedFile := Some(f.name);
        uploads := uploads + [Upload(content, f.name)];
        toasts := toasts + [Success(f.name + " uploaded successfully!")];
      } else {
        toasts := toasts + [Failure(error.value)];
      }
      isUploading := false;
    }

    /** `handleDrop` and `handleFileChange`: the first of the chosen files,
        if there is one, goes through `handleFile`; no file changes
        nothing. */
    method HandleFiles(files: seq<File>)
      modifies this
      ensures files == [] ==>
        isUploading == old(isUploading) && uploadedFile == old(uploadedFile)
        && uploads == old(uploads) && toasts == old(toasts)
      ensures files != [] ==> !isUploading
      ensures files != [] && Gate(files[0]).None? ==>
        && uploadedFile == Some(files[0].name)
        && uploads == old(uploads) + [Upload(Content(files[0]), files[0].name)]
        && toasts == old(toasts) + [Success(files[0].name + " uploaded successfully!")]
      ensures files != [] && Gate(files[0]).Some? ==>
        && uploadedFile == old(uploadedFile)
        && uploads == old(uploads)
        && toasts == old(toasts) + [Failure(Gate(files[0]).value)]
    {
      if |files| > 0 {
        HandleFile(files[0]);
      }
    }
  }

  /** Exactly 10 MiB of an allowed type is accepted and one byte more is
      refused for its size. */
  lemma SizeBoundary(f: File)
    requires f.mimeType in ALLOWED_TYPES
    ensures Gate(f.(size := MAX_SIZE)) == None
    ensures Gate(f.(size := MAX_SIZE + 1)) == Some(SIZE_ERROR)
  {
  }

  /** A wrong type is reported as a wrong type whatever the size, since the
      type is checked first. */
  lemma TypeBeforeSize(f: File, size: nat)
    requires f.mimeType !in ALLOWED_TYPES
    ensures Gate(f.(size := size)) == Some(TYPE_ERROR)
  {
  }
}
