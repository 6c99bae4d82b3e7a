/**
 * The resume picker of components/resume-upload.tsx: a selected file is
 * checked for type, then for size, before it replaces the current one; the
 * upload goes through `uploadFileWithProgress` and reports progress and
 * errors into the component's state.
 */
module ResumeUpload {
  import opened Common
  import opened LocalStorage
  import FileHandler

  const PDF := "application/pdf"
  const DOCX := "application/vnd.openxmlformats-officedocument.wordprocessingml.document"
  const MAX_RESUME_SIZE := 5 * 1024 * 1024

  const TYPE_ERROR := "Please upload a PDF or DOCX file"
  const SIZE_ERROR := "Please upload a file smaller than 5MB"
  const UPLOAD_ERROR := "There was an error uploading your resume"

  /** The check a selected file goes through: `None` when it is accepted, otherwise the error shown. */
  function CheckFile(f: FileHandler.File): (error: Option<string>)
    ensures f.mimeType != PDF && f.mimeType != DOCX ==> error == Some(TYPE_ERROR)
    ensures (f.mimeType == PDF || f.mimeType == DOCX) && f.size > MAX_RESUME_SIZE ==> error == Some(SIZE_ERROR)
    ensures error.None? <==> (f.mimeType == PDF || f.mimeType == DOCX) && f.size <= MAX_RESUME_SIZE
  {
    if f.mimeType !in [PDF, DOCX] then Some(TYPE_ERROR)
    else if f.size > MAX_RESUME_SIZE then Some(SIZE_ERROR)
    else None
  }

  /** Exactly five mebibytes is still accepted; one byte more is not. */
  lemma SizeLimitInclusive(name: string)
    ensures CheckFile(FileHandler.File(name, 5242880, PDF)).None?
    ensures CheckFile(FileHandler.File(name, 5242881, PDF)) == Some(SIZE_ERROR)
  {
  }

  /** A file of the wrong type is reported as such, however large it is. */
  lemma TypeCheckedFirst(f: FileHandler.File)
    requires f.mimeType != PDF && f.mimeType != DOCX && f.size > MAX_RESUME_SIZE
    ensures CheckFile(f) == Some(TYPE_ERROR)
  {
  }

  class Picker {
    var file: Option<FileHandler.File>
    var isUploading: bool
    var uploadProgress: int
    var error: Option<string>

    constructor()
      ensures file.None? && !isUploading && uploadProgress == 0 && error.None?
    {
      file := None;
      isUploading := false;
      uploadProgress := 0;
      error := None;
    }

    /**
     * `handleFileChange` with the first selected file, if any. A rejected
     * file sets the error and keeps the file chosen before.
     */
    method HandleFileChange(selected: Option<FileHandler.File>)
      modifies this`file, this`error
      ensures selected.None? ==> file == old(file) && error == old(error)
      ensures selected.Some? && CheckFile(selected.value).Some? ==>
        file == old(file) && error == CheckFile(selected.value)
      ensures selected.Some? && CheckFile(selected.value).None? ==> file == selected && error.None?
    {
      if selected.None? {
        return;
      }
      var rejection := CheckFile(selected.value);
      if rejection.Some? {
        error := rejection;
        return;
      }
      file := selected;
      error := None;
    }

    /**
     * `handleUpload` for the signed-in user's id, with the upload's inputs
     * (see `FileHandler.UploadFileWithProgress`). Without a file or a user
     * nothing happens. Otherwise progress starts at 0 and ends at the last
     * value reported; an error's message (or a fallback text for an empty
     * one) is shown; `completed` is the URL handed to `onUploadComplete`.
     */
    method HandleUpload(storage: Storage, user: Option<string>, nowMs: int,
                        uploadError: Option<string>, publicUrl: string)
      returns (completed: Option<string>)
      requires storage.Valid()
      modifies this`isUploading, this`uploadProgress, this`error, storage`items
      ensures storage.Valid()
      ensures file.None? || user.None? ==>
        && completed.None? && storage.items == old(storage.items)
        && isUploading == old(isUploading) && uploadProgress == old(uploadProgress) && error == old(error)
      ensures file.Some? && user.Some? ==>
        && !isUploading
        && (completed.Some? <==> !storage.full && uploadError.None?)
        && (completed.Some? ==> completed.value == publicUrl && error.None?)
        && (storage.full ==> error == Some(FileHandler.WRITE_REFUSED) && uploadProgress == 0)
        && (!storage.full && uploadError.Some? ==>
              error == Some(if uploadError.value != "" then uploadError.value else UPLOAD_ERROR))
        && (!storage.full ==> uploadProgress == if file.value.size <= FileHandler.CHUNK_SIZE then 0 else 100)
    {
      if file.None? || user.None? {
        return None;
      }
      isUploading := true;
      uploadProgress := 0;
      error := None;
      var r, progress := FileHandler.UploadFileWithProgress(storage, file.value, user.value, nowMs, uploadError, publicUrl);
      if |progress| > 0 {
        uploadProgress := progress[|progress| - 1];
      }
      match r {
        case Ok(upload) =>
          completed := Some(upload.url);
        case Err(message) =>
          error := Some(if message != "" then message else UPLOAD_ERROR);
          completed := None;
      }
      isUploading := false;
    }
  }
}
