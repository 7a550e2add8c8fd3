/** The document upload control (`DocumentUpload`): the same checks, a status line, and a file
    input that keeps a rejected file selected and is cleared after every upload request. */
module DocumentUpload {
  import opened Common
  import opened UploadRules

  /** The success status line for a file. */
  function SuccessText(name: string): string
  {
    name + " başarıyla yüklendi!"
  }

  /** The notice handed to the parent after a successful upload: the file name follows the
      document icon and a space. */
  function UploadedNotice(name: string): (notice: string)
    ensures |notice| > 2 + |name| && notice[2..2 + |name|] == name
  {
    "📄 " + name + " dökümanı yüklendi ve analiz edildi."
  }

  class DocumentUpload {
    var isUploading: bool
    var uploadStatus: Option<UploadStatus>
    /** The value of the hidden file input: the selected file, written by the browser before the
        change handler runs (the file's name stands for it), or "" once cleared. */
    var inputValue: string

    constructor ()
      ensures !isUploading && uploadStatus == None && inputValue == ""
    {
      isUploading := false;
      uploadStatus := None;
      inputValue := "";
    }

    /** `handleFileChange`, after the browser has put the chosen file into the input: no file
        changes nothing; a rejected file gets an error status and no request, and stays selected;
        an accepted one is uploaded (`requested`), reported as success or failure, the notice goes
        to the parent on success (`notice`), and the input is cleared. */
    method HandleFileChange(file: Option<SelectedFile>, outcome: UploadOutcome)
      returns (requested: bool, notice: Option<string>)
      modifies this
      ensures file.None? ==>
        && !requested && notice == None
        && isUploading == old(isUploading) && uploadStatus == old(uploadStatus) && inputValue == old(inputValue)
      ensures file.Some? && Check(file.value) != Accepted ==>
        && !requested && notice == None && isUploading == old(isUploading) && inputValue == file.value.name
        && uploadStatus == Some(RejectionStatus(Check(file.value)))
      ensures file.Some? && Check(file.value) == Accepted ==>
        && requested && !isUploading && inputValue == ""
        && (outcome == Uploaded ==>
              notice == Some(UploadedNotice(file.value.name))
              && uploadStatus == Some(UploadStatus(Success, SuccessText(file.value.name))))
        && (outcome == UploadFailed ==>
              notice == None && uploadStatus == Some(UploadStatus(Error, UploadFailedText)))
    {
      requested, notice := false, None;
      if file.None? {
        return;
      }
      var f := file.value;
      inputValue := f.name;
      var verdict := Check(f);
      if verdict != Accepted {
        uploadStatus := Some(RejectionStatus(verdict));
        return;
      }
      isUploading := true;
      uploadStatus := None;
      requested := true;
      if outcome == Uploaded {
        uploadStatus := Some(UploadStatus(Success, SuccessText(f.name)));
        notice := Some(UploadedNotice(f.name));
      } else {
        uploadStatus := Some(UploadStatus(Error, UploadFailedText));
      }
      isUploading := false;
      inputValue := "";
    }
  }
}
