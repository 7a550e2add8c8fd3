/** The landing page (`LandingPage`): choosing a file, validating it and uploading it. */
module LandingPage {
  import opened Common
  import opened UploadRules

  /** The document record handed to the app (the upload time is not modelled). */
  datatype DocInfo = DocInfo(name: string, size: nat, mediaType: string)

  class LandingPage {
    var isUploading: bool
    var uploadStatus: Option<UploadStatus>

    constructor ()
      ensures !isUploading && uploadStatus == None
    {
      isUploading := false;
      uploadStatus := None;
    }

    /** `handleFileSelect`: no file changes nothing; a rejected file gets an error status and no
        request; an accepted one is uploaded (`requested`), and on success its record goes to the
        app's callback (`delivered`). */
    method HandleFileSelect(file: Option<SelectedFile>, outcome: UploadOutcome)
      returns (requested: bool, delivered: Option<DocInfo>)
      modifies this
      ensures file.None? ==>
        !requested && delivered == None && isUploading == old(isUploading) && uploadStatus == old(uploadStatus)
      ensures file.Some? && Check(file.value) != Accepted ==>
        && !requested && delivered == None && isUploading == old(isUploading)
        && uploadStatus == Some(RejectionStatus(Check(file.value)))
      ensures file.Some? && Check(file.value) == Accepted ==>
        && requested && !isUploading
        && (outcome == Uploaded ==>
              delivered == Some(DocInfo(file.value.name, file.value.size, file.value.mediaType))
              && uploadStatus == None)
        && (outcome == UploadFailed ==>
              delivered == None && uploadStatus == Some(UploadStatus(Error, UploadFailedText)))
    {
      requested, delivered := false, None;
      if file.None? {
        return;
      }
      var f := file.value;
      var verdict := Check(f);
      if verdict != Accepted {
        uploadStatus := Some(RejectionStatus(verdict));
        return;
      }
      isUploading := true;
      uploadStatus := None;
      requested := true;
      if outcome == Uploaded {
        delivered := Some(DocInfo(f.name, f.size, f.mediaType));
      } else {
        uploadStatus := Some(UploadStatus(Error, UploadFailedText));
      }
      isUploading := false;
    }
  }
}
