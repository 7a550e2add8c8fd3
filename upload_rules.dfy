/**
 * The checks both upload components make on a selected file before any request: the media type
 * must be one of four document types, then the size must be at most 10 MiB.
 */
module UploadRules {

  const AllowedTypes: seq<string> := [
    "application/pdf",
    "text/plain",
    "application/msword",
    "application/vnd.openxmlformats-officedocument.wordprocessingml.document"
  ]

  /** 10 MiB, in bytes. */
  const MaxFileSize: int := 10 * 1024 * 1024

  /** The selected file as the browser describes it. */
  datatype SelectedFile = SelectedFile(name: string, size: nat, mediaType: string)

  datatype Verdict = Accepted | WrongType | TooLarge

  datatype StatusKind = Error | Success

  /** The status line a component shows. */
  datatype UploadStatus = UploadStatus(kind: StatusKind, message: string)

  /** How the upload request ended. */
  datatype UploadOutcome = Uploaded | UploadFailed

  const WrongTypeText := "Sadece PDF, TXT ve Word dosyaları desteklenmektedir."
  const TooLargeText := "Dosya boyutu 10MB'dan küçük olmalıdır."
  const UploadFailedText := "Dosya yüklenirken bir hata oluştu. Lütfen tekrar deneyin."

  /** The type check first, then the size check. */
  function Check(file: SelectedFile): (v: Verdict)
    ensures v == Accepted <==> file.mediaType in AllowedTypes && file.size <= 10485760
    ensures v == WrongType <==> file.mediaType !in AllowedTypes
  {
    if file.mediaType !in AllowedTypes then WrongType
    else if file.size > MaxFileSize then TooLarge
    else Accepted
  }

  /** The status a rejected file gets. */
  function RejectionStatus(v: Verdict): (s: UploadStatus)
    requires v != Accepted
    ensures s.kind == Error
  {
    UploadStatus(Error, if v == WrongType then WrongTypeText else TooLargeText)
  }

  /** A file of exactly 10 MiB of an allowed type passes; one byte more does not; and a disallowed
      type is reported as such whatever its size. */
  lemma SizeBoundary(name: string, mediaType: string, size: nat)
    ensures mediaType in AllowedTypes ==> Check(SelectedFile(name, 10485760, mediaType)) == Accepted
    ensures mediaType in AllowedTypes ==> Check(SelectedFile(name, 10485761, mediaType)) == TooLarge
    ensures mediaType !in AllowedTypes ==> Check(SelectedFile(name, size, mediaType)) == WrongType
  {
  }
}
