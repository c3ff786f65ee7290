/** `MainActivity.uploadVideo`: the existence guard, the multipart request
    it builds, and how the HTTP outcome is reported. The file system's
    answer and the transport's outcome are inputs. */
module Upload {
  import opened Common

  /** The collector endpoint the app posts to. */
  const UPLOAD_URL: string := "http://172.17.2.169:3000/upload"
  /** The multipart form field carrying the video. */
  const UPLOAD_FIELD: string := "video"
  /** The media type of the uploaded part. */
  const VIDEO_MEDIA_TYPE: string := "video/mp4"

  /** The request: a multipart POST with one file part. */
  datatype UploadRequest = UploadRequest(url: string, field: string, fileName: string, mediaType: string)

  /** What the HTTP client gives back: a response, or an `IOException`. */
  datatype Transport = Responded(code: int, body: string) | IoFailure(message: string)

  /** What the app reports to the user. */
  datatype UploadReport = FileNotFound | Uploaded | Rejected(code: int, body: string) | IoError(message: string)

  /** The request built (none when the guard returns early) and the report. */
  datatype UploadAttempt = UploadAttempt(request: Option<UploadRequest>, report: UploadReport)

  /** OkHttp's `isSuccessful`: a 2xx status code. */
  predicate IsSuccessful(code: int)
  {
    200 <= code < 300
  }

  /** `uploadVideo(file)`: when the file does not exist it returns before any
      request is built; otherwise it posts the file under the field `video`,
      named by its last path segment, and reports success for a 2xx response,
      the code and body for any other response, and the message of an I/O
      failure. */
  function UploadVideo(path: string, fileExists: bool, transport: Transport): (a: UploadAttempt)
    ensures a.request.None? <==> !fileExists
    ensures !fileExists ==> a.report == FileNotFound
    ensures a.request.Some? ==>
      a.request.value.url == UPLOAD_URL && a.request.value.field == UPLOAD_FIELD &&
      a.request.value.fileName == BaseName(path) && EndsWith(path, a.request.value.fileName) &&
      a.request.value.mediaType == VIDEO_MEDIA_TYPE
    ensures a.report == Uploaded <==> fileExists && transport.Responded? && IsSuccessful(transport.code)
    ensures a.report.Rejected? <==> fileExists && transport.Responded? && !IsSuccessful(transport.code)
    ensures a.report.IoError? <==> fileExists && transport.IoFailure?
    ensures a.report.Rejected? ==> a.report == Rejected(transport.code, transport.body)
    ensures a.report.IoError? ==> a.report.message == transport.message
  {
    if !fileExists then UploadAttempt(None, FileNotFound)
    else
      var request := UploadRequest(UPLOAD_URL, UPLOAD_FIELD, BaseName(path), VIDEO_MEDIA_TYPE);
      match transport
      case Responded(code, body) =>
        UploadAttempt(Some(request), if IsSuccessful(code) then Uploaded else Rejected(code, body))
      case IoFailure(message) =>
        UploadAttempt(Some(request), IoError(message))
  }

  /** A missing file is reported the same way whatever the network would
      have done: the transport is never consulted. */
  lemma MissingFileIgnoresTransport(path: string, t1: Transport, t2: Transport)
    ensures UploadVideo(path, false, t1) == UploadVideo(path, false, t2)
  {
  }
}
