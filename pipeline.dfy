/** App and server together: a recording the app saves and uploads shows up
    in the server's gallery. */
module Pipeline {
  import opened Common
  import Recording
  import Upload
  import Server

  /** A recording saved as `VID_<timeStamp>.mp4` is posted under that name,
      in the field the server accepts;
      the server stores it as `<now>-VID_<timeStamp>.mp4`, which still ends
      in `.mp4`, so wherever it appears in the directory listing it is kept
      by the gallery filter, and the stored name gives back the upload time
      and the app's file name. */
  lemma {:induction false} UploadedRecordingIsListed(
    d: Recording.Device, transport: Upload.Transport, now: nat, before: seq<string>, after: seq<string>)
    requires Recording.OutputMediaFile(d).Some? && '/' !in d.timeStamp
    ensures var a := Upload.UploadVideo(Recording.OutputMediaFile(d).value, true, transport);
      a.request.Some? &&
      a.request.value.field == Server.UPLOAD_FIELD &&
      a.request.value.fileName == Recording.MediaFileName(d.timeStamp) &&
      var stored := Server.StoredFileName(now, a.request.value.fileName);
      Server.SplitStoredName(stored) == Some((now, Recording.MediaFileName(d.timeStamp))) &&
      stored in Server.VideoFiles(before + [stored] + after)
  {
    var name := Recording.MediaFileName(d.timeStamp);
    var stored := Server.StoredFileName(now, name);
    Server.StoredNameRoundTrip(now, name);
    var listing := before + [stored] + after;
    assert stored in listing;
    assert EndsWith(stored, Server.VIDEO_EXTENSION) by {
      var prefix := Server.Decimal(now) + "-";
      assert stored == prefix + name;
      EndsWithPrepend(prefix, name, ".mp4");
    }
  }
}
