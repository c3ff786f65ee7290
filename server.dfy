/** The collector server: the name multer stores an upload under, the
    `POST /upload` response, and the `GET /videos` gallery page. The clock
    (`Date.now()`) and the directory listing are inputs. */
module Server {
  import opened Common

  /** An HTTP response: status code and body. `res.send` answers 200. */
  datatype Response = Response(status: int, body: string)

  /** The multipart field `upload.single` accepts. */
  const UPLOAD_FIELD: string := "video"
  const NO_FILE_MESSAGE: string := "No file uploaded."
  const UPLOADED_PREFIX: string := "File uploaded successfully: "
  const LIST_ERROR_MESSAGE: string := "Unable to list videos"
  const VIDEO_EXTENSION: string := ".mp4"
  const NO_VIDEOS: string := "<p>No videos uploaded yet.</p>"
  const PAGE_FOOT: string := "</div></div></body></html>"

  predicate IsDigit(c: char)
  {
    '0' <= c <= '9'
  }

  predicate AllDigits(s: string)
  {
    forall i :: 0 <= i < |s| ==> IsDigit(s[i])
  }

  function DigitChar(d: nat): (c: char)
    requires d < 10
    ensures IsDigit(c) && c as int - '0' as int == d
  {
    ('0' as int + d) as char
  }

  /** A millisecond count as JavaScript prints it when concatenated with a
      string: its decimal digits. */
  function Decimal(n: nat): (s: string)
    ensures |s| >= 1 && AllDigits(s)
    decreases n
  {
    if n < 10 then [DigitChar(n)] else Decimal(n / 10) + [DigitChar(n % 10)]
  }

  /** The number a string of decimal digits denotes. */
  function DigitsValue(s: string): nat
    requires AllDigits(s)
  {
    if s == [] then 0 else DigitsValue(s[..|s| - 1]) * 10 + (s[|s| - 1] as int - '0' as int)
  }

  /** Printing a number in decimal loses nothing. */
  lemma {:induction false} DecimalRoundTrip(n: nat)
    ensures DigitsValue(Decimal(n)) == n
    decreases n
  {
    if n >= 10 {
      var s := Decimal(n);
      assert s[..|s| - 1] == Decimal(n / 10);
      DecimalRoundTrip(n / 10);
    }
  }

  /** multer's `filename` callback: `Date.now() + '-' + originalname`. */
  function StoredFileName(now: nat, originalName: string): (name: string)
    ensures EndsWith(name, originalName)
    ensures StartsWith(name, Decimal(now) + "-")
  {
    var name := Decimal(now) + "-" + originalName;
    assert name[|name| - |originalName|..] == originalName;
    assert name[..|Decimal(now) + "-"|] == Decimal(now) + "-";
    name
  }

  /** Index of the first '-' of `s`, or `|s|` when it has none. */
  function FirstDash(s: string): (k: nat)
    ensures k <= |s|
    ensures k < |s| ==> s[k] == '-'
    ensures forall i :: 0 <= i < k ==> s[i] != '-'
  {
    if s == [] then 0
    else if s[0] == '-' then 0
    else
      var k := FirstDash(s[1..]);
      assert forall i :: 1 <= i < k + 1 ==> s[i] == s[1..][i - 1];
      1 + k
  }

  /** Reads a stored name back into its time stamp and original name. */
  function SplitStoredName(name: string): Option<(nat, string)>
  {
    var k := FirstDash(name);
    if 0 < k < |name| && AllDigits(name[..k])
    then Some((DigitsValue(name[..k]), name[k + 1..]))
    else None
  }

  /** A stored name determines both the upload time and the client's file
      name, whatever the client's name contains. */
  lemma StoredNameRoundTrip(now: nat, originalName: string)
    ensures SplitStoredName(StoredFileName(now, originalName)) == Some((now, originalName))
  {
    var digits := Decimal(now);
    var name := StoredFileName(now, originalName);
    var k := FirstDash(name);
    assert name[|digits|] == '-';
    assert forall i :: 0 <= i < |digits| ==> name[i] == digits[i];
    assert k == |digits|;
    assert name[..k] == digits;
    assert name[k + 1..] == originalName;
    DecimalRoundTrip(now);
  }

  /** `POST /upload`: 400 and `No file uploaded.` when the request carries no
      file; otherwise 200 and the stored name after the success prefix. */
  function HandleUpload(now: nat, originalName: Option<string>): (r: Response)
    ensures r.status == 400 <==> originalName.None?
    ensures originalName.None? ==> r.body == NO_FILE_MESSAGE
    ensures originalName.Some? ==>
      r.status == 200 && r.body == UPLOADED_PREFIX + StoredFileName(now, originalName.value) &&
      SplitStoredName(r.body[|UPLOADED_PREFIX|..]) == Some((now, originalName.value))
  {
    match originalName
    case None => Response(400, NO_FILE_MESSAGE)
    case Some(original) =>
      var body := UPLOADED_PREFIX + StoredFileName(now, original);
      assert body[|UPLOADED_PREFIX|..] == StoredFileName(now, original);
      StoredNameRoundTrip(now, original);
      Response(200, body)
  }

  /** `files.filter(f => f.endsWith('.mp4'))`. */
  function VideoFiles(files: seq<string>): (r: seq<string>)
    ensures forall f :: f in r <==> f in files && EndsWith(f, VIDEO_EXTENSION)
    ensures |r| <= |files|
    decreases |files|
  {
    if files == [] then []
    else (if EndsWith(files[0], VIDEO_EXTENSION) then [files[0]] else []) + VideoFiles(files[1..])
  }

  /** The filter keeps listing order: filtering a concatenation is
      concatenating the filtered parts. */
  lemma {:induction false} VideoFilesAppend(a: seq<string>, b: seq<string>)
    ensures VideoFiles(a + b) == VideoFiles(a) + VideoFiles(b)
    decreases |a|
  {
    if a != [] {
      assert (a + b)[0] == a[0];
      assert (a + b)[1..] == a[1..] + b;
      VideoFilesAppend(a[1..], b);
    } else {
      assert a + b == b;
    }
  }

  /** Filtering an already filtered list changes nothing. */
  lemma {:induction false} VideoFilesIdempotent(files: seq<string>)
    ensures VideoFiles(VideoFiles(files)) == VideoFiles(files)
    decreases |files|
  {
    if files != [] {
      var head := if EndsWith(files[0], VIDEO_EXTENSION) then [files[0]] else [];
      VideoFilesAppend(head, VideoFiles(files[1..]));
      VideoFilesIdempotent(files[1..]);
      if head != [] {
        assert VideoFiles(head) == head by {
          assert head[1..] == [];
        }
      }
    }
  }

  /** The fixed markup of the page and of a card, split where the handler
      splices in the style sheet or a file name. */
  const HEAD_OPEN: string := "\n    <html>\n    <head>\n      <title>Uploaded Dashcam Videos</title>\n      <style>"
  const HEAD_CLOSE: string := "</style>\n    </head>\n    <body>\n      <div class=\"container\">\n        <h1>Uploaded Dashcam Videos</h1>\n        <div class=\"gallery\">\n    "
  const CARD_OPEN: string := "\n          <div class=\"video-card\">\n            <video controls src=\""
  const CARD_NAME: string := "\"></video>\n            <div class=\"filename\">"
  const CARD_LINK: string := "</div>\n            <a class=\"download-link\" href=\""
  const CARD_CLOSE: string := "\" download>Download</a>\n          </div>\n        "
  const UPLOADS_PATH: string := "/uploads/"

  /** The page up to the opening of the gallery `div`; `style` is the text
      of the page's style sheet. */
  function PageHead(style: string): string
  {
    HEAD_OPEN + style + HEAD_CLOSE
  }

  /** Where the server serves an uploaded file from. */
  function MediaUrl(file: string): string
  {
    UPLOADS_PATH + file
  }

  /** One gallery card: the video, its name and a download link, both
      pointing at `/uploads/<file>`. */
  function Card(file: string): string
  {
    CARD_OPEN + MediaUrl(file) + CARD_NAME + file + CARD_LINK + MediaUrl(file) + CARD_CLOSE
  }

  /** `part(x)` for every `x` of `xs`, concatenated in order. */
  function Concat(part: string -> string, xs: seq<string>): string
    decreases |xs|
  {
    if xs == [] then "" else part(xs[0]) + Concat(part, xs[1..])
  }

  /** Concatenating over two lists one after the other is concatenating over
      their concatenation. */
  lemma {:induction false} ConcatAppend(part: string -> string, a: seq<string>, b: seq<string>)
    ensures Concat(part, a + b) == Concat(part, a) + Concat(part, b)
    decreases |a|
  {
    if a != [] {
      assert (a + b)[0] == a[0];
      assert (a + b)[1..] == a[1..] + b;
      ConcatAppend(part, a[1..], b);
    } else {
      assert a + b == b;
    }
  }

  /** Every element contributes its part exactly once, between the parts of
      the elements before it and those after it. */
  lemma {:induction false} ConcatInOrder(part: string -> string, xs: seq<string>, i: nat)
    requires i < |xs|
    ensures Concat(part, xs) == Concat(part, xs[..i]) + part(xs[i]) + Concat(part, xs[i + 1..])
    decreases i
  {
    if i == 0 {
      assert xs[..0] == [];
    } else {
      var rest := xs[1..];
      ConcatInOrder(part, rest, i - 1);
      assert xs[..i][1..] == rest[..i - 1];
      assert rest[i..] == xs[i + 1..];
    }
  }

  /** The cards of `files`, one after the other. */
  function Cards(files: seq<string>): string
  {
    Concat(Card, files)
  }

  /** Appending an element to the list appends its part, whatever text
      comes before. */
  lemma ConcatSnoc(part: string -> string, prefix: string, xs: seq<string>, x: string)
    ensures prefix + Concat(part, xs) + part(x) == prefix + Concat(part, xs + [x])
  {
    ConcatAppend(part, xs, [x]);
    assert Concat(part, [x]) == part(x) + Concat(part, []);
  }

  /** Appending a file to the list appends its card to the cards, and so to
      any text that ends with those cards. */
  lemma CardsSnoc(prefix: string, a: seq<string>, file: string)
    ensures prefix + Cards(a) + Card(file) == prefix + Cards(a + [file])
  {
    ConcatSnoc(Card, prefix, a, file);
  }

  /** Each file gets exactly one card, in listing order: the cards of the
      files before it, then its own, then those of the files after it. */
  lemma CardsInOrder(files: seq<string>, i: nat)
    requires i < |files|
    ensures Cards(files) == Cards(files[..i]) + Card(files[i]) + Cards(files[i + 1..])
  {
    ConcatInOrder(Card, files, i);
  }

  /** A string built as head, body and foot starts with the head and ends
      with the foot. */
  lemma Framed(head: string, body: string, foot: string)
    ensures StartsWith(head + body + foot, head) && EndsWith(head + body + foot, foot)
  {
    var page := head + body + foot;
    assert page[..|head|] == head;
    assert page[|page| - |foot|..] == foot;
  }

  /** The whole gallery page for the filtered list `videos`. */
  function GalleryPage(style: string, videos: seq<string>): (page: string)
    ensures StartsWith(page, PageHead(style)) && EndsWith(page, PAGE_FOOT)
    ensures videos == [] ==> page == PageHead(style) + NO_VIDEOS + PAGE_FOOT
  {
    var body := if videos == [] then NO_VIDEOS else Cards(videos);
    Framed(PageHead(style), body, PAGE_FOOT);
    PageHead(style) + body + PAGE_FOOT
  }

  /** Every kept file has exactly one card on the page, in listing order,
      between the head and the closing tags. */
  lemma GalleryInOrder(style: string, videos: seq<string>, i: nat)
    requires i < |videos|
    ensures GalleryPage(style, videos) ==
      PageHead(style) + (Cards(videos[..i]) + Card(videos[i]) + Cards(videos[i + 1..])) + PAGE_FOOT
  {
    CardsInOrder(videos, i);
  }

  /** Builds the page as the handler does: the head, then either the
      placeholder or one card appended per file, then the closing tags. */
  method RenderGallery(style: string, videoFiles: seq<string>) returns (html: string)
    ensures html == GalleryPage(style, videoFiles)
  {
    var head := PageHead(style);
    html := head;
    if |videoFiles| == 0 {
      html := html + NO_VIDEOS;
    } else {
      var i := 0;
      while i < |videoFiles|
        invariant 0 <= i <= |videoFiles|
        invariant html == head + Cards(videoFiles[..i])
      {
        assert videoFiles[..i + 1] == videoFiles[..i] + [videoFiles[i]];
        CardsSnoc(head, videoFiles[..i], videoFiles[i]);
        html := html + Card(videoFiles[i]);
        i := i + 1;
      }
      assert videoFiles[..i] == videoFiles;
    }
    html := html + PAGE_FOOT;
  }

  /** The outcome of `fs.readdir` on the uploads directory. */
  datatype Listing = ReadError | Entries(files: seq<string>)

  /** `GET /videos`: 500 when the directory cannot be read; otherwise the
      gallery of the `.mp4` entries, in listing order. */
  method ListVideos(style: string, listing: Listing) returns (r: Response)
    ensures listing.ReadError? ==> r == Response(500, LIST_ERROR_MESSAGE)
    ensures listing.Entries? ==> r.status == 200 && r.body == GalleryPage(style, VideoFiles(listing.files))
  {
    match listing
    case ReadError =>
      return Response(500, LIST_ERROR_MESSAGE);
    case Entries(files) =>
      var videoFiles := VideoFiles(files);
      var html := RenderGallery(style, videoFiles);
      return Response(200, html);
  }
}
