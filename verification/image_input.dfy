/** The image upload box: the checks a chosen or dropped file must pass, the
    state it sets, the base64 payload it hands on, the drag highlight, and
    removing the image. Reading the file is I/O: the data URL the reader
    produces is an input. */
module ImageInput {

  import opened Wrappers
  import Text

  /** The file as the browser describes it. */
  datatype File = File(name: string, mimeType: string, size: nat)

  /** The box's state: the drag highlight, the data URL shown, and the file
      name shown. */
  datatype InputState = InputState(dragActive: bool, uploadedImage: Option<string>, imageName: string)

  /** What a handler does beyond its state change: an alert, the upload
      callback with the file and the base64 part of its data URL (None when
      the URL has no comma), or the remove callback. */
  datatype Effect = Alert(message: string) | Uploaded(file: File, imageBase64: Option<string>) | Removed

  /** The largest accepted file, in bytes (10 MB). */
  const MaxFileBytes: nat := 10 * 1024 * 1024

  const NotAnImage := "请上传图片文件"
  const TooLarge := "图片文件大小不能超过10MB"

  /** The box as first shown, from the URL and name it is given. */
  function Initial(uploadedImageUrl: Option<string>, imageName: Option<string>): (st: InputState)
    ensures !st.dragActive
    ensures st.uploadedImage.Some? <==> Text.Present(uploadedImageUrl)
    ensures st.uploadedImage.Some? ==> st.uploadedImage == uploadedImageUrl
    ensures Text.Present(imageName) ==> st.imageName == imageName.value
    ensures !Text.Present(imageName) ==> st.imageName == ""
  {
    InputState(false,
               if Text.Present(uploadedImageUrl) then uploadedImageUrl else None,
               if Text.Present(imageName) then imageName.value else "")
  }

  /** A file passes when its type is an image type and it is at most 10 MB. */
  predicate Accepted(file: File) {
    Text.StartsWith(file.mimeType, "image/") && file.size <= MaxFileBytes
  }

  /** `handleFile`: the type is checked first, then the size; a rejected file
      gets one alert and changes nothing. An accepted file's data URL is
      shown with its name, and the callback gets the text after the comma. */
  function HandleFile(st: InputState, file: File, dataUrl: string): (r: (InputState, seq<Effect>))
    ensures !Text.StartsWith(file.mimeType, "image/") ==> r == (st, [Alert(NotAnImage)])
    ensures Text.StartsWith(file.mimeType, "image/") && file.size > MaxFileBytes ==> r == (st, [Alert(TooLarge)])
    ensures Accepted(file) ==> r.0 == InputState(st.dragActive, Some(dataUrl), file.name)
    ensures Accepted(file) ==> r.1 == [Uploaded(file, Text.SecondField(dataUrl))]
  {
    if !Text.StartsWith(file.mimeType, "image/") then (st, [Alert(NotAnImage)])
    else if file.size > MaxFileBytes then (st, [Alert(TooLarge)])
    else (st.(uploadedImage := Some(dataUrl), imageName := file.name), [Uploaded(file, Text.SecondField(dataUrl))])
  }

  /** The upload callback fires exactly for accepted files, and a file that
      fails both checks is reported as the wrong type. */
  lemma UploadIffAccepted(st: InputState, file: File, dataUrl: string)
    ensures var r := HandleFile(st, file, dataUrl);
            && (r.1[0].Uploaded? <==> Accepted(file))
            && (!Accepted(file) <==> r.0 == st && r.1[0].Alert?)
            && |r.1| == 1
  {
  }

  /** Exactly 10 MB is accepted; one byte more is not. */
  lemma SizeBoundary(name: string)
    ensures Accepted(File(name, "image/png", 10485760))
    ensures !Accepted(File(name, "image/png", 10485761))
  {
  }

  /** A character of the base64 alphabet (section 4 of RFC 4648), padding
      included. */
  predicate IsBase64Char(c: char) {
    'A' <= c <= 'Z' || 'a' <= c <= 'z' || '0' <= c <= '9' || c == '+' || c == '/' || c == '='
  }

  /** The base64 data URL of section 3 of RFC 2397 for a media type and data. */
  function DataUrl(mediaType: string, data: string): string {
    "data:" + mediaType + ";base64," + data
  }

  /** The field after the first comma of `p + "," + d` is `d` when neither
      part holds a comma. */
  lemma {:induction false} SecondFieldOfJoin(p: string, d: string)
    requires ',' !in p && ',' !in d
    ensures Text.SecondField(p + "," + d) == Some(d)
  {
    if p == [] {
      var s := p + "," + d;
      assert s[0] == ',' && s[1..] == d;
      assert Text.UpToComma(d) == d;
    } else {
      assert (p + "," + d)[1..] == p[1..] + "," + d;
      SecondFieldOfJoin(p[1..], d);
    }
  }

  /** A data URL with a comma-free media type and base64 data hands the
      callback exactly the data. */
  lemma PayloadRoundTrip(mediaType: string, data: string)
    requires ',' !in mediaType
    requires forall i :: 0 <= i < |data| ==> IsBase64Char(data[i])
    ensures Text.SecondField(DataUrl(mediaType, data)) == Some(data)
  {
    var p := "data:" + mediaType + ";base64";
    assert ',' !in p;
    assert ',' !in data;
    assert DataUrl(mediaType, data) == p + "," + data;
    SecondFieldOfJoin(p, data);
  }

  /** An upload of an accepted image file whose reader yields a base64 data
      URL passes the data on unchanged. */
  lemma UploadPassesData(st: InputState, file: File, mediaType: string, data: string)
    requires Accepted(file)
    requires ',' !in mediaType
    requires forall i :: 0 <= i < |data| ==> IsBase64Char(data[i])
    ensures HandleFile(st, file, DataUrl(mediaType, data)).1 == [Uploaded(file, Some(data))]
  {
    PayloadRoundTrip(mediaType, data);
  }

  /** `handleDrag`: entering or moving over the box highlights it, leaving
      clears the highlight, any other event type leaves it as it is. */
  function HandleDrag(st: InputState, eventType: string): (r: InputState)
    ensures eventType == "dragenter" || eventType == "dragover" ==> r.dragActive
    ensures eventType == "dragleave" ==> !r.dragActive
    ensures eventType != "dragenter" && eventType != "dragover" && eventType != "dragleave" ==> r == st
    ensures r.uploadedImage == st.uploadedImage && r.imageName == st.imageName
  {
    if eventType == "dragenter" || eventType == "dragover" then st.(dragActive := true)
    else if eventType == "dragleave" then st.(dragActive := false)
    else st
  }

  /** Drag events only move the highlight: repeating one changes nothing
      more, and entering then leaving ends with the highlight off and the
      image untouched. */
  lemma DragLaws(st: InputState, eventType: string)
    ensures HandleDrag(HandleDrag(st, eventType), eventType) == HandleDrag(st, eventType)
    ensures HandleDrag(HandleDrag(st, "dragenter"), "dragleave") == st.(dragActive := false)
    ensures HandleDrag(HandleDrag(st, "dragleave"), "dragover").dragActive
  {
  }

  /** The first file of a file list, handled; an empty list does nothing. */
  function HandleFirstFile(st: InputState, files: seq<File>, dataUrl: string): (r: (InputState, seq<Effect>))
    ensures files == [] ==> r == (st, [])
    ensures files != [] ==> r == HandleFile(st, files[0], dataUrl)
  {
    if files == [] then (st, []) else HandleFile(st, files[0], dataUrl)
  }

  /** `handleDrop`: the highlight is cleared, then the first dropped file, if
      any, is handled. */
  function HandleDrop(st: InputState, files: seq<File>, dataUrl: string): (r: (InputState, seq<Effect>))
    ensures !r.0.dragActive
    ensures files == [] ==> r == (st.(dragActive := false), [])
    ensures files != [] && !Accepted(files[0]) ==> r.0 == st.(dragActive := false)
    ensures files != [] && Accepted(files[0]) ==> r.1 == [Uploaded(files[0], Text.SecondField(dataUrl))]
  {
    HandleFirstFile(st.(dragActive := false), files, dataUrl)
  }

  /** `handleFileInputChange`: the first chosen file, if any, is handled. */
  function HandleFileInputChange(st: InputState, files: seq<File>, dataUrl: string): (r: (InputState, seq<Effect>))
    ensures r.0.dragActive == st.dragActive
    ensures files == [] ==> r == (st, [])
    ensures files != [] ==> r == HandleFile(st, files[0], dataUrl)
  {
    HandleFirstFile(st, files, dataUrl)
  }

  /** A drop and a file choice of the same files differ only in the highlight. */
  lemma DropIsChoiceWithoutHighlight(st: InputState, files: seq<File>, dataUrl: string)
    ensures HandleDrop(st, files, dataUrl) == HandleFileInputChange(st.(dragActive := false), files, dataUrl)
  {
  }

  /** `handleRemoveImage`: the image and its name are cleared and the remove
      callback fires. */
  function HandleRemoveImage(st: InputState): (r: (InputState, seq<Effect>))
    ensures r.0.uploadedImage == None && r.0.imageName == ""
    ensures r.0.dragActive == st.dragActive
    ensures r.1 == [Removed]
  {
    (st.(uploadedImage := None, imageName := ""), [Removed])
  }

  /** The drop zone is shown while no image is set. */
  predicate ShowsDropZone(st: InputState) {
    !Text.Present(st.uploadedImage)
  }

  /** Removing an uploaded image brings back the drop zone and the state the
      box had before the upload, when it had no image then. */
  lemma RemoveUndoesUpload(st: InputState, file: File, dataUrl: string)
    requires Accepted(file) && dataUrl != ""
    requires st.uploadedImage == None && st.imageName == ""
    ensures var up := HandleFile(st, file, dataUrl).0;
            && !ShowsDropZone(up)
            && HandleRemoveImage(up).0 == st
            && ShowsDropZone(HandleRemoveImage(up).0)
  {
  }
}
