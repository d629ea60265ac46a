/**
 * The admin's news editor: a title, a caption and a list of picked images.
 * Submitting validates the two texts, uploads every image, and writes a
 * news document.  `uploads[j]` is the download address image j receives,
 * None when its upload throws; `writeFails` is whether the document write
 * throws; `now` is `Date.now()`.
 */
module CreateNews {
  import opened Js
  import opened Files

  const TitleRequired := "Title is required"
  const CaptionRequired := "Caption is required"
  const Created := "News created successfully!"
  const CreateFailed := "Error creating news. Please try again."

  /** The document written to `news`. */
  datatype NewsDoc = NewsDoc(title: string, caption: string, images: seq<string>, createdAt: int)

  /** What a picked or dropped batch adds: its accepted images in order, or nothing and an alert. */
  function Accepted(files: seq<File>): (r: Option<seq<File>>)
    ensures r.None? <==> forall k :: 0 <= k < |files| ==> !IsImage(files[k])
    ensures r.Some? ==> r.value == Filter(files, IsImage) && r.value != []
  {
    var newImages := Filter(files, IsImage);
    if newImages == [] then
      FilterMembers(files, IsImage);
      None
    else
      FilterMembers(files, IsImage);
      Some(newImages)
  }

  class NewsEditor {
    var title: string
    var caption: string
    var images: seq<File>
    var loading: bool
    var titleError: string
    var captionError: string

    /** Every listed image is one of the accepted types. */
    ghost predicate Valid()
      reads this`images
    {
      forall k :: 0 <= k < |images| ==> IsImage(images[k])
    }

    constructor ()
      ensures title == "" && caption == "" && images == [] && !loading
      ensures titleError == "" && captionError == ""
      ensures Valid()
    {
      title, caption, images, loading := "", "", [], false;
      titleError, captionError := "", "";
    }

    /**
     * handleImageChange and handleDrop: a batch with an accepted image
     * appends those images after the existing ones; a batch with none, or
     * no batch, leaves the list alone. `alerted` is the invalid-type alert.
     */
    method AddFiles(files: Option<seq<File>>) returns (alerted: bool)
      requires Valid()
      modifies this`images
      ensures Valid()
      ensures alerted <==> files.Some? && Accepted(files.value).None?
      ensures files.None? || alerted ==> images == old(images)
      ensures files.Some? && !alerted ==> images == old(images) + Filter(files.value, IsImage)
    {
      alerted := false;
      if files.None? {
        return;
      }
      var newImages := Accepted(files.value);
      if newImages.None? {
        alerted := true;
        return;
      }
      images := images + newImages.value;
    }

    /** handleImageRemove: drops exactly the image at that position. */
    method RemoveImage(index: int)
      requires Valid()
      modifies this`images
      ensures Valid()
      ensures images == RemoveAt(old(images), index)
    {
      images := RemoveAt(images, index);
    }

    /** validateForm: both messages are set, each from its own field. */
    method ValidateForm() returns (isValid: bool)
      modifies this`titleError, this`captionError
      ensures isValid <==> title != "" && caption != ""
      ensures titleError == if title == "" then TitleRequired else ""
      ensures captionError == if caption == "" then CaptionRequired else ""
    {
      isValid := true;
      if title == "" {
        titleError := TitleRequired;
        isValid := false;
      } else {
        titleError := "";
      }
      if caption == "" {
        captionError := CaptionRequired;
        isValid := false;
      } else {
        captionError := "";
      }
    }

    /**
     * handleSubmit.  An invalid form only sets the messages.  Otherwise
     * a document is written exactly when every upload and the write
     * succeed, carrying the texts and the addresses in image order, and
     * only then are the fields cleared; loading always ends false.  The
     * alert reports the outcome of a valid submission.
     */
    method Submit(uploads: seq<Option<string>>, writeFails: bool, now: int) returns (written: Option<NewsDoc>, alert: Option<string>)
      requires |uploads| == |images|
      modifies this`titleError, this`captionError, this`loading, this`title, this`caption, this`images
      ensures titleError == if old(title) == "" then TitleRequired else ""
      ensures captionError == if old(caption) == "" then CaptionRequired else ""
      ensures old(title) == "" || old(caption) == "" ==>
        written == None && alert == None && loading == old(loading)
        && title == old(title) && caption == old(caption) && images == old(images)
      ensures old(title) != "" && old(caption) != "" ==> alert == Some(if written.Some? then Created else CreateFailed)
      ensures old(title) != "" && old(caption) != "" ==> !loading
      ensures written.Some? <==> old(title) != "" && old(caption) != "" && AllUploaded(uploads) && !writeFails
      ensures written.Some? ==> written.value == NewsDoc(old(title), old(caption), Urls(uploads), now)
      ensures written.Some? ==> title == "" && caption == "" && images == []
      ensures written.None? ==> title == old(title) && caption == old(caption) && images == old(images)
    {
      var isValid := ValidateForm();
      if !isValid {
        return None, None;
      }
      loading := true;
      var imageUrls: seq<string> := [];
      var i := 0;
      var ok := true;
      while i < |uploads| && ok
        invariant 0 <= i <= |uploads|
        invariant |imageUrls| == i
        invariant forall j :: 0 <= j < i ==> uploads[j].Some? && imageUrls[j] == uploads[j].value
        invariant !ok ==> !AllUploaded(uploads)
        modifies {}
        decreases |uploads| - i, ok
      {
        if uploads[i].None? {
          ok := false;
        } else {
          imageUrls := imageUrls + [uploads[i].value];
          i := i + 1;
        }
      }
      if !ok || writeFails {
        written := None;
        alert := Some(CreateFailed);
      } else {
        assert imageUrls == Urls(uploads);
        written := Some(NewsDoc(title, caption, imageUrls, now));
        title := "";
        caption := "";
        images := [];
        alert := Some(Created);
      }
      loading := false;
    }
  }
}
