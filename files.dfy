/**
 * Files picked in a browser file input, the image types the chat and the
 * news editor accept, and the outcome of uploading a list of files.
 */
module Files {
  import opened Js

  /** A picked file: its name and its MIME type. */
  datatype File = File(name: string, kind: string)

  const ImageTypes: seq<string> := ["image/png", "image/jpeg", "image/jpg"]

  /** An accepted image: PNG, JPEG or JPG by MIME type. */
  predicate IsImage(f: File)
  {
    f.kind in ImageTypes
  }

  /** The three accepted types are the only ones. */
  lemma IsImageExactly(f: File)
    ensures IsImage(f) <==> f.kind == "image/png" || f.kind == "image/jpeg" || f.kind == "image/jpg"
  {
  }

  /** Every upload of the sequence succeeded. */
  ghost predicate AllUploaded(uploads: seq<Option<string>>)
  {
    forall j :: 0 <= j < |uploads| ==> uploads[j].Some?
  }

  function Urls(uploads: seq<Option<string>>): (r: seq<string>)
    requires AllUploaded(uploads)
    ensures |r| == |uploads| && forall j :: 0 <= j < |r| ==> r[j] == uploads[j].value
  {
    seq(|uploads|, j requires 0 <= j < |uploads| => uploads[j].value)
  }
}
