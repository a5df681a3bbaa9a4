/**
 * The image attachment step of the create and update endpoints: a file
 * saved as `<guid>_<fileName>` and recorded as a URL under a per-resource
 * prefix. Directory creation, the file copy and `Guid.NewGuid()` are
 * outside the model: the outcome of the upload arrives as an `Upload`.
 */
module Images {
  import opened Common

  /** URL prefix used by products, orders and order items. */
  const ImagesPrefix := "/images/"
  /** URL prefix used by employees. */
  const EmployeeImagesPrefix := "/Images/Employee/"

  const UploadErrorMessage := "An error occurred while uploading the image."

  /**
   * The image form field and what happened to it: no file sent, a file
   * saved under the generated GUID and its sanitised name, or an exception
   * while saving (its message).
   */
  datatype Upload = NoFile | Saved(guid: string, fileName: string) | Failed(details: string)

  /**
   * The stored URL of a saved upload: the folder prefix, then the file's
   * on-disk name `{guid}_{fileName}`.
   */
  function ImageUrl(prefix: string, guid: string, fileName: string): (url: string)
    ensures |url| == |prefix| + |guid| + 1 + |fileName|
    ensures prefix <= url
    ensures url[|prefix|..|prefix| + |guid|] == guid
    ensures url[|prefix| + |guid|] == '_'
    ensures url[|prefix| + |guid| + 1..] == fileName
  {
    prefix + guid + "_" + fileName
  }

  /** Position of the first `c` in `s`, or |s| when there is none. */
  function FirstIndexOf(s: string, c: char): (i: nat)
    ensures i <= |s|
    ensures i < |s| ==> s[i] == c
    ensures forall j :: 0 <= j < i ==> s[j] != c
  {
    if s == [] then 0
    else if s[0] == c then 0
    else 1 + FirstIndexOf(s[1..], c)
  }

  /** Recover the GUID and the file name from an image URL. */
  function ParseImageUrl(prefix: string, url: string): Option<(string, string)>
  {
    if |url| < |prefix| || url[..|prefix|] != prefix then None
    else
      var rest := url[|prefix|..];
      var i := FirstIndexOf(rest, '_');
      if i == |rest| then None else Some((rest[..i], rest[i + 1..]))
  }

  /**
   * A GUID in its default text form has no underscore, so the URL built
   * from it gives back the GUID and the file name.
   */
  lemma ImageUrlRoundTrip(prefix: string, guid: string, fileName: string)
    requires '_' !in guid
    ensures ParseImageUrl(prefix, ImageUrl(prefix, guid, fileName)) == Some((guid, fileName))
  {
    var url := ImageUrl(prefix, guid, fileName);
    assert url[..|prefix|] == prefix;
    var rest := url[|prefix|..];
    assert rest == guid + "_" + fileName;
    var i := FirstIndexOf(rest, '_');
    assert rest[|guid|] == '_';
    assert i == |guid|;
    assert rest[..i] == guid;
    assert rest[i + 1..] == fileName;
  }

  /**
   * Two uploads with different (GUID, file name) pairs never share a URL,
   * for GUIDs without '_' (true of `Guid.ToString()`).
   */
  lemma ImageUrlsDistinct(prefix: string, g1: string, f1: string, g2: string, f2: string)
    requires '_' !in g1 && '_' !in g2
    requires (g1, f1) != (g2, f2)
    ensures ImageUrl(prefix, g1, f1) != ImageUrl(prefix, g2, f2)
  {
    ImageUrlRoundTrip(prefix, g1, f1);
    ImageUrlRoundTrip(prefix, g2, f2);
  }

  /**
   * The image URL the entity ends up with: unchanged without a file, the
   * new URL after a successful save, and the exception message when the
   * save fails (the caller answers 500).
   */
  function AttachImage(prefix: string, image: Upload, current: Option<string>): (r: Result<Option<string>, string>)
    ensures r.Failure? <==> image.Failed?
    ensures image.Failed? ==> r.error == image.details
    ensures image.NoFile? ==> r == Success(current)
    ensures image.Saved? ==> r.Success? && r.value.Some? && prefix <= r.value.value
    ensures image.Saved? && '_' !in image.guid ==>
      ParseImageUrl(prefix, r.value.value) == Some((image.guid, image.fileName))
  {
    match image
    case NoFile => Success(current)
    case Saved(guid, fileName) =>
      var url := ImageUrl(prefix, guid, fileName);
      assert '_' !in guid ==> ParseImageUrl(prefix, url) == Some((guid, fileName)) by {
        if '_' !in guid {
          ImageUrlRoundTrip(prefix, guid, fileName);
        }
      }
      Success(Some(url))
    case Failed(details) => Failure(details)
  }
}
