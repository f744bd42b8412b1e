/**
 * The upload form (components/PhotoUpload.tsx): a type-then-size gate on
 * the chosen file, and four state fields (`file`, `title`, `description`,
 * `previewUrl`) that the handlers set and clear.
 */
module PhotoUpload {
  import opened Wrappers
  import JsString

  /** Ten mebibytes: the first size the form refuses. */
  const MaxFileBytes: nat := 10 * 1024 * 1024

  const ImageTypePrefix: string := "image/"

  /** The parts of a browser `File` the form looks at. */
  datatype FileInfo = FileInfo(name: string, mimeType: string, size: nat)

  datatype Rejection = NotAnImage | TooLarge

  /** What `beforeUpload` returns: `Upload.LIST_IGNORE` with its error message, or `false` (keep the file, no automatic upload). */
  datatype BeforeUploadResult = ListIgnore(reason: Rejection) | NoAutoUpload

  /** `file.type.startsWith('image/')`: the type is `image/` followed by anything, compared case-sensitively. */
  predicate IsImage(mimeType: string)
    ensures IsImage(mimeType) <==>
      |mimeType| >= |ImageTypePrefix| && mimeType == ImageTypePrefix + mimeType[|ImageTypePrefix|..]
  {
    assert |mimeType| >= |ImageTypePrefix| ==>
      (ImageTypePrefix + mimeType[|ImageTypePrefix|..])[..|ImageTypePrefix|] == ImageTypePrefix;
    JsString.StartsWith(mimeType, ImageTypePrefix)
  }

  /**
   * `file.size / 1024 / 1024 < 10`, divided exactly (both divisors are powers
   * of two, so the division is exact). It is exactly the integer test
   * `size < 10485760`: a file of exactly 10 MiB is refused.
   */
  predicate UnderTenMiB(size: nat)
    ensures UnderTenMiB(size) <==> size < MaxFileBytes
  {
    var mib := (size as real) / 1024.0 / 1024.0;
    assert mib * 1048576.0 == size as real;
    mib < 10.0
  }

  /** The gate: the type test runs first, then the size test. */
  function CheckFile(f: FileInfo): (r: BeforeUploadResult)
    ensures r == NoAutoUpload <==> IsImage(f.mimeType) && f.size < MaxFileBytes
    ensures !IsImage(f.mimeType) ==> r == ListIgnore(NotAnImage)
    ensures IsImage(f.mimeType) && f.size >= MaxFileBytes ==> r == ListIgnore(TooLarge)
  {
    if !IsImage(f.mimeType) then ListIgnore(NotAnImage)
    else if !UnderTenMiB(f.size) then ListIgnore(TooLarge)
    else NoAutoUpload
  }

  /** A file that is not an image is reported as such, however large it is. */
  lemma TypeCheckedFirst(f: FileInfo)
    requires !IsImage(f.mimeType) && f.size >= MaxFileBytes
    ensures CheckFile(f) == ListIgnore(NotAnImage)
  {
  }

  /** The request the upload mutation receives. */
  datatype UploadRequest = UploadRequest(file: FileInfo, title: string, description: string)

  class UploadForm {
    var file: Option<FileInfo>
    var title: string
    var description: string
    var previewUrl: Option<string>

    /** A file held by the form always passed the gate. */
    ghost predicate Valid()
      reads this
    {
      file.Some? ==> CheckFile(file.value) == NoAutoUpload
    }

    constructor ()
      ensures Valid()
      ensures file == None && title == "" && description == "" && previewUrl == None
    {
      file, title, description, previewUrl := None, "", "", None;
    }

    /** `handleBeforeUpload`: keeps an accepted file; a refused one leaves the form as it was. */
    method BeforeUpload(f: FileInfo) returns (r: BeforeUploadResult)
      requires Valid()
      modifies this
      ensures Valid()
      ensures r == CheckFile(f)
      ensures file == (if r == NoAutoUpload then Some(f) else old(file))
      ensures title == old(title) && description == old(description) && previewUrl == old(previewUrl)
    {
      r := CheckFile(f);
      if r == NoAutoUpload {
        file := Some(f);
      }
    }

    /** The reader's `onload`: the data URL of the chosen file becomes the preview. */
    method PreviewLoaded(dataUrl: string)
      requires Valid()
      modifies this
      ensures Valid()
      ensures previewUrl == Some(dataUrl)
      ensures file == old(file) && title == old(title) && description == old(description)
    {
      previewUrl := Some(dataUrl);
    }

    /** The title input's `onChange`. */
    method EditTitle(value: string)
      requires Valid()
      modifies this
      ensures Valid()
      ensures title == value
      ensures file == old(file) && description == old(description) && previewUrl == old(previewUrl)
    {
      title := value;
    }

    /** The description area's `onChange`. */
    method EditDescription(value: string)
      requires Valid()
      modifies this
      ensures Valid()
      ensures description == value
      ensures file == old(file) && title == old(title) && previewUrl == old(previewUrl)
    {
      description := value;
    }

    /**
     * `handleUpload` followed by the server's answer: without a file nothing
     * is sent and nothing changes; otherwise the file, title and description
     * are sent, and a success clears all four fields while a failure keeps them.
     */
    method HandleUpload(succeeded: bool) returns (sent: Option<UploadRequest>)
      requires Valid()
      modifies this
      ensures Valid()
      ensures old(file).None? ==> sent == None
      ensures old(file).Some? ==> sent == Some(UploadRequest(old(file).value, old(title), old(description)))
      ensures sent.Some? && succeeded ==> file == None && title == "" && description == "" && previewUrl == None
      ensures !(sent.Some? && succeeded) ==>
        file == old(file) && title == old(title) && description == old(description) && previewUrl == old(previewUrl)
    {
      if file.None? {
        sent := None;
        return;
      }
      sent := Some(UploadRequest(file.value, title, description));
      if succeeded {
        file := None;
        title := "";
        description := "";
        previewUrl := None;
      }
    }

    /** `handleRemove`: drops the file and its preview, keeps what was typed. */
    method Remove()
      requires Valid()
      modifies this
      ensures Valid()
      ensures file == None && previewUrl == None
      ensures title == old(title) && description == old(description)
    {
      file := None;
      previewUrl := None;
    }
  }
}
