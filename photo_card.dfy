/**
 * The photo card (components/PhotoCard.tsx): the file-size unit, the
 * comment-count label, the dimensions line and the image's alt text.
 */
module PhotoCard {
  import opened Wrappers
  import JsString

  const KiB: nat := 1024
  const MiB: nat := 1024 * 1024

  datatype SizeUnit = Bytes | Kilobytes | Megabytes

  function UnitBytes(u: SizeUnit): real {
    match u
    case Bytes => 1.0
    case Kilobytes => 1024.0
    case Megabytes => 1048576.0
  }

  function Suffix(u: SizeUnit): string {
    match u
    case Bytes => " B"
    case Kilobytes => " KB"
    case Megabytes => " MB"
  }

  /** The unit `formatFileSize` picks and the exact quantity in that unit, before `toFixed(1)` rounds it. */
  datatype FileSizeLabel = FileSizeLabel(unit: SizeUnit, magnitude: real)

  function FormatFileSize(bytes: nat): (r: FileSizeLabel)
    ensures r.unit == Bytes <==> bytes < KiB
    ensures r.unit == Kilobytes <==> KiB <= bytes < MiB
    ensures r.unit == Megabytes <==> MiB <= bytes
    ensures r.magnitude * UnitBytes(r.unit) == bytes as real
    ensures r.unit != Bytes ==> 1.0 <= r.magnitude
    ensures r.unit != Megabytes ==> r.magnitude < 1024.0
  {
    if bytes < KiB then FileSizeLabel(Bytes, bytes as real)
    else if bytes < MiB then FileSizeLabel(Kilobytes, (bytes as real) / 1024.0)
    else FileSizeLabel(Megabytes, (bytes as real) / 1048576.0)
  }

  /** `bytes + ' B'`: below one kibibyte the size is printed as a whole number of bytes. */
  function ByteSizeText(bytes: nat): (r: string)
    requires bytes < KiB
    ensures r == JsString.NatToString(bytes) + Suffix(FormatFileSize(bytes).unit)
  {
    JsString.NatToString(bytes) + " B"
  }

  function UnitRank(u: SizeUnit): nat {
    match u
    case Bytes => 0
    case Kilobytes => 1
    case Megabytes => 2
  }

  /** A larger file never gets a smaller unit. */
  lemma UnitMonotone(b1: nat, b2: nat)
    requires b1 <= b2
    ensures UnitRank(FormatFileSize(b1).unit) <= UnitRank(FormatFileSize(b2).unit)
  {
  }

  /** The word after the comment count. */
  function CommentLabel(count: nat): (r: string)
    ensures r == "comment" <==> count == 1
    ensures r == "comments" <==> count != 1
  {
    if count == 1 then "comment" else "comments"
  }

  /** `photo.title || 'Photo'`: never empty, the title whenever there is one. */
  function AltText(title: Option<string>): (r: string)
    ensures r != ""
    ensures title.Some? && title.value != "" ==> r == title.value
    ensures (title.None? || title.value == "") ==> r == "Photo"
  {
    if title.Some? && title.value != "" then title.value else "Photo"
  }

  /** What the dimensions slot of the card renders. */
  datatype DimensionsNode = Nothing | StrayZero | Shown(width: int, height: int)

  /**
   * `photo.width && photo.height && <span>…</span>` as written: a null
   * operand renders nothing, but a zero operand is itself the value of the
   * expression and is rendered as the text "0".
   */
  function DimensionsAsWritten(width: Option<int>, height: Option<int>): (r: DimensionsNode)
    ensures r.Shown? <==> width.Some? && width.value != 0 && height.Some? && height.value != 0
    ensures r == StrayZero <==> width == Some(0) || (width.Some? && width.value != 0 && height == Some(0))
    ensures r.Shown? ==> r.width == width.value && r.height == height.value
  {
    match width
    case None => Nothing
    case Some(w) =>
      if w == 0 then StrayZero
      else match height
        case None => Nothing
        case Some(h) => if h == 0 then StrayZero else Shown(w, h)
  }

  /** A photo stored with width 0 shows a stray "0" in its metadata row. */
  lemma ZeroWidthRendersZero()
    ensures DimensionsAsWritten(Some(0), Some(480)) == StrayZero
  {
  }

  /** The dimensions line as intended: shown exactly when both sizes are known and non-zero, nothing otherwise. */
  function Dimensions(width: Option<int>, height: Option<int>): (r: DimensionsNode)
    ensures r.Shown? <==> width.Some? && width.value != 0 && height.Some? && height.value != 0
    ensures r.Shown? ==> r.width == width.value && r.height == height.value
    ensures !r.Shown? ==> r == Nothing
  {
    if width.Some? && width.value != 0 && height.Some? && height.value != 0
    then Shown(width.value, height.value)
    else Nothing
  }

  /** The two agree except where the written expression leaks a zero. */
  lemma DimensionsDifferOnlyByStrayZero(width: Option<int>, height: Option<int>)
    ensures DimensionsAsWritten(width, height) != Dimensions(width, height) <==> DimensionsAsWritten(width, height) == StrayZero
  {
  }
}
