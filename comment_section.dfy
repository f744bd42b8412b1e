/**
 * The comment box under each photo (components/CommentSection.tsx): how a
 * submission is normalised, the relative-time labels of the preview, and
 * the "+ N more comments" line.
 */
module CommentSection {
  import opened Wrappers
  import JsString
  import OptimisticComment
  import FeedQuery

  /**
   * What `handleSubmit` sends: nothing when the text is blank; otherwise the
   * trimmed text and the trimmed name, the name left out when it trims to empty.
   */
  function Submission(photoId: string, commentText: string, authorName: string): (r: Option<OptimisticComment.AddCommentData>)
    ensures r.None? <==> JsString.AllWhitespace(commentText)
    ensures r.Some? ==> r.value.photoId == photoId && r.value.content == JsString.Trim(commentText)
    ensures r.Some? ==> (r.value.authorName.None? <==> JsString.AllWhitespace(authorName))
    ensures r.Some? && r.value.authorName.Some? ==> r.value.authorName.value == JsString.Trim(authorName)
  {
    JsString.TrimEmptyIff(commentText);
    JsString.TrimEmptyIff(authorName);
    var content := JsString.Trim(commentText);
    var name := JsString.Trim(authorName);
    if content == "" then None
    else Some(OptimisticComment.AddCommentData(photoId, content, if name == "" then None else Some(name)))
  }

  /** Submitted content is never empty and carries no surrounding whitespace. */
  lemma SubmittedContentTrimmed(photoId: string, commentText: string, authorName: string)
    requires !JsString.AllWhitespace(commentText)
    ensures var content := Submission(photoId, commentText, authorName).value.content;
      content != [] && !JsString.IsWhitespace(content[0]) && !JsString.IsWhitespace(content[|content| - 1])
  {
  }

  /**
   * The provisional comment shows the trimmed name, or "Anonymous" when the
   * name field was blank.
   */
  lemma ProvisionalAuthor(photoId: string, commentText: string, authorName: string, nowMs: nat, nowIso: string)
    requires !JsString.AllWhitespace(commentText)
    ensures var c := OptimisticComment.ProvisionalComment(Submission(photoId, commentText, authorName).value, nowMs, nowIso);
      c.authorName == if JsString.AllWhitespace(authorName) then OptimisticComment.Anonymous else JsString.Trim(authorName)
  {
  }

  /** The two text fields of the comment box. */
  class CommentForm {
    var commentText: string
    var authorName: string

    constructor ()
      ensures commentText == "" && authorName == ""
    {
      commentText, authorName := "", "";
    }

    /**
     * `handleSubmit` followed by the server's answer: the mutation runs on
     * the cache with the normalised submission; the text is cleared only
     * when the comment was accepted, and the name is always kept.
     */
    method Submit(cache: OptimisticComment.QueryCache, photoId: string, nowMs: nat, nowIso: string, succeeded: bool)
      returns (sent: Option<OptimisticComment.AddCommentData>)
      modifies this, cache
      ensures sent == Submission(photoId, old(commentText), old(authorName))
      ensures sent.None? ==> cache.data == old(cache.data)
      ensures sent.Some? && succeeded ==>
        cache.data == OptimisticComment.ApplyOptimistic(old(cache.data), photoId,
                                                        OptimisticComment.ProvisionalComment(sent.value, nowMs, nowIso))
      ensures sent.Some? && !succeeded ==> cache.data == old(cache.data)
      ensures commentText == (if sent.Some? && succeeded then "" else old(commentText))
      ensures authorName == old(authorName)
    {
      sent := Submission(photoId, commentText, authorName);
      if sent.None? {
        return;
      }
      cache.Mutate(sent.value, nowMs, nowIso, succeeded);
      if succeeded {
        commentText := "";
      }
    }
  }

  /** `Math.floor((now - then) / 1000)` over millisecond timestamps. */
  function DiffInSeconds(nowMs: int, thenMs: int): (d: int)
    ensures d * 1000 <= nowMs - thenMs < (d + 1) * 1000
  {
    (nowMs - thenMs) / 1000
  }

  /** The label `formatTimeAgo` picks; a week or more falls back to a locale date (not modelled). */
  datatype TimeAgo = JustNow | MinutesAgo(n: nat) | HoursAgo(n: nat) | DaysAgo(n: nat) | CalendarDate

  const Minute: nat := 60
  const Hour: nat := 3600
  const Day: nat := 86400
  const Week: nat := 604800

  /** Buckets a difference in seconds; every count shown is the floor of the difference in its unit. */
  function FormatTimeAgo(d: int): (r: TimeAgo)
    ensures r.JustNow? <==> d < Minute
    ensures r.MinutesAgo? <==> Minute <= d < Hour
    ensures r.HoursAgo? <==> Hour <= d < Day
    ensures r.DaysAgo? <==> Day <= d < Week
    ensures r.CalendarDate? <==> Week <= d
    ensures r.MinutesAgo? ==> 1 <= r.n <= 59 && r.n * Minute <= d < (r.n + 1) * Minute
    ensures r.HoursAgo? ==> 1 <= r.n <= 23 && r.n * Hour <= d < (r.n + 1) * Hour
    ensures r.DaysAgo? ==> 1 <= r.n <= 6 && r.n * Day <= d < (r.n + 1) * Day
  {
    if d < Minute then JustNow
    else if d < Hour then MinutesAgo(d / Minute)
    else if d < Day then HoursAgo(d / Hour)
    else if d < Week then DaysAgo(d / Day)
    else CalendarDate
  }

  /**
   * `s` is a decimal count followed by `suffix`: the digits have no leading
   * zero and read back as `n`.
   */
  predicate ShowsCount(s: string, suffix: string, n: nat) {
    && |s| > |suffix|
    && s[|s| - |suffix|..] == suffix
    && JsString.AllDigits(s[..|s| - |suffix|])
    && JsString.DecimalValue(s[..|s| - |suffix|]) == n
    && (|s| - |suffix| > 1 ==> s[0] != '0')
  }

  /** The decimal rendering of `n` followed by `suffix`. */
  function CountText(n: nat, suffix: string): (r: string)
    ensures ShowsCount(r, suffix, n)
  {
    var digits := JsString.NatToString(n);
    JsString.DecimalValueOfNatToString(n);
    assert (digits + suffix)[..|digits|] == digits;
    assert (digits + suffix)[|digits|..] == suffix;
    digits + suffix
  }

  /** The text of a label; the locale date of an older comment is not modelled. */
  function Render(t: TimeAgo): (r: Option<string>)
    ensures r.None? <==> t.CalendarDate?
    ensures t.JustNow? ==> r == Some("just now")
    ensures t.MinutesAgo? ==> r.Some? && ShowsCount(r.value, "m ago", t.n)
    ensures t.HoursAgo? ==> r.Some? && ShowsCount(r.value, "h ago", t.n)
    ensures t.DaysAgo? ==> r.Some? && ShowsCount(r.value, "d ago", t.n)
  {
    match t
    case JustNow => Some("just now")
    case MinutesAgo(n) => Some(CountText(n, "m ago"))
    case HoursAgo(n) => Some(CountText(n, "h ago"))
    case DaysAgo(n) => Some(CountText(n, "d ago"))
    case CalendarDate => None
  }

  function Rank(t: TimeAgo): nat {
    match t
    case JustNow => 0
    case MinutesAgo(_) => 1
    case HoursAgo(_) => 2
    case DaysAgo(_) => 3
    case CalendarDate => 4
  }

  function Amount(t: TimeAgo): nat {
    match t
    case MinutesAgo(n) => n
    case HoursAgo(n) => n
    case DaysAgo(n) => n
    case _ => 0
  }

  /** An older comment never gets a younger-looking label: the unit, then the count, never decrease. */
  lemma TimeAgoMonotone(d1: int, d2: int)
    requires d1 <= d2
    ensures Rank(FormatTimeAgo(d1)) <= Rank(FormatTimeAgo(d2))
    ensures Rank(FormatTimeAgo(d1)) == Rank(FormatTimeAgo(d2)) ==> Amount(FormatTimeAgo(d1)) <= Amount(FormatTimeAgo(d2))
  {
    var r1, r2 := FormatTimeAgo(d1), FormatTimeAgo(d2);
    if Rank(r1) == Rank(r2) && Rank(r1) in {1, 2, 3} {
      var u := if r1.MinutesAgo? then Minute else if r1.HoursAgo? then Hour else Day;
      assert Amount(r1) * u <= d1 <= d2 < (Amount(r2) + 1) * u;
    }
  }

  /**
   * The whole of `formatTimeAgo` over millisecond timestamps: a comment
   * stamped in the future reads "just now", and each count is the floor of
   * the millisecond difference in its unit.
   */
  lemma TimeAgoOfTimestamps(nowMs: int, thenMs: int)
    ensures nowMs < thenMs ==> FormatTimeAgo(DiffInSeconds(nowMs, thenMs)) == JustNow
    ensures var t := FormatTimeAgo(DiffInSeconds(nowMs, thenMs));
      && (t.MinutesAgo? ==> t.n == (nowMs - thenMs) / 60000)
      && (t.HoursAgo? ==> t.n == (nowMs - thenMs) / 3600000)
      && (t.DaysAgo? ==> t.n == (nowMs - thenMs) / 86400000)
  {
  }

  /**
   * The "+ N more comments" line, shown inside the preview block: it needs a
   * non-empty preview and a count above three, and N is the count less three.
   */
  function MoreComments(previewLength: nat, count: nat): (r: Option<nat>)
    ensures r.Some? <==> previewLength > 0 && count > 3
    ensures r.Some? ==> r.value >= 1 && r.value + 3 == count
  {
    if previewLength > 0 && count > 3 then Some(count - 3) else None
  }

  /**
   * After an optimistic comment on a photo that already showed the line, the
   * line counts one more.
   */
  lemma MoreCommentsAfterOptimistic(p: FeedQuery.Photo, c: FeedQuery.Comment)
    requires MoreComments(|p.comments|, p.commentCount).Some?
    ensures var q := OptimisticComment.WithComment(p, c);
      MoreComments(|q.comments|, q.commentCount) == Some(MoreComments(|p.comments|, p.commentCount).value + 1)
  {
  }
}
