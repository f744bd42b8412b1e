/**
 * The optimistic comment mutation (hooks/useAddComment.ts): before the
 * server answers, every cached copy of the target photo gets a provisional
 * comment at the head of its preview (cut back to three) and a count one
 * higher; if the server call fails, the cache goes back to the snapshot
 * taken just before.
 */
module OptimisticComment {
  import opened Wrappers
  import opened FeedQuery
  import JsString
  import PhotoGallery

  /** The variables of one comment mutation. */
  datatype AddCommentData = AddCommentData(photoId: string, content: string, authorName: Option<string>)

  const TempIdPrefix: string := "temp-"
  const Anonymous: string := "Anonymous"

  /** How many comments a cached preview holds. */
  const PreviewSize: nat := 3

  /** `authorName || 'Anonymous'`: a missing or empty name becomes the sentinel, any other is kept. */
  function AuthorOrAnonymous(name: Option<string>): (r: string)
    ensures (name.None? || name.value == "") ==> r == Anonymous
    ensures (name.Some? && name.value != "") ==> r == name.value
  {
    if name.Some? && name.value != "" then name.value else Anonymous
  }

  /**
   * The provisional comment: its id is `temp-` followed by the clock reading
   * in milliseconds; `nowIso` stands for `new Date().toISOString()`.
   */
  function ProvisionalComment(v: AddCommentData, nowMs: nat, nowIso: string): (c: Comment)
    ensures JsString.StartsWith(c.id, TempIdPrefix)
    ensures c.id[|TempIdPrefix|..] == JsString.NatToString(nowMs)
    ensures c.content == v.content && c.createdAt == nowIso
    ensures c.authorName == AuthorOrAnonymous(v.authorName)
  {
    JsString.StartsWithConcat(TempIdPrefix, JsString.NatToString(nowMs));
    Comment(TempIdPrefix + JsString.NatToString(nowMs), v.content, AuthorOrAnonymous(v.authorName), nowIso)
  }

  /** Provisional comments made at different milliseconds have different ids. */
  lemma ProvisionalIdsDistinct(v1: AddCommentData, t1: nat, iso1: string, v2: AddCommentData, t2: nat, iso2: string)
    requires t1 != t2
    ensures ProvisionalComment(v1, t1, iso1).id != ProvisionalComment(v2, t2, iso2).id
  {
    JsString.NatToStringInjective(t1, t2);
  }

  /** `[comment, ...comments].slice(0, 3)`. */
  function Preview(c: Comment, comments: seq<Comment>): (r: seq<Comment>)
    ensures 1 <= |r| <= PreviewSize && |r| <= |comments| + 1
    ensures |r| == |comments| + 1 || |r| == PreviewSize
    ensures r[0] == c && r[1..] == comments[..|r| - 1]
  {
    var all := [c] + comments;
    if |all| <= PreviewSize then all else all[..PreviewSize]
  }

  /** The target photo after the update: new preview, count one higher, every other field as it was. */
  function WithComment(p: Photo, c: Comment): (r: Photo)
    ensures r.commentCount == p.commentCount + 1
    ensures 1 <= |r.comments| <= PreviewSize && |r.comments| <= |p.comments| + 1 && r.comments[0] == c
    ensures r.comments[1..] == p.comments[..|r.comments| - 1]
    ensures |r.comments| == if |p.comments| + 1 < PreviewSize then |p.comments| + 1 else PreviewSize
    ensures r.comments == Preview(c, p.comments)
    ensures r.(comments := p.comments, commentCount := p.commentCount) == p
  {
    p.(comments := Preview(c, p.comments), commentCount := p.commentCount + 1)
  }

  /** `page.data.map(...)`: the target photos are updated, all others are kept. */
  function UpdatePhotos(photos: seq<Photo>, photoId: string, c: Comment): (r: seq<Photo>)
    ensures |r| == |photos|
    ensures forall i :: 0 <= i < |photos| && photos[i].id != photoId ==> r[i] == photos[i]
    ensures forall i :: 0 <= i < |photos| && photos[i].id == photoId ==> r[i] == WithComment(photos[i], c)
  {
    if photos == [] then []
    else [if photos[0].id == photoId then WithComment(photos[0], c) else photos[0]]
         + UpdatePhotos(photos[1..], photoId, c)
  }

  /** `old.pages.map(...)`: every page keeps its pagination, only its photos are updated. */
  function UpdatePages(pages: seq<PhotosResponse>, photoId: string, c: Comment): (r: seq<PhotosResponse>)
    ensures |r| == |pages|
    ensures forall i :: 0 <= i < |pages| ==>
      r[i].pagination == pages[i].pagination && r[i].data == UpdatePhotos(pages[i].data, photoId, c)
  {
    if pages == [] then []
    else [pages[0].(data := UpdatePhotos(pages[0].data, photoId, c))] + UpdatePages(pages[1..], photoId, c)
  }

  /** The updater given to `setQueryData`: absent data stays absent, page parameters are kept. */
  function ApplyOptimistic(data: Option<InfiniteData>, photoId: string, c: Comment): (r: Option<InfiniteData>)
    ensures r.None? <==> data.None?
    ensures data.Some? ==> r.value.pageParams == data.value.pageParams
    ensures data.Some? ==> |r.value.pages| == |data.value.pages|
  {
    match data
    case None => None
    case Some(d) => Some(d.(pages := UpdatePages(d.pages, photoId, c)))
  }

  /**
   * The effect of the update on one cached photo: pages keep their size and
   * pagination; a photo with another id is untouched; a target photo gets a
   * count one higher and a preview of exactly min(n + 1, 3) comments headed
   * by the new one and followed by the old preview, all other fields unchanged.
   */
  lemma OptimisticUpdateAt(d: InfiniteData, photoId: string, c: Comment, i: nat, j: nat)
    requires i < |d.pages| && j < |d.pages[i].data|
    ensures var r := ApplyOptimistic(Some(d), photoId, c).value;
      && |r.pages[i].data| == |d.pages[i].data|
      && r.pages[i].pagination == d.pages[i].pagination
    ensures var p, q := d.pages[i].data[j], ApplyOptimistic(Some(d), photoId, c).value.pages[i].data[j];
      && (p.id != photoId ==> q == p)
      && (p.id == photoId ==>
            && q.commentCount == p.commentCount + 1
            && |q.comments| == (if |p.comments| + 1 < PreviewSize then |p.comments| + 1 else PreviewSize)
            && q.comments == Preview(c, p.comments)
            && q.comments[0] == c
            && q.comments[1..] == p.comments[..|q.comments| - 1]
            && q.(comments := p.comments, commentCount := p.commentCount) == p)
  {
  }

  /** The photo `photoId` is cached somewhere in `d`. */
  predicate Occurs(d: InfiniteData, photoId: string) {
    exists i, j :: 0 <= i < |d.pages| && 0 <= j < |d.pages[i].data| && d.pages[i].data[j].id == photoId
  }

  /** The update changes the cache exactly when the target photo is cached. */
  lemma UpdateChangesIffCached(d: InfiniteData, photoId: string, c: Comment)
    ensures ApplyOptimistic(Some(d), photoId, c) != Some(d) <==> Occurs(d, photoId)
  {
    var r := ApplyOptimistic(Some(d), photoId, c).value;
    if Occurs(d, photoId) {
      var i, j :| 0 <= i < |d.pages| && 0 <= j < |d.pages[i].data| && d.pages[i].data[j].id == photoId;
      assert r.pages[i].data[j].commentCount == d.pages[i].data[j].commentCount + 1;
    } else {
      forall i | 0 <= i < |d.pages| ensures r.pages[i] == d.pages[i] {
        assert r.pages[i].data == d.pages[i].data;
      }
      assert r.pages == d.pages;
    }
  }

  /** Updates for two different photos commute on a list of photos. */
  lemma UpdatePhotosCommute(photos: seq<Photo>, id1: string, c1: Comment, id2: string, c2: Comment)
    requires id1 != id2
    ensures UpdatePhotos(UpdatePhotos(photos, id1, c1), id2, c2) == UpdatePhotos(UpdatePhotos(photos, id2, c2), id1, c1)
  {
    var a := UpdatePhotos(UpdatePhotos(photos, id1, c1), id2, c2);
    var b := UpdatePhotos(UpdatePhotos(photos, id2, c2), id1, c1);
    forall k | 0 <= k < |photos| ensures a[k] == b[k] {
      assert WithComment(photos[k], c1).id == photos[k].id;
      assert WithComment(photos[k], c2).id == photos[k].id;
    }
  }

  /** Optimistic updates of two different photos commute: the order in which two comments arrive does not matter. */
  lemma UpdatesCommute(data: Option<InfiniteData>, id1: string, c1: Comment, id2: string, c2: Comment)
    requires id1 != id2
    ensures ApplyOptimistic(ApplyOptimistic(data, id1, c1), id2, c2) == ApplyOptimistic(ApplyOptimistic(data, id2, c2), id1, c1)
  {
    if data.Some? {
      var pages := data.value.pages;
      var a := ApplyOptimistic(ApplyOptimistic(data, id1, c1), id2, c2).value.pages;
      var b := ApplyOptimistic(ApplyOptimistic(data, id2, c2), id1, c1).value.pages;
      forall k | 0 <= k < |pages| ensures a[k] == b[k] {
        UpdatePhotosCommute(pages[k].data, id1, c1, id2, c2);
      }
      assert a == b;
    }
  }

  /**
   * Two comments on the same photo: its count goes up by two and its preview
   * starts with the later comment, then the earlier one.
   */
  lemma TwoCommentsSamePhoto(p: Photo, c1: Comment, c2: Comment)
    ensures var q := WithComment(WithComment(p, c1), c2);
      && q.commentCount == p.commentCount + 2
      && q.comments[..2] == [c2, c1]
      && |q.comments| == (if |p.comments| + 2 < PreviewSize then |p.comments| + 2 else PreviewSize)
  {
  }

  lemma {:induction false} UpdatePhotosAppend(a: seq<Photo>, b: seq<Photo>, photoId: string, c: Comment)
    ensures UpdatePhotos(a + b, photoId, c) == UpdatePhotos(a, photoId, c) + UpdatePhotos(b, photoId, c)
  {
    var l := UpdatePhotos(a + b, photoId, c);
    var r := UpdatePhotos(a, photoId, c) + UpdatePhotos(b, photoId, c);
    forall k | 0 <= k < |a + b| ensures l[k] == r[k] {
      if k >= |a| {
        assert (a + b)[k] == b[k - |a|];
      }
    }
  }

  /** The visible feed after the update is the visible feed with each photo updated in place. */
  lemma {:induction false} UpdateCommutesWithFlatten(pages: seq<PhotosResponse>, photoId: string, c: Comment)
    ensures PhotoGallery.Flatten(UpdatePages(pages, photoId, c)) == UpdatePhotos(PhotoGallery.Flatten(pages), photoId, c)
  {
    if pages != [] {
      var up := UpdatePages(pages, photoId, c);
      assert up[1..] == UpdatePages(pages[1..], photoId, c);
      UpdateCommutesWithFlatten(pages[1..], photoId, c);
      UpdatePhotosAppend(pages[0].data, PhotoGallery.Flatten(pages[1..]), photoId, c);
    }
  }

  /** What `onMutate` returns: the snapshot it took. */
  datatype MutationContext = MutationContext(previousData: Option<InfiniteData>)

  /** The query cache entry the mutation reads and overwrites. */
  class QueryCache {
    var data: Option<InfiniteData>

    constructor (initial: Option<InfiniteData>)
      ensures data == initial
    {
      data := initial;
    }

    /** Takes the snapshot, then writes the optimistic update through `setQueryData`. */
    method OnMutate(v: AddCommentData, nowMs: nat, nowIso: string) returns (ctx: MutationContext)
      modifies this
      ensures ctx.previousData == old(data)
      ensures data == ApplyOptimistic(old(data), v.photoId, ProvisionalComment(v, nowMs, nowIso))
    {
      ctx := MutationContext(data);
      var comment := ProvisionalComment(v, nowMs, nowIso);
      data := ApplyOptimistic(data, v.photoId, comment);
    }

    /** Restores the snapshot when there is one; leaves the cache as it is otherwise. */
    method OnError(ctx: Option<MutationContext>)
      modifies this
      ensures (ctx.Some? && ctx.value.previousData.Some?) ==> data == ctx.value.previousData
      ensures !(ctx.Some? && ctx.value.previousData.Some?) ==> data == old(data)
    {
      if ctx.Some? && ctx.value.previousData.Some? {
        data := ctx.value.previousData;
      }
    }

    /**
     * One mutation whose server call has the given outcome: on success the
     * optimistic state stays (until the refetch, not modelled); on failure
     * the cache is exactly what it was before.
     */
    method Mutate(v: AddCommentData, nowMs: nat, nowIso: string, succeeded: bool)
      modifies this
      ensures succeeded ==> data == ApplyOptimistic(old(data), v.photoId, ProvisionalComment(v, nowMs, nowIso))
      ensures !succeeded ==> data == old(data)
    {
      var ctx := OnMutate(v, nowMs, nowIso);
      if !succeeded {
        OnError(Some(ctx));
      }
    }
  }

  /**
   * Two mutations in flight on the same cache entry, the first of which
   * fails: its rollback restores its own snapshot, which also discards the
   * second mutation's provisional comment whenever the second target is
   * cached. This holds of `QueryCache`, which stands for the feed's entry;
   * see the README for how the source addresses that entry.
   */
  method InterleavedRollback(d: InfiniteData, v1: AddCommentData, t1: nat, v2: AddCommentData, t2: nat, iso: string)
    returns (final: Option<InfiniteData>)
    ensures final == Some(d)
    ensures Occurs(d, v2.photoId) ==> final != ApplyOptimistic(Some(d), v2.photoId, ProvisionalComment(v2, t2, iso))
  {
    var cache := new QueryCache(Some(d));
    var ctx1 := cache.OnMutate(v1, t1, iso);
    var ctx2 := cache.OnMutate(v2, t2, iso);
    cache.OnError(Some(ctx1));
    final := cache.data;
    UpdateChangesIffCached(d, v2.photoId, ProvisionalComment(v2, t2, iso));
  }
}
