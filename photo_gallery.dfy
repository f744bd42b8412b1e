/**
 * The feed view (components/PhotoGallery.tsx): the visible list is every
 * cached page's photos in order, the next page is fetched only under a
 * three-way guard, and the view shows loading, error, empty or the grid in
 * that order of precedence.
 */
module PhotoGallery {
  import opened Wrappers
  import opened FeedQuery

  /** The number of photos the pages hold together. */
  function PhotoCount(pages: seq<PhotosResponse>): nat {
    if pages == [] then 0 else |pages[0].data| + PhotoCount(pages[1..])
  }

  /**
   * `pages.flatMap((page) => page.data)`: every photo of every page, so the
   * list is as long as the pages together, and the first page comes first.
   */
  function Flatten(pages: seq<PhotosResponse>): (r: seq<Photo>)
    ensures |r| == PhotoCount(pages)
    ensures pages != [] ==> r[..|pages[0].data|] == pages[0].data
  {
    if pages == [] then [] else pages[0].data + Flatten(pages[1..])
  }

  /** Flattening distributes over concatenation of page lists. */
  lemma {:induction false} FlattenAppend(a: seq<PhotosResponse>, b: seq<PhotosResponse>)
    ensures Flatten(a + b) == Flatten(a) + Flatten(b)
  {
    if a != [] {
      assert (a + b)[1..] == a[1..] + b;
      FlattenAppend(a[1..], b);
    } else {
      assert a + b == b;
    }
  }

  /** A photo is visible exactly when some page holds it. */
  lemma {:induction false} FlattenMembership(pages: seq<PhotosResponse>, p: Photo)
    ensures p in Flatten(pages) <==> exists i :: 0 <= i < |pages| && p in pages[i].data
  {
    if pages != [] {
      FlattenMembership(pages[1..], p);
      if p in Flatten(pages[1..]) {
        var i :| 0 <= i < |pages[1..]| && p in pages[1..][i].data;
        assert p in pages[i + 1].data;
      }
      if exists i :: 0 <= i < |pages| && p in pages[i].data {
        var i :| 0 <= i < |pages| && p in pages[i].data;
        if i > 0 {
          assert p in pages[1..][i - 1].data;
        }
      }
    }
  }

  /** The flattened list is empty exactly when every page is empty. */
  lemma {:induction false} FlattenEmpty(pages: seq<PhotosResponse>)
    ensures Flatten(pages) == [] <==> forall i :: 0 <= i < |pages| ==> pages[i].data == []
  {
    if pages != [] {
      FlattenEmpty(pages[1..]);
      if Flatten(pages) == [] {
        forall i | 0 <= i < |pages| ensures pages[i].data == [] {
          if i > 0 {
            assert pages[i] == pages[1..][i - 1];
          }
        }
      }
      if forall i :: 0 <= i < |pages| ==> pages[i].data == [] {
        forall i | 0 <= i < |pages[1..]| ensures pages[1..][i].data == [] {
          assert pages[1..][i] == pages[i + 1];
        }
      }
    }
  }

  /**
   * `data?.pages.flatMap(...) ?? []`: nothing is visible while there is no
   * data, and otherwise the photos of all cached pages.
   */
  function VisiblePhotos(data: Option<InfiniteData>): (r: seq<Photo>)
    ensures data.None? ==> r == []
    ensures data.Some? ==> r == Flatten(data.value.pages)
  {
    match data
    case None => []
    case Some(d) => Flatten(d.pages)
  }

  /**
   * Fetching the next page only appends: the photos already visible keep
   * their places and the new page's photos follow them.
   */
  lemma AppendPageExtendsVisible(d: InfiniteData, page: PhotosResponse)
    requires HasNextPage(d)
    ensures VisiblePhotos(Some(AppendPage(d, page))) == VisiblePhotos(Some(d)) + page.data
  {
    FlattenAppend(d.pages, [page]);
    assert Flatten([page]) == page.data + Flatten([]);
  }

  /** The effect's guard: fetch when the sentinel is in view, a next page exists and none is being fetched. */
  function ShouldFetchNextPage(inView: bool, hasNextPage: bool, isFetchingNextPage: bool): (r: bool)
    ensures r ==> inView && hasNextPage && !isFetchingNextPage
    ensures inView && hasNextPage && !isFetchingNextPage ==> r
  {
    inView && hasNextPage && !isFetchingNextPage
  }

  /** A next page is fetched only when the last cached page announced a cursor. */
  lemma FetchOnlyWithCursor(d: InfiniteData, inView: bool, isFetchingNextPage: bool)
    requires ShouldFetchNextPage(inView, HasNextPage(d), isFetchingNextPage)
    ensures d.pages != [] && d.pages[|d.pages| - 1].pagination.nextCursor.Some?
  {
  }

  /**
   * What the gallery renders: a spinner, an error alert, the empty state, or
   * the grid with its footer (a spinner while the next page loads, and the
   * end-of-feed line when there is no next page).
   */
  datatype View =
    | Loading
    | ErrorAlert
    | EmptyState
    | Grid(photos: seq<Photo>, loadingMore: bool, endOfFeed: bool)

  function GalleryView(isLoading: bool, hasError: bool, data: Option<InfiniteData>,
                       hasNextPage: bool, isFetchingNextPage: bool): (v: View)
    ensures isLoading ==> v == Loading
    ensures !isLoading && hasError ==> v == ErrorAlert
    ensures !isLoading && !hasError && VisiblePhotos(data) == [] ==> v == EmptyState
    ensures v.Grid? <==> !isLoading && !hasError && VisiblePhotos(data) != []
    ensures v.Grid? ==> v.photos == VisiblePhotos(data) && v.loadingMore == isFetchingNextPage
    ensures v.Grid? ==> (v.endOfFeed <==> !hasNextPage)
  {
    if isLoading then Loading
    else if hasError then ErrorAlert
    else
      var photos := VisiblePhotos(data);
      if |photos| == 0 then EmptyState
      else Grid(photos, isFetchingNextPage, !hasNextPage && |photos| > 0)
  }

  /** "No more photos to load" shows exactly when there is no next page and something is visible. */
  lemma EndOfFeedShown(data: Option<InfiniteData>, hasNextPage: bool, isFetchingNextPage: bool)
    ensures var v := GalleryView(false, false, data, hasNextPage, isFetchingNextPage);
      (v.Grid? && v.endOfFeed) <==> !hasNextPage && VisiblePhotos(data) != []
  {
  }
}
