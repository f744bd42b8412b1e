/**
 * The feed query of the client (hooks/usePhotos.ts): the shapes the photo
 * API returns, the option defaults, the query key, the request parameters
 * of one page fetch, and the cursor protocol that chains page fetches.
 */
module FeedQuery {
  import opened Wrappers

  datatype Comment = Comment(id: string, content: string, authorName: string, createdAt: string)

  /** A photo as the feed carries it; `commentCount` is the API's `_count.comments`. */
  datatype Photo = Photo(
    id: string,
    title: Option<string>,
    description: Option<string>,
    imageUrl: string,
    thumbnailUrl: string,
    fileSize: nat,
    mimeType: string,
    width: Option<int>,
    height: Option<int>,
    createdAt: string,
    updatedAt: string,
    comments: seq<Comment>,
    commentCount: nat)

  datatype Pagination = Pagination(nextCursor: Option<string>, hasNextPage: bool, limit: int)

  /** One page of the feed as `GET /api/photos` returns it. */
  datatype PhotosResponse = PhotosResponse(data: seq<Photo>, pagination: Pagination)

  /** The infinite query's cached value: the pages fetched so far and the page parameter each was fetched with. */
  datatype InfiniteData = InfiniteData(pages: seq<PhotosResponse>, pageParams: seq<Option<string>>)

  datatype SortBy = CreatedAt | CommentCount
  datatype Order = Asc | Desc

  /** `UsePhotosOptions`: both fields may be omitted. */
  datatype Options = Options(sortBy: Option<SortBy>, order: Option<Order>)

  function SortByName(s: SortBy): string {
    match s
    case CreatedAt => "createdAt"
    case CommentCount => "commentCount"
  }

  function OrderName(o: Order): string {
    match o
    case Asc => "asc"
    case Desc => "desc"
  }

  /** Missing options fall back to sorting by creation time, newest first; given ones are kept. */
  function ResolveOptions(o: Options): (r: (SortBy, Order))
    ensures r.0 == (if o.sortBy.Some? then o.sortBy.value else CreatedAt)
    ensures r.1 == (if o.order.Some? then o.order.value else Desc)
  {
    (match o.sortBy case Some(s) => s case None => CreatedAt,
     match o.order case Some(d) => d case None => Desc)
  }

  /** The feed's query key `['photos', sortBy, order]`. */
  function QueryKey(sortBy: SortBy, order: Order): (k: seq<string>)
    ensures |k| == 3 && k[0] == "photos"
    ensures k[1] == SortByName(sortBy) && k[2] == OrderName(order)
  {
    ["photos", SortByName(sortBy), OrderName(order)]
  }

  /** Each sort/order combination has a key of its own, so each is cached apart. */
  lemma QueryKeyInjective(s1: SortBy, o1: Order, s2: SortBy, o2: Order)
    ensures QueryKey(s1, o1) == QueryKey(s2, o2) <==> s1 == s2 && o1 == o2
  {
  }

  /** The page size the client always asks for. */
  const PageLimit: string := "12"

  /** `if (pageParam)`: a page parameter counts only when it is present and non-empty. */
  predicate Truthy(p: Option<string>) {
    p.Some? && p.value != ""
  }

  /**
   * The request parameters of one page fetch, in order: `sortBy`, `order`,
   * `limit=12`, then `cursor` only when the page parameter is truthy.
   */
  function SearchParamsFor(sortBy: SortBy, order: Order, pageParam: Option<string>): (r: seq<(string, string)>)
    ensures |r| == (if Truthy(pageParam) then 4 else 3)
    ensures r[0] == ("sortBy", SortByName(sortBy))
    ensures r[1] == ("order", OrderName(order))
    ensures r[2] == ("limit", PageLimit)
    ensures Truthy(pageParam) ==> r[3] == ("cursor", pageParam.value)
  {
    [("sortBy", SortByName(sortBy)), ("order", OrderName(order)), ("limit", PageLimit)]
    + (if Truthy(pageParam) then [("cursor", pageParam.value)] else [])
  }

  /** `URLSearchParams.get(name)`: the value of the first entry with that name. */
  function Get(params: seq<(string, string)>, name: string): (r: Option<string>)
    ensures r.Some? <==> exists i :: 0 <= i < |params| && params[i].0 == name
    ensures r.Some? ==> exists i :: 0 <= i < |params| && params[i] == (name, r.value)
                                    && forall k :: 0 <= k < i ==> params[k].0 != name
  {
    if params == [] then None
    else if params[0].0 == name then Some(params[0].1)
    else Get(params[1..], name)
  }

  /**
   * What the server reads from one page request: the sort, the order, a
   * limit of 12, and a cursor exactly when the page parameter is truthy.
   */
  lemma {:induction false} ServerReadsParams(sortBy: SortBy, order: Order, pageParam: Option<string>)
    ensures var ps := SearchParamsFor(sortBy, order, pageParam);
      && Get(ps, "sortBy") == Some(SortByName(sortBy))
      && Get(ps, "order") == Some(OrderName(order))
      && Get(ps, "limit") == Some(PageLimit)
      && Get(ps, "cursor") == (if Truthy(pageParam) then pageParam else None)
  {
    var ps := SearchParamsFor(sortBy, order, pageParam);
    assert ps[1..][1..][1..] == ps[3..];
    assert Get(ps, "sortBy") == Some(SortByName(sortBy));
    assert Get(ps, "order") == Get(ps[1..], "order");
    assert Get(ps, "limit") == Get(ps[1..][1..], "limit");
    assert Get(ps, "cursor") == Get(ps[1..], "cursor") == Get(ps[1..][1..], "cursor");
    assert Get(ps[1..][1..], "cursor") == Get(ps[3..], "cursor");
    if Truthy(pageParam) {
      assert ps[3..][1..] == [];
    } else {
      assert ps[3..] == [];
    }
  }

  /** The local `URLSearchParams` object that `queryFn` fills in place. */
  class SearchParams {
    var entries: seq<(string, string)>

    constructor (init: seq<(string, string)>)
      ensures entries == init
    {
      entries := init;
    }

    /** `params.append(name, value)`. */
    method Append(name: string, value: string)
      modifies this
      ensures entries == old(entries) + [(name, value)]
    {
      entries := entries + [(name, value)];
    }
  }

  /** Builds the parameters of one page fetch the way `queryFn` does, by appending to a fresh `URLSearchParams`. */
  method RequestParams(sortBy: SortBy, order: Order, pageParam: Option<string>) returns (r: seq<(string, string)>)
    ensures r == SearchParamsFor(sortBy, order, pageParam)
  {
    var params := new SearchParams([("sortBy", SortByName(sortBy)), ("order", OrderName(order)), ("limit", PageLimit)]);
    if pageParam.Some? && pageParam.value != "" {
      params.Append("cursor", pageParam.value);
    }
    r := params.entries;
  }

  /** `initialPageParam: null`. */
  const InitialPageParam: Option<string> := None

  /** `getNextPageParam`: the cursor the last page announced. */
  function GetNextPageParam(lastPage: PhotosResponse): Option<string> {
    lastPage.pagination.nextCursor
  }

  /** The infinite query reports a next page when the last page's next parameter is not null. */
  predicate HasNextPage(d: InfiniteData) {
    |d.pages| > 0 && GetNextPageParam(d.pages[|d.pages| - 1]).Some?
  }

  /**
   * Whether a further page exists is decided by the newest page alone: it
   * exists exactly when that page announced a non-null `nextCursor`.
   */
  lemma HasNextPageFollowsNewestPage(d: InfiniteData, page: PhotosResponse)
    ensures HasNextPage(FirstPage(page)) <==> page.pagination.nextCursor.Some?
    ensures HasNextPage(d) ==> (HasNextPage(AppendPage(d, page)) <==> page.pagination.nextCursor.Some?)
  {
  }

  /**
   * The cursor protocol: one page parameter per page, the first page
   * fetched with the initial (null) parameter, and every later page fetched
   * with the `nextCursor` of the page before it.
   */
  predicate Chained(d: InfiniteData) {
    && |d.pageParams| == |d.pages|
    && (|d.pages| > 0 ==> d.pageParams[0] == InitialPageParam)
    && forall i :: 0 < i < |d.pages| ==> d.pageParams[i] == GetNextPageParam(d.pages[i - 1])
  }

  /** The cache after the first page arrives. */
  function FirstPage(page: PhotosResponse): (d: InfiniteData)
    ensures Chained(d) && d.pages == [page]
  {
    InfiniteData([page], [InitialPageParam])
  }

  /** The cache after one more page, fetched with the last page's next cursor, arrives. */
  function AppendPage(d: InfiniteData, page: PhotosResponse): (r: InfiniteData)
    requires HasNextPage(d)
    ensures r.pages == d.pages + [page]
    ensures |r.pageParams| == |d.pageParams| + 1 && r.pageParams[..|d.pageParams|] == d.pageParams
    ensures r.pageParams[|d.pageParams|] == d.pages[|d.pages| - 1].pagination.nextCursor
  {
    InfiniteData(d.pages + [page], d.pageParams + [GetNextPageParam(d.pages[|d.pages| - 1])])
  }

  /** Appending the next page keeps the cursor protocol. */
  lemma AppendPageChained(d: InfiniteData, page: PhotosResponse)
    requires Chained(d) && HasNextPage(d)
    ensures Chained(AppendPage(d, page))
  {
  }

  /**
   * Every page after the first is requested with the cursor the page before
   * it announced, when that cursor is non-empty.
   */
  lemma LaterPagesRequestedWithCursor(d: InfiniteData, sortBy: SortBy, order: Order, i: nat)
    requires Chained(d) && 0 < i < |d.pages|
    requires Truthy(d.pages[i - 1].pagination.nextCursor)
    ensures Get(SearchParamsFor(sortBy, order, d.pageParams[i]), "cursor") == d.pages[i - 1].pagination.nextCursor
  {
    ServerReadsParams(sortBy, order, d.pageParams[i]);
  }

  /** The first page is requested without a cursor. */
  lemma FirstPageRequestedWithoutCursor(d: InfiniteData, sortBy: SortBy, order: Order)
    requires Chained(d) && 0 < |d.pages|
    ensures Get(SearchParamsFor(sortBy, order, d.pageParams[0]), "cursor") == None
  {
  }
}
