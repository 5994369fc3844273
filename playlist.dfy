/**
 * An in-memory stand-in for the uploads playlist as the remote service lists
 * it: a sequence of pages, page `i + 1` being addressed by the next-page
 * token of page `i`, and the first page by no token at all.
 */
module Playlist {
  import opened Wrappers
  import opened Checkpoint

  /** One page of a listing: the video ids on it and its `nextPageToken`. */
  datatype Page = Page(ids: seq<string>, next: Option<string>)

  datatype Listing = Listing(pages: seq<Page>)

  /** The remote rejects a page token it did not issue. */
  datatype ApiError = InvalidPageToken(token: Option<string>)

  /**
   * What the service promises of a listing: at least one page, every page
   * but the last carries a non-empty token, those tokens are all different,
   * and the last page carries none.
   */
  predicate Valid(l: Listing) {
    && |l.pages| > 0
    && (forall k :: 0 <= k < |l.pages| - 1 ==> Truthy(l.pages[k].next))
    && !Truthy(l.pages[|l.pages| - 1].next)
    && (forall j, k :: 0 <= j < k < |l.pages| - 1 ==> l.pages[j].next != l.pages[k].next)
  }

  /** The first page from `j` on that follows a page whose next token is `t`. */
  function Find(pages: seq<Page>, t: string, j: nat): (r: Option<nat>)
    ensures r.Some? ==> j < r.value < |pages| && pages[r.value - 1].next == Some(t)
    decreases |pages| - j
  {
    if j + 1 >= |pages| then None
    else if pages[j].next == Some(t) then Some(j + 1)
    else Find(pages, t, j + 1)
  }

  /** The index of the page a request with this page token returns, if the token is known. */
  function Locate(l: Listing, token: Option<string>): (r: Option<nat>)
    ensures r.Some? ==> r.value < |l.pages|
    ensures r.Some? && r.value > 0 ==> token == l.pages[r.value - 1].next
  {
    match token
    case None => if |l.pages| > 0 then Some(0) else None
    case Some(t) => Find(l.pages, t, 0)
  }

  /** One `playlistItems().list(pageToken=token)` request. */
  function Fetch(l: Listing, token: Option<string>): (r: Result<Page, ApiError>)
    ensures r.Ok? <==> Locate(l, token).Some?
  {
    match Locate(l, token)
    case Some(i) => Ok(l.pages[i])
    case None => Err(InvalidPageToken(token))
  }

  /** The token that addresses page `i`: none for the first page, else the previous page's next token. */
  function TokenOf(l: Listing, i: nat): Option<string>
    requires i < |l.pages|
  {
    if i == 0 then None else l.pages[i - 1].next
  }

  /** The pairs `playlist_pages(start)` yields, or `None` when its first request fails. */
  function Walk(l: Listing, start: Option<string>): Option<seq<Page>> {
    match Locate(l, start)
    case Some(i) => Some(l.pages[i..])
    case None => None
  }

  /** The scan for a token passes over every earlier page, whose tokens all differ from it. */
  lemma {:induction false} FindScan(l: Listing, i: nat, j: nat)
    requires Valid(l)
    requires j < i < |l.pages|
    ensures Find(l.pages, l.pages[i - 1].next.value, j) == Some(i)
    decreases i - j
  {
    if j + 1 < i {
      assert l.pages[j].next != l.pages[i - 1].next;
      FindScan(l, i, j + 1);
    }
  }

  /** Each page is returned by exactly the token that addresses it, and by no other. */
  lemma LocateTokenOf(l: Listing, i: nat, token: Option<string>)
    requires Valid(l)
    requires i < |l.pages|
    ensures Locate(l, token) == Some(i) <==> token == TokenOf(l, i)
  {
    if i > 0 {
      FindScan(l, i, 0);
    }
    if Locate(l, token) == Some(i) && token.Some? {
      assert l.pages[i - 1].next == token;
    }
  }

  /**
   * The shape of what the page walker yields from a token the service
   * knows: at least one pair, exactly one per page from the located page to
   * the last, each later request made with the previous pair's token, and
   * only the last pair without a token.
   */
  lemma WalkShape(l: Listing, start: Option<string>)
    requires Valid(l)
    requires Locate(l, start).Some?
    ensures Walk(l, start).Some?
    ensures var w := Walk(l, start).value;
      && |w| >= 1
      && Fetch(l, start) == Ok(w[0])
      && (forall k :: 0 <= k < |w| - 1 ==> Truthy(w[k].next) && Fetch(l, w[k].next) == Ok(w[k + 1]))
      && !Truthy(w[|w| - 1].next)
  {
    var i := Locate(l, start).value;
    var w := l.pages[i..];
    forall k | 0 <= k < |w| - 1
      ensures Truthy(w[k].next) && Fetch(l, w[k].next) == Ok(w[k + 1])
    {
      LocateTokenOf(l, i + k + 1, w[k].next);
    }
  }
}
