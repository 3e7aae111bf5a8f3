/** The Google Custom Search call `google_search` (main.py:135-160): the HTTP
    exchange is an oracle reply, and what is modelled is the status check and
    the loop that turns the raw `items` into result records. */
module Search {
  import opened Wrappers

  /** One entry of `pagemap.cse_thumbnail`; `src` is read with `.get`. */
  datatype Thumbnail = Thumbnail(src: Option<string>)

  /** One entry of `pagemap.metatags`; `og:image` is read with `.get`. */
  datatype MetaTags = MetaTags(ogImage: Option<string>)

  /** An item's `pagemap`; an item without one behaves as `Pagemap(None, None)`. */
  datatype Pagemap = Pagemap(cseThumbnail: Option<seq<Thumbnail>>, metatags: Option<seq<MetaTags>>)

  /** One element of the provider's `items` list, every key optional. */
  datatype RawItem = RawItem(title: Option<string>, link: Option<string>, snippet: Option<string>, pagemap: Pagemap)

  /** A normalised search result, as cached and projected. */
  datatype Record = Record(title: string, link: string, snippet: string, thumbnail: Option<string>)

  /** What the HTTP exchange produced: a status and the JSON body's `items`
      (None when the body has no such key), or a transport failure. */
  datatype HttpReply = Response(status: int, items: Option<seq<RawItem>>) | TransportFailure

  /** Why a search raised: a non-200 status, a failed connection or timeout,
      or an item without `title` or `link` (a KeyError naming that key). */
  datatype SearchError = HttpError(status: int) | ConnectionError | MissingKey(key: string)

  /** The parameters of one request: `key`, `q` and `num` (`cx` is a constant). */
  datatype SearchRequest = SearchRequest(apiKey: string, query: string, num: int)

  const OK_STATUS := 200

  /** The thumbnail choice: the first `cse_thumbnail`'s `src` when that list is
      non-empty, else the first `metatags`' `og:image` when that list is
      non-empty, else none. */
  function ThumbnailOf(p: Pagemap): Option<string>
  {
    if p.cseThumbnail.Some? && p.cseThumbnail.value != [] then p.cseThumbnail.value[0].src
    else if p.metatags.Some? && p.metatags.value != [] then p.metatags.value[0].ogImage
    else None
  }

  /** Once `cse_thumbnail` is non-empty the metatags are never consulted. */
  lemma ThumbnailIgnoresMetatags(thumbs: seq<Thumbnail>, m1: Option<seq<MetaTags>>, m2: Option<seq<MetaTags>>)
    requires thumbs != []
    ensures ThumbnailOf(Pagemap(Some(thumbs), m1)) == ThumbnailOf(Pagemap(Some(thumbs), m2)) == thumbs[0].src
  {
  }

  /** An absent or empty `cse_thumbnail` falls back to the metatags, and with
      neither there is no thumbnail. */
  lemma ThumbnailFallback(p: Pagemap)
    requires p.cseThumbnail.None? || p.cseThumbnail.value == []
    ensures ThumbnailOf(p) == if p.metatags.Some? && p.metatags.value != [] then p.metatags.value[0].ogImage else None
  {
  }

  /** An item has both keys that `item["title"]` and `item["link"]` require. */
  predicate Complete(it: RawItem)
  {
    it.title.Some? && it.link.Some?
  }

  /** The KeyError an incomplete item raises: `title` is read before `link`. */
  function MissingKeyOf(it: RawItem): SearchError
  {
    MissingKey(if it.title.None? then "title" else "link")
  }

  /** The record built for a complete item; `snippet` defaults to "". */
  function RecordOf(it: RawItem): Record
    requires Complete(it)
  {
    Record(it.title.value, it.link.value, it.snippet.GetOr(""), ThumbnailOf(it.pagemap))
  }

  /** The whole list, item by item in order: the first incomplete item fails the call. */
  function Normalised(items: seq<RawItem>): Result<seq<Record>, SearchError>
  {
    if items == [] then Success([])
    else if !Complete(items[0]) then Failure(MissingKeyOf(items[0]))
    else match Normalised(items[1..])
      case Failure(e) => Failure(e)
      case Success(rest) => Success([RecordOf(items[0])] + rest)
  }

  /** The outcome of `google_search` for a given HTTP reply. */
  function SearchOutcome(reply: HttpReply): Result<seq<Record>, SearchError>
  {
    match reply
    case TransportFailure => Failure(ConnectionError)
    case Response(status, items) =>
      if status != OK_STATUS then Failure(HttpError(status)) else Normalised(items.GetOr([]))
  }

  /** Normalisation succeeds exactly when every item is complete, and then
      yields one record per item, in order; a failure is always a KeyError. */
  lemma {:induction false} NormalisedSpec(items: seq<RawItem>)
    ensures Normalised(items).Success? <==> forall i | 0 <= i < |items| :: Complete(items[i])
    ensures Normalised(items).Success? ==>
              && |Normalised(items).value| == |items|
              && forall i | 0 <= i < |items| :: Normalised(items).value[i] == RecordOf(items[i])
    ensures Normalised(items).Failure? ==> Normalised(items).error.MissingKey?
  {
    if items != [] {
      NormalisedSpec(items[1..]);
      assert forall i | 1 <= i < |items| :: items[1..][i - 1] == items[i];
    }
  }

  /** When item `k` is the first incomplete one, the call fails with its KeyError. */
  lemma {:induction false} NormalisedFailsAt(items: seq<RawItem>, k: nat)
    requires k < |items| && !Complete(items[k])
    requires forall j | 0 <= j < k :: Complete(items[j])
    ensures Normalised(items) == Failure(MissingKeyOf(items[k]))
  {
    if k > 0 {
      assert items[1..][k - 1] == items[k];
      forall j | 0 <= j < k - 1 ensures Complete(items[1..][j]) {
        assert items[1..][j] == items[j + 1];
      }
      NormalisedFailsAt(items[1..], k - 1);
    }
  }

  /** A successful search answered 200 and returned one record per raw item. */
  lemma SearchSuccessSpec(reply: HttpReply)
    requires SearchOutcome(reply).Success?
    ensures reply.Response? && reply.status == OK_STATUS
    ensures |SearchOutcome(reply).value| == |reply.items.GetOr([])|
    ensures forall i | 0 <= i < |reply.items.GetOr([])| ::
              var it := reply.items.GetOr([])[i];
              && Complete(it)
              && SearchOutcome(reply).value[i] == RecordOf(it)
  {
    NormalisedSpec(reply.items.GetOr([]));
  }

  /** An item without `title` or `link` makes the whole 200 reply a failure. */
  lemma MissingKeyFails(status: int, items: seq<RawItem>, k: nat)
    requires status == OK_STATUS && k < |items| && !Complete(items[k])
    ensures SearchOutcome(Response(status, Some(items))).Failure?
    ensures SearchOutcome(Response(status, Some(items))).error.MissingKey?
  {
    NormalisedSpec(items);
  }

  /** `google_search`: the status check, then the `for` loop that appends one
      record per item and raises on the first item lacking `title` or `link`. */
  method GoogleSearch(reply: HttpReply) returns (r: Result<seq<Record>, SearchError>)
    ensures r == SearchOutcome(reply)
  {
    if reply.TransportFailure? {
      return Failure(ConnectionError);
    }
    if reply.status != OK_STATUS {
      return Failure(HttpError(reply.status));
    }
    var items := reply.items.GetOr([]);
    NormalisedSpec(items);
    var results: seq<Record> := [];
    for i := 0 to |items|
      invariant forall j | 0 <= j < i :: Complete(items[j])
      invariant |results| == i
      invariant forall j | 0 <= j < i :: results[j] == RecordOf(items[j])
    {
      var item := items[i];
      if item.title.None? {
        NormalisedFailsAt(items, i);
        return Failure(MissingKey("title"));
      }
      if item.link.None? {
        NormalisedFailsAt(items, i);
        return Failure(MissingKey("link"));
      }
      var thumb := ThumbnailOf(item.pagemap);
      results := results + [Record(item.title.value, item.link.value, item.snippet.GetOr(""), thumb)];
    }
    assert results == Normalised(items).value;
    r := Success(results);
  }
}
