/** The answer `inline_google` builds (main.py:351-366): the records cut to
    the user's limit, each turned into an article whose thumbnail depends on
    `show_logo`, plus the two notice articles `need_token` and `err`. */
module Projection {
  import opened Wrappers
  import opened Text
  import opened Search

  /** One article of an inline answer. A result article's `uid` stands for the
      random `uuid4` id: the model hands out fresh numbers instead. */
  datatype InlineItem =
    | NeedTokenNotice
    | SearchErrorNotice
    | ResultArticle(uid: nat, title: string, description: string, url: string,
                    thumbUrl: Option<string>, messageText: string)

  /** `it["thumbnail"] if (show_logo and it["thumbnail"]) else None`. */
  function ShownThumb(showLogo: bool, thumbnail: Option<string>): Option<string>
  {
    if showLogo && thumbnail.Some? && thumbnail.value != "" then thumbnail else None
  }

  /** The article for one record. */
  function ArticleOf(r: Record, showLogo: bool, uid: nat): InlineItem
  {
    ResultArticle(uid, r.title, r.snippet, r.link, ShownThumb(showLogo, r.thumbnail), r.link)
  }

  /** The articles for `items[:limit]`, numbered from `firstUid`. */
  function Projected(items: seq<Record>, limit: int, showLogo: bool, firstUid: nat): seq<InlineItem>
  {
    var shown := SliceTo(items, limit);
    seq(|shown|, i requires 0 <= i < |shown| => ArticleOf(shown[i], showLogo, firstUid + i))
  }

  /** The projection keeps `min(limit, |items|)` records for a non-negative
      limit, in source order; each article's title, description, url and
      message text are the record's title, snippet, link and link; the
      thumbnail is shown exactly when `show_logo` is on and the record's
      thumbnail is non-empty; ids are consecutive fresh numbers. */
  lemma ProjectedSpec(items: seq<Record>, limit: int, showLogo: bool, firstUid: nat)
    ensures limit >= 0 ==> |Projected(items, limit, showLogo, firstUid)| == if limit <= |items| then limit else |items|
    ensures limit < 0 ==> |Projected(items, limit, showLogo, firstUid)| == if |items| + limit >= 0 then |items| + limit else 0
    ensures forall i | 0 <= i < |Projected(items, limit, showLogo, firstUid)| ::
              var a := Projected(items, limit, showLogo, firstUid)[i];
              && a.ResultArticle?
              && a.uid == firstUid + i
              && a.title == items[i].title
              && a.description == items[i].snippet
              && a.url == a.messageText == items[i].link
              && (a.thumbUrl.Some? <==> showLogo && items[i].thumbnail.Some? && items[i].thumbnail.value != "")
              && (a.thumbUrl.Some? ==> a.thumbUrl == items[i].thumbnail)
  {
  }

  /** No two articles of one answer share an id. */
  lemma ProjectedUidsDistinct(items: seq<Record>, limit: int, showLogo: bool, firstUid: nat)
    ensures var p := Projected(items, limit, showLogo, firstUid);
            forall i, j | 0 <= i < j < |p| :: p[i].uid != p[j].uid
  {
  }

  /** The projection only hands out ids from `firstUid` on, below `firstUid + |p|`. */
  lemma ProjectedUids(items: seq<Record>, limit: int, showLogo: bool, firstUid: nat)
    ensures var p := Projected(items, limit, showLogo, firstUid);
            forall i | 0 <= i < |p| :: p[i].ResultArticle? && firstUid <= p[i].uid < firstUid + |p|
  {
  }

  /** With `show_logo` off no article carries a thumbnail. */
  lemma NoThumbsWhenLogosOff(items: seq<Record>, limit: int, firstUid: nat)
    ensures forall a | a in Projected(items, limit, false, firstUid) :: a.ResultArticle? && a.thumbUrl.None?
  {
  }

  /** The double cut `cached[:limit]` then `items[:limit]` is harmless for a
      non-negative limit: projecting the cut list equals projecting the list. */
  lemma {:induction false} ProjectionIdempotent(items: seq<Record>, limit: int, showLogo: bool, firstUid: nat)
    requires limit >= 0
    ensures Projected(SliceTo(items, limit), limit, showLogo, firstUid) == Projected(items, limit, showLogo, firstUid)
  {
    SliceToIdempotent(items, limit);
  }

  /** The `for` loop of `inline_google` that appends one article per record of `items[:limit]`. */
  method Project(items: seq<Record>, limit: int, showLogo: bool, firstUid: nat) returns (results: seq<InlineItem>)
    ensures results == Projected(items, limit, showLogo, firstUid)
  {
    var shown := SliceTo(items, limit);
    results := [];
    for i := 0 to |shown|
      invariant |results| == i
      invariant forall j | 0 <= j < i :: results[j] == ArticleOf(shown[j], showLogo, firstUid + j)
    {
      var it := shown[i];
      var thumb := if showLogo && it.thumbnail.Some? && it.thumbnail.value != "" then it.thumbnail else None;
      results := results + [ResultArticle(firstUid + i, it.title, it.snippet, it.link, thumb, it.link)];
    }
  }
}
