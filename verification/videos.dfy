/** Videos shown on an artist's detail page, projected from the items of a
    video-search response. */
module Videos {
  import opened Lists

  /** The largest number of items the detail page asks the video search for. */
  const MaxResults: nat := 3

  /** The parts of a video-search item the client reads, plus the fields it
      ignores. */
  datatype ItemId = ItemId(kind: string, videoId: string)
  datatype Snippet = Snippet(title: string, description: string, channelTitle: string)
  datatype SearchItem = SearchItem(id: ItemId, snippet: Snippet)

  /** The record the detail page renders. */
  datatype Video = Video(videoId: string, title: string, description: string)

  /** The video search the detail page sends for an artist: the artist's
      display name as the query, at most `MaxResults` results. */
  datatype VideoSearch = VideoSearch(query: string, maxResults: nat)

  /** The video for one search item: its id comes from the item's id
      record, its title and description from the item's snippet; the kind and
      the channel title are dropped. */
  function ToVideo(item: SearchItem): (v: Video)
    ensures v.videoId == item.id.videoId
    ensures v.title == item.snippet.title && v.description == item.snippet.description
  {
    Video(item.id.videoId, item.snippet.title, item.snippet.description)
  }

  /** `data.items.map(...)`: one video per item, in the order of the items,
      each carrying its item's id, title and description. */
  function ToVideos(items: seq<SearchItem>): (vs: seq<Video>)
    ensures |vs| == |items|
    ensures forall i :: 0 <= i < |items| ==>
      && vs[i].videoId == items[i].id.videoId
      && vs[i].title == items[i].snippet.title
      && vs[i].description == items[i].snippet.description
  {
    Map(items, ToVideo)
  }

  /** Projecting a concatenation is concatenating the projections: each
      video depends on its own item only. */
  lemma ToVideosAppend(xs: seq<SearchItem>, ys: seq<SearchItem>)
    ensures ToVideos(xs + ys) == ToVideos(xs) + ToVideos(ys)
  {
    var l, r := ToVideos(xs + ys), ToVideos(xs) + ToVideos(ys);
    forall i | 0 <= i < |l| ensures l[i] == r[i] {
      if i < |xs| {
        assert (xs + ys)[i] == xs[i];
      } else {
        assert (xs + ys)[i] == ys[i - |xs|];
      }
    }
  }
}
