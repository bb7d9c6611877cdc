/** Batch assembly: `collect_data`, `search_videos`, the detail look-ups and `print_summary`
    of src/youtube_collector.py, and the chunked variants of azure-functions/function_app.py.
    The YouTube Data API is a parameter: each request either answers with a list of items or
    raises (`None`). */
module Collector {
  import opened Wrappers
  import opened Seqs
  import opened Classifier

  const VideoKind := "youtube#video"

  /** Ids per `videos().list` / `channels().list` request in the chunked look-ups. */
  const BatchSize: nat := 50

  /** An item of a `search().list` response: `item['id']['kind']` and `item['id']['videoId']`. */
  datatype SearchItem = SearchItem(kind: string, videoId: string)

  /** An item of a `videos().list` response. */
  datatype VideoItem = VideoItem(id: string, snippet: Snippet, statistics: Statistics)

  /** An item of a `channels().list` response; country and counts may be absent. */
  datatype ChannelItem = ChannelItem(
    id: string,
    title: string,
    country: Option<string>,
    subscriberCount: Option<int>,
    videoCount: Option<int>)

  /** The three requests the collectors make: search by (keyword, region, maxResults), and
      look-ups by a list of ids. `None` is a request that raised. */
  datatype YouTubeApi = YouTubeApi(
    search: (string, string, nat) -> Option<seq<SearchItem>>,
    videos: seq<string> -> Option<seq<VideoItem>>,
    channels: seq<string> -> Option<seq<ChannelItem>>)

  /** The script (src/youtube_collector.py) or the function app (azure-functions/function_app.py). */
  datatype Deployment = Script | FunctionApp

  /** The dict `collect_data` builds for each returned video (the classification spread in). */
  datatype VideoRecord = VideoRecord(
    videoId: string,
    channelId: string,
    categoryId: int,
    title: string,
    description: string,
    tags: seq<string>,
    publishedAt: string,
    viewCount: int,
    likeCount: int,
    commentCount: int,
    engagementRate: real,
    searchKeyword: string,
    searchRegion: string,
    collectedAt: string,
    classification: Classification)

  datatype ChannelRecord = ChannelRecord(
    channelId: string,
    channelTitle: string,
    channelCountry: string,
    subscriberCount: int,
    videoCount: int)

  /** A video returned for one (region, keyword) search. */
  datatype Hit = Hit(region: string, keyword: string, video: VideoItem)

  // ---------------------------------------------------------------------------------------
  // search_videos

  /** Video ids of the items of kind `youtube#video`, in response order. */
  function KindFilter(items: seq<SearchItem>): seq<string> {
    if items == [] then []
    else
      var init, last := items[..|items| - 1], items[|items| - 1];
      if last.kind == VideoKind then KindFilter(init) + [last.videoId] else KindFilter(init)
  }

  /** An id is returned exactly when some item of kind `youtube#video` carries it; no more ids
      than items. */
  lemma {:induction false} KindFilterSelectsVideos(items: seq<SearchItem>)
    ensures |KindFilter(items)| <= |items|
    ensures forall x :: x in KindFilter(items) <==> exists it :: it in items && it.kind == VideoKind && it.videoId == x
  {
    if items != [] {
      var init, last := items[..|items| - 1], items[|items| - 1];
      assert forall it :: it in items <==> it in init || it == last;
      KindFilterSelectsVideos(init);
    }
  }

  /** What `search_videos` returns: the filtered ids, or nothing when the request raised. */
  function SearchIds(api: YouTubeApi, keyword: string, region: string, maxResults: nat): seq<string> {
    match api.search(keyword, region, maxResults)
    case None => []
    case Some(items) => KindFilter(items)
  }

  method SearchVideos(api: YouTubeApi, keyword: string, region: string, maxResults: nat)
    returns (ids: seq<string>)
    ensures ids == SearchIds(api, keyword, region, maxResults)
    ensures api.search(keyword, region, maxResults).None? ==> ids == []
  {
    var response := api.search(keyword, region, maxResults);
    if response.None? {
      return [];
    }
    var items := response.value;
    ids := [];
    var i := 0;
    while i < |items|
      invariant 0 <= i <= |items|
      invariant ids == KindFilter(items[..i])
    {
      assert items[..i + 1][..i] == items[..i];
      if items[i].kind == VideoKind {
        ids := ids + [items[i].videoId];
      }
      i := i + 1;
    }
    assert items[..i] == items;
  }

  // ---------------------------------------------------------------------------------------
  // Chunked look-ups of the function app

  /** Requests every batch in turn; the whole look-up fails as soon as one request raises. */
  function FetchAll<T>(batches: seq<seq<string>>, fetch: seq<string> -> Option<seq<T>>): Option<seq<T>> {
    if batches == [] then Some([])
    else
      var before := FetchAll(batches[..|batches| - 1], fetch);
      var answer := fetch(batches[|batches| - 1]);
      if before.None? || answer.None? then None else Some(before.value + answer.value)
  }

  /** All or nothing: the look-up fails exactly when one of its requests raises. */
  lemma {:induction false} FetchAllFailsIffSomeRequestFails<T>(batches: seq<seq<string>>, fetch: seq<string> -> Option<seq<T>>)
    ensures FetchAll(batches, fetch).None? <==> exists b :: b in batches && fetch(b).None?
  {
    if batches != [] {
      var init, last := batches[..|batches| - 1], batches[|batches| - 1];
      assert forall b :: b in batches <==> b in init || b == last;
      FetchAllFailsIffSomeRequestFails(init, fetch);
    }
  }

  lemma ChunksStep<T>(s: seq<T>, i: nat, n: nat)
    requires n > 0 && i < |s|
    ensures var j := if i + n <= |s| then i + n else |s|;
            Chunks(s[i..], n) == [s[i..j]] + Chunks(s[j..], n)
  {
    var j := if i + n <= |s| then i + n else |s|;
    if |s[i..]| <= n {
      assert s[i..j] == s[i..];
      assert s[j..] == [];
    } else {
      assert s[i..][..n] == s[i..j];
      assert s[i..][n..] == s[j..];
    }
  }

  /** A request that raises makes the whole look-up fail. */
  lemma FetchFailsWithBatch<T>(batches: seq<seq<string>>, b: seq<string>, fetch: seq<string> -> Option<seq<T>>)
    requires b in batches && fetch(b).None?
    ensures FetchAll(batches, fetch).None?
  {
    FetchAllFailsIffSomeRequestFails(batches, fetch);
  }

  lemma FetchAllSnoc<T>(done: seq<seq<string>>, b: seq<string>, fetch: seq<string> -> Option<seq<T>>)
    ensures FetchAll(done + [b], fetch)
            == (if FetchAll(done, fetch).None? || fetch(b).None? then None
                else Some(FetchAll(done, fetch).value + fetch(b).value))
  {
    assert (done + [b])[..|done|] == done;
  }

  /** `get_video_details` / `get_channel_details` of the function app: requests of at most 50
      ids, results concatenated, and an empty list if any request raised. */
  method FetchInChunks<T>(ids: seq<string>, fetch: seq<string> -> Option<seq<T>>) returns (r: seq<T>)
    ensures r == FetchAll(Chunks(ids, BatchSize), fetch).GetOr([])
  {
    r := [];
    ghost var done: seq<seq<string>> := [];
    var i := 0;
    assert ids[0..] == ids;
    while i < |ids|
      invariant 0 <= i <= |ids|
      invariant Chunks(ids, BatchSize) == done + Chunks(ids[i..], BatchSize)
      invariant FetchAll(done, fetch) == Some(r)
      decreases |ids| - i
    {
      var j := if i + BatchSize <= |ids| then i + BatchSize else |ids|;
      var batch := ids[i..j];
      ChunksStep(ids, i, BatchSize);
      assert Chunks(ids, BatchSize) == (done + [batch]) + Chunks(ids[j..], BatchSize);
      FetchAllSnoc(done, batch, fetch);
      var response := fetch(batch);
      if response.None? {
        FetchFailsWithBatch(Chunks(ids, BatchSize), batch, fetch);
        return [];
      }
      r := r + response.value;
      done := done + [batch];
      i := j;
    }
    assert Chunks(ids[i..], BatchSize) == [];
    assert done == Chunks(ids, BatchSize);
  }

  /** The video look-up of each deployment: one request for all ids in the script (empty if it
      raised), chunked and all-or-nothing in the function app. */
  function VideoDetails(api: YouTubeApi, d: Deployment, ids: seq<string>): seq<VideoItem> {
    match d
    case Script => api.videos(ids).GetOr([])
    case FunctionApp => FetchAll(Chunks(ids, BatchSize), api.videos).GetOr([])
  }

  method GetVideoDetails(api: YouTubeApi, d: Deployment, ids: seq<string>) returns (videos: seq<VideoItem>)
    ensures videos == VideoDetails(api, d, ids)
  {
    if d == Script {
      var response := api.videos(ids);
      videos := response.GetOr([]);
    } else {
      videos := FetchInChunks(ids, api.videos);
    }
  }

  // ---------------------------------------------------------------------------------------
  // The nested region x keyword loops of collect_data

  /** The videos one (region, keyword) search contributes: none when the search found no ids
      (the detail look-up is then skipped), otherwise whatever the look-up returns. */
  function KeywordBatch(api: YouTubeApi, d: Deployment, region: string, keyword: string, perKeyword: nat)
    : seq<VideoItem>
  {
    var ids := SearchIds(api, keyword, region, perKeyword);
    if ids == [] then [] else VideoDetails(api, d, ids)
  }

  function Tag(region: string, keyword: string, videos: seq<VideoItem>): (hits: seq<Hit>)
    ensures |hits| == |videos|
  {
    if videos == [] then []
    else Tag(region, keyword, videos[..|videos| - 1]) + [Hit(region, keyword, videos[|videos| - 1])]
  }

  /** The hits of one region, keyword by keyword in configuration order. */
  function RegionHits(api: YouTubeApi, d: Deployment, region: string, keywords: seq<string>, perKeyword: nat)
    : seq<Hit>
  {
    if keywords == [] then []
    else
      var k := keywords[|keywords| - 1];
      RegionHits(api, d, region, keywords[..|keywords| - 1], perKeyword)
      + Tag(region, k, KeywordBatch(api, d, region, k, perKeyword))
  }

  /** The hits of all regions, region by region: the order the records are appended in. */
  function AllHits(api: YouTubeApi, d: Deployment, regions: seq<string>, keywords: seq<string>, perKeyword: nat)
    : seq<Hit>
  {
    if regions == [] then []
    else
      AllHits(api, d, regions[..|regions| - 1], keywords, perKeyword)
      + RegionHits(api, d, regions[|regions| - 1], keywords, perKeyword)
  }

  /** `video_record` for one hit, stamped with the `collected_at` reading taken for it. */
  function RecordOf(lex: Lexicon, h: Hit, collectedAt: string): VideoRecord {
    var v := h.video;
    VideoRecord(
      v.id, v.snippet.channelId, v.snippet.categoryId, v.snippet.title,
      v.snippet.description.GetOr(""), v.snippet.tags.GetOr([]), v.snippet.publishedAt,
      v.statistics.viewCount.GetOr(0), v.statistics.likeCount.GetOr(0), v.statistics.commentCount.GetOr(0),
      EngagementRate(v.statistics), h.keyword, h.region, collectedAt, Classify(lex, v.snippet))
  }

  /** One record per hit, in hit order; `clock(n)` is the `datetime.now()` reading taken for the
      n-th record. */
  function Records(lex: Lexicon, hits: seq<Hit>, clock: nat -> string): (rs: seq<VideoRecord>)
    ensures |rs| == |hits|
  {
    if hits == [] then []
    else Records(lex, hits[..|hits| - 1], clock) + [RecordOf(lex, hits[|hits| - 1], clock(|hits| - 1))]
  }

  function ChannelIds(hits: seq<Hit>): (ids: seq<string>)
    ensures |ids| == |hits|
  {
    if hits == [] then []
    else ChannelIds(hits[..|hits| - 1]) + [hits[|hits| - 1].video.snippet.channelId]
  }

  // ---------------------------------------------------------------------------------------
  // The insertion-ordered `all_channels` dict

  /** A Python dict from channel id to entry: `keys` in insertion order, `entries` the values. */
  datatype ChannelTable = ChannelTable(keys: seq<string>, entries: map<string, Option<ChannelRecord>>)
  {
    ghost predicate Valid() {
      NoDuplicates(keys) && forall k :: k in entries <==> k in keys
    }

    /** `d[k] = v`: a new key goes to the end, an existing key keeps its place. */
    function Put(k: string, v: Option<ChannelRecord>): ChannelTable {
      if k in entries then ChannelTable(keys, entries[k := v])
      else ChannelTable(keys + [k], entries[k := v])
    }

    /** `list(d.values())` */
    function Values(): (vs: seq<Option<ChannelRecord>>)
      requires Valid()
      ensures |vs| == |keys|
      ensures forall i :: 0 <= i < |keys| ==> vs[i] == entries[keys[i]]
    {
      seq(|keys|, i requires 0 <= i < |keys| => entries[keys[i]])
    }
  }

  const EmptyTable := ChannelTable([], map[])

  /** Assignment keeps the keys distinct and in step with the entries. */
  lemma PutValid(t: ChannelTable, k: string, v: Option<ChannelRecord>)
    requires t.Valid()
    ensures t.Put(k, v).Valid()
  {
  }

  /** `all_channels[channel_id] = None` for each id in turn, from an empty dict. */
  function SeenTable(ids: seq<string>): ChannelTable {
    if ids == [] then EmptyTable
    else SeenTable(ids[..|ids| - 1]).Put(ids[|ids| - 1], None)
  }

  /** The dict of the seen channel ids has exactly the distinct ids as keys, in first-seen
      order, each mapped to `None`. */
  lemma {:induction false} SeenTableIsDedup(ids: seq<string>)
    ensures SeenTable(ids).Valid()
    ensures SeenTable(ids).keys == Dedup(ids)
    ensures forall k :: k in SeenTable(ids).entries ==> SeenTable(ids).entries[k] == None
  {
    if ids != [] {
      SeenTableIsDedup(ids[..|ids| - 1]);
    }
  }

  function ChannelRecordOf(c: ChannelItem): ChannelRecord {
    ChannelRecord(c.id, c.title, c.country.GetOr("UNKNOWN"), c.subscriberCount.GetOr(0), c.videoCount.GetOr(0))
  }

  /** `all_channels[channel['id']] = {...}` for each returned channel in turn. */
  function StoreDetails(t: ChannelTable, items: seq<ChannelItem>): ChannelTable {
    if items == [] then t
    else
      var last := items[|items| - 1];
      StoreDetails(t, items[..|items| - 1]).Put(last.id, Some(ChannelRecordOf(last)))
  }

  /** Storing details for ids that are already keys keeps the key order, and the table valid. */
  lemma {:induction false} StoreDetailsKeepsKeys(t: ChannelTable, items: seq<ChannelItem>)
    requires t.Valid()
    requires forall c :: c in items ==> c.id in t.keys
    ensures StoreDetails(t, items).Valid()
    ensures StoreDetails(t, items).keys == t.keys
  {
    if items != [] {
      var init := items[..|items| - 1];
      assert forall c :: c in init ==> c in items;
      StoreDetailsKeepsKeys(t, init);
      assert items[|items| - 1] in items;
    }
  }

  /** An id whose details were never returned keeps its old entry; one whose details were
      returned holds the record of one of the returned items with that id. */
  lemma {:induction false} StoreDetailsEntry(t: ChannelTable, items: seq<ChannelItem>, k: string)
    requires k in t.entries
    ensures k in StoreDetails(t, items).entries
    ensures (forall c :: c in items ==> c.id != k) ==> StoreDetails(t, items).entries[k] == t.entries[k]
    ensures (exists c :: c in items && c.id == k) ==>
              exists c :: c in items && c.id == k && StoreDetails(t, items).entries[k] == Some(ChannelRecordOf(c))
  {
    if items != [] {
      var init, last := items[..|items| - 1], items[|items| - 1];
      assert forall c :: c in items <==> c in init || c == last;
      StoreDetailsEntry(t, init, k);
      if last.id != k && exists c :: c in items && c.id == k {
        var c :| c in items && c.id == k;
        assert c in init;
      }
    }
  }

  /** The channels the script's look-ups return, batch after batch; a request that raised
      contributes nothing. */
  function FetchedChannels(api: YouTubeApi, batches: seq<seq<string>>): seq<ChannelItem> {
    if batches == [] then []
    else FetchedChannels(api, batches[..|batches| - 1]) + api.channels(batches[|batches| - 1]).GetOr([])
  }

  lemma FetchedChannelsSnoc(api: YouTubeApi, done: seq<seq<string>>, batch: seq<string>)
    ensures FetchedChannels(api, done + [batch]) == FetchedChannels(api, done) + api.channels(batch).GetOr([])
  {
    assert (done + [batch])[..|done|] == done;
  }

  /** The loop over one response: each returned channel's record stored under its id. */
  method StoreChannels(t0: ChannelTable, channels: seq<ChannelItem>, ghost seen: ChannelTable,
                       ghost before: seq<ChannelItem>)
    returns (t: ChannelTable)
    requires t0 == StoreDetails(seen, before)
    ensures t == StoreDetails(seen, before + channels)
  {
    t := t0;
    assert before + channels[..0] == before;
    var c := 0;
    while c < |channels|
      invariant 0 <= c <= |channels|
      invariant t == StoreDetails(seen, before + channels[..c])
    {
      assert (before + channels[..c + 1])[..|before| + c] == before + channels[..c];
      t := t.Put(channels[c].id, Some(ChannelRecordOf(channels[c])));
      c := c + 1;
    }
    assert channels[..c] == channels;
  }

  /** One request of the script's channel loop; a request that raised returns no channels. */
  method FetchChannelBatch(api: YouTubeApi, t0: ChannelTable, batch: seq<string>, ghost seen: ChannelTable,
                           ghost done: seq<seq<string>>)
    returns (t: ChannelTable)
    requires t0 == StoreDetails(seen, FetchedChannels(api, done))
    ensures t == StoreDetails(seen, FetchedChannels(api, done + [batch]))
  {
    var channels := api.channels(batch).GetOr([]);
    FetchedChannelsSnoc(api, done, batch);
    t := StoreChannels(t0, channels, seen, FetchedChannels(api, done));
  }

  /** The script's channel loop: `channel_ids[i:i+50]` for `i` in `range(0, len(channel_ids), 50)`,
      each returned channel's record stored under its id. */
  method FetchChannelDetails(api: YouTubeApi, seen: ChannelTable) returns (t: ChannelTable)
    ensures t == StoreDetails(seen, FetchedChannels(api, Chunks(seen.keys, BatchSize)))
  {
    var ids := seen.keys;
    t := seen;
    ghost var done: seq<seq<string>> := [];
    var i := 0;
    assert ids[0..] == ids;
    while i < |ids|
      invariant 0 <= i <= |ids|
      invariant Chunks(ids, BatchSize) == done + Chunks(ids[i..], BatchSize)
      invariant t == StoreDetails(seen, FetchedChannels(api, done))
      decreases |ids| - i
    {
      var j := if i + BatchSize <= |ids| then i + BatchSize else |ids|;
      ChunksStep(ids, i, BatchSize);
      t := FetchChannelBatch(api, t, ids[i..j], seen, done);
      done := done + [ids[i..j]];
      i := j;
    }
    assert Chunks(ids[i..], BatchSize) == [];
    assert done == Chunks(ids, BatchSize);
  }

  // ---------------------------------------------------------------------------------------
  // collect_data

  lemma AppendHit(lex: Lexicon, hits: seq<Hit>, h: Hit, clock: nat -> string)
    ensures Records(lex, hits + [h], clock) == Records(lex, hits, clock) + [RecordOf(lex, h, clock(|hits|))]
    ensures SeenTable(ChannelIds(hits + [h])) == SeenTable(ChannelIds(hits)).Put(h.video.snippet.channelId, None)
  {
    assert (hits + [h])[..|hits|] == hits;
    var ids := ChannelIds(hits + [h]);
    assert ids[..|ids| - 1] == ChannelIds(hits);
  }

  lemma TagSnoc(region: string, keyword: string, batch: seq<VideoItem>, c: nat)
    requires c < |batch|
    ensures Tag(region, keyword, batch[..c + 1]) == Tag(region, keyword, batch[..c]) + [Hit(region, keyword, batch[c])]
  {
    assert batch[..c + 1][..c] == batch[..c];
  }

  /** The innermost loop: one record per returned video, its channel id marked as seen. */
  method AppendBatch(lex: Lexicon, region: string, keyword: string, batch: seq<VideoItem>, clock: nat -> string,
                     ghost hits: seq<Hit>, videos0: seq<VideoRecord>, seen0: ChannelTable)
    returns (videos: seq<VideoRecord>, seen: ChannelTable)
    requires videos0 == Records(lex, hits, clock) && seen0 == SeenTable(ChannelIds(hits))
    ensures videos == Records(lex, hits + Tag(region, keyword, batch), clock)
    ensures seen == SeenTable(ChannelIds(hits + Tag(region, keyword, batch)))
  {
    videos, seen := videos0, seen0;
    ghost var sofar := hits;
    assert hits + Tag(region, keyword, batch[..0]) == hits;
    var c := 0;
    while c < |batch|
      invariant 0 <= c <= |batch|
      invariant sofar == hits + Tag(region, keyword, batch[..c])
      invariant videos == Records(lex, sofar, clock)
      invariant seen == SeenTable(ChannelIds(sofar))
    {
      var h := Hit(region, keyword, batch[c]);
      assert sofar + [h] == hits + Tag(region, keyword, batch[..c + 1]) by {
        TagSnoc(region, keyword, batch, c);
      }
      assert |videos| == |sofar|;
      AppendHit(lex, sofar, h, clock);
      videos := videos + [RecordOf(lex, h, clock(|videos|))];
      seen := seen.Put(batch[c].snippet.channelId, None);
      sofar := sofar + [h];
      c := c + 1;
    }
    assert batch[..c] == batch;
  }

  lemma RegionHitsSnoc(api: YouTubeApi, d: Deployment, region: string, keywords: seq<string>, b: nat,
                       perKeyword: nat, prior: seq<Hit>)
    requires b < |keywords|
    ensures prior + RegionHits(api, d, region, keywords[..b + 1], perKeyword)
            == (prior + RegionHits(api, d, region, keywords[..b], perKeyword))
               + Tag(region, keywords[b], KeywordBatch(api, d, region, keywords[b], perKeyword))
  {
    assert keywords[..b + 1][..b] == keywords[..b];
  }

  lemma AllHitsSnoc(api: YouTubeApi, d: Deployment, regions: seq<string>, a: nat, keywords: seq<string>, perKeyword: nat)
    requires a < |regions|
    ensures AllHits(api, d, regions[..a + 1], keywords, perKeyword)
            == AllHits(api, d, regions[..a], keywords, perKeyword) + RegionHits(api, d, regions[a], keywords, perKeyword)
  {
    assert regions[..a + 1][..a] == regions[..a];
  }

  /** One search: look the found ids up and append their records; nothing when none were found. */
  method CollectKeyword(api: YouTubeApi, d: Deployment, lex: Lexicon, region: string, keyword: string,
                        perKeyword: nat, clock: nat -> string, ghost prior: seq<Hit>,
                        videos0: seq<VideoRecord>, seen0: ChannelTable)
    returns (videos: seq<VideoRecord>, seen: ChannelTable)
    requires videos0 == Records(lex, prior, clock) && seen0 == SeenTable(ChannelIds(prior))
    ensures videos == Records(lex, prior + Tag(region, keyword, KeywordBatch(api, d, region, keyword, perKeyword)), clock)
    ensures seen == SeenTable(ChannelIds(prior + Tag(region, keyword, KeywordBatch(api, d, region, keyword, perKeyword))))
  {
    var ids := SearchVideos(api, keyword, region, perKeyword);
    if ids != [] {
      var batch := GetVideoDetails(api, d, ids);
      videos, seen := AppendBatch(lex, region, keyword, batch, clock, prior, videos0, seen0);
    } else {
      assert prior + Tag(region, keyword, []) == prior;
      videos, seen := videos0, seen0;
    }
  }

  /** The loop over the keywords of one region. */
  method CollectRegion(api: YouTubeApi, d: Deployment, lex: Lexicon, region: string, keywords: seq<string>,
                       perKeyword: nat, clock: nat -> string, ghost prior: seq<Hit>,
                       videos0: seq<VideoRecord>, seen0: ChannelTable)
    returns (videos: seq<VideoRecord>, seen: ChannelTable)
    requires videos0 == Records(lex, prior, clock) && seen0 == SeenTable(ChannelIds(prior))
    ensures videos == Records(lex, prior + RegionHits(api, d, region, keywords, perKeyword), clock)
    ensures seen == SeenTable(ChannelIds(prior + RegionHits(api, d, region, keywords, perKeyword)))
  {
    videos, seen := videos0, seen0;
    ghost var sofar := prior;
    assert keywords[..0] == [];
    assert prior + [] == prior;
    var b := 0;
    while b < |keywords|
      invariant 0 <= b <= |keywords|
      invariant sofar == prior + RegionHits(api, d, region, keywords[..b], perKeyword)
      invariant videos == Records(lex, sofar, clock)
      invariant seen == SeenTable(ChannelIds(sofar))
    {
      RegionHitsSnoc(api, d, region, keywords, b, perKeyword, prior);
      videos, seen := CollectKeyword(api, d, lex, region, keywords[b], perKeyword, clock, sofar, videos, seen);
      sofar := sofar + Tag(region, keywords[b], KeywordBatch(api, d, region, keywords[b], perKeyword));
      b := b + 1;
    }
    assert keywords[..b] == keywords;
  }

  /** The nested loops: for each region, for each keyword, search, look the ids up, and append a
      record per returned video while marking its channel id as seen. */
  method CollectVideos(api: YouTubeApi, d: Deployment, lex: Lexicon, regions: seq<string>,
                       keywords: seq<string>, perKeyword: nat, clock: nat -> string)
    returns (videos: seq<VideoRecord>, seen: ChannelTable)
    ensures videos == Records(lex, AllHits(api, d, regions, keywords, perKeyword), clock)
    ensures seen == SeenTable(ChannelIds(AllHits(api, d, regions, keywords, perKeyword)))
  {
    videos, seen := [], EmptyTable;
    var a := 0;
    while a < |regions|
      invariant 0 <= a <= |regions|
      invariant videos == Records(lex, AllHits(api, d, regions[..a], keywords, perKeyword), clock)
      invariant seen == SeenTable(ChannelIds(AllHits(api, d, regions[..a], keywords, perKeyword)))
    {
      AllHitsSnoc(api, d, regions, a, keywords, perKeyword);
      videos, seen := CollectRegion(api, d, lex, regions[a], keywords, perKeyword, clock,
                                    AllHits(api, d, regions[..a], keywords, perKeyword), videos, seen);
      a := a + 1;
    }
    assert regions[..a] == regions;
  }

  /** `collect_data` of the script: the records, then one entry per distinct channel id in
      first-seen order, holding the details the chunked look-ups returned (or `None`). */
  method CollectData(api: YouTubeApi, lex: Lexicon, regions: seq<string>, keywords: seq<string>,
                     perKeyword: nat, clock: nat -> string)
    returns (videos: seq<VideoRecord>, channels: seq<Option<ChannelRecord>>)
    ensures var hits := AllHits(api, Script, regions, keywords, perKeyword);
            && videos == Records(lex, hits, clock)
            && channels == ScriptChannels(api, ChannelIds(hits))
  {
    var seen;
    videos, seen := CollectVideos(api, Script, lex, regions, keywords, perKeyword, clock);
    ghost var hits := AllHits(api, Script, regions, keywords, perKeyword);
    SeenTableIsDedup(ChannelIds(hits));
    var t := FetchChannelDetails(api, seen);
    StoreDetailsValid(seen, FetchedChannels(api, Chunks(seen.keys, BatchSize)));
    channels := t.Values();
  }

  lemma {:induction false} StoreDetailsValid(t: ChannelTable, items: seq<ChannelItem>)
    requires t.Valid()
    ensures StoreDetails(t, items).Valid()
  {
    if items != [] {
      StoreDetailsValid(t, items[..|items| - 1]);
    }
  }

  /** The channel list the script returns for the seen channel ids. */
  function ScriptChannels(api: YouTubeApi, channelIds: seq<string>): seq<Option<ChannelRecord>> {
    SeenTableIsDedup(channelIds);
    var seen := SeenTable(channelIds);
    var fetched := FetchedChannels(api, Chunks(seen.keys, BatchSize));
    StoreDetailsValid(seen, fetched);
    StoreDetails(seen, fetched).Values()
  }

  /** The function app's channel list: one record per returned channel, in response order. */
  function ChannelRecords(items: seq<ChannelItem>): (rs: seq<ChannelRecord>)
    ensures |rs| == |items|
    ensures forall i :: 0 <= i < |items| ==> rs[i] == ChannelRecordOf(items[i])
  {
    if items == [] then [] else ChannelRecords(items[..|items| - 1]) + [ChannelRecordOf(items[|items| - 1])]
  }

  /** `collect_data` of the function app: the records, then one chunked look-up of the distinct
      channel ids; the channel list is empty when any of its requests raised. */
  method CollectDataFunction(api: YouTubeApi, lex: Lexicon, regions: seq<string>, keywords: seq<string>,
                             perKeyword: nat, clock: nat -> string)
    returns (videos: seq<VideoRecord>, channels: seq<ChannelRecord>)
    ensures var hits := AllHits(api, FunctionApp, regions, keywords, perKeyword);
            && videos == Records(lex, hits, clock)
            && channels == ChannelRecords(FetchAll(Chunks(Dedup(ChannelIds(hits)), BatchSize), api.channels).GetOr([]))
  {
    var seen;
    videos, seen := CollectVideos(api, FunctionApp, lex, regions, keywords, perKeyword, clock);
    SeenTableIsDedup(ChannelIds(AllHits(api, FunctionApp, regions, keywords, perKeyword)));
    var items := FetchInChunks(seen.keys, api.channels);
    channels := [];
    var i := 0;
    while i < |items|
      invariant 0 <= i <= |items|
      invariant channels == ChannelRecords(items[..i])
    {
      assert items[..i + 1][..i] == items[..i];
      channels := channels + [ChannelRecordOf(items[i])];
      i := i + 1;
    }
    assert items[..i] == items;
  }

  // ---------------------------------------------------------------------------------------
  // What collect_data returns

  lemma {:induction false} TagMembership(region: string, keyword: string, videos: seq<VideoItem>, h: Hit)
    ensures h in Tag(region, keyword, videos) <==> h.region == region && h.keyword == keyword && h.video in videos
  {
    if videos != [] {
      var init, last := videos[..|videos| - 1], videos[|videos| - 1];
      assert forall v :: v in videos <==> v in init || v == last;
      TagMembership(region, keyword, init, h);
    }
  }

  lemma {:induction false} RegionHitsMembership(api: YouTubeApi, d: Deployment, region: string, keywords: seq<string>,
                                                perKeyword: nat, h: Hit)
    ensures h in RegionHits(api, d, region, keywords, perKeyword) <==>
              h.region == region && h.keyword in keywords && h.video in KeywordBatch(api, d, region, h.keyword, perKeyword)
  {
    if keywords != [] {
      var init, last := keywords[..|keywords| - 1], keywords[|keywords| - 1];
      assert forall k :: k in keywords <==> k in init || k == last;
      RegionHitsMembership(api, d, region, init, perKeyword, h);
      TagMembership(region, last, KeywordBatch(api, d, region, last, perKeyword), h);
    }
  }

  /** A (region, keyword, video) triple is a hit exactly when the region and keyword are
      configured and the video came back for that search. */
  lemma {:induction false} AllHitsMembership(api: YouTubeApi, d: Deployment, regions: seq<string>, keywords: seq<string>,
                                             perKeyword: nat, h: Hit)
    ensures h in AllHits(api, d, regions, keywords, perKeyword) <==>
              h.region in regions && h.keyword in keywords
              && h.video in KeywordBatch(api, d, h.region, h.keyword, perKeyword)
  {
    if regions != [] {
      var init, last := regions[..|regions| - 1], regions[|regions| - 1];
      assert forall r :: r in regions <==> r in init || r == last;
      AllHitsMembership(api, d, init, keywords, perKeyword, h);
      RegionHitsMembership(api, d, last, keywords, perKeyword, h);
    }
  }

  /** The i-th record is built from the i-th hit: its video, that hit's keyword and region, and
      the i-th clock reading. */
  lemma {:induction false} RecordsAt(lex: Lexicon, hits: seq<Hit>, clock: nat -> string, i: nat)
    requires i < |hits|
    ensures Records(lex, hits, clock)[i] == RecordOf(lex, hits[i], clock(i))
    ensures Records(lex, hits, clock)[i].videoId == hits[i].video.id
    ensures Records(lex, hits, clock)[i].searchKeyword == hits[i].keyword
    ensures Records(lex, hits, clock)[i].searchRegion == hits[i].region
    ensures Records(lex, hits, clock)[i].classification == Classify(lex, hits[i].video.snippet)
    ensures Records(lex, hits, clock)[i].engagementRate == EngagementRate(hits[i].video.statistics)
  {
    if i < |hits| - 1 {
      RecordsAt(lex, hits[..|hits| - 1], clock, i);
    }
  }

  /** Every video returned for a configured (region, keyword) search has a record tagged with
      that region and keyword. */
  lemma EveryReturnedVideoRecorded(api: YouTubeApi, d: Deployment, lex: Lexicon, regions: seq<string>,
                                   keywords: seq<string>, perKeyword: nat, clock: nat -> string,
                                   region: string, keyword: string, v: VideoItem)
    requires region in regions && keyword in keywords
    requires v in KeywordBatch(api, d, region, keyword, perKeyword)
    ensures exists i :: 0 <= i < |Records(lex, AllHits(api, d, regions, keywords, perKeyword), clock)|
              && Records(lex, AllHits(api, d, regions, keywords, perKeyword), clock)[i].videoId == v.id
              && Records(lex, AllHits(api, d, regions, keywords, perKeyword), clock)[i].searchKeyword == keyword
              && Records(lex, AllHits(api, d, regions, keywords, perKeyword), clock)[i].searchRegion == region
  {
    var hits := AllHits(api, d, regions, keywords, perKeyword);
    AllHitsMembership(api, d, regions, keywords, perKeyword, Hit(region, keyword, v));
    var i :| 0 <= i < |hits| && hits[i] == Hit(region, keyword, v);
    RecordsAt(lex, hits, clock, i);
  }

  /** No deduplication across keywords: a video returned by two searches of the same region
      yields two records. */
  lemma SameVideoTwoKeywordsTwoRecords(api: YouTubeApi, d: Deployment, lex: Lexicon, regions: seq<string>,
                                       keywords: seq<string>, perKeyword: nat, clock: nat -> string,
                                       region: string, k1: string, k2: string, v: VideoItem)
    requires region in regions && k1 in keywords && k2 in keywords && k1 != k2
    requires v in KeywordBatch(api, d, region, k1, perKeyword) && v in KeywordBatch(api, d, region, k2, perKeyword)
    ensures var rs := Records(lex, AllHits(api, d, regions, keywords, perKeyword), clock);
            exists i, j :: 0 <= i < |rs| && 0 <= j < |rs| && i != j && rs[i].videoId == v.id && rs[j].videoId == v.id
  {
    var hits := AllHits(api, d, regions, keywords, perKeyword);
    var rs := Records(lex, hits, clock);
    AllHitsMembership(api, d, regions, keywords, perKeyword, Hit(region, k1, v));
    AllHitsMembership(api, d, regions, keywords, perKeyword, Hit(region, k2, v));
    var i :| 0 <= i < |hits| && hits[i] == Hit(region, k1, v);
    var j :| 0 <= j < |hits| && hits[j] == Hit(region, k2, v);
    RecordsAt(lex, hits, clock, i);
    RecordsAt(lex, hits, clock, j);
    assert rs[i].videoId == v.id && rs[j].videoId == v.id;
  }

  /** The script's channel list, when the look-ups answer only for requested ids: one entry per
      distinct channel id in first-seen order; an entry is `None` exactly when no look-up
      returned that id, and otherwise holds the record built from a returned channel with that id. */
  lemma ScriptChannelList(api: YouTubeApi, channelIds: seq<string>)
    requires forall c :: c in FetchedChannels(api, Chunks(Dedup(channelIds), BatchSize)) ==> c.id in channelIds
    ensures |ScriptChannels(api, channelIds)| == |Dedup(channelIds)|
    ensures forall i :: 0 <= i < |Dedup(channelIds)| ==>
              (ScriptChannels(api, channelIds)[i].None? <==>
                 forall c :: c in FetchedChannels(api, Chunks(Dedup(channelIds), BatchSize)) ==> c.id != Dedup(channelIds)[i])
    ensures forall i :: 0 <= i < |Dedup(channelIds)| && ScriptChannels(api, channelIds)[i].Some? ==>
              exists c :: c in FetchedChannels(api, Chunks(Dedup(channelIds), BatchSize)) &&
                c.id == Dedup(channelIds)[i] && ScriptChannels(api, channelIds)[i] == Some(ChannelRecordOf(c))
  {
    SeenTableIsDedup(channelIds);
    var seen := SeenTable(channelIds);
    var fetched := FetchedChannels(api, Chunks(seen.keys, BatchSize));
    forall c | c in fetched ensures c.id in seen.keys {
      assert c.id in channelIds;
      DedupSpec(channelIds);
    }
    StoreDetailsKeepsKeys(seen, fetched);
    var t := StoreDetails(seen, fetched);
    forall i | 0 <= i < |seen.keys|
      ensures t.entries[seen.keys[i]].None? <==> forall c :: c in fetched ==> c.id != seen.keys[i]
      ensures t.entries[seen.keys[i]].Some? ==>
                exists c :: c in fetched && c.id == seen.keys[i] && t.entries[seen.keys[i]] == Some(ChannelRecordOf(c))
    {
      StoreDetailsEntry(seen, fetched, seen.keys[i]);
    }
  }

  // ---------------------------------------------------------------------------------------
  // print_summary

  /** `counts[key] = counts.get(key, 0) + 1` for each key in turn. */
  method Tally<K(==,!new)>(keys: seq<K>) returns (counts: map<K, nat>)
    ensures forall k :: k in counts <==> k in keys
    ensures forall k :: k in counts ==> counts[k] == Count(keys, k)
  {
    counts := map[];
    var i := 0;
    while i < |keys|
      invariant 0 <= i <= |keys|
      invariant forall k :: k in counts <==> k in keys[..i]
      invariant forall k :: k in counts ==> counts[k] == Count(keys[..i], k)
    {
      var k := keys[i];
      assert keys[..i + 1][..i] == keys[..i];
      assert forall x :: x in keys[..i + 1] <==> x in keys[..i] || x == k;
      var n := if k in counts then counts[k] else 0;
      counts := counts[k := n + 1];
      i := i + 1;
    }
    assert keys[..i] == keys;
  }

  function Sentiments(videos: seq<VideoRecord>): (ss: seq<Sentiment>)
    ensures |ss| == |videos|
  {
    seq(|videos|, i requires 0 <= i < |videos| => videos[i].classification.sentiment)
  }

  function SearchRegions(videos: seq<VideoRecord>): (rs: seq<string>)
    ensures |rs| == |videos|
  {
    seq(|videos|, i requires 0 <= i < |videos| => videos[i].searchRegion)
  }

  /** The two distributions `print_summary` prints: videos per sentiment and per search region;
      only values that occur get an entry, and each count is at most the number of videos. */
  method Summary(videos: seq<VideoRecord>) returns (bySentiment: map<Sentiment, nat>, byRegion: map<string, nat>)
    ensures forall s :: s in bySentiment <==> s in Sentiments(videos)
    ensures forall s :: s in bySentiment ==> 0 < bySentiment[s] == Count(Sentiments(videos), s) <= |videos|
    ensures forall r :: r in byRegion <==> r in SearchRegions(videos)
    ensures forall r :: r in byRegion ==> 0 < byRegion[r] == Count(SearchRegions(videos), r) <= |videos|
  {
    bySentiment := Tally(Sentiments(videos));
    byRegion := Tally(SearchRegions(videos));
  }
}
