/** The Snowflake side of both loaders: the blob stage they read, the staging table
    `RAW.STG_VIDEOS`, the channel dimension `CORE.DIM_CHANNELS`, the fact table
    `CORE.FACT_VIDEOS` and the aggregate table `ANALYTICS.AGG_DAILY_BY_REGION`. Each SQL statement
    of azure-functions/function_app.py and src/snowflake_loader.py is a function on these tables
    here, and a method of `Database` that applies it. */
module Warehouse {
  import opened Wrappers
  import opened Seqs
  import opened Text
  import opened BlobNaming

  // ---------------------------------------------------------------------------------------
  // The stage: JSON files under date-partitioned paths

  /** The columns the fact statements read from a video element (`raw_json:<path>::<type>`); an
      absent path reads as NULL. `published_at` and `collected_at` are read as timestamps. */
  datatype VideoColumns = VideoColumns(
    categoryId: Option<int>,
    title: Option<string>,
    description: Option<string>,
    tags: Option<seq<string>>,
    finalSentiment: Option<string>,
    classificationMethod: Option<string>,
    positiveKeywordCount: Option<int>,
    negativeKeywordCount: Option<int>,
    viewCount: Option<int>,
    likeCount: Option<int>,
    commentCount: Option<int>,
    engagementRate: Option<real>,
    publishedAt: Option<DateTime>,
    collectedAt: Option<DateTime>,
    searchKeyword: Option<string>,
    searchRegion: Option<string>)

  /** The columns the channel statement reads from a channel element. */
  datatype ChannelColumns = ChannelColumns(
    channelTitle: Option<string>,
    channelCountry: Option<string>,
    subscriberCount: Option<int>,
    videoCount: Option<int>)

  /** One element of a file's top-level JSON array, as `LATERAL FLATTEN(input => $1)` yields it. */
  datatype Element = Element(videoId: Option<string>, channelId: Option<string>, video: VideoColumns, channel: ChannelColumns)

  /** A file on the stage: its path (`METADATA$FILENAME`) and its elements. */
  datatype StageFile = StageFile(path: string, elements: seq<Element>)

  const VideosPattern := "%videos_%"
  const ChannelsPattern := "%channels_%"

  /** `FROM @stage/<datePath>/` reads the files under that directory. */
  predicate InPartition(f: StageFile, datePath: string) {
    |datePath| + 1 <= |f.path| && f.path[..|datePath| + 1] == datePath + "/"
  }

  /** A file of the partition whose name matches the pattern. */
  predicate Selected(f: StageFile, datePath: string, pattern: string) {
    InPartition(f, datePath) && Like(f.path, pattern)
  }

  // ---------------------------------------------------------------------------------------
  // Staging

  /** A row of `TEMP_VIDEOS`: `value AS raw_json, METADATA$FILENAME AS file_name`. */
  datatype TempVideo = TempVideo(rawJson: Element, fileName: string)

  function FileRows(f: StageFile): (rows: seq<TempVideo>)
    ensures |rows| == |f.elements|
  {
    seq(|f.elements|, i requires 0 <= i < |f.elements| => TempVideo(f.elements[i], f.path))
  }

  /** `CREATE OR REPLACE TEMPORARY TABLE TEMP_VIDEOS AS SELECT ... WHERE METADATA$FILENAME LIKE
      '%videos_%'`: the elements of every selected file, file by file. */
  function VideoSource(stage: seq<StageFile>, datePath: string): seq<TempVideo> {
    if stage == [] then []
    else
      var f := stage[|stage| - 1];
      VideoSource(stage[..|stage| - 1], datePath) + (if Selected(f, datePath, VideosPattern) then FileRows(f) else [])
  }

  /** Exactly the elements of the selected files reach `TEMP_VIDEOS`, each with its file's name. */
  lemma {:induction false} VideoSourceMembership(stage: seq<StageFile>, datePath: string, row: TempVideo)
    ensures row in VideoSource(stage, datePath) <==>
              exists f :: f in stage && Selected(f, datePath, VideosPattern) && f.path == row.fileName
                          && row.rawJson in f.elements
  {
    if stage != [] {
      var init, f := stage[..|stage| - 1], stage[|stage| - 1];
      assert forall g :: g in stage <==> g in init || g == f;
      VideoSourceMembership(init, datePath, row);
      if Selected(f, datePath, VideosPattern) && f.path == row.fileName && row.rawJson in f.elements {
        var i :| 0 <= i < |f.elements| && f.elements[i] == row.rawJson;
        assert FileRows(f)[i] == row;
      }
    }
  }

  /** A row of `RAW.STG_VIDEOS`; `load_timestamp` takes its default, the time of the insert. */
  datatype StagingRow = StagingRow(rawJson: Element, loadTimestamp: DateTime, fileName: string)

  /** `INSERT INTO RAW.STG_VIDEOS (raw_json, file_name) SELECT raw_json, file_name FROM TEMP_VIDEOS` */
  function InsertStaging(staging: seq<StagingRow>, temp: seq<TempVideo>, now: DateTime): seq<StagingRow> {
    staging + seq(|temp|, i requires 0 <= i < |temp| => StagingRow(temp[i].rawJson, now, temp[i].fileName))
  }

  /** Staging only appends: the old rows stay as they were, and one row follows per temp row,
      with its element and file name. */
  lemma InsertStagingAppends(staging: seq<StagingRow>, temp: seq<TempVideo>, now: DateTime)
    ensures var r := InsertStaging(staging, temp, now);
            && |r| == |staging| + |temp|
            && r[..|staging|] == staging
            && forall i :: 0 <= i < |temp| ==>
                 r[|staging| + i].rawJson == temp[i].rawJson && r[|staging| + i].fileName == temp[i].fileName
  {
  }

  lemma InsertStagingAt(staging: seq<StagingRow>, temp: seq<TempVideo>, now: DateTime, i: nat)
    requires i < |temp|
    ensures InsertStaging(staging, temp, now)[|staging| + i] == StagingRow(temp[i].rawJson, now, temp[i].fileName)
  {
  }

  /** The videos file the collector writes for a day is read by that day's staging load; its
      channels and metadata files are not. */
  lemma CollectorVideosFileSelected(t: DateTime, elements: seq<Element>)
    ensures Selected(StageFile(BlobName(Videos, t), elements), DatePath(t.date), VideosPattern)
    ensures !Selected(StageFile(BlobName(Channels, t), elements), DatePath(t.date), VideosPattern)
    ensures !Selected(StageFile(BlobName(Metadata, t), elements), DatePath(t.date), VideosPattern)
  {
    BlobNameMatches(Videos, t);
    BlobNameMatches(Channels, t);
    BlobNameMatches(Metadata, t);
    PartitionOfBlob(Videos, t);
  }

  /** The channels file the collector writes for a day is read by that day's channel load; its
      videos and metadata files are not. */
  lemma CollectorChannelsFileSelected(t: DateTime, elements: seq<Element>)
    ensures Selected(StageFile(BlobName(Channels, t), elements), DatePath(t.date), ChannelsPattern)
    ensures !Selected(StageFile(BlobName(Videos, t), elements), DatePath(t.date), ChannelsPattern)
    ensures !Selected(StageFile(BlobName(Metadata, t), elements), DatePath(t.date), ChannelsPattern)
  {
    BlobNameMatches(Videos, t);
    BlobNameMatches(Channels, t);
    BlobNameMatches(Metadata, t);
    PartitionOfBlob(Channels, t);
  }

  lemma PartitionOfBlob(k: BlobKind, t: DateTime)
    ensures InPartition(StageFile(BlobName(k, t), []), DatePath(t.date))
  {
    var dir, rest := DatePath(t.date) + "/", KindName(k) + "_" + Stamp(t) + ".json";
    assert BlobName(k, t) == dir + rest;
    assert (dir + rest)[..|dir|] == dir;
  }

  /** A name of kind `k` contains its kind followed by `_`. */
  lemma NameHasOwnPattern(k: BlobKind, t: DateTime)
    ensures Like(BlobName(k, t), "%" + KindName(k) + "_%")
  {
    var pre, post := DatePath(t.date) + "/", "_" + Stamp(t) + ".json";
    assert BlobName(k, t) == pre + KindName(k) + post;
    assert NoWildcards(KindName(k));
    LikeBetween(pre, KindName(k), post);
  }

  /** The two literals of the LIKE patterns hold no wildcard, and their first letter is neither
      a digit nor part of the fixed text of a blob name. */
  lemma KindLiteral(lit: string)
    requires lit == "videos" || lit == "channels"
    ensures |lit| > 0 && NoWildcards(lit) && !IsDigit(lit[0]) && lit[0] !in "raw/_.json"
  {
    assert lit[0] == 'v' || lit[0] == 'c';
  }

  /** A name whose kind lacks the first letter of `lit` cannot match `%<lit>_%`. */
  lemma NameLacksPattern(k: BlobKind, t: DateTime, lit: string)
    requires lit == "videos" || lit == "channels"
    requires lit[0] !in KindName(k)
    ensures !Like(BlobName(k, t), "%" + lit + "_%")
  {
    KindLiteral(lit);
    LettersOfBlobName(k, t, lit[0]);
    NotOccursFollowedWithout(lit, BlobName(k, t));
    LikeContainsFollowed(BlobName(k, t), lit);
  }

  /** Which of the two LIKE patterns each kind of blob name matches. */
  lemma BlobNameMatches(k: BlobKind, t: DateTime)
    ensures Like(BlobName(k, t), VideosPattern) <==> k == Videos
    ensures Like(BlobName(k, t), ChannelsPattern) <==> k == Channels
  {
    assert VideosPattern == "%" + "videos" + "_%";
    assert ChannelsPattern == "%" + "channels" + "_%";
    match k
    case Videos =>
      NameHasOwnPattern(k, t);
      NameLacksPattern(k, t, "channels");
    case Channels =>
      NameHasOwnPattern(k, t);
      NameLacksPattern(k, t, "videos");
    case Metadata =>
      NameLacksPattern(k, t, "videos");
      NameLacksPattern(k, t, "channels");
  }

  // ---------------------------------------------------------------------------------------
  // Channels

  /** A channel element of a selected file with a non-NULL `channel_id`. */
  datatype ChannelCandidate = ChannelCandidate(channelId: string, columns: ChannelColumns, fileName: string)

  function FileCandidates(elements: seq<Element>, fileName: string): seq<ChannelCandidate> {
    if elements == [] then []
    else
      var e := elements[|elements| - 1];
      FileCandidates(elements[..|elements| - 1], fileName)
      + (if e.channelId.Some? then [ChannelCandidate(e.channelId.value, e.channel, fileName)] else [])
  }

  /** The rows `WHERE METADATA$FILENAME LIKE '%channels_%' AND value:channel_id IS NOT NULL`
      offers to the QUALIFY clause, file by file. */
  function ChannelCandidates(stage: seq<StageFile>, datePath: string): seq<ChannelCandidate> {
    if stage == [] then []
    else
      var f := stage[|stage| - 1];
      ChannelCandidates(stage[..|stage| - 1], datePath)
      + (if Selected(f, datePath, ChannelsPattern) then FileCandidates(f.elements, f.path) else [])
  }

  /** A row of `TEMP_CHANNELS` (the file it came from is kept to state which one won). */
  datatype SourceChannel = SourceChannel(columns: ChannelColumns, fileName: string)

  /** `QUALIFY ROW_NUMBER() OVER (PARTITION BY channel_id ORDER BY METADATA$FILENAME DESC) = 1`:
      one row per channel id, from the greatest file name; among rows of that one file the
      earliest is kept. */
  function LatestChannels(cands: seq<ChannelCandidate>): map<string, SourceChannel> {
    if cands == [] then map[]
    else
      var m := LatestChannels(cands[..|cands| - 1]);
      var c := cands[|cands| - 1];
      if c.channelId in m && !LexLess(m[c.channelId].fileName, c.fileName) then m
      else m[c.channelId := SourceChannel(c.columns, c.fileName)]
  }

  /** `TEMP_CHANNELS` has a row exactly for each channel id offered; the row is one of the
      offered rows for that id, and no row for that id comes from a greater file name. */
  lemma {:induction false} LatestChannelsPicksGreatestFile(cands: seq<ChannelCandidate>)
    ensures forall id :: id in LatestChannels(cands) <==> exists c :: c in cands && c.channelId == id
    ensures forall id :: id in LatestChannels(cands) ==>
              exists c :: c in cands && c.channelId == id
                          && LatestChannels(cands)[id] == SourceChannel(c.columns, c.fileName)
    ensures forall c :: c in cands ==> !LexLess(LatestChannels(cands)[c.channelId].fileName, c.fileName)
  {
    if cands != [] {
      var init, c := cands[..|cands| - 1], cands[|cands| - 1];
      assert forall x :: x in cands <==> x in init || x == c;
      LatestChannelsPicksGreatestFile(init);
      var m := LatestChannels(init);
      var r := LatestChannels(cands);
      if c.channelId in m && LexLess(m[c.channelId].fileName, c.fileName) {
        forall x | x in init && x.channelId == c.channelId
          ensures !LexLess(c.fileName, x.fileName)
        {
          if LexLess(c.fileName, x.fileName) {
            LexLessTransitive(m[c.channelId].fileName, c.fileName, x.fileName);
          }
        }
        LexLessIrreflexive(c.fileName);
      } else if c.channelId !in m {
        LexLessIrreflexive(c.fileName);
      }
    }
  }

  /** A row of `CORE.DIM_CHANNELS`, keyed by `channel_id` in the map that holds it. */
  datatype DimChannel = DimChannel(
    columns: ChannelColumns,
    firstSeenDate: Option<Date>,
    lastUpdated: Option<DateTime>)

  /** `MERGE INTO CORE.DIM_CHANNELS ... WHEN MATCHED THEN UPDATE ... WHEN NOT MATCHED THEN INSERT`:
      a matched channel gets the four columns overwritten and `last_updated` set to now; a new
      channel is inserted with `first_seen_date` today (its `last_updated` is left NULL); other
      channels are untouched. */
  function UpsertChannels(dim: map<string, DimChannel>, src: map<string, SourceChannel>, now: DateTime)
    : map<string, DimChannel>
  {
    map id | id in dim.Keys + src.Keys ::
      if id in src then
        if id in dim then DimChannel(src[id].columns, dim[id].firstSeenDate, Some(now))
        else DimChannel(src[id].columns, Some(now.date), None)
      else dim[id]
  }

  /** What the channel merge does to each row: matched rows get the new columns and
      `last_updated`, keeping `first_seen_date`; new rows get `first_seen_date` today; other rows
      are untouched; the ids are those of both tables, so each stays unique. */
  lemma UpsertChannelsSpec(dim: map<string, DimChannel>, src: map<string, SourceChannel>, now: DateTime)
    ensures var r := UpsertChannels(dim, src, now);
            && r.Keys == dim.Keys + src.Keys
            && (forall id :: id in src && id in dim ==>
                  r[id] == DimChannel(src[id].columns, dim[id].firstSeenDate, Some(now)))
            && (forall id :: id in src && id !in dim ==> r[id] == DimChannel(src[id].columns, Some(now.date), None))
            && (forall id :: id in dim && id !in src ==> r[id] == dim[id])
  {
  }

  /** Equal apart from `last_updated`. */
  predicate SameApartFromLastUpdated(a: map<string, DimChannel>, b: map<string, DimChannel>) {
    a.Keys == b.Keys
    && forall id :: id in a ==> a[id].columns == b[id].columns && a[id].firstSeenDate == b[id].firstSeenDate
  }

  /** Merging the same source again, at any later time, changes nothing but `last_updated`. */
  lemma UpsertChannelsIdempotent(dim: map<string, DimChannel>, src: map<string, SourceChannel>,
                                 now1: DateTime, now2: DateTime)
    ensures SameApartFromLastUpdated(UpsertChannels(UpsertChannels(dim, src, now1), src, now2),
                                     UpsertChannels(dim, src, now1))
  {
    var once := UpsertChannels(dim, src, now1);
    var twice := UpsertChannels(once, src, now2);
    assert twice.Keys == once.Keys;
    forall id | id in twice
      ensures twice[id].columns == once[id].columns && twice[id].firstSeenDate == once[id].firstSeenDate
    {
      assert id in once;
    }
  }

  lemma {:induction false} FileCandidatesMembership(elements: seq<Element>, fileName: string, c: ChannelCandidate)
    ensures c in FileCandidates(elements, fileName) <==>
              c.fileName == fileName && exists e :: e in elements && e.channelId == Some(c.channelId) && e.channel == c.columns
  {
    if elements != [] {
      var init, e := elements[..|elements| - 1], elements[|elements| - 1];
      assert forall x :: x in elements <==> x in init || x == e;
      FileCandidatesMembership(init, fileName, c);
    }
  }

  /** The rows offered to the QUALIFY clause are exactly the elements with a channel id of the
      selected files, each with its file's name. */
  lemma {:induction false} ChannelCandidatesMembership(stage: seq<StageFile>, datePath: string, c: ChannelCandidate)
    ensures c in ChannelCandidates(stage, datePath) <==>
              exists f :: f in stage && Selected(f, datePath, ChannelsPattern) && f.path == c.fileName
                          && exists e :: e in f.elements && e.channelId == Some(c.channelId) && e.channel == c.columns
  {
    if stage != [] {
      var init, f := stage[..|stage| - 1], stage[|stage| - 1];
      assert forall g :: g in stage <==> g in init || g == f;
      ChannelCandidatesMembership(init, datePath, c);
      FileCandidatesMembership(f.elements, f.path, c);
    }
  }

  // ---------------------------------------------------------------------------------------
  // Facts

  /** A row of `CORE.FACT_VIDEOS`: the nineteen projected columns (`collection_date` is
      `DATE(collected_at)`). */
  datatype FactRow = FactRow(videoId: string, channelId: Option<string>, columns: VideoColumns, collectionDate: Option<Date>)

  function FactOf(videoId: string, e: Element): FactRow {
    FactRow(videoId, e.channelId, e.video,
            if e.video.collectedAt.Some? then Some(e.video.collectedAt.value.date) else None)
  }

  /** `SELECT raw_json:video_id::VARCHAR, ... FROM RAW.STG_VIDEOS WHERE raw_json:video_id IS NOT NULL`,
      in staging order, duplicates included. */
  function FactSource(staging: seq<StagingRow>): seq<FactRow> {
    if staging == [] then []
    else
      var e := staging[|staging| - 1].rawJson;
      FactSource(staging[..|staging| - 1]) + (if e.videoId.Some? then [FactOf(e.videoId.value, e)] else [])
  }

  lemma {:induction false} FactSourceMembership(staging: seq<StagingRow>, r: FactRow)
    ensures r in FactSource(staging) <==>
              exists s :: s in staging && s.rawJson.videoId == Some(r.videoId) && FactOf(r.videoId, s.rawJson) == r
  {
    if staging != [] {
      var init, last := staging[..|staging| - 1], staging[|staging| - 1];
      assert forall x :: x in staging <==> x in init || x == last;
      FactSourceMembership(init, r);
    }
  }

  function VideoIds(facts: seq<FactRow>): set<string> {
    set r | r in facts :: r.videoId
  }

  /** The source rows whose video id is not in `ids`, in order. */
  function Unmatched(rows: seq<FactRow>, ids: set<string>): seq<FactRow> {
    if rows == [] then []
    else
      var r := rows[|rows| - 1];
      Unmatched(rows[..|rows| - 1], ids) + (if r.videoId !in ids then [r] else [])
  }

  lemma {:induction false} UnmatchedSpec(rows: seq<FactRow>, ids: set<string>)
    ensures forall r :: r in Unmatched(rows, ids) <==> r in rows && r.videoId !in ids
    ensures NoDuplicates(rows) ==> NoDuplicates(Unmatched(rows, ids))
  {
    if rows != [] {
      var init, last := rows[..|rows| - 1], rows[|rows| - 1];
      assert forall x :: x in rows <==> x in init || x == last;
      UnmatchedSpec(init, ids);
      if NoDuplicates(rows) {
        assert NoDuplicates(init) by {
          forall i, j | 0 <= i < j < |init| ensures init[i] != init[j] {
            assert init[i] == rows[i] && init[j] == rows[j];
          }
        }
        assert last !in init by {
          forall i | 0 <= i < |init| ensures init[i] != last {
            assert init[i] == rows[i];
          }
        }
      }
    }
  }

  lemma {:induction false} UnmatchedNone(rows: seq<FactRow>, ids: set<string>)
    requires forall r :: r in rows ==> r.videoId in ids
    ensures Unmatched(rows, ids) == []
  {
    if rows != [] {
      var init := rows[..|rows| - 1];
      assert forall r :: r in init ==> r in rows;
      assert rows[|rows| - 1] in rows;
      UnmatchedNone(init, ids);
    }
  }

  /** `MERGE INTO CORE.FACT_VIDEOS USING (SELECT DISTINCT ...) ON tgt.video_id = src.video_id
      WHEN NOT MATCHED THEN INSERT`: every distinct source row whose video id the table did not
      hold before is appended; nothing is updated or deleted. */
  function MergeFacts(facts: seq<FactRow>, staging: seq<StagingRow>): seq<FactRow> {
    facts + Unmatched(Dedup(FactSource(staging)), VideoIds(facts))
  }

  /** The merge keeps the old rows as they were, and adds exactly the distinct source rows whose
      video id was absent, each once. */
  lemma MergeFactsSpec(facts: seq<FactRow>, staging: seq<StagingRow>)
    ensures var r := MergeFacts(facts, staging);
            && |facts| <= |r| && r[..|facts|] == facts
            && (forall x :: x in r[|facts|..] <==> x in FactSource(staging) && x.videoId !in VideoIds(facts))
            && NoDuplicates(r[|facts|..])
  {
    var r := MergeFacts(facts, staging);
    DedupSpec(FactSource(staging));
    UnmatchedSpec(Dedup(FactSource(staging)), VideoIds(facts));
    assert r[|facts|..] == Unmatched(Dedup(FactSource(staging)), VideoIds(facts));
  }

  /** Merging the same staging rows again inserts nothing. */
  lemma MergeFactsIdempotent(facts: seq<FactRow>, staging: seq<StagingRow>)
    ensures MergeFacts(MergeFacts(facts, staging), staging) == MergeFacts(facts, staging)
  {
    var once := MergeFacts(facts, staging);
    var src := Dedup(FactSource(staging));
    DedupSpec(FactSource(staging));
    MergeFactsSpec(facts, staging);
    forall x | x in src ensures x.videoId in VideoIds(once) {
      if x.videoId !in VideoIds(facts) {
        assert x in once[|facts|..];
        assert x in once;
      } else {
        var y :| y in facts && y.videoId == x.videoId;
        assert y == once[..|facts|][IndexOf(facts, y)];
        assert y in once;
      }
    }
    UnmatchedNone(src, VideoIds(once));
    assert once + [] == once;
  }

  /** Merging staging rows that offer no fact row beyond those of an earlier merge inserts
      nothing. */
  lemma MergeFactsAbsorbs(facts: seq<FactRow>, staging: seq<StagingRow>, again: seq<StagingRow>)
    requires forall x :: x in FactSource(again) ==> x in FactSource(staging)
    ensures MergeFacts(MergeFacts(facts, staging), again) == MergeFacts(facts, staging)
  {
    var once := MergeFacts(facts, staging);
    var src := Dedup(FactSource(again));
    DedupSpec(FactSource(again));
    MergeFactsSpec(facts, staging);
    forall x | x in src ensures x.videoId in VideoIds(once) {
      if x.videoId !in VideoIds(facts) {
        assert x in once[|facts|..];
        assert x in once;
      } else {
        var y :| y in facts && y.videoId == x.videoId;
        assert y == once[..|facts|][IndexOf(facts, y)];
        assert y in once;
      }
    }
    UnmatchedNone(src, VideoIds(once));
    assert once + [] == once;
  }

  /** The fact rows of the staging table do not depend on when its rows were loaded: a row
      that loading `temp` into an empty table offers is offered by loading it after any rows. */
  lemma RestagedFactIsKnown(staging: seq<StagingRow>, temp: seq<TempVideo>, now1: DateTime, now2: DateTime, x: FactRow)
    requires x in FactSource(InsertStaging([], temp, now2))
    ensures x in FactSource(InsertStaging(staging, temp, now1))
  {
    var first := InsertStaging(staging, temp, now1);
    var second := InsertStaging([], temp, now2);
    FactSourceMembership(second, x);
    var r :| r in second && r.rawJson.videoId == Some(x.videoId) && FactOf(x.videoId, r.rawJson) == x;
    var i := IndexOf(second, r);
    InsertStagingAt([], temp, now2, i);
    InsertStagingAt(staging, temp, now1, i);
    var r1 := first[|staging| + i];
    assert r1 in first;
    FactSourceMembership(first, x);
  }

  function IndexOf<T(==)>(s: seq<T>, x: T): (i: nat)
    requires x in s
    ensures i < |s| && s[i] == x
  {
    if s[0] == x then 0 else 1 + IndexOf(s[1..], x)
  }

  /** SELECT DISTINCT compares whole rows: two staging rows of one new video that differ in any
      other column (a second search keyword, another `collected_at`) both become fact rows, so
      the fact table can hold a video id twice. */
  lemma MergeFactsKeepsBothRowsOfOneVideo(facts: seq<FactRow>, staging: seq<StagingRow>, a: FactRow, b: FactRow)
    requires a in FactSource(staging) && b in FactSource(staging)
    requires a.videoId == b.videoId && a != b && a.videoId !in VideoIds(facts)
    ensures var added := MergeFacts(facts, staging)[|facts|..];
            exists i, j :: 0 <= i < |added| && 0 <= j < |added| && i != j
                           && added[i].videoId == a.videoId && added[j].videoId == a.videoId
  {
    MergeFactsSpec(facts, staging);
    var added := MergeFacts(facts, staging)[|facts|..];
    assert a in added && b in added;
    var i := IndexOf(added, a);
    var j := IndexOf(added, b);
    assert i != j;
  }

  /** `INSERT INTO CORE.FACT_VIDEOS SELECT ... FROM RAW.STG_VIDEOS WHERE raw_json:video_id IS NOT
      NULL` (the older loader): every source row is appended, with no check against the table. */
  function InsertFacts(facts: seq<FactRow>, staging: seq<StagingRow>): (r: seq<FactRow>)
    ensures |r| == |facts| + |FactSource(staging)|
    ensures r[..|facts|] == facts
  {
    facts + FactSource(staging)
  }

  /** Loading the same staging rows twice appends their rows twice. */
  lemma InsertFactsTwice(facts: seq<FactRow>, staging: seq<StagingRow>)
    ensures InsertFacts(InsertFacts(facts, staging), staging) == facts + FactSource(staging) + FactSource(staging)
    ensures FactSource(staging) != [] ==>
              InsertFacts(InsertFacts(facts, staging), staging) != InsertFacts(facts, staging)
  {
    var once := InsertFacts(facts, staging);
    assert |InsertFacts(once, staging)| == |facts| + 2 * |FactSource(staging)|;
  }

  // ---------------------------------------------------------------------------------------
  // Aggregates

  /** The GROUP BY key `(ch.channel_country, v.final_sentiment)`. */
  datatype AggKey = AggKey(channelCountry: Option<string>, finalSentiment: Option<string>)

  /** A row of `ANALYTICS.AGG_DAILY_BY_REGION`. */
  datatype AggRow = AggRow(
    analysisDate: Date,
    key: AggKey,
    videoCount: nat,
    totalViews: Option<int>,
    totalLikes: Option<int>,
    totalComments: Option<int>,
    avgEngagementRate: Option<real>)

  /** A row of the join, with its group key. */
  datatype Joined = Joined(key: AggKey, fact: FactRow)

  /** `FROM CORE.FACT_VIDEOS v JOIN CORE.DIM_CHANNELS ch ON v.channel_id = ch.channel_id WHERE
      v.collection_date = CURRENT_DATE()`: a fact with a NULL channel id, an unknown channel or
      another date drops out. */
  function JoinToday(facts: seq<FactRow>, dim: map<string, DimChannel>, today: Date): seq<Joined> {
    if facts == [] then []
    else
      var f := facts[|facts| - 1];
      JoinToday(facts[..|facts| - 1], dim, today)
      + (if f.collectionDate == Some(today) && f.channelId.Some? && f.channelId.value in dim
         then [Joined(AggKey(dim[f.channelId.value].columns.channelCountry, f.columns.finalSentiment), f)]
         else [])
  }

  function Keys(js: seq<Joined>): (ks: seq<AggKey>)
    ensures |ks| == |js|
  {
    seq(|js|, i requires 0 <= i < |js| => js[i].key)
  }

  /** The facts of one group, in order. */
  function Group(js: seq<Joined>, k: AggKey): seq<FactRow> {
    if js == [] then []
    else Group(js[..|js| - 1], k) + (if js[|js| - 1].key == k then [js[|js| - 1].fact] else [])
  }

  /** The three counters the aggregation sums. */
  datatype Counter = Views | Likes | Comments

  function CounterOf(f: FactRow, c: Counter): Option<int> {
    match c
    case Views => f.columns.viewCount
    case Likes => f.columns.likeCount
    case Comments => f.columns.commentCount
  }

  /** SQL `SUM` of a counter: NULLs are skipped; NULL when there is no other value. */
  function SumOf(rows: seq<FactRow>, c: Counter): Option<int> {
    if rows == [] then None
    else
      var s, x := SumOf(rows[..|rows| - 1], c), CounterOf(rows[|rows| - 1], c);
      if x.None? then s else if s.None? then x else Some(s.value + x.value)
  }

  function RateTotal(rows: seq<FactRow>): real {
    if rows == [] then 0.0 else RateTotal(rows[..|rows| - 1]) + rows[|rows| - 1].columns.engagementRate.GetOr(0.0)
  }

  function RateCount(rows: seq<FactRow>): nat {
    if rows == [] then 0 else RateCount(rows[..|rows| - 1]) + (if rows[|rows| - 1].columns.engagementRate.Some? then 1 else 0)
  }

  /** SQL `AVG(engagement_rate)` over the non-NULL values, in exact arithmetic. */
  function AverageRate(rows: seq<FactRow>): Option<real> {
    if RateCount(rows) == 0 then None else Some(RateTotal(rows) / RateCount(rows) as real)
  }

  function GroupRow(today: Date, k: AggKey, rows: seq<FactRow>): AggRow {
    AggRow(today, k, |rows|, SumOf(rows, Views), SumOf(rows, Likes), SumOf(rows, Comments), AverageRate(rows))
  }

  /** `INSERT INTO AGG_DAILY_BY_REGION SELECT CURRENT_DATE(), ... GROUP BY ch.channel_country,
      v.final_sentiment`: one row per key occurring in today's join. */
  function AggregateToday(facts: seq<FactRow>, dim: map<string, DimChannel>, today: Date): seq<AggRow> {
    var js := JoinToday(facts, dim, today);
    GroupRows(today, js, Dedup(Keys(js)))
  }

  /** One aggregate row per key, in the order of the keys. */
  function GroupRows(today: Date, js: seq<Joined>, keys: seq<AggKey>): seq<AggRow> {
    if keys == [] then []
    else GroupRows(today, js, keys[..|keys| - 1]) + [GroupRow(today, keys[|keys| - 1], Group(js, keys[|keys| - 1]))]
  }

  lemma {:induction false} GroupRowsAt(today: Date, js: seq<Joined>, keys: seq<AggKey>)
    ensures |GroupRows(today, js, keys)| == |keys|
    ensures forall i :: 0 <= i < |keys| ==> GroupRows(today, js, keys)[i] == GroupRow(today, keys[i], Group(js, keys[i]))
  {
    if keys != [] {
      var init := keys[..|keys| - 1];
      GroupRowsAt(today, js, init);
      assert forall i :: 0 <= i < |init| ==> init[i] == keys[i];
    }
  }

  lemma {:induction false} JoinTodayMembership(facts: seq<FactRow>, dim: map<string, DimChannel>, today: Date, j: Joined)
    ensures j in JoinToday(facts, dim, today) <==>
              j.fact in facts && j.fact.collectionDate == Some(today) && j.fact.channelId.Some?
              && j.fact.channelId.value in dim
              && j.key == AggKey(dim[j.fact.channelId.value].columns.channelCountry, j.fact.columns.finalSentiment)
  {
    if facts != [] {
      var init, last := facts[..|facts| - 1], facts[|facts| - 1];
      assert forall x :: x in facts <==> x in init || x == last;
      JoinTodayMembership(init, dim, today, j);
    }
  }

  lemma {:induction false} GroupSize(js: seq<Joined>, k: AggKey)
    ensures |Group(js, k)| == Count(Keys(js), k)
  {
    if js != [] {
      var init := js[..|js| - 1];
      assert Keys(js)[..|js| - 1] == Keys(init);
      GroupSize(init, k);
    }
  }

  /** One row per given key, dated today, counting the joined facts with that key. */
  lemma GroupRowsFields(today: Date, js: seq<Joined>, keys: seq<AggKey>)
    ensures var r := GroupRows(today, js, keys);
            && |r| == |keys|
            && forall i :: 0 <= i < |r| ==>
                 r[i].analysisDate == today && r[i].key == keys[i] && r[i].videoCount == Count(Keys(js), keys[i])
  {
    GroupRowsAt(today, js, keys);
    forall i | 0 <= i < |keys| ensures GroupRows(today, js, keys)[i].videoCount == Count(Keys(js), keys[i]) {
      GroupSize(js, keys[i]);
    }
  }

  /** Today's grouping: every row is dated today, no two rows share a (country, sentiment) key,
      the keys are exactly those of today's joined facts, and each row counts the joined facts
      with its key (at least one). */
  lemma AggregateTodaySpec(facts: seq<FactRow>, dim: map<string, DimChannel>, today: Date)
    ensures var r := AggregateToday(facts, dim, today);
            && (forall i :: 0 <= i < |r| ==> r[i].analysisDate == today)
            && (forall i, j :: 0 <= i < j < |r| ==> r[i].key != r[j].key)
            && (forall k :: (exists i :: 0 <= i < |r| && r[i].key == k) <==> k in Keys(JoinToday(facts, dim, today)))
            && (forall i :: 0 <= i < |r| ==> 0 < r[i].videoCount == Count(Keys(JoinToday(facts, dim, today)), r[i].key))
  {
    var js := JoinToday(facts, dim, today);
    var keys := Dedup(Keys(js));
    var r := AggregateToday(facts, dim, today);
    GroupRowsFields(today, js, keys);
    DedupSpec(Keys(js));
    assert r == GroupRows(today, js, keys);
    forall i | 0 <= i < |r| ensures 0 < r[i].videoCount {
      assert keys[i] in keys && keys[i] in Keys(js);
    }
    forall k | k in Keys(js) ensures exists i :: 0 <= i < |r| && r[i].key == k {
      assert k in keys;
      var i :| 0 <= i < |keys| && keys[i] == k;
      assert r[i].key == k;
    }
    forall k | exists i :: 0 <= i < |r| && r[i].key == k ensures k in Keys(js) {
      var i :| 0 <= i < |r| && r[i].key == k;
      assert keys[i] in keys;
    }
  }

  /** `DELETE FROM AGG_DAILY_BY_REGION WHERE analysis_date = CURRENT_DATE()` */
  function DeleteDate(aggs: seq<AggRow>, today: Date): seq<AggRow> {
    if aggs == [] then []
    else DeleteDate(aggs[..|aggs| - 1], today) + (if aggs[|aggs| - 1].analysisDate != today then [aggs[|aggs| - 1]] else [])
  }

  /** The delete then the insert of one aggregation refresh. */
  function RefreshAggregates(aggs: seq<AggRow>, facts: seq<FactRow>, dim: map<string, DimChannel>, today: Date)
    : seq<AggRow>
  {
    DeleteDate(aggs, today) + AggregateToday(facts, dim, today)
  }

  lemma {:induction false} DeleteDateSpec(aggs: seq<AggRow>, today: Date)
    ensures forall a :: a in DeleteDate(aggs, today) <==> a in aggs && a.analysisDate != today
    ensures |DeleteDate(aggs, today)| <= |aggs|
  {
    if aggs != [] {
      var init, last := aggs[..|aggs| - 1], aggs[|aggs| - 1];
      assert forall x :: x in aggs <==> x in init || x == last;
      DeleteDateSpec(init, today);
    }
  }

  lemma {:induction false} DeleteDateAppend(a: seq<AggRow>, b: seq<AggRow>, today: Date)
    ensures DeleteDate(a + b, today) == DeleteDate(a, today) + DeleteDate(b, today)
    decreases |b|
  {
    if b == [] {
      assert a + b == a;
    } else {
      var init := b[..|b| - 1];
      assert (a + b)[..|a + b| - 1] == a + init;
      DeleteDateAppend(a, init, today);
    }
  }

  lemma {:induction false} DeleteDateIdempotent(aggs: seq<AggRow>, today: Date)
    ensures DeleteDate(DeleteDate(aggs, today), today) == DeleteDate(aggs, today)
  {
    if aggs != [] {
      var init, last := aggs[..|aggs| - 1], aggs[|aggs| - 1];
      DeleteDateIdempotent(init, today);
      DeleteDateAppend(DeleteDate(init, today), if last.analysisDate != today then [last] else [], today);
    }
  }

  lemma DeleteDateOfToday(aggs: seq<AggRow>, today: Date)
    requires forall i :: 0 <= i < |aggs| ==> aggs[i].analysisDate == today
    ensures DeleteDate(aggs, today) == []
  {
    DeleteDateSpec(aggs, today);
  }

  /** The rows dated `d`, in table order: what `WHERE analysis_date = d` reads. */
  function RowsOfDate(aggs: seq<AggRow>, d: Date): seq<AggRow> {
    if aggs == [] then []
    else RowsOfDate(aggs[..|aggs| - 1], d) + (if aggs[|aggs| - 1].analysisDate == d then [aggs[|aggs| - 1]] else [])
  }

  lemma {:induction false} RowsOfDateAppend(a: seq<AggRow>, b: seq<AggRow>, d: Date)
    ensures RowsOfDate(a + b, d) == RowsOfDate(a, d) + RowsOfDate(b, d)
    decreases |b|
  {
    if b == [] {
      assert a + b == a;
    } else {
      var init := b[..|b| - 1];
      assert (a + b)[..|a + b| - 1] == a + init;
      RowsOfDateAppend(a, init, d);
    }
  }

  /** After the delete, no row of that date is left to read. */
  lemma {:induction false} RowsOfDateDeleted(aggs: seq<AggRow>, today: Date)
    ensures RowsOfDate(DeleteDate(aggs, today), today) == []
  {
    if aggs != [] {
      var init, last := aggs[..|aggs| - 1], aggs[|aggs| - 1];
      RowsOfDateDeleted(init, today);
      var tail := if last.analysisDate != today then [last] else [];
      RowsOfDateAppend(DeleteDate(init, today), tail, today);
      if tail != [] {
        assert tail[..0] == [];
      }
    }
  }

  /** Rows all dated `d` are read back whole and in order. */
  lemma {:induction false} RowsOfDateAll(aggs: seq<AggRow>, d: Date)
    requires forall i :: 0 <= i < |aggs| ==> aggs[i].analysisDate == d
    ensures RowsOfDate(aggs, d) == aggs
  {
    if aggs != [] {
      var init := aggs[..|aggs| - 1];
      RowsOfDateAll(init, d);
      assert init + [aggs[|aggs| - 1]] == aggs;
    }
  }

  /** The refresh leaves the rows of every other date as they were, and today's rows are exactly
      those of today's grouping, in its order. */
  lemma RefreshKeepsOtherDates(aggs: seq<AggRow>, facts: seq<FactRow>, dim: map<string, DimChannel>, today: Date)
    ensures DeleteDate(RefreshAggregates(aggs, facts, dim, today), today) == DeleteDate(aggs, today)
    ensures RowsOfDate(RefreshAggregates(aggs, facts, dim, today), today) == AggregateToday(facts, dim, today)
    ensures forall a :: a in RefreshAggregates(aggs, facts, dim, today) && a.analysisDate == today ==>
              a in AggregateToday(facts, dim, today)
  {
    var grouped := AggregateToday(facts, dim, today);
    DeleteDateAppend(DeleteDate(aggs, today), grouped, today);
    DeleteDateIdempotent(aggs, today);
    AggregateTodaySpec(facts, dim, today);
    DeleteDateOfToday(grouped, today);
    DeleteDateSpec(aggs, today);
    assert DeleteDate(aggs, today) + [] == DeleteDate(aggs, today);
    RowsOfDateAppend(DeleteDate(aggs, today), grouped, today);
    RowsOfDateDeleted(aggs, today);
    RowsOfDateAll(grouped, today);
    assert [] + grouped == grouped;
  }

  /** Refreshing twice is the same as refreshing once. */
  lemma RefreshIdempotent(aggs: seq<AggRow>, facts: seq<FactRow>, dim: map<string, DimChannel>, today: Date)
    ensures RefreshAggregates(RefreshAggregates(aggs, facts, dim, today), facts, dim, today)
            == RefreshAggregates(aggs, facts, dim, today)
  {
    RefreshKeepsOtherDates(aggs, facts, dim, today);
  }

  // ---------------------------------------------------------------------------------------
  // Statements and sessions

  /** The permanent tables. */
  datatype Tables = Tables(
    staging: seq<StagingRow>,
    channels: map<string, DimChannel>,
    facts: seq<FactRow>,
    aggregates: seq<AggRow>)

  /** What one connection sees: the permanent tables and its own temporary tables. */
  datatype Session = Session(tables: Tables, tempVideos: seq<TempVideo>, tempChannels: map<string, SourceChannel>)

  /** The SQL statements the loaders issue, with the values they read from the session's
      surroundings (`CURRENT_DATE()`, `CURRENT_TIMESTAMP()`, the stage's files). */
  datatype Statement =
    | CreateStagingTable                                        // CREATE TABLE IF NOT EXISTS RAW.STG_VIDEOS
    | CreateTempVideos(stage: seq<StageFile>, datePath: string)
    | InsertIntoStaging(now: DateTime)
    | CreateTempChannels(stage: seq<StageFile>, datePath: string)
    | MergeIntoChannels(now: DateTime)
    | MergeIntoFacts
    | InsertIntoFacts
    | CreateAnalyticsSchema                                     // CREATE SCHEMA IF NOT EXISTS ANALYTICS
    | CreateAggregatesTable                                     // CREATE TABLE IF NOT EXISTS AGG_DAILY_BY_REGION
    | DeleteAggregates(today: Date)
    | InsertAggregates(today: Date)
    | TruncateStaging

  /** The effect of one statement that completes. The tables exist in the model, so the
      `IF NOT EXISTS` statements change nothing. */
  function Step(s: Session, st: Statement): Session {
    var t := s.tables;
    match st
    case CreateStagingTable => s
    case CreateTempVideos(stage, datePath) => s.(tempVideos := VideoSource(stage, datePath))
    case InsertIntoStaging(now) => s.(tables := t.(staging := InsertStaging(t.staging, s.tempVideos, now)))
    case CreateTempChannels(stage, datePath) => s.(tempChannels := LatestChannels(ChannelCandidates(stage, datePath)))
    case MergeIntoChannels(now) => s.(tables := t.(channels := UpsertChannels(t.channels, s.tempChannels, now)))
    case MergeIntoFacts => s.(tables := t.(facts := MergeFacts(t.facts, t.staging)))
    case InsertIntoFacts => s.(tables := t.(facts := InsertFacts(t.facts, t.staging)))
    case CreateAnalyticsSchema => s
    case CreateAggregatesTable => s
    case DeleteAggregates(today) => s.(tables := t.(aggregates := DeleteDate(t.aggregates, today)))
    case InsertAggregates(today) => s.(tables := t.(aggregates := t.aggregates + AggregateToday(t.facts, t.channels, today)))
    case TruncateStaging => s.(tables := t.(staging := []))
  }

  /** Statements run one after another. */
  function Apply(s: Session, stmts: seq<Statement>): Session
    decreases |stmts|
  {
    if stmts == [] then s else Apply(Step(s, stmts[0]), stmts[1..])
  }

  lemma {:induction false} ApplyAppend(s: Session, a: seq<Statement>, b: seq<Statement>)
    ensures Apply(s, a + b) == Apply(Apply(s, a), b)
    decreases |a|
  {
    if a == [] {
      assert a + b == b;
    } else {
      assert (a + b)[0] == a[0] && (a + b)[1..] == a[1..] + b;
      ApplyAppend(Step(s, a[0]), a[1..], b);
    }
  }

  /** Running one more statement of a list. */
  lemma ApplyNext(s: Session, stmts: seq<Statement>, k: nat)
    requires k < |stmts|
    ensures Apply(s, stmts[..k + 1]) == Step(Apply(s, stmts[..k]), stmts[k])
  {
    assert stmts[..k + 1] == stmts[..k] + [stmts[k]];
    ApplyAppend(s, stmts[..k], [stmts[k]]);
    assert [stmts[k]][1..] == [];
  }

  /** A phase of two, three or four statements, run in full. */
  lemma ApplyOne(s: Session, a: Statement)
    ensures Apply(s, [a]) == Step(s, a)
  {
    assert [a][1..] == [];
  }

  lemma ApplyTwo(s: Session, a: Statement, b: Statement)
    ensures Apply(s, [a, b]) == Step(Step(s, a), b)
  {
    assert [a, b][1..] == [b] && [b][1..] == [];
    assert Apply(Step(s, a), [b]) == Apply(Step(Step(s, a), b), []);
  }

  lemma ApplyThree(s: Session, a: Statement, b: Statement, c: Statement)
    ensures Apply(s, [a, b, c]) == Step(Step(Step(s, a), b), c)
  {
    assert [a, b, c][1..] == [b, c];
    ApplyTwo(Step(s, a), b, c);
  }

  lemma ApplyFour(s: Session, a: Statement, b: Statement, c: Statement, d: Statement)
    ensures Apply(s, [a, b, c, d]) == Step(Step(Step(Step(s, a), b), c), d)
  {
    assert [a, b, c, d][1..] == [b, c, d];
    ApplyThree(Step(s, a), b, c, d);
  }

  /** The delete and the insert of the aggregation refresh, one after the other. */
  lemma RefreshSteps(s: Session, today: Date)
    ensures var t := s.tables;
            Step(Step(s, DeleteAggregates(today)), InsertAggregates(today))
            == s.(tables := t.(aggregates := RefreshAggregates(t.aggregates, t.facts, t.channels, today)))
  {
    var t := s.tables;
    var s1 := Step(s, DeleteAggregates(today));
    assert s1.tables == t.(aggregates := DeleteDate(t.aggregates, today));
    assert Step(s1, InsertAggregates(today)).tables.aggregates
           == DeleteDate(t.aggregates, today) + AggregateToday(t.facts, t.channels, today);
  }

  /** No statement removes or changes a fact row: the fact table only grows at its end. */
  lemma {:induction false} FactsOnlyGrow(s: Session, stmts: seq<Statement>)
    ensures var f := Apply(s, stmts).tables.facts;
            |s.tables.facts| <= |f| && f[..|s.tables.facts|] == s.tables.facts
    decreases |stmts|
  {
    if stmts != [] {
      var next := Step(s, stmts[0]);
      assert |s.tables.facts| <= |next.tables.facts| && next.tables.facts[..|s.tables.facts|] == s.tables.facts;
      FactsOnlyGrow(next, stmts[1..]);
      var f := Apply(s, stmts).tables.facts;
      assert f[..|s.tables.facts|] == f[..|next.tables.facts|][..|s.tables.facts|];
    }
  }

  /** Until the staging table is truncated, its rows only grow at its end. */
  lemma {:induction false} StagingOnlyGrowsUntilTruncated(s: Session, stmts: seq<Statement>)
    requires TruncateStaging !in stmts
    ensures var g := Apply(s, stmts).tables.staging;
            |s.tables.staging| <= |g| && g[..|s.tables.staging|] == s.tables.staging
    decreases |stmts|
  {
    if stmts != [] {
      var next := Step(s, stmts[0]);
      assert stmts[0] in stmts;
      assert |s.tables.staging| <= |next.tables.staging| && next.tables.staging[..|s.tables.staging|] == s.tables.staging;
      assert forall x :: x in stmts[1..] ==> x in stmts;
      StagingOnlyGrowsUntilTruncated(next, stmts[1..]);
      var g := Apply(s, stmts).tables.staging;
      assert g[..|s.tables.staging|] == g[..|next.tables.staging|][..|s.tables.staging|];
    }
  }

  /** How an operation of several steps (statements, then a commit) ends: `RaisesAt(k)` means
      steps before `k` complete and step `k` raises; a `k` past the last step raises nothing. */
  datatype Fault = Completes | RaisesAt(step: nat)

  predicate Raises(f: Fault, steps: nat) {
    f.RaisesAt? && f.step < steps
  }

  /** How many of `n` statements complete under `f`. */
  function Completed(f: Fault, n: nat): (k: nat)
    ensures k <= n
    ensures k < n <==> Raises(f, n)
  {
    if Raises(f, n) then f.step else n
  }

  // ---------------------------------------------------------------------------------------
  // The database as one connection sees it

  /** The tables, the connection's temporary tables, and the state of the tables as of the last
      commit, which a rollback returns to. */
  class Database {
    var staging: seq<StagingRow>
    var channels: map<string, DimChannel>
    var facts: seq<FactRow>
    var aggregates: seq<AggRow>
    var tempVideos: seq<TempVideo>
    var tempChannels: map<string, SourceChannel>
    var committed: Tables

    /** A new connection to tables holding `t`, with nothing uncommitted. */
    constructor (t: Tables)
      ensures State() == Session(t, [], map[]) && committed == t
    {
      staging, channels, facts, aggregates := t.staging, t.channels, t.facts, t.aggregates;
      tempVideos, tempChannels := [], map[];
      committed := t;
    }

    function Current(): Tables
      reads this
    {
      Tables(staging, channels, facts, aggregates)
    }

    function State(): Session
      reads this
    {
      Session(Current(), tempVideos, tempChannels)
    }

    /** No change since the last commit. */
    predicate Clean()
      reads this
    {
      committed == Current()
    }

    method CreateTempVideos(stage: seq<StageFile>, datePath: string)
      modifies this
      ensures State() == Step(old(State()), Statement.CreateTempVideos(stage, datePath))
      ensures committed == old(committed)
    {
      tempVideos := VideoSource(stage, datePath);
    }

    method InsertIntoStaging(now: DateTime)
      modifies this
      ensures State() == Step(old(State()), Statement.InsertIntoStaging(now))
      ensures committed == old(committed)
    {
      staging := InsertStaging(staging, tempVideos, now);
    }

    method CreateTempChannels(stage: seq<StageFile>, datePath: string)
      modifies this
      ensures State() == Step(old(State()), Statement.CreateTempChannels(stage, datePath))
      ensures committed == old(committed)
    {
      tempChannels := LatestChannels(ChannelCandidates(stage, datePath));
    }

    method MergeIntoChannels(now: DateTime)
      modifies this
      ensures State() == Step(old(State()), Statement.MergeIntoChannels(now))
      ensures committed == old(committed)
    {
      channels := UpsertChannels(channels, tempChannels, now);
    }

    method MergeIntoFacts()
      modifies this
      ensures State() == Step(old(State()), Statement.MergeIntoFacts)
      ensures committed == old(committed)
    {
      facts := MergeFacts(facts, staging);
    }

    method InsertIntoFacts()
      modifies this
      ensures State() == Step(old(State()), Statement.InsertIntoFacts)
      ensures committed == old(committed)
    {
      facts := InsertFacts(facts, staging);
    }

    method DeleteAggregates(today: Date)
      modifies this
      ensures State() == Step(old(State()), Statement.DeleteAggregates(today))
      ensures committed == old(committed)
    {
      aggregates := DeleteDate(aggregates, today);
    }

    method InsertAggregates(today: Date)
      modifies this
      ensures State() == Step(old(State()), Statement.InsertAggregates(today))
      ensures committed == old(committed)
    {
      aggregates := aggregates + AggregateToday(facts, channels, today);
    }

    method TruncateStaging()
      modifies this
      ensures State() == Step(old(State()), Statement.TruncateStaging)
      ensures committed == old(committed)
    {
      staging := [];
    }

    /** `conn.commit()` */
    method Commit()
      modifies this
      ensures State() == old(State()) && committed == Current()
    {
      committed := Current();
    }

    /** `conn.rollback()`: the tables return to the last commit; temporary tables were created
        by DDL and stay. */
    method Rollback()
      modifies this
      ensures State() == old(State()).(tables := old(committed)) && committed == old(committed)
    {
      staging, channels, facts, aggregates := committed.staging, committed.channels, committed.facts, committed.aggregates;
    }
  }
}
