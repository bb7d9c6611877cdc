/** `classify_video` and `calculate_engagement`, which appear with the same body in
    src/youtube_collector.py and azure-functions/function_app.py; the two copies differ only in
    the keyword and category lists they read, so those lists are a parameter here. */
module Classifier {
  import opened Wrappers
  import opened Seqs
  import opened Text

  datatype Sentiment = Positive | Negative | Neutral | Unknown

  datatype ClassificationMethod = CategoryBased | KeywordBased | Uncategorized

  /** The dict `classify_video` returns and the record spreads into each video record. */
  datatype Classification = Classification(
    sentiment: Sentiment,
    classificationMethod: ClassificationMethod,
    positiveCount: nat,
    negativeCount: nat)

  /** The four keyword/category lists (and the list of mixed categories) classification reads. */
  datatype Lexicon = Lexicon(
    positiveKeywords: seq<string>,
    negativeKeywords: seq<string>,
    positiveCategories: seq<int>,
    negativeCategories: seq<int>,
    mixedCategories: seq<int>)

  /** The part of a video's `snippet` the collector reads; `description` and `tags` may be absent. */
  datatype Snippet = Snippet(
    channelId: string,
    categoryId: int,
    title: string,
    description: Option<string>,
    tags: Option<seq<string>>,
    publishedAt: string)

  /** A video's `statistics`; each count may be absent and then reads as 0. */
  datatype Statistics = Statistics(viewCount: Option<int>, likeCount: Option<int>, commentCount: Option<int>)

  /** `f"{title} {description} {' '.join(tags)}".lower()` */
  function CombinedText(s: Snippet): string {
    Lower(s.title + " " + s.description.GetOr("") + " " + Join(s.tags.GetOr([]), " "))
  }

  /** `sum(1 for word in words if word in text)`: each listed word adds one when it occurs at
      least once, however often it occurs. */
  function KeywordHits(words: seq<string>, text: string): (n: nat)
    ensures n <= |words|
  {
    if words == [] then 0
    else KeywordHits(words[..|words| - 1], text) + (if Occurs(words[|words| - 1], text) then 1 else 0)
  }

  /** With no word listed twice, the hit count is the number of distinct configured words that
      occur in the text. */
  lemma {:induction false} KeywordHitsCountsDistinctWords(words: seq<string>, text: string)
    requires NoDuplicates(words)
    ensures KeywordHits(words, text) == |set w | w in words && Occurs(w, text)|
  {
    if words != [] {
      var init := words[..|words| - 1];
      var last := words[|words| - 1];
      KeywordHitsCountsDistinctWords(init, text);
      var before := set w | w in init && Occurs(w, text);
      var after := set w | w in words && Occurs(w, text);
      assert last !in init;
      if Occurs(last, text) {
        assert after == before + {last};
      } else {
        assert after == before;
      }
    }
  }

  /** `classify_video`: category sets decide first (positive, then negative, then mixed); only a
      mixed category is decided by the keyword counts; any other category is unknown. */
  function Classify(lex: Lexicon, s: Snippet): (r: Classification)
    ensures r.positiveCount == KeywordHits(lex.positiveKeywords, CombinedText(s))
    ensures r.negativeCount == KeywordHits(lex.negativeKeywords, CombinedText(s))
    ensures r.positiveCount <= |lex.positiveKeywords| && r.negativeCount <= |lex.negativeKeywords|
    ensures s.categoryId in lex.positiveCategories ==>
              r.sentiment == Positive && r.classificationMethod == CategoryBased
    ensures s.categoryId !in lex.positiveCategories && s.categoryId in lex.negativeCategories ==>
              r.sentiment == Negative && r.classificationMethod == CategoryBased
    ensures s.categoryId !in lex.positiveCategories && s.categoryId !in lex.negativeCategories
            && s.categoryId in lex.mixedCategories ==>
              && r.classificationMethod == KeywordBased
              && (r.sentiment == Positive <==> r.positiveCount > r.negativeCount)
              && (r.sentiment == Negative <==> r.negativeCount > r.positiveCount)
              && (r.sentiment == Neutral <==> r.positiveCount == r.negativeCount)
    ensures r.sentiment == Unknown <==> r.classificationMethod == Uncategorized
    ensures r.classificationMethod == Uncategorized <==>
              s.categoryId !in lex.positiveCategories && s.categoryId !in lex.negativeCategories
              && s.categoryId !in lex.mixedCategories
  {
    var text := CombinedText(s);
    var pos := KeywordHits(lex.positiveKeywords, text);
    var neg := KeywordHits(lex.negativeKeywords, text);
    if s.categoryId in lex.positiveCategories then
      Classification(Positive, CategoryBased, pos, neg)
    else if s.categoryId in lex.negativeCategories then
      Classification(Negative, CategoryBased, pos, neg)
    else if s.categoryId in lex.mixedCategories then
      var sentiment := if pos > neg then Positive else if neg > pos then Negative else Neutral;
      Classification(sentiment, KeywordBased, pos, neg)
    else
      Classification(Unknown, Uncategorized, pos, neg)
  }

  /** `calculate_engagement` without the final `round(_, 4)`: likes plus comments per view, as a
      percentage; exactly 0 when there are no views. */
  function EngagementRate(st: Statistics): (r: real)
    ensures st.viewCount.GetOr(0) == 0 ==> r == 0.0
    ensures st.viewCount.GetOr(0) != 0 ==>
              r * st.viewCount.GetOr(0) as real
              == (st.likeCount.GetOr(0) + st.commentCount.GetOr(0)) as real * 100.0
    ensures st.viewCount.GetOr(0) > 0 && st.likeCount.GetOr(0) >= 0 && st.commentCount.GetOr(0) >= 0
            ==> r >= 0.0
  {
    var views := st.viewCount.GetOr(0);
    var likes := st.likeCount.GetOr(0);
    var comments := st.commentCount.GetOr(0);
    if views == 0 then 0.0
    else ((likes + comments) as real / views as real) * 100.0
  }

  /** 200 views with 10 likes and 10 comments give an engagement of exactly 10 percent. */
  lemma EngagementOfTwoHundredViews()
    ensures EngagementRate(Statistics(Some(200), Some(10), Some(10))) == 10.0
  {
  }
}
