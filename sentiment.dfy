/** The sentiment basket: news sentiment from Finnhub headlines, retail
    sentiment from Reddit posts weighted by upvotes, and YouTube comment
    sentiment, each scored with VADER on a 0-100 scale, combined into a
    weighted composite and routed into a SWOT summary. */
module Sentiment {
  import opened Wrappers
  import opened Text
  import opened Swot

  /** VADER's compound score, which always lies in [-1, 1]. */
  type Compound = x: real | -1.0 <= x <= 1.0

  /** `vader.polarity_scores(text)["compound"]` */
  type Analyzer = string -> Compound

  /** `v * w` summed over the (value, weight) pairs. */
  function WeightedSum(ps: seq<(real, real)>): real
    decreases |ps|
  {
    if |ps| == 0 then 0.0 else WeightedSum(ps[..|ps| - 1]) + ps[|ps| - 1].0 * ps[|ps| - 1].1
  }

  function TotalWeight(ps: seq<(real, real)>): real
    decreases |ps|
  {
    if |ps| == 0 then 0.0 else TotalWeight(ps[..|ps| - 1]) + ps[|ps| - 1].1
  }

  predicate InBand(ps: seq<(real, real)>, lo: real, hi: real) {
    forall i | 0 <= i < |ps| :: ps[i].1 >= 0.0 && lo <= ps[i].0 <= hi
  }

  /** One more (value, weight) pair keeps the lower bound: `total'` and `sum'`
      are the total weight and the weighted sum with the pair added. */
  lemma CombineLower(lo: real, total: real, sum: real, v: real, w: real, total': real, sum': real)
    requires lo * total <= sum && lo <= v && w >= 0.0
    requires total' == total + w && sum' == sum + v * w
    ensures lo * total' <= sum'
  {
    assert (v - lo) * w >= 0.0;
    assert lo * (total + w) == lo * total + lo * w;
  }

  /** One more (value, weight) pair keeps the upper bound. */
  lemma CombineUpper(hi: real, total: real, sum: real, v: real, w: real, total': real, sum': real)
    requires sum <= hi * total && v <= hi && w >= 0.0
    requires total' == total + w && sum' == sum + v * w
    ensures sum' <= hi * total'
  {
    assert (hi - v) * w >= 0.0;
    assert hi * (total + w) == hi * total + hi * w;
  }

  lemma InBandInit(ps: seq<(real, real)>, lo: real, hi: real)
    requires |ps| > 0 && InBand(ps, lo, hi)
    ensures InBand(ps[..|ps| - 1], lo, hi)
  {
    var init := ps[..|ps| - 1];
    forall i | 0 <= i < |init|
      ensures init[i].1 >= 0.0 && lo <= init[i].0 <= hi
    {
      assert init[i] == ps[i];
    }
  }

  lemma {:induction false} WeightedSumLower(ps: seq<(real, real)>, lo: real, hi: real)
    requires InBand(ps, lo, hi)
    ensures lo * TotalWeight(ps) <= WeightedSum(ps)
    decreases |ps|
  {
    if |ps| > 0 {
      var init := ps[..|ps| - 1];
      var last := ps[|ps| - 1];
      InBandInit(ps, lo, hi);
      WeightedSumLower(init, lo, hi);
      CombineLower(lo, TotalWeight(init), WeightedSum(init), last.0, last.1, TotalWeight(ps), WeightedSum(ps));
    }
  }

  lemma {:induction false} WeightedSumUpper(ps: seq<(real, real)>, lo: real, hi: real)
    requires InBand(ps, lo, hi)
    ensures WeightedSum(ps) <= hi * TotalWeight(ps)
    decreases |ps|
  {
    if |ps| > 0 {
      var init := ps[..|ps| - 1];
      var last := ps[|ps| - 1];
      InBandInit(ps, lo, hi);
      WeightedSumUpper(init, lo, hi);
      CombineUpper(hi, TotalWeight(init), WeightedSum(init), last.0, last.1, TotalWeight(ps), WeightedSum(ps));
    }
  }

  /** With non-negative weights, the weighted sum lies between the smallest
      and the largest value times the total weight. */
  lemma WeightedSumBounds(ps: seq<(real, real)>, lo: real, hi: real)
    requires InBand(ps, lo, hi)
    ensures lo * TotalWeight(ps) <= WeightedSum(ps) <= hi * TotalWeight(ps)
  {
    WeightedSumLower(ps, lo, hi);
    WeightedSumUpper(ps, lo, hi);
  }

  lemma DivBounds(s: real, t: real, lo: real, hi: real)
    requires t > 0.0 && lo * t <= s <= hi * t
    ensures lo <= s / t <= hi
  {
    var q := s / t;
    assert q * t == s;
    assert (q - lo) * t >= 0.0;
    assert (hi - q) * t >= 0.0;
  }

  /** The weighted mean of values in [lo, hi] lies in [lo, hi]. */
  lemma WeightedMeanBounds(ps: seq<(real, real)>, lo: real, hi: real)
    requires InBand(ps, lo, hi) && TotalWeight(ps) > 0.0
    ensures lo <= WeightedSum(ps) / TotalWeight(ps) <= hi
  {
    WeightedSumBounds(ps, lo, hi);
    DivBounds(WeightedSum(ps), TotalWeight(ps), lo, hi);
  }

  /** `(avg + 1) * 50`, mapping [-1, 1] onto [0, 100]. */
  function Score(avg: real): (s: real)
    ensures -1.0 <= avg <= 1.0 ==> 0.0 <= s <= 100.0
    ensures s == 50.0 <==> avg == 0.0
    ensures s > 50.0 <==> avg > 0.0
  {
    (avg + 1.0) * 50.0
  }

  /** A metric with a score: the score, how many items it rests on, and its
      SWOT category. */
  datatype SentimentReading = SentimentReading(score: real, analyzed: nat, impact: Impact)

  /** The neutral reading a source with nothing to analyse reports. */
  const NothingToAnalyse := SentimentReading(50.0, 0, Neutral)

  const FinnhubNoKey := "FINNHUB_API_KEY not configured. Get free key at https://finnhub.io/register"
  const VaderMissing := "VADER sentiment analyzer not installed"
  const MaxArticles := 50

  datatype Article = Article(headline: string, summary: string)

  /** What the company-news request gives: a list of articles, an error
      object, something that is not a list, or an exception. */
  datatype FinnhubResponse = NewsList(articles: seq<Article>) | ErrorObject(message: string) | NotAList
                           | FinnhubFailed(message: string)

  /** The Finnhub bands: at least 60 a strength, at least 45 neutral, at
      least 30 a weakness, below that a threat. */
  function FinnhubImpact(score: real): (i: Impact)
    ensures i == Strength <==> score >= 60.0
    ensures i == Neutral <==> 45.0 <= score < 60.0
    ensures i == Weakness <==> 30.0 <= score < 45.0
    ensures i == Threat <==> score < 30.0
  {
    if score >= 60.0 then Strength
    else if score >= 45.0 then Neutral
    else if score >= 30.0 then Weakness
    else Threat
  }

  /** Each analysed article counts once with its headline and summary. */
  function ArticleScores(articles: seq<Article>, vader: Analyzer): (ps: seq<(real, real)>)
    ensures |ps| == |articles|
    ensures InBand(ps, -1.0, 1.0)
    ensures TotalWeight(ps) == |articles| as real
    decreases |articles|
  {
    if |articles| == 0 then []
    else
      var init := ArticleScores(articles[..|articles| - 1], vader);
      var a := articles[|articles| - 1];
      init + [(vader(a.headline + " " + a.summary) as real, 1.0)]
  }

  /** `fetch_finnhub_sentiment`: the mean compound score of the first 50
      articles, scaled to 0-100. */
  function FinnhubOf(hasKey: bool, vaderAvailable: bool, vader: Analyzer, response: FinnhubResponse): Result<SentimentReading, string> {
    if !hasKey then Err(FinnhubNoKey)
    else if !vaderAvailable then Err(VaderMissing + ". Run: pip install vaderSentiment")
    else
      match response
      case FinnhubFailed(m) => Err(m)
      case ErrorObject(m) => Err(m)
      case NotAList => Ok(NothingToAnalyse)
      case NewsList(articles) =>
        if |articles| == 0 then Ok(NothingToAnalyse)
        else
          var batch := Take(articles, MaxArticles);
          var ps := ArticleScores(batch, vader);
          var score := Score(WeightedSum(ps) / (|batch| as real));
          Ok(SentimentReading(score, |batch|, FinnhubImpact(score)))
  }

  /** The `for article in data[:50]` loop accumulating `total_score`. */
  method TotalCompound(batch: seq<Article>, vader: Analyzer) returns (totalScore: real)
    ensures totalScore == WeightedSum(ArticleScores(batch, vader))
  {
    totalScore := 0.0;
    for i := 0 to |batch|
      invariant totalScore == WeightedSum(ArticleScores(batch[..i], vader))
    {
      assert batch[..i + 1][..i] == batch[..i];
      var text := batch[i].headline + " " + batch[i].summary;
      totalScore := totalScore + vader(text) as real;
    }
    assert batch[..|batch|] == batch;
  }

  method FinnhubSentiment(hasKey: bool, vaderAvailable: bool, vader: Analyzer, response: FinnhubResponse)
    returns (r: Result<SentimentReading, string>)
    ensures r == FinnhubOf(hasKey, vaderAvailable, vader, response)
  {
    if !hasKey {
      return Err(FinnhubNoKey);
    }
    if !vaderAvailable {
      return Err(VaderMissing + ". Run: pip install vaderSentiment");
    }
    match response {
      case FinnhubFailed(m) => return Err(m);
      case ErrorObject(m) => return Err(m);
      case NotAList => return Ok(NothingToAnalyse);
      case NewsList(articles) =>
        if |articles| == 0 {
          return Ok(NothingToAnalyse);
        }
        var batch := Take(articles, MaxArticles);
        var totalScore := TotalCompound(batch, vader);
        var count := if |articles| < MaxArticles then |articles| else MaxArticles;
        var avg := totalScore / (count as real);
        var score := Score(avg);
        r := Ok(SentimentReading(score, count, FinnhubImpact(score)));
    }
  }

  /** A Finnhub score lies in [0, 100] and rests on at most 50 articles;
      articles past the fiftieth never matter. */
  lemma FinnhubProperties(hasKey: bool, vaderAvailable: bool, vader: Analyzer, articles: seq<Article>)
    ensures var r := FinnhubOf(hasKey, vaderAvailable, vader, NewsList(articles));
            r.Ok? ==> 0.0 <= r.value.score <= 100.0 && r.value.analyzed <= MaxArticles
    ensures |articles| > MaxArticles ==>
              FinnhubOf(hasKey, vaderAvailable, vader, NewsList(articles))
              == FinnhubOf(hasKey, vaderAvailable, vader, NewsList(articles[..MaxArticles]))
    ensures hasKey && vaderAvailable && |articles| == 0 ==>
              FinnhubOf(hasKey, vaderAvailable, vader, NewsList(articles)) == Ok(NothingToAnalyse)
  {
    if hasKey && vaderAvailable && |articles| > 0 {
      var batch := Take(articles, MaxArticles);
      WeightedMeanBounds(ArticleScores(batch, vader), -1.0, 1.0);
    }
    if |articles| > MaxArticles {
      assert Take(articles, MaxArticles) == Take(articles[..MaxArticles], MaxArticles);
    }
  }

  /** A Reddit post; a missing upvote count is 1. */
  datatype Post = Post(title: string, selftext: string, ups: Option<int>)

  /** One subreddit's search: rate limited (status 429), failed, or its posts. */
  datatype SubredditResponse = RateLimited | Unreachable | Listing(posts: seq<Post>)

  function Upvotes(p: Post): int {
    p.ups.GetOr(1)
  }

  /** The title and the first 500 characters of the body. */
  function PostText(p: Post): string {
    p.title + " " + Take(p.selftext, 500)
  }

  /** The posts analysed: those of every subreddit that answered, in order. */
  function AnalysedPosts(responses: seq<SubredditResponse>): seq<Post>
    decreases |responses|
  {
    if |responses| == 0 then []
    else
      var init := AnalysedPosts(responses[..|responses| - 1]);
      match responses[|responses| - 1]
      case Listing(posts) => init + posts
      case _ => init
  }

  /** Each post weighted by its upvotes. */
  function PostScores(posts: seq<Post>, vader: Analyzer): (ps: seq<(real, real)>)
    ensures |ps| == |posts|
    decreases |posts|
  {
    if |posts| == 0 then []
    else PostScores(posts[..|posts| - 1], vader) + [(vader(PostText(posts[|posts| - 1])) as real, Upvotes(posts[|posts| - 1]) as real)]
  }

  /** The Reddit and YouTube bands: at least 65 a strength, at least 50
      neutral, at least 35 a weakness, below that a threat. */
  function RetailImpact(score: real): (i: Impact)
    ensures i == Strength <==> score >= 65.0
    ensures i == Neutral <==> 50.0 <= score < 65.0
    ensures i == Weakness <==> 35.0 <= score < 50.0
    ensures i == Threat <==> score < 35.0
  {
    if score >= 65.0 then Strength
    else if score >= 50.0 then Neutral
    else if score >= 35.0 then Weakness
    else Threat
  }

  /** `fetch_reddit_sentiment`: the upvote-weighted mean compound score of
      the posts found, 0 when the upvotes add up to nothing. */
  function RedditOf(vaderAvailable: bool, vader: Analyzer, responses: seq<SubredditResponse>): Result<SentimentReading, string> {
    if !vaderAvailable then Err(VaderMissing)
    else
      var posts := AnalysedPosts(responses);
      if |posts| == 0 then Ok(NothingToAnalyse)
      else
        var ps := PostScores(posts, vader);
        var upvotes := TotalWeight(ps);
        var avg := if upvotes > 0.0 then WeightedSum(ps) / upvotes else 0.0;
        var score := Score(avg);
        Ok(SentimentReading(score, |posts|, RetailImpact(score)))
  }

  lemma AnalysedPostsStep(responses: seq<SubredditResponse>, i: nat)
    requires i < |responses|
    ensures AnalysedPosts(responses[..i + 1])
            == if responses[i].Listing? then AnalysedPosts(responses[..i]) + responses[i].posts else AnalysedPosts(responses[..i])
  {
    assert responses[..i + 1][..i] == responses[..i];
  }

  /** One post more: `next` is the list of posts analysed with the `j`th
      added, and the running totals grow by its upvote-weighted score and
      its upvotes. */
  lemma AddPostStep(before: seq<Post>, posts: seq<Post>, j: nat, vader: Analyzer, done: seq<Post>,
                    totalScore: real, totalUpvotes: int, compound: real, upvotes: int)
    returns (next: seq<Post>)
    requires j < |posts| && done == before + posts[..j]
    requires totalScore == WeightedSum(PostScores(done, vader))
    requires totalUpvotes as real == TotalWeight(PostScores(done, vader))
    requires compound == vader(PostText(posts[j])) as real && upvotes == Upvotes(posts[j])
    ensures next == before + posts[..j + 1] && |next| == |done| + 1
    ensures totalScore + compound * upvotes as real == WeightedSum(PostScores(next, vader))
    ensures (totalUpvotes + upvotes) as real == TotalWeight(PostScores(next, vader))
  {
    next := done + [posts[j]];
    PrefixStep(before, posts, j);
    PostSums(done, posts[j], vader);
  }

  lemma PrefixStep<T>(before: seq<T>, xs: seq<T>, j: nat)
    requires j < |xs|
    ensures before + xs[..j + 1] == (before + xs[..j]) + [xs[j]]
  {
    assert xs[..j + 1] == xs[..j] + [xs[j]];
  }

  /** One post more adds its upvote-weighted score and its upvotes. */
  lemma PostSums(done: seq<Post>, post: Post, vader: Analyzer)
    ensures WeightedSum(PostScores(done + [post], vader))
            == WeightedSum(PostScores(done, vader)) + vader(PostText(post)) as real * Upvotes(post) as real
    ensures TotalWeight(PostScores(done + [post], vader)) == TotalWeight(PostScores(done, vader)) + Upvotes(post) as real
  {
    assert (done + [post])[..|done|] == done;
  }

  /** The inner loop over one subreddit's posts, adding to the running
      totals of everything analysed before them. */
  method AddPosts(posts: seq<Post>, vader: Analyzer, ghost before: seq<Post>, score0: real, upvotes0: int, count0: nat)
    returns (totalScore: real, totalUpvotes: int, postCount: nat)
    requires score0 == WeightedSum(PostScores(before, vader))
    requires upvotes0 as real == TotalWeight(PostScores(before, vader))
    requires count0 == |before|
    ensures totalScore == WeightedSum(PostScores(before + posts, vader))
    ensures totalUpvotes as real == TotalWeight(PostScores(before + posts, vader))
    ensures postCount == |before + posts|
  {
    totalScore, totalUpvotes, postCount := score0, upvotes0, count0;
    ghost var done := before;
    assert before + posts[..0] == before;
    for j := 0 to |posts|
      invariant done == before + posts[..j]
      invariant totalScore == WeightedSum(PostScores(done, vader))
      invariant totalUpvotes as real == TotalWeight(PostScores(done, vader))
      invariant postCount == |done|
    {
      var text := PostText(posts[j]);
      var upvotes := Upvotes(posts[j]);
      var compound: real := vader(text);
      ghost var next := AddPostStep(before, posts, j, vader, done, totalScore, totalUpvotes, compound, upvotes);
      totalScore := totalScore + compound * upvotes as real;
      totalUpvotes := totalUpvotes + upvotes;
      postCount := postCount + 1;
      done := next;
    }
    assert posts[..|posts|] == posts;
  }

  /** The loop over the subreddits, skipping those that are rate limited or
      fail, with the running `total_score`, `total_upvotes` and `post_count`. */
  method RedditSentiment(vaderAvailable: bool, vader: Analyzer, responses: seq<SubredditResponse>)
    returns (r: Result<SentimentReading, string>)
    ensures r == RedditOf(vaderAvailable, vader, responses)
  {
    if !vaderAvailable {
      return Err(VaderMissing);
    }
    var totalScore := 0.0;
    var totalUpvotes := 0;
    var postCount := 0;
    for i := 0 to |responses|
      invariant totalScore == WeightedSum(PostScores(AnalysedPosts(responses[..i]), vader))
      invariant totalUpvotes as real == TotalWeight(PostScores(AnalysedPosts(responses[..i]), vader))
      invariant postCount == |AnalysedPosts(responses[..i])|
    {
      AnalysedPostsStep(responses, i);
      if responses[i].Listing? {
        totalScore, totalUpvotes, postCount :=
          AddPosts(responses[i].posts, vader, AnalysedPosts(responses[..i]), totalScore, totalUpvotes, postCount);
      }
    }
    assert responses[..|responses|] == responses;
    if postCount == 0 {
      return Ok(NothingToAnalyse);
    }
    var avg := if totalUpvotes > 0 then totalScore / (totalUpvotes as real) else 0.0;
    var score := Score(avg);
    r := Ok(SentimentReading(score, postCount, RetailImpact(score)));
  }

  lemma {:induction false} PostScoresAt(posts: seq<Post>, vader: Analyzer, i: nat)
    requires i < |posts|
    ensures PostScores(posts, vader)[i] == (vader(PostText(posts[i])) as real, Upvotes(posts[i]) as real)
    decreases |posts|
  {
    if i < |posts| - 1 {
      PostScoresAt(posts[..|posts| - 1], vader, i);
    }
  }

  /** With non-negative upvotes a Reddit score lies in [0, 100]; rate-limited
      or failed subreddits contribute nothing, and with no posts the score is
      the neutral 50. */
  lemma RedditProperties(vaderAvailable: bool, vader: Analyzer, responses: seq<SubredditResponse>)
    requires forall p | p in AnalysedPosts(responses) :: Upvotes(p) >= 0
    ensures var r := RedditOf(vaderAvailable, vader, responses);
            r.Ok? ==> 0.0 <= r.value.score <= 100.0
    ensures vaderAvailable && AnalysedPosts(responses) == [] ==> RedditOf(vaderAvailable, vader, responses) == Ok(NothingToAnalyse)
  {
    var posts := AnalysedPosts(responses);
    var ps := PostScores(posts, vader);
    assert InBand(ps, -1.0, 1.0) by {
      forall i | 0 <= i < |ps|
        ensures ps[i].1 >= 0.0 && -1.0 <= ps[i].0 <= 1.0
      {
        PostScoresAt(posts, vader, i);
        assert posts[i] in posts;
      }
    }
    if TotalWeight(ps) > 0.0 {
      WeightedMeanBounds(ps, -1.0, 1.0);
    }
  }

  /** A rate-limited subreddit is skipped. */
  lemma RedditSkipsRateLimited(vaderAvailable: bool, vader: Analyzer, responses: seq<SubredditResponse>)
    ensures RedditOf(vaderAvailable, vader, responses + [RateLimited]) == RedditOf(vaderAvailable, vader, responses)
  {
    assert (responses + [RateLimited])[..|responses|] == responses;
  }

  /** The first index at or after `i` holding '>'. */
  function CloseAngle(s: string, i: nat): (r: Option<nat>)
    ensures r.Some? ==> i <= r.value < |s| && s[r.value] == '>'
    ensures r.None? ==> forall k | i <= k < |s| :: s[k] != '>'
    ensures r.Some? ==> forall k | i <= k < r.value :: s[k] != '>'
    decreases |s| - i
  {
    if i >= |s| then None else if s[i] == '>' then Some(i) else CloseAngle(s, i + 1)
  }

  /** `re.sub(r'<[^>]+>', '', text)`: from each '<' followed by a character
      other than '>', everything up to the next '>' is removed. */
  function StripTags(s: string): (r: string)
    ensures |r| <= |s|
    ensures '<' !in s ==> r == s
    decreases |s|
  {
    if |s| == 0 then ""
    else if s[0] == '<' && |s| >= 2 && s[1] != '>' && CloseAngle(s, 2).Some? then StripTags(s[CloseAngle(s, 2).value + 1..])
    else [s[0]] + StripTags(s[1..])
  }

  /** A text whose only '>' from `i` on is its last character closes there. */
  lemma {:induction false} CloseAngleAtEnd(s: string, i: nat)
    requires i < |s| && s[|s| - 1] == '>'
    requires forall k | i <= k < |s| - 1 :: s[k] != '>'
    ensures CloseAngle(s, i) == Some(|s| - 1)
    decreases |s| - i
  {
    if s[i] != '>' {
      CloseAngleAtEnd(s, i + 1);
    }
  }

  /** A comment that is a single tag leaves nothing to analyse. */
  lemma StripSingleTag(inner: string)
    requires |inner| > 0 && '>' !in inner
    ensures StripTags("<" + inner + ">") == ""
  {
    var t := "<" + inner;
    var s := t + ">";
    assert forall k | 1 <= k < |t| :: t[k] == inner[k - 1];
    assert forall k | 0 <= k < |t| :: s[k] == t[k];
    CloseAngleAtEnd(s, 2);
    assert s[|s|..] == "";
    assert StripTags(s) == StripTags(s[|s|..]);
  }

  /** A video from the search: its id, if any, and its comment threads or
      the failure of that request. */
  datatype Video = Video(videoId: Option<string>, comments: Result<seq<string>, string>)

  /** `if not video_id: continue` skips a missing and an empty id alike. */
  predicate HasVideoId(v: Video) {
    v.videoId.Some? && v.videoId.value != ""
  }

  datatype YoutubeSearch = Videos(videos: seq<Video>) | SearchError(message: string) | SearchFailed(message: string)

  const YoutubeNoKey := "YOUTUBE_API_KEY not configured. Get key at https://console.cloud.google.com/"

  /** The comments analysed: the non-empty tag-stripped comments of every
      video with a non-empty id whose comment request succeeded. */
  function AnalysedComments(videos: seq<Video>): (cs: seq<string>)
    ensures forall c | c in cs :: c != ""
    decreases |videos|
  {
    if |videos| == 0 then []
    else
      var init := AnalysedComments(videos[..|videos| - 1]);
      var v := videos[|videos| - 1];
      if HasVideoId(v) && v.comments.Ok? then init + CleanComments(v.comments.value) else init
  }

  /** A video with a missing or empty id, or whose comment request failed,
      adds no comment; any other video adds its cleaned comments at the end. */
  lemma AnalysedCommentsAppend(videos: seq<Video>, v: Video)
    ensures !(HasVideoId(v) && v.comments.Ok?) ==> AnalysedComments(videos + [v]) == AnalysedComments(videos)
    ensures HasVideoId(v) && v.comments.Ok? ==>
      AnalysedComments(videos + [v]) == AnalysedComments(videos) + CleanComments(v.comments.value)
  {
    assert (videos + [v])[..|videos|] == videos;
  }

  function CleanComments(comments: seq<string>): (cs: seq<string>)
    ensures forall c | c in cs :: c != ""
    ensures |cs| <= |comments|
    decreases |comments|
  {
    if |comments| == 0 then []
    else
      var init := CleanComments(comments[..|comments| - 1]);
      var c := StripTags(comments[|comments| - 1]);
      if c != "" then init + [c] else init
  }

  function CommentScores(comments: seq<string>, vader: Analyzer): (ps: seq<(real, real)>)
    ensures |ps| == |comments|
    decreases |comments|
  {
    if |comments| == 0 then []
    else CommentScores(comments[..|comments| - 1], vader) + [(vader(comments[|comments| - 1]) as real, 1.0)]
  }

  /** Every comment counts once, with a compound score in [-1, 1]. */
  lemma {:induction false} CommentScoresBand(comments: seq<string>, vader: Analyzer)
    ensures InBand(CommentScores(comments, vader), -1.0, 1.0)
    ensures TotalWeight(CommentScores(comments, vader)) == |comments| as real
    decreases |comments|
  {
    if |comments| > 0 {
      CommentScoresBand(comments[..|comments| - 1], vader);
    }
  }

  /** `fetch_youtube_sentiment`: the mean compound score of the analysed
      comments. */
  function YoutubeOf(hasKey: bool, vaderAvailable: bool, vader: Analyzer, search: YoutubeSearch): (r: Result<SentimentReading, string>)
    ensures r.Ok? ==> 0.0 <= r.value.score <= 100.0
    ensures search.Videos? && hasKey && vaderAvailable && AnalysedComments(search.videos) == [] ==> r == Ok(NothingToAnalyse)
  {
    if !hasKey then Err(YoutubeNoKey)
    else if !vaderAvailable then Err(VaderMissing)
    else
      match search
      case SearchError(m) => Err(m)
      case SearchFailed(m) => Err(m)
      case Videos(videos) =>
        var comments := AnalysedComments(videos);
        if |comments| == 0 then Ok(NothingToAnalyse)
        else
          var ps := CommentScores(comments, vader);
          CommentScoresBand(comments, vader);
          WeightedMeanBounds(ps, -1.0, 1.0);
          var score := Score(WeightedSum(ps) / (|comments| as real));
          Ok(SentimentReading(score, |comments|, RetailImpact(score)))
  }

  lemma CommentScoresAppend(done: seq<string>, c: string, vader: Analyzer)
    ensures CommentScores(done + [c], vader) == CommentScores(done, vader) + [(vader(c) as real, 1.0)]
  {
    assert (done + [c])[..|done|] == done;
  }

  lemma CleanCommentsStep(comments: seq<string>, j: nat)
    requires j < |comments|
    ensures CleanComments(comments[..j + 1])
            == if StripTags(comments[j]) != "" then CleanComments(comments[..j]) + [StripTags(comments[j])] else CleanComments(comments[..j])
  {
    assert comments[..j + 1][..j] == comments[..j];
  }

  lemma AnalysedCommentsStep(videos: seq<Video>, i: nat)
    requires i < |videos|
    ensures AnalysedComments(videos[..i + 1])
            == if HasVideoId(videos[i]) && videos[i].comments.Ok? then AnalysedComments(videos[..i]) + CleanComments(videos[i].comments.value)
               else AnalysedComments(videos[..i])
  {
    assert videos[..i + 1][..i] == videos[..i];
  }

  /** One comment thread more: `next` is the list of comments analysed once
      the thread's text is added, if it is not empty. */
  lemma AddCommentStep(before: seq<string>, comments: seq<string>, j: nat, vader: Analyzer, done: seq<string>)
    returns (next: seq<string>)
    requires j < |comments| && done == before + CleanComments(comments[..j])
    ensures next == before + CleanComments(comments[..j + 1])
    ensures var text := StripTags(comments[j]);
            && WeightedSum(CommentScores(next, vader)) == WeightedSum(CommentScores(done, vader)) + (if text != "" then vader(text) as real else 0.0)
            && |next| == |done| + (if text != "" then 1 else 0)
  {
    var text := StripTags(comments[j]);
    CleanCommentsStep(comments, j);
    next := before + CleanComments(comments[..j + 1]);
    if text != "" {
      assert next == done + [text];
      CommentScoresAppend(done, text, vader);
    }
  }

  /** The inner loop over one video's comment threads, adding to the running
      totals of the comments analysed before them. */
  method AddComments(comments: seq<string>, vader: Analyzer, ghost before: seq<string>, score0: real, count0: nat)
    returns (totalScore: real, commentCount: nat)
    requires score0 == WeightedSum(CommentScores(before, vader)) && count0 == |before|
    ensures totalScore == WeightedSum(CommentScores(before + CleanComments(comments), vader))
    ensures commentCount == |before + CleanComments(comments)|
  {
    totalScore, commentCount := score0, count0;
    ghost var done := before;
    assert comments[..0] == [];
    assert before + CleanComments(comments[..0]) == before;
    for j := 0 to |comments|
      invariant done == before + CleanComments(comments[..j])
      invariant totalScore == WeightedSum(CommentScores(done, vader))
      invariant commentCount == |done|
    {
      ghost var next := AddCommentStep(before, comments, j, vader, done);
      var text := StripTags(comments[j]);
      if text != "" {
        totalScore := totalScore + vader(text) as real;
        commentCount := commentCount + 1;
      }
      done := next;
    }
    assert comments[..|comments|] == comments;
  }

  /** The loop over the videos found, skipping those without an id or whose
      comment request fails. */
  method YoutubeSentiment(hasKey: bool, vaderAvailable: bool, vader: Analyzer, search: YoutubeSearch)
    returns (r: Result<SentimentReading, string>)
    ensures r == YoutubeOf(hasKey, vaderAvailable, vader, search)
  {
    if !hasKey {
      return Err(YoutubeNoKey);
    }
    if !vaderAvailable {
      return Err(VaderMissing);
    }
    if search.SearchError? || search.SearchFailed? {
      return Err(search.message);
    }
    var videos := search.videos;
    if |videos| == 0 {
      return Ok(NothingToAnalyse);
    }
    var totalScore := 0.0;
    var commentCount := 0;
    for i := 0 to |videos|
      invariant totalScore == WeightedSum(CommentScores(AnalysedComments(videos[..i]), vader))
      invariant commentCount == |AnalysedComments(videos[..i])|
    {
      AnalysedCommentsStep(videos, i);
      if HasVideoId(videos[i]) && videos[i].comments.Ok? {
        totalScore, commentCount :=
          AddComments(videos[i].comments.value, vader, AnalysedComments(videos[..i]), totalScore, commentCount);
      }
    }
    assert videos[..|videos|] == videos;
    if commentCount == 0 {
      return Ok(NothingToAnalyse);
    }
    var avg := totalScore / (commentCount as real);
    var score := Score(avg);
    r := Ok(SentimentReading(score, commentCount, RetailImpact(score)));
  }

  /** The search query: `"{company_name} stock"` when a ticker is given. */
  function YoutubeQuery(companyName: string, ticker: string): (q: string)
    ensures ticker != "" ==> q == companyName + " stock"
    ensures ticker == "" ==> q == companyName
  {
    if ticker != "" then companyName + " stock" else companyName
  }

  datatype SentimentSource = Finnhub | Reddit | Youtube

  /** An entry of the summary: the source and its score. */
  datatype Entry = Entry(source: SentimentSource, score: real)

  /** The three metrics with their composite weights. */
  function Weighted(finnhub: Result<SentimentReading, string>, reddit: Result<SentimentReading, string>,
                    youtube: Result<SentimentReading, string>): seq<(SentimentSource, Result<SentimentReading, string>, real)> {
    [(Finnhub, finnhub, 0.4), (Reddit, reddit, 0.4), (Youtube, youtube, 0.2)]
  }

  /** The (score, weight) pairs of the metrics without an error, in order. */
  function Scored(ms: seq<(SentimentSource, Result<SentimentReading, string>, real)>): (ps: seq<(real, real)>)
    ensures |ps| <= |ms|
    ensures (forall i | 0 <= i < |ms| :: ms[i].2 > 0.0) ==> forall i | 0 <= i < |ps| :: ps[i].1 > 0.0
    decreases |ms|
  {
    if |ms| == 0 then []
    else
      var init := Scored(ms[..|ms| - 1]);
      var m := ms[|ms| - 1];
      assert forall i | 0 <= i < |ms| - 1 :: ms[..|ms| - 1][i] == ms[i];
      if m.1.Ok? then init + [(m.1.value.score, m.2)] else init
  }

  /** The summary entry of a metric without an error. */
  function SignalOf(m: (SentimentSource, Result<SentimentReading, string>, real)): Option<Signal<Entry>> {
    if m.1.Ok? then Some(Signal(m.1.value.impact, Entry(m.0, m.1.value.score))) else None
  }

  function SignalsOf(ms: seq<(SentimentSource, Result<SentimentReading, string>, real)>): (s: seq<Option<Signal<Entry>>>)
    ensures |s| == |ms|
    ensures forall i | 0 <= i < |ms| :: s[i] == SignalOf(ms[i])
  {
    seq(|ms|, i requires 0 <= i < |ms| => SignalOf(ms[i]))
  }

  function SummaryOf(ms: seq<(SentimentSource, Result<SentimentReading, string>, real)>): Summary<Entry> {
    RouteAll(SignalsOf(ms), FullRouting)
  }

  /** A sum of positive weights is positive. */
  lemma {:induction false} PositiveTotal(ps: seq<(real, real)>)
    requires forall i | 0 <= i < |ps| :: ps[i].1 > 0.0
    ensures |ps| > 0 <==> TotalWeight(ps) > 0.0
    ensures TotalWeight(ps) >= 0.0
    decreases |ps|
  {
    if |ps| > 0 {
      PositiveTotal(ps[..|ps| - 1]);
    }
  }

  /** The weight-normalised average of the scores, 50 when there is none. */
  function Composite(ps: seq<(real, real)>): real
    requires forall i | 0 <= i < |ps| :: ps[i].1 > 0.0
  {
    PositiveTotal(ps);
    if |ps| > 0 then WeightedSum(ps) / TotalWeight(ps) else 50.0
  }

  datatype SentimentBasket = SentimentBasket(ticker: string, companyName: string, composite: real, overall: Impact,
                                             finnhub: Result<SentimentReading, string>, reddit: Result<SentimentReading, string>,
                                             youtube: Result<SentimentReading, string>, summary: Summary<Entry>)

  /** `company_name` defaults to the ticker. */
  function CompanyName(ticker: string, companyName: string): (c: string)
    ensures companyName == "" ==> c == ticker
    ensures companyName != "" ==> c == companyName
  {
    if companyName == "" then ticker else companyName
  }

  /** `get_full_sentiment_basket` given the three metrics. */
  function SentimentBasketOf(ticker: string, companyName: string, finnhub: Result<SentimentReading, string>,
                             reddit: Result<SentimentReading, string>, youtube: Result<SentimentReading, string>): SentimentBasket {
    var ms := Weighted(finnhub, reddit, youtube);
    var composite := Composite(Scored(ms));
    SentimentBasket(Upper(ticker), CompanyName(ticker, companyName), composite, RetailImpact(composite),
                    finnhub, reddit, youtube, SummaryOf(ms))
  }

  /** The loop over the weighted metrics appending to `scores`, `weights`
      and the summary lists. */
  method Aggregate(ms: seq<(SentimentSource, Result<SentimentReading, string>, real)>)
    returns (scored: seq<(real, real)>, summary: Summary<Entry>)
    ensures scored == Scored(ms)
    ensures summary == SummaryOf(ms)
  {
    summary := EmptySummary();
    scored := [];
    for i := 0 to |ms|
      invariant scored == Scored(ms[..i])
      invariant summary == RouteAll(SignalsOf(ms)[..i], FullRouting)
    {
      assert ms[..i + 1][..i] == ms[..i];
      RouteStep(SignalsOf(ms), FullRouting, i);
      var (source, metric, weight) := ms[i];
      if metric.Ok? {
        scored := scored + [(metric.value.score, weight)];
        var bucket := FullRouting(metric.value.impact);
        if bucket.Some? {
          summary := summary.Add(bucket.value, Entry(source, metric.value.score));
        }
      }
    }
    assert ms[..|ms|] == ms;
    assert SignalsOf(ms)[..|ms|] == SignalsOf(ms);
  }

  method FullSentimentBasket(ticker: string, companyName: string, finnhub: Result<SentimentReading, string>,
                             reddit: Result<SentimentReading, string>, youtube: Result<SentimentReading, string>)
    returns (b: SentimentBasket)
    ensures b == SentimentBasketOf(ticker, companyName, finnhub, reddit, youtube)
  {
    var name := if companyName == "" then ticker else companyName;
    var ms := Weighted(finnhub, reddit, youtube);
    var scored, summary := Aggregate(ms);
    PositiveTotal(scored);
    var composite := if |scored| > 0 then WeightedSum(scored) / TotalWeight(scored) else 50.0;
    b := SentimentBasket(Upper(ticker), name, composite, RetailImpact(composite), finnhub, reddit, youtube, summary);
  }

  lemma {:induction false} ScoredScores(ms: seq<(SentimentSource, Result<SentimentReading, string>, real)>, lo: real, hi: real)
    requires forall i | 0 <= i < |ms| && ms[i].1.Ok? :: lo <= ms[i].1.value.score <= hi
    ensures forall i | 0 <= i < |Scored(ms)| :: lo <= Scored(ms)[i].0 <= hi
    decreases |ms|
  {
    if |ms| > 0 {
      ScoredScores(ms[..|ms| - 1], lo, hi);
    }
  }

  /** Some metric without an error contributes a score. */
  lemma {:induction false} ScoredNonEmpty(ms: seq<(SentimentSource, Result<SentimentReading, string>, real)>)
    ensures |Scored(ms)| > 0 <==> exists i | 0 <= i < |ms| :: ms[i].1.Ok?
    decreases |ms|
  {
    if |ms| > 0 {
      ScoredNonEmpty(ms[..|ms| - 1]);
      assert forall i | 0 <= i < |ms| - 1 :: ms[..|ms| - 1][i] == ms[i];
    }
  }

  /** The composite lies between the smallest and the largest score of the
      metrics without an error, and is 50 when every metric failed. */
  lemma CompositeBounds(ticker: string, companyName: string, finnhub: Result<SentimentReading, string>,
                        reddit: Result<SentimentReading, string>, youtube: Result<SentimentReading, string>,
                        lo: real, hi: real)
    requires finnhub.Ok? ==> lo <= finnhub.value.score <= hi
    requires reddit.Ok? ==> lo <= reddit.value.score <= hi
    requires youtube.Ok? ==> lo <= youtube.value.score <= hi
    ensures var b := SentimentBasketOf(ticker, companyName, finnhub, reddit, youtube);
            (finnhub.Ok? || reddit.Ok? || youtube.Ok?) ==> lo <= b.composite <= hi
    ensures finnhub.Err? && reddit.Err? && youtube.Err? ==>
            SentimentBasketOf(ticker, companyName, finnhub, reddit, youtube).composite == 50.0
  {
    var ms := Weighted(finnhub, reddit, youtube);
    assert ms[0].1 == finnhub && ms[1].1 == reddit && ms[2].1 == youtube;
    ScoredScores(ms, lo, hi);
    ScoredNonEmpty(ms);
    var ps := Scored(ms);
    PositiveTotal(ps);
    if |ps| > 0 {
      WeightedMeanBounds(ps, lo, hi);
    }
  }
}
