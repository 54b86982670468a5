/** The article routes: the scrape-and-memoise detail handler with its
    process-wide cache, and the reshaping of the upstream news listing.
    The scraper and the news API are external; the scraper is a function
    parameter (no result when download or parse raises) and the news API's
    answer is an input. */
module ArticleRoutes {
  import opened Common

  // ---------------------------------------------------------------------
  // Article detail and its cache

  /** What `newspaper.Article` holds after a successful download and parse. */
  datatype ScrapedArticle = ScrapedArticle(title: string, text: string, topImage: string,
                                           authors: seq<string>, publishDate: Option<string>)

  /** Scrapes the article at a URL; no result when the scrape raises. */
  type Scraper = string -> Option<ScrapedArticle>

  /** The detail record returned and cached for a URL. */
  datatype ArticleDetail = ArticleDetail(title: string, text: string, image: string,
                                         authors: seq<string>, publishedDate: string)

  const ScrapeFailed: HttpError := HttpError(InternalServerError, "Failed to scrape article")

  /** `str(article.publish_date)`, which is "None" when no date was found. */
  function DateText(date: Option<string>): string
  {
    match date
    case None => "None"
    case Some(text) => text
  }

  /** The record built from a scraped article: its fields as scraped, and
      the publish date as text. */
  function ToDetail(article: ScrapedArticle): (d: ArticleDetail)
    ensures d.title == article.title && d.text == article.text && d.image == article.topImage
    ensures d.authors == article.authors
    ensures article.publishDate.None? ==> d.publishedDate == "None"
    ensures article.publishDate.Some? ==> d.publishedDate == article.publishDate.value
  {
    ArticleDetail(article.title, article.text, article.topImage, article.authors, DateText(article.publishDate))
  }

  /** The reply of one detail request, the cache after it, and whether the
      scraper was invoked. */
  datatype DetailStep = DetailStep(out: Result<ArticleDetail, HttpError>,
                                   cache: map<string, ArticleDetail>, scraped: bool)

  /** `get_article_detail`: a cache hit answers from the cache without
      scraping; a miss scrapes, caches and returns a success, and answers 500
      without caching a failure. */
  function ArticleDetailStep(cache: map<string, ArticleDetail>, url: string, scrape: Scraper): (r: DetailStep)
    ensures r.scraped <==> url !in cache
    ensures url in cache ==> r.out == Ok(cache[url]) && r.cache == cache
    ensures url !in cache && scrape(url).None? ==> r.out == Err(ScrapeFailed) && r.cache == cache
    ensures url !in cache && scrape(url).Some? ==>
              r.out == Ok(ToDetail(scrape(url).value)) && r.cache == cache[url := r.out.value]
    ensures r.out.Ok? ==> url in r.cache && r.cache[url] == r.out.value
    ensures forall key | key in cache :: key in r.cache && r.cache[key] == cache[key]
    ensures r.cache.Keys <= cache.Keys + {url}
  {
    if url in cache then DetailStep(Ok(cache[url]), cache, false)
    else match scrape(url)
      case None => DetailStep(Err(ScrapeFailed), cache, true)
      case Some(article) =>
        var result := ToDetail(article);
        DetailStep(Ok(result), cache[url := result], true)
  }

  /** `ARTICLE_CACHE` with the handler that reads and fills it. */
  class ArticleCache {
    var entries: map<string, ArticleDetail>

    constructor ()
      ensures entries == map[]
    {
      entries := map[];
    }

    method GetArticleDetail(url: string, scrape: Scraper) returns (r: Result<ArticleDetail, HttpError>)
      modifies this
      ensures r == ArticleDetailStep(old(entries), url, scrape).out
      ensures entries == ArticleDetailStep(old(entries), url, scrape).cache
    {
      if url in entries {
        return Ok(entries[url]);
      }
      var article := scrape(url);
      if article.None? {
        return Err(ScrapeFailed);
      }
      var result := ToDetail(article.value);
      entries := entries[url := result];
      r := Ok(result);
    }
  }

  /** Two requests for the same URL: once the first has succeeded, the
      second returns the identical value without scraping, whatever the
      scraper would now say, and leaves the cache as it was. */
  lemma SecondRequestHitsCache(cache: map<string, ArticleDetail>, url: string, first: Scraper, second: Scraper)
    requires ArticleDetailStep(cache, url, first).out.Ok?
    ensures var one := ArticleDetailStep(cache, url, first);
            var two := ArticleDetailStep(one.cache, url, second);
            two == DetailStep(one.out, one.cache, false)
  {
  }

  /** A failed scrape is not remembered: the next request scrapes again and
      returns its success. */
  lemma FailureIsNotSticky(cache: map<string, ArticleDetail>, url: string, first: Scraper, second: Scraper)
    requires ArticleDetailStep(cache, url, first).out.Err?
    requires second(url).Some?
    ensures var two := ArticleDetailStep(ArticleDetailStep(cache, url, first).cache, url, second);
            two.scraped && two.out == Ok(ToDetail(second(url).value))
  {
  }

  /** One detail request: the URL and the scraper's behaviour at that time. */
  datatype DetailRequest = DetailRequest(url: string, scrape: Scraper)

  /** The replies to a sequence of detail requests and the final cache. */
  function ServeAll(cache: map<string, ArticleDetail>, reqs: seq<DetailRequest>)
    : (r: (seq<Result<ArticleDetail, HttpError>>, map<string, ArticleDetail>))
    ensures |r.0| == |reqs|
    decreases |reqs|
  {
    if reqs == [] then ([], cache)
    else
      var step := ArticleDetailStep(cache, reqs[0].url, reqs[0].scrape);
      var rest := ServeAll(step.cache, reqs[1..]);
      ([step.out] + rest.0, rest.1)
  }

  /** Cache entries are never overwritten or removed: once a URL is cached,
      every later request for it returns the cached value. */
  lemma {:induction false} CachedEntryIsPermanent(cache: map<string, ArticleDetail>, reqs: seq<DetailRequest>,
                                                  url: string)
    requires url in cache
    ensures url in ServeAll(cache, reqs).1 && ServeAll(cache, reqs).1[url] == cache[url]
    ensures forall i | 0 <= i < |reqs| && reqs[i].url == url :: ServeAll(cache, reqs).0[i] == Ok(cache[url])
    decreases |reqs|
  {
    if reqs != [] {
      var step := ArticleDetailStep(cache, reqs[0].url, reqs[0].scrape);
      CachedEntryIsPermanent(step.cache, reqs[1..], url);
      var rest := ServeAll(step.cache, reqs[1..]);
      forall i | 0 <= i < |reqs| && reqs[i].url == url
        ensures ServeAll(cache, reqs).0[i] == Ok(cache[url])
      {
        if i > 0 {
          assert reqs[1..][i - 1] == reqs[i];
          assert ServeAll(cache, reqs).0[i] == rest.0[i - 1];
        }
      }
    }
  }

  // ---------------------------------------------------------------------
  // Article listing

  datatype UpstreamSource = UpstreamSource(id: Option<string>, name: Option<string>)

  /** One entry of the news API's "articles" list; JSON null is None. */
  datatype UpstreamArticle = UpstreamArticle(source: UpstreamSource, title: Option<string>,
                                             description: Option<string>, url: Option<string>,
                                             urlToImage: Option<string>)

  /** The news API's answer: its status code and its "articles" list, if
      the key is present. */
  datatype UpstreamReply = UpstreamReply(statusCode: int, articles: Option<seq<UpstreamArticle>>)

  datatype ArticleSummary = ArticleSummary(id: nat, title: Option<string>, description: Option<string>,
                                           image: Option<string>, source: Option<string>, url: Option<string>)

  const FetchFailed: HttpError := HttpError(BadGateway, "Failed to fetch news articles")

  /** The list comprehension over `enumerate(articles)`. */
  function Summaries(articles: seq<UpstreamArticle>): (r: seq<ArticleSummary>)
    ensures |r| == |articles|
    ensures forall i | 0 <= i < |r| :: r[i].id == i
    ensures forall i | 0 <= i < |r| ::
              && r[i].title == articles[i].title && r[i].description == articles[i].description
              && r[i].image == articles[i].urlToImage && r[i].source == articles[i].source.name
              && r[i].url == articles[i].url
  {
    seq(|articles|, i requires 0 <= i < |articles| =>
      ArticleSummary(i, articles[i].title, articles[i].description, articles[i].urlToImage,
                     articles[i].source.name, articles[i].url))
  }

  /** `get_articles`, given the news API's answer. */
  function GetArticles(reply: UpstreamReply): (r: Result<seq<ArticleSummary>, HttpError>)
    ensures reply.statusCode != 200 <==> r == Err(FetchFailed)
    ensures reply.statusCode == 200 && reply.articles.None? ==> r == Ok([])
    ensures reply.statusCode == 200 && reply.articles.Some? ==> r == Ok(Summaries(reply.articles.value))
  {
    if reply.statusCode != 200 then Err(FetchFailed)
    else
      var articles := match reply.articles case Some(list) => list case None => [];
      Ok(Summaries(articles))
  }

  /** Summaries are positional: more upstream articles leave the summaries
      of the earlier ones as they were, and summaries are told apart by id. */
  lemma SummariesOfPrefix(articles: seq<UpstreamArticle>, more: seq<UpstreamArticle>)
    ensures Summaries(articles + more)[..|articles|] == Summaries(articles)
    ensures forall i, j | 0 <= i < j < |articles| :: Summaries(articles)[i] != Summaries(articles)[j]
  {
    var whole := Summaries(articles + more);
    var part := Summaries(articles);
    assert |whole[..|articles|]| == |part|;
    forall i | 0 <= i < |part| ensures whole[..|articles|][i] == part[i] {
      assert (articles + more)[i] == articles[i];
    }
  }
}
