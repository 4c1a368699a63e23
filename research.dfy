/** The topic stage's decision logic (src/lib/services/research.service.ts).
    The stage asks a news search for trending articles and falls back to a
    fixed pool of topics on every failure. The search outcome and the value of
    `Math.random()` are inputs, so the stage is a total function. */
module ResearchService {
  import opened Common
  import opened Model

  /** One article of the search response. An empty `title` stands for a
      missing, null or empty one (all falsy); `sourceName` is `source?.name`. */
  datatype Article = Article(title: string, description: Option<string>, url: string, sourceName: Option<string>)

  /** The parsed response: `articles` may be missing. */
  datatype NewsPayload = NewsPayload(articles: Option<seq<Article>>)

  /** What the outside world does during one topic stage. */
  datatype NewsWorld = NewsWorld(
    apiKey: string,                    // NEWS_API_KEY; empty when unset or empty
    response: FetchResult<NewsPayload>,
    random: real)                      // the value Math.random() returns, in [0, 1)

  const FallbackTopics: seq<TopicIdea> := [
    TopicIdea(
      "Robot surgeons now outperform humans in microsurgery tests",
      "Autonomous surgical robots completed 97% of microsuture tasks faster than leading surgeons.",
      "Highlight precision, speed, and what it means when robots master steady hands.",
      [ Source("MIT Technology Review", "https://www.technologyreview.com/"),
        Source("Nature Robotics", "https://www.nature.com/natmachintell/") ]),
    TopicIdea(
      "Quantum AI lab announces qubit leap that slashes training power",
      "Researchers combined quantum annealing with AI chips to cut energy costs by 37%.",
      "Focus on the sustainability angle and the idea of greener AGI.",
      [ Source("IEEE Spectrum", "https://spectrum.ieee.org/"),
        Source("Quantum Magazine", "https://www.quantamagazine.org/") ]),
    TopicIdea(
      "Self-healing nanobots designed to patrol human bloodstream",
      "New nanobots repair themselves mid-mission, enabling continuous internal diagnostics.",
      "Lean into the sci-fi visual of nanobot patrols keeping us alive.",
      [ Source("Wired", "https://www.wired.com/"),
        Source("Science Advances", "https://www.science.org/journal/sciadv") ])
  ]

  const MaxSupportingSources: nat := 3

  /** `Math.floor(Math.random() * FALLBACK_TOPICS.length)`: always a valid index. */
  function FallbackIndex(random: real): (i: nat)
    requires 0.0 <= random < 1.0
    ensures i < |FallbackTopics|
  {
    var scaled := random * (|FallbackTopics| as real);
    assert 0.0 <= scaled;
    scaled.Floor
  }

  function FallbackTopic(random: real): (t: TopicIdea)
    requires 0.0 <= random < 1.0
    ensures t in FallbackTopics
  {
    FallbackTopics[FallbackIndex(random)]
  }

  /** `articles.filter(article => !!article.title)`. */
  function Titled(articles: seq<Article>): (r: seq<Article>)
    ensures forall a :: a in r <==> a in articles && a.title != ""
    ensures |r| <= |articles|
  {
    if |articles| == 0 then []
    else if articles[0].title != "" then [articles[0]] + Titled(articles[1..])
    else Titled(articles[1..])
  }

  /** Filtering distributes over concatenation, so the kept articles keep
      their relative order. */
  lemma {:induction false} TitledAppend(xs: seq<Article>, ys: seq<Article>)
    ensures Titled(xs + ys) == Titled(xs) + Titled(ys)
  {
    if |xs| > 0 {
      var zs := xs + ys;
      assert zs[0] == xs[0];
      assert zs[1..] == xs[1..] + ys;
      TitledAppend(xs[1..], ys);
      if xs[0].title != "" {
        calc {
          Titled(zs);
          [xs[0]] + Titled(xs[1..] + ys);
          [xs[0]] + (Titled(xs[1..]) + Titled(ys));
          ([xs[0]] + Titled(xs[1..])) + Titled(ys);
        }
      } else {
        assert Titled(zs) == Titled(xs[1..] + ys);
      }
    } else {
      assert xs + ys == ys;
    }
  }

  /** The titled articles of a usable response; empty on any failure. */
  function TrendingArticles(world: NewsWorld): seq<Article> {
    match world.response
    case NetworkError => []
    case Response(ok, body) =>
      if !ok || body.None? then [] else Titled(body.value.articles.GetOr([]))
  }

  /** The stage falls back exactly when there is no key, the request throws
      or is not ok, the body is unusable, or no article has a title. */
  predicate FallsBack(world: NewsWorld) {
    world.apiKey == "" || |TrendingArticles(world)| == 0
  }

  function Angle(videoStyle: string): string {
    "Deliver a futurist hype tone that fits the " + videoStyle
      + " aesthetic. Highlight why this matters right now and give a forward-looking twist."
  }

  /** The supporting sources: each article's source name, or a default. */
  function SupportingSources(articles: seq<Article>): (r: seq<Source>)
    ensures |r| == |articles|
    ensures forall i :: 0 <= i < |r| ==>
      r[i].url == articles[i].url && r[i].title == articles[i].sourceName.GetOr("Supporting Source")
  {
    if |articles| == 0 then []
    else
      var first := Source(articles[0].sourceName.GetOr("Supporting Source"), articles[0].url);
      [first] + SupportingSources(articles[1..])
  }

  /** The topic built from the titled articles and the angle: the first
      article gives the title and summary, and up to three more are
      supporting sources. */
  function FromArticles(articles: seq<Article>, angle: string): (t: TopicIdea)
    requires |articles| > 0
    ensures t.angle == angle
    ensures t.title == articles[0].title
    ensures t.summary == articles[0].description.GetOr("Latest AI headline summarized.")
    ensures |t.sources| == 1 + Min(MaxSupportingSources, |articles| - 1)
    ensures forall i :: 0 <= i < |t.sources| ==> t.sources[i].url == articles[i].url
    ensures t.sources[0].title == articles[0].sourceName.GetOr("Primary Source")
    ensures forall i :: 1 <= i < |t.sources| ==> t.sources[i].title == articles[i].sourceName.GetOr("Supporting Source")
  {
    var primary := articles[0];
    var secondary := articles[1..Min(1 + MaxSupportingSources, |articles|)];
    var sources := [Source(primary.sourceName.GetOr("Primary Source"), primary.url)] + SupportingSources(secondary);
    TopicIdea(
      primary.title,  // the `?? 'AI Breakthrough'` default cannot apply: the title is non-empty
      primary.description.GetOr("Latest AI headline summarized."),
      angle,
      sources)
  }

  /** `generateTopicIdea`: never throws; the result is a pooled topic exactly
      when the stage falls back, and otherwise the topic of the trending articles. */
  function GenerateTopicIdea(world: NewsWorld, videoStyle: string): (t: TopicIdea)
    requires 0.0 <= world.random < 1.0
    ensures t in FallbackTopics <==> FallsBack(world)
    ensures FallsBack(world) ==> t == FallbackTopic(world.random)
    ensures !FallsBack(world) ==> t == FromArticles(TrendingArticles(world), Angle(videoStyle))
    ensures !FallsBack(world) ==> t.title == TrendingArticles(world)[0].title
  {
    if world.apiKey == "" then FallbackTopic(world.random)
    else
      var articles := TrendingArticles(world);
      if |articles| == 0 then FallbackTopic(world.random)
      else
        var t := FromArticles(articles, Angle(videoStyle));
        AngleIsNotPooled(videoStyle);
        t
  }

  /** A topic built from articles never equals a pooled one: its angle is
      longer than every pooled angle. */
  lemma AngleIsNotPooled(videoStyle: string)
    ensures forall t :: t in FallbackTopics ==> t.angle != Angle(videoStyle)
  {
    assert |Angle(videoStyle)| >= 120;
    forall t | t in FallbackTopics ensures |t.angle| < 120 {
      var i :| 0 <= i < |FallbackTopics| && FallbackTopics[i] == t;
    }
  }

  /** Without a key the response plays no part: the result depends only on the
      random draw. */
  lemma NoKeyIgnoresResponse(world: NewsWorld, other: NewsWorld, videoStyle: string)
    requires world.apiKey == "" && other.apiKey == "" && world.random == other.random
    requires 0.0 <= world.random < 1.0
    ensures GenerateTopicIdea(world, videoStyle) == GenerateTopicIdea(other, videoStyle)
    ensures GenerateTopicIdea(world, videoStyle) in FallbackTopics
  {
  }
}
