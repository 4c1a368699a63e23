/** The upload metadata builder (src/lib/services/metadata.service.ts):
    title, description, hashtags and keywords for the published short. The
    clock readings (the date in the title, the scheduled time) are parameters. */
module MetadataService {
  import opened Common
  import opened Model
  import opened BrandConfigService

  const BaseHashtags: seq<string> := ["#AI", "#FutureTech", "#Innovation", "#TechNews", "#Shorts"]

  const ExtraKeywords: seq<string> := ["AI facts", "robotics", "quantum computing", "future technology"]

  // ---------------------------------------------------------------------------
  // De-duplication: `[...new Set(xs)]`
  // ---------------------------------------------------------------------------

  predicate NoDuplicates(s: seq<string>) {
    forall i, j :: 0 <= i < j < |s| ==> s[i] != s[j]
  }

  /** `r` lists the elements in the order of their first occurrence in `xs`:
      wherever a later element of `r` occurs in `xs`, every earlier element of
      `r` has already occurred. */
  predicate FirstOccurrenceOrder(xs: seq<string>, r: seq<string>) {
    forall i, j, p :: 0 <= i < j < |r| && 0 <= p < |xs| && xs[p] == r[j] ==> r[i] in xs[..p]
  }

  /** A `Set` built from `xs` and spread back: each element is inserted in
      turn and kept only on its first insertion. */
  function Dedup(xs: seq<string>): (r: seq<string>)
    ensures forall x :: x in r <==> x in xs
    ensures NoDuplicates(r)
    ensures |r| <= |xs|
  {
    if xs == [] then []
    else
      var init := xs[..|xs| - 1];
      var kept := Dedup(init);
      assert xs == init + [xs[|xs| - 1]];
      if xs[|xs| - 1] in kept then kept else kept + [xs[|xs| - 1]]
  }

  lemma {:induction false} DedupOrder(xs: seq<string>)
    ensures FirstOccurrenceOrder(xs, Dedup(xs))
  {
    if xs != [] {
      var n := |xs| - 1;
      var init, last := xs[..n], xs[n];
      var kept := Dedup(init);
      DedupOrder(init);
      var r := Dedup(xs);
      forall i, j, p | 0 <= i < j < |r| && 0 <= p < |xs| && xs[p] == r[j]
        ensures r[i] in xs[..p]
      {
        if p < n {
          assert xs[p] == init[p];
          assert init[..p] == xs[..p];
        } else {
          assert xs[..p] == init;
        }
      }
    }
  }

  /** A list that already has no duplicates is left as it is. */
  lemma {:induction false} DedupOfDistinct(xs: seq<string>)
    requires NoDuplicates(xs)
    ensures Dedup(xs) == xs
  {
    if xs != [] {
      var n := |xs| - 1;
      assert NoDuplicates(xs[..n]);
      DedupOfDistinct(xs[..n]);
      assert xs[n] !in xs[..n];
      assert xs == xs[..n] + [xs[n]];
    }
  }

  // ---------------------------------------------------------------------------
  // Stage directions: `hook.replace(/\[[^\]]+]/g, '')`
  // ---------------------------------------------------------------------------

  /** The position of the first `]` at or after `from`, if any. */
  function FirstClose(s: string, from: nat): (r: Option<nat>)
    decreases |s| - from
    ensures r.Some? ==> from <= r.value < |s| && s[r.value] == ']'
    ensures r.Some? ==> forall k :: from <= k < r.value ==> s[k] != ']'
    ensures r.None? ==> forall k :: from <= k < |s| ==> s[k] != ']'
  {
    if from >= |s| then None
    else if s[from] == ']' then Some(from)
    else FirstClose(s, from + 1)
  }

  /** Deletes, scanning left to right, every `[` followed by one or more
      characters other than `]` and then a `]`. A `[` with no `]` after it,
      and an empty `[]`, stay. */
  function StripDirections(s: string): (r: string)
    decreases |s|
    ensures |r| <= |s|
    ensures forall c :: c in r ==> c in s
  {
    if |s| == 0 then ""
    else
      var close := FirstClose(s, 1);
      if s[0] == '[' && close.Some? && close.value >= 2 then
        StripDirections(s[close.value + 1..])
      else
        [s[0]] + StripDirections(s[1..])
  }

  /** No stage direction is left in `s`: every `[` is either closed at once
      (`[]`) or never closed. */
  predicate Clean(s: string) {
    forall i :: 0 <= i < |s| && s[i] == '[' ==> (i + 1 < |s| && s[i + 1] == ']') || ']' !in s[i + 1..]
  }

  lemma {:induction false} StripIsClean(s: string)
    ensures Clean(StripDirections(s))
    decreases |s|
  {
    if |s| > 0 {
      var close := FirstClose(s, 1);
      if s[0] == '[' && close.Some? && close.value >= 2 {
        StripIsClean(s[close.value + 1..]);
      } else {
        var t := StripDirections(s[1..]);
        StripIsClean(s[1..]);
        var r := [s[0]] + t;
        assert r == StripDirections(s);
        forall i | 0 <= i < |r| && r[i] == '['
          ensures (i + 1 < |r| && r[i + 1] == ']') || ']' !in r[i + 1..]
        {
          if i == 0 {
            if close.None? {
              assert ']' !in s[1..];
              assert r[1..] == t;
            } else {
              assert close.value == 1 && s[1] == ']';
              assert s[1..][0] == ']';
              assert t == [']'] + StripDirections(s[1..][1..]);
            }
          } else {
            assert r[i] == t[i - 1];
            assert r[i + 1..] == t[i..];
          }
        }
      }
    }
  }

  lemma {:induction false} StripKeepsClean(s: string)
    requires Clean(s)
    ensures StripDirections(s) == s
    decreases |s|
  {
    if |s| > 0 {
      var tail := s[1..];
      forall i | 0 <= i < |tail| && tail[i] == '['
        ensures (i + 1 < |tail| && tail[i + 1] == ']') || ']' !in tail[i + 1..]
      {
        assert s[i + 1] == '[';
        assert tail[i + 1..] == s[i + 2..];
      }
      StripKeepsClean(tail);
      var close := FirstClose(s, 1);
      if s[0] == '[' {
        if ']' !in s[1..] {
          assert close.None?;
        } else {
          assert s[1] == ']';
          assert close == Some(1);
        }
      }
      assert s == [s[0]] + tail;
    }
  }

  /** Text before the first `[` is kept as it is. */
  lemma {:induction false} StripKeepsPlainPrefix(x: string, y: string)
    requires '[' !in x
    ensures StripDirections(x + y) == x + StripDirections(y)
    decreases |x|
  {
    if |x| > 0 {
      var s := x + y;
      assert s[0] == x[0] && s[0] != '[';
      assert s[1..] == x[1..] + y;
      StripKeepsPlainPrefix(x[1..], y);
      assert StripDirections(s) == [x[0]] + StripDirections(x[1..] + y);
      assert x == [x[0]] + x[1..];
    } else {
      assert x + y == y;
    }
  }

  /** A direction, `[` then one or more characters other than `]` then `]`,
      is deleted whole and the scan goes on after it. */
  lemma StripRemovesDirection(d: string, y: string)
    requires |d| >= 1 && ']' !in d
    ensures StripDirections("[" + d + "]" + y) == StripDirections(y)
  {
    var s := "[" + d + "]" + y;
    var n := |d| + 1;
    assert s[n] == ']';
    forall k | 1 <= k < n ensures s[k] != ']' {
      assert s[k] == d[k - 1];
    }
    var close := FirstClose(s, 1);
    assert close == Some(n);
    assert s[n + 1..] == y;
  }

  /** An empty `[]` opens no direction and is kept. */
  lemma StripKeepsEmptyBrackets(y: string)
    ensures StripDirections("[]" + y) == "[]" + StripDirections(y)
  {
    var e := "[]" + y;
    assert FirstClose(e, 1) == Some(1);
    assert e[1..] == "]" + y;
    assert ("]" + y)[1..] == y;
  }

  /** A `[` with no `]` anywhere after it opens no direction and is kept,
      together with everything after it. */
  lemma StripKeepsUnclosedBracket(y: string)
    requires ']' !in y
    ensures StripDirections("[" + y) == "[" + y
  {
    var u := "[" + y;
    forall i | 0 <= i < |u| && u[i] == '['
      ensures ']' !in u[i + 1..]
    {
      assert u[i + 1..] == y[i..];
    }
    StripKeepsClean(u);
  }

  /** Stripping stage directions a second time changes nothing. */
  lemma StripIdempotent(s: string)
    ensures StripDirections(StripDirections(s)) == StripDirections(s)
  {
    StripIsClean(s);
    StripKeepsClean(StripDirections(s));
  }

  // ---------------------------------------------------------------------------
  // buildUploadMetadata
  // ---------------------------------------------------------------------------

  function SourceLine(source: Source): string {
    "\U{2022} " + source.title + ": " + source.url
  }

  function HashtagLine(hashtags: seq<string>): string {
    "#shorts " + Join(hashtags, " ")
  }

  /** The lines of the description, before they are joined with newlines. */
  function DescriptionLines(config: BrandConfig, topic: TopicIdea, script: ScriptDraft, hashtags: seq<string>)
    : (lines: seq<string>)
    ensures |lines| == |topic.sources| + 6
    ensures lines[0] == Display(config, "channelName") + " \U{2014} " + Display(config, "tagline") && lines[1] == ""
    ensures lines[2] == "Hook: " + StripDirections(script.hook) && lines[3] == "Sources:"
    ensures forall i :: 0 <= i < |topic.sources| ==> lines[4 + i] == SourceLine(topic.sources[i])
    ensures lines[|lines| - 2] == "" && lines[|lines| - 1] == HashtagLine(hashtags)
  {
    [ Display(config, "channelName") + " \U{2014} " + Display(config, "tagline"),
      "",
      "Hook: " + StripDirections(script.hook),
      "Sources:" ]
    + seq(|topic.sources|, i requires 0 <= i < |topic.sources| => SourceLine(topic.sources[i]))
    + [ "", HashtagLine(hashtags) ]
  }

  /** The description: its lines joined with newlines. */
  function Description(config: BrandConfig, topic: TopicIdea, script: ScriptDraft, hashtags: seq<string>): string {
    Join(DescriptionLines(config, topic, script, hashtags), "\n")
  }

  function Title(topic: TopicIdea, dateLabel: string): string {
    topic.title + " \U{1F680} (" + dateLabel + ")"
  }

  /** Builds the metadata; spreading a configured hashtag or keyword field that
      is `null` or missing throws, hashtags first. */
  function BuildUploadMetadata(
    config: BrandConfig, topic: TopicIdea, script: ScriptDraft, dateLabel: string, scheduledAt: string)
    : (r: Result<UploadMetadata>)
    ensures r.Ok? <==> Spread(config, "hashtags").Ok? && Spread(config, "keywords").Ok?
    ensures Spread(config, "hashtags").Err? ==> r == Err(Spread(config, "hashtags").message)
    ensures r.Ok? ==>
      var tags := Spread(config, "hashtags").value;
      && NoDuplicates(r.value.hashtags)
      && (forall h :: h in r.value.hashtags <==> h in BaseHashtags || h in tags)
      && r.value.hashtags == Dedup(BaseHashtags + tags)
    ensures r.Ok? ==>
      var words := Spread(config, "keywords").value;
      && NoDuplicates(r.value.keywords)
      && (forall k :: k in r.value.keywords <==> k in words || k in ExtraKeywords)
      && r.value.keywords == Dedup(words + ExtraKeywords)
    ensures r.Ok? ==>
      && r.value.title == Title(topic, dateLabel)
      && r.value.description == Description(config, topic, script, r.value.hashtags)
      && r.value.scheduledAt == scheduledAt
      && r.value.watchUrl.None?
  {
    var tags := Spread(config, "hashtags");
    if tags.Err? then Err(tags.message)
    else
      var words := Spread(config, "keywords");
      if words.Err? then Err(words.message)
      else
        var hashtags := Dedup(BaseHashtags + tags.value);
        Ok(UploadMetadata(
          Title(topic, dateLabel),
          Description(config, topic, script, hashtags),
          hashtags,
          Dedup(words.value + ExtraKeywords),
          scheduledAt,
          None))
  }

  /** The description lines hold no newline when none of their pieces does. */
  lemma LinesAvoidNewline(config: BrandConfig, topic: TopicIdea, script: ScriptDraft, hashtags: seq<string>)
    requires '\n' !in Display(config, "channelName") && '\n' !in Display(config, "tagline")
    requires '\n' !in script.hook
    requires forall i :: 0 <= i < |topic.sources| ==> '\n' !in topic.sources[i].title && '\n' !in topic.sources[i].url
    requires forall i :: 0 <= i < |hashtags| ==> '\n' !in hashtags[i]
    ensures forall i :: 0 <= i < |DescriptionLines(config, topic, script, hashtags)| ==>
      '\n' !in DescriptionLines(config, topic, script, hashtags)[i]
  {
    var lines := DescriptionLines(config, topic, script, hashtags);
    JoinAvoids(hashtags, " ", '\n');
    forall i | 0 <= i < |lines| ensures '\n' !in lines[i] {
      if 4 <= i < 4 + |topic.sources| {
        assert lines[i] == SourceLine(topic.sources[i - 4]);
      }
    }
  }

  /** Read back line by line, the description has a header, a blank line,
      the sanitised hook, one line per topic source in order, a blank line
      and the hashtag line; it needs every piece to be free of newlines. */
  lemma DescriptionLayout(config: BrandConfig, topic: TopicIdea, script: ScriptDraft, hashtags: seq<string>)
    requires '\n' !in Display(config, "channelName") && '\n' !in Display(config, "tagline")
    requires '\n' !in script.hook
    requires forall i :: 0 <= i < |topic.sources| ==> '\n' !in topic.sources[i].title && '\n' !in topic.sources[i].url
    requires forall i :: 0 <= i < |hashtags| ==> '\n' !in hashtags[i]
    ensures
      var lines := Split(Description(config, topic, script, hashtags), '\n');
      && |lines| == |topic.sources| + 6
      && lines[0] == Display(config, "channelName") + " \U{2014} " + Display(config, "tagline")
      && lines[1] == ""
      && lines[2] == "Hook: " + StripDirections(script.hook)
      && lines[3] == "Sources:"
      && (forall i :: 0 <= i < |topic.sources| ==> lines[4 + i] == SourceLine(topic.sources[i]))
      && lines[|lines| - 2] == ""
      && lines[|lines| - 1] == HashtagLine(hashtags)
  {
    LinesAvoidNewline(config, topic, script, hashtags);
    SplitJoin(DescriptionLines(config, topic, script, hashtags), '\n');
  }

  /** After an upsert, the builder can only fail when the winning layer set
      the hashtags or the keywords to `null`; the defaults always spread. */
  lemma MergedConfigMetadata(
    stored: Option<BrandConfig>, input: BrandConfig,
    topic: TopicIdea, script: ScriptDraft, dateLabel: string, scheduledAt: string)
    ensures
      var config := Merge(stored, input);
      BuildUploadMetadata(config, topic, script, dateLabel, scheduledAt).Err? <==>
        config["hashtags"] == Null || config["keywords"] == Null
  {
    var config := Merge(stored, input);
    assert "hashtags" in config && "keywords" in config;
  }
}
