/** The run orchestrator and the run store (src/lib/pipeline/agent.ts).
    One run resolves the brand configuration, drives the stages in a fixed
    order, classifies failures as fatal (recorded and re-thrown) or absorbed
    (an upload failure: recorded, not thrown), and appends exactly one frozen
    record to the bounded history. The UUID, the clock readings, the data
    root and the outside world are inputs of the run. */
module Agent {
  import opened Common
  import opened Model
  import opened BrandConfigService
  import MetadataService
  import VisualsService
  import ResearchService

  const MaxHistory: nat := 30

  const UploadFailedMessage: string := "Upload failed. Check credentials."

  datatype Stage = Topic | Script | Voice | Visual | Render | Thumbnail | Metadata | Upload

  /** The order in which a run invokes its stages. */
  const Pipeline: seq<Stage> := [Topic, Script, Voice, Visual, Render, Thumbnail, Metadata, Upload]

  datatype UploadReceipt = UploadReceipt(videoId: string, watchUrl: string)

  /** The stages whose internals are outside this model: each yields its
      artifact or throws with a message. */
  datatype StageProviders = StageProviders(
    craftScript: TopicIdea -> Result<ScriptDraft>,
    synthesizeVoiceover: ScriptDraft -> Result<VoiceoverAsset>,
    assembleVideo: (VisualAsset, VoiceoverAsset, ScriptDraft) -> Result<string>,
    generateThumbnail: (string, ScriptDraft) -> Result<ThumbnailAsset>,
    uploadShort: (string, ThumbnailAsset, UploadMetadata) -> Result<UploadReceipt>)

  /** Everything a run draws from its environment. */
  datatype RunEnvironment = RunEnvironment(
    runId: string,          // randomUUID()
    startedAt: string,      // clock at the start
    completedAt: string,    // clock when the record is finalised
    dateLabel: string,      // the date shown in the upload title
    scheduledAt: string,    // one hour after the metadata is built
    dataRoot: string,
    news: ResearchService.NewsWorld,
    stock: VisualsService.StockWorld)

  datatype Artifacts = Artifacts(
    topic: TopicIdea,
    script: ScriptDraft,
    voiceover: VoiceoverAsset,
    visual: VisualAsset,
    videoPath: string,
    thumbnail: ThumbnailAsset,
    metadata: UploadMetadata)

  /** How far the stages of a run get: a fatal stage throws, or every
      artifact is produced and the upload yields its outcome. */
  datatype Progress = Aborted(stage: Stage, message: string) | Finished(artifacts: Artifacts, upload: Result<UploadReceipt>)

  /** What the caller of a run observes: a returned record or a thrown error. */
  datatype RunOutcome = Returned(result: RunResult) | Threw(message: string)

  // ---------------------------------------------------------------------------
  // Run history
  // ---------------------------------------------------------------------------

  /** The history after `appendRunHistory(r)`: newest first, at most 30
      entries, the oldest evicted. */
  function Prepended(history: seq<RunResult>, r: RunResult): (h: seq<RunResult>)
    ensures |h| == Min(|history| + 1, MaxHistory)
    ensures h[0] == r
    ensures h[1..] == history[..Min(|history|, MaxHistory - 1)]
  {
    ([r] + history)[..Min(|history| + 1, MaxHistory)]
  }

  /** The history after the records are appended one after another. */
  function AppendAll(history: seq<RunResult>, records: seq<RunResult>): seq<RunResult>
    decreases |records|
  {
    if records == [] then history else AppendAll(Prepended(history, records[0]), records[1..])
  }

  function Reverse(s: seq<RunResult>): (r: seq<RunResult>)
    ensures |r| == |s|
  {
    if s == [] then [] else Reverse(s[1..]) + [s[0]]
  }

  /** Over consecutive runs the history is a sliding window: the newest
      records first, in reverse order of their runs, followed by the older
      history, cut to 30 entries (starting from a history within the bound). */
  lemma {:induction false} AppendAllWindow(history: seq<RunResult>, records: seq<RunResult>)
    requires |history| <= MaxHistory
    ensures AppendAll(history, records) ==
      (Reverse(records) + history)[..Min(|records| + |history|, MaxHistory)]
    decreases |records|
  {
    if records == [] {
      assert Reverse(records) + history == history[..|history|];
    } else {
      var r, rest := records[0], records[1..];
      var h1 := Prepended(history, r);
      AppendAllWindow(h1, rest);
      var m := Min(|records| + |history|, MaxHistory);
      assert Min(|rest| + |h1|, MaxHistory) == m;
      var long := Reverse(rest) + ([r] + history);
      assert Reverse(records) + history == long;
      var lhs := (Reverse(rest) + h1)[..m];
      forall k | 0 <= k < m ensures lhs[k] == long[k] {
        if k >= |rest| {
          assert lhs[k] == h1[k - |rest|];
        }
      }
      assert lhs == long[..m];
    }
  }

  /** The durable run store: the history document and the latest document. */
  class RunStore {
    var history: seq<RunResult>
    var latest: Option<RunResult>
    ghost var appends: nat

    /** The history is bounded and its first entry is the latest record. */
    ghost predicate Valid()
      reads this
    {
      && |history| <= MaxHistory
      && (latest.Some? <==> history != [])
      && (latest.Some? ==> history[0] == latest.value)
    }

    /** A store over whatever the two documents hold. */
    constructor (history: seq<RunResult>, latest: Option<RunResult>)
      ensures this.history == history && this.latest == latest && appends == 0
    {
      this.history := history;
      this.latest := latest;
      appends := 0;
    }

    /** `appendRunHistory`: prepend, keep the first 30, overwrite the latest. */
    method AppendRunHistory(r: RunResult)
      modifies this
      ensures history == Prepended(old(history), r)
      ensures latest == Some(r)
      ensures appends == old(appends) + 1
      ensures Valid()
    {
      var h := [r] + history;
      history := h[..Min(|h|, MaxHistory)];
      latest := Some(r);
      appends := appends + 1;
    }
  }

  // ---------------------------------------------------------------------------
  // The stages of one run
  // ---------------------------------------------------------------------------

  /** The topic stage: research with the configured video style, which never
      throws. */
  function Research(config: BrandConfig, env: RunEnvironment): TopicIdea
    requires 0.0 <= env.news.random < 1.0
  {
    ResearchService.GenerateTopicIdea(env.news, Display(config, "videoStyle"))
  }

  /** The stages of a run after research, in order, each fed the artifacts of
      the stages before it, stopping at the first that throws. An upload
      failure does not stop the run. */
  function RunStages(config: BrandConfig, topic: TopicIdea, env: RunEnvironment, providers: StageProviders): Progress
  {
    var script := providers.craftScript(topic);
    if script.Err? then Aborted(Script, script.message)
    else
      var voice := providers.synthesizeVoiceover(script.value);
      if voice.Err? then Aborted(Voice, voice.message)
      else
        var visual := VisualsService.CreateVisualSequence(
          env.stock, VisualsService.SequencePath(env.dataRoot, env.runId), script.value);
        if visual.Err? then Aborted(Visual, visual.message)
        else
          var video := providers.assembleVideo(visual.value, voice.value, script.value);
          if video.Err? then Aborted(Render, video.message)
          else
            var thumbnail := providers.generateThumbnail(video.value, script.value);
            if thumbnail.Err? then Aborted(Thumbnail, thumbnail.message)
            else
              var metadata := MetadataService.BuildUploadMetadata(
                config, topic, script.value, env.dateLabel, env.scheduledAt);
              if metadata.Err? then Aborted(Metadata, metadata.message)
              else
                Finished(
                  Artifacts(topic, script.value, voice.value, visual.value, video.value, thumbnail.value, metadata.value),
                  providers.uploadShort(video.value, thumbnail.value, metadata.value))
  }

  /** Research comes before these stages and an upload failure is caught, so
      neither stage aborts a run. */
  lemma TopicAndUploadNeverAbort(config: BrandConfig, topic: TopicIdea, env: RunEnvironment, providers: StageProviders)
    ensures var p := RunStages(config, topic, env, providers);
      p.Aborted? ==> p.stage != Topic && p.stage != Upload
  {
  }

  /** A visual abort is the generated fallback's own failure, with its message. */
  lemma VisualAbortIsFallbackFailure(config: BrandConfig, topic: TopicIdea, env: RunEnvironment, providers: StageProviders)
    ensures var p := RunStages(config, topic, env, providers);
      p.Aborted? && p.stage == Visual ==> env.stock.generate == Fault(p.message)
  {
  }

  /** A metadata abort comes from spreading a missing or null hashtag or
      keyword list. */
  lemma MetadataAbortIsSpreadFailure(config: BrandConfig, topic: TopicIdea, env: RunEnvironment, providers: StageProviders)
    ensures var p := RunStages(config, topic, env, providers);
      p.Aborted? && p.stage == Metadata ==>
        Spread(config, "hashtags").Err? || Spread(config, "keywords").Err?
  {
  }

  /** A finished run fed each stage the artifacts of the stages before it. */
  lemma FinishedChain(config: BrandConfig, topic: TopicIdea, env: RunEnvironment, providers: StageProviders)
    ensures var p := RunStages(config, topic, env, providers);
      p.Finished? ==>
        var a := p.artifacts;
        && a.topic == topic
        && providers.craftScript(a.topic) == Ok(a.script)
        && providers.synthesizeVoiceover(a.script) == Ok(a.voiceover)
        && VisualsService.CreateVisualSequence(
             env.stock, VisualsService.SequencePath(env.dataRoot, env.runId), a.script) == Ok(a.visual)
        && providers.assembleVideo(a.visual, a.voiceover, a.script) == Ok(a.videoPath)
        && providers.generateThumbnail(a.videoPath, a.script) == Ok(a.thumbnail)
        && MetadataService.BuildUploadMetadata(config, a.topic, a.script, env.dateLabel, env.scheduledAt) == Ok(a.metadata)
        && p.upload == providers.uploadShort(a.videoPath, a.thumbnail, a.metadata)
  {
  }

  /** What the artifacts of a finished run satisfy, whatever the providers do:
      the topic is pooled exactly when research fell back, the visual is the
      run's sequence file with a clamped duration and is stock footage exactly
      when the stock path succeeded, and the metadata has no watch URL yet and
      de-duplicated hashtags. */
  lemma FinishedRunProperties(config: BrandConfig, env: RunEnvironment, providers: StageProviders)
    requires 0.0 <= env.news.random < 1.0
    ensures var p := RunStages(config, Research(config, env), env, providers);
      p.Finished? ==>
        var a := p.artifacts;
        && (a.topic in ResearchService.FallbackTopics <==> ResearchService.FallsBack(env.news))
        && a.visual.path == VisualsService.SequencePath(env.dataRoot, env.runId)
        && VisualsService.MinDurationSeconds <= a.visual.durationSeconds <= VisualsService.MaxDurationSeconds
        && (a.visual.source == Stock <==> VisualsService.StockPathSucceeds(env.stock))
        && a.metadata.watchUrl.None?
        && MetadataService.NoDuplicates(a.metadata.hashtags)
  {
    FinishedChain(config, Research(config, env), env, providers);
  }

  /** Where a stage sits in the pipeline. */
  function Position(stage: Stage): (i: nat)
    ensures i < |Pipeline| && Pipeline[i] == stage
  {
    match stage
    case Topic => 0
    case Script => 1
    case Voice => 2
    case Visual => 3
    case Render => 4
    case Thumbnail => 5
    case Metadata => 6
    case Upload => 7
  }

  /** How many stages a run invokes: up to and including the one that
      throws, or all of them. */
  function Reached(p: Progress): (n: nat)
    ensures 0 < n <= |Pipeline|
    ensures p.Aborted? ==> Pipeline[n - 1] == p.stage
  {
    match p
    case Aborted(stage, _) => Position(stage) + 1
    case Finished(_, _) => |Pipeline|
  }

  /** The `try` block of a run after research: invokes the stages in order,
      feeding each the artifacts before it, and stops at the first that
      throws; the upload's own failure is caught inside and does not stop the
      run. `invoked` counts the stages invoked after research, which are the
      next ones of `Pipeline`. */
  method DriveStages(config: BrandConfig, topic: TopicIdea, env: RunEnvironment, providers: StageProviders)
    returns (progress: Progress, invoked: nat)
    ensures progress == RunStages(config, topic, env, providers)
    ensures invoked + 1 == Reached(progress)
  {
    invoked := 1;
    var script := providers.craftScript(topic);
    if script.Err? {
      return Aborted(Script, script.message), invoked;
    }
    invoked := invoked + 1;
    var voice := providers.synthesizeVoiceover(script.value);
    if voice.Err? {
      return Aborted(Voice, voice.message), invoked;
    }
    invoked := invoked + 1;
    var visual := VisualsService.CreateVisualSequence(
      env.stock, VisualsService.SequencePath(env.dataRoot, env.runId), script.value);
    if visual.Err? {
      return Aborted(Visual, visual.message), invoked;
    }
    invoked := invoked + 1;
    var videoPath := providers.assembleVideo(visual.value, voice.value, script.value);
    if videoPath.Err? {
      return Aborted(Render, videoPath.message), invoked;
    }
    invoked := invoked + 1;
    var thumbnail := providers.generateThumbnail(videoPath.value, script.value);
    if thumbnail.Err? {
      return Aborted(Thumbnail, thumbnail.message), invoked;
    }
    invoked := invoked + 1;
    var metadata := MetadataService.BuildUploadMetadata(config, topic, script.value, env.dateLabel, env.scheduledAt);
    if metadata.Err? {
      return Aborted(Metadata, metadata.message), invoked;
    }
    invoked := invoked + 1;
    var upload := providers.uploadShort(videoPath.value, thumbnail.value, metadata.value);
    progress := Finished(
      Artifacts(topic, script.value, voice.value, visual.value, videoPath.value, thumbnail.value, metadata.value),
      upload);
  }

  // ---------------------------------------------------------------------------
  // executeDailyRun
  // ---------------------------------------------------------------------------

  /** The record of a run whose stages finished: every artifact is kept, and
      the run succeeded exactly when the upload did, whose watch URL is then
      added to the metadata. */
  function FinishedRecord(env: RunEnvironment, a: Artifacts, upload: Result<UploadReceipt>): (r: RunResult)
    ensures r.id == env.runId && r.startedAt == env.startedAt
    ensures r.status == Success <==> upload.Ok?
    ensures r.error.None? <==> upload.Ok?
    ensures r.completedAt == Some(env.completedAt)
    ensures r.topic == Some(a.topic) && r.script == Some(a.script) && r.voiceover == Some(a.voiceover)
    ensures r.visual == Some(a.visual) && r.videoPath == Some(a.videoPath) && r.thumbnail == Some(a.thumbnail)
    ensures upload.Ok? ==> r.upload == Some(a.metadata.(watchUrl := Some(upload.value.watchUrl)))
    ensures upload.Err? ==> r.upload == Some(a.metadata) && r.error == Some(UploadFailedMessage)
  {
    RunResult(env.runId, env.startedAt, Some(env.completedAt),
      if upload.Ok? then Success else Failed,
      Some(a.topic), Some(a.script), Some(a.voiceover), Some(a.visual),
      Some(a.videoPath), Some(a.thumbnail),
      Some(if upload.Ok? then a.metadata.(watchUrl := Some(upload.value.watchUrl)) else a.metadata),
      if upload.Ok? then None else Some(UploadFailedMessage))
  }

  /** The record of a run that threw: no artifacts, only the error, and a
      completion time unless the configuration was missing. */
  function FailedRecord(env: RunEnvironment, completedAt: Option<string>, message: string): (r: RunResult)
    ensures r.id == env.runId && r.startedAt == env.startedAt
    ensures r.status == Failed && r.error == Some(message) && r.completedAt == completedAt
    ensures r.topic.None? && r.script.None? && r.voiceover.None? && r.visual.None?
    ensures r.videoPath.None? && r.thumbnail.None? && r.upload.None?
  {
    RunResult(env.runId, env.startedAt, completedAt, Failed,
      None, None, None, None, None, None, None, Some(message))
  }

  /** One run. `invoked` counts the stages invoked, which are the first ones
      of `Pipeline`. Every path appends exactly one record: a missing configuration is recorded and thrown
      before any stage runs; a fatal stage is recorded without artifacts and
      its error re-thrown; otherwise the record keeps every artifact and is
      returned, successful exactly when the upload succeeded. */
  method ExecuteDailyRun(store: RunStore, configs: ConfigStore, env: RunEnvironment, providers: StageProviders)
    returns (outcome: RunOutcome, invoked: nat)
    requires 0.0 <= env.news.random < 1.0
    modifies store, configs
    ensures store.appends == old(store.appends) + 1
    ensures store.latest.Some? && store.history == Prepended(old(store.history), store.latest.value)
    ensures store.Valid()
    ensures configs.document == if old(configs.document).Absent? then Object(map[]) else old(configs.document)
    ensures ReadConfig(old(configs.document)).None? ==>
      && invoked == 0
      && outcome == Threw(ConfigMissingMessage)
      && store.latest.value == FailedRecord(env, None, ConfigMissingMessage)
    ensures ReadConfig(old(configs.document)).Some? ==>
      var config := ReadConfig(old(configs.document)).value;
      var p := RunStages(config, Research(config, env), env, providers);
      && invoked == Reached(p)
      && (p.Aborted? ==>
            && outcome == Threw(p.message)
            && store.latest.value == FailedRecord(env, Some(env.completedAt), p.message))
      && (p.Finished? ==>
            && outcome == Returned(store.latest.value)
            && store.latest.value == FinishedRecord(env, p.artifacts, p.upload))
  {
    var config := configs.GetBrandConfig();
    var guard := RequireBrandConfig(config);
    if guard.Err? {
      store.AppendRunHistory(FailedRecord(env, None, guard.message));
      return Threw(guard.message), 0;
    }
    var topic := ResearchService.GenerateTopicIdea(env.news, Display(guard.value, "videoStyle"));
    var progress, later := DriveStages(guard.value, topic, env, providers);
    invoked := 1 + later;
    match progress
    case Finished(artifacts, upload) =>
      var result := FinishedRecord(env, artifacts, upload);
      store.AppendRunHistory(result);
      outcome := Returned(result);
    case Aborted(_, message) =>
      // A fatal stage: the record is finalised with the error, which is re-thrown.
      store.AppendRunHistory(FailedRecord(env, Some(env.completedAt), message));
      outcome := Threw(message);
  }
}
