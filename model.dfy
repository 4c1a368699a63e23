/** The records that the pipeline's stages produce and that a run result
    collects (src/lib/types.ts). Every artifact is an immutable value. */
module Model {
  import opened Common

  /** A cited article: a display title and a link. */
  datatype Source = Source(title: string, url: string)

  datatype TopicIdea = TopicIdea(title: string, summary: string, angle: string, sources: seq<Source>)

  datatype ScriptDraft = ScriptDraft(
    hook: string,
    body: string,
    outro: string,
    fullScript: string,
    estimatedDurationSeconds: real)

  datatype AudioFormat = Mp3 | Wav

  datatype VoiceoverAsset = VoiceoverAsset(path: string, format: AudioFormat, durationSeconds: real)

  /** Provenance of the background footage. */
  datatype VisualSource = Generated | Stock | Mixed

  datatype VisualAsset = VisualAsset(
    path: string,
    aspectRatio: string,
    durationSeconds: real,
    source: VisualSource)

  datatype ThumbnailAsset = ThumbnailAsset(path: string)

  datatype UploadMetadata = UploadMetadata(
    title: string,
    description: string,
    hashtags: seq<string>,
    keywords: seq<string>,
    scheduledAt: string,
    watchUrl: Option<string>)

  datatype Status = Success | Failed

  /** One execution of the pipeline, as recorded in the run history. */
  datatype RunResult = RunResult(
    id: string,
    startedAt: string,
    completedAt: Option<string>,
    status: Status,
    topic: Option<TopicIdea>,
    script: Option<ScriptDraft>,
    voiceover: Option<VoiceoverAsset>,
    visual: Option<VisualAsset>,
    videoPath: Option<string>,
    thumbnail: Option<ThumbnailAsset>,
    upload: Option<UploadMetadata>,
    error: Option<string>)
}
