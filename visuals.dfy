/** The visual stage's decision logic (src/lib/services/visuals.service.ts).
    The stage tries stock footage from the Pexels search first and falls back
    to a procedurally generated clip. The outcomes of the search request, the
    download, and the two ffmpeg invocations are inputs, so what remains is a
    total function from those outcomes to the stage's result. */
module VisualsService {
  import opened Common
  import opened Model

  const MinDurationSeconds: real := 12.0
  const MaxDurationSeconds: real := 18.0
  const PortraitHeight: int := 1920
  const PortraitAspectRatio: string := "9:16"

  /** One rendition of a stock video; an empty `link` stands for a missing,
      null or empty one (all falsy). */
  datatype VideoFile = VideoFile(link: string, height: int)

  datatype StockVideo = StockVideo(files: Option<seq<VideoFile>>)

  /** The parsed search response: `videos` may be missing. */
  datatype StockPayload = StockPayload(videos: Option<seq<StockVideo>>)

  /** What the outside world does during one visual stage. */
  datatype StockWorld = StockWorld(
    apiKey: string,                     // PEXELS_API_KEY; empty when unset or empty
    search: FetchResult<StockPayload>,  // the search request
    download: Step,                     // fetching the chosen file and writing it to disk
    transcode: Step,                    // ffmpeg scaling and trimming the stock clip
    generate: Step)                     // ffmpeg rendering the procedural fallback

  /** Where both paths write the sequence: `<data>/runs/<runId>/visuals/sequence.mp4`. */
  function SequencePath(dataRoot: string, runId: string): string {
    dataRoot + "/runs/" + runId + "/visuals/sequence.mp4"
  }

  /** `Math.max(12, Math.min(18, estimate))`. */
  function ClampDuration(estimate: real): (d: real)
    ensures MinDurationSeconds <= d <= MaxDurationSeconds
    ensures MinDurationSeconds <= estimate <= MaxDurationSeconds ==> d == estimate
    ensures estimate < MinDurationSeconds ==> d == MinDurationSeconds
    ensures estimate > MaxDurationSeconds ==> d == MaxDurationSeconds
  {
    var capped := if estimate <= MaxDurationSeconds then estimate else MaxDurationSeconds;
    if capped >= MinDurationSeconds then capped else MinDurationSeconds
  }

  /** The renditions of the first video, or none when `videos`, the first
      video or its `video_files` is missing. */
  function FirstVideoFiles(payload: StockPayload): seq<VideoFile> {
    match payload.videos
    case None => []
    case Some(videos) =>
      if |videos| == 0 then [] else videos[0].files.GetOr([])
  }

  /** `files.find(file => file.height >= 1920)`, as an index. */
  function FirstTall(files: seq<VideoFile>): (r: Option<nat>)
    ensures r.Some? ==> r.value < |files| && files[r.value].height >= PortraitHeight
    ensures r.Some? ==> forall k :: 0 <= k < r.value ==> files[k].height < PortraitHeight
    ensures r.None? ==> forall k :: 0 <= k < |files| ==> files[k].height < PortraitHeight
  {
    if |files| == 0 then None
    else if files[0].height >= PortraitHeight then Some(0)
    else
      match FirstTall(files[1..])
      case None => None
      case Some(i) => Some(i + 1)
  }

  /** The candidate rendition: the first one at least 1920 pixels high, or else
      the first one; none only when there are no renditions. */
  function CandidateIndex(files: seq<VideoFile>): (r: Option<nat>)
    ensures r.Some? <==> |files| > 0
    ensures r.Some? ==> r.value < |files|
    ensures r.Some? && files[r.value].height >= PortraitHeight ==>
      forall k :: 0 <= k < r.value ==> files[k].height < PortraitHeight
    ensures r.Some? && files[r.value].height < PortraitHeight ==>
      r.value == 0 && forall k :: 0 <= k < |files| ==> files[k].height < PortraitHeight
  {
    var tall := FirstTall(files);
    if tall.Some? then tall
    else if |files| > 0 then Some(0)
    else None
  }

  /** Every step of the stock path succeeds: there is a key, the search
      responds ok with a parseable body, a candidate with a link exists, and
      both the download and the transcode complete. Any other outcome is
      caught (or falls through) to the generated path. */
  predicate StockPathSucceeds(world: StockWorld) {
    && world.apiKey != ""
    && world.search.Response?
    && world.search.ok
    && world.search.body.Some?
    && var files := FirstVideoFiles(world.search.body.value);
       var candidate := CandidateIndex(files);
       && candidate.Some?
       && files[candidate.value].link != ""
       && world.download.Done?
       && world.transcode.Done?
  }

  /** `createVisualSequence`: stock footage when the stock path succeeds,
      otherwise the generated clip; only a failure of the fallback's own
      ffmpeg run escapes, as the stage's error. */
  function CreateVisualSequence(world: StockWorld, targetPath: string, script: ScriptDraft)
    : (r: Result<VisualAsset>)
    ensures r.Ok? ==>
      && r.value.path == targetPath
      && r.value.aspectRatio == PortraitAspectRatio
      && r.value.durationSeconds == ClampDuration(script.estimatedDurationSeconds)
      && MinDurationSeconds <= r.value.durationSeconds <= MaxDurationSeconds
    ensures r.Ok? ==> (r.value.source == Stock <==> StockPathSucceeds(world))
    ensures r.Ok? ==> r.value.source != Mixed
    ensures r.Err? <==> !StockPathSucceeds(world) && world.generate.Fault?
    ensures r.Err? ==> r.message == world.generate.message
  {
    var duration := ClampDuration(script.estimatedDurationSeconds);
    if StockPathSucceeds(world) then
      Ok(VisualAsset(targetPath, PortraitAspectRatio, duration, Stock))
    else
      match world.generate
      case Fault(message) => Err(message)
      case Done => Ok(VisualAsset(targetPath, PortraitAspectRatio, duration, Generated))
  }

  /** Without an API key nothing of the stock path matters: the outcomes of the
      search, download and transcode steps cannot change the result, and a
      successful result is generated footage. */
  lemma NoKeyMeansGenerated(world: StockWorld, other: StockWorld, targetPath: string, script: ScriptDraft)
    requires world.apiKey == "" && other.apiKey == "" && other.generate == world.generate
    ensures CreateVisualSequence(world, targetPath, script) == CreateVisualSequence(other, targetPath, script)
    ensures CreateVisualSequence(world, targetPath, script).Ok? ==>
      CreateVisualSequence(world, targetPath, script).value.source == Generated
  {
  }

  /** When a usable candidate exists but the download or transcode throws,
      the stage still produces the generated clip unless the fallback itself
      fails. */
  lemma StockFailureFallsBack(world: StockWorld, targetPath: string, script: ScriptDraft)
    requires world.download.Fault? || world.transcode.Fault? || world.search.NetworkError?
    requires world.generate.Done?
    ensures CreateVisualSequence(world, targetPath, script) ==
      Ok(VisualAsset(targetPath, PortraitAspectRatio, ClampDuration(script.estimatedDurationSeconds), Generated))
  {
  }
}
