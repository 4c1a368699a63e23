# FutureFlash agent core in Dafny

This project models the core of an autonomous short-video agent. Once a day
the agent picks a trending technology topic, has a script and a voiceover
made, assembles a portrait video with a thumbnail, builds the upload
metadata, publishes the video, and records the run in a bounded history.

The modelled parts are:

- **Run orchestrator** (`agent.dfy`, module `Agent`).
  - It checks that a brand configuration exists, then drives the stages in a
    fixed order, each fed the artifacts of the stages before it.
  - A failing stage is fatal: the run is recorded as failed without artifacts
    and its error is thrown again.
  - An upload failure is absorbed: the run is recorded as failed with every
    artifact and returned.
  - Every run appends exactly one record to the history. The history keeps
    the newest 30 records, newest first, and the latest record separately.
- **Brand configuration store** (`config.dfy`, module `BrandConfigService`).
  - The persisted configuration document is read and written.
  - An upsert merges, key by key, the input over the stored object over the
    defaults.
  - The guard throws a fixed message when there is no configuration.
- **Upload metadata builder** (`metadata.dfy`, module `MetadataService`).
  - The title and the line-structured description, with stage directions
    such as `[pause]` stripped from the hook.
  - Hashtags and keywords are de-duplicated in first-occurrence order.
- **Visual sequence stage** (`visuals.dfy`, module `VisualsService`).
  - It tries stock footage first and falls back to a generated clip.
  - The duration is clamped to 12–18 seconds.
- **Topic research stage** (`research.dfy`, module `ResearchService`).
  - It turns a news search into a topic and falls back to a fixed pool of
    three topics on any failure.

`common.dfy` holds the shared wrappers and the line join/split round trip.
`model.dfy` holds the record types of `src/lib/types.ts`.

The outside world becomes inputs:

- the clock readings, the run UUID and `Math.random()`;
- environment API keys, which are empty when unset;
- the outcome of each HTTP request, download and ffmpeg invocation;
- the providers of the script, voice, video, thumbnail and upload stages.

With those inputs, research, visuals and metadata are total functions.

The orchestrator and the two stores change state, so they are imperative.
`RunStore` and `ConfigStore` are classes whose methods update their fields.
`ExecuteDailyRun` and `DriveStages` are methods proved against the
specification function `RunStages` and the record functions.

Two behaviours worth knowing:

- **Fallback visual failure.** The fallback clip's ffmpeg run
  (`src/lib/services/visuals.service.ts:132`) is outside the `try`, so its
  failure aborts the run at the visual stage.
- **Error strings.** The error texts are the code's strings, such as the
  upload message of `src/lib/pipeline/agent.ts:93` and the guard message of
  `src/lib/services/config.service.ts:34`.

## Model

| member | source | states |
|---|---|---|
| Common.SplitJoin | src/lib/services/metadata.service.ts:25 | lines free of the separator, joined with it, split back into the same lines |
| BrandConfigService.ReadConfig | src/lib/services/config.service.ts:18-24 | a document reads as no configuration exactly when it is missing, `null` or an object with no keys; otherwise it reads as that object |
| BrandConfigService.Override | src/lib/services/config.service.ts:27 | object spread: the union of the keys, with the later object's value winning |
| BrandConfigService.Merge | src/lib/services/config.service.ts:6-27 | the merged keys are the defaults', the stored object's and the input's; each value comes from the input, else the stored object, else the defaults |
| BrandConfigService.RequireBrandConfig | src/lib/services/config.service.ts:32-36 | fails exactly when there is no configuration, with the fixed "Brand configuration missing…" message; otherwise passes the configuration through |
| BrandConfigService.Display | src/lib/services/metadata.service.ts:14 | an interpolated text field is its text, and a missing field prints as `undefined` |
| BrandConfigService.Spread | src/lib/services/metadata.service.ts:26-27 | spreading a field fails exactly when it is missing or `null`; a list spreads to its items |
| BrandConfigService.UpsertedIsPresent | src/lib/services/config.service.ts:26-30 | whatever was stored, the object an upsert writes reads back as present and passes the guard |
| BrandConfigService.UpsertIdempotent | src/lib/services/config.service.ts:26-30 | repeating an upsert with the same input yields the same configuration |
| BrandConfigService.ConfigStore.GetBrandConfig | src/lib/services/config.service.ts:18-24 | returns the stored document's reading; a missing file is created holding `{}`, and nothing else changes |
| BrandConfigService.ConfigStore.UpsertBrandConfig | src/lib/services/config.service.ts:26-30 | returns the merge of the input over the previous reading, persists exactly that object, and it reads back as present |
| MetadataService.Dedup | src/lib/services/metadata.service.ts:26-27 | `[...new Set(xs)]`: the same members as `xs`, no duplicates, no longer than `xs` |
| MetadataService.DedupOrder | src/lib/services/metadata.service.ts:26-27 | members keep the order of their first occurrence in the input |
| MetadataService.DedupOfDistinct | src/lib/services/metadata.service.ts:26-27 | a list without duplicates is left unchanged |
| MetadataService.StripDirections | src/lib/services/metadata.service.ts:16 | removing bracketed directions never lengthens the hook or introduces characters |
| MetadataService.StripKeepsPlainPrefix | src/lib/services/metadata.service.ts:16 | text before the first `[` is kept as it is, and stripping goes on after it |
| MetadataService.StripRemovesDirection | src/lib/services/metadata.service.ts:16 | a `[`, one or more characters other than `]`, and a `]` are deleted whole, and stripping goes on after the `]` |
| MetadataService.StripKeepsEmptyBrackets | src/lib/services/metadata.service.ts:16 | an empty `[]` is not a direction and is kept |
| MetadataService.StripKeepsUnclosedBracket | src/lib/services/metadata.service.ts:16 | a `[` with no `]` after it is kept, and so is everything after it |
| MetadataService.StripIsClean | src/lib/services/metadata.service.ts:16 | after stripping, no `[` is followed by a `]`, so no direction is left |
| MetadataService.StripKeepsClean | src/lib/services/metadata.service.ts:16 | a hook without directions is left unchanged |
| MetadataService.StripIdempotent | src/lib/services/metadata.service.ts:16 | stripping twice equals stripping once |
| MetadataService.BuildUploadMetadata | src/lib/services/metadata.service.ts:5-30 | fails exactly when hashtags or keywords cannot be spread, hashtags first; otherwise the hashtags are the de-duplicated base-then-configured tags, the keywords the de-duplicated configured-then-extra words, with the title, description and schedule as given and no watch URL |
| MetadataService.DescriptionLines | src/lib/services/metadata.service.ts:13-21 | one line per source plus six: the `channel — tagline` header, a blank line, the `Hook:` line with directions stripped, `Sources:`, one bullet per source in order, a blank line and the `#shorts` hashtag line |
| MetadataService.LinesAvoidNewline | src/lib/services/metadata.service.ts:13-21 | no description line holds a newline when the configured header, the hook, the sources and the hashtags hold none |
| MetadataService.DescriptionLayout | src/lib/services/metadata.service.ts:13-25 | the description splits back into one line per source plus six: the first is the `channel — tagline` header, the second is blank, the third is the `Hook:` line with directions stripped, the fourth `Sources:`, then one bullet per source in order, a blank line and the `#shorts` hashtag line |
| MetadataService.MergedConfigMetadata | src/lib/services/metadata.service.ts:26-27 | after an upsert, metadata fails exactly when the winning hashtags or keywords value is `null` |
| VisualsService.ClampDuration | src/lib/services/visuals.service.ts:77 | the duration lies in [12, 18], equals an estimate inside that range, and is the nearer bound outside it |
| VisualsService.FirstTall | src/lib/services/visuals.service.ts:99 | `find(file.height >= 1920)`: the first rendition that tall, or none when no rendition is |
| VisualsService.CandidateIndex | src/lib/services/visuals.service.ts:99-100 | the first tall rendition, else the first rendition; none exactly when there are no renditions |
| VisualsService.CreateVisualSequence | src/lib/services/visuals.service.ts:68-140 | the asset is at the target path, 9:16, with the clamped duration; it is stock exactly when every stock step succeeds and never mixed; the stage fails exactly when the stock path fails and the fallback's ffmpeg run fails, with that message |
| VisualsService.NoKeyMeansGenerated | src/lib/services/visuals.service.ts:79 | without a Pexels key the search, download and transcode outcomes do not matter, and the footage is generated |
| VisualsService.StockFailureFallsBack | src/lib/services/visuals.service.ts:127-139 | a network error or a failed download or transcode falls back to the generated clip |
| ResearchService.FallbackIndex | src/lib/services/research.service.ts:44 | `Math.floor(Math.random() * 3)` is always a valid index into the pool |
| ResearchService.FallbackTopic | src/lib/services/research.service.ts:44 | the fallback is one of the pooled topics |
| ResearchService.Titled | src/lib/services/research.service.ts:62 | keeps exactly the articles with a non-empty title |
| ResearchService.TitledAppend | src/lib/services/research.service.ts:62 | the filter distributes over concatenation, so kept articles keep their order |
| ResearchService.FromArticles | src/lib/services/research.service.ts:68-87 | title and summary from the first article, summary defaulted; one primary and up to three supporting sources in article order, with their default names |
| ResearchService.GenerateTopicIdea | src/lib/services/research.service.ts:35-92 | the topic is pooled exactly when there is no key or no titled article comes back, and is then the random pick; otherwise it is the topic built from the titled articles with the video-style angle, so it carries the first titled article's title |
| ResearchService.AngleIsNotPooled | src/lib/services/research.service.ts:71 | an angle built from the video style differs from every pooled angle |
| ResearchService.NoKeyIgnoresResponse | src/lib/services/research.service.ts:41-45 | without a news key the response does not matter and the topic is pooled |
| Agent.Prepended | src/lib/pipeline/agent.ts:19-25 | the new history starts with the record and continues with the old one, cut to 30 entries |
| Agent.AppendAllWindow | src/lib/pipeline/agent.ts:19-25 | over consecutive runs the history is the newest records, most recent first, then the older history, cut to 30 |
| Agent.RunStore.AppendRunHistory | src/lib/pipeline/agent.ts:19-25 | prepends and truncates the history, sets the latest record, and keeps the history bounded with the latest at its head |
| Agent.TopicAndUploadNeverAbort | src/lib/pipeline/agent.ts:63-77 | neither research nor an upload failure stops a run |
| Agent.VisualAbortIsFallbackFailure | src/lib/pipeline/agent.ts:67 | a visual abort is the fallback ffmpeg run's failure, with its message |
| Agent.MetadataAbortIsSpreadFailure | src/lib/pipeline/agent.ts:70 | a metadata abort comes from a hashtag or keyword field that cannot be spread |
| Agent.FinishedChain | src/lib/pipeline/agent.ts:64-74 | a finished run fed each stage exactly the artifacts of the stages before it |
| Agent.FinishedRunProperties | src/lib/pipeline/agent.ts:63-97 | in a finished run the topic is pooled exactly when research fell back; the visual is the run's sequence file, has a clamped duration, and is stock exactly when the stock path succeeded; the metadata has no watch URL yet and no duplicate hashtags |
| Agent.FinishedRecord | src/lib/pipeline/agent.ts:79-94 | the record of a run that reached the upload keeps the run's id and start time and every artifact; it is successful with the watch URL added to the metadata exactly when the upload succeeded, and otherwise failed with the plain metadata and the upload-failed message |
| Agent.FailedRecord | src/lib/pipeline/agent.ts:38-43 | the record of an aborted run keeps the run's id and start time, is failed with the given message and completion time, and holds no artifact; the same shape is recorded when a stage throws (`src/lib/pipeline/agent.ts:98-100`) |
| Agent.DriveStages | src/lib/pipeline/agent.ts:65-77 | invokes the stages after research in order and stops at the first that throws, agreeing with `RunStages`; the count of stages invoked ends at the stage that threw |
| Agent.ExecuteDailyRun | src/lib/pipeline/agent.ts:27-104 | appends exactly one record; a missing configuration invokes no stage, throws the guard's message and records a failed run without completion time; a fatal stage records a failed run without artifacts and re-throws; otherwise it returns the record with every artifact, successful exactly when the upload was, with the watch URL added or the upload-failed error |

## Left out

- I/O failures of the JSON store are not modelled:
  - reading or writing `config.json`, `runs/history.json` and `runs/latest.json` always succeeds;
  - so the second append made when the append after a finished run throws (`src/lib/pipeline/agent.ts:96-101`) does not occur;
  - nor do unparseable files or a history file holding something other than a list.
- Log writes and directory creation (`ensureDir`) are assumed never to fail. Where one would fail:
  - Agent.TopicAndUploadNeverAbort: the logger call of `src/lib/services/research.service.ts:43` is outside the `try`, so a failed log write makes the topic stage throw; so does a failed log write in the upload's `catch` (`src/lib/pipeline/agent.ts:76`);
  - Agent.VisualAbortIsFallbackFailure: the `ensureDir` of `src/lib/services/visuals.service.ts:73` and the logger calls of lines 128 and 133 are outside the `try`, so the visual stage can also throw for those reasons;
  - VisualsService.CreateVisualSequence: the logger call of `src/lib/services/visuals.service.ts:119` is inside the `try`, so a failed log write after a successful transcode falls back to the generated clip;
  - Agent.ExecuteDailyRun: the `ensureDir` of `src/lib/pipeline/agent.ts:32` can throw before any record is appended.
- Concurrency and `async` interleaving are not modelled: a run is one sequential step.
- The script, voice, video, thumbnail and YouTube services are not part of this model.
  - They are stage providers, each yielding an artifact or an error message.
  - They see the artifacts but not the runtime context.
- The API request construction (query strings, headers, the revalidation hint) is not modelled: only the outcome of each request enters the model.
- JSON values other than text, lists of text and `null` are not modelled in the configuration.
- Numbers are mathematical reals and integers: floating point, NaN and infinities are not modelled.
  - `Math.random()` is a real in [0, 1).
- Date formatting is not modelled: the date label, the schedule time and the timestamps are inputs.
- The exact TypeError wording of spreading a non-iterable field is the model's own text; only the fact that it throws follows the code.
- Run-history getters, the HTTP routes, the dashboard and the CLI script are not part of this model.
- Agent.TopicAndUploadNeverAbort holds for any topic handed to the later stages, because research comes before them and never throws; that a run researches its topic with `GenerateTopicIdea` is stated by `Agent.ExecuteDailyRun`.
