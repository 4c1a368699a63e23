/** The brand configuration store (src/lib/services/config.service.ts).
    The configuration is the JSON object persisted in `config.json`, seen as a
    map from field names to JSON values; the store keeps that document and
    `getBrandConfig` / `upsertBrandConfig` read and overwrite it. */
module BrandConfigService {
  import opened Common

  /** The JSON values a configuration field holds: text, a list of texts, or `null`. */
  datatype Value = Text(text: string) | List(items: seq<string>) | Null

  /** A configuration object: its own keys and their values. */
  type BrandConfig = map<string, Value>

  /** What the config file holds: no file yet, a JSON `null`, or an object. */
  datatype ConfigDocument = Absent | NullDocument | Object(fields: BrandConfig)

  const ConfigMissingMessage: string :=
    "Brand configuration missing. Please set brand color, tone, and video style once."

  /** The defaults every upsert starts from. */
  const DefaultConfig: BrandConfig := map[
    "brandColor" := Text("#12F7FF"),
    "accentColor" := Text("#FF2E63"),
    "tone" := Text("hype"),
    "videoStyle" := Text("cyberpunk"),
    "voiceProfile" := Text("openai_alloy"),
    "channelName" := Text("FutureFlash AI"),
    "tagline" := Text("Daily neural jolts about tomorrow."),
    "hashtags" := List(["#AIShorts", "#FutureTech", "#Robotics", "#QuantumLeap"]),
    "keywords" := List(["AI", "technology", "future", "robotics", "innovation"])
  ]

  /** The value `getBrandConfig` yields for a stored document: the object, or
      null when there is none or it has no keys. */
  function ReadConfig(doc: ConfigDocument): (r: Option<BrandConfig>)
    ensures r.None? <==> doc.Absent? || doc.NullDocument? || (doc.Object? && |doc.fields| == 0)
    ensures r.Some? ==> doc == Object(r.value) && |r.value| > 0
  {
    match doc
    case Object(fields) => if |fields| == 0 then None else Some(fields)
    case _ => None
  }

  /** Object spread `{ ...base, ...top }`: every key of either, the top one winning. */
  function Override(base: BrandConfig, top: BrandConfig): (r: BrandConfig)
    ensures r.Keys == base.Keys + top.Keys
    ensures forall k :: k in top ==> r[k] == top[k]
    ensures forall k :: k in base && k !in top ==> r[k] == base[k]
  {
    base + top
  }

  /** The merge of `upsertBrandConfig`: defaults, then the stored object
      (spreading `null` adds nothing), then the input. */
  function Merge(stored: Option<BrandConfig>, input: BrandConfig): (r: BrandConfig)
    ensures r.Keys == DefaultConfig.Keys + stored.GetOr(map[]).Keys + input.Keys
    ensures forall k :: k in input ==> r[k] == input[k]
    ensures forall k :: k !in input && stored.Some? && k in stored.value ==> r[k] == stored.value[k]
    ensures forall k :: k !in input && (stored.None? || k !in stored.value) && k in DefaultConfig ==>
      r[k] == DefaultConfig[k]
  {
    Override(Override(DefaultConfig, stored.GetOr(map[])), input)
  }

  /** The guard run at the top of every run: it throws, with one fixed message,
      exactly when there is no configuration. */
  function RequireBrandConfig(config: Option<BrandConfig>): (r: Result<BrandConfig>)
    ensures r.Err? <==> config.None?
    ensures r.Err? ==> r.message == ConfigMissingMessage
    ensures r.Ok? ==> config == Some(r.value)
  {
    match config
    case None => Err(ConfigMissingMessage)
    case Some(c) => Ok(c)
  }

  /** A field interpolated into a template literal: text as is, a list joined
      with commas, and `null` / `undefined` spelled out. */
  function Display(config: BrandConfig, key: string): (r: string)
    ensures key in config && config[key].Text? ==> r == config[key].text
    ensures key !in config ==> r == "undefined"
  {
    if key !in config then "undefined"
    else match config[key]
      case Text(s) => s
      case List(items) => Join(items, ",")
      case Null => "null"
  }

  /** A field spread into an array (`[...config.key]`): a list gives its items,
      a text its characters, and `null` or a missing field throws a TypeError. */
  function Spread(config: BrandConfig, key: string): (r: Result<seq<string>>)
    ensures r.Ok? <==> key in config && !config[key].Null?
    ensures key in config && config[key].List? ==> r == Ok(config[key].items)
  {
    if key !in config then Err("config." + key + " is not iterable")
    else match config[key]
      case Text(s) => Ok(Chars(s))
      case List(items) => Ok(items)
      case Null => Err("config." + key + " is not iterable")
  }

  /** The configuration written by any upsert is read back as present. */
  lemma {:induction false} UpsertedIsPresent(stored: Option<BrandConfig>, input: BrandConfig)
    ensures ReadConfig(Object(Merge(stored, input))) == Some(Merge(stored, input))
    ensures RequireBrandConfig(ReadConfig(Object(Merge(stored, input)))).Ok?
  {
    var merged := Merge(stored, input);
    assert "brandColor" in merged.Keys;
    assert |merged| > 0;
  }

  /** Upserting the same input again changes nothing: the stored object
      already holds every default key and the input's values. */
  lemma UpsertIdempotent(stored: Option<BrandConfig>, input: BrandConfig)
    ensures Merge(Some(Merge(stored, input)), input) == Merge(stored, input)
  {
  }

  /** The persisted configuration document. */
  class ConfigStore {
    var document: ConfigDocument

    constructor (initial: ConfigDocument)
      ensures document == initial
    {
      document := initial;
    }

    /** Reads the document; a missing file is created holding `{}` first. */
    method GetBrandConfig() returns (config: Option<BrandConfig>)
      modifies this
      ensures config == ReadConfig(old(document))
      ensures document == if old(document).Absent? then Object(map[]) else old(document)
    {
      if document.Absent? {
        document := Object(map[]);
      }
      var raw := document;
      if raw.NullDocument? || (raw.Object? && |raw.fields| == 0) {
        return None;
      }
      config := Some(raw.fields);
    }

    /** Merges the input over the stored object and the defaults, persists
        the result and returns it. */
    method UpsertBrandConfig(input: BrandConfig) returns (merged: BrandConfig)
      modifies this
      ensures merged == Merge(ReadConfig(old(document)), input)
      ensures document == Object(merged)
      ensures ReadConfig(document) == Some(merged)
    {
      var stored := GetBrandConfig();
      merged := Override(Override(DefaultConfig, stored.GetOr(map[])), input);
      document := Object(merged);
      UpsertedIsPresent(stored, input);
    }
  }
}
