/** The unified, category-typed model records every provider client produces
    (src/lib/types/models.ts). JavaScript numbers become `int` where the source
    only ever stores whole counts and `real` elsewhere; optional fields and
    fields that may hold `undefined` become `Option`. */
module Models {
  import opened Wrappers

  /** A text-generation model; prices are per million tokens. */
  datatype TextModel = TextModel(
    id: string,
    name: string,
    provider: string,
    description: string,
    prompt: real,
    completion: real,
    contextLength: int,
    tags: seq<string>,
    popularity: int,
    updatedAt: string,
    capabilities: seq<string>)

  /** An image-generation model. `perImage` is declared a number in the source
      but is assigned a possibly-undefined price, so it is an `Option` here. */
  datatype ImageModel = ImageModel(
    id: string,
    name: string,
    provider: string,
    description: string,
    perImage: Option<real>,
    perSecond: Option<real>,
    supportedSizes: seq<string>,
    style: seq<string>,
    qualityScore: Option<real>,
    speedScore: Option<real>,
    maxResolution: Option<string>,
    supportsInpainting: Option<bool>,
    supportsOutpainting: Option<bool>,
    supportsControlNet: Option<bool>,
    runCount: Option<int>,
    tags: seq<string>,
    popularity: int,
    updatedAt: string)

  /** A video-generation model (same remark on `perSecond`). */
  datatype VideoModel = VideoModel(
    id: string,
    name: string,
    provider: string,
    description: string,
    perSecond: Option<real>,
    maxDuration: int,
    resolution: seq<string>,
    qualityScore: Option<real>,
    motionScore: Option<real>,
    fps: Option<int>,
    supportsAudio: Option<bool>,
    supportsTextToVideo: Option<bool>,
    supportsImageToVideo: Option<bool>,
    runCount: Option<int>,
    tags: seq<string>,
    popularity: int,
    updatedAt: string)

  /** The closed set of audio model types. */
  datatype AudioType = Tts | Stt | Music {
    /** The string stored in the catalog's `audioType` column. */
    function Label(): string {
      match this
      case Tts => "tts"
      case Stt => "stt"
      case Music => "music"
    }
  }

  /** A speech model: speech recognition priced per minute, speech synthesis per character. */
  datatype AudioModel = AudioModel(
    id: string,
    name: string,
    provider: string,
    description: string,
    perMinute: Option<real>,
    perCharacter: Option<real>,
    audioType: AudioType,
    languages: seq<string>,
    qualityScore: Option<real>,
    naturalness: Option<real>,
    accuracy: Option<real>,
    voiceCloning: Option<bool>,
    realtime: Option<bool>,
    emotionControl: Option<bool>,
    runCount: Option<int>,
    tags: seq<string>,
    popularity: int,
    updatedAt: string)

  /** Curated benchmark results of a text model; every score is optional. */
  datatype BenchmarkData = BenchmarkData(
    mmlu: Option<real>,
    gpqa: Option<real>,
    humanEval: Option<real>,
    sweBench: Option<real>,
    liveCodeBench: Option<real>,
    math: Option<real>,
    speed: Option<real>,
    latency: Option<real>,
    arenaElo: Option<real>)
}
