/** The data model shared by the client: closed enums and records with optional fields (src/types.ts). */
module Types {
  import opened Wrappers

  datatype VocalRangeMode = Male | Female | AnyGender

  /** The option value sent on the wire for a vocal range mode. */
  function VocalRangeModeText(m: VocalRangeMode): string {
    match m
    case Male => "male"
    case Female => "female"
    case AnyGender => "any"
  }

  datatype SignalQuality = Good | Ok | Bad

  datatype VoiceProfile = VoiceProfile(brightness: real, husky: real, softness: real)

  datatype InputInfo = InputInfo(durationSec: real, signalQuality: SignalQuality, note: string)

  datatype Filters = Filters(vocalRangeMode: VocalRangeMode, allowCrossGender: bool)

  /** Per-platform search links; every entry is optional. */
  datatype PlatformLinks = PlatformLinks(youtube: Option<string>, melon: Option<string>, spotify: Option<string>)

  /** One recommended song. URLs and the platform bundle are optional fields. */
  datatype Recommendation = Recommendation(
    rank: int,
    title: string,
    artist: string,
    score: real,
    matchPercent: int,
    reasons: seq<string>,
    tags: seq<string>,
    difficulty: int,
    rangeLevel: int,
    externalUrl: Option<string>,
    coverUrl: Option<string>,
    previewUrl: Option<string>,
    platformUrls: Option<PlatformLinks>)

  datatype AnalyzeResponse = AnalyzeResponse(
    profile: VoiceProfile,
    summary: string,
    confidence: real,
    inputInfo: InputInfo,
    filters: Filters,
    recommendations: seq<Recommendation>)

  /** A browser `File`: name, declared MIME type and byte size; the content is not modelled. */
  datatype AudioFile = AudioFile(name: string, mimeType: string, size: nat)

  /** A browser `Blob`: declared MIME type and byte size. */
  datatype Blob = Blob(mimeType: string, size: nat)

  /** Parameters of an analysis request; absent options take their defaults at the request. */
  datatype AnalyzeVoiceParams = AnalyzeVoiceParams(
    file: AudioFile,
    vocalRangeMode: Option<VocalRangeMode>,
    allowCrossGender: Option<bool>,
    mock: Option<bool>)

  datatype ErrorDetail = ErrorDetail(code: Option<string>, message: Option<string>, hint: Option<string>)

  /** The server's JSON error body: `{ error?: { code?, message?, hint? } }`. */
  datatype ApiErrorEnvelope = ApiErrorEnvelope(error: Option<ErrorDetail>)

  /** JavaScript truthiness of an optional string: present and non-empty. */
  predicate Truthy(o: Option<string>) {
    o.Some? && |o.value| > 0
  }

  /** What `throw` carried: an `Error` object with its message, or any other value. */
  datatype Thrown = ErrorObject(message: string) | NonErrorValue

  /** What `fetch` produced: a reply with a status and the body read under each expected shape,
      or a thrown value. `success` is the body read as an analysis result (a parse failure carries
      the `SyntaxError` message); `errorBody` is the body read as an error object (`None` when
      it does not parse). Which reading the client uses depends on the status. */
  datatype HttpReply<E> =
    | Replied(status: nat, success: Result<AnalyzeResponse, string>, errorBody: Option<E>)
    | Threw(thrown: Thrown)

  /** `response.ok`: a status in the range 200-299. */
  predicate IsOkStatus(status: nat) {
    200 <= status <= 299
  }

  datatype AnalysisSource = Api | Mock

  datatype AnalysisRecord = AnalysisRecord(id: string, createdAt: string, source: AnalysisSource, result: AnalyzeResponse)

  datatype CreditEventType = Charge | Use

  datatype CreditEvent = CreditEvent(id: string, createdAt: string, kind: CreditEventType, amount: int, note: string)

  datatype PrecisionPlan = Free | Plus | Pro

  datatype PrecisionStatus = Requested | Completed

  datatype PrecisionEvent = PrecisionEvent(id: string, createdAt: string, plan: PrecisionPlan, usedCredit: int, status: PrecisionStatus)

  /** A level filter: 'all' or one of the strings '1'..'5'. */
  datatype LevelFilter = AllLevels | L1 | L2 | L3 | L4 | L5 {

    /** `Number(filter)` for the five digit strings. */
    function Number(): (n: int)
      requires !AllLevels?
      ensures 1 <= n <= 5
    {
      match this
      case L1 => 1
      case L2 => 2
      case L3 => 3
      case L4 => 4
      case L5 => 5
    }
  }

  datatype RecommendationFilter = RecommendationFilter(
    genreTag: string,
    moodTag: string,
    difficulty: LevelFilter,
    rangeLevel: LevelFilter)

  /** The five level strings denote five distinct numbers. */
  lemma LevelNumberInjective(a: LevelFilter, b: LevelFilter)
    requires !a.AllLevels? && !b.AllLevels?
    ensures a.Number() == b.Number() <==> a == b
  {
  }
}
