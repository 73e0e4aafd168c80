/** The analysis service client: the user-facing error text built from the server's error body,
    the typed API error built from a failed response, the multipart fields of a request, and the
    mapping of a transport outcome to a result or a thrown error. */
module Voicefit {
  import opened Wrappers
  import opened Types
  import opened Text

  /** The text used when nothing at all is known about an error. */
  const GenericMessage: string := "요청 처리 중 오류가 발생했습니다. 잠시 후 다시 시도해주세요."
  /** The last link of the base-text chain. */
  const BaseFallbackMessage: string := "요청 처리 중 오류가 발생했습니다."
  const NetworkFailureMessage: string := "네트워크 오류로 분석 요청에 실패했습니다."

  /** The user-facing text for each server error code the client knows. */
  const MessageByCode: map<string, string> := map[
    "UNSUPPORTED_FORMAT" := "지원하지 않는 파일 확장자입니다.",
    "FILE_TOO_LARGE" := "업로드 파일 용량이 제한을 초과했습니다.",
    "EMPTY_FILE" := "빈 파일은 업로드할 수 없습니다.",
    "INVALID_WAV" := "WAV 헤더 또는 메타데이터가 올바르지 않습니다.",
    "UNSUPPORTED_WAV_ENCODING" := "지원하지 않는 WAV 샘플 포맷입니다.",
    "AUDIO_DECODE_ERROR" := "오디오 디코딩에 실패했습니다.",
    "INVALID_AUDIO_SIGNAL" := "오디오 신호값이 비정상입니다.",
    "AUDIO_TOO_SHORT" := "오디오 길이가 너무 짧습니다. 3초 이상으로 다시 시도해주세요.",
    "SILENT_AUDIO" := "거의 무음에 가까운 오디오입니다. 다시 녹음해주세요.",
    "NON_VOCAL_INPUT" := "음성으로 판단하기 어려운 입력입니다.",
    "INVALID_BOOLEAN" := "옵션 값 형식이 올바르지 않습니다.",
    "INVALID_VOCAL_RANGE_MODE" := "보컬 성별 옵션 값이 올바르지 않습니다.",
    "INVALID_AUDIO" := "오디오 파일 형식 또는 내용이 올바르지 않습니다.",
    "EMPTY_AUDIO" := "무음이거나 너무 짧은 오디오입니다. 3초 이상 녹음해 주세요.",
    "UNSUPPORTED_MEDIA_TYPE" := "지원하지 않는 오디오 형식입니다. 다른 파일 형식을 시도해 주세요.",
    "ANALYSIS_FAILED" := "음성 분석에 실패했습니다. 잠시 후 다시 시도해 주세요."
  ]

  /** Every table entry is a non-empty text, so a known code always decides the base text. */
  lemma TableTextsNonEmpty()
    ensures forall c :: c in MessageByCode ==> |MessageByCode[c]| > 0
  {
  }

  /** Optional chaining into the envelope: `payload?.error?.<field>`. */
  function Code(payload: Option<ApiErrorEnvelope>): Option<string> {
    if payload.Some? && payload.value.error.Some? then payload.value.error.value.code else None
  }

  function EnvelopeMessage(payload: Option<ApiErrorEnvelope>): Option<string> {
    if payload.Some? && payload.value.error.Some? then payload.value.error.value.message else None
  }

  function Hint(payload: Option<ApiErrorEnvelope>): Option<string> {
    if payload.Some? && payload.value.error.Some? then payload.value.error.value.hint else None
  }

  /** The first truthy link of the chain code-table, envelope message, fallback, fixed text. */
  function BaseText(payload: Option<ApiErrorEnvelope>, fallback: Option<string>): string {
    var code := Code(payload);
    var message := EnvelopeMessage(payload);
    if Truthy(code) && code.value in MessageByCode then MessageByCode[code.value]
    else if Truthy(message) then message.value
    else if Truthy(fallback) then fallback.value
    else BaseFallbackMessage
  }

  /** `toUserFriendlyErrorMessage`. With no code, message or hint the fallback (even an empty one)
      or the generic text; otherwise the base text with a non-empty hint appended in parentheses. */
  function ToUserFriendlyErrorMessage(payload: Option<ApiErrorEnvelope>, fallback: Option<string>): string {
    if !Truthy(Code(payload)) && !Truthy(EnvelopeMessage(payload)) && !Truthy(Hint(payload)) then
      fallback.GetOr(GenericMessage)
    else
      var base := BaseText(payload, fallback);
      if Truthy(Hint(payload)) then base + " (" + Hint(payload).value + ")" else base
  }

  predicate NothingKnown(payload: Option<ApiErrorEnvelope>) {
    !Truthy(Code(payload)) && !Truthy(EnvelopeMessage(payload)) && !Truthy(Hint(payload))
  }

  /** With no code, message or hint the result is the fallback when one is given, else the
      generic text. */
  lemma EmptyPayloadGivesFallback(payload: Option<ApiErrorEnvelope>, fallback: Option<string>)
    requires NothingKnown(payload)
    ensures fallback.Some? ==> ToUserFriendlyErrorMessage(payload, fallback) == fallback.value
    ensures fallback.None? ==> ToUserFriendlyErrorMessage(payload, fallback) == GenericMessage
  {
  }

  /** A code in the table decides the text, whatever message the envelope carries; a hint is
      appended to it. */
  lemma KnownCodeGivesTableText(payload: Option<ApiErrorEnvelope>, fallback: Option<string>)
    requires Truthy(Code(payload)) && Code(payload).value in MessageByCode
    ensures var text := MessageByCode[Code(payload).value];
      ToUserFriendlyErrorMessage(payload, fallback) ==
        if Truthy(Hint(payload)) then text + " (" + Hint(payload).value + ")" else text
  {
  }

  /** An absent or unknown code falls back to the envelope message, then the fallback, then the
      short fixed text, each taken only when non-empty. */
  lemma UnknownCodeChain(payload: Option<ApiErrorEnvelope>, fallback: Option<string>)
    requires !NothingKnown(payload)
    requires !Truthy(Code(payload)) || Code(payload).value !in MessageByCode
    requires !Truthy(Hint(payload))
    ensures Truthy(EnvelopeMessage(payload)) ==>
      ToUserFriendlyErrorMessage(payload, fallback) == EnvelopeMessage(payload).value
    ensures !Truthy(EnvelopeMessage(payload)) && Truthy(fallback) ==>
      ToUserFriendlyErrorMessage(payload, fallback) == fallback.value
    ensures !Truthy(EnvelopeMessage(payload)) && !Truthy(fallback) ==>
      ToUserFriendlyErrorMessage(payload, fallback) == BaseFallbackMessage
  {
  }

  /** The hint suffix: a non-empty hint is appended as ` (hint)` to the base text and can be read
      back off the end; an empty or absent one leaves the base text as it is. */
  lemma HintSuffix(payload: Option<ApiErrorEnvelope>, fallback: Option<string>)
    requires !NothingKnown(payload)
    ensures var r := ToUserFriendlyErrorMessage(payload, fallback);
      var base := BaseText(payload, fallback);
      if Truthy(Hint(payload)) then
        var h := Hint(payload).value;
        && |r| == |base| + |h| + 3
        && r[..|base|] == base
        && r[|base|..|base| + 2] == " ("
        && r[|base| + 2..|r| - 1] == h
        && r[|r| - 1] == ')'
      else r == base
  {
  }

  /** The text is never empty, except when nothing is known and the caller passed an empty
      fallback. */
  lemma MessageNonEmpty(payload: Option<ApiErrorEnvelope>, fallback: Option<string>)
    requires !(NothingKnown(payload) && fallback == Some(""))
    ensures |ToUserFriendlyErrorMessage(payload, fallback)| > 0
  {
  }

  // ---------------------------------------------------------------------------
  // Errors of a request
  // ---------------------------------------------------------------------------

  /** What a failed request throws: a `VoicefitApiError` with its optional code, hint and status,
      another `Error` with its message, or a non-`Error` value. */
  datatype Failure =
    | ApiError(message: string, code: Option<string>, hint: Option<string>, status: Option<nat>)
    | PlainError(message: string)
    | NonError
  {
    predicate IsError() {
      !NonError?
    }
  }

  function StatusMessage(status: nat): string {
    "서버 오류(" + Decimal(status) + ")가 발생했습니다."
  }

  /** `parseError`: an error body that parses gives the friendly text (with the status text as
      fallback) and the body's code and hint; one that does not gives the status text alone.
      Either way the status is carried. */
  function ParseError(status: nat, body: Option<ApiErrorEnvelope>): (e: Failure)
    ensures e.ApiError? && e.status == Some(status)
  {
    var fallbackMessage := StatusMessage(status);
    match body
    case Some(json) =>
      ApiError(ToUserFriendlyErrorMessage(body, Some(fallbackMessage)),
               if json.error.Some? then json.error.value.code else None,
               if json.error.Some? then json.error.value.hint else None,
               Some(status))
    case None => ApiError(fallbackMessage, None, None, Some(status))
  }

  /** An unparsable body: the message names the status, which can be read back from it. */
  lemma ParseErrorUnparsable(status: nat)
    ensures var e := ParseError(status, None);
      && e == ApiError(StatusMessage(status), None, None, Some(status))
      && var prefix := "서버 오류(";
         var digits := e.message[|prefix|..|e.message| - |")가 발생했습니다."|];
         AllDigits(digits) && ParseDecimal(digits) == status
  {
    var prefix := "서버 오류(";
    var suffix := ")가 발생했습니다.";
    var m := StatusMessage(status);
    assert m[|prefix|..|m| - |suffix|] == Decimal(status);
    ParseDecimalOfDecimal(status);
  }

  /** A parsed body: the body's code and hint and the response status are carried; the message is
      the friendly text, falling back to the status text. */
  lemma ParseErrorParsed(status: nat, json: ApiErrorEnvelope)
    ensures var e := ParseError(status, Some(json));
      && e.code == Code(Some(json)) && e.hint == Hint(Some(json)) && e.status == Some(status)
      && e.message == ToUserFriendlyErrorMessage(Some(json), Some(StatusMessage(status)))
      && (NothingKnown(Some(json)) ==> e.message == StatusMessage(status))
  {
  }

  // ---------------------------------------------------------------------------
  // The request
  // ---------------------------------------------------------------------------

  datatype FieldValue = FileValue(file: AudioFile) | TextValue(text: string)

  datatype Field = Field(name: string, value: FieldValue)

  function BoolText(b: bool): string {
    if b then "true" else "false"
  }

  /** The multipart fields in order: the file, then the options, each defaulted when absent
      (`any`, `false`, `false`), the booleans written as `String(b)`. */
  function FormFields(p: AnalyzeVoiceParams): (fields: seq<Field>)
    ensures |fields| == 4
    ensures fields[0].name == "file" && fields[1].name == "vocal_range_mode"
    ensures fields[2].name == "allow_cross_gender" && fields[3].name == "mock"
  {
    [ Field("file", FileValue(p.file)),
      Field("vocal_range_mode", TextValue(VocalRangeModeText(p.vocalRangeMode.GetOr(AnyGender)))),
      Field("allow_cross_gender", TextValue(BoolText(p.allowCrossGender.GetOr(false)))),
      Field("mock", TextValue(BoolText(p.mock.GetOr(false)))) ]
  }

  /** The server's reading of a text field as a boolean. */
  function ReadBool(v: FieldValue): Option<bool> {
    if v == TextValue("true") then Some(true)
    else if v == TextValue("false") then Some(false)
    else None
  }

  function ReadMode(v: FieldValue): Option<VocalRangeMode> {
    if v == TextValue("male") then Some(Male)
    else if v == TextValue("female") then Some(Female)
    else if v == TextValue("any") then Some(AnyGender)
    else None
  }

  /** A reader for the four fields, independent of how they were written. */
  function ReadFields(fields: seq<Field>): Option<AnalyzeVoiceParams> {
    if |fields| != 4 || fields[0].name != "file" || !fields[0].value.FileValue?
      || fields[1].name != "vocal_range_mode" || fields[2].name != "allow_cross_gender"
      || fields[3].name != "mock" then None
    else
      var mode := ReadMode(fields[1].value);
      var cross := ReadBool(fields[2].value);
      var mock := ReadBool(fields[3].value);
      if mode.None? || cross.None? || mock.None? then None
      else Some(AnalyzeVoiceParams(fields[0].value.file, mode, cross, mock))
  }

  /** The parameters with every default filled in. */
  function WithDefaults(p: AnalyzeVoiceParams): AnalyzeVoiceParams {
    AnalyzeVoiceParams(p.file, Some(p.vocalRangeMode.GetOr(AnyGender)),
                       Some(p.allowCrossGender.GetOr(false)), Some(p.mock.GetOr(false)))
  }

  /** The fields carry exactly the parameters, defaults applied: reading them back recovers them,
      so the server sees the file and the chosen options. */
  lemma FormFieldsRoundTrip(p: AnalyzeVoiceParams)
    ensures ReadFields(FormFields(p)) == Some(WithDefaults(p))
  {
  }

  /** `analyzeVoice`: a non-OK reply throws the parsed API error; an OK reply gives the body, or
      the `SyntaxError` of a body that does not parse; a transport failure rethrows an `Error`
      and turns any other thrown value into the network-failure error. */
  function AnalyzeVoice(p: AnalyzeVoiceParams, reply: HttpReply<ApiErrorEnvelope>): (r: Result<AnalyzeResponse, Failure>)
    ensures r.Failure? ==> r.error.IsError()
    ensures r.Success? <==> reply.Replied? && IsOkStatus(reply.status) && reply.success.Success?
    ensures reply.Replied? && !IsOkStatus(reply.status) ==> r == Failure(ParseError(reply.status, reply.errorBody))
    ensures r.Success? ==> r.value == reply.success.value
    ensures reply.Replied? && IsOkStatus(reply.status) && reply.success.Failure? ==>
      r == Failure(PlainError(reply.success.error))
    ensures reply.Threw? && reply.thrown.ErrorObject? ==> r == Failure(PlainError(reply.thrown.message))
    ensures reply == Threw(NonErrorValue) ==> r == Failure(PlainError(NetworkFailureMessage))
  {
    match reply
    case Threw(thrown) =>
      if thrown.ErrorObject? then Failure(PlainError(thrown.message)) else Failure(PlainError(NetworkFailureMessage))
    case Replied(status, success, errorBody) =>
      if !IsOkStatus(status) then Failure(ParseError(status, errorBody))
      else
        match success
        case Success(data) => Success(data)
        case Failure(syntax) => Failure(PlainError(syntax))
  }

  /** Only a non-OK reply produces a typed API error, and it carries that reply's status. */
  lemma ApiErrorOnlyFromStatus(p: AnalyzeVoiceParams, reply: HttpReply<ApiErrorEnvelope>)
    ensures var r := AnalyzeVoice(p, reply);
      r.Failure? && r.error.ApiError? <==> reply.Replied? && !IsOkStatus(reply.status)
    ensures var r := AnalyzeVoice(p, reply);
      r.Failure? && r.error.ApiError? ==> r.error.status == Some(reply.status)
  {
  }
}
