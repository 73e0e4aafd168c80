/** The older analysis client (not used by the home page): mock-mode switches, the built-in mock
    result, and the mapping of each transport outcome to a result that falls back to the mock
    data instead of throwing. */
module Client {
  import opened Wrappers
  import opened Types
  import opened Text

  const MockModeReason: string := "mockMode=true"
  const NetworkErrorReason: string := "네트워크 오류가 발생했습니다."
  const RecordingName: string := "recording.webm"
  const DefaultBlobType: string := "audio/webm"

  /** `VITE_MOCK_MODE` (default `false`) compared with `true` after lower-casing. */
  function EnvMockMode(env: Option<string>): bool {
    LowerAscii(env.GetOr("false")) == "true"
  }

  /** The environment switch accepts `true` in any mix of cases and nothing else. */
  lemma EnvMockModeCases(env: Option<string>)
    ensures EnvMockMode(env) <==>
      && env.Some? && |env.value| == 4
      && (env.value[0] == 't' || env.value[0] == 'T')
      && (env.value[1] == 'r' || env.value[1] == 'R')
      && (env.value[2] == 'u' || env.value[2] == 'U')
      && (env.value[3] == 'e' || env.value[3] == 'E')
  {
    var v := env.GetOr("false");
    var l := LowerAscii(v);
    if l == "true" {
      assert |v| == 4;
      assert l[0] == 't' && l[1] == 'r' && l[2] == 'u' && l[3] == 'e';
    }
  }

  /** The `mockMode` query parameter must be exactly `true`. */
  function QueryMockMode(query: Option<string>): bool {
    query == Some("true")
  }

  function MockRec(rank: int, title: string, artist: string, score: real, matchPercent: int,
                   reasons: seq<string>, tags: seq<string>, difficulty: int, rangeLevel: int,
                   externalUrl: string, coverUrl: string): Recommendation {
    Recommendation(rank, title, artist, score, matchPercent, reasons, tags, difficulty, rangeLevel,
                   Some(externalUrl), Some(coverUrl), None, None)
  }

  const MockRecommendations: seq<Recommendation> := [
    MockRec(1, "밤편지", "IU", 0.89, 89, ["밝은 톤과 잘 어울리는 발라드", "부드러운 발성에 적합"],
            ["bright", "soft", "ballad", "easy"], 2, 2, "https://example.com/track1",
            "https://images.unsplash.com/photo-1511379938547-c1f69419868d?w=400&h=400&fit=crop"),
    MockRec(2, "사랑은 늘 도망가", "Lim Young Woong", 0.86, 86, ["밝고 선명한 고역이 자연스럽게 어울림", "감성 발라드 톤 매칭"],
            ["bright", "ballad", "emotional"], 2, 2, "https://example.com/track2",
            "https://images.unsplash.com/photo-1511671782779-c97d3d27a1d4?w=400&h=400&fit=crop"),
    MockRec(3, "좋니", "Yoon Jong Shin", 0.84, 84, ["중고음 중심의 보컬 라인과 유사", "부드러운 톤에서 감정 전달이 잘 됨"],
            ["mid-high", "soft", "ballad"], 3, 3, "https://example.com/track3",
            "https://images.unsplash.com/photo-1521334726092-b509a19597c1?w=400&h=400&fit=crop"),
    MockRec(4, "Dynamite", "BTS", 0.82, 82, ["밝은 톤이 팝 스타일에 잘 어울림", "리듬감 있는 발성에 적합"],
            ["pop", "bright", "rhythm"], 2, 2, "https://example.com/track4",
            "https://images.unsplash.com/photo-1459749411175-04bf5292ceea?w=400&h=400&fit=crop"),
    MockRec(5, "고백", "Jung Joon Il", 0.79, 79, ["부드러운 톤과 잔잔한 편곡이 잘 맞음", "무리한 고음 없이 안정적인 구성"],
            ["soft", "calm", "ballad"], 2, 2, "https://example.com/track5",
            "https://images.unsplash.com/photo-1507838153414-b4b713384a76?w=400&h=400&fit=crop")
  ]

  const MockResponse: AnalyzeResponse := AnalyzeResponse(
    VoiceProfile(0.72, 0.28, 0.61),
    "맑고 비교적 밝은 톤이며, 발성이 부드러운 편입니다.",
    0.84,
    InputInfo(12.4, Good, "고음 구간 데이터가 적어 음역 추정은 보수적으로 적용했습니다."),
    Filters(Male, false),
    MockRecommendations)

  /** The mock list holds five songs ranked 1 to 5 in order, each with a match percentage equal to
      its score times 100 and within 0..100, and levels within 1..5. */
  lemma MockDataShape()
    ensures |MockResponse.recommendations| == 5
    ensures forall i :: 0 <= i < 5 ==> MockResponse.recommendations[i].rank == i + 1
    ensures forall i :: 0 <= i < 5 ==>
      var r := MockResponse.recommendations[i];
      && r.matchPercent as real == r.score * 100.0
      && 0 <= r.matchPercent <= 100
      && 1 <= r.difficulty <= 5 && 1 <= r.rangeLevel <= 5
  {
  }

  /** What the client is given: a `File`, or a bare `Blob` such as a recording. */
  datatype Upload = FileUpload(file: AudioFile) | BlobUpload(blob: Blob)

  /** A bare blob is wrapped as `recording.webm`, keeping its type or defaulting to `audio/webm`. */
  function UploadFile(u: Upload): (f: AudioFile)
    ensures u.FileUpload? ==> f == u.file
    ensures u.BlobUpload? ==> f.name == RecordingName && f.size == u.blob.size
    ensures u.BlobUpload? ==> f.mimeType == (if u.blob.mimeType == "" then DefaultBlobType else u.blob.mimeType)
    ensures |f.mimeType| > 0 || (u.FileUpload? && u.file.mimeType == "")
  {
    match u
    case FileUpload(file) => file
    case BlobUpload(blob) =>
      AudioFile(RecordingName, if blob.mimeType != "" then blob.mimeType else DefaultBlobType, blob.size)
  }

  /** Wrapping is idempotent: the wrapped file is sent unchanged when given again, and a blob
      with the wrapped file's type and size is wrapped to the same file. */
  lemma UploadFileIdempotent(u: Upload)
    ensures var f := UploadFile(u);
      && UploadFile(FileUpload(f)) == f
      && (u.BlobUpload? ==> UploadFile(BlobUpload(Blob(f.mimeType, f.size))) == f)
  {
  }

  /** The error body this client reads: `{ detail?, message? }`. */
  datatype ErrorBody = ErrorBody(detail: Option<string>, message: Option<string>)

  datatype AnalyzeVoiceResult = AnalyzeVoiceResult(data: AnalyzeResponse, usedMock: bool, fallbackReason: Option<string>)

  function ServerErrorReason(status: nat): string {
    "Server error: " + Decimal(status)
  }

  /** The client's result and the file it sent, if it sent one. Mock mode sends nothing; a
      non-OK reply, an unparsable OK body or a thrown value all fall back to the mock data with a
      reason. */
  function AnalyzeVoice(envFlag: Option<string>, query: Option<string>, input: Upload,
                        reply: HttpReply<ErrorBody>): (r: (Option<AudioFile>, AnalyzeVoiceResult))
    ensures r.0.None? <==> EnvMockMode(envFlag) || QueryMockMode(query)
    ensures r.0.Some? ==> r.0.value == UploadFile(input)
    ensures !r.1.usedMock <==> r.0.Some? && reply.Replied? && IsOkStatus(reply.status) && reply.success.Success?
    ensures !r.1.usedMock ==> r.1.data == reply.success.value && r.1.fallbackReason.None?
    ensures r.1.usedMock ==> r.1.data == MockResponse && r.1.fallbackReason.Some?
  {
    if EnvMockMode(envFlag) || QueryMockMode(query) then
      (None, AnalyzeVoiceResult(MockResponse, true, Some(MockModeReason)))
    else
      var sent := Some(UploadFile(input));
      match reply
      case Threw(thrown) =>
        (sent, AnalyzeVoiceResult(MockResponse, true,
                                  Some(if thrown.ErrorObject? then thrown.message else NetworkErrorReason)))
      case Replied(status, success, errorBody) =>
        if !IsOkStatus(status) then
          var fallback := ServerErrorReason(status);
          var message :=
            if errorBody.None? then fallback
            else if Truthy(errorBody.value.detail) then errorBody.value.detail.value
            else if Truthy(errorBody.value.message) then errorBody.value.message.value
            else fallback;
          (sent, AnalyzeVoiceResult(MockResponse, true, Some(message)))
        else
          match success
          case Success(data) => (sent, AnalyzeVoiceResult(data, false, None))
          case Failure(syntax) => (sent, AnalyzeVoiceResult(MockResponse, true, Some(syntax)))
  }

  /** The reasons given with the mock data: the mock-mode marker, the body's `detail`, then its
      `message`, then the status text for a non-OK reply, the parser's message for an unreadable OK
      body, and the thrown message or the network
      text for a transport failure. */
  lemma FallbackReasons(envFlag: Option<string>, query: Option<string>, input: Upload, reply: HttpReply<ErrorBody>)
    ensures var r := AnalyzeVoice(envFlag, query, input, reply).1;
      && (EnvMockMode(envFlag) || QueryMockMode(query) ==> r.fallbackReason == Some(MockModeReason))
      && (!EnvMockMode(envFlag) && !QueryMockMode(query) ==>
            && (reply.Replied? && !IsOkStatus(reply.status) ==>
                  r.fallbackReason == Some(
                    if reply.errorBody.Some? && Truthy(reply.errorBody.value.detail) then reply.errorBody.value.detail.value
                    else if reply.errorBody.Some? && Truthy(reply.errorBody.value.message) then reply.errorBody.value.message.value
                    else ServerErrorReason(reply.status)))
            && (reply.Replied? && IsOkStatus(reply.status) && reply.success.Failure? ==>
                  r.fallbackReason == Some(reply.success.error))
            && (reply == Threw(NonErrorValue) ==> r.fallbackReason == Some(NetworkErrorReason))
            && (reply.Threw? && reply.thrown.ErrorObject? ==> r.fallbackReason == Some(reply.thrown.message)))
  {
  }

  /** The status can be read back from the status-text reason. */
  lemma ServerErrorReasonNamesStatus(status: nat)
    ensures var m := ServerErrorReason(status);
      AllDigits(m[|"Server error: "|..]) && ParseDecimal(m[|"Server error: "|..]) == status
  {
    assert ServerErrorReason(status)[|"Server error: "|..] == Decimal(status);
    ParseDecimalOfDecimal(status);
  }
}
