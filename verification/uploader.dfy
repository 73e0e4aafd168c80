/** The upload form: validation of a selected or recorded file (declared type, then size, then
    duration), the form state it updates, and the re-validation at submit. The duration probe
    (`readAudioDuration`, an `<audio>` element loading metadata) enters as an oracle outcome. */
module Uploader {
  import opened Wrappers
  import opened Types

  const MinDurationSeconds: real := 3.0
  const MaxDurationSeconds: real := 20.0
  const MaxFileBytes: nat := 5 * 1024 * 1024
  const WavType: string := "audio/wav"

  const FormatMessage: string := "audio/wav 형식만 업로드할 수 있습니다."
  const SizeMessage: string := "파일 용량은 5MB 이하여야 합니다."
  const DurationMessage: string := "오디오 길이는 3초 이상 20초 이하여야 합니다."
  /** The message of the `Error` the duration probe rejects with. */
  const ProbeFailedMessage: string := "오디오 길이를 확인할 수 없습니다."
  const ValidationFailedMessage: string := "오디오 파일 검증에 실패했습니다."

  /** Why a file was refused. Size and duration errors carry the measured value shown to the user. */
  datatype UploadError =
    | UnsupportedFormat
    | TooLarge(size: nat)
    | DurationOutOfRange(duration: real)
    | DurationUnknown(message: string)

  /** The user-facing text; the measured value appended in parentheses is left out (see README). */
  function Message(e: UploadError): string {
    match e
    case UnsupportedFormat => FormatMessage
    case TooLarge(_) => SizeMessage
    case DurationOutOfRange(_) => DurationMessage
    case DurationUnknown(m) => m
  }

  /** `validateWavAndSize`: the declared type must be exactly `audio/wav`, checked before the size,
      which must not exceed 5 MiB. */
  function ValidateWavAndSize(f: AudioFile): (r: Option<UploadError>)
    ensures r == Some(UnsupportedFormat) <==> f.mimeType != WavType
    ensures r == Some(TooLarge(f.size)) <==> f.mimeType == WavType && f.size > MaxFileBytes
    ensures r.None? <==> f.mimeType == WavType && f.size <= MaxFileBytes
  {
    if f.mimeType != WavType then Some(UnsupportedFormat)
    else if f.size > MaxFileBytes then Some(TooLarge(f.size))
    else None
  }

  /** The range check used at selection and at submit: rejected when below 3 or above 20. */
  predicate DurationAccepted(d: real) {
    !(d < MinDurationSeconds || d > MaxDurationSeconds)
  }

  lemma DurationAcceptedInclusive(d: real)
    ensures DurationAccepted(d) <==> 3.0 <= d <= 20.0
  {
  }

  /** The outcome of the duration probe: the duration, or the value it rejected with. */
  type Probe = Result<real, Thrown>

  /** `readAudioDuration` only ever rejects with an `Error` carrying `ProbeFailedMessage`. */
  predicate ProbeAsWritten(p: Probe) {
    p.Failure? ==> p.error == ErrorObject(ProbeFailedMessage)
  }

  /** The full check, in order: type, size, then the probed duration. At selection a probe failure
      reports the rejection's message (`ValidationFailedMessage` for a non-`Error`); at submit the
      fixed `ProbeFailedMessage`. */
  function Validate(f: AudioFile, probe: Probe, atSubmit: bool): (r: Result<real, UploadError>)
    ensures r.Success? <==> f.mimeType == WavType && f.size <= MaxFileBytes && probe.Success? && DurationAccepted(probe.value)
    ensures r.Success? ==> r.value == probe.value
    ensures f.mimeType != WavType ==> r == Failure(UnsupportedFormat)
    ensures f.mimeType == WavType && f.size > MaxFileBytes ==> r == Failure(TooLarge(f.size))
    ensures f.mimeType == WavType && f.size <= MaxFileBytes && probe.Success? && !DurationAccepted(probe.value) ==>
      r == Failure(DurationOutOfRange(probe.value))
    ensures f.mimeType == WavType && f.size <= MaxFileBytes && probe.Failure? ==> r.Failure? && r.error.DurationUnknown?
  {
    match ValidateWavAndSize(f)
    case Some(e) => Failure(e)
    case None =>
      match probe
      case Success(d) => if DurationAccepted(d) then Success(d) else Failure(DurationOutOfRange(d))
      case Failure(thrown) =>
        if atSubmit then Failure(DurationUnknown(ProbeFailedMessage))
        else Failure(DurationUnknown(if thrown.ErrorObject? then thrown.message else ValidationFailedMessage))
  }

  /** The probe as written fails with the same text at selection and at submit. */
  lemma ProbeFailureMessage(f: AudioFile, probe: Probe, atSubmit: bool)
    requires ProbeAsWritten(probe) && probe.Failure?
    requires ValidateWavAndSize(f).None?
    ensures Validate(f, probe, atSubmit) == Failure(DurationUnknown(ProbeFailedMessage))
  {
  }

  // ---------------------------------------------------------------------------
  // Form state
  // ---------------------------------------------------------------------------

  datatype UploaderState = UploaderState(
    file: Option<AudioFile>,
    durationSec: Option<real>,
    localError: Option<string>,
    vocalRangeMode: VocalRangeMode,
    allowCrossGender: bool)

  const InitialState: UploaderState := UploaderState(None, None, None, AnyGender, false)

  /** `assignValidatedFile`: a refused candidate clears the file and duration and shows why; an
      accepted one is kept with its duration and clears the error. The options are untouched. */
  function AssignValidatedFile(s: UploaderState, candidate: AudioFile, probe: Probe): (r: UploaderState)
    ensures r.vocalRangeMode == s.vocalRangeMode && r.allowCrossGender == s.allowCrossGender
  {
    var baseError := ValidateWavAndSize(candidate);
    if baseError.Some? then
      s.(file := None, durationSec := None, localError := Some(Message(baseError.value)))
    else
      match probe
      case Success(duration) =>
        if duration < MinDurationSeconds || duration > MaxDurationSeconds then
          s.(file := None, durationSec := None, localError := Some(DurationMessage))
        else
          s.(file := Some(candidate), durationSec := Some(duration), localError := None)
      case Failure(thrown) =>
        s.(file := None, durationSec := None,
           localError := Some(if thrown.ErrorObject? then thrown.message else ValidationFailedMessage))
  }

  /** Selection agrees with the reference check: accepted iff `Validate` succeeds, and then the
      file and its duration are kept and the error cleared; otherwise both are cleared and the
      error is the refusal's message. */
  lemma AssignMatchesValidate(s: UploaderState, candidate: AudioFile, probe: Probe)
    ensures var r := AssignValidatedFile(s, candidate, probe);
      match Validate(candidate, probe, false)
      case Success(d) => r.file == Some(candidate) && r.durationSec == Some(d) && r.localError.None?
      case Failure(e) => r.file.None? && r.durationSec.None? && r.localError == Some(Message(e))
  {
  }

  /** `handleRecorded`: a recording is wrapped as `voicefit-recording-<time>.wav` with type
      `audio/wav` whatever the blob's own type, then validated like a selected file. */
  function RecordedFile(blob: Blob, timestamp: string): (f: AudioFile)
    ensures f.mimeType == WavType && f.size == blob.size
    ensures ValidateWavAndSize(f) != Some(UnsupportedFormat)
  {
    AudioFile("voicefit-recording-" + timestamp + ".wav", WavType, blob.size)
  }

  function HandleRecorded(s: UploaderState, blob: Blob, timestamp: string, probe: Probe): UploaderState {
    AssignValidatedFile(s, RecordedFile(blob, timestamp), probe)
  }

  /** A WAV produced by the recorder is refused at most for its size or duration, never its type. */
  lemma RecordedNeverFormatError(s: UploaderState, blob: Blob, timestamp: string, probe: Probe)
    requires ProbeAsWritten(probe)
    ensures HandleRecorded(s, blob, timestamp, probe).localError != Some(FormatMessage)
  {
  }

  datatype SubmitOutcome = SubmitOutcome(state: UploaderState, request: Option<AnalyzeVoiceParams>)

  /** The analyse button: disabled while loading or without a file; otherwise re-runs every check
      and requests an analysis with the chosen options and `mock = false` only if all pass. */
  function Submit(s: UploaderState, isLoading: bool, probe: Probe): SubmitOutcome {
    if isLoading || s.file.None? then
      SubmitOutcome(s, None)
    else
      var file := s.file.value;
      var baseError := ValidateWavAndSize(file);
      if baseError.Some? then
        SubmitOutcome(s.(localError := Some(Message(baseError.value))), None)
      else
        match probe
        case Success(duration) =>
          if duration < MinDurationSeconds || duration > MaxDurationSeconds then
            SubmitOutcome(s.(localError := Some(DurationMessage)), None)
          else
            SubmitOutcome(s.(durationSec := Some(duration), localError := None),
                          Some(AnalyzeVoiceParams(file, Some(s.vocalRangeMode), Some(s.allowCrossGender), Some(false))))
        case Failure(_) =>
          SubmitOutcome(s.(localError := Some(ProbeFailedMessage)), None)
  }

  /** Submit requests an analysis exactly when the reference check passes, with the chosen options
      and `mock = false`; a refusal sets the error and leaves the selected file in place. */
  lemma SubmitMatchesValidate(s: UploaderState, probe: Probe)
    requires s.file.Some?
    ensures var out := Submit(s, false, probe);
      && out.state.file == s.file
      && out.state.vocalRangeMode == s.vocalRangeMode && out.state.allowCrossGender == s.allowCrossGender
      && match Validate(s.file.value, probe, true)
         case Success(d) =>
           && out.request == Some(AnalyzeVoiceParams(s.file.value, Some(s.vocalRangeMode), Some(s.allowCrossGender), Some(false)))
           && out.state.durationSec == Some(d) && out.state.localError.None?
         case Failure(e) =>
           && out.request.None?
           && out.state.localError == Some(Message(e))
           && out.state.durationSec == s.durationSec
  {
  }

  /** Nothing is requested without a file or while a request is in flight. */
  lemma SubmitDisabled(s: UploaderState, isLoading: bool, probe: Probe)
    requires isLoading || s.file.None?
    ensures Submit(s, isLoading, probe) == SubmitOutcome(s, None)
  {
  }

  /** The boundary cases: exactly 5 MiB passes the size check and one byte more does not;
      3 and 20 seconds are accepted. */
  lemma Boundaries(name: string)
    ensures ValidateWavAndSize(AudioFile(name, WavType, MaxFileBytes)).None?
    ensures ValidateWavAndSize(AudioFile(name, WavType, MaxFileBytes + 1)) == Some(TooLarge(MaxFileBytes + 1))
    ensures DurationAccepted(3.0) && DurationAccepted(20.0)
    ensures !DurationAccepted(2.9) && !DurationAccepted(20.1)
  {
  }
}
