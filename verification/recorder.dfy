/** The recorder component: the elapsed-time display, the choice of capture format, the stop guard
    that decides when `recorder.stop()` is called, and the hand-off of a finished recording.
    Browser media (`getUserMedia`, `MediaRecorder`, `decodeAudioData`) enter as event parameters. */
module Recorder {
  import opened Wrappers
  import opened Types
  import opened Text
  import Wav

  const MaxDurationSeconds: int := 20
  const MinBlobBytes: nat := 1000
  const WavMimeType: string := "audio/wav"
  const FallbackBlobType: string := "audio/webm"

  const MicDeniedMessage: string := "마이크 권한이 거부되었습니다. 파일 업로드로 진행해주세요."
  const TooShortMessage: string := "녹음된 오디오가 너무 짧거나 무음입니다. 다시 녹음해주세요."
  const WavFallbackMessage: string := "WAV 변환에 실패해 원본 음원으로 업로드합니다."

  /** Capture formats in order of preference. */
  const PreferredMimeTypes: seq<string> :=
    ["audio/webm;codecs=opus", "audio/webm", "audio/ogg;codecs=opus", "audio/ogg"]

  // ---------------------------------------------------------------------------
  // Elapsed-time display
  // ---------------------------------------------------------------------------

  function WholeSeconds(seconds: real): (n: nat)
    ensures seconds >= 0.0 ==> n as real <= seconds < n as real + 1.0
    ensures seconds < 0.0 ==> n == 0
  {
    if seconds.Floor < 0 then 0 else seconds.Floor
  }

  /** `formatSeconds`: negatives clamp to zero, fractions are floored, rendered as `mm:ss`. */
  function FormatSeconds(seconds: real): string {
    var clamped := WholeSeconds(seconds);
    PadStart2(Decimal(clamped / 60)) + ":" + PadStart2(Decimal(clamped % 60))
  }

  lemma {:induction false} ParsePadded(s: string)
    requires AllDigits(s)
    ensures AllDigits(PadStart2(s)) && ParseDecimal(PadStart2(s)) == ParseDecimal(s)
  {
    if |s| == 1 {
      ParseDecimalLeadingZero(s);
    } else if |s| == 0 {
      assert ParseDecimal("00") == 0 by {
        assert "00"[..1] == "0";
        assert "0"[..0] == "";
      }
    }
  }

  lemma DecimalBelow100(n: nat)
    requires n < 100
    ensures |Decimal(n)| <= 2
  {
    if n >= 10 {
      assert Decimal(n) == Decimal(n / 10) + [DigitChar(n % 10)];
    }
  }

  /** The display is `mm:ss` with a two-digit seconds field in 00..59 and an at-least-two-digit
      minutes field, and minutes * 60 + seconds read back from it is the clamped, floored input. */
  lemma FormatSecondsRoundTrip(seconds: real)
    ensures var r := FormatSeconds(seconds);
      && |r| >= 5 && r[|r| - 3] == ':'
      && AllDigits(r[..|r| - 3]) && AllDigits(r[|r| - 2..])
      && ParseDecimal(r[|r| - 2..]) < 60
      && 60 * ParseDecimal(r[..|r| - 3]) + ParseDecimal(r[|r| - 2..]) == WholeSeconds(seconds)
  {
    var clamped := WholeSeconds(seconds);
    var minutes := Decimal(clamped / 60);
    var secs := Decimal(clamped % 60);
    var mm := PadStart2(minutes);
    var ss := PadStart2(secs);
    DecimalBelow100(clamped % 60);
    assert |ss| == 2;
    var r := mm + ":" + ss;
    assert r == FormatSeconds(seconds);
    assert r[..|r| - 3] == mm;
    assert r[|r| - 2..] == ss;
    ParsePadded(minutes);
    ParsePadded(secs);
    ParseDecimalOfDecimal(clamped / 60);
    ParseDecimalOfDecimal(clamped % 60);
  }

  // ---------------------------------------------------------------------------
  // Capture format
  // ---------------------------------------------------------------------------

  /** The first entry of `prefs` that the browser supports, if any. */
  function FirstSupported(prefs: seq<string>, supported: set<string>): (m: Option<string>)
    ensures m.None? <==> forall j :: 0 <= j < |prefs| ==> prefs[j] !in supported
    ensures m.Some? ==> exists k :: (0 <= k < |prefs| && prefs[k] == m.value && m.value in supported
      && forall j :: 0 <= j < k ==> prefs[j] !in supported)
  {
    if prefs == [] then None
    else if prefs[0] in supported then Some(prefs[0])
    else
      var m := FirstSupported(prefs[1..], supported);
      assert forall j :: 1 <= j < |prefs| ==> prefs[j] == prefs[1..][j - 1];
      if m.Some? then
        var k' :| 0 <= k' < |prefs[1..]| && prefs[1..][k'] == m.value && m.value in supported
          && forall j :: 0 <= j < k' ==> prefs[1..][j] !in supported;
        assert prefs[k' + 1] == m.value;
        m
      else
        m
  }

  // ---------------------------------------------------------------------------
  // Hand-off of a finished recording
  // ---------------------------------------------------------------------------

  datatype Effect =
    | RequestPermission
    | StopRecorder(session: nat)
    | ReportError(message: string)
    | Recorded(blob: Blob)

  function CountRecorded(effects: seq<Effect>): nat {
    if effects == [] then 0
    else (if effects[0].Recorded? then 1 else 0) + CountRecorded(effects[1..])
  }

  /** The WAV blob handed off after a successful conversion. */
  function WavBlob(buf: Wav.AudioBuffer): Blob
    requires buf.Valid()
  {
    Blob(WavMimeType, |Wav.EncodeWav(buf)|)
  }

  /** `recorder.onstop` after the chunks are joined into `blob`; `decoded` is the outcome of
      `decodeAudioData` (`None` when it throws). */
  function HandOff(blob: Blob, decoded: Option<Wav.AudioBuffer>): (effects: seq<Effect>)
    requires decoded.Some? ==> decoded.value.Valid()
    ensures CountRecorded(effects) == if blob.size < MinBlobBytes then 0 else 1
    ensures blob.size < MinBlobBytes ==> effects == [ReportError(TooShortMessage)]
    ensures forall e :: e in effects && e.Recorded? ==>
      && (decoded.Some? ==> (e.blob.mimeType == WavMimeType
            && e.blob.size == Wav.HeaderSize + 2 * decoded.value.length * decoded.value.NumberOfChannels()))
      && (decoded.None? ==> e.blob == blob)
    ensures decoded.Some? && blob.size >= MinBlobBytes ==> forall e :: e in effects ==> !e.ReportError?
    ensures decoded.None? && blob.size >= MinBlobBytes ==> ReportError(WavFallbackMessage) in effects
  {
    if blob.size < MinBlobBytes then
      var effects := [ReportError(TooShortMessage)];
      assert CountRecorded(effects) == 0 by {
        assert effects[1..] == [];
      }
      effects
    else if decoded.Some? then
      var buf := decoded.value;
      assert buf.length * buf.NumberOfChannels() * Wav.BytesPerSample
          == 2 * buf.length * buf.NumberOfChannels();
      var effects := [Recorded(WavBlob(buf))];
      assert CountRecorded(effects) == 1 by {
        assert effects[1..] == [];
      }
      effects
    else
      var effects := [ReportError(WavFallbackMessage), Recorded(blob)];
      assert CountRecorded(effects) == 1 by {
        assert effects[1..] == [Recorded(blob)];
        assert effects[1..][1..] == [];
        assert CountRecorded(effects[1..]) == 1;
      }
      effects
  }

  // ---------------------------------------------------------------------------
  // Sessions and the stop guard
  // ---------------------------------------------------------------------------

  datatype Permission = NotAsked | Granted | Denied

  /** Where the stop guard and the timer handle live. `SharedRefs` is the component as written:
      one `isStopping` flag and one interval handle for all recorders, and the preview effect's
      cleanup clears whatever interval that handle holds. `PerRecorder` keeps both per recorder, so
      its cleanup has no interval to clear and only releases the old preview (see README,
      Findings). */
  datatype GuardPolicy = SharedRefs | PerRecorder

  /** One `MediaRecorder` and what happened to it: its requested format, how many times `stop()`
      was called on it, whether its interval timer still runs, its own stopping flag (read only
      under `PerRecorder`) and whether its `onstop` has begun (its `stopTimer` has run). */
  datatype Session = Session(mimeType: Option<string>, stopCalls: nat, timerLive: bool, stopping: bool, ended: bool)

  datatype RecorderState = RecorderState(
    hasStream: bool,
    permission: Permission,
    sessions: seq<Session>,
    stopping: bool,
    recording: bool,
    intervalOwner: Option<nat>,
    elapsed: real)

  const Init: RecorderState := RecorderState(false, NotAsked, [], false, false, None, 0.0)

  datatype Event =
    | Start(permissionGranted: bool, supported: set<string>)
    | Tick(timer: nat, seconds: real)
    | UserStop
    | PreviewReplaced
    | RecorderStopped(session: nat, chunkBytes: nat, defaultMime: string, decoded: Option<Wav.AudioBuffer>, recordedSec: real)

  datatype Step = Step(state: RecorderState, effects: seq<Effect>)

  predicate WellFormedEvent(e: Event) {
    e.RecorderStopped? && e.decoded.Some? ==> e.decoded.value.Valid()
  }

  /** The stop guard session `k` consults. */
  function Guard(s: RecorderState, policy: GuardPolicy, k: nat): bool
    requires k < |s.sessions|
  {
    match policy
    case SharedRefs => s.stopping
    case PerRecorder => s.sessions[k].stopping
  }

  /** `isStopping = true; recorder.stop(); setIsRecording(false)` on session `k`. */
  function StopSession(s: RecorderState, k: nat): (r: RecorderState)
    requires k < |s.sessions|
    ensures |r.sessions| == |s.sessions|
    ensures r.sessions[k].stopCalls == s.sessions[k].stopCalls + 1 && r.sessions[k].stopping
    ensures forall j :: 0 <= j < |s.sessions| && j != k ==> r.sessions[j] == s.sessions[j]
  {
    var old_ := s.sessions[k];
    s.(sessions := s.sessions[k := old_.(stopCalls := old_.stopCalls + 1, stopping := true)],
       stopping := true, recording := false)
  }

  /** `stopTimer()` run by session `k`'s `onstop`. */
  function StopTimer(s: RecorderState, policy: GuardPolicy, k: nat): (r: RecorderState)
    requires k < |s.sessions|
    ensures |r.sessions| == |s.sessions|
    ensures forall j :: 0 <= j < |s.sessions| ==> (r.sessions[j].stopCalls == s.sessions[j].stopCalls
      && r.sessions[j].stopping == s.sessions[j].stopping && r.sessions[j].ended == s.sessions[j].ended)
  {
    var owner := match policy
      case SharedRefs => s.intervalOwner
      case PerRecorder => Some(k);
    match owner
    case Some(t) =>
      if t < |s.sessions| then
        s.(sessions := s.sessions[t := s.sessions[t].(timerLive := false)],
           intervalOwner := if s.intervalOwner == Some(t) then None else s.intervalOwner)
      else s.(intervalOwner := None)
    case None => s
  }

  /** The cleanup of the effect keyed on `previewUrl`, run when a finished recording's preview
      replaces the previous one. As written it clears the interval `intervalRef` holds, without
      forgetting the handle; the conversion is asynchronous, so this can happen after a later
      `Start` has stored that recording's interval there. */
  function PreviewCleanup(s: RecorderState, policy: GuardPolicy): (r: RecorderState)
    ensures |r.sessions| == |s.sessions| && r.intervalOwner == s.intervalOwner && r.stopping == s.stopping
    ensures forall j :: 0 <= j < |s.sessions| ==> (r.sessions[j].stopCalls == s.sessions[j].stopCalls
      && r.sessions[j].stopping == s.sessions[j].stopping && r.sessions[j].ended == s.sessions[j].ended)
    ensures policy == SharedRefs && s.intervalOwner.Some? && s.intervalOwner.value < |s.sessions| ==>
      !r.sessions[s.intervalOwner.value].timerLive
    ensures forall j :: 0 <= j < |s.sessions| && r.sessions[j].timerLive ==> s.sessions[j].timerLive
    ensures policy == PerRecorder ==> r == s
  {
    match policy
    case PerRecorder => s
    case SharedRefs =>
      match s.intervalOwner
      case Some(t) =>
        if t < |s.sessions| then s.(sessions := s.sessions[t := s.sessions[t].(timerLive := false)]) else s
      case None => s
  }

  function Min(a: real, b: real): real {
    if a <= b then a else b
  }

  /** One event of the recorder component. */
  function Next(s: RecorderState, e: Event, policy: GuardPolicy): Step
    requires WellFormedEvent(e)
  {
    match e
    case Start(granted, supported) =>
      var ask := if s.hasStream then [] else [RequestPermission];
      if !s.hasStream && !granted then
        Step(s.(permission := Denied), ask + [ReportError(MicDeniedMessage)])
      else
        var k := |s.sessions|;
        var session := Session(FirstSupported(PreferredMimeTypes, supported), 0, true, false, false);
        Step(s.(hasStream := true,
                permission := if s.hasStream then s.permission else Granted,
                sessions := s.sessions + [session],
                stopping := false,
                recording := true,
                intervalOwner := Some(k),
                elapsed := 0.0),
             ask)
    case Tick(t, seconds) =>
      if t < |s.sessions| && s.sessions[t].timerLive then
        var s' := s.(elapsed := seconds);
        if seconds >= MaxDurationSeconds as real && !Guard(s', policy, t) then
          Step(StopSession(s', t), [StopRecorder(t)])
        else
          Step(s', [])
      else
        Step(s, [])
    case UserStop =>
      if |s.sessions| == 0 || Guard(s, policy, |s.sessions| - 1) then
        Step(s, [])
      else
        Step(StopSession(s, |s.sessions| - 1), [StopRecorder(|s.sessions| - 1)])
    case PreviewReplaced =>
      Step(PreviewCleanup(s, policy), [])
    case RecorderStopped(k, bytes, defaultMime, decoded, recordedSec) =>
      if k < |s.sessions| && !s.sessions[k].ended then
        var s1 := StopTimer(s, policy, k);
        var s2 := s1.(sessions := s1.sessions[k := s1.sessions[k].(ended := true)],
                      elapsed := Min(MaxDurationSeconds as real, recordedSec));
        var mime := s.sessions[k].mimeType.GetOr(defaultMime);
        var blob := Blob(if mime == "" then FallbackBlobType else mime, bytes);
        Step(s2, HandOff(blob, decoded))
      else
        Step(s, [])
  }

  /** Runs a sequence of events, collecting the state and every effect. */
  function Run(s: RecorderState, events: seq<Event>, policy: GuardPolicy): Step
    requires forall i :: 0 <= i < |events| ==> WellFormedEvent(events[i])
    decreases |events|
  {
    if events == [] then Step(s, [])
    else
      var first := Next(s, events[0], policy);
      var rest := Run(first.state, events[1..], policy);
      Step(rest.state, first.effects + rest.effects)
  }

  // ---------------------------------------------------------------------------
  // Properties of single events
  // ---------------------------------------------------------------------------

  /** An existing stream is reused: starting again asks for no permission and records under the
      first supported preferred format (or the recorder default). */
  lemma StartReusesStream(s: RecorderState, granted: bool, supported: set<string>, policy: GuardPolicy)
    requires s.hasStream
    ensures var r := Next(s, Start(granted, supported), policy);
      && RequestPermission !in r.effects
      && r.state.permission == s.permission
      && |r.state.sessions| == |s.sessions| + 1
      && r.state.sessions[|s.sessions|].mimeType == FirstSupported(PreferredMimeTypes, supported)
      && r.state.recording && !r.state.stopping
  {
  }

  /** Without a stream the first start asks for permission; a refusal reports the denial and
      creates no recorder. */
  lemma StartWithoutStream(s: RecorderState, granted: bool, supported: set<string>, policy: GuardPolicy)
    requires !s.hasStream
    ensures var r := Next(s, Start(granted, supported), policy);
      && r.effects[0] == RequestPermission
      && (!granted ==> (r.state.permission == Denied && r.state.sessions == s.sessions
            && r.effects == [RequestPermission, ReportError(MicDeniedMessage)]))
      && (granted ==> r.state.permission == Granted && r.state.hasStream)
  {
  }

  /** A stop call leaves the machine only through the guard: a user stop only when the current
      recorder is not already stopping, an automatic stop only at 20 seconds or later. */
  lemma StopOnlyThroughGuard(s: RecorderState, e: Event, policy: GuardPolicy)
    requires WellFormedEvent(e)
    ensures var r := Next(s, e, policy);
      forall k: nat :: StopRecorder(k) in r.effects ==>
        && k < |s.sessions|
        && !Guard(s, policy, k)
        && (e.Tick? ==> e.seconds >= MaxDurationSeconds as real && e.timer == k && s.sessions[k].timerLive)
        && (e.UserStop? ==> k == |s.sessions| - 1)
        && (e.Tick? || e.UserStop?)
  {
    var r := Next(s, e, policy);
    match e
    case RecorderStopped(k, bytes, mime, decoded, sec) =>
      if k < |s.sessions| && !s.sessions[k].ended {
        var blob := Blob(if s.sessions[k].mimeType.GetOr(mime) == "" then FallbackBlobType else s.sessions[k].mimeType.GetOr(mime), bytes);
        assert r.effects == HandOff(blob, decoded);
      }
    case _ =>
  }

  // ---------------------------------------------------------------------------
  // At most one stop() per recorder
  // ---------------------------------------------------------------------------

  /** Per-recorder guard: every recorder has been stopped at most once, and a stopped one is
      flagged as stopping. */
  ghost predicate PerRecorderInv(s: RecorderState) {
    forall k :: 0 <= k < |s.sessions| ==>
      s.sessions[k].stopCalls <= 1 && (s.sessions[k].stopCalls == 1 ==> s.sessions[k].stopping)
  }

  lemma PerRecorderStep(s: RecorderState, e: Event)
    requires WellFormedEvent(e) && PerRecorderInv(s)
    ensures PerRecorderInv(Next(s, e, PerRecorder).state)
  {
  }

  /** With per-recorder guards, no sequence of events whatsoever stops a recorder twice. */
  lemma {:induction false} PerRecorderStopsAtMostOnce(s: RecorderState, events: seq<Event>)
    requires forall i :: 0 <= i < |events| ==> WellFormedEvent(events[i])
    requires PerRecorderInv(s)
    ensures var r := Run(s, events, PerRecorder).state;
      forall k :: 0 <= k < |r.sessions| ==> r.sessions[k].stopCalls <= 1
    ensures PerRecorderInv(Run(s, events, PerRecorder).state)
    decreases |events|
  {
    if events != [] {
      PerRecorderStep(s, events[0]);
      PerRecorderStopsAtMostOnce(Next(s, events[0], PerRecorder).state, events[1..]);
    }
  }

  /** Shared guard, sessions used one after another: only the newest recorder may have a running
      timer, it owns the interval handle, and the shared flag says whether it was stopped. */
  ghost predicate SharedInv(s: RecorderState) {
    && (forall k :: 0 <= k < |s.sessions| ==> s.sessions[k].stopCalls <= 1)
    && (forall k :: 0 <= k < |s.sessions| && s.sessions[k].timerLive ==> s.intervalOwner == Some(k))
    && (forall k :: 0 <= k < |s.sessions| && s.sessions[k].ended ==> !s.sessions[k].timerLive)
    && (s.intervalOwner.Some? ==> s.intervalOwner.value == |s.sessions| - 1)
    && (|s.sessions| == 0 ==> !s.stopping)
    && (|s.sessions| > 0 ==> (s.sessions[|s.sessions| - 1].stopCalls == 1 <==> s.stopping))
  }

  /** A new recording starts only once every earlier recorder's `onstop` has begun, that is, once
      its `stopTimer` has run; its WAV conversion may still be pending. */
  predicate Settled(s: RecorderState) {
    forall k :: 0 <= k < |s.sessions| ==> s.sessions[k].ended
  }

  predicate Sequential(s: RecorderState, e: Event) {
    e.Start? ==> Settled(s)
  }

  lemma SharedStep(s: RecorderState, e: Event)
    requires WellFormedEvent(e) && SharedInv(s) && Sequential(s, e)
    ensures SharedInv(Next(s, e, SharedRefs).state)
  {
    match e
    case Start(granted, supported) => SharedStart(s, granted, supported);
    case Tick(t, seconds) => SharedTick(s, t, seconds);
    case UserStop => SharedUserStop(s);
    case PreviewReplaced =>
    case RecorderStopped(k, bytes, mime, decoded, sec) => SharedStopped(s, e);
  }

  lemma SharedStart(s: RecorderState, granted: bool, supported: set<string>)
    requires SharedInv(s) && Settled(s)
    ensures SharedInv(Next(s, Start(granted, supported), SharedRefs).state)
  {
    if s.hasStream || granted {
      assert forall k :: 0 <= k < |s.sessions| ==> !s.sessions[k].timerLive;
    }
  }

  lemma SharedTick(s: RecorderState, t: nat, seconds: real)
    requires SharedInv(s)
    ensures SharedInv(Next(s, Tick(t, seconds), SharedRefs).state)
  {
  }

  lemma SharedUserStop(s: RecorderState)
    requires SharedInv(s)
    ensures SharedInv(Next(s, UserStop, SharedRefs).state)
  {
  }

  lemma SharedStopped(s: RecorderState, e: Event)
    requires e.RecorderStopped? && WellFormedEvent(e) && SharedInv(s)
    ensures SharedInv(Next(s, e, SharedRefs).state)
  {
  }

  /** Used sequentially, the component as written stops every recorder at most once. */
  lemma {:induction false} SequentialStopsAtMostOnce(s: RecorderState, events: seq<Event>)
    requires forall i :: 0 <= i < |events| ==> WellFormedEvent(events[i])
    requires SharedInv(s)
    requires SequentialRun(s, events)
    ensures var r := Run(s, events, SharedRefs).state;
      forall k :: 0 <= k < |r.sessions| ==> r.sessions[k].stopCalls <= 1
    ensures SharedInv(Run(s, events, SharedRefs).state)
    decreases |events|
  {
    if events != [] {
      SharedStep(s, events[0]);
      SequentialStopsAtMostOnce(Next(s, events[0], SharedRefs).state, events[1..]);
    }
  }

  /** Every `Start` of the run happens once all earlier recorders' `onstop` has begun. */
  predicate SequentialRun(s: RecorderState, events: seq<Event>)
    requires forall i :: 0 <= i < |events| ==> WellFormedEvent(events[i])
    decreases |events|
  {
    events == [] || (Sequential(s, events[0]) && SequentialRun(Next(s, events[0], SharedRefs).state, events[1..]))
  }

  lemma InitInvariants()
    ensures SharedInv(Init) && PerRecorderInv(Init)
  {
  }

  /** Start, stop by hand, start again before the first recorder's `onstop` runs; that `onstop`
      then arrives, and the first recorder's still-running timer fires at 20 seconds or later. */
  function OverlapTrace(supported: set<string>, bytes: nat, recordedSec: real, seconds: real): seq<Event> {
    [Start(true, supported), UserStop, Start(true, supported),
     RecorderStopped(0, bytes, "", None, recordedSec), Tick(0, seconds)]
  }

  lemma RunCons(s: RecorderState, events: seq<Event>, policy: GuardPolicy)
    requires events != [] && forall i :: 0 <= i < |events| ==> WellFormedEvent(events[i])
    ensures Run(s, events, policy).state == Run(Next(s, events[0], policy).state, events[1..], policy).state
  {
  }

  /** The state after `OverlapTrace` but its last tick, step by step. As written, the first
      `onstop` clears the timer `intervalRef` holds, which is the second recorder's, and leaves the
      first recorder's own timer running; per recorder it clears its own. */
  lemma OverlapRun(policy: GuardPolicy, supported: set<string>, bytes: nat, recordedSec: real, seconds: real)
    returns (s4: RecorderState)
    ensures |s4.sessions| == 2
    ensures s4.sessions[0].stopCalls == 1 && s4.sessions[0].stopping
    ensures s4.sessions[1].stopCalls == 0 && !s4.sessions[1].stopping && !s4.stopping
    ensures policy == SharedRefs ==> s4.sessions[0].timerLive && !s4.sessions[1].timerLive
    ensures policy == PerRecorder ==> !s4.sessions[0].timerLive && s4.sessions[1].timerLive
    ensures Run(Init, OverlapTrace(supported, bytes, recordedSec, seconds), policy).state
              == Next(s4, Tick(0, seconds), policy).state
  {
    var t := OverlapTrace(supported, bytes, recordedSec, seconds);
    var s1 := Next(Init, t[0], policy).state;
    assert |s1.sessions| == 1 && s1.sessions[0].timerLive && !s1.stopping && !s1.sessions[0].stopping;
    var s2 := Next(s1, t[1], policy).state;
    assert |s2.sessions| == 1 && s2.sessions[0].timerLive && s2.sessions[0].stopCalls == 1;
    var s3 := Next(s2, t[2], policy).state;
    assert |s3.sessions| == 2 && s3.sessions[0].timerLive && s3.sessions[1].timerLive;
    assert s3.intervalOwner == Some(1) && !s3.sessions[0].ended;
    s4 := Next(s3, t[3], policy).state;
    RunFive(Init, t, policy);
  }

  /** What the first recorder's timer does at 20 seconds after the overlapping restart. */
  lemma OverlapTick(s4: RecorderState, policy: GuardPolicy, seconds: real)
    requires seconds >= MaxDurationSeconds as real
    requires |s4.sessions| == 2
    requires s4.sessions[0].stopCalls == 1 && s4.sessions[0].stopping
    requires s4.sessions[1].stopCalls == 0 && !s4.sessions[1].stopping && !s4.stopping
    requires policy == SharedRefs ==> s4.sessions[0].timerLive && !s4.sessions[1].timerLive
    requires policy == PerRecorder ==> !s4.sessions[0].timerLive && s4.sessions[1].timerLive
    ensures var r := Next(s4, Tick(0, seconds), policy).state;
      && |r.sessions| == 2
      && r.sessions[1].stopCalls == 0
      && (r.sessions[1].timerLive <==> policy == PerRecorder)
      && (policy == SharedRefs ==> r.sessions[0].stopCalls == 2 && Next(r, UserStop, policy).effects == [])
      && (policy == PerRecorder ==> r.sessions[0].stopCalls == 1 && Next(r, UserStop, policy).effects == [StopRecorder(1)])
  {
    if policy == SharedRefs {
      var s4' := s4.(elapsed := seconds);
      var s5 := StopSession(s4', 0);
      assert Next(s4, Tick(0, seconds), policy).state == s5;
      assert Guard(s5, policy, 1);
    } else {
      assert Next(s4, Tick(0, seconds), policy).state == s4;
      assert !Guard(s4, policy, 1);
    }
  }

  /** As written, the shared flag was reset by the second start, so the first recorder's stale timer
      calls `stop()` on it a second time; the shared flag is now set, so the user can no longer stop
      the second recorder, and the first `onstop` has already cleared the second recorder's timer,
      so nothing stops it. */
  lemma SharedRefsOverlapCounterexample(supported: set<string>, bytes: nat, recordedSec: real, seconds: real)
    requires seconds >= MaxDurationSeconds as real
    ensures var r := Run(Init, OverlapTrace(supported, bytes, recordedSec, seconds), SharedRefs).state;
      && |r.sessions| == 2
      && r.sessions[0].stopCalls == 2
      && r.sessions[1].stopCalls == 0
      && !r.sessions[1].timerLive
      && Next(r, UserStop, SharedRefs).effects == []
  {
    var s4 := OverlapRun(SharedRefs, supported, bytes, recordedSec, seconds);
    OverlapTick(s4, SharedRefs, seconds);
  }

  /** With per-recorder guards the same trace stops the first recorder once, and the second one
      keeps its timer and stays stoppable. */
  lemma PerRecorderOverlap(supported: set<string>, bytes: nat, recordedSec: real, seconds: real)
    requires seconds >= MaxDurationSeconds as real
    ensures var r := Run(Init, OverlapTrace(supported, bytes, recordedSec, seconds), PerRecorder).state;
      && |r.sessions| == 2
      && r.sessions[0].stopCalls == 1
      && r.sessions[1].timerLive
      && Next(r, UserStop, PerRecorder).effects == [StopRecorder(1)]
  {
    var s4 := OverlapRun(PerRecorder, supported, bytes, recordedSec, seconds);
    OverlapTick(s4, PerRecorder, seconds);
  }

  // ---------------------------------------------------------------------------
  // The preview cleanup and the 20-second auto-stop
  // ---------------------------------------------------------------------------

  /** Record and stop by hand; that recording's `onstop` begins (its `stopTimer` runs) and awaits
      the WAV conversion; a second recording starts meanwhile; the conversion then finishes and the
      first recording's preview replaces the old one. */
  function PreviewTrace(supported: set<string>, bytes: nat, recordedSec: real): seq<Event> {
    [Start(true, supported), UserStop, RecorderStopped(0, bytes, "", None, recordedSec),
     Start(true, supported), PreviewReplaced]
  }

  /** The state after `PreviewTrace`, step by step: two recorders, the first stopped with its
      `onstop` begun, the second recording with its guard clear; only the policy decides whether
      its timer survived. */
  lemma PreviewRun(policy: GuardPolicy, supported: set<string>, bytes: nat, recordedSec: real)
    returns (s5: RecorderState)
    ensures s5 == Run(Init, PreviewTrace(supported, bytes, recordedSec), policy).state
    ensures |s5.sessions| == 2 && s5.recording && !s5.stopping
    ensures s5.sessions[1].stopCalls == 0 && !s5.sessions[1].stopping
    ensures policy == SharedRefs ==> !s5.sessions[1].timerLive
    ensures policy == PerRecorder ==> s5.sessions[1].timerLive
  {
    var t := PreviewTrace(supported, bytes, recordedSec);
    var s3 := FirstRecordingEnds(policy, supported, bytes, recordedSec);
    var s4 := Next(s3, t[3], policy).state;
    assert |s4.sessions| == 2 && s4.sessions[1].timerLive && s4.intervalOwner == Some(1);
    s5 := Next(s4, t[4], policy).state;
    RunFive(Init, t, policy);
  }

  /** The first three events of `PreviewTrace`: one recorder, started, stopped, and its `onstop` begun. */
  lemma FirstRecordingEnds(policy: GuardPolicy, supported: set<string>, bytes: nat, recordedSec: real)
    returns (s3: RecorderState)
    ensures var t := PreviewTrace(supported, bytes, recordedSec);
      s3 == Next(Next(Next(Init, t[0], policy).state, t[1], policy).state, t[2], policy).state
    ensures s3.hasStream && |s3.sessions| == 1 && s3.sessions[0].ended && !s3.recording
  {
    var t := PreviewTrace(supported, bytes, recordedSec);
    var s1 := Next(Init, t[0], policy).state;
    var s2 := Next(s1, t[1], policy).state;
    s3 := Next(s2, t[2], policy).state;
  }

  /** Running five events is stepping through them one after another. */
  lemma RunFive(s: RecorderState, t: seq<Event>, policy: GuardPolicy)
    requires |t| == 5 && forall i :: 0 <= i < |t| ==> WellFormedEvent(t[i])
    ensures var s1 := Next(s, t[0], policy).state;
      var s2 := Next(s1, t[1], policy).state;
      var s3 := Next(s2, t[2], policy).state;
      var s4 := Next(s3, t[3], policy).state;
      Run(s, t, policy).state == Next(s4, t[4], policy).state
  {
    var s1 := Next(s, t[0], policy).state;
    var s2 := Next(s1, t[1], policy).state;
    var s3 := Next(s2, t[2], policy).state;
    var s4 := Next(s3, t[3], policy).state;
    RunCons(s, t, policy);
    RunCons(s1, t[1..], policy);
    RunCons(s2, t[2..], policy);
    RunCons(s3, t[3..], policy);
    RunCons(s4, t[4..], policy);
    assert t[1..][1..] == t[2..] && t[2..][1..] == t[3..] && t[3..][1..] == t[4..];
    assert t[4..][1..] == [];
  }

  /** As written, the first recording's late preview cleanup clears the second recording's
      interval: no tick of that timer does anything any more, so the recording is never stopped
      at 20 seconds, although the second start followed the first `onstop`'s `stopTimer`. */
  lemma PreviewCleanupCancelsAutoStop(supported: set<string>, bytes: nat, recordedSec: real, seconds: real)
    requires seconds >= MaxDurationSeconds as real
    ensures SequentialRun(Init, PreviewTrace(supported, bytes, recordedSec))
    ensures var r := Run(Init, PreviewTrace(supported, bytes, recordedSec), SharedRefs).state;
      && |r.sessions| == 2 && r.recording
      && Next(r, Tick(1, seconds), SharedRefs) == Step(r, [])
  {
    var s5 := PreviewRun(SharedRefs, supported, bytes, recordedSec);
    PreviewTraceSequential(supported, bytes, recordedSec);
  }

  lemma PreviewTraceSequential(supported: set<string>, bytes: nat, recordedSec: real)
    ensures SequentialRun(Init, PreviewTrace(supported, bytes, recordedSec))
  {
    var t := PreviewTrace(supported, bytes, recordedSec);
    var s1 := Next(Init, t[0], SharedRefs).state;
    var s2 := Next(s1, t[1], SharedRefs).state;
    var s3 := Next(s2, t[2], SharedRefs).state;
    var s4 := Next(s3, t[3], SharedRefs).state;
    var t4 := t[1..][1..][1..][1..];
    assert t4 == [PreviewReplaced] && t4[1..] == [];
    assert SequentialRun(s4, t4);
    assert Settled(s3);
    assert SequentialRun(s3, t[1..][1..][1..]);
    assert SequentialRun(s2, t[1..][1..]);
    assert SequentialRun(s1, t[1..]);
  }

  /** With per-recorder timers the preview cleanup clears no interval: the second recording's timer
      still stops it at 20 seconds, and only once. */
  lemma PerRecorderAutoStopSurvivesPreview(supported: set<string>, bytes: nat, recordedSec: real, seconds: real)
    requires seconds >= MaxDurationSeconds as real
    ensures var r := Run(Init, PreviewTrace(supported, bytes, recordedSec), PerRecorder).state;
      var n := Next(r, Tick(1, seconds), PerRecorder);
      && n.effects == [StopRecorder(1)]
      && n.state.sessions[1].stopCalls == 1 && !n.state.recording
  {
    var s5 := PreviewRun(PerRecorder, supported, bytes, recordedSec);
  }

  /** With per-recorder timers, a running timer is cleared only by its own recorder's `onstop`:
      no other event, preview cleanup included, cancels a recording's auto-stop. */
  lemma PerRecorderTimerSurvives(s: RecorderState, e: Event, k: nat)
    requires WellFormedEvent(e) && k < |s.sessions| && s.sessions[k].timerLive
    requires !(e.RecorderStopped? && e.session == k)
    ensures var r := Next(s, e, PerRecorder).state;
      k < |r.sessions| && r.sessions[k].timerLive
  {
  }
}
