/** The re-recording guide shown under an analysis error: a fixed text chosen by looking for
    keywords in the error message, first match wins. */
module Guide {
  import opened Wrappers
  import opened Text
  import Voicefit

  const DefaultGuide: string := "조용한 공간에서 입과 마이크 거리를 10~15cm로 유지하고 또렷하게 5~10초 말해보세요."
  const SilenceGuide: string := "주변 소음을 줄이고 마이크 가까이에서 평소 대화 톤으로 다시 녹음해보세요."
  const LengthGuide: string := "최소 3초 이상, 가급적 6초 이상 녹음하면 분석 안정성이 높아집니다."
  const WavGuide: string := "녹음 또는 업로드 파일을 WAV로 준비해 주세요. 다른 형식은 분석이 제한될 수 있습니다."
  const GenericGuide: string := "입력 파일 상태를 확인한 뒤 다시 시도해 주세요. 필요하면 새로 녹음하는 것이 가장 빠릅니다."

  const SilenceKeyword: string := "무음"
  const LengthKeyword: string := "길이"
  const WavKeyword: string := "wav"

  predicate IsGuide(g: string) {
    g == DefaultGuide || g == SilenceGuide || g == LengthGuide || g == WavGuide || g == GenericGuide
  }

  /** `getGuide`: no message (or an empty one) gives the default text; otherwise the first of
      silence, length and `wav` found in the message decides, and nothing found gives the generic
      text. */
  function GetGuide(errorMessage: Option<string>): (g: string)
    ensures IsGuide(g)
    ensures g == DefaultGuide <==> errorMessage.None? || errorMessage.value == ""
  {
    if errorMessage.None? || errorMessage.value == "" then DefaultGuide
    else if Contains(errorMessage.value, SilenceKeyword) then SilenceGuide
    else if Contains(errorMessage.value, LengthKeyword) then LengthGuide
    else if Contains(errorMessage.value, WavKeyword) then WavGuide
    else GenericGuide
  }

  /** The keyword order decides: silence over length over `wav`, and a message with none of the
      three gets the generic text. */
  lemma GuidePriority(m: string)
    requires m != ""
    ensures Contains(m, SilenceKeyword) ==> GetGuide(Some(m)) == SilenceGuide
    ensures !Contains(m, SilenceKeyword) && Contains(m, LengthKeyword) ==> GetGuide(Some(m)) == LengthGuide
    ensures !Contains(m, SilenceKeyword) && !Contains(m, LengthKeyword) && Contains(m, WavKeyword) ==>
      GetGuide(Some(m)) == WavGuide
    ensures !Contains(m, SilenceKeyword) && !Contains(m, LengthKeyword) && !Contains(m, WavKeyword) ==>
      GetGuide(Some(m)) == GenericGuide
  {
  }

  /** The match is case-sensitive: a message with no lower-case `w` (say one that spells the format
      `WAV`) and neither other keyword gets the generic text. */
  lemma UpperCaseWavIsGeneric(m: string)
    requires m != ""
    requires forall i :: 0 <= i < |m| ==> m[i] != 'w'
    requires !Contains(m, SilenceKeyword) && !Contains(m, LengthKeyword)
    ensures GetGuide(Some(m)) == GenericGuide
  {
    AbsentCharNotContained(m, WavKeyword, 0, 'w');
  }

  lemma OccursAtContains(s: string, sub: string, i: int)
    requires 0 <= i <= |s| - |sub| && s[i..i + |sub|] == sub
    ensures Contains(s, sub)
  {
    assert OccursAt(s, sub, i);
  }

  /** The server's silence and short-audio texts lead to the matching guides. */
  lemma ServerMessagesGuide()
    ensures GetGuide(Some(Voicefit.MessageByCode["SILENT_AUDIO"])) == SilenceGuide
    ensures GetGuide(Some(Voicefit.MessageByCode["EMPTY_AUDIO"])) == SilenceGuide
    ensures GetGuide(Some(Voicefit.MessageByCode["AUDIO_TOO_SHORT"])) == LengthGuide
  {
    SilentAudioGuide();
    EmptyAudioGuide();
    ShortAudioGuide();
  }

  lemma SilentAudioGuide()
    ensures GetGuide(Some(Voicefit.MessageByCode["SILENT_AUDIO"])) == SilenceGuide
  {
    var silent := Voicefit.MessageByCode["SILENT_AUDIO"];
    assert silent == "거의 무음에 가까운 오디오입니다. 다시 녹음해주세요.";
    assert silent[3] == '무' && silent[4] == '음';
    assert silent[3..5] == SilenceKeyword;
    OccursAtContains(silent, SilenceKeyword, 3);
  }

  lemma EmptyAudioGuide()
    ensures GetGuide(Some(Voicefit.MessageByCode["EMPTY_AUDIO"])) == SilenceGuide
  {
    var empty := Voicefit.MessageByCode["EMPTY_AUDIO"];
    assert empty == "무음이거나 너무 짧은 오디오입니다. 3초 이상 녹음해 주세요.";
    assert empty[0] == '무' && empty[1] == '음';
    assert empty[0..2] == SilenceKeyword;
    OccursAtContains(empty, SilenceKeyword, 0);
  }

  lemma ShortAudioGuide()
    ensures GetGuide(Some(Voicefit.MessageByCode["AUDIO_TOO_SHORT"])) == LengthGuide
  {
    var short := Voicefit.MessageByCode["AUDIO_TOO_SHORT"];
    assert short == "오디오 길이가 너무 짧습니다. 3초 이상으로 다시 시도해주세요.";
    assert short[4] == '길' && short[5] == '이';
    assert short[4..6] == LengthKeyword;
    OccursAtContains(short, LengthKeyword, 4);
    AbsentCharNotContained(short, SilenceKeyword, 1, '음');
  }
}
