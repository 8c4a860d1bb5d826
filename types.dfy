/** The data model shared by the synthesis pipeline and the interface. */
module Types {
  import opened Wrappers
  import opened Strings

  /** The prebuilt voices the provider offers. */
  datatype VoiceName = Puck | Charon | Kore | Fenrir | Zephyr | Aoede | Iapetus | Leda | Orus | Umbriel

  /** The string value of each enum member, as sent to the provider. */
  function VoiceId(v: VoiceName): string {
    match v
    case Puck => "puck"
    case Charon => "charon"
    case Kore => "kore"
    case Fenrir => "fenrir"
    case Zephyr => "zephyr"
    case Aoede => "aoede"
    case Iapetus => "iapetus"
    case Leda => "leda"
    case Orus => "orus"
    case Umbriel => "umbriel"
  }

  const AllVoices: seq<VoiceName> :=
    [Puck, Charon, Kore, Fenrir, Zephyr, Aoede, Iapetus, Leda, Orus, Umbriel]

  /** The voice whose string value is `s`, if any: the inverse of `VoiceId`. */
  function VoiceOf(s: string): (r: Option<VoiceName>)
    ensures r.Some? ==> VoiceId(r.value) == s
  {
    if s == "puck" then Some(Puck)
    else if s == "charon" then Some(Charon)
    else if s == "kore" then Some(Kore)
    else if s == "fenrir" then Some(Fenrir)
    else if s == "zephyr" then Some(Zephyr)
    else if s == "aoede" then Some(Aoede)
    else if s == "iapetus" then Some(Iapetus)
    else if s == "leda" then Some(Leda)
    else if s == "orus" then Some(Orus)
    else if s == "umbriel" then Some(Umbriel)
    else None
  }

  /** Reading back a voice's string value gives that voice, so distinct voices have distinct values. */
  lemma VoiceIdRoundTrip(v: VoiceName)
    ensures VoiceOf(VoiceId(v)) == Some(v)
  {
  }

  /** The string values of the voices are distinct. */
  lemma {:induction false} VoiceIdInjective(v: VoiceName, w: VoiceName)
    ensures VoiceId(v) == VoiceId(w) ==> v == w
  {
    VoiceIdRoundTrip(v);
    VoiceIdRoundTrip(w);
  }

  /** There are exactly ten voices, each listed once. */
  lemma VoiceNamesDistinct()
    ensures |AllVoices| == 10
    ensures forall v: VoiceName :: v in AllVoices
    ensures forall i, j :: 0 <= i < j < |AllVoices| ==> AllVoices[i] != AllVoices[j]
  {
    forall v: VoiceName ensures v in AllVoices {
      match v
      case Puck => assert AllVoices[0] == v;
      case Charon => assert AllVoices[1] == v;
      case Kore => assert AllVoices[2] == v;
      case Fenrir => assert AllVoices[3] == v;
      case Zephyr => assert AllVoices[4] == v;
      case Aoede => assert AllVoices[5] == v;
      case Iapetus => assert AllVoices[6] == v;
      case Leda => assert AllVoices[7] == v;
      case Orus => assert AllVoices[8] == v;
      case Umbriel => assert AllVoices[9] == v;
    }
  }

  /** Every voice's string value is non-empty and already lower-case. */
  lemma VoiceIdsLowerCase(v: VoiceName)
    ensures VoiceId(v) != [] && Lower(VoiceId(v)) == VoiceId(v)
  {
    var s := VoiceId(v);
    assert forall k :: 0 <= k < |s| ==> 'a' <= s[k] <= 'z';
  }

  datatype Gender = Male | Female

  /** `VOICE_METADATA`: the gender shown for each voice. */
  const VoiceMetadata: map<VoiceName, Gender> := map[
    Puck := Male, Charon := Male, Kore := Female, Fenrir := Male, Zephyr := Male,
    Aoede := Female, Iapetus := Male, Leda := Female, Orus := Male, Umbriel := Male]

  /** Every voice has an entry in `VOICE_METADATA`, and three of the ten are female. */
  lemma VoiceMetadataTotal()
    ensures forall v: VoiceName :: v in VoiceMetadata
    ensures forall v: VoiceName :: VoiceMetadata[v] == Female <==> v == Kore || v == Aoede || v == Leda
  {
    forall v: VoiceName ensures v in VoiceMetadata {
      match v
      case Puck => case Charon => case Kore => case Fenrir => case Zephyr =>
      case Aoede => case Iapetus => case Leda => case Orus => case Umbriel =>
    }
  }

  datatype LanguageCode = Original | HiIN | EnUS | EnIN | EsES | FrFR | DeDE | JaJP | ZhCN

  /** The string value of each `LanguageCode`. */
  function LanguageId(l: LanguageCode): string {
    match l
    case Original => "original"
    case HiIN => "hi-IN"
    case EnUS => "en-US"
    case EnIN => "en-IN"
    case EsES => "es-ES"
    case FrFR => "fr-FR"
    case DeDE => "de-DE"
    case JaJP => "ja-JP"
    case ZhCN => "zh-CN"
  }

  datatype Language = Language(code: LanguageCode, displayLabel: string)

  /** `LANGUAGES`: the choices offered by the language selector, in order. */
  const Languages: seq<Language> := [
    Language(Original, "Original (No Translation)"),
    Language(HiIN, "Hindi (India)"),
    Language(EnUS, "English (US)"),
    Language(EnIN, "English (India)"),
    Language(EsES, "Spanish"),
    Language(FrFR, "French"),
    Language(DeDE, "German"),
    Language(JaJP, "Japanese"),
    Language(ZhCN, "Chinese (Simplified)")]

  /** The codes of `LANGUAGES`, in order. */
  function LanguageCodes(): (codes: seq<LanguageCode>)
    ensures |codes| == |Languages| && forall i :: 0 <= i < |codes| ==> codes[i] == Languages[i].code
  {
    seq(|Languages|, i requires 0 <= i < |Languages| => Languages[i].code)
  }

  /**
   * `LANGUAGES` offers each of the nine codes exactly once, 'original' first,
   * and the codes' string values are distinct.
   */
  lemma LanguagesListEachCodeOnce()
    ensures |Languages| == 9 && Languages[0].code == Original
    ensures forall l: LanguageCode :: l in LanguageCodes()
    ensures forall i, j :: 0 <= i < j < |Languages| ==> Languages[i].code != Languages[j].code
    ensures forall l, m: LanguageCode :: LanguageId(l) == LanguageId(m) ==> l == m
  {
    var codes := LanguageCodes();
    assert codes == [Original, HiIN, EnUS, EnIN, EsES, FrFR, DeDE, JaJP, ZhCN];
    forall l: LanguageCode ensures l in codes {
      match l
      case Original => assert codes[0] == l;
      case HiIN => assert codes[1] == l;
      case EnUS => assert codes[2] == l;
      case EnIN => assert codes[3] == l;
      case EsES => assert codes[4] == l;
      case FrFR => assert codes[5] == l;
      case DeDE => assert codes[6] == l;
      case JaJP => assert codes[7] == l;
      case ZhCN => assert codes[8] == l;
    }
  }

  /** `TTSConfig`: immutable for one request. */
  datatype TTSConfig = TTSConfig(voice: VoiceName, speed: real, language: LanguageCode)

  /** `ProcessingState`, the value handed to the progress callback. */
  datatype ProcessingState = ProcessingState(
    isProcessing: bool, progress: real, currentStep: string, totalChunks: nat, processedChunks: nat)

  /** The documented range of `ProcessingState.progress`. */
  predicate ProgressInRange(p: ProcessingState) {
    0.0 <= p.progress <= 100.0
  }

  /** Where one chunk's audio lies in the merged timeline, in seconds. */
  datatype ChunkTiming = ChunkTiming(start: real, end: real, duration: real)

  /**
   * `SynthesisResult`. The object URL the source returns is a handle on a
   * blob; the model returns the blob's bytes instead.
   */
  datatype SynthesisResult = SynthesisResult(audio: seq<Byte>, chunks: seq<string>, timings: seq<ChunkTiming>)

  datatype HistoryItem = HistoryItem(id: string, timestamp: int, text: string, config: TTSConfig)
}
