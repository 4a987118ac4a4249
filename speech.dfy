/** The speech service: language and voice selection, the normalisation of a
    recognition result, the two-attempt recognition, the synthesis outcome,
    and the two endpoints that carry audio as base64 text. The Azure Speech
    SDK calls are parameters. */
module Speech {
  import opened Wrappers
  import opened Text
  import opened Base64

  // ---------------------------------------------------------------------
  // Languages and voices
  // ---------------------------------------------------------------------

  const LanguageMappings: map<string, string> :=
    map["en" := "en-US", "kn" := "kn-IN", "hi" := "hi-IN", "ta" := "ta-IN"]

  const VoiceMappings: map<string, string> :=
    map["en-US" := "en-US-AriaNeural", "kn-IN" := "kn-IN-SapnaNeural",
        "hi-IN" := "hi-IN-SwaraNeural", "ta-IN" := "ta-IN-PallaviNeural"]

  const DefaultVoice: string := "en-US-AriaNeural"

  /** `language_mappings.get(language, language)`. */
  function FullLanguage(language: string): string {
    if language in LanguageMappings then LanguageMappings[language] else language
  }

  /** An explicit, non-empty voice wins; otherwise the voice of the mapped locale, or the default. */
  function SelectVoice(language: string, voice: Option<string>): string {
    if voice.Some? && voice.value != "" then voice.value
    else
      var full := FullLanguage(language);
      if full in VoiceMappings then VoiceMappings[full] else DefaultVoice
  }

  /** The four short codes map to their locales; every other code passes
      through unchanged, so mapping twice is mapping once. */
  lemma FullLanguageCases(language: string)
    ensures language == "en" ==> FullLanguage(language) == "en-US"
    ensures language == "kn" ==> FullLanguage(language) == "kn-IN"
    ensures language == "hi" ==> FullLanguage(language) == "hi-IN"
    ensures language == "ta" ==> FullLanguage(language) == "ta-IN"
    ensures language !in {"en", "kn", "hi", "ta"} ==> FullLanguage(language) == language
    ensures FullLanguage(FullLanguage(language)) == FullLanguage(language)
  {
    assert LanguageMappings.Keys == {"en", "kn", "hi", "ta"};
    assert forall k :: k in LanguageMappings ==> LanguageMappings[k] !in LanguageMappings;
  }

  /** Without an explicit voice, a short code and its locale select the same
      voice, each supported language gets its own neural voice, and a
      language outside the tables gets the default. */
  lemma SelectVoiceCases(language: string, voice: Option<string>)
    ensures voice.Some? && voice.value != "" ==> SelectVoice(language, voice) == voice.value
    ensures SelectVoice(language, None) == SelectVoice(FullLanguage(language), None)
    ensures SelectVoice(language, Some("")) == SelectVoice(language, None)
    ensures language in {"kn", "kn-IN"} ==> SelectVoice(language, None) == "kn-IN-SapnaNeural"
    ensures language in {"hi", "hi-IN"} ==> SelectVoice(language, None) == "hi-IN-SwaraNeural"
    ensures language in {"ta", "ta-IN"} ==> SelectVoice(language, None) == "ta-IN-PallaviNeural"
    ensures FullLanguage(language) !in VoiceMappings ==> SelectVoice(language, None) == DefaultVoice
  {
    FullLanguageCases(language);
  }

  /** One entry of the supported-languages list. */
  datatype LanguageInfo = LanguageInfo(code: string, name: string, fullCode: string)

  const SupportedLanguages: seq<LanguageInfo> := [
    LanguageInfo("en", "English", "en-US"),
    LanguageInfo("kn", "ಕನ್ನಡ (Kannada)", "kn-IN"),
    LanguageInfo("hi", "हिन्दी (Hindi)", "hi-IN"),
    LanguageInfo("ta", "தமிழ் (Tamil)", "ta-IN")]

  /** The list agrees with the language mapping: its codes are exactly the
      mapped codes, and each full code is what the mapping gives. */
  lemma SupportedLanguagesAgree()
    ensures forall e :: e in SupportedLanguages ==> FullLanguage(e.code) == e.fullCode
    ensures forall e :: e in SupportedLanguages ==> e.fullCode in VoiceMappings
    ensures forall c :: c in LanguageMappings <==> exists e :: e in SupportedLanguages && e.code == c
  {
    var s := SupportedLanguages;
    assert s[0].code == "en" && s[1].code == "kn" && s[2].code == "hi" && s[3].code == "ta";
    assert LanguageMappings.Keys == {"en", "kn", "hi", "ta"};
  }

  // ---------------------------------------------------------------------
  // Recognition
  // ---------------------------------------------------------------------

  datatype ResultReason =
    | RecognizedSpeech
    | NoMatch
    | Canceled
    | SynthesizingAudioCompleted
    | OtherReason(name: string)

  /** One entry of the `NBest` list of the detailed JSON result. */
  datatype NBestEntry = NBestEntry(confidence: Option<real>)

  /** The detailed JSON result: text that does not parse, or an object that
      may hold an `NBest` list. */
  datatype JsonResult = Unparsable | JsonObject(nBest: Option<seq<NBestEntry>>)

  /** What the recognizer returns; `json` is None when the result has no
      properties or no detailed JSON. */
  datatype RecognitionResult = RecognitionResult(reason: ResultReason, text: string, json: Option<JsonResult>)

  /** What the recognition endpoint reports. */
  datatype Transcript = Transcript(text: string, confidence: real)

  /** The confidence of the first `NBest` entry when there is one and it
      carries a confidence, 0.0 otherwise (a parse failure also gives 0.0). */
  function DetailedConfidence(json: Option<JsonResult>): (c: real)
    ensures (json.Some? && json.value.JsonObject? && json.value.nBest.Some?
             && |json.value.nBest.value| > 0 && json.value.nBest.value[0].confidence.Some?)
            ==> c == json.value.nBest.value[0].confidence.value
    ensures !(json.Some? && json.value.JsonObject? && json.value.nBest.Some?
              && |json.value.nBest.value| > 0 && json.value.nBest.value[0].confidence.Some?)
            ==> c == 0.0
  {
    match json
    case None => 0.0
    case Some(Unparsable) => 0.0
    case Some(JsonObject(nBest)) =>
      if nBest.Some? && |nBest.value| > 0 then nBest.value[0].confidence.GetOr(0.0) else 0.0
  }

  /** `_process_recognition_result`. */
  function ProcessRecognitionResult(result: RecognitionResult): (t: Transcript)
    ensures result.reason == RecognizedSpeech ==> t.text == result.text
    ensures result.reason == RecognizedSpeech ==>
      (match result.json
       case Some(JsonObject(Some(nb))) =>
         t.confidence == (if |nb| > 0 && nb[0].confidence.Some? then nb[0].confidence.value else 0.0)
       case _ => t.confidence == 0.0)
    ensures result.reason != RecognizedSpeech ==> t == Transcript("", 0.0)
  {
    if result.reason == RecognizedSpeech then Transcript(result.text, DetailedConfidence(result.json))
    else Transcript("", 0.0)
  }

  /** A non-zero confidence comes only from recognised speech whose first
      `NBest` entry carries exactly that confidence. */
  lemma ConfidenceSource(result: RecognitionResult)
    ensures var t := ProcessRecognitionResult(result);
      t.confidence != 0.0 ==>
        && result.reason == RecognizedSpeech
        && result.json.Some? && result.json.value.JsonObject?
        && result.json.value.nBest.Some? && |result.json.value.nBest.value| > 0
        && result.json.value.nBest.value[0].confidence == Some(t.confidence)
  {
  }

  /** The audio format the first attempt asks for: 16 kHz, 16-bit, mono. */
  datatype AudioFormat = AudioFormat(samplesPerSecond: int, bitsPerSample: int, channels: int)

  const FirstAttemptFormat: AudioFormat := AudioFormat(16000, 16, 1)

  /** What a recognizer is set up with. */
  datatype RecognitionSetup = RecognitionSetup(language: string, format: Option<AudioFormat>, audio: seq<Byte>)

  /** The first attempt is accepted only when it recognised speech and its
      text is not blank after stripping. */
  predicate AcceptFirst(first: Result<RecognitionResult, string>) {
    first.Ok? && first.value.reason == RecognizedSpeech && Strip(first.value.text) != []
  }

  /** The outcome of `speech_to_text` given the outcomes of its two attempts
      (an attempt that raises is an `Err`). */
  function RecognitionFallback(first: Result<RecognitionResult, string>,
                               second: Result<RecognitionResult, string>): Result<Transcript, string> {
    if AcceptFirst(first) then Ok(ProcessRecognitionResult(first.value))
    else match second
      case Ok(result) => Ok(ProcessRecognitionResult(result))
      case Err(e) => Err(e)
  }

  /** The second attempt decides whenever the first is not accepted, whatever
      it returns; an accepted first attempt carries non-blank text. */
  lemma FallbackCases(first: Result<RecognitionResult, string>, second: Result<RecognitionResult, string>)
    ensures !AcceptFirst(first) ==>
      (RecognitionFallback(first, second) ==
       if second.Ok? then Ok(ProcessRecognitionResult(second.value)) else Err(second.error))
    ensures AcceptFirst(first) ==>
      (RecognitionFallback(first, second).Ok? && !AllSpace(RecognitionFallback(first, second).value.text))
    ensures RecognitionFallback(first, second).Err? <==> !AcceptFirst(first) && second.Err?
  {
    if AcceptFirst(first) {
      StripEmpty(first.value.text);
    }
  }

  /** A first attempt that recognised only whitespace is discarded: the
      second attempt's result is reported, even when it is itself empty. */
  lemma BlankFirstAttemptDiscarded(first: Result<RecognitionResult, string>, second: Result<RecognitionResult, string>)
    requires first.Ok? && AllSpace(first.value.text)
    requires second.Ok?
    ensures RecognitionFallback(first, second) == Ok(ProcessRecognitionResult(second.value))
  {
    StripEmpty(first.value.text);
  }

  // ---------------------------------------------------------------------
  // Synthesis
  // ---------------------------------------------------------------------

  datatype SynthesisResult = SynthesisResult(reason: ResultReason, audioData: seq<Byte>)

  function ReasonName(reason: ResultReason): string {
    match reason
    case RecognizedSpeech => "ResultReason.RecognizedSpeech"
    case NoMatch => "ResultReason.NoMatch"
    case Canceled => "ResultReason.Canceled"
    case SynthesizingAudioCompleted => "ResultReason.SynthesizingAudioCompleted"
    case OtherReason(name) => "ResultReason." + name
  }

  /** Audio exactly when synthesis completed, otherwise the failure is raised. */
  function SynthesisOutcome(result: SynthesisResult): (r: Result<seq<Byte>, string>)
    ensures r.Ok? <==> result.reason == SynthesizingAudioCompleted
    ensures r.Ok? ==> r.value == result.audioData
    ensures r.Err? ==> r.error == "Speech synthesis failed: " + ReasonName(result.reason)
  {
    if result.reason == SynthesizingAudioCompleted then Ok(result.audioData)
    else Err("Speech synthesis failed: " + ReasonName(result.reason))
  }

  // ---------------------------------------------------------------------
  // The service and its endpoints
  // ---------------------------------------------------------------------

  /** The shared speech configuration, whose recognition language and
      synthesis voice each call overwrites. */
  class SpeechService {
    var recognitionLanguage: string
    var synthesisVoiceName: string

    /** Both settings start unset (empty). */
    constructor()
      ensures recognitionLanguage == "" && synthesisVoiceName == ""
    {
      recognitionLanguage := "";
      synthesisVoiceName := "";
    }

    /** `speech_to_text`: set the recognition language, try once with the
        16 kHz mono format and, unless that attempt is accepted, once more
        without a format. `recognize` stands for one SDK recognition. */
    method SpeechToText(audio: seq<Byte>, language: string,
                        recognize: RecognitionSetup -> Result<RecognitionResult, string>)
      returns (r: Result<Transcript, string>)
      modifies this
      ensures recognitionLanguage == FullLanguage(language)
      ensures synthesisVoiceName == old(synthesisVoiceName)
      ensures r == RecognitionFallback(
        recognize(RecognitionSetup(FullLanguage(language), Some(FirstAttemptFormat), audio)),
        recognize(RecognitionSetup(FullLanguage(language), None, audio)))
    {
      var fullLanguage := FullLanguage(language);
      recognitionLanguage := fullLanguage;
      var first := recognize(RecognitionSetup(recognitionLanguage, Some(FirstAttemptFormat), audio));
      if first.Ok? && first.value.reason == RecognizedSpeech && Strip(first.value.text) != [] {
        return Ok(ProcessRecognitionResult(first.value));
      }
      var second := recognize(RecognitionSetup(recognitionLanguage, None, audio));
      if second.Err? {
        return Err(second.error);
      }
      r := Ok(ProcessRecognitionResult(second.value));
    }

    /** `text_to_speech`: choose and set the voice, synthesize, and return the
        audio only when synthesis completed. `synthesize` stands for one SDK
        synthesis with the given voice. */
    method TextToSpeech(text: string, language: string, voice: Option<string>,
                        synthesize: (string, string) -> Result<SynthesisResult, string>)
      returns (r: Result<seq<Byte>, string>)
      modifies this
      ensures synthesisVoiceName == SelectVoice(language, voice)
      ensures recognitionLanguage == old(recognitionLanguage)
      ensures r == match synthesize(SelectVoice(language, voice), text)
                   case Err(e) => Err(e)
                   case Ok(result) => SynthesisOutcome(result)
    {
      synthesisVoiceName := SelectVoice(language, voice);
      var result := synthesize(synthesisVoiceName, text);
      if result.Err? {
        return Err(result.error);
      }
      if result.value.reason == SynthesizingAudioCompleted {
        return Ok(result.value.audioData);
      }
      r := Err("Speech synthesis failed: " + ReasonName(result.value.reason));
    }
  }

  /** An HTTP error response. */
  datatype HttpError = HttpError(statusCode: int, detail: string)

  /** The answer of the synthesis endpoint. */
  datatype AudioResponse = AudioResponse(audioBase64: string, format: string)

  /** The speech-to-text endpoint: decode the base64 audio, recognise it, and
      turn any failure into a 500. */
  method ConvertSpeechToText(service: SpeechService, audioBase64: string, language: string,
                             recognize: RecognitionSetup -> Result<RecognitionResult, string>)
    returns (r: Result<Transcript, HttpError>)
    modifies service
    ensures Decode(audioBase64).None? ==> r.Err? && r.error.statusCode == 500
    ensures Decode(audioBase64).None? ==> service.recognitionLanguage == old(service.recognitionLanguage)
    ensures Decode(audioBase64).Some? ==> service.recognitionLanguage == FullLanguage(language)
    ensures service.synthesisVoiceName == old(service.synthesisVoiceName)
    ensures Decode(audioBase64).Some? ==>
      var audio := Decode(audioBase64).value;
      var outcome := RecognitionFallback(
        recognize(RecognitionSetup(FullLanguage(language), Some(FirstAttemptFormat), audio)),
        recognize(RecognitionSetup(FullLanguage(language), None, audio)));
      && (outcome.Ok? ==> r == Ok(outcome.value))
      && (outcome.Err? ==> r == Err(HttpError(500, "Speech recognition failed: " + outcome.error)))
  {
    var audioData := Decode(audioBase64);
    if audioData.None? {
      return Err(HttpError(500, "Speech recognition failed: invalid base64 audio"));
    }
    var result := service.SpeechToText(audioData.value, language, recognize);
    if result.Err? {
      return Err(HttpError(500, "Speech recognition failed: " + result.error));
    }
    r := Ok(result.value);
  }

  /** The text-to-speech endpoint: synthesize, base64-encode the audio, and
      report the format as "wav"; any failure becomes a 500. */
  method ConvertTextToSpeech(service: SpeechService, text: string, language: string, voice: Option<string>,
                             synthesize: (string, string) -> Result<SynthesisResult, string>)
    returns (r: Result<AudioResponse, HttpError>)
    modifies service
    ensures service.synthesisVoiceName == SelectVoice(language, voice)
    ensures service.recognitionLanguage == old(service.recognitionLanguage)
    ensures r.Ok? <==> synthesize(SelectVoice(language, voice), text).Ok?
                       && synthesize(SelectVoice(language, voice), text).value.reason == SynthesizingAudioCompleted
    ensures r.Ok? ==> r.value.format == "wav"
    ensures r.Ok? ==>
      var audio := synthesize(SelectVoice(language, voice), text).value.audioData;
      r.value.audioBase64 == Encode(audio) && Decode(r.value.audioBase64) == Some(audio)
    ensures r.Err? ==>
      r.error == HttpError(500, "Speech synthesis failed: " +
        match synthesize(SelectVoice(language, voice), text)
        case Err(e) => e
        case Ok(result) => SynthesisOutcome(result).error)
  {
    var audioData := service.TextToSpeech(text, language, voice, synthesize);
    if audioData.Err? {
      return Err(HttpError(500, "Speech synthesis failed: " + audioData.error));
    }
    var audioBase64 := Encode(audioData.value);
    DecodeEncode(audioData.value);
    r := Ok(AudioResponse(audioBase64, "wav"));
  }
}
