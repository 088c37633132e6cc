/** The browser speech helper: the language-code table, the recogniser's
    configuration, the aggregation of recognition results, the error messages and
    the choice of a synthesis voice. Browser objects are records or parameters:
    whether recognition or synthesis is supported is passed in, and the available
    voices are a list. */
module Speech {
  import opened Wrappers
  import opened Text

  /* ------------------------------------------------- language codes */

  /** The Indian languages that get an "-IN" region. */
  const IndianLanguages: set<string> := {"hi", "bn", "ta", "te", "mr", "gu", "kn", "ml", "pa", "or", "as"}

  const LanguageMap: map<string, string> := map[
    "en" := "en-US", "hi" := "hi-IN", "bn" := "bn-IN", "ta" := "ta-IN", "te" := "te-IN",
    "mr" := "mr-IN", "gu" := "gu-IN", "kn" := "kn-IN", "ml" := "ml-IN", "pa" := "pa-IN",
    "or" := "or-IN", "as" := "as-IN"]

  /** `getLanguageCode`: the Indian languages map to `<code>-IN`; English and every
      other code map to "en-US". */
  function GetLanguageCode(language: string): (r: string)
    ensures language in IndianLanguages ==> r == language + "-IN"
    ensures language !in IndianLanguages ==> r == "en-US"
  {
    if language in LanguageMap then LanguageMap[language] else "en-US"
  }

  /** The part of a language tag before its first '-'. */
  function LanguagePrefix(lang: string): string {
    BeforeFirst(lang, '-')
  }

  /** The prefix used for voice matching is the language itself for the Indian
      languages and "en" for everything else. */
  lemma PrefixOfLanguageCode(language: string)
    ensures LanguagePrefix(GetLanguageCode(language)) == if language in IndianLanguages then language else "en"
  {
    var code := GetLanguageCode(language);
    var prefix := if language in IndianLanguages then language else "en";
    assert |prefix| == 2 && '-' !in prefix;
    assert code == prefix + "-" + (if language in IndianLanguages then "IN" else "US");
    PrefixBeforeSeparator(prefix, (if language in IndianLanguages then "IN" else "US"), '-');
  }

  lemma {:induction false} PrefixBeforeSeparator(a: string, b: string, sep: char)
    requires sep !in a
    ensures BeforeFirst(a + [sep] + b, sep) == a
  {
    var s := a + [sep] + b;
    var r := BeforeFirst(s, sep);
    assert s[|a|] == sep;
    assert forall i :: 0 <= i < |a| ==> s[i] == a[i];
    assert |r| == |a|;
    assert r == s[..|a|] == a;
  }

  /* ------------------------------------------------------ recognition */

  /** The options a caller passes; absent fields are `None`. */
  datatype RecognitionOptions = RecognitionOptions(
    continuous: Option<bool>, interimResults: Option<bool>, language: Option<string>)

  /** A recogniser: the settings the service configures. */
  class Recognition {
    var continuous: bool
    var interimResults: bool
    var lang: string

    /** The Web Speech API's initial settings. */
    constructor ()
      ensures !continuous && !interimResults && lang == ""
    {
      continuous := false;
      interimResults := false;
      lang := "";
    }
  }

  /** The language a recogniser or an utterance is set to (`language || 'en'`). */
  function RequestedCode(language: Option<string>): string {
    GetLanguageCode(if Truthy(language) then language.value else "en")
  }

  class SpeechService {
    var recognition: Recognition?

    constructor ()
      ensures recognition == null
    {
      recognition := null;
    }

    /** `createRecognition`: nothing when unsupported; otherwise a new recogniser,
        kept as the current one, continuous only on request, interim results
        unless refused, and set to the requested language's code. */
    method CreateRecognition(supported: bool, options: RecognitionOptions) returns (r: Recognition?)
      modifies this
      ensures !supported ==> r == null && recognition == old(recognition)
      ensures supported ==>
        && r != null && fresh(r) && recognition == r
        && r.continuous == (options.continuous.Some? && options.continuous.value)
        && r.interimResults == (options.interimResults.None? || options.interimResults.value)
        && r.lang == RequestedCode(options.language)
    {
      if !supported {
        return null;
      }
      var rec := new Recognition();
      recognition := rec;
      rec.continuous := if options.continuous.Some? then options.continuous.value else false;
      rec.interimResults := if options.interimResults.Some? then options.interimResults.value else true;
      rec.lang := GetLanguageCode(if Truthy(options.language) then options.language.value else "en");
      return rec;
    }
  }

  /* --------------------------------------------------- result events */

  /** One recognition result: its first alternative's transcript and finality. */
  datatype RecognitionResult = RecognitionResult(transcript: string, isFinal: bool)

  /** The concatenated transcripts of the final results, in order. */
  function FinalText(results: seq<RecognitionResult>): string {
    if results == [] then ""
    else
      var last := results[|results| - 1];
      FinalText(results[..|results| - 1]) + (if last.isFinal then last.transcript else "")
  }

  /** The concatenated transcripts of the interim results, in order. */
  function InterimText(results: seq<RecognitionResult>): string {
    if results == [] then ""
    else
      var last := results[|results| - 1];
      InterimText(results[..|results| - 1]) + (if last.isFinal then "" else last.transcript)
  }

  /** The text `onresult` reports for the results from `resultIndex` on, if any:
      the final text when there is some, else the interim text. */
  function Reported(results: seq<RecognitionResult>, resultIndex: nat): Option<string> {
    var newResults := if resultIndex <= |results| then results[resultIndex..] else [];
    var result := if FinalText(newResults) != "" then FinalText(newResults) else InterimText(newResults);
    if result != "" then Some(result) else None
  }

  /** Every character of the new results lands in exactly one of the two texts. */
  lemma {:induction false} TextsPartition(results: seq<RecognitionResult>)
    ensures |FinalText(results)| + |InterimText(results)| == TotalLength(results)
  {
    if results != [] {
      TextsPartition(results[..|results| - 1]);
    }
  }

  function TotalLength(results: seq<RecognitionResult>): nat {
    if results == [] then 0 else TotalLength(results[..|results| - 1]) + |results[|results| - 1].transcript|
  }

  /** `onResult` is called exactly when some new result has a non-empty transcript. */
  lemma NothingReportedIffSilent(results: seq<RecognitionResult>, resultIndex: nat)
    requires resultIndex <= |results|
    ensures Reported(results, resultIndex).None?
      <==> forall i :: resultIndex <= i < |results| ==> results[i].transcript == ""
  {
    var newResults := results[resultIndex..];
    TextsPartition(newResults);
    if forall i :: resultIndex <= i < |results| ==> results[i].transcript == "" {
      AllSilent(newResults);
    } else {
      var i :| resultIndex <= i < |results| && results[i].transcript != "";
      assert newResults[i - resultIndex] == results[i];
      SomeoneSpoke(newResults, i - resultIndex);
    }
  }

  lemma {:induction false} AllSilent(results: seq<RecognitionResult>)
    requires forall i :: 0 <= i < |results| ==> results[i].transcript == ""
    ensures TotalLength(results) == 0
  {
    if results != [] {
      AllSilent(results[..|results| - 1]);
    }
  }

  lemma {:induction false} SomeoneSpoke(results: seq<RecognitionResult>, k: nat)
    requires k < |results| && results[k].transcript != ""
    ensures TotalLength(results) > 0
  {
    if k < |results| - 1 {
      SomeoneSpoke(results[..|results| - 1], k);
    }
  }

  /** `onresult`: one pass from `resultIndex`, appending each transcript to the
      final or the interim text, then reporting the chosen text if non-empty. */
  method OnResult(results: seq<RecognitionResult>, resultIndex: nat) returns (delivered: Option<string>)
    ensures delivered == Reported(results, resultIndex)
    ensures delivered.Some? ==> delivered.value != ""
  {
    var finalTranscript := "";
    var interimTranscript := "";
    var i := resultIndex;
    while i < |results|
      invariant resultIndex <= i <= |results| || (i == resultIndex && resultIndex > |results|)
      invariant i <= |results| ==> finalTranscript == FinalText(results[resultIndex..i])
      invariant i <= |results| ==> interimTranscript == InterimText(results[resultIndex..i])
      invariant i > |results| ==> finalTranscript == "" && interimTranscript == ""
      decreases |results| - i
    {
      var transcript := results[i].transcript;
      assert results[resultIndex..i + 1][..i - resultIndex] == results[resultIndex..i];
      if results[i].isFinal {
        finalTranscript := finalTranscript + transcript;
      } else {
        interimTranscript := interimTranscript + transcript;
      }
      i := i + 1;
    }
    if resultIndex <= |results| {
      assert results[resultIndex..i] == results[resultIndex..];
    }
    var result := if finalTranscript != "" then finalTranscript else interimTranscript;
    delivered := if result != "" then Some(result) else None;
  }

  /* ---------------------------------------------------------- errors */

  const GenericErrorPrefix: string := "Speech recognition error: "

  /** The message shown for a recognition error code. */
  function ErrorMessage(code: string): (r: string)
    ensures code == "no-speech" ==> r == "No speech detected. Please try again."
    ensures code == "audio-capture" ==> r == "Microphone not accessible. Please check permissions."
    ensures code == "not-allowed" ==> r == "Microphone permission denied."
    ensures code == "network" ==> r == "Network error occurred."
    ensures code !in {"no-speech", "audio-capture", "not-allowed", "network"} ==> r == GenericErrorPrefix + code
  {
    match code
    case "no-speech" => "No speech detected. Please try again."
    case "audio-capture" => "Microphone not accessible. Please check permissions."
    case "not-allowed" => "Microphone permission denied."
    case "network" => "Network error occurred."
    case _ => GenericErrorPrefix + code
  }

  /** Different error codes never produce the same message. */
  lemma ErrorMessageInjective(a: string, b: string)
    requires a != b
    ensures ErrorMessage(a) != ErrorMessage(b)
  {
    var known := {"no-speech", "audio-capture", "not-allowed", "network"};
    if a !in known && b !in known {
      assert (GenericErrorPrefix + a)[|GenericErrorPrefix|..] == a;
      assert (GenericErrorPrefix + b)[|GenericErrorPrefix|..] == b;
    } else if a !in known {
      NotGeneric(b);
      assert (GenericErrorPrefix + a)[..|GenericErrorPrefix|] == GenericErrorPrefix;
    } else if b !in known {
      NotGeneric(a);
      assert (GenericErrorPrefix + b)[..|GenericErrorPrefix|] == GenericErrorPrefix;
    }
  }

  /** The four fixed messages do not start with the generic prefix. */
  lemma NotGeneric(code: string)
    requires code in {"no-speech", "audio-capture", "not-allowed", "network"}
    ensures !StartsWith(ErrorMessage(code), GenericErrorPrefix)
  {
    var m := ErrorMessage(code);
    assert GenericErrorPrefix[0] == 'S';
    if code == "no-speech" || code == "network" {
      assert m[0] == 'N';
    } else if code == "audio-capture" {
      assert m[25] == '.' && GenericErrorPrefix[25] == ' ';
    } else {
      assert code == "not-allowed";
      assert m[0] == 'M';
    }
  }

  /** `onerror`: the message assigned by the switch on the error code. */
  method OnError(error: string) returns (errorMessage: string)
    ensures errorMessage == ErrorMessage(error)
  {
    errorMessage := "Speech recognition error";
    if error == "no-speech" {
      errorMessage := "No speech detected. Please try again.";
    } else if error == "audio-capture" {
      errorMessage := "Microphone not accessible. Please check permissions.";
    } else if error == "not-allowed" {
      errorMessage := "Microphone permission denied.";
    } else if error == "network" {
      errorMessage := "Network error occurred.";
    } else {
      errorMessage := GenericErrorPrefix + error;
    }
  }

  /* -------------------------------------------------------- synthesis */

  datatype Voice = Voice(name: string, lang: string)

  /** The position of the first voice whose language starts with `prefix`. */
  function FindVoice(voices: seq<Voice>, prefix: string): (r: Option<nat>)
    ensures r.Some? ==> r.value < |voices| && StartsWith(voices[r.value].lang, prefix)
    ensures r.Some? ==> forall j :: 0 <= j < r.value ==> !StartsWith(voices[j].lang, prefix)
    ensures r.None? ==> forall j :: 0 <= j < |voices| ==> !StartsWith(voices[j].lang, prefix)
  {
    if voices == [] then None
    else if StartsWith(voices[0].lang, prefix) then Some(0)
    else match FindVoice(voices[1..], prefix)
      case None => None
      case Some(k) => Some(k + 1)
  }

  /** The utterance `speak` hands to the synthesiser. */
  datatype Utterance = Utterance(text: string, lang: string, rate: real, pitch: real, volume: real, voice: Option<Voice>)

  /** `speak`: nothing without speech synthesis; otherwise an utterance in the
      requested language at rate 0.9, pitch 1 and volume 1, with the first voice
      whose language shares the utterance language's prefix, if any. */
  function Speak(text: string, language: Option<string>, synthesisSupported: bool, voices: seq<Voice>)
    : (u: Option<Utterance>)
    ensures !synthesisSupported <==> u.None?
    ensures u.Some? ==>
      && u.value.text == text && u.value.lang == RequestedCode(language)
      && u.value.rate == 0.9 && u.value.pitch == 1.0 && u.value.volume == 1.0
      && (u.value.voice.Some? <==> exists j :: 0 <= j < |voices| && StartsWith(voices[j].lang, LanguagePrefix(u.value.lang)))
      && (u.value.voice.Some? ==> u.value.voice.value in voices
                                  && StartsWith(u.value.voice.value.lang, LanguagePrefix(u.value.lang)))
      && (u.value.voice.Some? ==>
            exists j :: 0 <= j < |voices| && voices[j] == u.value.voice.value
                        && StartsWith(voices[j].lang, LanguagePrefix(u.value.lang))
                        && forall i :: 0 <= i < j ==> !StartsWith(voices[i].lang, LanguagePrefix(u.value.lang)))
  {
    if !synthesisSupported then None
    else
      var lang := RequestedCode(language);
      var found := FindVoice(voices, LanguagePrefix(lang));
      Some(Utterance(text, lang, 0.9, 1.0, 1.0, if found.Some? then Some(voices[found.value]) else None))
  }
}
