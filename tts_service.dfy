/** The standalone speech service: one route that requires an explicit text,
    with its own folder and file-name prefix. */
module TtsService {
  import opened Common
  import opened Text
  import opened Audio
  import opened Sequences

  const StaticFolder: string := "static_audio_tts_service"
  const FilePrefix: string := "speech_tts_service_"

  /** Specification of speak_route_tts_service (SpeakTtsService): its answer
      and the file it writes. text is None when the route's own `not data or
      'text' not in data` test rejects the body: a JSON body of null or {},
      or an object without a "text" key. */
  function SpeakResult(ready: bool, text: Option<string>, synthesize: string -> Synthesis,
                       token: string, hostUrl: string): (Response<Spoken>, Option<AudioFile>)
  {
    if !ready then (Err500(NotInitialised), None)
    else if text.None? then (Err400(MissingText), None)
    else
      var toSpeak := Strip(text.value);
      if toSpeak == "" then (Err400(NoText), None)
      else SynthesisResult(toSpeak, synthesize, StaticFolder, FilePrefix, token, hostUrl)
  }

  /** speak_route_tts_service. */
  method SpeakTtsService(ready: bool, text: Option<string>, synthesize: string -> Synthesis,
                         token: string, hostUrl: string) returns (resp: Response<Spoken>, saved: Option<AudioFile>)
    ensures (resp, saved) == SpeakResult(ready, text, synthesize, token, hostUrl)
  {
    if !ready {
      return Err500(NotInitialised), None;
    }
    if text.None? {
      return Err400(MissingText), None;
    }
    var textToSpeak := Strip(text.value);
    if textToSpeak == "" {
      return Err400(NoText), None;
    }
    resp, saved := Synthesize(textToSpeak, synthesize, StaticFolder, FilePrefix, token, hostUrl);
  }

  /** An uninitialised pipeline is reported before the body is looked at. */
  lemma NotReadyComesFirst(text: Option<string>, synthesize: string -> Synthesis, token: string, hostUrl: string)
    ensures SpeakResult(false, text, synthesize, token, hostUrl) == (Err500(NotInitialised), None)
  {
  }

  /** A JSON body of null or {}, or one without a "text" key, is a 400: there
      is no default text, whatever the synthesiser. */
  lemma MissingTextRejected(synthesize: string -> Synthesis, token: string, hostUrl: string)
    ensures SpeakResult(true, None, synthesize, token, hostUrl) == (Err400(MissingText), None)
  {
  }

  /** A text that strips to "" is a 400, whatever the synthesiser. */
  lemma StrippedEmptyRejected(text: string, synthesize: string -> Synthesis, token: string, hostUrl: string)
    requires Strip(text) == ""
    ensures SpeakResult(true, Some(text), synthesize, token, hostUrl) == (Err400(NoText), None)
  {
  }

  /** A text that is all whitespace is a 400 and the synthesiser's behaviour
      does not matter: it is never asked. */
  lemma BlankTextRejected(text: string, s1: string -> Synthesis, s2: string -> Synthesis,
                          token: string, hostUrl: string)
    requires AllSpace(text)
    ensures SpeakResult(true, Some(text), s1, token, hostUrl) == (Err400(NoText), None)
    ensures SpeakResult(true, Some(text), s1, token, hostUrl) == SpeakResult(true, Some(text), s2, token, hostUrl)
  {
    StripEmptyIff(text);
    StrippedEmptyRejected(text, s1, token, hostUrl);
    StrippedEmptyRejected(text, s2, token, hostUrl);
  }

  /** The service's URL: host URL + "static_audio_tts_service/speech_tts_service_" + token + ".wav". */
  lemma ServiceAudioUrl(hostUrl: string, token: string)
    ensures FileName(FilePrefix, token) == "speech_tts_service_" + token + ".wav"
    ensures AudioUrl(hostUrl, StaticFolder, FileName(FilePrefix, token)) ==
            hostUrl + "static_audio_tts_service/speech_tts_service_" + token + ".wav"
  {
    assert hostUrl + "static_audio_tts_service" + "/" + ("speech_tts_service_" + token + ".wav") ==
           hostUrl + "static_audio_tts_service/speech_tts_service_" + token + ".wav";
  }

  /** A request with a non-blank text: it succeeds iff the synthesiser yields
      a usable chunk; then the text spoken is the stripped text, the file holds
      every delivered sample in order, as many as the kept chunks hold, and the
      URL names it; otherwise a 500 and no file. */
  lemma SpeechOutcome(text: string, synthesize: string -> Synthesis, token: string, hostUrl: string)
    requires Strip(text) != "" && synthesize(Strip(text)).Chunks?
    ensures var chunks := synthesize(Strip(text)).chunks;
      var (resp, saved) := SpeakResult(true, Some(text), synthesize, token, hostUrl);
      (resp.Ok? <==> exists i :: 0 <= i < |chunks| && Usable(chunks[i])) &&
      (resp.Ok? ==>
        resp.body == Spoken(hostUrl + "static_audio_tts_service/speech_tts_service_" + token + ".wav", Strip(text)) &&
        saved == Some(AudioFile(StaticFolder, "speech_tts_service_" + token + ".wav", Delivered(chunks), SampleRate)) &&
        |saved.value.samples| == TotalLength(Kept(chunks))) &&
      (!resp.Ok? ==> resp == Err500(NoAudio) && saved == None)
  {
    var chunks := synthesize(Strip(text)).chunks;
    SynthesisOutcome(Strip(text), synthesize, StaticFolder, FilePrefix, token, hostUrl);
    ServiceAudioUrl(hostUrl, token);
    KeptPreservesAudio(chunks);
    ConcatLength(Kept(chunks));
  }
}
