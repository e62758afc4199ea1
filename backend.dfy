/** The combined transcription backend: the detection record and word buffer
    it keeps between requests, the routes that update and read them, and its
    speech route. The standalone recognition backend keeps the same state and
    has the same routes except speech, so this class models both. */
module Backend {
  import opened Common
  import opened Sequences
  import opened Features
  import opened Decision
  import opened Text
  import opened Audio

  /** Folder and file-name prefix of the combined backend's audio files. */
  const StaticFolder: string := "static_audio"
  const FilePrefix: string := "speech_"

  /** The record the backend starts with, and the one clearing restores. */
  const Cleared: Detection := Detection("", 0.0, None)

  /** What the request carries in image_data. */
  datatype ImageData = Missing | Undecodable | Decoded

  /** What tracker.detect_landmarks did with the decoded frame: it raised, or
      it returned the hands it found (None or [] when it found none). */
  datatype Tracking = TrackerRaised | Tracked(landmarks: Option<seq<Hand>>)

  /** Every output of the classifier has at most LabelLimit classes. */
  ghost predicate ClassCountBounded(classify: seq<real> -> Option<seq<real>>)
  {
    forall v :: classify(v).Some? ==> |classify(v).value| <= LabelLimit
  }

  /** Specification of process_frame (Transcriber.ProcessFrame): its answer, given whether the model and tracker
      loaded, what image_data holds, what the tracker did on the decoded
      frame and what the classifier does (None: predict raised). */
  function FrameResult(ready: bool, image: ImageData, tracking: Tracking,
                       classify: seq<real> -> Option<seq<real>>): Response<Detection>
    requires ClassCountBounded(classify)
  {
    if !ready then Err500(NotInitialised)
    else if image == Missing then Err400(NoImageData)
    else if image == Undecodable then Err400(DecodeFailed)
    else if tracking.TrackerRaised? then Err500(TrackingFailed)
    else if tracking.landmarks.None? || tracking.landmarks.value == [] then
      Ok(Detection("", 0.0, Some("No landmarks detected")))
    else
      var features := Flatten(tracking.landmarks.value[0]);
      if features == [] then Ok(Detection("", 0.0, Some("No hand features extracted")))
      else
        var prediction := classify(features);
        if prediction.None? || prediction.value == [] then Err500(PredictionFailed)
        else Ok(Decide(prediction.value))
  }

  /** Specification of the speech route (Transcriber.Speak): its answer and
      the file it writes. The text is the explicit one or else the joined
      word, stripped. */
  function SpeakResult(ready: bool, text: Option<string>, word: seq<string>,
                       synthesize: string -> Synthesis, token: string, hostUrl: string)
    : (Response<Spoken>, Option<AudioFile>)
  {
    if !ready then (Err500(NotInitialised), None)
    else
      var toSpeak := Strip(if text.Some? then text.value else Concat(word));
      if toSpeak == "" then (Err400(NoText), None)
      else SynthesisResult(toSpeak, synthesize, StaticFolder, FilePrefix, token, hostUrl)
  }

  /** The records the routes write: the initial one, an accepted decision
      (one character above the threshold, no message), a rejected one ("",
      "Low confidence", at most the threshold), or one of the two records for
      a frame with nothing to classify. */
  predicate IsRecord(d: Detection)
  {
    d == Cleared ||
    (|d.ch| == 1 && d.confidence > Threshold && d.message == None) ||
    (d.ch == "" && d.confidence <= Threshold && d.message == Some("Low confidence")) ||
    d == Detection("", 0.0, Some("No landmarks detected")) ||
    d == Detection("", 0.0, Some("No hand features extracted"))
  }

  class Transcriber {
    /** current_word_backend: the pieces appended so far. */
    var word: seq<string>
    /** last_detected_char_info. */
    var last: Detection

    /** Every piece in the buffer is non-empty, and the record is one of the
        shapes the routes write. */
    ghost predicate Valid()
      reads this
    {
      (forall i :: 0 <= i < |word| ==> word[i] != "") &&
      IsRecord(last)
    }

    constructor ()
      ensures Valid()
      ensures word == [] && last == Cleared
    {
      word := [];
      last := Cleared;
    }

    /** process_frame: every success path overwrites the record with the
        detection it returns; every error path leaves it alone; the buffer is
        never touched. */
    method ProcessFrame(ready: bool, image: ImageData, tracking: Tracking,
                        classify: seq<real> -> Option<seq<real>>) returns (resp: Response<Detection>)
      requires Valid()
      requires ClassCountBounded(classify)
      modifies this`last
      ensures Valid()
      ensures resp == FrameResult(ready, image, tracking, classify)
      ensures last == (if resp.Ok? then resp.body else old(last))
      ensures word == old(word)
    {
      if !ready {
        return Err500(NotInitialised);
      }
      if image == Missing {
        return Err400(NoImageData);
      }
      if image == Undecodable {
        return Err400(DecodeFailed);
      }
      if tracking.TrackerRaised? {
        return Err500(TrackingFailed);
      }
      var landmarks := tracking.landmarks;
      if landmarks.Some? && landmarks.value != [] {
        var handFeatureVector := LandmarksToFeatureVector(landmarks);
        if handFeatureVector.Some? && handFeatureVector.value != [] {
          var prediction := classify(handFeatureVector.value);
          if prediction.None? || prediction.value == [] {
            return Err500(PredictionFailed);
          }
          DecisionLabel(prediction.value);
          last := Decide(prediction.value);
        } else {
          last := Detection("", 0.0, Some("No hand features extracted"));
        }
      } else {
        last := Detection("", 0.0, Some("No landmarks detected"));
      }
      resp := Ok(last);
    }

    /** get_last_detection. */
    method GetLastDetection() returns (d: Detection)
      ensures d == last
    {
      d := last;
    }

    /** add_char: the explicit char if the request has one (even ""), else the
        recorded character; appended as one piece only when non-empty, and
        reported back either way. */
    method AddChar(ch: Option<string>) returns (currentWord: string, added: string)
      requires Valid()
      modifies this`word
      ensures Valid()
      ensures added == (if ch.Some? then ch.value else old(last.ch))
      ensures ch.None? ==> |added| <= 1
      ensures word == (if added != "" then old(word) + [added] else old(word))
      ensures currentWord == Concat(word) && currentWord == Concat(old(word)) + added
      ensures last == old(last)
    {
      added := if ch.Some? then ch.value else last.ch;
      if added != "" {
        ConcatSnoc(word, added);
        word := word + [added];
      }
      currentWord := Concat(word);
    }

    /** add_space: one " " piece, so the joined word grows by one space. */
    method AddSpace() returns (currentWord: string)
      requires Valid()
      modifies this`word
      ensures Valid()
      ensures word == old(word) + [" "]
      ensures currentWord == Concat(word) && currentWord == Concat(old(word)) + " "
      ensures last == old(last)
    {
      ConcatSnoc(word, " ");
      word := word + [" "];
      currentWord := Concat(word);
    }

    /** clear_word: an empty buffer and the initial record, whatever came before. */
    method ClearWord() returns (currentWord: string)
      modifies this
      ensures Valid()
      ensures word == [] && last == Cleared
      ensures currentWord == ""
    {
      word := [];
      last := Cleared;
      currentWord := "";
    }

    /** get_word: the joined buffer. */
    method GetWord() returns (currentWord: string)
      ensures currentWord == Concat(word)
    {
      currentWord := Concat(word);
    }

    /** speak_route: answers with SpeakResult over the current buffer and
        changes nothing in the backend. */
    method Speak(ready: bool, text: Option<string>, synthesize: string -> Synthesis,
                 token: string, hostUrl: string) returns (resp: Response<Spoken>, saved: Option<AudioFile>)
      ensures (resp, saved) == SpeakResult(ready, text, word, synthesize, token, hostUrl)
    {
      if !ready {
        return Err500(NotInitialised), None;
      }
      var textToSpeak := Strip(if text.Some? then text.value else Concat(word));
      if textToSpeak == "" {
        return Err400(NoText), None;
      }
      resp, saved := Synthesize(textToSpeak, synthesize, StaticFolder, FilePrefix, token, hostUrl);
    }
  }

  /** Which frame requests fail, and with which status: 500 when the model
      or tracker did not load, the tracker raised, or the classifier raised
      (or gave nothing), 400
      when image_data is missing or undecodable; every other request
      succeeds with a record of one of the IsRecord shapes other than the
      cleared one. */
  lemma FrameErrorsAreExactlyTheFailures(ready: bool, image: ImageData, tracking: Tracking,
                                         classify: seq<real> -> Option<seq<real>>)
    requires ClassCountBounded(classify)
    ensures var r := FrameResult(ready, image, tracking, classify);
      (r.Err500? <==> !ready ||
                      (image == Decoded && tracking.TrackerRaised?) ||
                      (image == Decoded && tracking.Tracked? &&
                       var landmarks := tracking.landmarks;
                       landmarks.Some? && landmarks.value != [] &&
                       Flatten(landmarks.value[0]) != [] &&
                       (classify(Flatten(landmarks.value[0])).None? ||
                        classify(Flatten(landmarks.value[0])).value == []))) &&
      (r.Err400? <==> ready && image != Decoded) &&
      (r.Ok? ==> IsRecord(r.body) && r.body != Cleared)
  {
    var r := FrameResult(ready, image, tracking, classify);
    if r.Ok? && ready && image == Decoded && tracking.Tracked? {
      var landmarks := tracking.landmarks;
      if landmarks.Some? && landmarks.value != [] && Flatten(landmarks.value[0]) != [] {
        DecisionLabel(classify(Flatten(landmarks.value[0])).value);
      }
    }
  }

  /** The tracker raising on a decodable frame is an uncaught exception: a
      500, so ProcessFrame leaves the record as it was. */
  lemma TrackerRaisedIsServerError(classify: seq<real> -> Option<seq<real>>)
    requires ClassCountBounded(classify)
    ensures FrameResult(true, Decoded, TrackerRaised, classify) == Err500(TrackingFailed)
  {
  }

  /** No hand: the record says so with confidence 0. */
  lemma NoLandmarksDetected(image: ImageData, landmarks: Option<seq<Hand>>,
                            classify: seq<real> -> Option<seq<real>>)
    requires ClassCountBounded(classify)
    requires image == Decoded && (landmarks.None? || landmarks.value == [])
    ensures FrameResult(true, image, Tracked(landmarks), classify) ==
            Ok(Detection("", 0.0, Some("No landmarks detected")))
  {
  }

  /** A first hand with no points gives no features (later hands do not help). */
  lemma NoHandFeatures(hands: seq<Hand>, classify: seq<real> -> Option<seq<real>>)
    requires ClassCountBounded(classify)
    requires hands != [] && hands[0] == []
    ensures FrameResult(true, Decoded, Tracked(Some(hands)), classify) ==
            Ok(Detection("", 0.0, Some("No hand features extracted")))
  {
  }

  /** A classified frame: the classifier sees exactly the first hand's
      flattened points; the frame is accepted iff some probability exceeds 0.8;
      the confidence is the maximum either way; an accepted frame records
      chr(65 + argmax). */
  lemma ClassifiedFrame(hands: seq<Hand>, classify: seq<real> -> Option<seq<real>>)
    requires ClassCountBounded(classify)
    requires hands != [] && |hands[0]| > 0
    requires var p := classify(Flatten(hands[0])); p.Some? && p.value != []
    ensures var p := classify(Flatten(hands[0])).value;
      var r := FrameResult(true, Decoded, Tracked(Some(hands)), classify);
      r.Ok? && r.body.confidence == Max(p) &&
      (r.body.ch != "" <==> exists i :: 0 <= i < |p| && p[i] > Threshold) &&
      (r.body.ch != "" ==> r.body == Detection(Label(ArgMax(p)), Max(p), None)) &&
      (r.body.ch == "" ==> r.body.message == Some("Low confidence"))
  {
    FlattenLength(hands[0]);
    var p := classify(Flatten(hands[0])).value;
    AcceptedIffAboveThreshold(p);
  }

  /** The speech route does not consult the synthesiser when it is not
      ready or when the text is blank once stripped: it then answers the same
      error for any synthesiser and writes nothing. */
  lemma BlankTextIsRejectedBeforeSynthesis(ready: bool, text: Option<string>, word: seq<string>,
                                           s1: string -> Synthesis, s2: string -> Synthesis,
                                           token: string, hostUrl: string)
    requires AllSpace(if text.Some? then text.value else Concat(word))
    ensures SpeakResult(ready, text, word, s1, token, hostUrl) == SpeakResult(ready, text, word, s2, token, hostUrl)
    ensures SpeakResult(ready, text, word, s1, token, hostUrl) ==
            (if ready then (Err400(NoText), None) else (Err500(NotInitialised), None))
  {
    StripEmptyIff(if text.Some? then text.value else Concat(word));
  }

  /** The combined backend's URL: host URL + "static_audio/speech_" + token + ".wav". */
  lemma BackendAudioUrl(hostUrl: string, token: string)
    ensures FileName(FilePrefix, token) == "speech_" + token + ".wav"
    ensures AudioUrl(hostUrl, StaticFolder, FileName(FilePrefix, token)) ==
            hostUrl + "static_audio/speech_" + token + ".wav"
  {
    assert hostUrl + "static_audio" + "/" + ("speech_" + token + ".wav") ==
           hostUrl + "static_audio/speech_" + token + ".wav";
  }

  /** A successful speech request speaks the stripped text, writes every
      delivered sample in order under speech_<token>.wav in static_audio and
      answers with host URL + "static_audio/" + that name. A synthesiser that
      yields no usable chunk gives a 500 and no file. */
  lemma SpeechOutcome(text: Option<string>, word: seq<string>, synthesize: string -> Synthesis,
                      token: string, hostUrl: string)
    requires var t := Strip(if text.Some? then text.value else Concat(word));
      t != "" && synthesize(t).Chunks?
    ensures var t := Strip(if text.Some? then text.value else Concat(word));
      var chunks := synthesize(t).chunks;
      var (resp, saved) := SpeakResult(true, text, word, synthesize, token, hostUrl);
      (resp.Ok? <==> exists i :: 0 <= i < |chunks| && Usable(chunks[i])) &&
      (resp.Ok? ==>
        resp.body == Spoken(hostUrl + "static_audio/speech_" + token + ".wav", t) &&
        saved == Some(AudioFile(StaticFolder, "speech_" + token + ".wav", Delivered(chunks), SampleRate))) &&
      (!resp.Ok? ==> resp == Err500(NoAudio) && saved == None)
  {
    var t := Strip(if text.Some? then text.value else Concat(word));
    SynthesisOutcome(t, synthesize, StaticFolder, FilePrefix, token, hostUrl);
    BackendAudioUrl(hostUrl, token);
  }

  /** clear_word, add_char "H", add_space, add_char "I" spell "H I". */
  method SpellHi(t: Transcriber) returns (currentWord: string)
    modifies t
    ensures currentWord == "H I"
  {
    var _ := t.ClearWord();
    var _, _ := t.AddChar(Some("H"));
    var _ := t.AddSpace();
    var _, _ := t.AddChar(Some("I"));
    currentWord := t.GetWord();
    assert t.word == ["H", " ", "I"];
    assert Concat(t.word) == "H" + Concat([" ", "I"]);
    assert Concat([" ", "I"]) == " " + Concat(["I"]);
  }

  /** Clearing is absorbing and idempotent: after it, whatever the earlier
      state, the word is "" and the record is {"", 0.0}; clearing again
      changes nothing. */
  method ClearIsAbsorbing(t: Transcriber) returns (currentWord: string, d: Detection)
    modifies t
    ensures currentWord == "" && d == Detection("", 0.0, None)
    ensures t.word == [] && t.last == Cleared
  {
    var _ := t.ClearWord();
    var w1, d1 := t.word, t.last;
    var _ := t.ClearWord();
    assert t.word == w1 && t.last == d1;
    currentWord := t.GetWord();
    d := t.GetLastDetection();
  }

  /** add_char with an explicit "" never changes the buffer. */
  method ExplicitEmptyCharIsNoOp(t: Transcriber) returns (currentWord: string)
    requires t.Valid()
    modifies t
    ensures t.word == old(t.word) && t.last == old(t.last)
    ensures currentWord == Concat(old(t.word))
  {
    var added;
    currentWord, added := t.AddChar(Some(""));
  }
}
