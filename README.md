# realtime_asl: the transcription state machine and the speech adapter

The repository is a sign-language transcription demo served over HTTP. A
browser sends camera frames; a hand tracker finds landmarks; a classifier maps
the first hand's landmarks to a letter; the backend keeps the last detection
and a word buffer; and a speech route turns the buffered word (or a given
text) into a WAV file and returns its URL. This project models the logic the
repository owns:

- the feature vectoriser (`landmarks_to_feature_vector`), as a method with a
  loop proved against the reference function `Flatten`;
- the detection decision: maximum, first arg-max, the strict `> 0.8`
  threshold and `chr(65 + argmax)`;
- the per-process state of `backend.py` and `asl_backend.py` (the word buffer
  `current_word_backend` and the record `last_detected_char_info`) as the class
  `Backend.Transcriber`. Its methods are the routes `process_frame`,
  `get_last_detection`, `add_char`, `add_space`, `clear_word`, `get_word` and,
  for `backend.py` only, `speak`. The two files' routes have the same behaviour
  (asl_backend.py:37-121 against backend.py:52-155); they differ only in
  dead initialisations, in the home route's message and in the standalone
  backend having no speech route, so one class models both;
- the speech adapter of `backend.py` and of the standalone `tts_backend.py`:
  Python `str.strip()` (with Python's whitespace set), rejection of blank
  text, the loop that keeps non-None non-empty chunks in order, their
  concatenation, the file name built from a unique token, and the URL.

External pieces are parameters. The tracker's outcome on the decoded frame is
a `Tracking`: it raised, or it returned an `Option<seq<Hand>>`. Image decoding
is the `ImageData` value: missing, undecodable or decoded. The classifier is a function from the feature vector
to `Option<seq<real>>`, where `None` means `predict` raised. The synthesiser is
a function from the text to `Synthesis`: `Raised`, or the chunks it yields,
a chunk of `None` included. The uuid hex token and `request.host_url` are
string parameters. Whether the model, tracker or pipeline loaded is a `bool`.
Every route answers a `Response`: `Ok(body)`, `Err400(failure)` or
`Err500(failure)`.

Modules: `Common` (data types), `Sequences` (concatenation, used both for
`"".join` and for `np.concatenate`), `Features`, `Decision`, `Text`, `Audio`
(the shared speech steps), `Backend` and `TtsService`.

Behaviour worth knowing:

- the record is left unchanged by the error returns of `process_frame`; it is
  not overwritten by every call;
- `add_char` appends any non-empty string as one piece, not only single
  characters;
- the speech routes test whether any chunk was kept, not whether the total
  sample count is zero. `Audio.KeptEmptyIff` shows the two tests agree.

## Model

| member | source | states |
|---|---|---|
| Features.LandmarksToFeatureVector | backend.py:57-66 | None iff the hand list is absent or empty; otherwise exactly Flatten of the first hand, of length 3 × its points, with x, y, z of point i at 3i, 3i+1, 3i+2; later hands play no part |
| Features.FlattenAt | asl_backend.py:45-48 | point i's x, y, z are at positions 3i, 3i+1, 3i+2 of the vector |
| Features.FlattenLength | asl_backend.py:46-47 | the vector holds three numbers per point |
| Features.FlattenSnoc | backend.py:64-65 | one more point extends the vector by exactly that point's x, y, z |
| Decision.Max | backend.py:108 | the confidence is one of the probabilities and no probability exceeds it |
| Decision.ArgMax | backend.py:109 | the predicted class is a valid index holding the largest probability, and every earlier index holds a strictly smaller one (first arg-max) |
| Decision.ArgMaxAttainsMax | backend.py:108-109 | the probability at the predicted class is the confidence |
| Decision.AcceptedIffAboveThreshold | backend.py:107-115 | a frame is accepted iff some probability is strictly above 0.8; the recorded confidence is the maximum whether accepted or not |
| Decision.DecisionLabel | backend.py:111-115 | accepted: a single character whose code is 65 + argmax, confidence above 0.8, no message; rejected: confidence at most 0.8 and "Low confidence" |
| Decision.LabelInjective | backend.py:112 | different predicted classes give different characters |
| Decision.ThresholdIsStrict | asl_backend.py:79-83 | a maximum of exactly 0.8 gives char "", confidence 0.8, "Low confidence" |
| Decision.FifthClassIsE | asl_backend.py:76-81 | any distribution whose maximum 0.95 is first reached at index 4 gives "E" with confidence 0.95 |
| Text.StripLeading | backend.py:163 | the result is a suffix of the text, only whitespace is removed, and it does not start with whitespace |
| Text.StripTrailing | tts_backend.py:43 | the result is a prefix, only whitespace is removed, and it does not end with whitespace |
| Text.StripIsTrimmedSlice | backend.py:163 | the stripped text is a slice of the text with only whitespace around it and no whitespace at either end |
| Text.StripEmptyIff | tts_backend.py:43-46 | the stripped text is empty iff the text is all whitespace |
| Text.StripIdempotent | tts_backend.py:43 | stripping the stripped text changes nothing |
| Sequences.ConcatSnoc | backend.py:141-143 | appending a piece to the buffer appends its characters to the joined word |
| Sequences.ConcatLength | tts_backend.py:57 | the concatenated audio is as long as the kept chunks together |
| Sequences.ConcatEmptyIff | backend.py:176-177 | the concatenation is empty iff every part is empty |
| Audio.Kept | backend.py:171-174 | no more chunks are kept than were yielded, and every kept chunk is non-empty |
| Audio.KeptPreservesAudio | tts_backend.py:51-57 | concatenating the kept chunks gives every delivered sample in delivery order |
| Audio.KeptEmptyIff | tts_backend.py:52-56 | nothing is kept iff no chunk is non-None and non-empty, iff the concatenation has no sample |
| Audio.KeptMonotone | backend.py:172-177 | one more chunk never shortens the audio; a usable one lengthens it by its own length |
| Audio.CollectChunks | tts_backend.py:51-54 | the loop keeps exactly the non-None, non-empty chunks, in order |
| Audio.FileNameInjective | backend.py:178 | two file names are equal iff their tokens are |
| Audio.AudioUrlShape | tts_backend.py:64 | the URL is the host URL, then the folder, then "/", then the file name |
| Audio.SynthesisOutcome | backend.py:168-185 | once chunks are yielded: success iff some chunk is usable, with the URL of prefix+token+".wav" and a file of every delivered sample; otherwise 500 "no audio" and no file |
| Audio.Synthesize | tts_backend.py:48-71 | the try block answers as SynthesisResult, and a file is written iff the answer is a success |
| Backend.FrameErrorsAreExactlyTheFailures | backend.py:77-121 | 500 iff not initialised, the tracker raised (an uncaught exception), or the classifier raised (or gave nothing); 400 iff initialised and image_data missing or undecodable; every success is a record of an `IsRecord` shape other than the cleared one: a single character above 0.8, low confidence, no landmarks or no hand features |
| Backend.TrackerRaisedIsServerError | backend.py:95 | the tracker raising on a decoded frame gives 500, outside every try |
| Backend.NoLandmarksDetected | backend.py:120-121 | no hand gives {"", 0.0, "No landmarks detected"} |
| Backend.NoHandFeatures | asl_backend.py:86-87 | a first hand without points gives {"", 0.0, "No hand features extracted"} |
| Backend.ClassifiedFrame | backend.py:103-115 | the classifier gets the first hand's flattened points; accepted iff some probability > 0.8; confidence = maximum; accepted records chr(65 + argmax) with no message |
| Backend.BlankTextIsRejectedBeforeSynthesis | backend.py:159-166 | the resolved text being blank gives 400 "no text" (500 when not ready), whatever the synthesiser does, and no file |
| Backend.BackendAudioUrl | backend.py:178-181 | the URL is host URL + "static_audio/speech_" + token + ".wav" |
| Backend.SpeechOutcome | backend.py:163-185 | speaks the explicit text or else the joined buffer, stripped; success iff some usable chunk; URL host + "static_audio/speech_<token>.wav"; file of every delivered sample at 24000 Hz; otherwise 500 and no file |
| Backend.Transcriber.constructor | backend.py:52-54 | the buffer starts empty and the record starts as {"", 0.0} |
| Backend.Transcriber.ProcessFrame | backend.py:74-123 | answers FrameResult; a success overwrites the record with the body returned, an error (the tracker raising included) leaves it unchanged; the buffer never changes; the invariant (no empty piece in the buffer, a record of an `IsRecord` shape) is kept |
| Backend.Transcriber.GetLastDetection | backend.py:126-128 | returns the current record |
| Backend.Transcriber.AddChar | backend.py:130-137 | the explicit char (even "") or else the record's char; one piece is appended iff it is non-empty; the joined word grows by exactly that value, which on the default path is at most one character; the record is unchanged |
| Backend.Transcriber.AddSpace | backend.py:139-143 | appends exactly one " ", so the joined word is the old one plus " " |
| Backend.Transcriber.ClearWord | asl_backend.py:111-117 | empties the buffer and resets the record to {"", 0.0}, whatever the earlier state |
| Backend.Transcriber.GetWord | backend.py:153-155 | returns the concatenation of the buffer and changes nothing |
| Backend.Transcriber.Speak | backend.py:157-188 | answers SpeakResult on the current buffer and changes nothing |
| Backend.SpellHi | asl_backend.py:96-121 | clear, add "H", add space, add "I", then get_word returns "H I" |
| Backend.ClearIsAbsorbing | asl_backend.py:111-121 | after clearing (once or twice) get_word gives "" and the record is {"", 0.0} |
| Backend.ExplicitEmptyCharIsNoOp | asl_backend.py:100-102 | add_char with an explicit "" changes neither the buffer nor the record |
| TtsService.SpeakTtsService | tts_backend.py:34-71 | answers SpeakResult: the route's checks in order, then the shared synthesis step with the service's folder and prefix |
| TtsService.NotReadyComesFirst | tts_backend.py:36-37 | an uninitialised pipeline gives 500 whatever the body |
| TtsService.MissingTextRejected | tts_backend.py:39-41 | a JSON body of null or {}, or one without a "text" key, gives 400, with no default to a word buffer |
| TtsService.StrippedEmptyRejected | tts_backend.py:43-46 | a text that strips to "" gives 400 "no text" and no file |
| TtsService.BlankTextRejected | tts_backend.py:43-46 | an all-whitespace text gives 400 and the synthesiser's behaviour does not matter |
| TtsService.ServiceAudioUrl | tts_backend.py:58-64 | the URL is host URL + "static_audio_tts_service/speech_tts_service_" + token + ".wav" |
| TtsService.SpeechOutcome | tts_backend.py:48-68 | success iff some usable chunk; text_spoken is the stripped text; the file holds every delivered sample, as many as the kept chunks hold; otherwise 500 and no file |

## Left out

- hand_tracker.py (a wrapper over MediaPipe) and script.js (browser UI, camera, polling) are not part of this model.
- Image decoding (splitting the data URL, base64, PIL, colour conversion) is reduced to the `ImageData` value: missing, undecodable or decoded.
- TensorFlow `predict` and the Kokoro pipeline are function parameters. The language code and the voice `am_fenrir` are part of what the synthesiser parameter stands for.
- Floating point: probabilities and samples are `real`; NaN and rounding are not modelled.
- Writing the file (`sf.write`) is modelled as the returned `AudioFile` value. A write that raises is folded into `Raised`, which also yields a 500.
- Static file serving, the home route, CORS, JSON serialisation and console output are not modelled.
- `uuid.uuid4().hex` and `request.host_url` are parameters; the token's format is not constrained.
- Request bodies are taken to be JSON objects whose `char`, `text` and `image_data` values are strings. None of the following is modelled. Each route reads the body itself, through `request.json`, and that first read comes after the readiness test where the route has one (backend.py:77-80, backend.py:159-162, tts_backend.py:36-39); a missing or non-JSON body makes Flask raise its own 4xx error at that read. A JSON body of null makes `process_frame`, `add_char` and backend.py's `speak` raise (an uncaught 500), while the speech service's `not data` test (tts_backend.py:40) answers 400. Non-string values (such as `{"char": 5}`, which is appended and then makes the join raise) are outside the model as well.
- Concurrency: the model is one backend object used by one caller at a time.
- Backend.Transcriber.ProcessFrame: requires every classifier output to have at most 0xD800 - 65 classes, so that `chr(65 + argmax)` is a scalar value below the surrogate block. Every class index from 0xD800 - 65 on is left out, including those for which `chr` gives an ordinary character above the surrogate block. `Backend.FrameResult` carries the same requirement.
