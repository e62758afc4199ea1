/** The speech synthesiser adapter shared by the combined backend and the
    standalone speech service: keep the usable chunks, concatenate them, name
    the file after a unique token and build its URL. */
module Audio {
  import opened Common
  import opened Sequences

  /** Sample rate of every written file. */
  const SampleRate: nat := 24000

  /** A block of amplitude samples from the synthesiser. */
  type Chunk = seq<real>

  /** What the synthesiser did for one text: it raised somewhere in the try
      block (while building the generator, while iterating it, or while the
      file was written), or it yielded these chunks in order (None stands for
      a chunk that is None). */
  datatype Synthesis = Raised | Chunks(chunks: seq<Option<Chunk>>)

  /** The persisted audio artifact: folder, file name, samples, rate. */
  datatype AudioFile = AudioFile(folder: string, name: string, samples: seq<real>, sampleRate: nat)

  /** The JSON body of a successful speech request. */
  datatype Spoken = Spoken(audioUrl: string, textSpoken: string)

  /** A chunk is kept when it is not None and has at least one sample. */
  predicate Usable(c: Option<Chunk>)
  {
    c.Some? && |c.value| > 0
  }

  /** The kept chunks, in the synthesiser's order. */
  function Kept(chunks: seq<Option<Chunk>>): (kept: seq<Chunk>)
    ensures |kept| <= |chunks|
    ensures forall j :: 0 <= j < |kept| ==> kept[j] != []
  {
    if chunks == [] then []
    else
      var last := chunks[|chunks| - 1];
      Kept(chunks[..|chunks| - 1]) + (if Usable(last) then [last.value] else [])
  }

  /** All samples delivered, in order, a None chunk counting as no samples. */
  function Delivered(chunks: seq<Option<Chunk>>): seq<real>
  {
    if chunks == [] then []
    else (if chunks[0].Some? then chunks[0].value else []) + Delivered(chunks[1..])
  }

  lemma {:induction false} DeliveredSnoc(chunks: seq<Option<Chunk>>, c: Option<Chunk>)
    ensures Delivered(chunks + [c]) == Delivered(chunks) + (if c.Some? then c.value else [])
  {
    if chunks == [] {
      assert [] + [c] == [c];
    } else {
      assert (chunks + [c])[0] == chunks[0];
      assert (chunks + [c])[1..] == chunks[1..] + [c];
      DeliveredSnoc(chunks[1..], c);
    }
  }

  /** Dropping None and empty chunks loses no sample and reorders none: the
      concatenated audio is every delivered sample in order. */
  lemma {:induction false} KeptPreservesAudio(chunks: seq<Option<Chunk>>)
    ensures Concat(Kept(chunks)) == Delivered(chunks)
  {
    if chunks != [] {
      var init, last := chunks[..|chunks| - 1], chunks[|chunks| - 1];
      assert chunks == init + [last];
      KeptPreservesAudio(init);
      DeliveredSnoc(init, last);
      if Usable(last) {
        ConcatSnoc(Kept(init), last.value);
      } else {
        assert (if last.Some? then last.value else []) == [];
        assert Kept(chunks) == Kept(init) + [] == Kept(init);
        assert Delivered(chunks) == Delivered(init) + [] == Delivered(init);
      }
    }
  }

  /** No chunk is kept exactly when no chunk is usable, which is exactly when
      the concatenation has no samples. */
  lemma {:induction false} KeptEmptyIff(chunks: seq<Option<Chunk>>)
    ensures Kept(chunks) == [] <==> forall i :: 0 <= i < |chunks| ==> !Usable(chunks[i])
    ensures Kept(chunks) == [] <==> Concat(Kept(chunks)) == []
  {
    if chunks != [] {
      var init, last := chunks[..|chunks| - 1], chunks[|chunks| - 1];
      KeptEmptyIff(init);
      assert forall i :: 0 <= i < |init| ==> init[i] == chunks[i];
      if Usable(last) {
        assert Kept(chunks) != [];
      } else {
        assert Kept(chunks) == Kept(init) + [] == Kept(init);
      }
    }
    ConcatEmptyIff(Kept(chunks));
  }

  /** One more chunk from the synthesiser never shortens the audio, and a
      usable one lengthens it by its own length. */
  lemma KeptMonotone(chunks: seq<Option<Chunk>>, c: Option<Chunk>)
    ensures |Concat(Kept(chunks + [c]))| ==
            |Concat(Kept(chunks))| + (if Usable(c) then |c.value| else 0)
  {
    assert (chunks + [c])[..|chunks|] == chunks;
    if Usable(c) {
      ConcatSnoc(Kept(chunks), c.value);
    } else {
      assert Kept(chunks + [c]) == Kept(chunks) + [] == Kept(chunks);
    }
  }

  /** The loop over the generator that appends each usable chunk. */
  method CollectChunks(chunks: seq<Option<Chunk>>) returns (kept: seq<Chunk>)
    ensures kept == Kept(chunks)
  {
    kept := [];
    for i := 0 to |chunks|
      invariant kept == Kept(chunks[..i])
    {
      assert chunks[..i + 1][..i] == chunks[..i];
      if chunks[i].Some? && |chunks[i].value| > 0 {
        kept := kept + [chunks[i].value];
      }
    }
    assert chunks[..|chunks|] == chunks;
  }

  /** The file name: a fixed prefix, the unique token, ".wav". */
  function FileName(prefix: string, token: string): string
  {
    prefix + token + ".wav"
  }

  /** Distinct tokens give distinct file names, so the names are as
      collision-free as the tokens. */
  lemma FileNameInjective(prefix: string, t1: string, t2: string)
    ensures FileName(prefix, t1) == FileName(prefix, t2) <==> t1 == t2
  {
    if FileName(prefix, t1) == FileName(prefix, t2) {
      var n1, n2 := FileName(prefix, t1), FileName(prefix, t2);
      assert |t1| == |t2|;
      assert t1 == n1[|prefix|..|prefix| + |t1|];
      assert t2 == n2[|prefix|..|prefix| + |t2|];
    }
  }

  /** The URL of a written file: the host URL, the static folder, "/", the name. */
  function AudioUrl(hostUrl: string, folder: string, name: string): string
  {
    hostUrl + folder + "/" + name
  }

  /** The URL starts with the host URL and ends with "/" and the file name, so
      the static route of the same host serves that file. */
  lemma AudioUrlShape(hostUrl: string, folder: string, name: string)
    ensures var url := AudioUrl(hostUrl, folder, name);
      |url| == |hostUrl| + |folder| + 1 + |name| &&
      url[..|hostUrl|] == hostUrl &&
      url[|hostUrl|..|hostUrl| + |folder|] == folder &&
      url[|url| - |name|..] == name
  {
  }

  /** Specification of the try block of the speech routes (Synthesize), once
      the text is known to be non-empty: the answer and the file written, if
      any. */
  function SynthesisResult(text: string, synthesize: string -> Synthesis, folder: string,
                           prefix: string, token: string, hostUrl: string): (Response<Spoken>, Option<AudioFile>)
  {
    match synthesize(text)
    case Raised => (Err500(SynthesisFailed), None)
    case Chunks(chunks) =>
      var kept := Kept(chunks);
      if kept == [] then (Err500(NoAudio), None)
      else
        var name := FileName(prefix, token);
        (Ok(Spoken(AudioUrl(hostUrl, folder, name), text)),
         Some(AudioFile(folder, name, Concat(kept), SampleRate)))
  }

  /** Once the synthesiser has yielded its chunks: the request succeeds iff
      some chunk is usable; then the URL names prefix + token + ".wav" in the
      folder, the text spoken is the text given, and the file holds every
      delivered sample in order; otherwise a 500 and no file. */
  lemma SynthesisOutcome(text: string, synthesize: string -> Synthesis, folder: string,
                         prefix: string, token: string, hostUrl: string)
    requires synthesize(text).Chunks?
    ensures var chunks := synthesize(text).chunks;
      var (resp, saved) := SynthesisResult(text, synthesize, folder, prefix, token, hostUrl);
      (resp.Ok? <==> exists i :: 0 <= i < |chunks| && Usable(chunks[i])) &&
      (resp.Ok? ==>
        resp.body == Spoken(AudioUrl(hostUrl, folder, FileName(prefix, token)), text) &&
        saved == Some(AudioFile(folder, FileName(prefix, token), Delivered(chunks), SampleRate))) &&
      (!resp.Ok? ==> resp == Err500(NoAudio) && saved == None)
  {
    var chunks := synthesize(text).chunks;
    KeptEmptyIff(chunks);
    KeptPreservesAudio(chunks);
  }

  /** The try block of the speech routes: run the synthesiser on the text,
      collect the usable chunks, and either report that there was no audio or
      write the concatenation and answer with its URL and the text. */
  method Synthesize(text: string, synthesize: string -> Synthesis, folder: string,
                    prefix: string, token: string, hostUrl: string)
      returns (resp: Response<Spoken>, saved: Option<AudioFile>)
    ensures (resp, saved) == SynthesisResult(text, synthesize, folder, prefix, token, hostUrl)
    ensures saved.Some? <==> resp.Ok?
  {
    var generator := synthesize(text);
    if generator.Raised? {
      return Err500(SynthesisFailed), None;
    }
    var allAudioChunks := CollectChunks(generator.chunks);
    if allAudioChunks != [] {
      var completeAudio := Concat(allAudioChunks);
      var filename := FileName(prefix, token);
      saved := Some(AudioFile(folder, filename, completeAudio, SampleRate));
      resp := Ok(Spoken(AudioUrl(hostUrl, folder, filename), text));
    } else {
      resp, saved := Err500(NoAudio), None;
    }
  }
}
