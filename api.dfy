/** The parts of app/main.py around the sequencer: the admission check of
    `upload_chunk` (size first, then extension), the handler itself, the
    `end_session` handler, and the 404 answers of `get_transcript` and
    `get_summary`. An HTTP error is `Err(status)`. */
module Api {
  import opened Wrappers
  import opened Text
  import opened Config
  import opened Summarizer
  import opened Storage
  import opened Sockets
  import opened Workers

  /** HTTP status of an upload over `MaxChunkSize` bytes. */
  const PayloadTooLarge: int := 413

  /** HTTP status of an upload with an unsupported extension. */
  const BadRequest: int := 400

  /** HTTP status of an empty transcript or summary. */
  const NotFound: int := 404

  /** The checks of `upload_chunk` (app/main.py:146-159): the lower-cased
      extension to save the chunk under, or the status it is refused with. */
  function CheckUpload(size: nat, filename: string): (r: Result<string>)
    ensures r.Ok? <==> size <= MaxChunkSize && Lower(Suffix(filename)) in SupportedFormats
    ensures size > MaxChunkSize ==> r == Err(PayloadTooLarge)
    ensures size <= MaxChunkSize && Lower(Suffix(filename)) !in SupportedFormats ==> r == Err(BadRequest)
    ensures r.Ok? ==> r.value == Lower(Suffix(filename)) && r.value in SupportedFormats
  {
    if size > MaxChunkSize then Err(PayloadTooLarge)
    else
      var extension := Lower(Suffix(filename));
      if extension !in SupportedFormats then Err(BadRequest)
      else Ok(extension)
  }

  /** The size limit wins over the extension: an oversized file is refused with
      413 whatever its name, and the verdict ignores the case of the extension. */
  lemma UploadChecksInOrder(size: nat, filename: string, other: string)
    requires Lower(Suffix(filename)) == Lower(Suffix(other))
    ensures size > MaxChunkSize ==> CheckUpload(size, filename) == CheckUpload(size, other) == Err(PayloadTooLarge)
    ensures CheckUpload(size, filename) == CheckUpload(size, other)
  {
  }

  /** Every accepted chunk is saved under a name that ends in its own extension. */
  lemma AcceptedChunkKeepsFormat(size: nat, filename: string, sid: string, seqNum: int)
    requires CheckUpload(size, filename).Ok?
    ensures var extension := CheckUpload(size, filename).value;
            Suffix(ChunkPath(sid, seqNum, extension)) == extension
  {
    var extension := CheckUpload(size, filename).value;
    SupportedIsPlain(extension);
    ChunkPathKeepsExtension(sid, seqNum, extension);
  }

  /** Each supported format is a dot and a few letters or digits. */
  lemma SupportedIsPlain(extension: string)
    requires extension in SupportedFormats
    ensures PlainExtension(extension)
  {
    assert extension == ".webm" || extension == ".ogg" || extension == ".wav"
        || extension == ".mp3" || extension == ".m4a";
  }

  /** `get_transcript`: 404 for an empty transcript, which includes an unknown session. */
  function TranscriptResponse(db: Db, sid: string): (r: Result<string>)
    ensures r.Err? <==> sid !in db || db[sid].transcript == ""
    ensures r.Err? ==> r.status == NotFound
    ensures r.Ok? ==> r.value == db[sid].transcript
  {
    var transcript := TranscriptOf(db, sid);
    if transcript == "" then Err(NotFound) else Ok(transcript)
  }

  /** `get_summary`: 404 while the summary is empty, which includes an unknown session. */
  function SummaryResponse(db: Db, sid: string): (r: Result<string>)
    ensures r.Err? <==> sid !in db || db[sid].summary == ""
    ensures r.Err? ==> r.status == NotFound
    ensures r.Ok? ==> r.value == db[sid].summary
  {
    var summary := SummaryOf(db, sid);
    if summary == "" then Err(NotFound) else Ok(summary)
  }

  /** Once the expected chunk of a known session converts and the recognizer
      hears something in it, its transcript is no longer answered with 404. */
  lemma SpeechMakesTranscriptAvailable(db: Db, sid: string, seqNum: int, path: string, env: Env, now: int)
    requires sid in db && seqNum == db[sid].expectedSeq && env.convert(sid, seqNum, path)
    requires Truthy(env.transcribe(sid, ConvertedPath(sid, seqNum)))
    ensures TranscriptResponse(Admit(db, sid, seqNum, path, env, now).db, sid).Ok?
  {
    var s := db[sid];
    var r := AdmitKnown(s, sid, seqNum, path, env, now).session;
    AdmitAdvances(s, sid, seqNum, path, env, now);
    SpokenFront(sid, env, seqNum, r.expectedSeq);
    assert |Heard(sid, seqNum, env)| > 0;
    assert |r.transcript| > 0;
  }

  /** After `end_session`, a transcript of at least 10 words and 50 characters
      once stripped has a summary, unless LexRank itself answered with nothing. */
  lemma FinalSummaryAvailable(db: Db, sid: string, env: Env, now: int)
    requires sid in db
    requires var t := Flushed(db[sid], sid, env).transcript;
             && WordCount(t) >= MinFinalWords && |Strip(t)| >= MinTextLength
             && env.lexRank(t, SummarySentenceCount) != Some("")
    ensures SummaryResponse(Finalize(db, sid, env, now).db, sid).Ok?
  {
    var s := db[sid];
    var t := Flushed(s, sid, env).transcript;
    var r := FinalizeKnown(s, sid, env, now);
    FinalizeAnnounces(s, sid, env, now);
    assert r.session.transcript == t;
    SummarizeCases(t, SummarySentenceCount, env.lexRank);
    WordCountOfNothing("");
  }

  /** `upload_chunk(session_id, seq, timestamp, chunk)`: refuse the chunk, or save
      it and process it. The handler only schedules processing; here it runs to
      completion before the handler returns. */
  method UploadChunk(p: ChunkProcessor, sid: string, seqNum: int, size: nat, filename: string, env: Env, now: int)
    returns (r: Result<nat>)
    modifies p.store, p.ws
    ensures r.Err? ==> Err(r.status) == CheckUpload(size, filename) && unchanged(p.store) && (p.ws != null ==> unchanged(p.ws))
    ensures r.Ok? <==> CheckUpload(size, filename).Ok?
    ensures r.Ok? ==> r.value == size
    ensures r.Ok? ==>
              var path := ChunkPath(sid, seqNum, CheckUpload(size, filename).value);
              var step := Admit(Counted(old(p.store.sessions), sid), sid, seqNum, path, env, now);
              && p.store.sessions == step.db
              && (p.ws != null ==> p.ws.State() == PublishAll(old(p.ws.State()), step.sent, env.deliver))
  {
    var checked := CheckUpload(size, filename);
    if checked.Err? {
      return Err(checked.status);
    }
    var path := p.store.SaveChunk(sid, seqNum, checked.value);
    p.ProcessChunk(sid, seqNum, path, env, now);
    r := Ok(size);
  }

  /** `end_session(session_id)`: finalize, then answer with the final transcript
      and summary, which are those the `session_ended` broadcast carried. */
  method EndSession(p: ChunkProcessor, sid: string, env: Env, now: int) returns (transcript: string, summary: string)
    modifies p.store, p.ws
    ensures p.store.sessions == Finalize(old(p.store.sessions), sid, env, now).db
    ensures transcript == TranscriptOf(p.store.sessions, sid) && summary == SummaryOf(p.store.sessions, sid)
    ensures var sent := Finalize(old(p.store.sessions), sid, env, now).sent;
            sent != [] && sent[|sent| - 1] == SessionEnded(sid, transcript, summary)
  {
    FinalizeInSteps(p.store.sessions, sid, env, now);
    p.FinalizeSession(sid, env, now);
    transcript := p.store.GetTranscript(sid);
    summary := p.store.GetSummary(sid);
  }
}
