/** app/workers.py: `ChunkProcessor`, the per-session sequencer. A chunk below
    `expected_seq` is ignored, one above it is buffered, and the expected one is
    converted, transcribed, appended, maybe summarized, counted, and followed by
    a drain of the buffered chunks that have become next in line.

    The first half of the module states what one call does as functions on the
    session table (`Admit`, `Drain`, `Finalize`); each returns the new table and
    the messages broadcast, in order. The second half is the class, whose methods
    follow the source statement by statement and are proved to agree with those
    functions. ffmpeg, Vosk and LexRank are the oracles of `Env`. */
module Workers {
  import opened Wrappers
  import opened Text
  import opened Config
  import opened Summarizer
  import opened Storage
  import opened Sockets

  /** The outside world of the pipeline.
      `convert(sid, seq, input)`: whether ffmpeg exited with 0 and wrote the WAV,
      which is then at `ConvertedPath(sid, seq)`.
      `transcribe(sid, wav)`: `transcriber.transcribe_chunk`.
      `flush(sid)`: `transcriber.finalize_session`.
      `lexRank(text, n)`: the LexRank summary, `None` when it raises.
      `deliver(socket, message)`: whether `send_text` succeeds. */
  datatype Env = Env(
    convert: (string, int, string) -> bool,
    transcribe: (string, string) -> Option<string>,
    flush: string -> Option<string>,
    lexRank: (string, int) -> Option<string>,
    deliver: (Socket, Message) -> bool)

  /** A transcript with fewer words is not summarized during recording. */
  const MinSummaryWords: int := 30

  /** A transcript needs this many words for the summary at finalization. */
  const MinFinalWords: int := 10

  /** A session's new record and the messages broadcast, in order. */
  datatype Outcome = Outcome(session: Session, sent: seq<Message>)

  /** The new table and the messages broadcast, in order. */
  datatype Step = Step(db: Db, sent: seq<Message>)

  /** Python truthiness of an optional string. */
  predicate Truthy(o: Option<string>) {
    o.Some? && o.value != ""
  }

  /** The fields a step of the pipeline may change are the transcript and word
      count, the summary and its time, the expected sequence number and the
      buffer; `r` agrees with `s` on all the others. */
  predicate SameIdentity(s: Session, r: Session) {
    r == s.(transcript := r.transcript, wordCount := r.wordCount, summary := r.summary,
            lastSummaryTime := r.lastSummaryTime, expectedSeq := r.expectedSeq, buffered := r.buffered)
  }

  // ---------------------------------------------------------------------------
  // What one call does to a known session
  // ---------------------------------------------------------------------------

  /** `_generate_and_broadcast_summary`: skipped for a transcript under 30 words;
      a non-empty summary is stored and broadcast, an empty one is dropped. */
  function SummaryStep(s: Session, sid: string, env: Env, now: int): (r: Outcome)
    ensures r.session == s.(summary := r.session.summary, lastSummaryTime := r.session.lastSummaryTime)
    ensures r.sent == [] ==> r.session == s
    ensures WordCount(s.transcript) < MinSummaryWords ==> r.sent == []
    ensures r.sent != [] ==>
              && WordCount(s.transcript) >= MinSummaryWords
              && r.session.summary == Summarize(s.transcript, SummarySentenceCount, env.lexRank) != ""
              && r.session.lastSummaryTime == now
              && r.sent == [SummaryUpdate(sid, r.session.summary)]
    ensures var summary := Summarize(s.transcript, SummarySentenceCount, env.lexRank);
            WordCount(s.transcript) >= MinSummaryWords && summary != "" ==>
              && r.sent == [SummaryUpdate(sid, summary)]
              && r.session == s.(summary := summary, lastSummaryTime := now)
  {
    if s.transcript == "" then
      WordCountOfNothing(s.transcript);
      Outcome(s, [])
    else if WordCount(s.transcript) < MinSummaryWords then Outcome(s, [])
    else
      var summary := Summarize(s.transcript, SummarySentenceCount, env.lexRank);
      if summary == "" then Outcome(s, [])
      else Outcome(Resummarize(s, summary, now), [SummaryUpdate(sid, summary)])
  }

  /** Lines 61-74 of app/workers.py, for a non-empty text: append it, broadcast the
      update with the full transcript, and summarize if the trigger says so. */
  function Record(s: Session, sid: string, text: string, env: Env, now: int): Outcome {
    var s1 := Retranscribe(s, text, true);
    var update := TranscriptUpdate(sid, text, s1.transcript);
    if Due(s1, SummaryWordThreshold, SummaryTimeInterval, now) then
      var o := SummaryStep(s1, sid, env, now);
      Outcome(o.session, [update] + o.sent)
    else Outcome(s1, [update])
  }

  /** The expected chunk after a successful conversion (app/workers.py:59-77):
      transcribe, record a non-empty text, then count the chunk. */
  function Advance(s: Session, sid: string, seqNum: int, env: Env, now: int): (r: Outcome)
    ensures r.session.buffered == s.buffered
  {
    var text := env.transcribe(sid, ConvertedPath(sid, seqNum));
    var o := if Truthy(text) then Record(s, sid, text.value, env, now) else Outcome(s, []);
    Outcome(Bump(o.session), o.sent)
  }

  /** `_process_buffered_chunks` together with the `process_chunk` calls it makes:
      while the chunk at `expected_seq` is buffered, remove it and process it.
      A conversion failure ends the drain with that chunk removed and not counted. */
  function Drain(s: Session, sid: string, env: Env, now: int): Outcome
    decreases |s.buffered|
  {
    var e := s.expectedSeq;
    match BufferedAt(s, e)
    case None => Outcome(s, [])
    case Some(path) =>
      var s1 := Unbuffer(s, e);
      UnbufferShrinks(s, e);
      if !env.convert(sid, e, path) then Outcome(s1, [])
      else
        var a := Advance(s1, sid, e, env, now);
        var d := Drain(a.session, sid, env, now);
        Outcome(d.session, a.sent + d.sent)
  }

  /** `process_chunk(sid, seq, path)` on a known session. */
  function AdmitKnown(s: Session, sid: string, seqNum: int, path: string, env: Env, now: int): (r: Outcome)
    ensures seqNum < s.expectedSeq ==> r == Outcome(s, [])
    ensures seqNum > s.expectedSeq ==> r == Outcome(s.(buffered := s.buffered[seqNum := path]), [])
    ensures seqNum == s.expectedSeq && !env.convert(sid, seqNum, path) ==> r == Outcome(s, [])
  {
    if seqNum < s.expectedSeq then Outcome(s, [])
    else if seqNum > s.expectedSeq then Outcome(Buffer(s, seqNum, path), [])
    else if !env.convert(sid, seqNum, path) then Outcome(s, [])
    else
      var a := Advance(s, sid, seqNum, env, now);
      var d := Drain(a.session, sid, env, now);
      Outcome(d.session, a.sent + d.sent)
  }

  /** The recognizer's final text appended to the transcript (app/workers.py:189-191). */
  function Flushed(s: Session, sid: string, env: Env): Session {
    var flushed := env.flush(sid);
    if Truthy(flushed) then Retranscribe(s, flushed.value, true) else s
  }

  /** The summary forced at finalization for a transcript of at least 10 words,
      stored and broadcast even when it is empty (app/workers.py:194-200). */
  function ForcedSummary(s: Session, sid: string, env: Env, now: int): Outcome {
    if s.transcript != "" && WordCount(s.transcript) >= MinFinalWords then
      var summary := Summarize(s.transcript, SummarySentenceCount, env.lexRank);
      Outcome(Resummarize(s, summary, now), [SummaryUpdate(sid, summary)])
    else Outcome(s, [])
  }

  /** `finalize_session` on a known session: flush the recognizer, force a summary,
      mark the session ended and announce it. */
  function FinalizeKnown(s: Session, sid: string, env: Env, now: int): Outcome {
    var o := ForcedSummary(Flushed(s, sid, env), sid, env, now);
    var s3 := End(o.session, now);
    Outcome(s3, o.sent + [SessionEnded(sid, s3.transcript, s3.summary)])
  }

  /** Finalization flushes the recognizer into the transcript, forces a summary
      exactly when the transcript has at least 10 words (stored even if empty),
      marks the session ended, and always ends with the `session_ended` message
      carrying the final transcript and summary. */
  lemma FinalizeAnnounces(s: Session, sid: string, env: Env, now: int)
    ensures var r := FinalizeKnown(s, sid, env, now);
            && r.session.status == Status.Ended && r.session.endedAt == Some(now)
            && r.session.expectedSeq == s.expectedSeq && r.session.buffered == s.buffered
            && r.session.transcript == s.transcript + (if Truthy(env.flush(sid)) then " " + env.flush(sid).value else "")
            && (Consistent(s) ==> Consistent(r.session))
            && 1 <= |r.sent| <= 2
            && r.sent[|r.sent| - 1] == SessionEnded(sid, r.session.transcript, r.session.summary)
            && (|r.sent| == 2 <==> MinFinalWords <= WordCount(r.session.transcript))
            && (|r.sent| == 2 ==>
                  && r.sent[0] == SummaryUpdate(sid, r.session.summary)
                  && r.session.summary == Summarize(r.session.transcript, SummarySentenceCount, env.lexRank)
                  && r.session.lastSummaryTime == now)
            && (|r.sent| == 1 ==> r.session.summary == s.summary && r.session.lastSummaryTime == s.lastSummaryTime)
  {
    var s1 := Flushed(s, sid, env);
    FlushAppends(s, sid, env);
    ForcedSummaryCases(s1, sid, env, now);
  }

  /** The recognizer's final text is appended, and only the transcript changes. */
  lemma FlushAppends(s: Session, sid: string, env: Env)
    ensures var f := Flushed(s, sid, env);
            && f == s.(transcript := f.transcript, wordCount := f.wordCount)
            && f.transcript == s.transcript + (if Truthy(env.flush(sid)) then " " + env.flush(sid).value else "")
            && (Consistent(s) ==> Consistent(f))
  {
    var flushed := env.flush(sid);
    if Truthy(flushed) {
      AppendedTranscript(s, flushed.value);
    } else {
      NothingAfter(s.transcript);
    }
  }

  /** The forced summary is made and sent exactly for a transcript of at least
      10 words, and only the summary and its time change. */
  lemma ForcedSummaryCases(s: Session, sid: string, env: Env, now: int)
    ensures var o := ForcedSummary(s, sid, env, now);
            && o.session == s.(summary := o.session.summary, lastSummaryTime := o.session.lastSummaryTime)
            && |o.sent| <= 1
            && (|o.sent| == 1 <==> MinFinalWords <= WordCount(s.transcript))
            && (|o.sent| == 1 ==>
                  && o.sent[0] == SummaryUpdate(sid, o.session.summary)
                  && o.session.summary == Summarize(s.transcript, SummarySentenceCount, env.lexRank)
                  && o.session.lastSummaryTime == now)
            && (o.sent == [] ==> o.session == s)
  {
    if s.transcript == "" {
      WordCountOfNothing(s.transcript);
    }
  }

  // ---------------------------------------------------------------------------
  // What one call does to the table
  // ---------------------------------------------------------------------------

  /** `process_chunk(sid, seq, path)`. For a session missing from the table every
      storage call does nothing and `expected_seq` reads as 0, yet chunk 0 is still
      converted and transcribed, and its text broadcast with an empty transcript. */
  function Admit(db: Db, sid: string, seqNum: int, path: string, env: Env, now: int): Step
  {
    if sid in db then
      var o := AdmitKnown(db[sid], sid, seqNum, path, env, now);
      Step(db[sid := o.session], o.sent)
    else
      var text := env.transcribe(sid, ConvertedPath(sid, seqNum));
      if seqNum == 0 && env.convert(sid, seqNum, path) && Truthy(text) then
        Step(db, [TranscriptUpdate(sid, text.value, "")])
      else Step(db, [])
  }

  /** `finalize_session(sid)`; a session missing from the table is still announced as ended. */
  function Finalize(db: Db, sid: string, env: Env, now: int): Step
  {
    if sid in db then
      var o := FinalizeKnown(db[sid], sid, env, now);
      Step(db[sid := o.session], o.sent)
    else Step(db, [SessionEnded(sid, "", "")])
  }

  /** `_generate_and_broadcast_summary(sid)` on the table. */
  function SummaryAt(db: Db, sid: string, env: Env, now: int): Step
  {
    if sid in db then
      var o := SummaryStep(db[sid], sid, env, now);
      Step(db[sid := o.session], o.sent)
    else Step(db, [])
  }

  /** `_process_buffered_chunks(sid)` on the table; nothing is buffered for an unknown session. */
  function DrainAt(db: Db, sid: string, env: Env, now: int): Step
  {
    if sid in db then
      var o := Drain(db[sid], sid, env, now);
      Step(db[sid := o.session], o.sent)
    else Step(db, [])
  }

  /** Processing a chunk or finalizing touches only its own session; for a
      session missing from the table the table stays as it is. */
  lemma OtherSessionsUntouched(db: Db, sid: string, seqNum: int, path: string, env: Env, now: int)
    ensures Untouched(db, Admit(db, sid, seqNum, path, env, now).db, sid)
    ensures Untouched(db, Finalize(db, sid, env, now).db, sid)
    ensures sid !in db ==> Admit(db, sid, seqNum, path, env, now).db == db
    ensures sid !in db ==> Finalize(db, sid, env, now) == Step(db, [SessionEnded(sid, "", "")])
  {
  }

  /** The recognizer's final text appended to the session's transcript in the
      table (app/workers.py:189-191). */
  function FlushedAt(db: Db, sid: string, env: Env): Db {
    var flushed := env.flush(sid);
    if Truthy(flushed) then WithTranscript(db, sid, flushed.value, true) else db
  }

  /** The summary forced at finalization, on the table (app/workers.py:194-200). */
  function ForcedAt(db: Db, sid: string, env: Env, now: int): Step {
    var t := TranscriptOf(db, sid);
    if t != "" && WordCount(t) >= MinFinalWords then
      var summary := Summarize(t, SummarySentenceCount, env.lexRank);
      Step(WithSummary(db, sid, summary, now), [SummaryUpdate(sid, summary)])
    else Step(db, [])
  }

  /** `finalize_session` read statement by statement on the table (flush and
      append, force the summary, mark ended, announce) agrees with `Finalize`. */
  lemma FinalizeInSteps(db: Db, sid: string, env: Env, now: int)
    ensures var f := ForcedAt(FlushedAt(db, sid, env), sid, env, now);
            var db3 := MarkedEnded(f.db, sid, now);
            var ended := SessionEnded(sid, TranscriptOf(db3, sid), SummaryOf(db3, sid));
            Finalize(db, sid, env, now) == Step(db3, f.sent + [ended])
  {
    if sid in db {
      var s := db[sid];
      var o := ForcedSummary(Flushed(s, sid, env), sid, env, now);
      Overwrite(db, sid, Flushed(s, sid, env), o.session);
      Overwrite(db, sid, o.session, End(o.session, now));
    }
  }

  /** Lines 61-74 of app/workers.py on the table, for a non-empty text. */
  function RecordedAt(db: Db, sid: string, text: string, env: Env, now: int): Step {
    var db1 := WithTranscript(db, sid, text, true);
    var update := TranscriptUpdate(sid, text, TranscriptOf(db1, sid));
    if SummaryDue(db1, sid, SummaryWordThreshold, SummaryTimeInterval, now) then
      var g := SummaryAt(db1, sid, env, now);
      Step(g.db, [update] + g.sent)
    else Step(db1, [update])
  }

  /** Lines 59-77 of app/workers.py on the table: transcribe the converted chunk,
      record a non-empty text, count the chunk. */
  function AdvancedAt(db: Db, sid: string, seqNum: int, env: Env, now: int): Step {
    var text := env.transcribe(sid, ConvertedPath(sid, seqNum));
    var r := if Truthy(text) then RecordedAt(db, sid, text.value, env, now) else Step(db, []);
    Step(Bumped(r.db, sid), r.sent)
  }

  /** Transcribing, recording and counting leave the buffer as it is. */
  lemma AdvanceKeepsBuffer(db: Db, sid: string, seqNum: int, env: Env, now: int)
    ensures BufferSize(AdvancedAt(db, sid, seqNum, env, now).db, sid) == BufferSize(db, sid)
  {
    var text := env.transcribe(sid, ConvertedPath(sid, seqNum));
    if Truthy(text) {
      RecordInSteps(db, sid, text.value, env, now);
    }
  }

  lemma RecordInSteps(db: Db, sid: string, text: string, env: Env, now: int)
    ensures sid in db ==>
              var o := Record(db[sid], sid, text, env, now);
              RecordedAt(db, sid, text, env, now) == Step(db[sid := o.session], o.sent)
    ensures sid !in db ==> RecordedAt(db, sid, text, env, now) == Step(db, [TranscriptUpdate(sid, text, "")])
  {
    if sid in db {
      var s1 := Retranscribe(db[sid], text, true);
      Overwrite(db, sid, s1, SummaryStep(s1, sid, env, now).session);
    }
  }

  /** `process_chunk` read statement by statement on the table (the expected-number
      checks, conversion, transcription and recording, the count, the drain)
      agrees with `Admit`. */
  lemma AdmitInSteps(db: Db, sid: string, seqNum: int, path: string, env: Env, now: int)
    ensures var e := Expected(db, sid);
            var a := AdvancedAt(db, sid, seqNum, env, now);
            var d := DrainAt(a.db, sid, env, now);
            var steps := if seqNum < e then Step(db, [])
                         else if seqNum > e then Step(Buffered(db, sid, seqNum, path), [])
                         else if !env.convert(sid, seqNum, path) then Step(db, [])
                         else Step(d.db, a.sent + d.sent);
            Admit(db, sid, seqNum, path, env, now) == steps
  {
    var text := env.transcribe(sid, ConvertedPath(sid, seqNum));
    if Truthy(text) {
      RecordInSteps(db, sid, text.value, env, now);
    }
    if sid in db && seqNum == db[sid].expectedSeq && env.convert(sid, seqNum, path) {
      var s := db[sid];
      var o := if Truthy(text) then Record(s, sid, text.value, env, now) else Outcome(s, []);
      var a := Advance(s, sid, seqNum, env, now);
      assert a.session == Bump(o.session);
      Overwrite(db, sid, o.session, a.session);
      Overwrite(db, sid, a.session, Drain(a.session, sid, env, now).session);
    }
  }

  // ---------------------------------------------------------------------------
  // What the processed chunks add to the transcript
  // ---------------------------------------------------------------------------

  /** What chunk `k` adds to the transcript once converted: a blank and its text,
      or nothing when the recognizer heard nothing. */
  function Heard(sid: string, k: int, env: Env): string {
    var text := env.transcribe(sid, ConvertedPath(sid, k));
    if Truthy(text) then " " + text.value else ""
  }

  /** What chunks `lo .. hi-1` add to the transcript, in sequence order. */
  function Spoken(sid: string, env: Env, lo: int, hi: int): string
    decreases hi - lo
  {
    if hi <= lo then "" else Spoken(sid, env, lo, hi - 1) + Heard(sid, hi - 1, env)
  }

  lemma {:induction false} SpokenFront(sid: string, env: Env, lo: int, hi: int)
    requires lo < hi
    ensures Spoken(sid, env, lo, hi) == Heard(sid, lo, env) + Spoken(sid, env, lo + 1, hi)
    decreases hi - lo
  {
    if lo + 1 < hi {
      SpokenFront(sid, env, lo, hi - 1);
      Regroup(Heard(sid, lo, env), Spoken(sid, env, lo + 1, hi - 1), Heard(sid, hi - 1, env));
    } else {
      assert Spoken(sid, env, lo, hi) == Spoken(sid, env, lo, lo) + Heard(sid, lo, env);
      EmptyFront(Spoken(sid, env, lo, lo), Heard(sid, lo, env));
      NothingAfter(Heard(sid, lo, env));
    }
  }

  /** The words chunk `k` contributes to the transcript. */
  function HeardWords(sid: string, k: int, env: Env): seq<string> {
    var text := env.transcribe(sid, ConvertedPath(sid, k));
    if Truthy(text) then Words(text.value) else []
  }

  /** The words chunks `lo .. hi-1` contribute to the transcript, in sequence order. */
  function SpokenWords(sid: string, env: Env, lo: int, hi: int): seq<string>
    decreases hi - lo
  {
    if hi <= lo then [] else SpokenWords(sid, env, lo, hi - 1) + HeardWords(sid, hi - 1, env)
  }

  lemma WordsOfHeard(u: string, sid: string, k: int, env: Env)
    ensures Words(u + Heard(sid, k, env)) == Words(u) + HeardWords(sid, k, env)
  {
    var text := env.transcribe(sid, ConvertedPath(sid, k));
    if Truthy(text) {
      assert u + Heard(sid, k, env) == u + " " + text.value;
      WordsAppend(u, text.value);
    } else {
      assert u + Heard(sid, k, env) == u;
    }
  }

  /** After chunks `lo .. hi-1` the transcript's words are the old words followed by
      each chunk's words, in sequence order: appending never merges or loses words. */
  lemma {:induction false} WordsOfSpoken(t: string, sid: string, env: Env, lo: int, hi: int)
    ensures Words(t + Spoken(sid, env, lo, hi)) == Words(t) + SpokenWords(sid, env, lo, hi)
    decreases hi - lo
  {
    if hi <= lo {
      assert t + Spoken(sid, env, lo, hi) == t;
    } else {
      var u := t + Spoken(sid, env, lo, hi - 1);
      assert t + Spoken(sid, env, lo, hi) == u + Heard(sid, hi - 1, env);
      WordsOfSpoken(t, sid, env, lo, hi - 1);
      WordsOfHeard(u, sid, hi - 1, env);
    }
  }

  // ---------------------------------------------------------------------------
  // Properties of processing the expected chunk
  // ---------------------------------------------------------------------------

  /** The expected chunk is counted exactly once, its text (if any) is appended,
      and nothing else about the session changes but the summary. */
  lemma AdvanceCounts(s: Session, sid: string, seqNum: int, env: Env, now: int)
    ensures var r := Advance(s, sid, seqNum, env, now).session;
            && SameIdentity(s, r)
            && r.expectedSeq == s.expectedSeq + 1
            && r.transcript == s.transcript + Heard(sid, seqNum, env)
            && (Consistent(s) ==> Consistent(r))
  {
    AdvanceTranscript(s, sid, seqNum, env, now);
  }

  /** The expected chunk is counted and its text appended. */
  lemma AdvanceTranscript(s: Session, sid: string, seqNum: int, env: Env, now: int)
    ensures var r := Advance(s, sid, seqNum, env, now).session;
            && r.expectedSeq == s.expectedSeq + 1
            && r.transcript == s.transcript + Heard(sid, seqNum, env)
  {
    var text := env.transcribe(sid, ConvertedPath(sid, seqNum));
    if Truthy(text) {
      AppendedTranscript(s, text.value);
    } else {
      NothingAfter(s.transcript);
    }
  }

  /** A transcript update is broadcast exactly when the recognizer returned text;
      a summary only after it, when the trigger held, the transcript had 30 words
      and the summary is non-empty. */
  lemma AdvanceMessages(s: Session, sid: string, seqNum: int, env: Env, now: int)
    ensures var text := env.transcribe(sid, ConvertedPath(sid, seqNum));
            var r := Advance(s, sid, seqNum, env, now);
            && (!Truthy(text) ==> r.sent == [])
            && (Truthy(text) ==>
                  && 1 <= |r.sent| <= 2
                  && r.sent[0] == TranscriptUpdate(sid, text.value, r.session.transcript))
            && (|r.sent| == 2 ==>
                  && Due(Retranscribe(s, text.value, true), SummaryWordThreshold, SummaryTimeInterval, now)
                  && WordCount(r.session.transcript) >= MinSummaryWords
                  && r.sent[1] == SummaryUpdate(sid, r.session.summary) && r.session.summary != "")
            && (|r.sent| < 2 ==> r.session.summary == s.summary && r.session.lastSummaryTime == s.lastSummaryTime)
            && (Truthy(text) ==>
                  var s1 := Retranscribe(s, text.value, true);
                  var summary := Summarize(s1.transcript, SummarySentenceCount, env.lexRank);
                  Due(s1, SummaryWordThreshold, SummaryTimeInterval, now)
                  && WordCount(s1.transcript) >= MinSummaryWords && summary != "" ==>
                    && |r.sent| == 2
                    && r.sent[1] == SummaryUpdate(sid, summary)
                    && r.session.summary == summary && r.session.lastSummaryTime == now)
  {
    var text := env.transcribe(sid, ConvertedPath(sid, seqNum));
    if Truthy(text) {
      var o := Record(s, sid, text.value, env, now);
      assert Advance(s, sid, seqNum, env, now) == Outcome(Bump(o.session), o.sent);
    } else {
      assert Advance(s, sid, seqNum, env, now) == Outcome(Bump(s), []);
    }
  }

  // ---------------------------------------------------------------------------
  // Properties of the drain
  // ---------------------------------------------------------------------------

  /** One round of the drain: the chunk at `expected_seq` is removed from the
      buffer, processed, and the drain goes on from the next sequence number. */
  lemma DrainUnroll(s: Session, sid: string, env: Env, now: int)
    requires BufferedAt(s, s.expectedSeq).Some?
    requires env.convert(sid, s.expectedSeq, s.buffered[s.expectedSeq])
    ensures var a := Advance(Unbuffer(s, s.expectedSeq), sid, s.expectedSeq, env, now).session;
            && Drain(s, sid, env, now).session == Drain(a, sid, env, now).session
            && a.expectedSeq == s.expectedSeq + 1
            && a.buffered == s.buffered - {s.expectedSeq}
            && a.transcript == s.transcript + Heard(sid, s.expectedSeq, env)
            && SameIdentity(s, a)
            && (Consistent(s) ==> Consistent(a))
            && |a.buffered| < |s.buffered|
  {
    var e := s.expectedSeq;
    var s1 := Unbuffer(s, e);
    UnbufferShrinks(s, e);
    AdvanceCounts(s1, sid, e, env, now);
  }

  /** The drain never moves `expected_seq` back, ends with nothing usable buffered
      at the new `expected_seq`, and never grows the buffer. */
  lemma {:induction false} DrainStops(s: Session, sid: string, env: Env, now: int)
    ensures var r := Drain(s, sid, env, now).session;
            && r.expectedSeq >= s.expectedSeq
            && BufferedAt(r, r.expectedSeq).None?
            && |r.buffered| <= |s.buffered|
            && (BufferedAt(s, s.expectedSeq).Some? ==> |r.buffered| < |s.buffered|)
            && SameIdentity(s, r)
            && (Consistent(s) ==> Consistent(r))
    decreases |s.buffered|
  {
    var e := s.expectedSeq;
    if BufferedAt(s, e).Some? {
      var s1 := Unbuffer(s, e);
      UnbufferShrinks(s, e);
      if env.convert(sid, e, s.buffered[e]) {
        DrainUnroll(s, sid, env, now);
        DrainStops(Advance(s1, sid, e, env, now).session, sid, env, now);
      }
    }
  }

  /** The drain appends the texts of the chunks it counted, in sequence order. */
  lemma {:induction false} DrainTranscript(s: Session, sid: string, env: Env, now: int)
    ensures var r := Drain(s, sid, env, now).session;
            r.transcript == s.transcript + Spoken(sid, env, s.expectedSeq, r.expectedSeq)
    decreases |s.buffered|, 1
  {
    var e := s.expectedSeq;
    if BufferedAt(s, e).Some? && env.convert(sid, e, s.buffered[e]) {
      DrainTranscriptStep(s, sid, env, now);
    } else {
      DrainStalls(s, sid, env, now);
      assert Spoken(sid, env, e, e) == "";
      NothingAfter(s.transcript);
    }
  }

  /** A round of the drain that counts a chunk appends its text, then those of the rounds after it. */
  lemma {:induction false} DrainTranscriptStep(s: Session, sid: string, env: Env, now: int)
    requires BufferedAt(s, s.expectedSeq).Some? && env.convert(sid, s.expectedSeq, s.buffered[s.expectedSeq])
    ensures var r := Drain(s, sid, env, now).session;
            r.transcript == s.transcript + Spoken(sid, env, s.expectedSeq, r.expectedSeq)
    decreases |s.buffered|, 0
  {
    var e := s.expectedSeq;
    var s1 := Unbuffer(s, e);
    UnbufferShrinks(s, e);
    var a := Advance(s1, sid, e, env, now).session;
    var r := Drain(a, sid, env, now).session;
    assert Drain(s, sid, env, now).session == r;
    assert r.transcript == s.transcript + Spoken(sid, env, e, r.expectedSeq) by {
      assert s1.transcript == s.transcript && s1.expectedSeq == e;
      AdvanceTranscript(s1, sid, e, env, now);
      assert a.transcript == s.transcript + Heard(sid, e, env) && a.expectedSeq == e + 1;
      DrainTranscript(a, sid, env, now);
      DrainNeverBack(a, sid, env, now);
      HeardThenSpoken(sid, env, e, r.expectedSeq, s.transcript, a.transcript, r.transcript);
    }
  }

  /** The drain never moves `expected_seq` back. */
  lemma {:induction false} DrainNeverBack(s: Session, sid: string, env: Env, now: int)
    ensures Drain(s, sid, env, now).session.expectedSeq >= s.expectedSeq
    decreases |s.buffered|
  {
    var e := s.expectedSeq;
    if BufferedAt(s, e).Some? && env.convert(sid, e, s.buffered[e]) {
      var s1 := Unbuffer(s, e);
      UnbufferShrinks(s, e);
      AdvanceTranscript(s1, sid, e, env, now);
      DrainNeverBack(Advance(s1, sid, e, env, now).session, sid, env, now);
    }
  }

  /** The drain ends where nothing usable is buffered at `expected_seq`. */
  lemma {:induction false} DrainEndsClear(s: Session, sid: string, env: Env, now: int)
    ensures var r := Drain(s, sid, env, now).session;
            BufferedAt(r, r.expectedSeq).None?
    decreases |s.buffered|
  {
    var e := s.expectedSeq;
    if BufferedAt(s, e).Some? && env.convert(sid, e, s.buffered[e]) {
      var s1 := Unbuffer(s, e);
      UnbufferShrinks(s, e);
      DrainEndsClear(Advance(s1, sid, e, env, now).session, sid, env, now);
    }
  }

  /** Appending the text heard in chunk `lo` and then that of the chunks after
      it up to `hi` appends the text of `lo` up to `hi`. */
  lemma HeardThenSpoken(sid: string, env: Env, lo: int, hi: int, t: string, middle: string, last: string)
    requires lo < hi
    requires middle == t + Heard(sid, lo, env) && last == middle + Spoken(sid, env, lo + 1, hi)
    ensures last == t + Spoken(sid, env, lo, hi)
  {
    SpokenFront(sid, env, lo, hi);
    AppendInTurn(t, Heard(sid, lo, env), Spoken(sid, env, lo + 1, hi), middle, last);
  }

  /** Appending `h` and then `rest` is appending `h + rest`. */
  lemma AppendInTurn(t: string, h: string, rest: string, middle: string, last: string)
    requires middle == t + h && last == middle + rest
    ensures last == t + (h + rest)
  {
  }

  /** Without a usable, convertible chunk at `expected_seq` the drain counts nothing;
      at most it drops the chunk that failed to convert. */
  lemma DrainStalls(s: Session, sid: string, env: Env, now: int)
    requires BufferedAt(s, s.expectedSeq).None? || !env.convert(sid, s.expectedSeq, s.buffered[s.expectedSeq])
    ensures var r := Drain(s, sid, env, now);
            && r.sent == []
            && r.session == s.(buffered := r.session.buffered)
            && r.session.buffered == if BufferedAt(s, s.expectedSeq).None? then s.buffered
                                     else s.buffered - {s.expectedSeq}
  {
  }

  /** The drain counts the chunks `expected_seq, expected_seq+1, ...` that were
      buffered with a path and converted, and stops at the first one that is
      missing or fails to convert. */
  lemma {:induction false} DrainConsumes(s: Session, sid: string, env: Env, now: int)
    ensures var r := Drain(s, sid, env, now).session;
            && (forall k :: s.expectedSeq <= k < r.expectedSeq ==>
                  k in s.buffered && s.buffered[k] != "" && env.convert(sid, k, s.buffered[k]))
            && (BufferedAt(s, r.expectedSeq).Some? ==> !env.convert(sid, r.expectedSeq, s.buffered[r.expectedSeq]))
  {
    DrainCounted(s, sid, env, now);
    DrainHalts(s, sid, env, now);
  }

  /** Every chunk the drain counted was buffered with a path and converted. */
  lemma {:induction false} DrainCounted(s: Session, sid: string, env: Env, now: int)
    ensures var r := Drain(s, sid, env, now).session;
            forall k :: s.expectedSeq <= k < r.expectedSeq ==>
              k in s.buffered && s.buffered[k] != "" && env.convert(sid, k, s.buffered[k])
    decreases |s.buffered|
  {
    var e := s.expectedSeq;
    if BufferedAt(s, e).Some? && env.convert(sid, e, s.buffered[e]) {
      var s1 := Unbuffer(s, e);
      UnbufferShrinks(s, e);
      var a := Advance(s1, sid, e, env, now).session;
      var r := Drain(a, sid, env, now).session;
      AdvanceTranscript(s1, sid, e, env, now);
      assert a.expectedSeq == e + 1 && a.buffered == s1.buffered;
      assert Drain(s, sid, env, now).session == r;
      DrainCounted(a, sid, env, now);
      forall k | e <= k < r.expectedSeq
        ensures k in s.buffered && s.buffered[k] != "" && env.convert(sid, k, s.buffered[k])
      {
        if k != e {
          assert k in a.buffered && a.buffered[k] != "" && env.convert(sid, k, a.buffered[k]);
          assert a.buffered[k] == s.buffered[k];
        }
      }
    }
  }

  /** The chunk the drain stopped at, if buffered, failed to convert. */
  lemma {:induction false} DrainHalts(s: Session, sid: string, env: Env, now: int)
    ensures var r := Drain(s, sid, env, now).session;
            BufferedAt(s, r.expectedSeq).Some? ==> !env.convert(sid, r.expectedSeq, s.buffered[r.expectedSeq])
    decreases |s.buffered|
  {
    var e := s.expectedSeq;
    if BufferedAt(s, e).Some? && env.convert(sid, e, s.buffered[e]) {
      var s1 := Unbuffer(s, e);
      UnbufferShrinks(s, e);
      var a := Advance(s1, sid, e, env, now).session;
      var r := Drain(a, sid, env, now).session;
      AdvanceTranscript(s1, sid, e, env, now);
      assert a.expectedSeq == e + 1 && a.buffered == s1.buffered;
      assert Drain(s, sid, env, now).session == r;
      DrainHalts(a, sid, env, now);
      DrainNeverBack(a, sid, env, now);
      assert BufferedAt(a, r.expectedSeq) == BufferedAt(s, r.expectedSeq);
    } else {
      DrainStalls(s, sid, env, now);
    }
  }

  /** What the drain leaves buffered: the chunks outside the counted run, less the
      one whose conversion failed; each keeps its path. */
  lemma {:induction false} DrainBuffer(s: Session, sid: string, env: Env, now: int)
    ensures var r := Drain(s, sid, env, now).session;
            && (forall k :: k in r.buffered <==>
                  k in s.buffered && !(s.expectedSeq <= k < r.expectedSeq)
                  && !(k == r.expectedSeq && s.buffered[k] != ""))
            && (forall k :: k in r.buffered ==> r.buffered[k] == s.buffered[k])
    decreases |s.buffered|
  {
    var e := s.expectedSeq;
    if BufferedAt(s, e).Some? && env.convert(sid, e, s.buffered[e]) {
      var a := Advance(Unbuffer(s, e), sid, e, env, now).session;
      DrainUnroll(s, sid, env, now);
      DrainBuffer(a, sid, env, now);
      DrainStops(a, sid, env, now);
    } else {
      DrainStalls(s, sid, env, now);
    }
  }

  /** A round of the drain is `process_chunk` on the chunk it took out of the
      buffer: the drain and the nested call agree. */
  lemma DrainIsAdmit(s: Session, sid: string, env: Env, now: int)
    requires BufferedAt(s, s.expectedSeq).Some?
    ensures Drain(s, sid, env, now)
         == AdmitKnown(Unbuffer(s, s.expectedSeq), sid, s.expectedSeq, s.buffered[s.expectedSeq], env, now)
  {
  }

  /** Once drained, draining again does nothing: the loop in
      `_process_buffered_chunks` ends right after a nested drain returns. */
  lemma DrainSettles(s: Session, sid: string, env: Env, now: int)
    ensures var r := Drain(s, sid, env, now).session;
            Drain(r, sid, env, now) == Outcome(r, [])
  {
    DrainStops(s, sid, env, now);
  }

  /** One pass of the loop in `_process_buffered_chunks`, on the table: with no
      usable chunk at `expected_seq` there is nothing to drain; otherwise taking
      it out of the buffer and processing it is the whole drain, after which there
      is nothing left to drain. */
  lemma DrainPassAt(db: Db, sid: string, env: Env, now: int)
    ensures var e := Expected(db, sid);
            BufferedChunk(db, sid, e).None? ==> DrainAt(db, sid, env, now) == Step(db, [])
    ensures var e := Expected(db, sid);
            var chunk := BufferedChunk(db, sid, e);
            chunk.Some? ==>
              var a := Admit(Unbuffered(db, sid, e), sid, e, chunk.value, env, now);
              && DrainAt(db, sid, env, now) == a
              && DrainAt(a.db, sid, env, now) == Step(a.db, [])
              && BufferSize(a.db, sid) < BufferSize(db, sid)
  {
    if sid in db && BufferedChunk(db, sid, db[sid].expectedSeq).Some? {
      var s := db[sid];
      var e := s.expectedSeq;
      var s1 := Unbuffer(s, e);
      DrainIsAdmit(s, sid, env, now);
      DrainSettles(s, sid, env, now);
      DrainStops(s, sid, env, now);
      Overwrite(db, sid, s1, AdmitKnown(s1, sid, e, s.buffered[e], env, now).session);
    }
  }

  // ---------------------------------------------------------------------------
  // Properties of handling one chunk
  // ---------------------------------------------------------------------------

  /** The expected chunk, once converted, moves `expected_seq` past itself and past
      every buffered chunk the drain counted, appending their texts in order. */
  lemma AdmitAdvances(s: Session, sid: string, seqNum: int, path: string, env: Env, now: int)
    requires seqNum == s.expectedSeq && env.convert(sid, seqNum, path)
    ensures var r := AdmitKnown(s, sid, seqNum, path, env, now).session;
            && r.expectedSeq > seqNum
            && r.transcript == s.transcript + Spoken(sid, env, seqNum, r.expectedSeq)
            && BufferedAt(r, r.expectedSeq).None?
  {
    var a := Advance(s, sid, seqNum, env, now).session;
    var r := Drain(a, sid, env, now).session;
    AdvanceTranscript(s, sid, seqNum, env, now);
    DrainNeverBack(a, sid, env, now);
    DrainEndsClear(a, sid, env, now);
    DrainTranscript(a, sid, env, now);
    HeardThenSpoken(sid, env, seqNum, r.expectedSeq, s.transcript, a.transcript, r.transcript);
  }

  /** Handling a chunk keeps both session invariants: the word count matches the
      transcript, and every buffered chunk is ahead of `expected_seq` with a path. */
  lemma AdmitKeepsInvariants(s: Session, sid: string, seqNum: int, path: string, env: Env, now: int)
    requires Consistent(s) && Settled(s)
    requires path != ""
    ensures var r := AdmitKnown(s, sid, seqNum, path, env, now).session;
            Consistent(r) && Settled(r)
  {
    if seqNum == s.expectedSeq && env.convert(sid, seqNum, path) {
      var a := Advance(s, sid, seqNum, env, now).session;
      AdvanceCounts(s, sid, seqNum, env, now);
      DrainStops(a, sid, env, now);
      DrainBuffer(a, sid, env, now);
    }
  }

  /** `expected_seq` never goes down, the old transcript stays a prefix, and since
      text is only appended as whole words the word count never goes down either. */
  lemma AdmitMonotone(s: Session, sid: string, seqNum: int, path: string, env: Env, now: int)
    requires Consistent(s)
    ensures var r := AdmitKnown(s, sid, seqNum, path, env, now).session;
            && r.expectedSeq >= s.expectedSeq
            && s.transcript <= r.transcript
            && r.wordCount >= s.wordCount
  {
    if seqNum == s.expectedSeq && env.convert(sid, seqNum, path) {
      var a := Advance(s, sid, seqNum, env, now).session;
      var r := AdmitKnown(s, sid, seqNum, path, env, now).session;
      AdmitAdvances(s, sid, seqNum, path, env, now);
      AdvanceCounts(s, sid, seqNum, env, now);
      DrainStops(a, sid, env, now);
      WordsOfSpoken(s.transcript, sid, env, seqNum, r.expectedSeq);
    }
  }

  // ---------------------------------------------------------------------------
  // The processor object
  // ---------------------------------------------------------------------------

  /** `ChunkProcessor`, working on the session store `store` and broadcasting
      through `ws` once one has been set. */
  class ChunkProcessor {
    const store: SessionStorage
    const ws: WebSocketManager?

    constructor (store: SessionStorage, ws: WebSocketManager?)
      ensures this.store == store && this.ws == ws
    {
      this.store := store;
      this.ws := ws;
    }

    /** Broadcasts `m` when a manager is set; without one nothing is sent. */
    method Send(m: Message, env: Env)
      modifies ws
      ensures ws != null ==> ws.State() == PublishAll(old(ws.State()), [m], env.deliver)
    {
      if ws != null {
        ghost var w := ws.State();
        ws.Broadcast(m, env.deliver);
        PublishOnePass(w, m, env.deliver);
        assert PublishAll(w, [m], env.deliver) == PublishAll(Publish(w, m, env.deliver), [], env.deliver);
      }
    }

    /** `_broadcast_transcript_update`: the new text and the whole transcript. */
    method BroadcastTranscriptUpdate(sid: string, text: string, env: Env)
      modifies ws
      ensures ws != null ==>
                ws.State() == PublishAll(old(ws.State()), [TranscriptUpdate(sid, text, TranscriptOf(store.sessions, sid))], env.deliver)
    {
      var full := store.GetTranscript(sid);
      Send(TranscriptUpdate(sid, text, full), env);
    }

    /** `_broadcast_summary`. */
    method BroadcastSummary(sid: string, summary: string, env: Env)
      modifies ws
      ensures ws != null ==> ws.State() == PublishAll(old(ws.State()), [SummaryUpdate(sid, summary)], env.deliver)
    {
      Send(SummaryUpdate(sid, summary), env);
    }

    /** `_convert_to_wav`: the converted file's path, or `None` when ffmpeg fails. */
    method ConvertToWav(sid: string, seqNum: int, input: string, env: Env) returns (wav: Option<string>)
      ensures wav == if env.convert(sid, seqNum, input) then Some(ConvertedPath(sid, seqNum)) else None
    {
      var output := ConvertedPath(sid, seqNum);
      if env.convert(sid, seqNum, input) {
        wav := Some(output);
      } else {
        wav := None;
      }
    }

    /** `_generate_and_broadcast_summary`. */
    method GenerateAndBroadcastSummary(sid: string, env: Env, now: int)
      modifies store, ws
      ensures store.sessions == SummaryAt(old(store.sessions), sid, env, now).db
      ensures ws != null ==>
                ws.State() == PublishAll(old(ws.State()), SummaryAt(old(store.sessions), sid, env, now).sent, env.deliver)
    {
      ghost var db0 := store.sessions;
      var transcript := store.GetTranscript(sid);
      if transcript == "" || WordCount(transcript) < MinSummaryWords {
        assert SummaryAt(db0, sid, env, now) == Step(db0, []) by {
          assert sid in db0 ==> db0[sid := db0[sid]] == db0;
        }
        return;
      }
      assert sid in db0 && transcript == db0[sid].transcript;
      var summary := Summarize(transcript, SummarySentenceCount, env.lexRank);
      if summary != "" {
        store.UpdateSummary(sid, summary, now);
        assert SummaryAt(db0, sid, env, now) == Step(WithSummary(db0, sid, summary, now), [SummaryUpdate(sid, summary)]);
        BroadcastSummary(sid, summary, env);
      } else {
        assert SummaryAt(db0, sid, env, now) == Step(db0, []) by {
          assert db0[sid := db0[sid]] == db0;
        }
      }
    }

    /** Lines 63-74 of `process_chunk`: append a non-empty text, broadcast the
        update, and summarize if the trigger says so. */
    method RecordText(sid: string, text: string, env: Env, now: int)
      modifies store, ws
      ensures store.sessions == RecordedAt(old(store.sessions), sid, text, env, now).db
      ensures ws != null ==>
                ws.State() == PublishAll(old(ws.State()), RecordedAt(old(store.sessions), sid, text, env, now).sent, env.deliver)
    {
      ghost var w0 := if ws != null then ws.State() else Wire([], []);
      store.UpdateTranscript(sid, text, true);
      ghost var db1 := store.sessions;
      BroadcastTranscriptUpdate(sid, text, env);
      var due := store.ShouldGenerateSummary(sid, SummaryWordThreshold, SummaryTimeInterval, now);
      if due {
        GenerateAndBroadcastSummary(sid, env, now);
        if ws != null {
          PublishAllAppend(w0, [TranscriptUpdate(sid, text, TranscriptOf(db1, sid))],
                           SummaryAt(db1, sid, env, now).sent, env.deliver);
        }
      }
    }

    /** `process_chunk(sid, seq, chunk_path)`, including the drain it starts. */
    method ProcessChunk(sid: string, seqNum: int, path: string, env: Env, now: int)
      modifies store, ws
      ensures store.sessions == Admit(old(store.sessions), sid, seqNum, path, env, now).db
      ensures ws != null ==>
                ws.State() == PublishAll(old(ws.State()), Admit(old(store.sessions), sid, seqNum, path, env, now).sent, env.deliver)
      decreases BufferSize(store.sessions, sid), 1
    {
      AdmitInSteps(store.sessions, sid, seqNum, path, env, now);
      var expected := store.GetExpectedSeq(sid);
      if seqNum < expected {
        return;
      }
      if seqNum > expected {
        store.BufferFutureChunk(sid, seqNum, path);
        return;
      }
      var wav := ConvertToWav(sid, seqNum, path, env);
      if wav.None? {
        return;
      }
      ghost var w0 := if ws != null then ws.State() else Wire([], []);
      ghost var a := AdvancedAt(store.sessions, sid, seqNum, env, now);
      AdvanceKeepsBuffer(store.sessions, sid, seqNum, env, now);
      var text := env.transcribe(sid, wav.value);
      if Truthy(text) {
        RecordText(sid, text.value, env, now);
      }
      store.IncrementExpectedSeq(sid);
      ProcessBufferedChunks(sid, env, now);
      if ws != null {
        PublishAllAppend(w0, a.sent, DrainAt(a.db, sid, env, now).sent, env.deliver);
      }
    }

    /** `_process_buffered_chunks(sid)`: while the chunk at `expected_seq` is
        buffered, take it out of the buffer and process it. */
    method ProcessBufferedChunks(sid: string, env: Env, now: int)
      modifies store, ws
      ensures store.sessions == DrainAt(old(store.sessions), sid, env, now).db
      ensures ws != null ==>
                ws.State() == PublishAll(old(ws.State()), DrainAt(old(store.sessions), sid, env, now).sent, env.deliver)
      decreases BufferSize(store.sessions, sid), 0
    {
      ghost var goal := DrainAt(store.sessions, sid, env, now);
      while true
        invariant DrainAt(store.sessions, sid, env, now).db == goal.db
        invariant ws != null ==>
                    (PublishAll(ws.State(), DrainAt(store.sessions, sid, env, now).sent, env.deliver)
                     == PublishAll(old(ws.State()), goal.sent, env.deliver))
        invariant BufferSize(store.sessions, sid) <= old(BufferSize(store.sessions, sid))
        decreases BufferSize(store.sessions, sid)
      {
        DrainPassAt(store.sessions, sid, env, now);
        var e := store.GetExpectedSeq(sid);
        var chunk := store.GetBufferedChunk(sid, e);
        if chunk.None? {
          break;
        }
        store.RemoveBufferedChunk(sid, e);
        ProcessChunk(sid, e, chunk.value, env, now);
      }
    }

    /** Lines 189-191 of `finalize_session`: append the recognizer's final text. */
    method FlushRecognizer(sid: string, env: Env)
      modifies store
      ensures store.sessions == FlushedAt(old(store.sessions), sid, env)
    {
      var finalText := env.flush(sid);
      if Truthy(finalText) {
        store.UpdateTranscript(sid, finalText.value, true);
      }
    }

    /** Lines 194-200 of `finalize_session`: summarize a transcript of at least
        10 words, store the summary and broadcast it. */
    method ForceSummary(sid: string, env: Env, now: int)
      modifies store, ws
      ensures store.sessions == ForcedAt(old(store.sessions), sid, env, now).db
      ensures ws != null ==>
                ws.State() == PublishAll(old(ws.State()), ForcedAt(old(store.sessions), sid, env, now).sent, env.deliver)
    {
      var transcript := store.GetTranscript(sid);
      if transcript != "" && WordCount(transcript) >= MinFinalWords {
        var summary := Summarize(transcript, SummarySentenceCount, env.lexRank);
        store.UpdateSummary(sid, summary, now);
        BroadcastSummary(sid, summary, env);
      }
    }

    /** `finalize_session`. */
    method FinalizeSession(sid: string, env: Env, now: int)
      modifies store, ws
      ensures store.sessions == Finalize(old(store.sessions), sid, env, now).db
      ensures ws != null ==>
                ws.State() == PublishAll(old(ws.State()), Finalize(old(store.sessions), sid, env, now).sent, env.deliver)
    {
      FinalizeInSteps(store.sessions, sid, env, now);
      ghost var w0 := if ws != null then ws.State() else Wire([], []);
      ghost var forced := ForcedAt(FlushedAt(store.sessions, sid, env), sid, env, now);
      FlushRecognizer(sid, env);
      ForceSummary(sid, env, now);
      store.MarkSessionEnded(sid, now);
      var t := store.GetTranscript(sid);
      var summary := store.GetSummary(sid);
      Send(SessionEnded(sid, t, summary), env);
      if ws != null {
        PublishAllAppend(w0, forced.sent, [SessionEnded(sid, t, summary)], env.deliver);
      }
    }
  }
}
