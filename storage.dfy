/** app/storage.py: the in-memory session table. Each session is a record
    (`Session`); the table is a map from session id to record (`Db`). The
    operations on the table are given twice: as functions on `Db` values, which
    the pipeline's specification in module Workers is written with, and as the
    methods of class `SessionStorage`, which update its `sessions` field in place
    and are proved to agree with those functions. Files written beside the table
    (metadata.json, transcript.txt, summary.txt, the chunk files) are not part of
    this model; the chunk file names are. */
module Storage {
  import opened Wrappers
  import opened Text

  /** The sessions directory, relative to the application's base directory. */
  const SessionsDir: string := "sessions"

  /** Words a transcript needs before the time arm of the summary trigger may fire. */
  const TimeArmWordFloor: int := 50

  datatype Status = Active | Ended

  /** One session's metadata dictionary. Timestamps are integer seconds. */
  datatype Session = Session(
    id: string,
    createdAt: int,
    status: Status,
    chunksReceived: nat,
    transcript: string,
    summary: string,
    expectedSeq: int,
    buffered: map<int, string>,
    lastSummaryTime: int,
    wordCount: nat,
    endedAt: Option<int>)

  type Db = map<string, Session>

  /** The record `create_session` stores. */
  function NewSession(id: string, now: int): Session {
    Session(id, now, Active, 0, "", "", 0, map[], now, 0, None)
  }

  /** `word_count` agrees with the transcript. */
  predicate Consistent(s: Session) {
    s.wordCount == WordCount(s.transcript)
  }

  /** Every buffered chunk is ahead of `expected_seq` and has a path. */
  predicate Settled(s: Session) {
    forall k :: k in s.buffered ==> k > s.expectedSeq && s.buffered[k] != ""
  }

  /** Only the session `sid` may differ between `db` and `r`; no session appears or disappears. */
  predicate Untouched(db: Db, r: Db, sid: string) {
    r.Keys == db.Keys && forall o :: o in db && o != sid ==> r[o] == db[o]
  }

  lemma NewSessionSound(id: string, now: int)
    ensures Consistent(NewSession(id, now)) && Settled(NewSession(id, now))
  {
    assert SplitOn("", IsSpace) == [""];
  }

  // ---------------------------------------------------------------------------
  // File names
  // ---------------------------------------------------------------------------

  /** `f"chunk_{seq:05d}{extension}"`. */
  function ChunkName(seqNum: int, extension: string): string {
    "chunk_" + Format05d(seqNum) + extension
  }

  function SessionDir(sid: string): string {
    SessionsDir + "/" + sid
  }

  /** Where `save_chunk` writes chunk `seqNum`. */
  function ChunkPath(sid: string, seqNum: int, extension: string): string {
    SessionDir(sid) + "/chunks/" + ChunkName(seqNum, extension)
  }

  /** `get_converted_chunk_path`: where the converted WAV of chunk `seqNum` goes. */
  function ConvertedPath(sid: string, seqNum: int): string {
    SessionDir(sid) + "/converted/" + ChunkName(seqNum, ".wav")
  }

  /** Two chunks of one session never share a file name. */
  lemma ChunkNameInjective(a: int, b: int, extension: string)
    requires ChunkName(a, extension) == ChunkName(b, extension)
    ensures a == b
  {
    var na, nb := ChunkName(a, extension), ChunkName(b, extension);
    assert na[6..|na| - |extension|] == Format05d(a);
    assert nb[6..|nb| - |extension|] == Format05d(b);
    Format05dRoundTrip(a);
    Format05dRoundTrip(b);
  }

  /** A dot followed by at least one character, none of them a dot or a slash. */
  predicate PlainExtension(extension: string) {
    && |extension| >= 2 && extension[0] == '.'
    && forall j :: 0 < j < |extension| ==> extension[j] != '.' && extension[j] != '/'
  }

  /** The saved chunk keeps the uploaded extension as its suffix, whatever the
      session id and sequence number. */
  lemma ChunkPathKeepsExtension(sid: string, seqNum: int, extension: string)
    requires PlainExtension(extension)
    ensures Suffix(ChunkPath(sid, seqNum, extension)) == extension
  {
    var stem := "chunk_" + Format05d(seqNum);
    var name := ChunkName(seqNum, extension);
    StemIsPlain(seqNum);
    NameAfterStem(stem, extension);
    var dir := SessionDir(sid) + "/chunks/";
    assert dir[|dir| - 1] == '/';
    BaseNameAfter(dir, name);
    assert name[|stem|..] == extension;
  }

  /** `chunk_` and the formatted number hold no dot and no slash. */
  lemma StemIsPlain(seqNum: int)
    ensures var stem := "chunk_" + Format05d(seqNum);
            forall j :: 0 <= j < |stem| ==> stem[j] != '.' && stem[j] != '/'
  {
    var digits := Format05d(seqNum);
    var stem := "chunk_" + digits;
    forall j | 0 <= j < |stem|
      ensures stem[j] != '.' && stem[j] != '/'
    {
      if j >= 6 {
        assert stem[j] == digits[j - 6];
      }
    }
  }

  /** A plain extension after a plain stem: no slash anywhere, and the last dot
      is the extension's. */
  lemma NameAfterStem(stem: string, extension: string)
    requires forall j :: 0 <= j < |stem| ==> stem[j] != '.' && stem[j] != '/'
    requires PlainExtension(extension)
    ensures forall j :: 0 <= j < |stem + extension| ==> (stem + extension)[j] != '/'
    ensures RFind(stem + extension, '.') == |stem|
  {
    var name := stem + extension;
    forall j | 0 <= j < |name|
      ensures name[j] != '/'
    {
      if j >= |stem| {
        assert name[j] == extension[j - |stem|];
      }
    }
    RFindAt(stem, extension, '.');
  }


  // ---------------------------------------------------------------------------
  // Updates and queries of one session record
  // ---------------------------------------------------------------------------

  /** `expected_seq += 1`. */
  function Bump(s: Session): Session {
    s.(expectedSeq := s.expectedSeq + 1)
  }

  /** `buffered_chunks[seq] = path`. */
  function Buffer(s: Session, seqNum: int, path: string): Session {
    s.(buffered := s.buffered[seqNum := path])
  }

  /** `del buffered_chunks[seq]`. */
  function Unbuffer(s: Session, seqNum: int): Session {
    s.(buffered := s.buffered - {seqNum})
  }

  /** Taking a buffered chunk out makes the buffer smaller. */
  lemma UnbufferShrinks(s: Session, seqNum: int)
    requires seqNum in s.buffered
    ensures |Unbuffer(s, seqNum).buffered| < |s.buffered|
  {
    assert Unbuffer(s, seqNum).buffered.Keys == s.buffered.Keys - {seqNum};
  }

  /** The transcript assignment of `update_transcript` and the recount after it. */
  function Retranscribe(s: Session, text: string, append: bool): (r: Session)
    ensures Consistent(r)
    ensures append ==> Words(r.transcript) == Words(s.transcript) + Words(text)
    ensures append && Consistent(s) ==> r.wordCount == s.wordCount + WordCount(text)
  {
    var t := if append then s.transcript + " " + text else text;
    WordsAppend(s.transcript, text);
    s.(transcript := t, wordCount := WordCount(t))
  }

  /** Appending keeps the old transcript in front of the blank and the text. */
  lemma AppendedTranscript(s: Session, text: string)
    ensures Retranscribe(s, text, true).transcript == s.transcript + (" " + text)
  {
    Regroup(s.transcript, " ", text);
  }

  /** The assignments of `update_summary`. */
  function Resummarize(s: Session, summary: string, now: int): Session {
    s.(summary := summary, lastSummaryTime := now)
  }

  /** The assignments of `mark_session_ended`. */
  function End(s: Session, now: int): Session {
    s.(status := Status.Ended, endedAt := Some(now))
  }

  /** `get_buffered_chunk` on a known session: a missing or empty path is `None`. */
  function BufferedAt(s: Session, seqNum: int): Option<string> {
    if seqNum in s.buffered && s.buffered[seqNum] != "" then Some(s.buffered[seqNum]) else None
  }

  /** The decision inside `should_generate_summary`, on the word count and the
      seconds since the last summary. */
  predicate SummaryPolicy(wordCount: int, elapsed: int, wordThreshold: int, timeInterval: int) {
    wordCount >= wordThreshold || (elapsed >= timeInterval && wordCount > TimeArmWordFloor)
  }

  /** `should_generate_summary` on a known session at time `now`. */
  predicate Due(s: Session, wordThreshold: int, timeInterval: int, now: int) {
    SummaryPolicy(s.wordCount, now - s.lastSummaryTime, wordThreshold, timeInterval)
  }

  // ---------------------------------------------------------------------------
  // Queries on the table
  // ---------------------------------------------------------------------------

  /** `get_expected_seq`: 0 for an unknown session. */
  function Expected(db: Db, sid: string): int {
    if sid in db then db[sid].expectedSeq else 0
  }

  /** `get_buffered_chunk`: the buffered path, or `None` when there is none or it is empty. */
  function BufferedChunk(db: Db, sid: string, seqNum: int): (r: Option<string>)
    ensures r.Some? <==> sid in db && seqNum in db[sid].buffered && db[sid].buffered[seqNum] != ""
    ensures r.Some? ==> r.value == db[sid].buffered[seqNum]
  {
    if sid in db then BufferedAt(db[sid], seqNum) else None
  }

  /** The number of buffered chunks of a session (0 for an unknown one). */
  function BufferSize(db: Db, sid: string): nat {
    if sid in db then |db[sid].buffered| else 0
  }

  /** `get_transcript`: "" for an unknown session. */
  function TranscriptOf(db: Db, sid: string): string {
    if sid in db then db[sid].transcript else ""
  }

  /** `get_summary`: "" for an unknown session. */
  function SummaryOf(db: Db, sid: string): string {
    if sid in db then db[sid].summary else ""
  }

  /** `should_generate_summary(sid, word_threshold, time_interval)` at time `now`. */
  predicate SummaryDue(db: Db, sid: string, wordThreshold: int, timeInterval: int, now: int)
    ensures sid !in db ==> !SummaryDue(db, sid, wordThreshold, timeInterval, now)
    ensures sid in db && db[sid].wordCount >= wordThreshold ==> SummaryDue(db, sid, wordThreshold, timeInterval, now)
    ensures sid in db && db[sid].wordCount <= TimeArmWordFloor ==>
              (SummaryDue(db, sid, wordThreshold, timeInterval, now) <==> db[sid].wordCount >= wordThreshold)
    ensures sid in db && TimeArmWordFloor < db[sid].wordCount < wordThreshold ==>
              (SummaryDue(db, sid, wordThreshold, timeInterval, now) <==> now - db[sid].lastSummaryTime >= timeInterval)
  {
    sid in db && Due(db[sid], wordThreshold, timeInterval, now)
  }

  // ---------------------------------------------------------------------------
  // Updates of the table: the record's update for a known session, nothing otherwise
  // ---------------------------------------------------------------------------

  /** `increment_expected_seq`. */
  function Bumped(db: Db, sid: string): Db
  {
    if sid in db then db[sid := Bump(db[sid])] else db
  }

  /** `save_chunk`: a chunk uploaded to a known session is counted. */
  function Counted(db: Db, sid: string): Db
  {
    if sid in db then db[sid := db[sid].(chunksReceived := db[sid].chunksReceived + 1)] else db
  }

  /** `buffer_future_chunk`: the last chunk buffered under a sequence number wins. */
  function Buffered(db: Db, sid: string, seqNum: int, path: string): Db
  {
    if sid in db then db[sid := Buffer(db[sid], seqNum, path)] else db
  }

  /** `remove_buffered_chunk`: drops that one key, if present. */
  function Unbuffered(db: Db, sid: string, seqNum: int): Db
  {
    if sid in db && seqNum in db[sid].buffered then db[sid := Unbuffer(db[sid], seqNum)] else db
  }

  /** `update_transcript(sid, text, append)`: append `" " + text` or replace, then recount words. */
  function WithTranscript(db: Db, sid: string, text: string, append: bool): Db
  {
    if sid in db then db[sid := Retranscribe(db[sid], text, append)] else db
  }

  /** `update_summary`: replaces the summary and restarts the summary clock. */
  function WithSummary(db: Db, sid: string, summary: string, now: int): Db
  {
    if sid in db then db[sid := Resummarize(db[sid], summary, now)] else db
  }

  /** `mark_session_ended`. */
  function MarkedEnded(db: Db, sid: string, now: int): Db
  {
    if sid in db then db[sid := End(db[sid], now)] else db
  }

  // ---------------------------------------------------------------------------
  // What each update of the table promises
  // ---------------------------------------------------------------------------

  /** `increment_expected_seq` adds exactly one for a known session and does
      nothing otherwise; no other session and no other field changes. */
  lemma IncrementAddsOne(db: Db, sid: string)
    ensures var r := Bumped(db, sid);
            && Untouched(db, r, sid)
            && (sid !in db ==> r == db)
            && (sid in db ==> r[sid] == db[sid].(expectedSeq := db[sid].expectedSeq + 1))
            && Expected(r, sid) == Expected(db, sid) + (if sid in db then 1 else 0)
  {
  }

  /** `save_chunk` counts one more chunk for a known session and nothing else;
      an unknown session is left alone. */
  lemma CountedAddsOne(db: Db, sid: string)
    ensures var r := Counted(db, sid);
            && Untouched(db, r, sid)
            && (sid !in db ==> r == db)
            && (sid in db ==> r[sid] == db[sid].(chunksReceived := db[sid].chunksReceived + 1))
  {
  }

  /** `buffer_future_chunk` is last-write-wins on one key and leaves every other
      key, field and session as it was; nothing happens for an unknown session. */
  lemma BufferLastWriteWins(db: Db, sid: string, seqNum: int, path: string)
    ensures var r := Buffered(db, sid, seqNum, path);
            && Untouched(db, r, sid)
            && (sid !in db ==> r == db)
            && (sid in db ==>
                  && r[sid] == db[sid].(buffered := r[sid].buffered)
                  && r[sid].buffered.Keys == db[sid].buffered.Keys + {seqNum}
                  && r[sid].buffered[seqNum] == path
                  && forall k :: k in db[sid].buffered && k != seqNum ==> r[sid].buffered[k] == db[sid].buffered[k])
  {
  }

  /** `remove_buffered_chunk` deletes exactly that key, and is a no-op when the
      key or the session is absent. */
  lemma RemoveDropsOneKey(db: Db, sid: string, seqNum: int)
    ensures var r := Unbuffered(db, sid, seqNum);
            && Untouched(db, r, sid)
            && (sid !in db ==> r == db)
            && (sid in db ==>
                  && r[sid] == db[sid].(buffered := r[sid].buffered)
                  && r[sid].buffered.Keys == db[sid].buffered.Keys - {seqNum}
                  && forall k :: k in r[sid].buffered ==> r[sid].buffered[k] == db[sid].buffered[k])
            && (sid in db && seqNum !in db[sid].buffered ==> r == db)
  {
  }

  /** `update_transcript` appends `" " + text` or replaces the transcript, then
      recounts: the word count matches the new transcript, and an append adds
      exactly the words of `text`. Nothing happens for an unknown session. */
  lemma UpdateTranscriptRecounts(db: Db, sid: string, text: string, append: bool)
    ensures var r := WithTranscript(db, sid, text, append);
            && Untouched(db, r, sid)
            && (sid !in db ==> r == db)
            && (sid in db ==>
                  && r[sid] == db[sid].(transcript := r[sid].transcript, wordCount := r[sid].wordCount)
                  && Consistent(r[sid])
                  && (!append ==> r[sid].transcript == text)
                  && (append ==> r[sid].transcript == db[sid].transcript + " " + text)
                  && (append ==> Words(r[sid].transcript) == Words(db[sid].transcript) + Words(text))
                  && (append && Consistent(db[sid]) ==> r[sid].wordCount == db[sid].wordCount + WordCount(text)))
  {
  }

  /** `update_summary` replaces the summary and restarts the summary clock; the
      transcript, word count and sequencing state are untouched. */
  lemma UpdateSummaryReplaces(db: Db, sid: string, summary: string, now: int)
    ensures var r := WithSummary(db, sid, summary, now);
            && Untouched(db, r, sid)
            && (sid !in db ==> r == db)
            && (sid in db ==> r[sid] == db[sid].(summary := summary, lastSummaryTime := now))
            && SummaryOf(r, sid) == if sid in db then summary else ""
  {
  }

  /** `mark_session_ended` sets the status and the end time, nothing else. */
  lemma MarkEndedSetsStatus(db: Db, sid: string, now: int)
    ensures var r := MarkedEnded(db, sid, now);
            && Untouched(db, r, sid)
            && (sid !in db ==> r == db)
            && (sid in db ==> r[sid] == db[sid].(status := Status.Ended, endedAt := Some(now)))
  {
  }

  /** Writing a session's record twice keeps the second write. */
  lemma Overwrite(db: Db, sid: string, first: Session, second: Session)
    ensures db[sid := first][sid := second] == db[sid := second]
  {
  }

  /** The summary trigger is a level trigger: once the word threshold is reached it
      fires at every later time, and more words never turn it off. */
  lemma SummaryPolicyMonotone(wordCount: int, elapsed: int, moreWords: int, later: int, wordThreshold: int, timeInterval: int)
    requires SummaryPolicy(wordCount, elapsed, wordThreshold, timeInterval)
    requires moreWords >= wordCount && later >= elapsed
    ensures SummaryPolicy(moreWords, later, wordThreshold, timeInterval)
    ensures wordCount >= wordThreshold ==> forall t :: SummaryPolicy(moreWords, t, wordThreshold, timeInterval)
  {
  }

  // ---------------------------------------------------------------------------
  // The storage object
  // ---------------------------------------------------------------------------

  /** `SessionStorage`: its `sessions` dictionary is the field of the same name. */
  class SessionStorage {
    var sessions: Db

    constructor ()
      ensures sessions == map[]
    {
      sessions := map[];
    }

    /** `create_session`: a fresh record, replacing any session with the same id. */
    method CreateSession(sid: string, now: int) returns (dir: string)
      modifies this
      ensures sessions == old(sessions)[sid := NewSession(sid, now)]
      ensures Consistent(sessions[sid]) && Settled(sessions[sid])
      ensures dir == SessionDir(sid)
    {
      sessions := sessions[sid := NewSession(sid, now)];
      NewSessionSound(sid, now);
      dir := SessionDir(sid);
    }

    /** `save_chunk`: names the chunk file and counts the chunk for a known session. */
    method SaveChunk(sid: string, seqNum: int, extension: string) returns (path: string)
      modifies this
      ensures path == ChunkPath(sid, seqNum, extension)
      ensures sid !in old(sessions) ==> sessions == old(sessions)
      ensures sid in old(sessions) ==>
                sessions == old(sessions)[sid := old(sessions)[sid].(chunksReceived := old(sessions)[sid].chunksReceived + 1)]
      ensures sessions == Counted(old(sessions), sid)
    {
      path := ChunkPath(sid, seqNum, extension);
      if sid in sessions {
        sessions := sessions[sid := sessions[sid].(chunksReceived := sessions[sid].chunksReceived + 1)];
      }
    }

    method UpdateTranscript(sid: string, text: string, append: bool)
      modifies this
      ensures sessions == WithTranscript(old(sessions), sid, text, append)
    {
      if sid in sessions {
        var t := if append then sessions[sid].transcript + " " + text else text;
        sessions := sessions[sid := sessions[sid].(transcript := t, wordCount := WordCount(t))];
      }
    }

    method UpdateSummary(sid: string, summary: string, now: int)
      modifies this
      ensures sessions == WithSummary(old(sessions), sid, summary, now)
    {
      if sid in sessions {
        sessions := sessions[sid := sessions[sid].(summary := summary, lastSummaryTime := now)];
      }
    }

    method GetTranscript(sid: string) returns (t: string)
      ensures t == TranscriptOf(sessions, sid)
    {
      t := if sid in sessions then sessions[sid].transcript else "";
    }

    method GetSummary(sid: string) returns (s: string)
      ensures s == SummaryOf(sessions, sid)
    {
      s := if sid in sessions then sessions[sid].summary else "";
    }

    method ShouldGenerateSummary(sid: string, wordThreshold: int, timeInterval: int, now: int) returns (due: bool)
      ensures due == SummaryDue(sessions, sid, wordThreshold, timeInterval, now)
    {
      if sid !in sessions {
        return false;
      }
      var session := sessions[sid];
      if session.wordCount >= wordThreshold {
        return true;
      }
      var sinceLast := now - session.lastSummaryTime;
      due := sinceLast >= timeInterval && session.wordCount > TimeArmWordFloor;
    }

    method MarkSessionEnded(sid: string, now: int)
      modifies this
      ensures sessions == MarkedEnded(old(sessions), sid, now)
    {
      if sid in sessions {
        sessions := sessions[sid := sessions[sid].(status := Status.Ended, endedAt := Some(now))];
      }
    }

    /** `cleanup_session`: forgets the session. */
    method CleanupSession(sid: string)
      modifies this
      ensures sessions == old(sessions) - {sid}
    {
      if sid in sessions {
        sessions := sessions - {sid};
      }
    }

    method GetExpectedSeq(sid: string) returns (e: int)
      ensures e == Expected(sessions, sid)
    {
      e := if sid in sessions then sessions[sid].expectedSeq else 0;
    }

    method IncrementExpectedSeq(sid: string)
      modifies this
      ensures sessions == Bumped(old(sessions), sid)
    {
      if sid in sessions {
        sessions := sessions[sid := sessions[sid].(expectedSeq := sessions[sid].expectedSeq + 1)];
      }
    }

    method BufferFutureChunk(sid: string, seqNum: int, path: string)
      modifies this
      ensures sessions == Buffered(old(sessions), sid, seqNum, path)
    {
      if sid in sessions {
        sessions := sessions[sid := sessions[sid].(buffered := sessions[sid].buffered[seqNum := path])];
      }
    }

    method GetBufferedChunk(sid: string, seqNum: int) returns (chunk: Option<string>)
      ensures chunk == BufferedChunk(sessions, sid, seqNum)
    {
      if sid !in sessions {
        return None;
      }
      if seqNum in sessions[sid].buffered && sessions[sid].buffered[seqNum] != "" {
        return Some(sessions[sid].buffered[seqNum]);
      }
      return None;
    }

    method RemoveBufferedChunk(sid: string, seqNum: int)
      modifies this
      ensures sessions == Unbuffered(old(sessions), sid, seqNum)
    {
      if sid in sessions && seqNum in sessions[sid].buffered {
        sessions := sessions[sid := sessions[sid].(buffered := sessions[sid].buffered - {seqNum})];
      }
    }
  }
}
