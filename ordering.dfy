/** The ordering guarantee of `ChunkProcessor.process_chunk` over a whole
    recording: chunks may arrive in any order and any number of times, yet the
    session counts exactly the chunks `0, 1, 2, ...` up to the first one still
    missing, appends their texts in sequence order, and keeps the ones that
    arrived early in its buffer. */
module Ordering {
  import opened Text
  import opened Storage
  import opened Workers

  /** One call `process_chunk(sid, seqNum, path)`, made at time `at`. */
  datatype Arrival = Arrival(seqNum: int, path: string, at: int)

  /** The session after the chunks of `arrivals` were handled one after another. */
  function Replay(s: Session, sid: string, arrivals: seq<Arrival>, env: Env): Session
    decreases |arrivals|
  {
    if arrivals == [] then s
    else
      var x := arrivals[|arrivals| - 1];
      var r := Replay(s, sid, arrivals[..|arrivals| - 1], env);
      AdmitKnown(r, sid, x.seqNum, x.path, env, x.at).session
  }

  /** The sequence numbers that have arrived. */
  function Arrived(arrivals: seq<Arrival>): set<int> {
    set i | 0 <= i < |arrivals| :: arrivals[i].seqNum
  }

  /** Every uploaded chunk was saved under a path and converts. */
  predicate Convertible(sid: string, arrivals: seq<Arrival>, env: Env) {
    forall i :: 0 <= i < |arrivals| ==> arrivals[i].path != "" && env.convert(sid, arrivals[i].seqNum, arrivals[i].path)
  }

  /** The state of a session that started fresh from transcript `t0` and has seen
      the sequence numbers `got`: `expected_seq` is the least non-negative number
      not in `got`, the transcript holds the texts of every chunk before it in
      order, and the buffer holds exactly the chunks that arrived ahead of it,
      each still convertible. */
  ghost predicate Reassembled(t0: string, r: Session, sid: string, env: Env, got: set<int>) {
    && r.expectedSeq >= 0
    && (forall j :: 0 <= j < r.expectedSeq ==> j in got)
    && r.expectedSeq !in got
    && (forall j :: j in r.buffered <==> j in got && j > r.expectedSeq)
    && (forall j :: j in r.buffered ==> r.buffered[j] != "" && env.convert(sid, j, r.buffered[j]))
    && r.transcript == t0 + Spoken(sid, env, 0, r.expectedSeq)
  }

  /** Texts of consecutive runs of chunks join up. */
  lemma {:induction false} SpokenSplit(sid: string, env: Env, lo: int, mid: int, hi: int)
    requires lo <= mid <= hi
    ensures Spoken(sid, env, lo, mid) + Spoken(sid, env, mid, hi) == Spoken(sid, env, lo, hi)
    decreases hi - mid
  {
    if hi == mid {
      NothingAfter(Spoken(sid, env, lo, mid));
    } else {
      SpokenSplit(sid, env, lo, mid, hi - 1);
      AppendInTurn(Spoken(sid, env, lo, mid), Spoken(sid, env, mid, hi - 1), Heard(sid, hi - 1, env),
                   Spoken(sid, env, lo, hi - 1), Spoken(sid, env, lo, hi));
    }
  }

  /** Handling one more convertible chunk keeps the session reassembled. */
  lemma ArrivalKeepsReassembled(t0: string, r: Session, sid: string, env: Env, got: set<int>, x: Arrival)
    requires Reassembled(t0, r, sid, env, got)
    requires x.path != "" && env.convert(sid, x.seqNum, x.path)
    ensures Reassembled(t0, AdmitKnown(r, sid, x.seqNum, x.path, env, x.at).session, sid, env, got + {x.seqNum})
  {
    var e := r.expectedSeq;
    if x.seqNum < e {
      StaleArrival(t0, r, sid, env, got, x);
    } else if x.seqNum > e {
      EarlyArrival(t0, r, sid, env, got, x);
    } else {
      ExpectedArrival(t0, r, sid, env, got, x);
    }
  }

  /** A chunk below `expected_seq` changes nothing. */
  lemma StaleArrival(t0: string, r: Session, sid: string, env: Env, got: set<int>, x: Arrival)
    requires Reassembled(t0, r, sid, env, got)
    requires x.seqNum < r.expectedSeq
    ensures Reassembled(t0, AdmitKnown(r, sid, x.seqNum, x.path, env, x.at).session, sid, env, got + {x.seqNum})
  {
    assert AdmitKnown(r, sid, x.seqNum, x.path, env, x.at).session == r;
  }

  /** A chunk above `expected_seq` only joins the buffer. */
  lemma EarlyArrival(t0: string, r: Session, sid: string, env: Env, got: set<int>, x: Arrival)
    requires Reassembled(t0, r, sid, env, got)
    requires x.seqNum > r.expectedSeq && x.path != "" && env.convert(sid, x.seqNum, x.path)
    ensures Reassembled(t0, AdmitKnown(r, sid, x.seqNum, x.path, env, x.at).session, sid, env, got + {x.seqNum})
  {
    assert AdmitKnown(r, sid, x.seqNum, x.path, env, x.at).session == r.(buffered := r.buffered[x.seqNum := x.path]);
  }

  /** The expected chunk: it and the run of buffered chunks after it are counted
      and their texts appended; the rest stays buffered. */
  lemma ExpectedArrival(t0: string, r: Session, sid: string, env: Env, got: set<int>, x: Arrival)
    requires Reassembled(t0, r, sid, env, got)
    requires x.seqNum == r.expectedSeq && x.path != "" && env.convert(sid, x.seqNum, x.path)
    ensures Reassembled(t0, AdmitKnown(r, sid, x.seqNum, x.path, env, x.at).session, sid, env, got + {x.seqNum})
  {
    var e := r.expectedSeq;
    var a := Advance(r, sid, e, env, x.at).session;
    var r2 := AdmitKnown(r, sid, e, x.path, env, x.at).session;
    assert r2 == Drain(a, sid, env, x.at).session;
    AdvanceTranscript(r, sid, e, env, x.at);
    DrainNeverBack(a, sid, env, x.at);
    DrainConsumes(a, sid, env, x.at);
    DrainBuffer(a, sid, env, x.at);
    AdmitAdvances(r, sid, e, x.path, env, x.at);
    DrainedReassembled(t0, r, a, r2, sid, env, got);
  }

  /** The set bookkeeping behind `ExpectedArrival`, stated on plain sessions: `a`
      is `r` with the expected chunk counted, and `r2` what the drain made of `a`. */
  lemma DrainedReassembled(t0: string, r: Session, a: Session, r2: Session, sid: string, env: Env, got: set<int>)
    requires Reassembled(t0, r, sid, env, got)
    requires a.buffered == r.buffered && a.expectedSeq == r.expectedSeq + 1
    requires r2.expectedSeq >= a.expectedSeq
    requires forall k :: a.expectedSeq <= k < r2.expectedSeq ==> k in a.buffered
    requires BufferedAt(a, r2.expectedSeq).Some? ==> !env.convert(sid, r2.expectedSeq, a.buffered[r2.expectedSeq])
    requires forall k :: k in r2.buffered <==>
               k in a.buffered && !(a.expectedSeq <= k < r2.expectedSeq)
               && !(k == r2.expectedSeq && a.buffered[k] != "")
    requires forall k :: k in r2.buffered ==> r2.buffered[k] == a.buffered[k]
    requires r2.transcript == r.transcript + Spoken(sid, env, r.expectedSeq, r2.expectedSeq)
    ensures Reassembled(t0, r2, sid, env, got + {r.expectedSeq})
  {
    var e := r.expectedSeq;
    var n := r2.expectedSeq;
    var got2 := got + {e};
    assert n in r.buffered ==> BufferedAt(a, n).Some?;
    assert n !in r.buffered;
    assert n in got ==> n in r.buffered;
    assert n !in got2;
    assert forall j :: 0 <= j < n ==> j in got2 by {
      forall j | 0 <= j < n
        ensures j in got2
      {
        if j > e {
          assert j in a.buffered;
        }
      }
    }
    forall j
      ensures j in r2.buffered <==> j in got2 && j > n
    {
      if j in got2 && j > n {
        assert j in r.buffered;
      }
    }
    forall j | j in r2.buffered
      ensures r2.buffered[j] != "" && env.convert(sid, j, r2.buffered[j])
    {
      assert j in r.buffered;
    }
    assert r2.transcript == t0 + Spoken(sid, env, 0, n) by {
      SpokenSplit(sid, env, 0, e, n);
      AppendInTurn(t0, Spoken(sid, env, 0, e), Spoken(sid, env, e, n), r.transcript, r2.transcript);
    }
  }

  /** Whatever the order of arrival, with duplicates, a fresh session ends up
      reassembled from the sequence numbers that arrived. */
  lemma {:induction false} ReplayReassembles(s: Session, sid: string, arrivals: seq<Arrival>, env: Env)
    requires s.expectedSeq == 0 && s.buffered == map[]
    requires Convertible(sid, arrivals, env)
    ensures Reassembled(s.transcript, Replay(s, sid, arrivals, env), sid, env, Arrived(arrivals))
    decreases |arrivals|
  {
    if arrivals == [] {
      NothingAfter(s.transcript);
    } else {
      var n := |arrivals| - 1;
      var front := arrivals[..n];
      ArrivedOneMore(arrivals);
      ConvertibleFront(sid, arrivals, env);
      ReplayReassembles(s, sid, front, env);
      ArrivalKeepsReassembled(s.transcript, Replay(s, sid, front, env), sid, env, Arrived(front), arrivals[n]);
    }
  }

  lemma ArrivedOneMore(arrivals: seq<Arrival>)
    requires arrivals != []
    ensures var n := |arrivals| - 1;
            Arrived(arrivals) == Arrived(arrivals[..n]) + {arrivals[n].seqNum}
  {
    var n := |arrivals| - 1;
    var front := arrivals[..n];
    forall k | k in Arrived(arrivals)
      ensures k in Arrived(front) + {arrivals[n].seqNum}
    {
      var i :| 0 <= i < |arrivals| && arrivals[i].seqNum == k;
      if i < n {
        assert front[i] == arrivals[i];
      }
    }
    forall k | k in Arrived(front)
      ensures k in Arrived(arrivals)
    {
      var i :| 0 <= i < |front| && front[i].seqNum == k;
      assert arrivals[i] == front[i];
    }
  }

  lemma ConvertibleFront(sid: string, arrivals: seq<Arrival>, env: Env)
    requires arrivals != [] && Convertible(sid, arrivals, env)
    ensures Convertible(sid, arrivals[..|arrivals| - 1], env)
    ensures arrivals[|arrivals| - 1].path != ""
    ensures env.convert(sid, arrivals[|arrivals| - 1].seqNum, arrivals[|arrivals| - 1].path)
  {
    var front := arrivals[..|arrivals| - 1];
    forall i | 0 <= i < |front|
      ensures front[i].path != "" && env.convert(sid, front[i].seqNum, front[i].path)
    {
      assert front[i] == arrivals[i];
    }
  }

  /** Once every chunk `0 .. n-1` has arrived, and nothing beyond, in any order and
      with any repeats, `expected_seq` is `n`, nothing is left buffered, and the
      transcript holds the texts of chunks `0 .. n-1` in sequence order. */
  lemma RecordingReassembled(s: Session, sid: string, arrivals: seq<Arrival>, env: Env, n: int)
    requires s.expectedSeq == 0 && s.buffered == map[] && n >= 0
    requires Convertible(sid, arrivals, env)
    requires forall k :: 0 <= k < n ==> k in Arrived(arrivals)
    requires forall k :: k in Arrived(arrivals) ==> k < n
    ensures var r := Replay(s, sid, arrivals, env);
            && r.expectedSeq == n
            && r.buffered == map[]
            && r.transcript == s.transcript + Spoken(sid, env, 0, n)
  {
    ReplayReassembles(s, sid, arrivals, env);
    var r := Replay(s, sid, arrivals, env);
    assert n !in Arrived(arrivals);
    assert r.expectedSeq < n ==> r.expectedSeq in Arrived(arrivals);
    assert forall j :: j !in r.buffered;
  }

  /** A chunk that has not arrived holds up every chunk after it: none of them is
      counted, all of them wait in the buffer. */
  lemma GapHoldsBack(s: Session, sid: string, arrivals: seq<Arrival>, env: Env, missing: int)
    requires s.expectedSeq == 0 && s.buffered == map[]
    requires Convertible(sid, arrivals, env)
    requires 0 <= missing && missing !in Arrived(arrivals)
    ensures var r := Replay(s, sid, arrivals, env);
            && r.expectedSeq <= missing
            && (forall k :: k in Arrived(arrivals) && k > missing ==> k in r.buffered)
  {
    ReplayReassembles(s, sid, arrivals, env);
  }
}
