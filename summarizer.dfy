/** app/summarizer.py: `TextSummarizer.summarize` with its length guard, the
    sentence-extracting fallback used when LexRank raises, and `quick_summary`.
    LexRank itself is an oracle: `lexRank(text, n)` is the joined summary it
    produces, or `None` when it raises. */
module Summarizer {
  import opened Wrappers
  import opened Text

  /** Stripped text shorter than this is not summarized. */
  const MinTextLength: int := 50

  /** `[s.strip() for s in parts if s.strip()]`. */
  function Clean(parts: seq<string>): (r: seq<string>)
    ensures |r| <= |parts|
    ensures forall i :: 0 <= i < |r| ==> r[i] != "" && Stripped(r[i])
  {
    if parts == [] then []
    else
      var p := Strip(parts[0]);
      (if p == "" then [] else [p]) + Clean(parts[1..])
  }

  lemma {:induction false} CleanConcat(a: seq<string>, b: seq<string>)
    ensures Clean(a + b) == Clean(a) + Clean(b)
  {
    if a == [] {
      assert a + b == b;
    } else {
      var p := Strip(a[0]);
      var head: seq<string> := if p == "" then [] else [p];
      AppendTail(a, b);
      CleanConcat(a[1..], b);
      Regroup(head, Clean(a[1..]), Clean(b));
    }
  }

  /** A sentence as the fallback keeps it: non-empty, stripped, without a dot. */
  predicate IsSentence(s: string) {
    s != "" && Stripped(s) && forall j :: 0 <= j < |s| ==> s[j] != '.'
  }

  /** The non-empty, stripped pieces of `text` between dots, in order. */
  function Sentences(text: string): (r: seq<string>)
    ensures forall i :: 0 <= i < |r| ==> IsSentence(r[i])
  {
    var parts := SplitOn(text, IsDot);
    SentencesAreDotFree(parts);
    Clean(parts)
  }

  lemma {:induction false} SentencesAreDotFree(parts: seq<string>)
    requires forall i, j :: 0 <= i < |parts| && 0 <= j < |parts[i]| ==> !IsDot(parts[i][j])
    ensures forall i :: 0 <= i < |Clean(parts)| ==> IsSentence(Clean(parts)[i])
  {
    if parts != [] {
      var p := Strip(parts[0]);
      var head: seq<string> := if p == "" then [] else [p];
      DotFreeTail(parts);
      SentencesAreDotFree(parts[1..]);
      StripKeepsDotFree(parts[0]);
      assert forall i :: 0 <= i < |head| ==> IsSentence(head[i]);
      SentencesConcat(head, Clean(parts[1..]));
    }
  }

  lemma SentencesConcat(a: seq<string>, b: seq<string>)
    requires forall i :: 0 <= i < |a| ==> IsSentence(a[i])
    requires forall i :: 0 <= i < |b| ==> IsSentence(b[i])
    ensures forall i :: 0 <= i < |a + b| ==> IsSentence((a + b)[i])
  {
    forall i | 0 <= i < |a + b|
      ensures IsSentence((a + b)[i])
    {
      if i >= |a| {
        assert (a + b)[i] == b[i - |a|];
      }
    }
  }

  lemma DotFreeTail(parts: seq<string>)
    requires parts != []
    requires forall i, j :: 0 <= i < |parts| && 0 <= j < |parts[i]| ==> !IsDot(parts[i][j])
    ensures forall i, j :: 0 <= i < |parts[1..]| && 0 <= j < |parts[1..][i]| ==> !IsDot(parts[1..][i][j])
    ensures forall j :: 0 <= j < |parts[0]| ==> !IsDot(parts[0][j])
  {
    forall i, j | 0 <= i < |parts[1..]| && 0 <= j < |parts[1..][i]|
      ensures !IsDot(parts[1..][i][j])
    {
      assert parts[1..][i] == parts[i + 1];
    }
  }

  lemma StripKeepsDotFree(s: string)
    requires forall j :: 0 <= j < |s| ==> !IsDot(s[j])
    ensures forall j :: 0 <= j < |Strip(s)| ==> Strip(s)[j] != '.'
  {
    var p := Strip(s);
    forall j | 0 <= j < |p| ensures p[j] != '.' {
      assert p[j] in s;
      var k :| 0 <= k < |s| && s[k] == p[j];
      assert !IsDot(s[k]);
    }
  }

  /** Python's `s[:n]`: a negative `n` counts from the end. */
  function PyPrefix<T>(s: seq<T>, n: int): (r: seq<T>)
    ensures n >= 0 ==> |r| == if n < |s| then n else |s|
    ensures n < 0 ==> |r| == if |s| + n > 0 then |s| + n else 0
    ensures r <= s
  {
    if n >= 0 then (if n < |s| then s[..n] else s)
    else (if |s| + n > 0 then s[..|s| + n] else [])
  }

  /** `'. '.join(sentences[:sentence_count]) + '.'` over the sentences of `text`. */
  function FallbackSummary(text: string, sentenceCount: int): (r: string)
    ensures r != [] && r[|r| - 1] == '.'
    ensures Sentences(text) == [] ==> r == "."
  {
    var kept := PyPrefix(Sentences(text), sentenceCount);
    var joined := Join(kept, ". ");
    assert |Sentences(text)| == 0 ==> |kept| == 0;
    joined + "."
  }

  /** A dot splits the sentences of the two sides. */
  lemma SentencesAround(a: string, b: string)
    ensures Sentences(a + ['.'] + b) == Sentences(a) + Sentences(b)
  {
    SplitOnAround(a, '.', b, IsDot);
    CleanConcat(SplitOn(a, IsDot), SplitOn(b, IsDot));
  }

  /** Text without a dot is one sentence once stripped, or none if blank. */
  lemma SentencesOfOne(w: string, p: string)
    requires Blank(w)
    requires p == "" || IsSentence(p)
    ensures Sentences(w + p) == if p == "" then [] else [p]
  {
    assert forall i :: 0 <= i < |w + p| ==> (w + p)[i] != '.';
    SplitOnUndelimited(w + p, IsDot);
    if p == "" {
      assert w + p == w;
      StripOfSpaces(w);
    } else {
      StripAfterSpace(w, p);
    }
    assert Clean([w + p]) == (if Strip(w + p) == "" then [] else [Strip(w + p)]) + Clean([]);
  }

  /** Whitespace only, such as the blank after each joining dot. */
  predicate Blank(w: string) {
    forall i :: 0 <= i < |w| ==> IsSpace(w[i])
  }

  /** Re-reading joined sentences gives them back: the fallback's output splits
      into exactly the sentences it kept. */
  lemma {:induction false} SentencesOfJoined(w: string, ps: seq<string>)
    requires Blank(w)
    requires forall i :: 0 <= i < |ps| ==> IsSentence(ps[i])
    ensures Sentences(w + Join(ps, ". ") + ".") == ps
    decreases |ps|
  {
    if ps == [] {
      assert w + Join(ps, ". ") + "." == w + ['.'];
      SentencesOfDotOnly(w);
    } else if |ps| == 1 {
      SentencesOfLast(w, ps[0]);
    } else {
      var p := ps[0];
      var rest := " " + Join(ps[1..], ". ") + ".";
      assert w + Join(ps, ". ") + "." == (w + p) + ['.'] + rest by {
        assert Join(ps, ". ") == p + ". " + Join(ps[1..], ". ");
      }
      assert forall i :: 0 <= i < |ps[1..]| ==> IsSentence(ps[1..][i]);
      SentencesOfJoined(" ", ps[1..]);
      SentencesOfOne(w, p);
      SentencesAround(w + p, rest);
      HeadTail(ps);
    }
  }

  lemma SentencesOfNothing(e: string)
    requires e == []
    ensures Sentences(e) == []
  {
    assert SplitOn(e, IsDot) == [e];
  }

  lemma SentencesOfDotOnly(w: string)
    requires Blank(w)
    ensures Sentences(w + ['.']) == []
  {
    SentencesAround(w, "");
    NothingAfter(w + ['.']);
    SentencesOfOne(w, "");
    NothingAfter(w);
    SentencesOfNothing("");
  }

  lemma SentencesOfLast(w: string, p: string)
    requires Blank(w)
    requires IsSentence(p)
    ensures Sentences(w + Join([p], ". ") + ".") == [p]
  {
    var whole := w + p + ['.'];
    assert Sentences(whole) == [p] by {
      SentencesAround(w + p, "");
      NothingAfter(whole);
      SentencesOfOne(w, p);
      SentencesOfNothing("");
    }
    assert Join([p], ". ") == p;
  }

  /** The fallback keeps the leading sentences of the text, at most `sentenceCount`
      of them, in their original order. */
  lemma FallbackKeepsLeadingSentences(text: string, sentenceCount: int)
    ensures Sentences(FallbackSummary(text, sentenceCount)) == PyPrefix(Sentences(text), sentenceCount)
    ensures sentenceCount >= 0 ==> |Sentences(FallbackSummary(text, sentenceCount))| <= sentenceCount
  {
    var all := Sentences(text);
    var kept := PyPrefix(all, sentenceCount);
    forall i | 0 <= i < |kept|
      ensures IsSentence(kept[i])
    {
      assert kept[i] == all[i];
    }
    SentencesOfJoined("", kept);
    NothingBefore(Join(kept, ". "));
  }

  /** Summarizing a fallback summary again with the same non-negative count changes nothing. */
  lemma FallbackIdempotent(text: string, sentenceCount: int)
    requires sentenceCount >= 0
    ensures FallbackSummary(FallbackSummary(text, sentenceCount), sentenceCount)
         == FallbackSummary(text, sentenceCount)
  {
    FallbackKeepsLeadingSentences(text, sentenceCount);
    var kept := PyPrefix(Sentences(text), sentenceCount);
    assert PyPrefix(kept, sentenceCount) == kept;
  }

  /** `TextSummarizer.summarize(text, sentence_count)`. */
  function Summarize(text: string, sentenceCount: int, lexRank: (string, int) -> Option<string>): string {
    if text == "" || |Strip(text)| < MinTextLength then ""
    else match lexRank(text, sentenceCount)
      case Some(summary) => summary
      case None => FallbackSummary(text, sentenceCount)
  }

  /** Text that is empty or shorter than 50 characters once stripped gets an empty
      summary; otherwise LexRank's summary, or, when LexRank raises, the leading
      sentences of the text, which is never empty. */
  lemma SummarizeCases(text: string, sentenceCount: int, lexRank: (string, int) -> Option<string>)
    ensures var r := Summarize(text, sentenceCount, lexRank);
            && (text == "" || |Strip(text)| < MinTextLength ==> r == "")
            && (text != "" && |Strip(text)| >= MinTextLength && lexRank(text, sentenceCount).Some? ==>
                  r == lexRank(text, sentenceCount).value)
            && (text != "" && |Strip(text)| >= MinTextLength && lexRank(text, sentenceCount).None? ==>
                  Sentences(r) == PyPrefix(Sentences(text), sentenceCount) && r != "")
  {
    if text != "" && |Strip(text)| >= MinTextLength && lexRank(text, sentenceCount).None? {
      FallbackKeepsLeadingSentences(text, sentenceCount);
    }
  }

  /** `TextSummarizer.quick_summary`: a one-sentence summary. */
  function QuickSummary(text: string, lexRank: (string, int) -> Option<string>): string {
    Summarize(text, 1, lexRank)
  }

  /** The quick summary is empty for short text and, when LexRank raises, is at
      most the first sentence of the text. */
  lemma QuickSummaryOneSentence(text: string, lexRank: (string, int) -> Option<string>)
    ensures text == "" || |Strip(text)| < MinTextLength ==> QuickSummary(text, lexRank) == ""
    ensures lexRank(text, 1).None? ==> |Sentences(QuickSummary(text, lexRank))| <= 1
  {
    SummarizeCases(text, 1, lexRank);
    FallbackKeepsLeadingSentences(text, 1);
  }
}
