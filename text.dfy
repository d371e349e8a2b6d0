/** The parts of Python's `str` that the core relies on: `isspace`, `split()`,
    `split('.')`, `strip()`, `join`, `rfind`, `lower`, `pathlib`'s suffix and
    the `{:05d}` integer format. */
module Text {

  /** Python's `str.isspace` for one character: the characters that `split()`
      with no argument and `strip()` treat as whitespace. */
  predicate IsSpace(c: char) {
    || c == ' '
    || ('\t' <= c <= '\r')
    || ('\U{1c}' <= c <= '\U{1f}')
    || c == '\U{85}' || c == '\U{a0}' || c == '\U{1680}'
    || ('\U{2000}' <= c <= '\U{200a}')
    || c == '\U{2028}' || c == '\U{2029}' || c == '\U{202f}' || c == '\U{205f}' || c == '\U{3000}'
  }

  predicate IsDot(c: char) {
    c == '.'
  }

  // ---------------------------------------------------------------------------
  // Splitting and joining
  // ---------------------------------------------------------------------------

  /** The pieces of `s` between delimiter characters, kept even when empty:
      `s.split('.')` for `IsDot`. There is always at least one piece. */
  function SplitOn(s: string, delim: char -> bool): (r: seq<string>)
    ensures |r| >= 1
    ensures forall i, j :: 0 <= i < |r| && 0 <= j < |r[i]| ==> !delim(r[i][j])
  {
    if s == [] then [""]
    else
      var rest := SplitOn(s[1..], delim);
      if delim(s[0]) then [""] + rest
      else [[s[0]] + rest[0]] + rest[1..]
  }

  /** `sep.join(parts)`. */
  function Join(parts: seq<string>, sep: string): string {
    if parts == [] then ""
    else if |parts| == 1 then parts[0]
    else parts[0] + sep + Join(parts[1..], sep)
  }

  /** Splitting at one delimiter character splits the two sides independently. */
  lemma {:induction false} SplitOnAround(a: string, c: char, b: string, delim: char -> bool)
    requires delim(c)
    ensures SplitOn(a + [c] + b, delim) == SplitOn(a, delim) + SplitOn(b, delim)
  {
    if a == [] {
      assert a + [c] + b == [c] + b;
      assert ([c] + b)[1..] == b;
    } else {
      var tail := SplitOn(a[1..], delim);
      var right := SplitOn(b, delim);
      assert (a + [c] + b)[0] == a[0];
      assert (a + [c] + b)[1..] == a[1..] + [c] + b;
      SplitOnAround(a[1..], c, b, delim);
      AppendTail(tail, right);
      if delim(a[0]) {
        Regroup([""], tail, right);
      } else {
        Regroup([[a[0]] + tail[0]], tail[1..], right);
      }
    }
  }

  /** Text without a delimiter is one piece. */
  lemma {:induction false} SplitOnUndelimited(s: string, delim: char -> bool)
    requires forall i :: 0 <= i < |s| ==> !delim(s[i])
    ensures SplitOn(s, delim) == [s]
  {
    if s != [] {
      SplitOnUndelimited(s[1..], delim);
      assert [s[0]] + s[1..] == s;
    }
  }

  /** `'.'.join(s.split('.')) == s`: splitting on dots loses nothing. */
  lemma {:induction false} SplitDotJoin(s: string)
    ensures Join(SplitOn(s, IsDot), ".") == s
  {
    if s != [] {
      var rest := SplitOn(s[1..], IsDot);
      SplitDotJoin(s[1..]);
      if IsDot(s[0]) {
        assert Join([""] + rest, ".") == "" + "." + Join(rest, ".");
      } else if |rest| == 1 {
        assert Join(rest, ".") == rest[0];
      } else {
        assert Join(rest, ".") == rest[0] + "." + Join(rest[1..], ".");
        var parts := [[s[0]] + rest[0]] + rest[1..];
        assert parts[1..] == rest[1..];
        assert Join(parts, ".") == [s[0]] + rest[0] + "." + Join(rest[1..], ".");
      }
    }
  }

  /** The non-empty strings of `parts`, in order. */
  function NonEmpty(parts: seq<string>): (r: seq<string>)
    ensures |r| <= |parts|
    ensures forall i :: 0 <= i < |r| ==> r[i] != "" && r[i] in parts
  {
    if parts == [] then []
    else (if parts[0] == "" then [] else [parts[0]]) + NonEmpty(parts[1..])
  }

  lemma {:induction false} NonEmptyConcat(a: seq<string>, b: seq<string>)
    ensures NonEmpty(a + b) == NonEmpty(a) + NonEmpty(b)
  {
    if a == [] {
      EmptyFront(a, b);
    } else {
      AppendTail(a, b);
      NonEmptyConcat(a[1..], b);
      Regroup(if a[0] == "" then [] else [a[0]], NonEmpty(a[1..]), NonEmpty(b));
    }
  }

  // ---------------------------------------------------------------------------
  // Words: len(s.split())
  // ---------------------------------------------------------------------------

  /** `s.split()`: the maximal runs of non-whitespace characters. */
  function Words(s: string): (r: seq<string>)
    ensures forall i :: 0 <= i < |r| ==> r[i] != ""
  {
    NonEmpty(SplitOn(s, IsSpace))
  }

  /** `len(s.split())`. */
  function WordCount(s: string): nat {
    |Words(s)|
  }

  lemma NothingBefore(s: string)
    ensures "" + s == s
  {
  }

  lemma NothingAfter(s: string)
    ensures s + "" == s
  {
  }

  /** Concatenation regroups; generic, so that no element is compared. */
  lemma Regroup<T>(x: seq<T>, y: seq<T>, z: seq<T>)
    ensures x + (y + z) == (x + y) + z
  {
  }

  /** Nothing in front of a sequence leaves it as it was. */
  lemma EmptyFront<T>(x: seq<T>, y: seq<T>)
    requires x == []
    ensures x + y == y
  {
  }

  /** A non-empty sequence is its head followed by its tail. */
  lemma HeadTail<T>(x: seq<T>)
    requires x != []
    ensures x == [x[0]] + x[1..]
  {
  }

  /** The head and tail of a concatenation with a non-empty front. */
  lemma AppendTail<T>(x: seq<T>, y: seq<T>)
    requires x != []
    ensures (x + y)[0] == x[0] && (x + y)[1..] == x[1..] + y
  {
  }

  /** The empty string has no words. */
  lemma WordCountOfNothing(s: string)
    requires s == ""
    ensures Words(s) == [] && WordCount(s) == 0
  {
    assert SplitOn(s, IsSpace) == [""];
  }

  /** Appending `" " + text` appends exactly the words of `text`. */
  lemma WordsAppend(s: string, text: string)
    ensures Words(s + " " + text) == Words(s) + Words(text)
    ensures WordCount(s + " " + text) == WordCount(s) + WordCount(text)
  {
    assert s + " " + text == s + [' '] + text;
    SplitOnAround(s, ' ', text, IsSpace);
    NonEmptyConcat(SplitOn(s, IsSpace), SplitOn(text, IsSpace));
  }

  // ---------------------------------------------------------------------------
  // strip()
  // ---------------------------------------------------------------------------

  /** No whitespace at either end. */
  predicate Stripped(s: string) {
    s == [] || (!IsSpace(s[0]) && !IsSpace(s[|s| - 1]))
  }

  function LStrip(s: string): (r: string)
    ensures r == [] || !IsSpace(r[0])
    ensures |r| <= |s| && r == s[|s| - |r|..]
  {
    if s != [] && IsSpace(s[0]) then LStrip(s[1..]) else s
  }

  function RStrip(s: string): (r: string)
    ensures r == [] || !IsSpace(r[|r| - 1])
    ensures |r| <= |s| && r == s[..|r|]
  {
    if s != [] && IsSpace(s[|s| - 1]) then RStrip(s[..|s| - 1]) else s
  }

  /** `s.strip()`: a stripped slice of `s`. */
  function Strip(s: string): (r: string)
    ensures Stripped(r)
    ensures forall j :: 0 <= j < |r| ==> r[j] in s
  {
    var l := LStrip(s);
    var r := RStrip(l);
    assert Stripped(r) by {
      if r != [] {
        assert r[0] == l[0];
      }
    }
    var i := |s| - |l|;
    forall j | 0 <= j < |r|
      ensures r[j] == s[i + j]
    {
      assert r[j] == l[..|r|][j] == l[j];
      assert l[j] == s[i..][j] == s[i + j];
    }
    r
  }

  lemma StripOfStripped(s: string)
    requires Stripped(s)
    ensures Strip(s) == s
  {
  }

  /** Leading whitespace before stripped, non-empty text is removed by `strip()`. */
  lemma StripAfterSpace(w: string, s: string)
    requires forall i :: 0 <= i < |w| ==> IsSpace(w[i])
    requires s != [] && Stripped(s)
    ensures Strip(w + s) == s
  {
    LStripAfterSpace(w, s);
  }

  lemma {:induction false} LStripAfterSpace(w: string, s: string)
    requires forall i :: 0 <= i < |w| ==> IsSpace(w[i])
    requires s != [] && !IsSpace(s[0])
    ensures LStrip(w + s) == s
  {
    if w == [] {
      EmptyFront(w, s);
    } else {
      AppendTail(w, s);
      LStripAfterSpace(w[1..], s);
    }
  }

  lemma StripOfSpaces(w: string)
    requires forall i :: 0 <= i < |w| ==> IsSpace(w[i])
    ensures Strip(w) == ""
  {
    if w != [] {
      StripOfSpaces(w[1..]);
    }
  }

  // ---------------------------------------------------------------------------
  // rfind, pathlib name and suffix, lower()
  // ---------------------------------------------------------------------------

  /** `s.rfind(c)`: the last index of `c`, or -1. */
  function RFind(s: string, c: char): (i: int)
    ensures -1 <= i < |s|
    ensures i >= 0 ==> s[i] == c
    ensures forall j :: i < j < |s| ==> s[j] != c
  {
    if s == [] then -1
    else if s[|s| - 1] == c then |s| - 1
    else RFind(s[..|s| - 1], c)
  }

  /** The last occurrence of `c` is the one that starts `b` when `b` has no other. */
  lemma RFindAt(a: string, b: string, c: char)
    requires b != [] && b[0] == c
    requires forall j :: 0 < j < |b| ==> b[j] != c
    ensures RFind(a + b, c) == |a|
  {
    var s := a + b;
    var i := RFind(s, c);
    assert s[|a|] == c;
    assert forall j :: |a| < j < |s| ==> s[j] == b[j - |a|];
  }

  /** `PurePosixPath(p).name` for a path without a trailing slash: the text after the last `/`. */
  function BaseName(p: string): string {
    p[RFind(p, '/') + 1..]
  }

  /** The name of a path is what follows its last slash. */
  lemma BaseNameAfter(dir: string, name: string)
    requires dir != [] && dir[|dir| - 1] == '/'
    requires forall j :: 0 <= j < |name| ==> name[j] != '/'
    ensures BaseName(dir + name) == name
  {
    var front := dir[..|dir| - 1];
    var tail := "/" + name;
    assert dir + name == front + tail;
    assert forall j :: 0 < j < |tail| ==> tail[j] == name[j - 1];
    RFindAt(front, tail, '/');
    assert (dir + name)[|dir|..] == name;
  }

  /** `PurePosixPath(p).suffix`: from the last dot of the name, unless that dot
      starts or ends the name. */
  function Suffix(p: string): string {
    var name := BaseName(p);
    var i := RFind(name, '.');
    if 0 < i < |name| - 1 then name[i..] else ""
  }

  function LowerChar(c: char): char {
    if 'A' <= c <= 'Z' then (c as int - 'A' as int + 'a' as int) as char else c
  }

  /** `s.lower()` for ASCII letters. */
  function Lower(s: string): (r: string)
    ensures |r| == |s|
    ensures forall i :: 0 <= i < |s| ==> r[i] == LowerChar(s[i])
  {
    if s == [] then [] else [LowerChar(s[0])] + Lower(s[1..])
  }

  // ---------------------------------------------------------------------------
  // f"{n:05d}" and int()
  // ---------------------------------------------------------------------------

  predicate IsDigit(c: char) {
    '0' <= c <= '9'
  }

  function DigitChar(d: int): (c: char)
    requires 0 <= d < 10
    ensures IsDigit(c)
  {
    (d + '0' as int) as char
  }

  /** The decimal digits of `n`, most significant first, without leading zeros. */
  function Digits(n: nat): (r: string)
    ensures |r| >= 1
    ensures forall i :: 0 <= i < |r| ==> IsDigit(r[i])
  {
    if n < 10 then [DigitChar(n)] else Digits(n / 10) + [DigitChar(n % 10)]
  }

  function Zeros(k: nat): (r: string)
    ensures |r| == k && forall i :: 0 <= i < k ==> r[i] == '0'
  {
    if k == 0 then [] else Zeros(k - 1) + ['0']
  }

  function ZeroPad(s: string, width: nat): (r: string)
    ensures |r| >= width
  {
    if |s| >= width then s else Zeros(width - |s|) + s
  }

  /** `f"{n:05d}"`: at least five characters, zeros after the sign. */
  function Format05d(n: int): (r: string)
    ensures |r| >= 5
    ensures forall i :: 0 <= i < |r| ==> r[i] == '-' || IsDigit(r[i])
  {
    if n >= 0 then ZeroPad(Digits(n), 5) else "-" + ZeroPad(Digits(-n), 4)
  }

  /** The value of a string of decimal digits (`int(s)` on digits). */
  function DigitsValue(s: string): nat
    requires forall i :: 0 <= i < |s| ==> IsDigit(s[i])
  {
    if s == [] then 0
    else
      var d := s[|s| - 1] as int - '0' as int;
      assert IsDigit(s[|s| - 1]);
      DigitsValue(s[..|s| - 1]) * 10 + d
  }

  /** `int(s)` for an optional minus sign followed by digits. */
  function ParseInt(s: string): int
    requires s != [] && (s[0] == '-' || IsDigit(s[0]))
    requires forall i :: 0 < i < |s| ==> IsDigit(s[i])
  {
    if s[0] == '-' then -(DigitsValue(s[1..]) as int) else DigitsValue(s)
  }

  lemma {:induction false} DigitsValueOfDigits(n: nat)
    ensures DigitsValue(Digits(n)) == n
  {
    if n >= 10 {
      var d := Digits(n / 10) + [DigitChar(n % 10)];
      assert d[..|d| - 1] == Digits(n / 10);
      DigitsValueOfDigits(n / 10);
    }
  }

  lemma {:induction false} DigitsValueLeadingZeros(k: nat, s: string)
    requires forall i :: 0 <= i < |s| ==> IsDigit(s[i])
    ensures DigitsValue(Zeros(k) + s) == DigitsValue(s)
  {
    if s == [] {
      assert Zeros(k) + s == Zeros(k);
      ZerosValue(k);
    } else {
      var t := Zeros(k) + s;
      assert t[..|t| - 1] == Zeros(k) + s[..|s| - 1];
      DigitsValueLeadingZeros(k, s[..|s| - 1]);
    }
  }

  lemma {:induction false} ZerosValue(k: nat)
    ensures DigitsValue(Zeros(k)) == 0
  {
    if k > 0 {
      assert Zeros(k)[..k - 1] == Zeros(k - 1);
      ZerosValue(k - 1);
    }
  }

  /** `int(f"{n:05d}") == n`: the zero-padded form loses nothing, for negative `n` too. */
  lemma Format05dRoundTrip(n: int)
    ensures ParseInt(Format05d(n)) == n
  {
    var m: nat := if n >= 0 then n else -n;
    var w := if n >= 0 then 5 else 4;
    var p := ZeroPad(Digits(m), w);
    DigitsValueOfDigits(m);
    if |Digits(m)| < w {
      DigitsValueLeadingZeros(w - |Digits(m)|, Digits(m));
    }
    assert DigitsValue(p) == m;
    if n < 0 {
      assert Format05d(n)[1..] == p;
    }
  }
}
