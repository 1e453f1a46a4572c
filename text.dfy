/** String rules shared by the views and the backend: ASCII whitespace trimming
    (JavaScript `trim`, and Python `strip`, which also removes the separators
    U+001C..U+001F), the blank-input guard, ASCII lower-casing,
    splitting on a one-character separator (`split("\n")`) and joining with it. */
module Text {

  /** The ASCII whitespace characters that JavaScript's `trim` removes. */
  predicate IsSpace(c: char) {
    c == ' ' || c == '\t' || c == '\n' || c == '\r' || c == '\U{0B}' || c == '\U{0C}'
  }

  /** Every character of `s[lo..hi]` is whitespace. */
  predicate SpaceBetween(s: string, lo: int, hi: int)
    requires 0 <= lo <= hi <= |s|
  {
    forall k | lo <= k < hi :: IsSpace(s[k])
  }

  /** Drops leading whitespace. */
  function TrimStart(s: string): (r: string)
    ensures |r| <= |s| && r == s[|s| - |r|..]
    ensures r == [] || !IsSpace(r[0])
    ensures forall i | 0 <= i < |s| - |r| :: IsSpace(s[i])
  {
    if |s| > 0 && IsSpace(s[0]) then TrimStart(s[1..]) else s
  }

  /** Drops trailing whitespace. */
  function TrimEnd(s: string): (r: string)
    ensures |r| <= |s| && r == s[..|r|]
    ensures r == [] || !IsSpace(r[|r| - 1])
    ensures forall i | |r| <= i < |s| :: IsSpace(s[i])
  {
    if |s| > 0 && IsSpace(s[|s| - 1]) then TrimEnd(s[..|s| - 1]) else s
  }

  /** `s.trim()`: the text between the first and the last non-whitespace
      character; empty exactly when `s` is all whitespace. */
  function Trim(s: string): (r: string)
    ensures |r| <= |s|
    ensures exists i, j | 0 <= i <= j <= |s| ::
      && r == s[i..j]
      && SpaceBetween(s, 0, i)
      && SpaceBetween(s, j, |s|)
    ensures r == [] || (!IsSpace(r[0]) && !IsSpace(r[|r| - 1]))
    ensures r == [] <==> forall i | 0 <= i < |s| :: IsSpace(s[i])
    ensures forall c | c in r :: c in s
  {
    TrimBothEnds(s);
    TrimEdges(s);
    TrimIsRun(s);
    TrimEnd(TrimStart(s))
  }

  /** Trimming both ends keeps one contiguous run of the input, and
      everything dropped before and after it is whitespace. */
  lemma TrimIsRun(s: string)
    ensures var r := TrimEnd(TrimStart(s));
      exists i, j | 0 <= i <= j <= |s| ::
        && r == s[i..j]
        && SpaceBetween(s, 0, i)
        && SpaceBetween(s, j, |s|)
  {
    var t := TrimStart(s);
    TrimmedRun(s, t, TrimEnd(t));
  }

  /** The run argument on plain texts: `t` is `s` without leading
      whitespace and `r` is `t` without trailing whitespace. */
  lemma TrimmedRun(s: string, t: string, r: string)
    requires |t| <= |s| && t == s[|s| - |t|..]
    requires forall k | 0 <= k < |s| - |t| :: IsSpace(s[k])
    requires |r| <= |t| && r == t[..|r|]
    requires forall k | |r| <= k < |t| :: IsSpace(t[k])
    ensures exists i, j | 0 <= i <= j <= |s| ::
      && r == s[i..j]
      && SpaceBetween(s, 0, i)
      && SpaceBetween(s, j, |s|)
  {
    var i := |s| - |t|;
    RunOfSuffix(s, t, r);
    forall k | i + |r| <= k < |s|
      ensures IsSpace(s[k])
    {
      SuffixIndex(s, t, k);
    }
  }

  /** Trimming both ends leaves no whitespace at either edge. */
  lemma TrimEdges(s: string)
    ensures var r := TrimEnd(TrimStart(s));
      r == [] || (!IsSpace(r[0]) && !IsSpace(r[|r| - 1]))
  {
    var t := TrimStart(s);
    var r := TrimEnd(t);
    if r != [] {
      assert r[0] == t[0];
    }
  }

  /** Trimming both ends keeps only characters of the input, and leaves
      nothing exactly when the input is all whitespace. */
  lemma TrimBothEnds(s: string)
    ensures var r := TrimEnd(TrimStart(s));
      && (r == [] <==> forall i | 0 <= i < |s| :: IsSpace(s[i]))
      && (forall c | c in r :: c in s)
  {
    var t := TrimStart(s);
    var r := TrimEnd(t);
    var start := |s| - |t|;
    assert forall c | c in r :: c in t;
    if r != [] {
      assert r[0] == s[start];
    }
  }

  /** Position `k` of a text, read in one of its suffixes. */
  lemma SuffixIndex(s: string, t: string, k: int)
    requires |t| <= |s| && t == s[|s| - |t|..]
    requires |s| - |t| <= k < |s|
    ensures s[k] == t[k - (|s| - |t|)]
  {
  }

  /** A prefix of a suffix is a run of the whole. */
  lemma RunOfSuffix(s: string, t: string, r: string)
    requires |t| <= |s| && t == s[|s| - |t|..]
    requires |r| <= |t| && r == t[..|r|]
    ensures r == s[|s| - |t|..|s| - |t| + |r|]
  {
  }

  /** The guard `message.trim() === ""`: every character is whitespace.
      `BlankIsTrimEmpty` proves the two readings agree. */
  predicate IsBlank(s: string) {
    |s| == 0 || (IsSpace(s[0]) && IsBlank(s[1..]))
  }

  lemma {:induction false} BlankIffAllSpace(s: string)
    ensures IsBlank(s) <==> forall i | 0 <= i < |s| :: IsSpace(s[i])
  {
    if |s| > 0 {
      BlankIffAllSpace(s[1..]);
      assert forall i | 1 <= i < |s| :: s[i] == s[1..][i - 1];
    }
  }

  /** A text is blank exactly when trimming it leaves nothing. */
  lemma BlankIsTrimEmpty(s: string)
    ensures IsBlank(s) <==> Trim(s) == ""
  {
    BlankIffAllSpace(s);
  }

  /** Trimming a trimmed string changes nothing. */
  lemma TrimIdempotent(s: string)
    ensures Trim(Trim(s)) == Trim(s)
  {
    var r := Trim(s);
    assert TrimStart(r) == r;
    assert TrimEnd(r) == r;
  }

  /** The characters Python's `str.strip()` removes among ASCII: the
      JavaScript set and the four separators U+001C..U+001F. */
  predicate IsPySpace(c: char) {
    IsSpace(c) || ('\U{1C}' <= c <= '\U{1F}')
  }

  /** Every character of `s[lo..hi]` is Python whitespace. */
  predicate PySpaceBetween(s: string, lo: int, hi: int)
    requires 0 <= lo <= hi <= |s|
  {
    forall k | lo <= k < hi :: IsPySpace(s[k])
  }

  /** Drops leading Python whitespace. */
  function StripStart(s: string): (r: string)
    ensures |r| <= |s| && r == s[|s| - |r|..]
    ensures r == [] || !IsPySpace(r[0])
    ensures forall i | 0 <= i < |s| - |r| :: IsPySpace(s[i])
  {
    if |s| > 0 && IsPySpace(s[0]) then StripStart(s[1..]) else s
  }

  /** Drops trailing Python whitespace. */
  function StripEnd(s: string): (r: string)
    ensures |r| <= |s| && r == s[..|r|]
    ensures r == [] || !IsPySpace(r[|r| - 1])
    ensures forall i | |r| <= i < |s| :: IsPySpace(s[i])
  {
    if |s| > 0 && IsPySpace(s[|s| - 1]) then StripEnd(s[..|s| - 1]) else s
  }

  /** `s.strip()` in Python: the run between the first and the last
      character that is not Python whitespace. */
  function Strip(s: string): (r: string)
    ensures |r| <= |s|
    ensures exists i, j | 0 <= i <= j <= |s| ::
      && r == s[i..j]
      && PySpaceBetween(s, 0, i)
      && PySpaceBetween(s, j, |s|)
    ensures r == [] || (!IsPySpace(r[0]) && !IsPySpace(r[|r| - 1]))
    ensures r == [] <==> PySpaceBetween(s, 0, |s|)
  {
    StripIsRun(s);
    StripEmptyIffBlank(s);
    StripEnd(StripStart(s))
  }

  /** Stripping both ends keeps one contiguous run of the input, and
      everything dropped before and after it is Python whitespace. */
  lemma StripIsRun(s: string)
    ensures exists i, j | 0 <= i <= j <= |s| ::
      && StripEnd(StripStart(s)) == s[i..j]
      && PySpaceBetween(s, 0, i)
      && PySpaceBetween(s, j, |s|)
  {
    var t := StripStart(s);
    StrippedRun(s, t, StripEnd(t));
  }

  /** The run argument on plain texts, for Python whitespace. */
  lemma StrippedRun(s: string, t: string, r: string)
    requires |t| <= |s| && t == s[|s| - |t|..]
    requires forall k | 0 <= k < |s| - |t| :: IsPySpace(s[k])
    requires |r| <= |t| && r == t[..|r|]
    requires forall k | |r| <= k < |t| :: IsPySpace(t[k])
    ensures exists i, j | 0 <= i <= j <= |s| ::
      && r == s[i..j]
      && PySpaceBetween(s, 0, i)
      && PySpaceBetween(s, j, |s|)
  {
    var i := |s| - |t|;
    RunOfSuffix(s, t, r);
    forall k | i + |r| <= k < |s|
      ensures IsPySpace(s[k])
    {
      SuffixIndex(s, t, k);
    }
  }

  /** Stripping leaves nothing exactly when the whole input is Python whitespace. */
  lemma StripEmptyIffBlank(s: string)
    ensures |StripEnd(StripStart(s))| == 0 <==> PySpaceBetween(s, 0, |s|)
  {
    var t := StripStart(s);
    StrippedEmpty(s, t, StripEnd(t));
  }

  /** The emptiness argument on plain texts: what remains after the leading
      run starts with a non-space, so an empty result needs an empty tail. */
  lemma StrippedEmpty(s: string, t: string, r: string)
    requires |t| <= |s| && t == s[|s| - |t|..]
    requires t == [] || !IsPySpace(t[0])
    requires forall k | 0 <= k < |s| - |t| :: IsPySpace(s[k])
    requires |r| <= |t| && r == t[..|r|]
    requires forall k | |r| <= k < |t| :: IsPySpace(t[k])
    ensures |r| == 0 <==> PySpaceBetween(s, 0, |s|)
  {
    if t != [] {
      SuffixIndex(s, t, |s| - |t|);
    }
  }

  /** On text without the separators U+001C..U+001F, Python's `strip` and
      JavaScript's `trim` agree. */
  lemma StripIsTrim(s: string)
    requires forall i | 0 <= i < |s| :: !('\U{1C}' <= s[i] <= '\U{1F}')
    ensures Strip(s) == Trim(s)
  {
    StripStartIsTrimStart(s);
    var t := TrimStart(s);
    SuffixHasNoSeparators(s, t);
    StripEndIsTrimEnd(t);
  }

  lemma SuffixHasNoSeparators(s: string, t: string)
    requires |t| <= |s| && t == s[|s| - |t|..]
    requires forall i | 0 <= i < |s| :: !('\U{1C}' <= s[i] <= '\U{1F}')
    ensures forall i | 0 <= i < |t| :: !('\U{1C}' <= t[i] <= '\U{1F}')
  {
    forall i | 0 <= i < |t|
      ensures !('\U{1C}' <= t[i] <= '\U{1F}')
    {
      SuffixIndex(s, t, |s| - |t| + i);
    }
  }

  lemma {:induction false} StripStartIsTrimStart(s: string)
    requires forall i | 0 <= i < |s| :: !('\U{1C}' <= s[i] <= '\U{1F}')
    ensures StripStart(s) == TrimStart(s)
  {
    if |s| > 0 {
      StripStartIsTrimStart(s[1..]);
    }
  }

  lemma {:induction false} StripEndIsTrimEnd(s: string)
    requires forall i | 0 <= i < |s| :: !('\U{1C}' <= s[i] <= '\U{1F}')
    ensures StripEnd(s) == TrimEnd(s)
  {
    if |s| > 0 {
      StripEndIsTrimEnd(s[..|s| - 1]);
    }
  }

  /** Where the two differ: `strip` removes a lone U+001C, `trim` keeps it. */
  lemma StripRemovesSeparators()
    ensures Strip("\U{1C}") == "" && Trim("\U{1C}") == "\U{1C}"
  {
    assert StripStart("\U{1C}") == StripStart("\U{1C}"[1..]);
    assert TrimStart("\U{1C}") == "\U{1C}";
    assert TrimEnd("\U{1C}") == "\U{1C}";
  }

  /** ASCII `toLowerCase`. */
  function LowerChar(c: char): (r: char)
    ensures 'A' <= c <= 'Z' ==> 'a' <= r <= 'z' && r as int == c as int + ('a' as int - 'A' as int)
    ensures !('A' <= c <= 'Z') ==> r == c
  {
    if 'A' <= c <= 'Z' then (c as int - 'A' as int + 'a' as int) as char else c
  }

  function Lower(s: string): (r: string)
    ensures |r| == |s|
    ensures forall i | 0 <= i < |s| :: r[i] == LowerChar(s[i])
  {
    seq(|s|, i requires 0 <= i < |s| => LowerChar(s[i]))
  }

  /** The case-insensitive comparison `a.toLowerCase() === b.toLowerCase()`. */
  predicate EqualsIgnoreCase(a: string, b: string) {
    Lower(a) == Lower(b)
  }

  /** `s.split(sep)` for a one-character separator: the pieces between
      separators, always at least one (`"".split("\n")` is `[""]`). */
  function Split(s: string, sep: char): (r: seq<string>)
    ensures |r| >= 1
    ensures forall i | 0 <= i < |r| :: sep !in r[i]
  {
    if |s| == 0 then [""]
    else
      var rest := Split(s[1..], sep);
      if s[0] == sep then [""] + rest
      else [[s[0]] + rest[0]] + rest[1..]
  }

  /** `sep.join(xs)` / `xs.join(sep)`. */
  function Join(xs: seq<string>, sep: char): string
  {
    if |xs| == 0 then ""
    else if |xs| == 1 then xs[0]
    else xs[0] + [sep] + Join(xs[1..], sep)
  }

  /** Joining two non-empty lists is joining each and putting the separator between. */
  lemma {:induction false} JoinAppend(a: seq<string>, b: seq<string>, sep: char)
    requires a != [] && b != []
    ensures Join(a + b, sep) == Join(a, sep) + [sep] + Join(b, sep)
  {
    if |a| > 1 {
      assert (a + b)[1..] == a[1..] + b;
      JoinAppend(a[1..], b, sep);
    } else {
      assert (a + b)[1..] == b;
    }
  }

  /** A string without the separator is one piece. */
  lemma {:induction false} SplitNoSeparator(s: string, sep: char)
    requires sep !in s
    ensures Split(s, sep) == [s]
  {
    if |s| > 0 {
      SplitNoSeparator(s[1..], sep);
      assert [s[0]] + s[1..] == s;
    }
  }

  /** Splitting distributes over a separator: the pieces of `a + sep + b` are the
      pieces of `a` followed by the pieces of `b`. */
  lemma {:induction false} SplitConcat(a: string, b: string, sep: char)
    ensures Split(a + [sep] + b, sep) == Split(a, sep) + Split(b, sep)
  {
    if |a| == 0 {
      assert a + [sep] + b == [sep] + b;
      SplitCons(sep, b, sep);
    } else {
      var c, t := a[0], a[1..];
      assert a == [c] + t;
      assert a + [sep] + b == [c] + (t + [sep] + b);
      SplitConcat(t, b, sep);
      SplitCons(c, t + [sep] + b, sep);
      SplitCons(c, t, sep);
      PrependPiece(c, sep, Split(t, sep), Split(b, sep));
    }
  }

  /** The sequence algebra behind one step of `SplitConcat`: putting a
      character in front of the pieces `pa + pb` changes only the pieces of `pa`. */
  lemma PrependPiece(c: char, sep: char, pa: seq<string>, pb: seq<string>)
    requires |pa| >= 1
    ensures var whole := pa + pb;
      (if c == sep then [""] + whole else [[c] + whole[0]] + whole[1..])
      == (if c == sep then [""] + pa else [[c] + pa[0]] + pa[1..]) + pb
  {
    if c != sep {
      assert (pa + pb)[1..] == pa[1..] + pb;
    }
  }

  /** How one leading character extends the split of the rest. */
  lemma SplitCons(c: char, t: string, sep: char)
    ensures var rest := Split(t, sep);
      Split([c] + t, sep) == if c == sep then [""] + rest else [[c] + rest[0]] + rest[1..]
  {
    assert ([c] + t)[1..] == t;
  }

  /** Splitting undoes joining when no piece holds the separator. */
  lemma {:induction false} SplitJoin(xs: seq<string>, sep: char)
    requires |xs| >= 1
    requires forall i | 0 <= i < |xs| :: sep !in xs[i]
    ensures Split(Join(xs, sep), sep) == xs
  {
    if |xs| == 1 {
      SplitNoSeparator(xs[0], sep);
    } else {
      SplitJoin(xs[1..], sep);
      SplitConcat(xs[0], Join(xs[1..], sep), sep);
      SplitNoSeparator(xs[0], sep);
      assert [xs[0]] + xs[1..] == xs;
    }
  }

  /** Joining undoes splitting: no character is lost or reordered. */
  lemma {:induction false} JoinSplit(s: string, sep: char)
    ensures Join(Split(s, sep), sep) == s
  {
    if |s| > 0 {
      JoinSplit(s[1..], sep);
      var rest := Split(s[1..], sep);
      if s[0] == sep {
        assert ([""] + rest)[1..] == rest;
        assert s == [sep] + s[1..];
      } else {
        var r := [[s[0]] + rest[0]] + rest[1..];
        if |rest| == 1 {
          assert s == [s[0]] + s[1..];
        } else {
          assert r[1..] == rest[1..];
          assert Join(rest, sep) == rest[0] + [sep] + Join(rest[1..], sep);
          assert s == [s[0]] + s[1..];
        }
      }
    }
  }
}
