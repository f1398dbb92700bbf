/** The Python string built-ins the certifier relies on: `str.strip()` with no
    argument, and `str.split(sep)` with a one-character separator, together with
    `sep.join(parts)` and `str.count(c)`, which state what `split` computes. */
module PyStr {

  /** Python's `str.isspace` on one character: the Unicode whitespace set
      (tab to carriage return, the four information separators, space, NEL,
      no-break space, Ogham space mark, the general punctuation spaces, line and
      paragraph separators, narrow no-break space, medium mathematical space and
      ideographic space). */
  predicate IsSpace(c: char) {
    var n := c as int;
    (9 <= n <= 13) || (28 <= n <= 32) || n == 0x85 || n == 0xA0 || n == 0x1680
    || (0x2000 <= n <= 0x200A) || n == 0x2028 || n == 0x2029 || n == 0x202F
    || n == 0x205F || n == 0x3000
  }

  /** `s.lstrip()`: what is left of `s` once its leading whitespace is dropped. */
  function StripStart(s: string): (r: string)
    ensures |r| <= |s|
    ensures forall k :: 0 <= k < |s| - |r| ==> IsSpace(s[k])
    ensures r == [] || !IsSpace(r[0])
  {
    if |s| > 0 && IsSpace(s[0]) then StripStart(s[1..]) else s
  }

  /** `s.rstrip()`: what is left of `s` once its trailing whitespace is dropped. */
  function StripEnd(s: string): (r: string)
    ensures |r| <= |s|
    ensures forall k :: |r| <= k < |s| ==> IsSpace(s[k])
    ensures r == [] || !IsSpace(r[|r| - 1])
  {
    if |s| > 0 && IsSpace(s[|s| - 1]) then StripEnd(s[..|s| - 1]) else s
  }

  /** What `s.lstrip()` leaves is a suffix of `s`. */
  lemma {:induction false} StripStartIsSuffix(s: string)
    ensures StripStart(s) == s[|s| - |StripStart(s)|..]
  {
    if |s| > 0 && IsSpace(s[0]) {
      StripStartIsSuffix(s[1..]);
      assert s[1..][|s| - 1 - |StripStart(s)|..] == s[|s| - |StripStart(s)|..];
    }
  }

  /** What `s.rstrip()` leaves is a prefix of `s`. */
  lemma {:induction false} StripEndIsPrefix(s: string)
    ensures StripEnd(s) == s[..|StripEnd(s)|]
  {
    if |s| > 0 && IsSpace(s[|s| - 1]) {
      StripEndIsPrefix(s[..|s| - 1]);
      assert s[..|s| - 1][..|StripEnd(s)|] == s[..|StripEnd(s)|];
    }
  }

  /** `s.strip()`. */
  function Strip(s: string): (r: string)
    ensures |r| <= |s|
    ensures r == [] || !IsSpace(r[|r| - 1])
  {
    StripEnd(StripStart(s))
  }

  /** `s.strip()` is the slice of `s` that starts after its leading
      whitespace, and everything after that slice is whitespace too. */
  lemma StripIsSlice(s: string)
    ensures var r, lo := Strip(s), |s| - |StripStart(s)|;
      && 0 <= lo <= lo + |r| <= |s|
      && r == s[lo..lo + |r|]
      && (forall k :: 0 <= k < lo ==> IsSpace(s[k]))
      && (forall k :: lo + |r| <= k < |s| ==> IsSpace(s[k]))
  {
    var t := StripStart(s);
    var r := StripEnd(t);
    var lo := |s| - |t|;
    StripStartIsSuffix(s);
    StripEndIsPrefix(t);
    assert t == s[lo..];
    assert r == t[..|r|];
    assert s[lo..][..|r|] == s[lo..lo + |r|];
    SuffixTailIsSpace(s, lo);
  }

  /** Whatever right-stripping drops from a suffix of `s` is whitespace of `s`. */
  lemma SuffixTailIsSpace(s: string, lo: nat)
    requires lo <= |s|
    ensures forall k :: lo + |StripEnd(s[lo..])| <= k < |s| ==> IsSpace(s[k])
  {
    var t := s[lo..];
    forall k | lo + |StripEnd(t)| <= k < |s| ensures IsSpace(s[k]) {
      assert s[k] == t[k - lo];
    }
  }

  /** `s.strip()` neither starts nor ends with whitespace. */
  lemma StripIsTrimmed(s: string)
    ensures Strip(s) == [] || (!IsSpace(Strip(s)[0]) && !IsSpace(Strip(s)[|Strip(s)| - 1]))
  {
    var t := StripStart(s);
    var r := StripEnd(t);
    if r != [] {
      StripEndIsPrefix(t);
      assert r[0] == t[0];
    }
  }

  /** Stripping twice is stripping once. */
  lemma StripIdempotent(s: string)
    ensures Strip(Strip(s)) == Strip(s)
  {
    var r := Strip(s);
    StripIsTrimmed(s);
    if r != [] {
      assert StripStart(r) == r;
      assert StripEnd(r) == r;
    }
  }

  /** `s.count(c)` for a one-character `c`. */
  function Count(s: string, c: char): nat {
    if s == [] then 0 else (if s[0] == c then 1 else 0) + Count(s[1..], c)
  }

  /** `s.split(sep)`: the pieces of `s` between occurrences of `sep`; there is
      always at least one piece, and no piece contains the separator. */
  function Split(s: string, sep: char): (r: seq<string>)
    ensures |r| >= 1
    ensures forall k :: 0 <= k < |r| ==> sep !in r[k]
  {
    if |s| == 0 then [""]
    else
      var rest := Split(s[1..], sep);
      if s[0] == sep then [""] + rest
      else [[s[0]] + rest[0]] + rest[1..]
  }

  /** `sep.join(parts)`. */
  function Join(parts: seq<string>, sep: char): string {
    if |parts| == 0 then ""
    else if |parts| == 1 then parts[0]
    else parts[0] + [sep] + Join(parts[1..], sep)
  }

  /** Splitting yields one more piece than there are separators: an empty
      string gives one empty piece, a trailing separator a final empty piece. */
  lemma {:induction false} SplitLength(s: string, sep: char)
    ensures |Split(s, sep)| == Count(s, sep) + 1
  {
    if |s| > 0 {
      SplitLength(s[1..], sep);
    }
  }

  /** Joining the pieces of a split gives back the string. */
  lemma {:induction false} JoinSplit(s: string, sep: char)
    ensures Join(Split(s, sep), sep) == s
  {
    if |s| > 0 {
      var rest := Split(s[1..], sep);
      JoinSplit(s[1..], sep);
      if s[0] == sep {
        assert ([""] + rest)[1..] == rest;
        assert Join([""] + rest, sep) == "" + [sep] + Join(rest, sep);
        assert s == [sep] + s[1..];
      } else {
        var parts := [[s[0]] + rest[0]] + rest[1..];
        assert s == [s[0]] + s[1..];
        if |rest| == 1 {
          assert parts == [[s[0]] + rest[0]];
        } else {
          assert parts[1..] == rest[1..];
          assert Join(parts, sep) == [s[0]] + rest[0] + [sep] + Join(rest[1..], sep);
          assert Join(rest, sep) == rest[0] + [sep] + Join(rest[1..], sep);
        }
      }
    }
  }

  /** Splitting a separator-free word followed by more text: the word is glued
      to the first piece of the rest. */
  lemma {:induction false} SplitAfterWord(w: string, t: string, sep: char)
    requires sep !in w
    ensures Split(w + t, sep) == [w + Split(t, sep)[0]] + Split(t, sep)[1..]
  {
    if |w| > 0 {
      SplitAfterWord(w[1..], t, sep);
      assert (w + t)[0] == w[0];
      assert (w + t)[1..] == w[1..] + t;
      assert [w[0]] + (w[1..] + Split(t, sep)[0]) == w + Split(t, sep)[0];
    } else {
      var r := Split(t, sep);
      assert w + t == t;
      assert w + r[0] == r[0];
      assert r == [r[0]] + r[1..];
    }
  }

  /** Splitting a join of separator-free pieces gives back the pieces. */
  lemma {:induction false} SplitJoin(parts: seq<string>, sep: char)
    requires |parts| >= 1
    requires forall k :: 0 <= k < |parts| ==> sep !in parts[k]
    ensures Split(Join(parts, sep), sep) == parts
  {
    if |parts| == 1 {
      SplitAfterWord(parts[0], "", sep);
      assert parts[0] + "" == parts[0];
    } else {
      var tail := Join(parts[1..], sep);
      SplitJoin(parts[1..], sep);
      assert ([sep] + tail)[1..] == tail;
      assert Split([sep] + tail, sep) == [""] + parts[1..];
      SplitAfterWord(parts[0], [sep] + tail, sep);
      var pieces := [""] + parts[1..];
      assert pieces[0] == "" && pieces[1..] == parts[1..];
      assert Join(parts, sep) == parts[0] + ([sep] + tail);
      assert parts[0] + "" == parts[0];
      assert parts == [parts[0]] + parts[1..];
    }
  }
}
