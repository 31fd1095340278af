/** String helpers shared by the services and routes: Python's `str.strip()`,
    `str.startswith()` and `sep.join(parts)`. */
module Text {

  /** The ASCII characters `str.strip()` removes (those `isspace()` holds
      for): space, tab, line feed, carriage return, vertical tab, form feed
      and the four separators U+001C to U+001F. */
  predicate IsSpace(c: char) {
    || c == ' ' || c == '\t' || c == '\n' || c == '\r' || c == '\U{000B}' || c == '\U{000C}'
    || ('\U{001C}' <= c <= '\U{001F}')
  }

  predicate AllSpace(s: string) {
    forall i :: 0 <= i < |s| ==> IsSpace(s[i])
  }

  predicate StartsWith(s: string, prefix: string) {
    |prefix| <= |s| && s[..|prefix|] == prefix
  }

  predicate EndsWith(s: string, suffix: string) {
    |suffix| <= |s| && s[|s| - |suffix|..] == suffix
  }

  /** `s.lstrip()`: the longest suffix of `s` that does not start with whitespace. */
  function TrimStart(s: string): (r: string)
    ensures |r| <= |s| && r == s[|s| - |r|..]
    ensures forall i :: 0 <= i < |s| - |r| ==> IsSpace(s[i])
    ensures r == [] || !IsSpace(r[0])
  {
    if |s| > 0 && IsSpace(s[0]) then TrimStart(s[1..]) else s
  }

  /** `s.rstrip()`: the longest prefix of `s` that does not end with whitespace. */
  function TrimEnd(s: string): (r: string)
    ensures |r| <= |s| && r == s[..|r|]
    ensures forall i :: |r| <= i < |s| ==> IsSpace(s[i])
    ensures r == [] || !IsSpace(r[|r| - 1])
  {
    if |s| > 0 && IsSpace(s[|s| - 1]) then TrimEnd(s[..|s| - 1]) else s
  }

  /** `s.strip()`: whitespace removed from both ends. */
  function Strip(s: string): (r: string)
    ensures |r| <= |s|
    ensures r == [] || (!IsSpace(r[0]) && !IsSpace(r[|r| - 1]))
    ensures r == [] <==> AllSpace(s)
  {
    TrimBothEmpty(s);
    TrimEnd(TrimStart(s))
  }

  /** What `strip()` returns is a slice of its input with only whitespace
      around it. */
  lemma StripIsSlice(s: string)
    ensures exists a :: Framed(s, a, Strip(s))
  {
    TrimBothIsSlice(s);
    var a :| Framed(s, a, TrimEnd(TrimStart(s)));
    assert Framed(s, a, Strip(s));
  }

  /** Trimming both ends leaves nothing exactly when `s` is all whitespace. */
  lemma TrimBothEmpty(s: string)
    ensures TrimEnd(TrimStart(s)) == [] <==> AllSpace(s)
  {
    var t := TrimStart(s);
    assert TrimEnd(t) == [] ==> t == [];
  }

  /** `r` is the slice of `s` starting at `a`, with only whitespace before
      and after it. */
  predicate Framed(s: string, a: int, r: string) {
    && 0 <= a <= |s| - |r|
    && r == s[a..a + |r|]
    && AllSpace(s[..a])
    && AllSpace(s[a + |r|..])
  }

  /** Trimming both ends cuts out a slice of `s` with only whitespace around it. */
  lemma TrimBothIsSlice(s: string)
    ensures exists a :: Framed(s, a, TrimEnd(TrimStart(s)))
  {
    var t := TrimStart(s);
    var r := TrimEnd(t);
    var a := |s| - |t|;
    var before := s[..a];
    var after := s[a + |r|..];
    forall i | 0 <= i < |before| ensures IsSpace(before[i]) {
      assert before[i] == s[i];
    }
    forall i | 0 <= i < |after| ensures IsSpace(after[i]) {
      assert after[i] == t[|r| + i];
    }
    assert Framed(s, a, r);
  }

  /** A string with no whitespace at either end is left alone by `strip()`. */
  lemma StripUnchanged(s: string)
    requires s == [] || (!IsSpace(s[0]) && !IsSpace(s[|s| - 1]))
    ensures Strip(s) == s
  {
  }

  /** Stripping twice is stripping once. */
  lemma StripIdempotent(s: string)
    ensures Strip(Strip(s)) == Strip(s)
  {
    StripUnchanged(Strip(s));
  }

  /** A trailing whitespace character never survives `rstrip()`. */
  lemma TrimEndDropsSpace(s: string, c: char)
    requires IsSpace(c)
    ensures TrimEnd(s + [c]) == TrimEnd(s)
  {
    assert (s + [c])[..|s|] == s;
  }

  /** `sep.join(parts)`. */
  function Join(parts: seq<string>, sep: string): string
  {
    if |parts| == 0 then ""
    else if |parts| == 1 then parts[0]
    else parts[0] + sep + Join(parts[1..], sep)
  }

  /** The string built by appending `part + term` for each part in turn
      (`history += f"...\n"` in a loop). */
  function Terminated(parts: seq<string>, term: string): string
  {
    if |parts| == 0 then "" else parts[0] + term + Terminated(parts[1..], term)
  }

  /** Terminating every part is joining them and terminating the last one. */
  lemma {:induction false} TerminatedIsJoined(parts: seq<string>, sep: string)
    requires |parts| > 0
    ensures Terminated(parts, sep) == Join(parts, sep) + sep
  {
    if |parts| > 1 {
      TerminatedIsJoined(parts[1..], sep);
    }
  }

  /** A join starts with its first part. */
  lemma JoinStartsWithFirst(parts: seq<string>, sep: string)
    requires |parts| > 0
    ensures StartsWith(Join(parts, sep), parts[0])
  {
  }

  /** A join ends with its last part. */
  lemma {:induction false} JoinEndsWithLast(parts: seq<string>, sep: string)
    requires |parts| > 0
    ensures EndsWith(Join(parts, sep), parts[|parts| - 1])
  {
    if |parts| > 1 {
      JoinEndsWithLast(parts[1..], sep);
      var rest := Join(parts[1..], sep);
      var last := parts[|parts| - 1];
      assert parts[1..][|parts[1..]| - 1] == last;
      var whole := parts[0] + sep + rest;
      assert whole[|whole| - |last|..] == rest[|rest| - |last|..];
    }
  }

  /** Stripping newline-terminated lines whose first line starts with a
      non-space character removes only trailing whitespace. */
  lemma StripTerminatedLines(lines: seq<string>)
    requires |lines| > 0 && |lines[0]| > 0 && !IsSpace(lines[0][0])
    ensures Strip(Terminated(lines, "\n")) == TrimEnd(Join(lines, "\n"))
  {
    var joined := Join(lines, "\n");
    TerminatedIsJoined(lines, "\n");
    TrimEndDropsSpace(joined, '\n');
    JoinStartsWithFirst(lines, "\n");
    assert (joined + "\n")[0] == lines[0][0];
  }

  /** ... and nothing at all when the last line does not end in whitespace. */
  lemma JoinKeptWhole(lines: seq<string>)
    requires |lines| > 0
    requires |lines[|lines| - 1]| > 0 && !IsSpace(lines[|lines| - 1][|lines[|lines| - 1]| - 1])
    ensures TrimEnd(Join(lines, "\n")) == Join(lines, "\n")
  {
    var joined := Join(lines, "\n");
    var last := lines[|lines| - 1];
    JoinEndsWithLast(lines, "\n");
    assert joined[|joined| - 1] == last[|last| - 1];
  }
}
