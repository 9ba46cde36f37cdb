/**
 * The two JavaScript string operations the dashboard's checklist uses:
 * `split("\n")` and `trim()`.
 */
module JsText {

  /** The ECMAScript WhiteSpace and LineTerminator code points: what `trim` removes. */
  predicate IsWhitespace(c: char) {
    || c == '\t' || c == '\n' || c == '\U{000B}' || c == '\U{000C}' || c == '\r' || c == ' '
    || c == '\U{00A0}' || c == '\U{1680}' || ('\U{2000}' <= c <= '\U{200A}')
    || c == '\U{2028}' || c == '\U{2029}' || c == '\U{202F}' || c == '\U{205F}'
    || c == '\U{3000}' || c == '\U{FEFF}'
  }

  /** Every character of `s` is whitespace (so also true of ""). */
  ghost predicate Blank(s: string) {
    forall i :: 0 <= i < |s| ==> IsWhitespace(s[i])
  }

  // ---------------------------------------------------------------------------
  // split("\n")
  // ---------------------------------------------------------------------------

  /** `s.split("\n")`: the pieces between newlines, at least one (`"".split("\n")` is `[""]`). */
  function SplitLines(s: string): (pieces: seq<string>)
    ensures |pieces| >= 1
    ensures forall i :: 0 <= i < |pieces| ==> '\n' !in pieces[i]
    ensures forall i, c :: 0 <= i < |pieces| && c in pieces[i] ==> c in s
  {
    if s == [] then [""]
    else
      var rest := SplitLines(s[1..]);
      assert forall c :: c in s[1..] ==> c in s;
      if s[0] == '\n' then [""] + rest
      else [[s[0]] + rest[0]] + rest[1..]
  }

  /** `pieces.join("\n")`. */
  function JoinLines(pieces: seq<string>): string {
    if pieces == [] then ""
    else if |pieces| == 1 then pieces[0]
    else pieces[0] + "\n" + JoinLines(pieces[1..])
  }

  /** Splitting loses nothing: joining the pieces with newlines gives the text back. */
  lemma {:induction false} SplitJoinRoundTrip(s: string)
    ensures JoinLines(SplitLines(s)) == s
  {
    if s != [] {
      SplitJoinRoundTrip(s[1..]);
      var rest := SplitLines(s[1..]);
      if s[0] == '\n' {
        assert ([""] + rest)[1..] == rest;
        assert s == [s[0]] + s[1..];
      } else {
        var pieces := [[s[0]] + rest[0]] + rest[1..];
        assert pieces[1..] == rest[1..];
        if |rest| == 1 {
          assert s == [s[0]] + rest[0];
        } else {
          assert JoinLines(rest) == rest[0] + "\n" + JoinLines(rest[1..]);
          assert s == [s[0]] + s[1..];
        }
      }
    }
  }

  /** Number of occurrences of `c` in `s`. */
  function Count(c: char, s: string): nat {
    if s == [] then 0 else (if s[0] == c then 1 else 0) + Count(c, s[1..])
  }

  /** There is one piece more than there are newlines. */
  lemma {:induction false} SplitLinesCount(s: string)
    ensures |SplitLines(s)| == Count('\n', s) + 1
  {
    if s != [] {
      SplitLinesCount(s[1..]);
    }
  }

  // ---------------------------------------------------------------------------
  // trim()
  // ---------------------------------------------------------------------------

  /** `r` occurs in `s` starting at index `i`. */
  ghost predicate Infix(r: string, s: string, i: int) {
    0 <= i <= |s| - |r| && r == s[i..i + |r|]
  }

  /** Drops the leading whitespace. */
  function TrimStart(s: string): (r: string)
    ensures |r| <= |s|
    ensures r == [] || !IsWhitespace(r[0])
  {
    if s != [] && IsWhitespace(s[0]) then TrimStart(s[1..]) else s
  }

  /** Drops the trailing whitespace. */
  function TrimEnd(s: string): (r: string)
    ensures |r| <= |s|
    ensures r == [] || !IsWhitespace(r[|r| - 1])
  {
    if s != [] && IsWhitespace(s[|s| - 1]) then TrimEnd(s[..|s| - 1]) else s
  }

  /** `s.trim()`: `s` without its leading and trailing whitespace. */
  function Trim(s: string): (r: string)
    ensures |r| <= |s|
    ensures r == [] || (!IsWhitespace(r[0]) && !IsWhitespace(r[|r| - 1]))
  {
    var t := TrimStart(s);
    TrimEndDropsWhitespace(t);
    TrimEnd(t)
  }

  /** What `TrimStart` drops is whitespace, and what it keeps is a suffix. */
  lemma {:induction false} TrimStartDropsWhitespace(s: string)
    ensures TrimStart(s) == s[|s| - |TrimStart(s)|..]
    ensures forall i :: 0 <= i < |s| - |TrimStart(s)| ==> IsWhitespace(s[i])
  {
    if s != [] && IsWhitespace(s[0]) {
      TrimStartDropsWhitespace(s[1..]);
      forall i | 1 <= i < |s| - |TrimStart(s)| ensures IsWhitespace(s[i]) {
        assert s[i] == s[1..][i - 1];
      }
    }
  }

  /** What `TrimEnd` drops is whitespace, and what it keeps is a prefix. */
  lemma {:induction false} TrimEndDropsWhitespace(s: string)
    ensures TrimEnd(s) == s[..|TrimEnd(s)|]
    ensures forall i :: |TrimEnd(s)| <= i < |s| ==> IsWhitespace(s[i])
  {
    if s != [] && IsWhitespace(s[|s| - 1]) {
      TrimEndDropsWhitespace(s[..|s| - 1]);
      forall i | |TrimEnd(s)| <= i < |s| - 1 ensures IsWhitespace(s[i]) {
        assert s[i] == s[..|s| - 1][i];
      }
    }
  }

  /**
   * The trimmed string is a contiguous part of `s`, so all its characters
   * come from `s`, and it is empty exactly when `s` is blank.
   */
  lemma TrimmedPart(s: string)
    ensures exists i :: Infix(Trim(s), s, i)
    ensures Trim(s) == [] <==> Blank(s)
    ensures forall c :: c in Trim(s) ==> c in s
  {
    var t := TrimStart(s);
    var r := TrimEnd(t);
    assert r == Trim(s);
    TrimStartDropsWhitespace(s);
    TrimEndDropsWhitespace(t);
    assert Infix(r, s, |s| - |t|);
    if r != [] {
      assert r[0] == s[|s| - |t|];
    } else {
      assert t == [];
    }
  }

  /** Trimming twice is trimming once. */
  lemma TrimIdempotent(s: string)
    ensures Trim(Trim(s)) == Trim(s)
  {
    var r := Trim(s);
    assert TrimStart(r) == r;
    assert TrimEnd(r) == r;
  }
}
