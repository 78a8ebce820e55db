/**
 * The string operations `formatMessage` (front/chatbot.js) performs:
 * `split("\n")`, `trim()` and a global `replace` of a literal pattern.
 */
module Text {
  import opened JsValues

  /** `s.split(sep)` for a one-character separator; `"".split(sep)` is `[""]`. */
  function Split(s: string, sep: char): (parts: seq<string>)
    ensures |parts| >= 1
    ensures forall i :: 0 <= i < |parts| ==> sep !in parts[i]
  {
    if |s| == 0 then [""]
    else
      var rest := Split(s[1..], sep);
      if s[0] == sep then [""] + rest else [[s[0]] + rest[0]] + rest[1..]
  }

  /** `parts.join(sep)`. */
  function Join(parts: seq<string>, sep: char): string
    requires |parts| >= 1
  {
    if |parts| == 1 then parts[0] else parts[0] + [sep] + Join(parts[1..], sep)
  }

  /** Joining the pieces puts the separators back. */
  lemma {:induction false} JoinSplit(s: string, sep: char)
    ensures Join(Split(s, sep), sep) == s
  {
    if |s| > 0 {
      var rest := Split(s[1..], sep);
      JoinSplit(s[1..], sep);
      if s[0] != sep {
        JoinHead(rest, sep, s[0]);
      }
    }
  }

  lemma JoinHead(parts: seq<string>, sep: char, c: char)
    requires |parts| >= 1
    ensures Join([[c] + parts[0]] + parts[1..], sep) == [c] + Join(parts, sep)
  {
    var ps := [[c] + parts[0]] + parts[1..];
    if |parts| > 1 {
      assert ps[1..] == parts[1..];
    }
  }

  /** Splitting a join of separator-free pieces gives the pieces back. */
  lemma {:induction false} SplitJoin(parts: seq<string>, sep: char)
    requires |parts| >= 1
    requires forall i :: 0 <= i < |parts| ==> sep !in parts[i]
    ensures Split(Join(parts, sep), sep) == parts
  {
    if |parts| == 1 {
      SplitFree(parts[0], sep);
      assert parts == [parts[0]];
    } else {
      SplitJoin(parts[1..], sep);
      SplitPrefix(parts[0], sep, Join(parts[1..], sep));
      assert [sep] + Join(parts[1..], sep) == ([sep] + Join(parts[1..], sep));
      assert parts[0] + [sep] + Join(parts[1..], sep) == parts[0] + ([sep] + Join(parts[1..], sep));
    }
  }

  /** A string without the separator is one piece. */
  lemma {:induction false} SplitFree(s: string, sep: char)
    requires sep !in s
    ensures Split(s, sep) == [s]
  {
    if |s| > 0 {
      SplitFree(s[1..], sep);
      assert [s[0]] + s[1..] == s;
    }
  }

  /** A separator-free head becomes the first piece of what follows the separator. */
  lemma {:induction false} SplitPrefix(head: string, sep: char, tail: string)
    requires sep !in head
    ensures Split(head + [sep] + tail, sep) == [head] + Split(tail, sep)
  {
    var s := head + [sep] + tail;
    if |head| == 0 {
      assert s == [sep] + tail;
      assert s[0] == sep && s[1..] == tail;
    } else {
      SplitPrefix(head[1..], sep, tail);
      assert s[0] == head[0] != sep;
      assert s[1..] == head[1..] + [sep] + tail;
      assert head == [head[0]] + head[1..];
    }
  }

  // ---------------------------------------------------------------------------
  // trim

  /** The end of `s` without its trailing white space. */
  function TrimEnd(s: string): (t: string)
    ensures |t| <= |s| && t == s[..|t|]
    ensures |t| > 0 ==> !IsSpace(t[|t| - 1])
    ensures forall i :: |t| <= i < |s| ==> IsSpace(s[i])
  {
    if |s| > 0 && IsSpace(s[|s| - 1]) then TrimEnd(s[..|s| - 1]) else s
  }

  /** `s.trim()`: white space and line terminators off both ends. */
  function Trim(s: string): string {
    TrimEnd(SkipSpaces(s))
  }

  /**
   * `Trim(s)` is the slice of `s` between its leading and its trailing white
   * space, and neither of its ends is white space.
   */
  lemma TrimSlice(s: string)
    ensures var t := Trim(s);
      var i := |s| - |SkipSpaces(s)|;
      && i + |t| <= |s|
      && t == s[i..i + |t|]
      && (forall j :: 0 <= j < i ==> IsSpace(s[j]))
      && (forall j :: i + |t| <= j < |s| ==> IsSpace(s[j]))
      && (|t| > 0 ==> !IsSpace(t[0]) && !IsSpace(t[|t| - 1]))
  {
    var u := SkipSpaces(s);
    var t := TrimEnd(u);
    var i := |s| - |u|;
    assert u == s[i..];
    assert t == u[..|t|];
    SliceOfSuffix(s, i, |t|);
    forall j | i + |t| <= j < |s| ensures IsSpace(s[j]) {
      assert s[j] == u[j - i];
    }
    if |t| > 0 {
      assert t[0] == u[0];
    }
  }

  lemma SliceOfSuffix(s: string, i: nat, n: nat)
    requires i + n <= |s|
    ensures s[i..][..n] == s[i..i + n]
  {
  }

  /** Trimming twice is trimming once. */
  lemma TrimIdempotent(s: string)
    ensures Trim(Trim(s)) == Trim(s)
  {
    var t := Trim(s);
    TrimSlice(s);
    if |t| > 0 {
      assert SkipSpaces(t) == t;
      TrimEndKeeps(t);
    }
  }

  lemma TrimEndKeeps(t: string)
    requires |t| > 0 && !IsSpace(t[|t| - 1])
    ensures TrimEnd(t) == t
  {
  }

  // ---------------------------------------------------------------------------
  // replace(/pat/g, rep) for a literal pattern

  /** `s.replace(/pat/g, rep)`: each occurrence, left to right and not overlapping. */
  function ReplaceAll(s: string, pat: string, rep: string): string
    requires |pat| > 0
  {
    if |s| < |pat| then s
    else if s[..|pat|] == pat then rep + ReplaceAll(s[|pat|..], pat, rep)
    else [s[0]] + ReplaceAll(s[1..], pat, rep)
  }

  /** A string whose characters include no first character of the pattern is unchanged. */
  lemma {:induction false} ReplaceAllAbsent(s: string, pat: string, rep: string)
    requires |pat| > 0 && pat[0] !in s
    ensures ReplaceAll(s, pat, rep) == s
  {
    if |s| >= |pat| {
      assert s[..|pat|][0] == s[0];
      ReplaceAllAbsent(s[1..], pat, rep);
    }
  }

  /** Appending a character to each occurrence leaves the first `|pat|` characters alone. */
  lemma {:induction false} ReplaceAllPrefix(t: string, pat: string, c: char, j: nat)
    requires |pat| > 0 && j <= |pat| && j <= |t|
    ensures |ReplaceAll(t, pat, pat + [c])| >= j
    ensures ReplaceAll(t, pat, pat + [c])[..j] == t[..j]
  {
    if |t| >= |pat| && t[..|pat|] != pat && j > 0 {
      ReplaceAllPrefix(t[1..], pat, c, j - 1);
    } else if |t| >= |pat| && t[..|pat|] == pat {
      assert t[..j] == pat[..j];
    }
  }

  /** `ReplaceAll(s, pat, rep)` is never shorter than `s` when `rep` extends `pat`. */
  lemma {:induction false} ReplaceAllLonger(t: string, pat: string, c: char)
    requires |pat| > 0
    ensures |ReplaceAll(t, pat, pat + [c])| >= |t|
  {
    if |t| >= |pat| {
      if t[..|pat|] == pat {
        ReplaceAllLonger(t[|pat|..], pat, c);
      } else {
        ReplaceAllLonger(t[1..], pat, c);
      }
    }
  }

  /**
   * Putting a character after every occurrence of a pattern is undone by
   * replacing the pattern followed by that character with the pattern.
   */
  lemma {:induction false} ReplaceAllRoundTrip(s: string, pat: string, c: char)
    requires |pat| > 0
    ensures ReplaceAll(ReplaceAll(s, pat, pat + [c]), pat + [c], pat) == s
  {
    var long := pat + [c];
    var out := ReplaceAll(s, pat, long);
    if |s| < |pat| {
      assert ReplaceAll(s, long, pat) == s;
    } else if s[..|pat|] == pat {
      ReplaceAllRoundTrip(s[|pat|..], pat, c);
      assert out[..|long|] == long;
      assert out[|long|..] == ReplaceAll(s[|pat|..], pat, long);
    } else {
      var rest := ReplaceAll(s[1..], pat, long);
      ReplaceAllRoundTrip(s[1..], pat, c);
      ReplaceAllLonger(s[1..], pat, c);
      assert out == [s[0]] + rest;
      // the first |pat| characters of `out` are those of `s`, so no match at 0
      ReplaceAllPrefix(s[1..], pat, c, |pat| - 1);
      assert s[1..][..|pat| - 1] == s[1..|pat|];
      assert s[..|pat|] == [s[0]] + s[1..|pat|];
      assert out[..|pat|] == [s[0]] + rest[..|pat| - 1];
      assert long[..|pat|] == pat;
      assert |out| >= |long| ==> out[..|long|][..|pat|] == s[..|pat|];
      assert out[1..] == rest;
    }
  }
}
