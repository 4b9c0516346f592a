/** String helpers used by the prompt, log and request code: decimal digits, ASCII case, join. */
module Text {

  function DigitChar(d: nat): (c: char)
    requires d < 10
    ensures '0' <= c <= '9'
  {
    (48 + d) as char
  }

  /** The decimal rendering of a natural number, as JavaScript's template literals print it. */
  function NatToString(n: nat): (s: string)
    ensures |s| > 0
    ensures forall i :: 0 <= i < |s| ==> '0' <= s[i] <= '9'
    ensures n < 10 <==> |s| == 1
  {
    if n < 10 then [DigitChar(n)] else NatToString(n / 10) + [DigitChar(n % 10)]
  }

  /** Different numbers print differently, so counters yield distinct names. */
  lemma {:induction false} NatToStringInjective(m: nat, n: nat)
    requires NatToString(m) == NatToString(n)
    ensures m == n
  {
    if m >= 10 && n >= 10 {
      var sm, sn := NatToString(m), NatToString(n);
      assert sm[|sm| - 1] == DigitChar(m % 10) && sn[|sn| - 1] == DigitChar(n % 10);
      assert NatToString(m / 10) == sm[..|sm| - 1] == sn[..|sn| - 1] == NatToString(n / 10);
      NatToStringInjective(m / 10, n / 10);
    }
  }

  /** A fixed prefix followed by a number names that number uniquely. */
  lemma PrefixedNumberInjective(prefix: string, m: nat, n: nat)
    requires prefix + NatToString(m) == prefix + NatToString(n)
    ensures m == n
  {
    assert NatToString(m) == (prefix + NatToString(m))[|prefix|..];
    assert NatToString(n) == (prefix + NatToString(n))[|prefix|..];
    NatToStringInjective(m, n);
  }

  /** An integer in decimal, with a leading '-' when negative. */
  function IntToString(i: int): (s: string)
    ensures i >= 0 ==> s == NatToString(i)
    ensures i < 0 ==> s == "-" + NatToString(-i)
  {
    if i >= 0 then NatToString(i) else "-" + NatToString(-i)
  }

  function LowerChar(c: char): (r: char)
    ensures !('A' <= r <= 'Z')
    ensures !('A' <= c <= 'Z') ==> r == c
  {
    if 'A' <= c <= 'Z' then (c as int + 32) as char else c
  }

  /** `toLowerCase` on the ASCII letters; every other character is kept. */
  function AsciiLower(s: string): (r: string)
    ensures |r| == |s|
    ensures forall i :: 0 <= i < |s| ==> r[i] == LowerChar(s[i])
  {
    if s == [] then [] else [LowerChar(s[0])] + AsciiLower(s[1..])
  }

  /** A string without upper-case ASCII letters is its own lower case. */
  lemma AsciiLowerKeeps(s: string)
    requires forall i :: 0 <= i < |s| ==> !('A' <= s[i] <= 'Z')
    ensures AsciiLower(s) == s
  {
  }

  /** Lowering twice is lowering once. */
  lemma AsciiLowerIdempotent(s: string)
    ensures AsciiLower(AsciiLower(s)) == AsciiLower(s)
  {
  }

  /** `parts.join(sep)`: the parts with `sep` between consecutive ones. */
  function Join(parts: seq<string>, sep: string): (r: string)
    ensures parts == [] ==> r == []
    ensures |parts| == 1 ==> r == parts[0]
  {
    if parts == [] then []
    else if |parts| == 1 then parts[0]
    else parts[0] + sep + Join(parts[1..], sep)
  }

  /** A character found in neither the parts nor the separator is not in their join. */
  lemma {:induction false} JoinAvoids(parts: seq<string>, sep: string, c: char)
    requires forall i :: 0 <= i < |parts| ==> c !in parts[i]
    requires c !in sep
    ensures c !in Join(parts, sep)
  {
    if |parts| > 1 {
      JoinAvoids(parts[1..], sep, c);
    }
  }

  /** The text before the first `c` in `s` (all of `s` when there is none). */
  function UpTo(s: string, c: char): (r: string)
    ensures c !in r
    ensures |r| <= |s| && r == s[..|r|]
    ensures |r| < |s| ==> s[|r|] == c
  {
    if s == [] || s[0] == c then [] else [s[0]] + UpTo(s[1..], c)
  }

  /** `s.split(c)` for a single-character separator. */
  function Split(s: string, c: char): (r: seq<string>)
    ensures |r| > 0
    ensures forall i :: 0 <= i < |r| ==> c !in r[i]
    decreases |s|
  {
    var head := UpTo(s, c);
    if |head| == |s| then [s] else [head] + Split(s[|head| + 1..], c)
  }

  lemma UpToJoined(line: string, rest: string, c: char)
    requires c !in line
    ensures UpTo(line + [c] + rest, c) == line
  {
    if line != [] {
      assert (line + [c] + rest)[1..] == line[1..] + [c] + rest;
      UpToJoined(line[1..], rest, c);
    }
  }

  lemma UpToWhole(line: string, c: char)
    requires c !in line
    ensures UpTo(line, c) == line
  {
  }

  /** Splitting a newline-joined text gives the lines back when no line holds the separator. */
  lemma {:induction false} SplitJoin(lines: seq<string>, c: char)
    requires |lines| > 0
    requires forall i :: 0 <= i < |lines| ==> c !in lines[i]
    ensures Split(Join(lines, [c]), c) == lines
  {
    if |lines| == 1 {
      UpToWhole(lines[0], c);
    } else {
      var rest := Join(lines[1..], [c]);
      var s := lines[0] + [c] + rest;
      assert Join(lines, [c]) == s;
      UpToJoined(lines[0], rest, c);
      assert s[|lines[0]| + 1..] == rest;
      SplitJoin(lines[1..], c);
    }
  }

  /** Removes every trailing occurrence of `c` (the regex replace `/c+$/` with ''). */
  function StripTrailing(s: string, c: char): (r: string)
    ensures |r| <= |s| && r == s[..|r|]
    ensures r == [] || r[|r| - 1] != c
    ensures forall i :: |r| <= i < |s| ==> s[i] == c
  {
    if s == [] || s[|s| - 1] != c then s else StripTrailing(s[..|s| - 1], c)
  }

  /** `n` copies of `c`. */
  function Repeat(c: char, n: nat): (r: string)
    ensures |r| == n
    ensures forall i :: 0 <= i < n ==> r[i] == c
  {
    if n == 0 then [] else Repeat(c, n - 1) + [c]
  }

  /** Extra copies of `c` at the end make no difference once trailing `c`s are removed. */
  lemma {:induction false} StripTrailingRepeat(s: string, c: char, n: nat)
    ensures StripTrailing(s + Repeat(c, n), c) == StripTrailing(s, c)
  {
    if n == 0 {
      assert s + Repeat(c, 0) == s;
    } else {
      var t := s + Repeat(c, n);
      assert t[..|t| - 1] == s + Repeat(c, n - 1);
      StripTrailingRepeat(s, c, n - 1);
    }
  }

  /** Removes leading and trailing spaces. */
  function TrimSpaces(s: string): (r: string)
    ensures r == [] || (r[0] != ' ' && r[|r| - 1] != ' ')
    decreases |s|
  {
    if s == [] then []
    else if s[0] == ' ' then TrimSpaces(s[1..])
    else if s[|s| - 1] == ' ' then TrimSpaces(s[..|s| - 1])
    else s
  }

  /** `r` is `s[i..j]`, and everything of `s` before `i` and from `j` on is a space. */
  predicate CutAt(s: string, r: string, i: nat, j: nat) {
    i <= j <= |s| && r == s[i..j] &&
    (forall k :: 0 <= k < i ==> s[k] == ' ') && (forall k :: j <= k < |s| ==> s[k] == ' ')
  }

  /** What trimming keeps is a slice of the text, cut off only at spaces. */
  lemma {:induction false} TrimSpacesSlice(s: string)
    ensures exists i: nat, j: nat :: CutAt(s, TrimSpaces(s), i, j)
    decreases |s|
  {
    if s == [] {
      assert CutAt(s, TrimSpaces(s), 0, 0);
    } else if s[0] == ' ' {
      var t := s[1..];
      TrimSpacesSlice(t);
      var i: nat, j: nat :| CutAt(t, TrimSpaces(t), i, j);
      forall k | 0 <= k < |t| ensures t[k] == s[k + 1] { }
      assert CutAt(s, TrimSpaces(s), i + 1, j + 1);
    } else if s[|s| - 1] == ' ' {
      var t := s[..|s| - 1];
      TrimSpacesSlice(t);
      var i: nat, j: nat :| CutAt(t, TrimSpaces(t), i, j);
      forall k | 0 <= k < |t| ensures t[k] == s[k] { }
      assert CutAt(s, TrimSpaces(s), i, j);
    } else {
      assert CutAt(s, TrimSpaces(s), 0, |s|);
    }
  }

  /** Trimming a text with no space at either end leaves it as it is. */
  lemma TrimSpacesKeeps(s: string)
    requires s != [] && s[0] != ' ' && s[|s| - 1] != ' '
    ensures TrimSpaces(s) == s
  {
  }

  /** Trimming a text behind one leading space, with no space at either end, drops that space. */
  lemma TrimSpacesLeading(s: string)
    requires s != [] && s[0] != ' ' && s[|s| - 1] != ' '
    ensures TrimSpaces(" " + s) == s
  {
    assert (" " + s)[1..] == s;
  }
}
