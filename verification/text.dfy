/**
 * The Python 2 `str` operations that the configuration code relies on:
 * `s.split(c)`, `s.split()`, `s.strip()`, `s.split(None, 1)` and
 * `s.startswith(p)`, each with the facts about it that the rest of the
 * model uses.
 */
module Text {

  /** Python 2's whitespace for byte strings: space, tab, newline, carriage
      return, vertical tab and form feed. */
  predicate IsSpace(c: char) {
    c == ' ' || c == '\t' || c == '\n' || c == '\r' || c == '\U{B}' || c == '\U{C}'
  }

  predicate NoSpace(s: string) {
    forall i :: 0 <= i < |s| ==> !IsSpace(s[i])
  }

  predicate AllSpace(s: string) {
    forall i :: 0 <= i < |s| ==> IsSpace(s[i])
  }

  /** `s.startswith(p)`. */
  predicate StartsWith(s: string, p: string) {
    p <= s
  }

  /** Number of occurrences of `c` in `s`. */
  function Count(s: string, c: char): nat
    decreases |s|
  {
    if s == [] then 0 else (if s[0] == c then 1 else 0) + Count(s[1..], c)
  }

  /** `c.join(parts)`. */
  function Join(parts: seq<string>, c: char): string
    decreases |parts|
  {
    if parts == [] then ""
    else if |parts| == 1 then parts[0]
    else parts[0] + [c] + Join(parts[1..], c)
  }

  // ---------------------------------------------------------------------
  // s.split(c)
  // ---------------------------------------------------------------------

  /** `s.split(c)` for a one-character separator: the pieces of `s` between
      the occurrences of `c`, so one more piece than there are separators;
      joining them with `c` gives `s` back. */
  function Split(s: string, c: char): (parts: seq<string>)
    ensures |parts| == Count(s, c) + 1
    ensures forall i :: 0 <= i < |parts| ==> c !in parts[i]
    ensures Join(parts, c) == s
    decreases |s|
  {
    if s == [] then [""]
    else
      var rest := Split(s[1..], c);
      if s[0] == c then
        assert ([""] + rest)[1..] == rest;
        [""] + rest
      else
        var parts := [[s[0]] + rest[0]] + rest[1..];
        assert parts[1..] == rest[1..];
        assert s == [s[0]] + s[1..];
        parts
  }

  lemma {:induction false} CountZero(s: string, c: char)
    ensures Count(s, c) == 0 <==> c !in s
    decreases |s|
  {
    if s != [] {
      CountZero(s[1..], c);
      assert s == [s[0]] + s[1..];
    }
  }

  /** A string with exactly one separator splits into the text before it
      and the text after it. */
  lemma {:induction false} SplitAtOnlySeparator(a: string, b: string, c: char)
    requires c !in a && c !in b
    ensures Split(a + [c] + b, c) == [a, b]
    decreases |a|
  {
    var s := a + [c] + b;
    if a == [] {
      assert s[1..] == b;
      CountZero(b, c);
      var rest := Split(b, c);
      assert |rest| == 1 && Join(rest, c) == rest[0];
    } else {
      assert s[1..] == a[1..] + [c] + b;
      SplitAtOnlySeparator(a[1..], b, c);
      assert [a[0]] + a[1..] == a;
    }
  }

  // ---------------------------------------------------------------------
  // Words and whitespace
  // ---------------------------------------------------------------------

  /** Length of the longest prefix of `s` that holds no whitespace. */
  function WordLength(s: string): (n: nat)
    ensures n <= |s| && NoSpace(s[..n])
    ensures n < |s| ==> IsSpace(s[n])
    decreases |s|
  {
    if s == [] || IsSpace(s[0]) then 0
    else
      var n := 1 + WordLength(s[1..]);
      assert forall i :: 1 <= i < n ==> s[..n][i] == s[1..][..n - 1][i - 1];
      n
  }

  lemma {:induction false} WordLengthOfWord(w: string, rest: string)
    requires NoSpace(w)
    requires rest == [] || IsSpace(rest[0])
    ensures WordLength(w + rest) == |w|
    decreases |w|
  {
    if w != [] {
      assert (w + rest)[1..] == w[1..] + rest;
      WordLengthOfWord(w[1..], rest);
    } else {
      assert w + rest == rest;
    }
  }

  /** `s.lstrip()`: `s` without its leading whitespace. */
  function TrimStart(s: string): (r: string)
    ensures |r| <= |s|
    ensures r != [] ==> !IsSpace(r[0])
    decreases |s|
  {
    if s != [] && IsSpace(s[0]) then
      TrimStart(s[1..])
    else s
  }

  lemma {:induction false} TrimStartAfterSpace(gap: string, v: string)
    requires AllSpace(gap)
    requires v == [] || !IsSpace(v[0])
    ensures TrimStart(gap + v) == v
    decreases |gap|
  {
    if gap == [] {
      assert gap + v == v;
    } else {
      assert (gap + v)[0] == gap[0] && (gap + v)[1..] == gap[1..] + v;
      TrimStartAfterSpace(gap[1..], v);
    }
  }

  /** `s.rstrip()`: `s` without its trailing whitespace. */
  function TrimEnd(s: string): (r: string)
    ensures r <= s
    ensures r != [] ==> !IsSpace(r[|r| - 1])
    decreases |s|
  {
    if s != [] && IsSpace(s[|s| - 1]) then TrimEnd(s[..|s| - 1]) else s
  }

  /** What `s.rstrip()` removes is whitespace only. */
  lemma {:induction false} TrailingSpace(s: string) returns (gap: string)
    ensures AllSpace(gap) && s == TrimEnd(s) + gap
    decreases |s|
  {
    if s != [] && IsSpace(s[|s| - 1]) {
      var g := TrailingSpace(s[..|s| - 1]);
      gap := g + [s[|s| - 1]];
      assert s == s[..|s| - 1] + [s[|s| - 1]];
    } else {
      gap := [];
    }
  }

  /** `s.strip()`: `s` without leading or trailing whitespace. */
  function Strip(s: string): (r: string)
    ensures |r| <= |s|
    ensures r == [] || (!IsSpace(r[0]) && !IsSpace(r[|r| - 1]))
  {
    TrimEnd(TrimStart(s))
  }

  /** What `s.strip()` removes on either side is whitespace only. */
  lemma StripShape(s: string) returns (lead: string, trail: string)
    ensures AllSpace(lead) && AllSpace(trail)
    ensures s == lead + Strip(s) + trail
  {
    lead := LeadingSpace(s);
    trail := TrailingSpace(TrimStart(s));
  }

  /** `s.split()`: the maximal runs of non-whitespace characters of `s`,
      in order. */
  function Tokens(s: string): (ts: seq<string>)
    ensures forall i :: 0 <= i < |ts| ==> ts[i] != [] && NoSpace(ts[i])
    decreases |s|
  {
    if s == [] then []
    else if IsSpace(s[0]) then Tokens(s[1..])
    else
      var n := WordLength(s);
      [s[..n]] + Tokens(s[n..])
  }

  lemma {:induction false} TokensOfSpace(s: string)
    requires AllSpace(s)
    ensures Tokens(s) == []
    decreases |s|
  {
    if s != [] {
      TokensOfSpace(s[1..]);
    }
  }

  /** A single whitespace character separates the tokens on its two sides. */
  lemma {:induction false} TokensAcrossSpace(a: string, sp: char, b: string)
    requires IsSpace(sp)
    ensures Tokens(a + [sp] + b) == Tokens(a) + Tokens(b)
    decreases |a|
  {
    var s := a + [sp] + b;
    if a == [] {
      assert s[1..] == b;
    } else if IsSpace(a[0]) {
      assert s[1..] == a[1..] + [sp] + b;
      TokensAcrossSpace(a[1..], sp, b);
    } else {
      var n := WordLength(a);
      assert a == a[..n] + a[n..];
      WordLengthOfWord(a[..n], a[n..] + [sp] + b);
      assert s == a[..n] + (a[n..] + [sp] + b);
      assert s[..n] == a[..n];
      assert s[n..] == a[n..] + [sp] + b;
      TokensAcrossSpace(a[n..], sp, b);
    }
  }

  /** A non-empty word without whitespace is a single token. */
  lemma TokensOfWord(w: string)
    requires w != [] && NoSpace(w)
    ensures Tokens(w) == [w]
  {
    WordLengthOfWord(w, []);
    assert w + [] == w;
  }

  // ---------------------------------------------------------------------
  // s.split(None, 1)
  // ---------------------------------------------------------------------

  /** `s.split(None, 1)`: nothing for a blank string; otherwise the first
      word and, when anything but whitespace follows it, the remainder with
      its leading whitespace removed. */
  function SplitOnce(s: string): (parts: seq<string>)
    ensures |parts| <= 2
    ensures |parts| >= 1 ==> parts[0] != [] && NoSpace(parts[0])
    ensures |parts| == 2 ==> parts[1] != [] && !IsSpace(parts[1][0])
  {
    var t := TrimStart(s);
    if t == [] then []
    else
      var n := WordLength(t);
      var rest := TrimStart(t[n..]);
      if rest == [] then [t[..n]] else [t[..n], rest]
  }

  /** A word, some whitespace and a remainder starting with a non-space
      character split into exactly that word and that remainder. */
  lemma SplitOnceOfFields(k: string, gap: string, v: string)
    requires k != [] && NoSpace(k)
    requires gap != [] && AllSpace(gap)
    requires v != [] && !IsSpace(v[0])
    ensures SplitOnce(k + gap + v) == [k, v]
  {
    var s := k + gap + v;
    assert s == k + (gap + v);
    WordLengthOfWord(k, gap + v);
    assert s[..|k|] == k && s[|k|..] == gap + v;
    TrimStartAfterSpace(gap, v);
  }

  /** When `s.split(None, 1)` yields two fields, `s` is (after its leading
      whitespace) the first field, a non-empty run of whitespace and the
      second field. */
  lemma SplitOnceShape(s: string) returns (gap: string)
    requires |SplitOnce(s)| == 2
    ensures gap != [] && AllSpace(gap)
    ensures TrimStart(s) == SplitOnce(s)[0] + gap + SplitOnce(s)[1]
  {
    var t := TrimStart(s);
    var n := WordLength(t);
    assert SplitOnce(s) == [t[..n], TrimStart(t[n..])];
    gap := WordThenSpace(t, n);
  }

  lemma WordThenSpace(t: string, n: nat) returns (gap: string)
    requires n < |t| && IsSpace(t[n])
    ensures gap != [] && AllSpace(gap)
    ensures t == t[..n] + gap + TrimStart(t[n..])
  {
    var u := t[n..];
    gap := LeadingSpace(u);
    assert u[0] == t[n];
    assert t == t[..n] + u;
    assert t[..n] + gap + TrimStart(u) == t[..n] + (gap + TrimStart(u));
  }

  /** What `s.lstrip()` removes is whitespace only. */
  lemma {:induction false} LeadingSpace(s: string) returns (gap: string)
    ensures AllSpace(gap) && s == gap + TrimStart(s)
    ensures s != [] && IsSpace(s[0]) ==> gap != []
    decreases |s|
  {
    if s != [] && IsSpace(s[0]) {
      var g := LeadingSpace(s[1..]);
      gap := [s[0]] + g;
      assert s == [s[0]] + s[1..];
    } else {
      gap := [];
    }
  }
}
