/**
 * The few Python string built-ins the shell relies on: the whitespace class
 * of `str.isspace`, `str.strip()`, `str.split()` with no separator, and the
 * slice `s[n:]`. Strings are sequences of code points.
 */
module PyStr {

  /** Python's `str.isspace` for one code point: the characters that `strip()`
      and `split()` (with no argument) treat as whitespace. */
  predicate IsSpace(c: char) {
    var n := c as int;
    (0x09 <= n <= 0x0d) || (0x1c <= n <= 0x20) || n == 0x85 || n == 0xa0 ||
    n == 0x1680 || (0x2000 <= n <= 0x200a) || n == 0x2028 || n == 0x2029 ||
    n == 0x202f || n == 0x205f || n == 0x3000
  }

  predicate AllSpace(s: string) {
    forall i :: 0 <= i < |s| ==> IsSpace(s[i])
  }

  predicate NoSpace(s: string) {
    forall i :: 0 <= i < |s| ==> !IsSpace(s[i])
  }

  /** A token as `split()` produces it: non-empty, without whitespace. */
  predicate IsWord(s: string) {
    s != [] && NoSpace(s)
  }

  /** `s.lstrip()`: drops the leading whitespace. */
  function LStrip(s: string): string {
    if s != [] && IsSpace(s[0]) then LStrip(s[1..]) else s
  }

  /** `s.rstrip()`: drops the trailing whitespace. */
  function RStrip(s: string): string {
    if s != [] && IsSpace(s[|s| - 1]) then RStrip(s[..|s| - 1]) else s
  }

  /** `s.strip()`: drops whitespace at both ends. */
  function Strip(s: string): string {
    RStrip(LStrip(s))
  }

  /** `lstrip()` keeps a suffix of `s`: what it drops is whitespace, and what
      it keeps does not begin with whitespace. */
  lemma {:induction false} LStripSpec(s: string)
    ensures var r := LStrip(s);
      |r| <= |s| && r == s[|s| - |r|..] &&
      (forall i :: 0 <= i < |s| - |r| ==> IsSpace(s[i])) &&
      (r == [] || !IsSpace(r[0]))
    decreases |s|
  {
    if s != [] && IsSpace(s[0]) {
      LStripSpec(s[1..]);
      var r := LStrip(s);
      assert r == LStrip(s[1..]);
      forall i | 0 <= i < |s| - |r| ensures IsSpace(s[i]) {
        if i > 0 { assert s[i] == s[1..][i - 1]; }
      }
    }
  }

  /** `rstrip()` keeps a prefix of `s`: what it drops is whitespace, and what
      it keeps does not end with whitespace. */
  lemma {:induction false} RStripSpec(s: string)
    ensures var r := RStrip(s);
      |r| <= |s| && r == s[..|r|] &&
      (forall i :: |r| <= i < |s| ==> IsSpace(s[i])) &&
      (r == [] || !IsSpace(r[|r| - 1]))
    decreases |s|
  {
    if s != [] && IsSpace(s[|s| - 1]) {
      var p := s[..|s| - 1];
      RStripSpec(p);
      var r := RStrip(s);
      assert r == RStrip(p);
      forall i | |r| <= i < |s| ensures IsSpace(s[i]) {
        if i < |s| - 1 { assert s[i] == p[i]; }
      }
    }
  }

  /** `strip()` returns the empty string exactly for a blank `s`, and
      otherwise a text that begins and ends with a non-space. */
  lemma StripSpec(s: string)
    ensures var r := Strip(s);
      |r| <= |s| && (r == [] <==> AllSpace(s)) &&
      (r == [] || (!IsSpace(r[0]) && !IsSpace(r[|r| - 1])))
  {
    var l := LStrip(s);
    var r := RStrip(l);
    LStripSpec(s);
    RStripSpec(l);
    if r == [] {
      assert l == [];
    } else {
      assert s[|s| - |l|] == l[0] == r[0];
    }
  }

  /** The longest prefix of `s` that holds no whitespace. */
  function WordPrefix(s: string): (w: string)
    ensures |w| <= |s| && w == s[..|w|]
    ensures NoSpace(w)
    ensures |w| < |s| ==> IsSpace(s[|w|])
  {
    if s == [] || IsSpace(s[0]) then [] else [s[0]] + WordPrefix(s[1..])
  }

  /** `s.split()`: the maximal runs of non-whitespace characters, in order. */
  function Split(s: string): (parts: seq<string>)
    ensures forall i :: 0 <= i < |parts| ==> IsWord(parts[i])
    decreases |s|
  {
    if s == [] then []
    else if IsSpace(s[0]) then Split(s[1..])
    else
      var w := WordPrefix(s);
      [w] + Split(s[|w|..])
  }

  /** `" ".join(words)`, the inverse of `Split` on well-formed tokens. */
  function JoinSpace(words: seq<string>): string {
    if |words| == 0 then []
    else if |words| == 1 then words[0]
    else words[0] + " " + JoinSpace(words[1..])
  }

  /** The slice `s[n:]` for a non-negative `n`: the suffix after the first `n`
      characters, empty when `s` is not longer than `n`. */
  function Drop(s: string, n: nat): (r: string)
    ensures |r| == if |s| <= n then 0 else |s| - n
    ensures s == s[..|s| - |r|] + r
  {
    if |s| <= n then [] else s[n..]
  }

  lemma {:induction false} SplitBlankIff(s: string)
    ensures Split(s) == [] <==> AllSpace(s)
    decreases |s|
  {
    if s != [] {
      if IsSpace(s[0]) {
        SplitBlankIff(s[1..]);
        assert AllSpace(s) <==> AllSpace(s[1..]) by {
          if AllSpace(s[1..]) {
            forall i | 0 <= i < |s| ensures IsSpace(s[i]) {
              if i > 0 { assert s[i] == s[1..][i - 1]; }
            }
          }
        }
      }
    }
  }

  lemma {:induction false} WordPrefixStops(w: string, t: string)
    requires NoSpace(w)
    requires t == [] || IsSpace(t[0])
    ensures WordPrefix(w + t) == w
    decreases |w|
  {
    if w == [] {
      assert w + t == t;
    } else {
      assert (w + t)[1..] == w[1..] + t;
      WordPrefixStops(w[1..], t);
    }
  }

  lemma {:induction false} SplitLeadingSpace(a: string, t: string)
    requires AllSpace(a)
    ensures Split(a + t) == Split(t)
    decreases |a|
  {
    if a == [] {
      assert a + t == t;
    } else {
      assert (a + t)[1..] == a[1..] + t;
      SplitLeadingSpace(a[1..], t);
    }
  }

  lemma {:induction false} SplitTrailingSpace(s: string, b: string)
    requires AllSpace(b)
    ensures Split(s + b) == Split(s)
    decreases |s|
  {
    if s == [] {
      assert s + b == b;
      SplitBlankIff(b);
    } else if IsSpace(s[0]) {
      assert (s + b)[1..] == s[1..] + b;
      SplitTrailingSpace(s[1..], b);
    } else {
      var w := WordPrefix(s);
      var rest := s[|w|..];
      assert s == w + rest;
      assert s + b == w + (rest + b);
      if rest == [] {
        assert b == [] || IsSpace(b[0]);
        WordPrefixStops(w, rest + b);
      } else {
        WordPrefixStops(w, rest + b);
      }
      assert (s + b)[|w|..] == rest + b;
      SplitTrailingSpace(rest, b);
    }
  }

  lemma SplitOfLStrip(s: string)
    ensures Split(LStrip(s)) == Split(s)
  {
    LStripSpec(s);
    var l := LStrip(s);
    var a := s[..|s| - |l|];
    assert s == a + l;
    assert AllSpace(a);
    SplitLeadingSpace(a, l);
  }

  lemma SplitOfRStrip(s: string)
    ensures Split(RStrip(s)) == Split(s)
  {
    RStripSpec(s);
    var r := RStrip(s);
    var b := s[|r|..];
    assert s == r + b;
    assert AllSpace(b);
    SplitTrailingSpace(r, b);
  }

  /** `line.strip().split()` and `line.split()` give the same tokens. */
  lemma SplitOfStrip(s: string)
    ensures Split(Strip(s)) == Split(s)
  {
    SplitOfLStrip(s);
    SplitOfRStrip(LStrip(s));
  }

  /** Splitting the space-joined tokens gives the tokens back. */
  lemma {:induction false} SplitJoin(words: seq<string>)
    requires forall i :: 0 <= i < |words| ==> IsWord(words[i])
    ensures Split(JoinSpace(words)) == words
    decreases |words|
  {
    if |words| == 1 {
      var w := words[0];
      WordPrefixStops(w, []);
      assert w + [] == w;
      assert w[|w|..] == [];
    } else if |words| > 1 {
      var w := words[0];
      var rest := JoinSpace(words[1..]);
      var s := w + " " + rest;
      assert s == w + (" " + rest);
      WordPrefixStops(w, " " + rest);
      assert s[|w|..] == " " + rest;
      assert (" " + rest)[1..] == rest;
      SplitJoin(words[1..]);
      assert words == [w] + words[1..];
    }
  }

  lemma {:induction false} LStripPadded(a: string, t: string)
    requires AllSpace(a)
    requires t == [] || !IsSpace(t[0])
    ensures LStrip(a + t) == t
    decreases |a|
  {
    if a == [] {
      assert a + t == t;
    } else {
      assert (a + t)[1..] == a[1..] + t;
      LStripPadded(a[1..], t);
    }
  }

  lemma {:induction false} RStripPadded(t: string, b: string)
    requires AllSpace(b)
    requires t == [] || !IsSpace(t[|t| - 1])
    ensures RStrip(t + b) == t
    decreases |b|
  {
    if b == [] {
      assert t + b == t;
    } else {
      assert (t + b)[..|t + b| - 1] == t + b[..|b| - 1];
      RStripPadded(t, b[..|b| - 1]);
    }
  }

  /** `strip()` recovers a text that neither begins nor ends with whitespace
      from any whitespace padding around it. */
  lemma StripPadded(a: string, t: string, b: string)
    requires AllSpace(a) && AllSpace(b)
    requires t == [] || (!IsSpace(t[0]) && !IsSpace(t[|t| - 1]))
    ensures Strip(a + t + b) == t
  {
    if t == [] {
      assert a + t + b == a + b;
      assert AllSpace(a + b) by {
        forall i | 0 <= i < |a + b| ensures IsSpace((a + b)[i]) {
          if i >= |a| { assert (a + b)[i] == b[i - |a|]; }
        }
      }
      StripSpec(a + b);
    } else {
      assert a + t + b == a + (t + b);
      LStripPadded(a, t + b);
      RStripPadded(t, b);
    }
  }
}
