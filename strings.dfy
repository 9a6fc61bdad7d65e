/**
 * String operations the source takes from its runtime libraries, written out on
 * `seq<char>`: ASCII case mapping, JavaScript `split` on one character, Python's
 * argument-less `str.split()`, substring tests and Python's `str.replace(p, "")`.
 */
module Strings {

  predicate IsAsciiUpper(c: char) { 'A' <= c <= 'Z' }
  predicate IsAsciiLower(c: char) { 'a' <= c <= 'z' }

  function UpperChar(c: char): (r: char)
    ensures !IsAsciiLower(r)
    ensures !IsAsciiLower(c) ==> r == c
  {
    if IsAsciiLower(c) then (c as int - 32) as char else c
  }

  function LowerChar(c: char): (r: char)
    ensures !IsAsciiUpper(r)
    ensures !IsAsciiUpper(c) ==> r == c
  {
    if IsAsciiUpper(c) then (c as int + 32) as char else c
  }

  /** `String.prototype.toUpperCase` / `str.upper` restricted to ASCII letters. */
  function ToUpper(s: string): (r: string)
    ensures |r| == |s|
    ensures forall i :: 0 <= i < |s| ==> r[i] == UpperChar(s[i])
  {
    seq(|s|, i requires 0 <= i < |s| => UpperChar(s[i]))
  }

  /** `String.prototype.toLowerCase` / `str.lower` restricted to ASCII letters. */
  function ToLower(s: string): (r: string)
    ensures |r| == |s|
    ensures forall i :: 0 <= i < |s| ==> r[i] == LowerChar(s[i])
  {
    seq(|s|, i requires 0 <= i < |s| => LowerChar(s[i]))
  }

  /** A string with no upper-case letter is its own lower-case form. */
  lemma LowerOfLower(s: string)
    requires forall i :: 0 <= i < |s| ==> !IsAsciiUpper(s[i])
    ensures ToLower(s) == s
  {
  }

  lemma ToUpperIdempotent(s: string)
    ensures ToUpper(ToUpper(s)) == ToUpper(s)
  {
  }

  predicate StartsWith(s: string, p: string) { |p| <= |s| && s[..|p|] == p }

  /** Substring test (`p in s` in Python, `s.includes(p)` in JavaScript). */
  predicate Contains(s: string, p: string)
    decreases |s|
  {
    StartsWith(s, p) || (s != [] && Contains(s[1..], p))
  }

  lemma ContainsAt(s: string, p: string, i: nat)
    requires i + |p| <= |s| && s[i..i + |p|] == p
    ensures Contains(s, p)
    decreases i
  {
    if i > 0 {
      assert s[1..][i - 1..i - 1 + |p|] == p;
      ContainsAt(s[1..], p, i - 1);
    }
  }

  /**
   * Python's `s.replace(p, "")`: every non-overlapping occurrence of `p`, found
   * from left to right, is removed.
   */
  function RemoveAll(s: string, p: string): (r: string)
    requires p != []
    ensures |r| <= |s|
    decreases |s|
  {
    if |s| < |p| then s
    else if s[..|p|] == p then RemoveAll(s[|p|..], p)
    else [s[0]] + RemoveAll(s[1..], p)
  }

  lemma {:induction false} RemoveAllAbsent(s: string, p: string)
    requires p != [] && !Contains(s, p)
    ensures RemoveAll(s, p) == s
    decreases |s|
  {
    if |s| >= |p| {
      assert s[..|p|] != p;
      RemoveAllAbsent(s[1..], p);
    }
  }

  /** A removed occurrence at the front leaves the rest of the string to be scanned. */
  lemma RemoveAllPrefix(s: string, p: string)
    requires p != [] && StartsWith(s, p)
    ensures RemoveAll(s, p) == RemoveAll(s[|p|..], p)
  {
  }

  // ---------------------------------------------------------------------------
  // JavaScript `s.split(c)` for a one-character separator.

  function JsSplit(s: string, sep: char): (r: seq<string>)
    ensures |r| >= 1
    ensures forall i :: 0 <= i < |r| ==> sep !in r[i]
    decreases |s|
  {
    if s == [] then [""]
    else
      var rest := JsSplit(s[1..], sep);
      if s[0] == sep then [""] + rest
      else [[s[0]] + rest[0]] + rest[1..]
  }

  function Join(parts: seq<string>, sep: char): string
    requires |parts| >= 1
  {
    if |parts| == 1 then parts[0] else parts[0] + [sep] + Join(parts[1..], sep)
  }

  /** Splitting loses nothing: joining the pieces with the separator gives the input back. */
  lemma {:induction false} JoinSplit(s: string, sep: char)
    ensures Join(JsSplit(s, sep), sep) == s
    decreases |s|
  {
    if s != [] {
      var rest := JsSplit(s[1..], sep);
      JoinSplit(s[1..], sep);
      if s[0] == sep {
        assert JsSplit(s, sep) == [""] + rest;
        assert JsSplit(s, sep)[1..] == rest;
      } else {
        var r := JsSplit(s, sep);
        assert r == [[s[0]] + rest[0]] + rest[1..];
        if |rest| == 1 {
          assert r == [[s[0]] + rest[0]];
        } else {
          assert r[1..] == rest[1..];
          assert Join(rest, sep) == rest[0] + [sep] + Join(rest[1..], sep);
        }
      }
    }
  }

  /** A string without the separator is one piece. */
  lemma {:induction false} SplitWithoutSeparator(s: string, sep: char)
    requires sep !in s
    ensures JsSplit(s, sep) == [s]
    decreases |s|
  {
    if s != [] {
      assert sep !in s[1..];
      SplitWithoutSeparator(s[1..], sep);
      assert [s[0]] + s[1..] == s;
    }
  }

  /** A separator followed by text: the piece before, then the pieces of the remainder. */
  lemma {:induction false} SplitAppend(a: string, sep: char, b: string)
    requires sep !in a
    ensures JsSplit(a + [sep] + b, sep) == [a] + JsSplit(b, sep)
    decreases |a|
  {
    if a == [] {
      assert [] + [sep] + b == [sep] + b;
      assert ([sep] + b)[1..] == b;
    } else {
      assert (a + [sep] + b)[1..] == a[1..] + [sep] + b;
      assert sep !in a[1..];
      SplitAppend(a[1..], sep, b);
      assert [a[0]] + a[1..] == a;
    }
  }

  // ---------------------------------------------------------------------------
  // Python `s.split()` with no argument.

  /** The characters Python's `str.isspace` accepts. */
  predicate IsPySpace(c: char)
  {
    || c == ' ' || ('\t' <= c <= '\r') || ('\U{1c}' <= c <= '\U{1f}')
    || c == '\U{85}' || c == '\U{a0}' || c == '\U{1680}' || ('\U{2000}' <= c <= '\U{200a}')
    || c == '\U{2028}' || c == '\U{2029}' || c == '\U{202f}' || c == '\U{205f}' || c == '\U{3000}'
  }

  function SkipSpaces(s: string): (r: string)
    ensures |r| <= |s| && r == s[|s| - |r|..]
    ensures r == [] || !IsPySpace(r[0])
  {
    if s != [] && IsPySpace(s[0]) then SkipSpaces(s[1..]) else s
  }

  function Word(s: string): (r: string)
    ensures |r| <= |s| && r == s[..|r|]
    ensures forall i :: 0 <= i < |r| ==> !IsPySpace(r[i])
    ensures |r| < |s| ==> IsPySpace(s[|r|])
  {
    if s != [] && !IsPySpace(s[0]) then [s[0]] + Word(s[1..]) else []
  }

  /** Maximal runs of non-whitespace characters, in order. */
  function PySplit(s: string): (r: seq<string>)
    decreases |s|
  {
    var t := SkipSpaces(s);
    if t == [] then []
    else
      var w := Word(t);
      assert |w| >= 1 by { assert !IsPySpace(t[0]); }
      [w] + PySplit(t[|w|..])
  }

  predicate AllSpaces(s: string) { forall i :: 0 <= i < |s| ==> IsPySpace(s[i]) }

  lemma {:induction false} SkipAllSpaces(sp: string, s: string)
    requires AllSpaces(sp)
    ensures SkipSpaces(sp + s) == SkipSpaces(s)
    decreases |sp|
  {
    if sp != [] {
      assert (sp + s)[1..] == sp[1..] + s;
      SkipAllSpaces(sp[1..], s);
    } else {
      assert sp + s == s;
    }
  }

  /** Leading whitespace does not change the fields. */
  lemma LeadingSpacesIgnored(sp: string, s: string)
    requires AllSpaces(sp)
    ensures PySplit(sp + s) == PySplit(s)
  {
    SkipAllSpaces(sp, s);
  }

  lemma {:induction false} WordBeforeSpaces(w: string, sp: string)
    requires sp == [] || IsPySpace(sp[0])
    requires forall i :: 0 <= i < |w| ==> !IsPySpace(w[i])
    ensures Word(w + sp) == w
    decreases |w|
  {
    if w == [] {
      assert w + sp == sp;
    } else {
      assert (w + sp)[1..] == w[1..] + sp;
      WordBeforeSpaces(w[1..], sp);
      assert [w[0]] + w[1..] == w;
    }
  }

  lemma {:induction false} SkipSpacesAppend(s: string, sp: string)
    requires AllSpaces(sp)
    ensures SkipSpaces(s + sp) == [] <==> SkipSpaces(s) == []
    ensures SkipSpaces(s) != [] ==> SkipSpaces(s + sp) == SkipSpaces(s) + sp
    decreases |s|
  {
    if s == [] {
      assert s + sp == sp;
      SkipAllSpaces(sp, []);
      assert sp + [] == sp;
    } else if IsPySpace(s[0]) {
      assert (s + sp)[0] == s[0];
      assert (s + sp)[1..] == s[1..] + sp;
      SkipSpacesAppend(s[1..], sp);
    } else {
      assert (s + sp)[0] == s[0];
    }
  }

  lemma {:induction false} WordAppend(t: string, sp: string)
    requires AllSpaces(sp)
    ensures Word(t + sp) == Word(t)
    decreases |t|
  {
    if t == [] {
      assert t + sp == sp;
    } else {
      assert (t + sp)[1..] == t[1..] + sp;
      if !IsPySpace(t[0]) {
        WordAppend(t[1..], sp);
      }
    }
  }

  /** Trailing whitespace does not change the fields either. */
  lemma {:induction false} TrailingSpacesIgnored(s: string, sp: string)
    requires AllSpaces(sp)
    ensures PySplit(s + sp) == PySplit(s)
    decreases |s|
  {
    SkipSpacesAppend(s, sp);
    var t := SkipSpaces(s);
    if t != [] {
      var rest := t[|Word(t)|..];
      FirstFieldWithTrailing(s, sp);
      TrailingSpacesIgnored(rest, sp);
    }
  }

  /** With trailing whitespace, the first field is the same and the rest keeps the whitespace. */
  lemma FirstFieldWithTrailing(s: string, sp: string)
    requires AllSpaces(sp) && SkipSpaces(s) != []
    ensures var t := SkipSpaces(s); var w := Word(t);
      |t[|w|..]| < |s| &&
      PySplit(s) == [w] + PySplit(t[|w|..]) &&
      PySplit(s + sp) == [w] + PySplit(t[|w|..] + sp)
  {
    var t := SkipSpaces(s);
    SkipSpacesAppend(s, sp);
    var w := Word(t);
    WordAppend(t, sp);
    assert |w| >= 1 by { assert !IsPySpace(t[0]); }
    DropAppend(t, sp, |w|);
    PySplitStep(s + sp, t + sp, w);
    PySplitStep(s, t, w);
  }

  lemma DropAppend(t: string, sp: string, k: nat)
    requires k <= |t|
    ensures (t + sp)[k..] == t[k..] + sp
  {
  }

  lemma PySplitStep(s: string, t: string, w: string)
    requires t == SkipSpaces(s) && t != [] && w == Word(t)
    ensures PySplit(s) == [w] + PySplit(t[|w|..])
  {
  }
}
