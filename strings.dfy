/** The JavaScript string operations the request pipeline relies on:
    `String.prototype.trim`, `String.prototype.split` with a one-character
    separator, `Array.prototype.join`, and substring containment (used to
    state what a composed prompt holds). */
module Strings {

  /** The characters `trim` removes: the WhiteSpace and LineTerminator code
      points of the ECMAScript language specification (section 12.2 and 12.3
      of ECMA-262). */
  const WHITE_CHARS: set<char> := {
    '\t', '\n', '\U{000B}', '\U{000C}', '\r', ' ', '\U{00A0}', '\U{1680}',
    '\U{2000}', '\U{2001}', '\U{2002}', '\U{2003}', '\U{2004}', '\U{2005}',
    '\U{2006}', '\U{2007}', '\U{2008}', '\U{2009}', '\U{200A}',
    '\U{2028}', '\U{2029}', '\U{202F}', '\U{205F}', '\U{3000}', '\U{FEFF}'
  }

  predicate IsWhite(c: char) {
    c in WHITE_CHARS
  }

  /** Every character of `s` at an index from `lo` up to `hi` is white. */
  predicate WhiteBetween(s: string, lo: int, hi: int)
    requires 0 <= lo && hi <= |s|
  {
    forall i :: lo <= i < hi ==> IsWhite(s[i])
  }

  predicate AllWhite(s: string) {
    WhiteBetween(s, 0, |s|)
  }

  /** True when `s` neither starts nor ends with a white character. */
  predicate Unpadded(s: string) {
    s == [] || (!IsWhite(s[0]) && !IsWhite(s[|s| - 1]))
  }

  /** The length of the white run at the front of `s`. */
  function LeadingWhite(s: string): (n: nat)
    ensures n <= |s| && WhiteBetween(s, 0, n)
    ensures n < |s| ==> !IsWhite(s[n])
  {
    if |s| > 0 && IsWhite(s[0]) then 1 + LeadingWhite(s[1..]) else 0
  }

  /** The length of the white run at the back of `s`. */
  function TrailingWhite(s: string): (n: nat)
    ensures n <= |s| && WhiteBetween(s, |s| - n, |s|)
    ensures n < |s| ==> !IsWhite(s[|s| - 1 - n])
  {
    if |s| > 0 && IsWhite(s[|s| - 1]) then 1 + TrailingWhite(s[..|s| - 1]) else 0
  }

  /** `s.trim()`: the contiguous block of `s` left after removing the white
      runs at both ends; the block neither starts nor ends with white, and
      only white characters follow it. */
  function Trim(s: string): (r: string)
    ensures Unpadded(r)
    ensures var lo := LeadingWhite(s);
      lo + |r| <= |s| && r == s[lo..lo + |r|] && WhiteBetween(s, lo + |r|, |s|)
  {
    var lo := LeadingWhite(s);
    if lo == |s| then ""
    else
      var hi := |s| - TrailingWhite(s);
      assert lo < hi;
      s[lo..hi]
  }

  lemma {:induction false} LeadingWhiteOf(a: string, r: string)
    requires AllWhite(a) && (r == [] || !IsWhite(r[0]))
    ensures LeadingWhite(a + r) == |a|
    decreases |a|
  {
    if a == [] {
      assert a + r == r;
    } else {
      assert (a + r)[1..] == a[1..] + r;
      assert (a + r)[0] == a[0];
      LeadingWhiteOf(a[1..], r);
    }
  }

  lemma {:induction false} TrailingWhiteOf(r: string, b: string)
    requires AllWhite(b) && (r == [] || !IsWhite(r[|r| - 1]))
    ensures TrailingWhite(r + b) == |b|
    decreases |b|
  {
    if b == [] {
      assert r + b == r;
    } else {
      assert (r + b)[..|r + b| - 1] == r + b[..|b| - 1];
      assert (r + b)[|r + b| - 1] == b[|b| - 1];
      TrailingWhiteOf(r, b[..|b| - 1]);
    }
  }

  /** `trim` is characterised uniquely: padding `r` with white characters on
      both sides and trimming gives back exactly `r`, provided `r` has no
      white character at either end. */
  lemma TrimOfPadded(a: string, r: string, b: string)
    requires AllWhite(a) && AllWhite(b) && Unpadded(r)
    ensures Trim(a + r + b) == r
  {
    var s := a + r + b;
    if r == [] {
      assert s == (a + b) + [];
      assert AllWhite(a + b) by {
        forall i | 0 <= i < |a + b| ensures IsWhite((a + b)[i]) {
          if i >= |a| { assert (a + b)[i] == b[i - |a|]; }
        }
      }
      LeadingWhiteOf(a + b, []);
    } else {
      assert s == a + (r + b);
      LeadingWhiteOf(a, r + b);
      assert s == (a + r) + b;
      TrailingWhiteOf(a + r, b);
      assert s[|a|..|s| - |b|] == r;
    }
  }

  /** Trimming twice is trimming once. */
  lemma TrimIdempotent(s: string)
    ensures Trim(Trim(s)) == Trim(s)
  {
    var r := Trim(s);
    assert [] + r + [] == r;
    TrimOfPadded([], r, []);
  }

  /** The trimmed text is empty exactly when every character is white. */
  lemma TrimEmptyIffAllWhite(s: string)
    ensures Trim(s) == [] <==> AllWhite(s)
  {
    if AllWhite(s) {
      assert s == s + [];
      LeadingWhiteOf(s, []);
    }
  }

  /** Occurrences of `c` in `s`. */
  function CountChar(s: string, c: char): nat
  {
    if s == [] then 0 else (if s[0] == c then 1 else 0) + CountChar(s[1..], c)
  }

  lemma {:induction false} CountCharAppend(a: string, b: string, c: char)
    ensures CountChar(a + b, c) == CountChar(a, c) + CountChar(b, c)
    decreases |a|
  {
    if a != [] {
      assert (a + b)[1..] == a[1..] + b;
      CountCharAppend(a[1..], b, c);
    } else {
      assert a + b == b;
    }
  }

  lemma {:induction false} CountCharAbsent(s: string, c: char)
    requires c !in s
    ensures CountChar(s, c) == 0
    decreases |s|
  {
    if s != [] {
      assert forall x :: x in s[1..] ==> x in s;
      CountCharAbsent(s[1..], c);
    }
  }

  /** `s.split(c)` for a one-character separator: the pieces between the
      occurrences of `c`, one more piece than there are occurrences, and no
      piece holds `c`. */
  function Split(s: string, c: char): (r: seq<string>)
    ensures |r| == CountChar(s, c) + 1
    ensures forall k :: 0 <= k < |r| ==> c !in r[k]
  {
    if s == [] then [""]
    else
      var rest := Split(s[1..], c);
      if s[0] == c then [""] + rest else [[s[0]] + rest[0]] + rest[1..]
  }

  /** `xs.join(sep)`. */
  function Join(xs: seq<string>, sep: string): string
  {
    if |xs| == 0 then ""
    else if |xs| == 1 then xs[0]
    else xs[0] + sep + Join(xs[1..], sep)
  }

  lemma JoinCons(x: string, xs: seq<string>, sep: string)
    requires |xs| > 0
    ensures Join([x] + xs, sep) == x + sep + Join(xs, sep)
  {
    assert ([x] + xs)[1..] == xs;
  }

  /** Joining the pieces of a split with the separator restores the input. */
  lemma {:induction false} JoinSplit(s: string, c: char)
    ensures Join(Split(s, c), [c]) == s
    decreases |s|
  {
    if s != [] {
      var rest := Split(s[1..], c);
      JoinSplit(s[1..], c);
      if s[0] == c {
        JoinCons("", rest, [c]);
        assert s == [c] + s[1..];
      } else if |rest| == 1 {
        assert Split(s, c) == [[s[0]] + rest[0]];
        assert s == [s[0]] + s[1..];
      } else {
        assert Split(s, c) == [[s[0]] + rest[0]] + rest[1..];
        JoinCons([s[0]] + rest[0], rest[1..], [c]);
        JoinCons(rest[0], rest[1..], [c]);
        assert [rest[0]] + rest[1..] == rest;
        assert s == [s[0]] + s[1..];
      }
    }
  }

  /** Splitting a join of separator-free pieces gives the pieces back. */
  lemma {:induction false} SplitJoin(xs: seq<string>, c: char)
    requires |xs| > 0
    requires forall k :: 0 <= k < |xs| ==> c !in xs[k]
    ensures Split(Join(xs, [c]), c) == xs
    decreases |xs|, |xs[0]|
  {
    if |xs[0]| > 0 {
      var x := xs[0];
      var ys := [x[1..]] + xs[1..];
      assert ys[0] == x[1..] && ys[1..] == xs[1..];
      assert forall k :: 0 <= k < |ys| ==> c !in ys[k] by {
        forall k | 0 <= k < |ys| ensures c !in ys[k] {
          if k == 0 {
            assert forall ch :: ch in x[1..] ==> ch in x;
          } else {
            assert ys[k] == xs[k];
          }
        }
      }
      SplitJoin(ys, c);
      if |xs| == 1 {
        assert Join(xs, [c]) == x && Join(ys, [c]) == x[1..];
      } else {
        JoinCons(x, xs[1..], [c]);
        JoinCons(x[1..], xs[1..], [c]);
        assert [x] + xs[1..] == xs && [x[1..]] + xs[1..] == ys;
        assert Join(xs, [c])[1..] == Join(ys, [c]);
      }
      assert x[0] != c;
      assert [x[0]] + x[1..] == x;
      assert [[x[0]] + x[1..]] + ys[1..] == xs;
    } else if |xs| == 1 {
      assert xs == [""];
    } else {
      JoinCons(xs[0], xs[1..], [c]);
      assert [xs[0]] + xs[1..] == xs;
      var j := Join(xs, [c]);
      assert j == [c] + Join(xs[1..], [c]);
      assert j[1..] == Join(xs[1..], [c]);
      SplitJoin(xs[1..], c);
    }
  }

  /** Joining two non-empty lists is joining each and putting `sep`
      between them. */
  lemma {:induction false} JoinAppend(xs: seq<string>, ys: seq<string>, sep: string)
    requires |xs| > 0 && |ys| > 0
    ensures Join(xs + ys, sep) == Join(xs, sep) + sep + Join(ys, sep)
    decreases |xs|
  {
    if |xs| == 1 {
      assert xs + ys == [xs[0]] + ys;
      JoinCons(xs[0], ys, sep);
    } else {
      JoinAppend(xs[1..], ys, sep);
      assert xs + ys == [xs[0]] + (xs[1..] + ys);
      JoinCons(xs[0], xs[1..] + ys, sep);
      JoinCons(xs[0], xs[1..], sep);
      assert [xs[0]] + xs[1..] == xs;
    }
  }

  /** The `i`-th item of a join stands between the join of the items before
      it and the join of the items after it, each separated from it by
      `sep`: the items appear verbatim and in order. */
  lemma JoinAt(xs: seq<string>, sep: string, i: nat)
    requires i < |xs|
    ensures Join(xs, sep) ==
      Join(xs[..i], sep) + (if i == 0 then "" else sep) + xs[i]
      + (if i == |xs| - 1 then "" else sep) + Join(xs[i + 1..], sep)
  {
    var before, after := xs[..i], xs[i + 1..];
    var mid := [xs[i]] + after;
    assert xs == before + mid;
    if after == [] {
      assert mid == [xs[i]];
    } else {
      JoinCons(xs[i], after, sep);
    }
    if before == [] {
      assert xs == mid;
    } else {
      JoinAppend(before, mid, sep);
    }
  }

  /** `sub` occurs in `s` as a contiguous block. */
  predicate Contains(s: string, sub: string)
    decreases |s|
  {
    sub <= s || (|s| > 0 && Contains(s[1..], sub))
  }

  /** A block placed between any two strings is contained in the result. */
  lemma {:induction false} ContainsMiddle(a: string, sub: string, b: string)
    ensures Contains(a + sub + b, sub)
    decreases |a|
  {
    if a == [] {
      assert a + sub + b == sub + b;
    } else {
      ContainsMiddle(a[1..], sub, b);
      assert (a + sub + b)[1..] == a[1..] + sub + b;
    }
  }

  /** Containment is transitive: a block of a contained block is contained. */
  lemma {:induction false} ContainsTransitive(s: string, mid: string, sub: string)
    requires Contains(s, mid) && Contains(mid, sub)
    ensures Contains(s, sub)
    decreases |s|
  {
    if mid <= s {
      ContainsInPrefix(s, mid, sub);
    } else {
      ContainsTransitive(s[1..], mid, sub);
    }
  }

  lemma {:induction false} ContainsInPrefix(s: string, mid: string, sub: string)
    requires mid <= s && Contains(mid, sub)
    ensures Contains(s, sub)
    decreases |mid|
  {
    if sub <= mid {
    } else {
      assert mid[1..] <= s[1..];
      ContainsInPrefix(s[1..], mid[1..], sub);
    }
  }

  /** What a string contains, any extension of it on the right contains. */
  lemma ContainsLeft(a: string, b: string, sub: string)
    requires Contains(a, sub)
    ensures Contains(a + b, sub)
  {
    assert a <= a + b;
    ContainsInPrefix(a + b, a, sub);
  }

  /** What a string contains, any extension of it on the left contains. */
  lemma ContainsRight(a: string, b: string, sub: string)
    requires Contains(b, sub)
    ensures Contains(a + b, sub)
  {
    ContainsMiddle(a, b, []);
    assert a + b + [] == a + b;
    ContainsTransitive(a + b, b, sub);
  }

  /** Each of the last four pieces of a five-piece concatenation is
      contained in it. */
  lemma ContainsPiecesOfFive(a: string, b: string, c: string, d: string, e: string)
    ensures Contains(a + b + c + d + e, b) && Contains(a + b + c + d + e, c)
    ensures Contains(a + b + c + d + e, d) && Contains(a + b + c + d + e, e)
  {
    assert Contains(b, b) && Contains(c, c) && Contains(d, d) && Contains(e, e);
    ContainsRight(a, b, b);
    ContainsLeft(a + b, c, b);
    ContainsRight(a + b, c, c);
    ContainsLeft(a + b + c, d, b);
    ContainsLeft(a + b + c, d, c);
    ContainsRight(a + b + c, d, d);
    ContainsLeft(a + b + c + d, e, b);
    ContainsLeft(a + b + c + d, e, c);
    ContainsLeft(a + b + c + d, e, d);
    ContainsRight(a + b + c + d, e, e);
  }
}
