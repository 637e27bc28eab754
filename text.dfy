/**
 * The few Python `str` operations the compiler and the checkpoint parser rely on:
 * `isspace`, `strip`, `split(sep)`, `replace(ch, "")` and `splitlines()`.
 */
module Text {
  /** Python's `str.isspace` for one character. */
  predicate IsSpace(ch: char) {
    ch == ' ' || ('\t' <= ch <= '\r') || ('\U{1c}' <= ch <= '\U{1f}') || ch == '\U{85}' || ch == '\U{a0}'
    || ch == '\U{1680}' || ('\U{2000}' <= ch <= '\U{200a}') || ch == '\U{2028}' || ch == '\U{2029}'
    || ch == '\U{202f}' || ch == '\U{205f}' || ch == '\U{3000}'
  }

  predicate AllSpace(s: string) {
    forall i :: 0 <= i < |s| ==> IsSpace(s[i])
  }

  /** `s.lstrip()`: the suffix of `s` that starts at its first non-space character. */
  function StripLeft(s: string): (r: string)
    ensures |r| <= |s| && r == s[|s| - |r|..]
    ensures r == [] || !IsSpace(r[0])
    ensures AllSpace(s[..|s| - |r|])
  {
    if s != [] && IsSpace(s[0]) then
      var r := StripLeft(s[1..]);
      assert s[..|s| - |r|] == [s[0]] + s[1..][..|s| - 1 - |r|];
      r
    else s
  }

  /** `s.rstrip()`: the prefix of `s` that ends at its last non-space character. */
  function StripRight(s: string): (r: string)
    ensures |r| <= |s| && r == s[..|r|]
    ensures r == [] || !IsSpace(r[|r| - 1])
    ensures AllSpace(s[|r|..])
  {
    if s != [] && IsSpace(s[|s| - 1]) then
      var r := StripRight(s[..|s| - 1]);
      assert s[|r|..] == s[..|s| - 1][|r|..] + [s[|s| - 1]];
      r
    else s
  }

  /** `s.strip()`. */
  function Strip(s: string): (r: string)
    ensures |r| <= |s|
    ensures r == [] || (!IsSpace(r[0]) && !IsSpace(r[|r| - 1]))
  {
    StripRight(StripLeft(s))
  }

  /** A string without surrounding whitespace is its own strip. */
  lemma StripOfStripped(s: string)
    requires s == [] || (!IsSpace(s[0]) && !IsSpace(s[|s| - 1]))
    ensures Strip(s) == s
  {
  }

  /** Appending whitespace never changes what `strip` returns. */
  lemma {:induction false} StripAppendSpace(s: string, ch: char)
    requires IsSpace(ch)
    ensures Strip(s + [ch]) == Strip(s)
  {
    var l := StripLeft(s);
    if AllSpace(s) {
      StripLeftAllSpace(s + [ch]);
      StripLeftAllSpace(s);
    } else {
      StripLeftAppend(s, ch);
      assert StripLeft(s + [ch]) == l + [ch];
      assert StripRight(l + [ch]) == StripRight(l);
    }
  }

  lemma {:induction false} StripLeftAllSpace(s: string)
    requires AllSpace(s)
    ensures StripLeft(s) == []
  {
    if s != [] {
      StripLeftAllSpace(s[1..]);
    }
  }

  lemma {:induction false} StripLeftAppend(s: string, ch: char)
    requires !AllSpace(s)
    ensures StripLeft(s + [ch]) == StripLeft(s) + [ch]
  {
    if IsSpace(s[0]) {
      assert (s + [ch])[1..] == s[1..] + [ch];
      StripLeftAppend(s[1..], ch);
    }
  }

  /** `s.split(sep)` for a one-character separator. */
  function Split(s: string, sep: char): (parts: seq<string>)
    ensures |parts| >= 1
    ensures sep in s ==> |parts| >= 2
    ensures sep !in s ==> parts == [s]
    ensures forall k :: 0 <= k < |parts| ==> sep !in parts[k]
  {
    if s == [] then [""]
    else
      var rest := Split(s[1..], sep);
      if s[0] == sep then [""] + rest
      else
        assert s == [s[0]] + s[1..];
        [[s[0]] + rest[0]] + rest[1..]
  }

  /** `sep.join(parts)`. */
  function Join(parts: seq<string>, sep: char): string {
    if |parts| == 0 then ""
    else if |parts| == 1 then parts[0]
    else parts[0] + [sep] + Join(parts[1..], sep)
  }

  /** `split` is undone by `join` with the same separator. */
  lemma {:induction false} JoinSplit(s: string, sep: char)
    ensures Join(Split(s, sep), sep) == s
  {
    if s != [] {
      var rest := Split(s[1..], sep);
      JoinSplit(s[1..], sep);
      if s[0] == sep {
        assert Split(s, sep) == [""] + rest;
        assert ([""] + rest)[1..] == rest;
      } else {
        var parts := [[s[0]] + rest[0]] + rest[1..];
        assert Split(s, sep) == parts;
        if |rest| > 1 {
          assert parts[1..] == rest[1..];
          assert Join(rest, sep) == rest[0] + [sep] + Join(rest[1..], sep);
        }
      }
    }
  }

  /** The first part of a split is everything before the first separator, and the other
      parts are the split of what follows it. */
  lemma {:induction false} SplitAt(w: string, sep: char, rest: string)
    requires sep !in w
    ensures Split(w + [sep] + rest, sep) == [w] + Split(rest, sep)
  {
    var s := w + [sep] + rest;
    if w == [] {
      assert s[1..] == rest;
    } else {
      assert s[1..] == w[1..] + [sep] + rest;
      SplitAt(w[1..], sep, rest);
      assert [w[0]] + w[1..] == w;
    }
  }

  /** `s.replace(c, "")`. */
  function Remove(s: string, c: char): (r: string)
    ensures |r| <= |s| && c !in r
    ensures forall x :: x in r ==> x in s
  {
    if s == [] then []
    else if s[0] == c then Remove(s[1..], c)
    else [s[0]] + Remove(s[1..], c)
  }

  lemma {:induction false} RemoveAppend(a: string, b: string, c: char)
    ensures Remove(a + b, c) == Remove(a, c) + Remove(b, c)
  {
    if a == [] {
      assert a + b == b;
    } else {
      assert (a + b)[0] == a[0];
      assert (a + b)[1..] == a[1..] + b;
      RemoveAppend(a[1..], b, c);
    }
  }

  lemma {:induction false} RemoveAbsent(s: string, c: char)
    requires c !in s
    ensures Remove(s, c) == s
  {
    if s != [] {
      RemoveAbsent(s[1..], c);
    }
  }

  /** Removing one character keeps every other character. */
  lemma {:induction false} RemoveKeeps(s: string, c: char, ch: char)
    requires ch != c && ch in s
    ensures ch in Remove(s, c)
  {
    if s[0] != ch {
      assert ch in s[1..];
      RemoveKeeps(s[1..], c, ch);
    }
  }

  /** Python's `sub in s` for strings. */
  predicate Contains(s: string, sub: string)
    decreases |s|
  {
    (|sub| <= |s| && s[..|sub|] == sub) || (s != [] && Contains(s[1..], sub))
  }

  /** A text that holds `sub` after some prefix contains it. */
  lemma {:induction false} ContainsAfter(prefix: string, sub: string, rest: string)
    ensures Contains(prefix + sub + rest, sub)
    decreases |prefix|
  {
    var s := prefix + sub + rest;
    if prefix == [] {
      assert s[..|sub|] == sub;
    } else {
      assert s[1..] == prefix[1..] + sub + rest;
      ContainsAfter(prefix[1..], sub, rest);
    }
  }

  /** A text without the first character of `sub` does not contain `sub`. */
  lemma {:induction false} NotContainsHead(s: string, sub: string)
    requires sub != [] && sub[0] !in s
    ensures !Contains(s, sub)
    decreases |s|
  {
    if s != [] {
      NotContainsHead(s[1..], sub);
    }
  }

  /** `join` is undone by `split` when no part contains the separator. */
  lemma {:induction false} SplitJoin(parts: seq<string>, sep: char)
    requires |parts| >= 1
    requires forall k :: 0 <= k < |parts| ==> sep !in parts[k]
    ensures Split(Join(parts, sep), sep) == parts
  {
    if |parts| > 1 {
      SplitJoin(parts[1..], sep);
      SplitAt(parts[0], sep, Join(parts[1..], sep));
      assert parts == [parts[0]] + parts[1..];
    }
  }

  /** Leading whitespace never changes what `strip` returns. */
  lemma StripPrependSpace(ch: char, s: string)
    requires IsSpace(ch)
    ensures Strip([ch] + s) == Strip(s)
  {
    assert ([ch] + s)[1..] == s;
  }

  /** The characters at which Python's `str.splitlines()` breaks a line. */
  predicate IsLineBreak(ch: char) {
    ch == '\n' || ch == '\r' || ch == '\U{b}' || ch == '\U{c}' || ('\U{1c}' <= ch <= '\U{1e}') || ch == '\U{85}'
    || ch == '\U{2028}' || ch == '\U{2029}'
  }

  /** Python's `str.splitlines()`: "\r\n" counts as one break and a final break adds no empty line. */
  function SplitLines(s: string): (lines: seq<string>)
    ensures forall k, j :: 0 <= k < |lines| && 0 <= j < |lines[k]| ==> !IsLineBreak(lines[k][j])
    ensures lines == [] <==> s == []
    decreases |s|
  {
    if s == [] then []
    else
      var n := LineLength(s);
      if n == |s| then [s]
      else if s[n] == '\r' && n + 1 < |s| && s[n + 1] == '\n' then [s[..n]] + SplitLines(s[n + 2..])
      else [s[..n]] + SplitLines(s[n + 1..])
  }

  /** A break-free line, then a break that does not open a "\r\n" pair: the line is the first
      of the lines and the rest is split on its own. */
  lemma SplitLinesAt(x: string, b: char, y: string)
    requires forall j :: 0 <= j < |x| ==> !IsLineBreak(x[j])
    requires IsLineBreak(b) && !(b == '\r' && y != [] && y[0] == '\n')
    ensures SplitLines(x + [b] + y) == [x] + SplitLines(y)
  {
    var s := x + [b] + y;
    assert s[|x|] == b;
    assert LineLength(s) == |x|;
    assert s[..|x|] == x && s[|x| + 1..] == y;
  }

  /** "\r\n" is one break. */
  lemma SplitLinesCrlf(x: string, y: string)
    requires forall j :: 0 <= j < |x| ==> !IsLineBreak(x[j])
    ensures SplitLines(x + "\r\n" + y) == [x] + SplitLines(y)
  {
    var s := x + "\r\n" + y;
    assert s[|x|] == '\r' && s[|x| + 1] == '\n';
    assert LineLength(s) == |x|;
    assert s[..|x|] == x && s[|x| + 2..] == y;
  }

  /** A final break adds no empty line. */
  lemma {:induction false} SplitLinesFinalBreak(s: string, b: char)
    requires s != [] && !IsLineBreak(s[|s| - 1]) && IsLineBreak(b)
    ensures SplitLines(s + [b]) == SplitLines(s)
    decreases |s|
  {
    var n := LineLength(s);
    if n == |s| {
      SplitLinesAt(s, b, []);
      assert s + [b] == s + [b] + [];
    } else if s[n] == '\r' && n + 1 < |s| && s[n + 1] == '\n' {
      assert n + 2 < |s|;
      var r := s[n + 2..];
      assert r[|r| - 1] == s[|s| - 1];
      assert s == s[..n] + "\r\n" + r;
      SplitLinesFinalBreak(r, b);
      FinalBreakAfterCrlf(s, s[..n], r, b);
    } else {
      assert n + 1 < |s|;
      var r := s[n + 1..];
      assert r[0] == s[n + 1] && r[|r| - 1] == s[|s| - 1];
      assert s == s[..n] + [s[n]] + r;
      SplitLinesFinalBreak(r, b);
      FinalBreakAfterBreak(s, s[..n], s[n], r, b);
    }
  }

  lemma FinalBreakAfterCrlf(s: string, x: string, r: string, b: char)
    requires forall j :: 0 <= j < |x| ==> !IsLineBreak(x[j])
    requires s == x + "\r\n" + r && SplitLines(r + [b]) == SplitLines(r)
    ensures SplitLines(s + [b]) == SplitLines(s)
  {
    SplitLinesCrlf(x, r);
    SplitLinesCrlf(x, r + [b]);
    assert s + [b] == x + "\r\n" + (r + [b]);
  }

  lemma FinalBreakAfterBreak(s: string, x: string, c: char, r: string, b: char)
    requires forall j :: 0 <= j < |x| ==> !IsLineBreak(x[j])
    requires IsLineBreak(c) && !(c == '\r' && r != [] && r[0] == '\n') && r != []
    requires s == x + [c] + r && SplitLines(r + [b]) == SplitLines(r)
    ensures SplitLines(s + [b]) == SplitLines(s)
  {
    SplitLinesAt(x, c, r);
    SplitLinesAt(x, c, r + [b]);
    assert s + [b] == x + [c] + (r + [b]);
  }

  /** A text whose only breaks are '\n' and that does not end in a break is its lines joined
      with '\n'. */
  lemma {:induction false} JoinSplitLines(s: string)
    requires forall j :: 0 <= j < |s| && IsLineBreak(s[j]) ==> s[j] == '\n'
    requires s == [] || !IsLineBreak(s[|s| - 1])
    ensures Join(SplitLines(s), '\n') == s
    decreases |s|
  {
    var n := LineLength(s);
    if s != [] && n < |s| {
      var x, r := s[..n], s[n + 1..];
      assert s == x + ['\n'] + r;
      forall j | 0 <= j < |r| && IsLineBreak(r[j])
        ensures r[j] == '\n'
      {
        assert r[j] == s[n + 1 + j];
      }
      JoinSplitLines(r);
      SplitLinesAt(x, '\n', r);
      var rest := SplitLines(r);
      assert ([x] + rest)[1..] == rest;
    }
  }

  /** Break-free lines, the last one not empty, joined with '\n' split back into those lines. */
  lemma {:induction false} SplitLinesJoin(lines: seq<string>)
    requires |lines| > 0 && lines[|lines| - 1] != []
    requires forall k, j :: 0 <= k < |lines| && 0 <= j < |lines[k]| ==> !IsLineBreak(lines[k][j])
    ensures SplitLines(Join(lines, '\n')) == lines
    decreases |lines|
  {
    if |lines| == 1 {
      assert LineLength(lines[0]) == |lines[0]|;
    } else {
      var tail := lines[1..];
      assert forall k :: 0 <= k < |tail| ==> tail[k] == lines[k + 1];
      SplitLinesJoin(tail);
      var y := Join(tail, '\n');
      assert Join(lines, '\n') == lines[0] + ['\n'] + y;
      SplitLinesAt(lines[0], '\n', y);
      assert lines == [lines[0]] + tail;
    }
  }

  /** Length of the text before the first line break of `s`. */
  function LineLength(s: string): (n: nat)
    ensures n <= |s|
    ensures forall j :: 0 <= j < n ==> !IsLineBreak(s[j])
    ensures n == |s| || IsLineBreak(s[n])
  {
    if s == [] || IsLineBreak(s[0]) then 0 else 1 + LineLength(s[1..])
  }
}
