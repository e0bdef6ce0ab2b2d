/** The JavaScript string operations the extraction relies on: `trim()` and
    `split(',')`. */
module Strings {

  /** The characters `String.prototype.trim` removes: the ECMAScript
      WhiteSpace and LineTerminator code points. */
  predicate IsSpace(c: char) {
    || c == '\t' || c == '\n' || c == '\U{000B}' || c == '\U{000C}' || c == '\r'
    || c == ' ' || c == '\U{00A0}' || c == '\U{1680}' || ('\U{2000}' <= c <= '\U{200A}')
    || c == '\U{2028}' || c == '\U{2029}' || c == '\U{202F}' || c == '\U{205F}'
    || c == '\U{3000}' || c == '\U{FEFF}'
  }

  /** `s` without its leading white space: a suffix of `s`. */
  function TrimStart(s: string): (r: string)
    ensures |r| <= |s| && r == s[|s| - |r|..]
    ensures r == [] || !IsSpace(r[0])
    ensures forall i :: 0 <= i < |s| - |r| ==> IsSpace(s[i])
  {
    if s != [] && IsSpace(s[0]) then TrimStart(s[1..]) else s
  }

  /** `s` without its trailing white space: a prefix of `s`. */
  function TrimEnd(s: string): (r: string)
    ensures |r| <= |s| && r == s[..|r|]
    ensures r == [] || !IsSpace(r[|r| - 1])
    ensures forall i :: |r| <= i < |s| ==> IsSpace(s[i])
  {
    if s != [] && IsSpace(s[|s| - 1]) then TrimEnd(s[..|s| - 1]) else s
  }

  /** `trim()`: the slice of `s` between its leading and its trailing white space. */
  function Trim(s: string): (r: string)
    ensures r == [] || (!IsSpace(r[0]) && !IsSpace(r[|r| - 1]))
    ensures |r| <= |s|
  {
    var t := TrimStart(s);
    var r := TrimEnd(t);
    assert r != [] ==> r[0] == t[0];
    r
  }

  /** Text that neither starts nor ends with white space is its own trim. */
  lemma TrimUnchanged(s: string)
    requires s == [] || (!IsSpace(s[0]) && !IsSpace(s[|s| - 1]))
    ensures Trim(s) == s
  {
  }

  /** Trimming twice is trimming once. */
  lemma TrimIdempotent(s: string)
    ensures Trim(Trim(s)) == Trim(s)
  {
    TrimUnchanged(Trim(s));
  }

  /** Trimming keeps the contiguous slice `s[i..j]` and drops only white
      space before `i` and after `j`. */
  lemma TrimSlice(s: string) returns (i: nat, j: nat)
    ensures i <= j <= |s| && Trim(s) == s[i..j]
    ensures forall k :: 0 <= k < i ==> IsSpace(s[k])
    ensures forall k :: j <= k < |s| ==> IsSpace(s[k])
  {
    var t := TrimStart(s);
    i := |s| - |t|;
    var r := TrimEnd(t);
    j := i + |r|;
    assert Trim(s) == r;
    assert t == s[i..];
    assert r == t[..|r|];
    assert r == s[i..j];
    forall k | j <= k < |s| ensures IsSpace(s[k]) {
      assert s[k] == t[k - i];
      assert |r| <= k - i < |t|;
    }
  }

  /** Leading white space before a text that does not start with white space is all `TrimStart` drops. */
  lemma {:induction false} TrimStartSpaces(pre: string, t: string)
    requires forall i :: 0 <= i < |pre| ==> IsSpace(pre[i])
    requires t == [] || !IsSpace(t[0])
    ensures TrimStart(pre + t) == t
  {
    if pre != [] {
      assert (pre + t)[1..] == pre[1..] + t;
      TrimStartSpaces(pre[1..], t);
    }
  }

  /** Trailing white space after a text that does not end with white space is all `TrimEnd` drops. */
  lemma {:induction false} TrimEndSpaces(t: string, post: string)
    requires forall i :: 0 <= i < |post| ==> IsSpace(post[i])
    requires t == [] || !IsSpace(t[|t| - 1])
    ensures TrimEnd(t + post) == t
  {
    if post != [] {
      var n := |post| - 1;
      assert (t + post)[..|t + post| - 1] == t + post[..n];
      TrimEndSpaces(t, post[..n]);
    } else {
      assert t + post == t;
    }
  }

  /** Trimming removes exactly the white space around a text that neither
      starts nor ends with white space. */
  lemma TrimSurrounded(pre: string, t: string, post: string)
    requires forall i :: 0 <= i < |pre| ==> IsSpace(pre[i])
    requires forall i :: 0 <= i < |post| ==> IsSpace(post[i])
    requires t != [] && !IsSpace(t[0]) && !IsSpace(t[|t| - 1])
    ensures Trim(pre + t + post) == t
  {
    assert pre + t + post == pre + (t + post);
    TrimStartSpaces(pre, t + post);
    TrimEndSpaces(t, post);
  }

  /** `parts` written back with `sep` between consecutive parts. */
  function Join(parts: seq<string>, sep: char): string
    requires |parts| >= 1
  {
    if |parts| == 1 then parts[0] else parts[0] + [sep] + Join(parts[1..], sep)
  }

  /** `s.split(sep)`: the maximal pieces of `s` that do not contain `sep`, in
      order; there is always at least one, and joining them gives back `s`. */
  function Split(s: string, sep: char): (parts: seq<string>)
    ensures |parts| >= 1
    ensures forall i :: 0 <= i < |parts| ==> sep !in parts[i]
    ensures Join(parts, sep) == s
  {
    if s == [] then [[]]
    else
      var rest := Split(s[1..], sep);
      if s[0] == sep then
        assert ([[]] + rest)[1..] == rest;
        [[]] + rest
      else
        var parts := [[s[0]] + rest[0]] + rest[1..];
        assert parts[1..] == rest[1..];
        assert s == [s[0]] + s[1..];
        parts
  }

  /** The position of the first `sep` in `s`, or `|s|` when there is none. */
  function IndexOf(s: string, sep: char): (i: nat)
    ensures i <= |s|
    ensures i < |s| ==> s[i] == sep
    ensures sep !in s[..i]
  {
    if s == [] then 0
    else if s[0] == sep then 0
    else
      var i := 1 + IndexOf(s[1..], sep);
      assert s[..i] == [s[0]] + s[1..][..i - 1];
      i
  }

  /** The first piece is the text before the first separator; there is a second
      piece exactly when there is a separator, and the remaining pieces are the
      pieces of the text after it. */
  lemma SplitHead(s: string, sep: char)
    ensures Split(s, sep)[0] == s[..IndexOf(s, sep)]
    ensures |Split(s, sep)| > 1 <==> IndexOf(s, sep) < |s|
    ensures IndexOf(s, sep) < |s| ==> Split(s, sep)[1..] == Split(s[IndexOf(s, sep) + 1..], sep)
  {
    SplitFirst(s, sep);
    SplitMore(s, sep);
  }

  lemma {:induction false} SplitFirst(s: string, sep: char)
    ensures Split(s, sep)[0] == s[..IndexOf(s, sep)]
  {
    if s != [] && s[0] != sep {
      var t := s[1..];
      SplitFirst(t, sep);
      var j := IndexOf(t, sep);
      assert IndexOf(s, sep) == j + 1;
      assert Split(s, sep)[0] == [s[0]] + Split(t, sep)[0];
      assert s[..j + 1] == [s[0]] + t[..j];
    }
  }

  lemma {:induction false} SplitMore(s: string, sep: char)
    ensures |Split(s, sep)| > 1 <==> IndexOf(s, sep) < |s|
    ensures IndexOf(s, sep) < |s| ==> Split(s, sep)[1..] == Split(s[IndexOf(s, sep) + 1..], sep)
  {
    if s != [] && s[0] != sep {
      var t := s[1..];
      SplitMore(t, sep);
      var j := IndexOf(t, sep);
      var rest := Split(t, sep);
      assert IndexOf(s, sep) == j + 1;
      assert Split(s, sep)[1..] == rest[1..];
      if j < |t| {
        assert s[j + 2..] == t[j + 1..];
      }
    }
  }

  /** Text without the separator is a single piece. */
  lemma SplitNoSeparator(s: string, sep: char)
    requires sep !in s
    ensures Split(s, sep) == [s]
  {
    SplitHead(s, sep);
  }

  /** Splitting what `Join` wrote gives back the parts, when no part contains
      the separator: `Split` and `Join` are inverse. */
  lemma {:induction false} SplitJoin(parts: seq<string>, sep: char)
    requires |parts| >= 1
    requires forall i :: 0 <= i < |parts| ==> sep !in parts[i]
    ensures Split(Join(parts, sep), sep) == parts
  {
    if |parts| == 1 {
      SplitNoSeparator(parts[0], sep);
    } else {
      var s := Join(parts, sep);
      var p := parts[0];
      SplitJoin(parts[1..], sep);
      assert IndexOf(s, sep) == |p| by { IndexAfterPiece(p, sep, Join(parts[1..], sep)); }
      SplitHead(s, sep);
      assert s[..|p|] == p;
      assert s[|p| + 1..] == Join(parts[1..], sep);
      assert parts == [p] + parts[1..];
    }
  }

  lemma {:induction false} IndexAfterPiece(p: string, sep: char, t: string)
    requires sep !in p
    ensures IndexOf(p + [sep] + t, sep) == |p|
  {
    if p != [] {
      assert (p + [sep] + t)[1..] == p[1..] + [sep] + t;
      assert p[0] in p;
      IndexAfterPiece(p[1..], sep, t);
    }
  }
}
