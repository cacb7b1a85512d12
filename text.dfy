/** The Python string operations the provider parsers use: `strip()`,
    substring search and `in`, `split(sep)` and `sep.join(parts)`. */
module Text {

  import opened Json

  /** Python's `str.isspace` for one character. */
  predicate IsSpace(c: char)
  {
    || c == ' ' || c == '\t' || c == '\n' || c == '\r' || c == '\U{B}' || c == '\U{C}'
    || ('\U{1C}' <= c <= '\U{1F}') || c == '\U{85}' || c == '\U{A0}' || c == '\U{1680}'
    || ('\U{2000}' <= c <= '\U{200A}') || c == '\U{2028}' || c == '\U{2029}'
    || c == '\U{202F}' || c == '\U{205F}' || c == '\U{3000}'
  }

  function StripStart(s: string): (r: string)
    ensures |r| <= |s| && r == s[|s| - |r|..]
    ensures r == [] || !IsSpace(r[0])
  {
    if s != [] && IsSpace(s[0]) then StripStart(s[1..]) else s
  }

  function StripEnd(s: string): (r: string)
    ensures |r| <= |s| && r == s[..|r|]
    ensures r == [] || !IsSpace(r[|r| - 1])
  {
    if s != [] && IsSpace(s[|s| - 1]) then StripEnd(s[..|s| - 1]) else s
  }

  /** `s.strip()`: `s` without its leading and trailing white space. */
  function Strip(s: string): (r: string)
    ensures r == [] || (!IsSpace(r[0]) && !IsSpace(r[|r| - 1]))
  {
    StripEnd(StripStart(s))
  }

  /** A string that neither starts nor ends with white space is its own
      strip. */
  lemma StripUnchanged(s: string)
    requires s == [] || (!IsSpace(s[0]) && !IsSpace(s[|s| - 1]))
    ensures Strip(s) == s
  {
  }

  /** Stripping keeps a contiguous slice of the string. */
  lemma StripIsSlice(s: string)
    ensures var a := |s| - |StripStart(s)|;
      a + |Strip(s)| <= |s| && Strip(s) == s[a..a + |Strip(s)|]
  {
    var front := StripStart(s);
    var a := |s| - |front|;
    assert Strip(s) == front[..|Strip(s)|];
    assert front == s[a..];
  }

  /** `s.startswith(t)`. */
  predicate StartsWith(s: string, t: string)
  {
    |t| <= |s| && s[..|t|] == t
  }

  /** Python's `t in s` for strings. */
  predicate Contains(s: string, t: string)
    decreases |s|
  {
    StartsWith(s, t) || (s != [] && Contains(s[1..], t))
  }

  /** A prefix of a string that does not contain `t` does not contain it either. */
  lemma {:induction false} NotContainsPrefix(s: string, t: string, n: nat)
    requires n <= |s|
    requires !Contains(s, t)
    ensures !Contains(s[..n], t)
    decreases |s|
  {
    assert |t| <= n ==> s[..n][..|t|] == s[..|t|];
    if n > 0 && s != [] {
      NotContainsPrefix(s[1..], t, n - 1);
      assert s[..n][1..] == s[1..][..n - 1];
    }
  }

  /** A suffix of a string that does not contain `t` does not contain it either. */
  lemma {:induction false} NotContainsSuffix(s: string, t: string, n: nat)
    requires n <= |s|
    requires !Contains(s, t)
    ensures !Contains(s[n..], t)
    decreases n
  {
    if n > 0 {
      NotContainsSuffix(s[1..], t, n - 1);
      assert s[1..][n - 1..] == s[n..];
    } else {
      assert s[0..] == s;
    }
  }

  /** `s.split(sep)`: the pieces between the non-overlapping occurrences of
      `sep`, found from the left. */
  function Split(s: string, sep: string): (r: seq<string>)
    requires sep != []
    ensures |r| >= 1
    decreases |s|
  {
    if StartsWith(s, sep) then [""] + Split(s[|sep|..], sep)
    else if s == [] then [""]
    else
      var rest := Split(s[1..], sep);
      [[s[0]] + rest[0]] + rest[1..]
  }

  /** `sep.join(parts)`. */
  function Join(parts: seq<string>, sep: string): string
  {
    if parts == [] then ""
    else if |parts| == 1 then parts[0]
    else parts[0] + sep + Join(parts[1..], sep)
  }

  lemma JoinCons(head: string, tail: seq<string>, sep: string)
    requires tail != []
    ensures Join([head] + tail, sep) == head + sep + Join(tail, sep)
  {
    assert ([head] + tail)[1..] == tail;
  }

  /** Appending a part to a non-empty list appends the separator and the
      part to the joined text. */
  lemma {:induction false} JoinSnoc(parts: seq<string>, p: string, sep: string)
    requires parts != []
    ensures Join(parts + [p], sep) == Join(parts, sep) + sep + p
    decreases |parts|
  {
    if |parts| > 1 {
      JoinSnoc(parts[1..], p, sep);
      assert (parts + [p])[1..] == parts[1..] + [p];
    } else {
      assert parts + [p] == [parts[0], p];
    }
  }

  lemma JoinFirst(c: char, parts: seq<string>, sep: string)
    requires parts != []
    ensures Join([[c] + parts[0]] + parts[1..], sep) == [c] + Join(parts, sep)
  {
    var joined := [[c] + parts[0]] + parts[1..];
    assert joined[1..] == parts[1..];
  }

  /** Splitting loses nothing: joining the pieces with the separator gives
      the string back. */
  lemma {:induction false} JoinSplit(s: string, sep: string)
    requires sep != []
    ensures Join(Split(s, sep), sep) == s
    decreases |s|
  {
    if StartsWith(s, sep) {
      JoinSplitAtSep(s, sep);
    } else if s != [] {
      JoinSplitAtChar(s, sep);
    }
  }

  lemma {:induction false} JoinSplitAtSep(s: string, sep: string)
    requires sep != [] && StartsWith(s, sep)
    ensures Join(Split(s, sep), sep) == s
    decreases |s|, 0
  {
    var rest := s[|sep|..];
    var pieces := Split(rest, sep);
    assert Split(s, sep) == [""] + pieces;
    assert s == sep + rest by {
      assert s[..|sep|] == sep;
      assert s == s[..|sep|] + rest;
    }
    calc {
      Join(Split(s, sep), sep);
      Join([""] + pieces, sep);
      { JoinCons("", pieces, sep); }
      "" + sep + Join(pieces, sep);
      { JoinSplit(rest, sep); }
      "" + sep + rest;
      { assert "" + sep == sep; }
      s;
    }
  }

  lemma {:induction false} JoinSplitAtChar(s: string, sep: string)
    requires sep != [] && !StartsWith(s, sep) && s != []
    ensures Join(Split(s, sep), sep) == s
    decreases |s|, 0
  {
    var pieces := Split(s[1..], sep);
    assert Split(s, sep) == [[s[0]] + pieces[0]] + pieces[1..];
    JoinSplit(s[1..], sep);
    JoinFirst(s[0], pieces, sep);
    assert s == [s[0]] + s[1..];
  }

  /** The first piece is a prefix of the string. */
  lemma {:induction false} SplitFirstIsPrefix(s: string, sep: string)
    requires sep != []
    ensures |Split(s, sep)[0]| <= |s| && Split(s, sep)[0] == s[..|Split(s, sep)[0]|]
    decreases |s|
  {
    if !StartsWith(s, sep) && s != [] {
      var rest := Split(s[1..], sep);
      SplitFirstIsPrefix(s[1..], sep);
      assert Split(s, sep)[0] == [s[0]] + rest[0];
      ConsPrefix(s, |rest[0]|);
    }
  }

  lemma ConsPrefix(s: string, n: nat)
    requires n < |s|
    ensures [s[0]] + s[1..][..n] == s[..n + 1]
  {
  }

  /** There is more than one piece exactly when the separator occurs, and
      no piece contains the separator. */
  lemma {:induction false} SplitPieces(s: string, sep: string)
    requires sep != []
    ensures |Split(s, sep)| == 1 <==> !Contains(s, sep)
    ensures forall k :: 0 <= k < |Split(s, sep)| ==> !Contains(Split(s, sep)[k], sep)
    decreases |s|
  {
    var r := Split(s, sep);
    if StartsWith(s, sep) {
      SplitPieces(s[|sep|..], sep);
      assert !Contains("", sep);
      forall k | 0 <= k < |r|
        ensures !Contains(r[k], sep)
      {
        if k > 0 {
          assert r[k] == Split(s[|sep|..], sep)[k - 1];
        }
      }
    } else if s != [] {
      var rest := Split(s[1..], sep);
      SplitPieces(s[1..], sep);
      SplitFirstIsPrefix(s[1..], sep);
      var first := [s[0]] + rest[0];
      assert first == s[..|first|];
      assert |sep| <= |first| ==> s[..|sep|] == first[..|sep|];
      assert first[1..] == rest[0];
      assert !Contains(first, sep);
      forall k | 0 <= k < |r|
        ensures !Contains(r[k], sep)
      {
        if k > 0 {
          assert r[k] == rest[k];
        }
      }
    }
  }

  function Last<T>(s: seq<T>): T
    requires s != []
  {
    s[|s| - 1]
  }

  /** A slice of a string that does not contain `t` does not contain it
      either; in particular stripping never brings `t` in. */
  lemma StripKeepsOut(s: string, t: string)
    requires !Contains(s, t)
    ensures !Contains(Strip(s), t)
  {
    StripIsSlice(s);
    var a := |s| - |StripStart(s)|;
    NotContainsSuffix(s, t, a);
    NotContainsPrefix(s[a..], t, |Strip(s)|);
    assert s[a..][..|Strip(s)|] == s[a..a + |Strip(s)|];
  }

  /** Python's `needle in v` for a string needle: membership for a list,
      a key test for a dict, a substring test for a string; any other value
      does not support `in` and raises. */
  function In(needle: string, v: Value): (r: Result<bool>)
    ensures r.Ok? <==> v.JList? || v.JObj? || v.JStr?
    ensures v.JObj? ==> r == Ok(needle in v.fields)
  {
    match v
    case JList(items) => Ok(JStr(needle) in items)
    case JObj(fields) => Ok(needle in fields)
    case JStr(s) => Ok(Contains(s, needle))
    case _ => Raised
  }

  // ---------------------------------------------------------------------
  // The text around the first and the last occurrence of a separator,
  // defined character by character, independently of `Split`.

  /** The text before the first occurrence of `sep`; all of `s` when `sep`
      does not occur. */
  function Before(s: string, sep: string): (r: string)
    requires sep != []
    ensures |r| <= |s| && r == s[..|r|]
    decreases |s|
  {
    if StartsWith(s, sep) || s == [] then "" else [s[0]] + Before(s[1..], sep)
  }

  /** The text after the first occurrence of `sep`. */
  function After(s: string, sep: string): (r: string)
    requires sep != [] && Contains(s, sep)
    ensures |r| + |sep| <= |s|
    decreases |s|
  {
    if StartsWith(s, sep) then s[|sep|..] else After(s[1..], sep)
  }

  /** The text after the last occurrence of `sep`; all of `s` when `sep`
      does not occur. */
  function AfterLast(s: string, sep: string): string
    requires sep != []
    decreases |s|
  {
    if Contains(s, sep) then AfterLast(After(s, sep), sep) else s
  }

  /** A string in which `sep` occurs is the text before it, `sep`, and the
      text after it; otherwise the text before it is the whole string. */
  lemma {:induction false} AroundFirst(s: string, sep: string)
    requires sep != []
    ensures Contains(s, sep) ==> s == Before(s, sep) + sep + After(s, sep)
    ensures !Contains(s, sep) ==> Before(s, sep) == s
    decreases |s|
  {
    if StartsWith(s, sep) {
      assert s == s[..|sep|] + s[|sep|..];
    } else if s != [] {
      AroundFirst(s[1..], sep);
      assert s == [s[0]] + s[1..];
    }
  }

  /** The text before the first `sep` does not contain `sep`. */
  lemma {:induction false} BeforeExcludes(s: string, sep: string)
    requires sep != []
    ensures !Contains(Before(s, sep), sep)
    decreases |s|
  {
    if StartsWith(s, sep) || s == [] {
      assert !Contains("", sep);
    } else {
      BeforeExcludes(s[1..], sep);
      var b := Before(s, sep);
      assert b[1..] == Before(s[1..], sep);
      assert |sep| <= |b| ==> b[..|sep|] == s[..|sep|];
    }
  }

  /** When `a` holds no `c`, the first `c` of `a + [c] + y` is the one
      after `a`. */
  lemma {:induction false} FirstAfter(a: string, c: char, y: string)
    requires !Contains(a, [c])
    ensures Contains(a + [c] + y, [c])
    ensures Before(a + [c] + y, [c]) == a && After(a + [c] + y, [c]) == y
    decreases |a|
  {
    var s := a + [c] + y;
    if a == [] {
      assert s[..1] == [c];
      assert s[1..] == y;
    } else {
      assert a[..1] != [c];
      assert s[..1] == a[..1];
      assert s[1..] == a[1..] + [c] + y;
      FirstAfter(a[1..], c, y);
      assert a == [a[0]] + a[1..];
    }
  }

  /** `s.split(sep)` is the text before the first `sep` followed by the
      split of the text after it. */
  lemma {:induction false} SplitAroundFirst(s: string, sep: string)
    requires sep != []
    ensures Split(s, sep)[0] == Before(s, sep)
    ensures Contains(s, sep) ==> Split(s, sep) == [Before(s, sep)] + Split(After(s, sep), sep)
    decreases |s|
  {
    if !StartsWith(s, sep) && s != [] {
      SplitAroundFirst(s[1..], sep);
    }
  }

  /** Piece 1 of `s.split(sep)` is the text between the first and the
      second `sep`. */
  lemma SplitSecond(s: string, sep: string)
    requires sep != [] && Contains(s, sep)
    ensures |Split(s, sep)| >= 2 && Split(s, sep)[1] == Before(After(s, sep), sep)
  {
    SplitAroundFirst(s, sep);
    SplitAroundFirst(After(s, sep), sep);
  }

  /** The last piece of `s.split(sep)` is the text after the last `sep`. */
  lemma {:induction false} SplitLast(s: string, sep: string)
    requires sep != []
    ensures Last(Split(s, sep)) == AfterLast(s, sep)
    decreases |s|
  {
    SplitAroundFirst(s, sep);
    if Contains(s, sep) {
      SplitLast(After(s, sep), sep);
    } else {
      SplitPieces(s, sep);
      AroundFirst(s, sep);
    }
  }

  predicate AllSpace(w: string)
  {
    forall i :: 0 <= i < |w| ==> IsSpace(w[i])
  }

  lemma {:induction false} StripEndSpaces(y: string, w: string)
    requires AllSpace(w)
    ensures StripEnd(y + w) == StripEnd(y)
    decreases |w|
  {
    if w != [] {
      var v := w[..|w| - 1];
      assert (y + w)[..|y + w| - 1] == y + v;
      StripEndSpaces(y, v);
    } else {
      assert y + w == y;
    }
  }

  lemma {:induction false} StripStartSpaces(x: string, w: string)
    requires AllSpace(w)
    ensures StripStart(x + w) == if StripStart(x) == [] then [] else StripStart(x) + w
    decreases |x| + |w|
  {
    if x == [] {
      assert x + w == w;
      if w != [] {
        StripStartSpaces([], w[1..]);
        assert [] + w[1..] == w[1..];
      }
    } else if IsSpace(x[0]) {
      assert (x + w)[1..] == x[1..] + w;
      StripStartSpaces(x[1..], w);
    }
  }

  /** Trailing white space does not change what `strip()` keeps. */
  lemma StripTrailingSpaces(x: string, w: string)
    requires AllSpace(w)
    ensures Strip(x + w) == Strip(x)
  {
    StripStartSpaces(x, w);
    if StripStart(x) != [] {
      StripEndSpaces(StripStart(x), w);
    }
  }

  lemma {:induction false} StripEndLeavesSpaces(s: string)
    ensures AllSpace(s[|StripEnd(s)|..])
    decreases |s|
  {
    if s != [] && IsSpace(s[|s| - 1]) {
      var v := s[..|s| - 1];
      StripEndLeavesSpaces(v);
      assert s[|StripEnd(s)|..] == v[|StripEnd(v)|..] + [s[|s| - 1]];
    }
  }

  lemma StripOfStripEnd(u: string)
    ensures Strip(StripEnd(u)) == Strip(u)
  {
    var x := StripEnd(u);
    StripEndLeavesSpaces(u);
    assert u == x + u[|x|..];
    StripTrailingSpaces(x, u[|x|..]);
  }

  /** `p.strip()` when `p` ends in a character that is not white space,
      followed by more text. */
  lemma {:induction false} StripEndAppend(p: string, q: string)
    requires p != [] && !IsSpace(p[|p| - 1])
    ensures StripEnd(p + q) == p + StripEnd(q)
    decreases |q|
  {
    if q != [] && IsSpace(q[|q| - 1]) {
      var v := q[..|q| - 1];
      assert (p + q)[..|p + q| - 1] == p + v;
      StripEndAppend(p, v);
    } else if q == [] {
      assert p + q == p;
    }
  }

  /** A leading space is kept by the cut at a non-space character and then
      dropped by `StripStart`. */
  lemma BeforeSpaceHead(p: string, c: char)
    requires !IsSpace(c) && p != [] && IsSpace(p[0])
    ensures StripStart(Before(p, [c])) == StripStart(Before(p[1..], [c]))
  {
    assert p[..1] != [c];
    var b := [p[0]] + Before(p[1..], [c]);
    assert Before(p, [c]) == b;
    assert b[1..] == Before(p[1..], [c]);
  }

  lemma {:induction false} BeforeStripStart(p: string, c: char)
    requires !IsSpace(c)
    ensures Before(StripStart(p), [c]) == StripStart(Before(p, [c]))
    decreases |p|
  {
    if p != [] && IsSpace(p[0]) {
      BeforeStripStart(p[1..], c);
      BeforeSpaceHead(p, c);
    } else {
      var b := Before(p, [c]);
      assert b == [] || b[0] == p[0];
    }
  }

  lemma BeforeStripEnd(u: string, c: char)
    requires !IsSpace(c)
    ensures Strip(Before(StripEnd(u), [c])) == Strip(Before(u, [c]))
  {
    AroundFirst(u, [c]);
    if Contains(u, [c]) {
      var a, rest := Before(u, [c]), After(u, [c]);
      BeforeExcludes(u, [c]);
      assert (a + [c])[|a + [c]| - 1] == c;
      StripEndAppend(a + [c], rest);
      FirstAfter(a, c, rest);
      FirstAfter(a, c, StripEnd(rest));
    } else {
      NotContainsPrefix(u, [c], |StripEnd(u)|);
      AroundFirst(StripEnd(u), [c]);
      StripOfStripEnd(u);
    }
  }

  /** Stripping before cutting at the first `c` changes nothing once the
      piece is stripped: `p.strip().split(c)[0].strip()` is the text before
      the first `c` of `p`, stripped. */
  lemma StripBefore(p: string, c: char)
    requires !IsSpace(c)
    ensures Strip(Before(Strip(p), [c])) == Strip(Before(p, [c]))
  {
    BeforeStripEnd(StripStart(p), c);
    BeforeStripStart(p, c);
    var b := Before(p, [c]);
    assert StripStart(StripStart(b)) == StripStart(b);
  }

  lemma {:induction false} AfterLastStripStart(u: string, c: char)
    requires !IsSpace(c)
    ensures Strip(AfterLast(StripStart(u), [c])) == Strip(AfterLast(u, [c]))
    decreases |u|
  {
    if u != [] && IsSpace(u[0]) {
      var v := u[1..];
      AfterLastStripStart(v, c);
      assert u[..1] != [c];
      if Contains(v, [c]) {
        assert After(u, [c]) == After(v, [c]);
      } else {
        assert !Contains(u, [c]);
      }
    }
  }

  lemma {:induction false} AfterLastStripEnd(x: string, c: char)
    requires !IsSpace(c)
    ensures AfterLast(StripEnd(x), [c]) == StripEnd(AfterLast(x, [c]))
    decreases |x|
  {
    AroundFirst(x, [c]);
    if Contains(x, [c]) {
      var a, rest := Before(x, [c]), After(x, [c]);
      BeforeExcludes(x, [c]);
      assert (a + [c])[|a + [c]| - 1] == c;
      StripEndAppend(a + [c], rest);
      FirstAfter(a, c, StripEnd(rest));
      AfterLastStripEnd(rest, c);
    } else {
      NotContainsPrefix(x, [c], |StripEnd(x)|);
    }
  }

  /** `p.strip().split(c)[-1].strip()` is the text after the last `c` of
      `p`, stripped. */
  lemma StripAfterLast(p: string, c: char)
    requires !IsSpace(c)
    ensures Strip(AfterLast(Strip(p), [c])) == Strip(AfterLast(p, [c]))
  {
    AfterLastStripEnd(StripStart(p), c);
    StripOfStripEnd(AfterLast(StripStart(p), [c]));
    AfterLastStripStart(p, c);
  }

  /** No `sep` starts where its first character does not occur. */
  lemma {:induction false} FirstCharAbsent(s: string, sep: string)
    requires sep != []
    requires forall i :: 0 <= i < |s| ==> s[i] != sep[0]
    ensures !Contains(s, sep)
    decreases |s|
  {
    if s != [] {
      FirstCharAbsent(s[1..], sep);
    }
  }

  /** No `x` in `s` is directly followed by `y`. */
  ghost predicate PairAbsent(s: string, x: char, y: char)
  {
    forall i, j :: 0 <= i < j < |s| && j == i + 1 ==> s[i] != x || s[j] != y
  }

  lemma PairAbsentTail(s: string, x: char, y: char)
    requires s != [] && PairAbsent(s, x, y)
    ensures PairAbsent(s[1..], x, y)
  {
    forall i, j | 0 <= i < j < |s| - 1 && j == i + 1
      ensures s[1..][i] != x || s[1..][j] != y
    {
      assert s[1..][i] == s[i + 1] && s[1..][j] == s[j + 1];
    }
  }

  lemma PairAbsentAppend(s: string, t: string, x: char, y: char)
    requires PairAbsent(s, x, y) && PairAbsent(t, x, y)
    requires s == [] || t == [] || s[|s| - 1] != x || t[0] != y
    ensures PairAbsent(s + t, x, y)
  {
    forall i, j | 0 <= i < j < |s + t| && j == i + 1
      ensures (s + t)[i] != x || (s + t)[j] != y
    {
      if j < |s| {
        assert (s + t)[i] == s[i] && (s + t)[j] == s[j];
      } else if j == |s| {
        assert (s + t)[i] == s[i] && (s + t)[j] == t[0];
      } else {
        assert (s + t)[i] == t[i - |s|] && (s + t)[j] == t[j - |s|];
      }
    }
  }

  /** A separator whose first two characters never meet in `s` does not
      occur in `s`. */
  lemma {:induction false} PairAbsentExcludes(s: string, sep: string)
    requires |sep| >= 2 && PairAbsent(s, sep[0], sep[1])
    ensures !Contains(s, sep)
    decreases |s|
  {
    if s != [] {
      PairAbsentTail(s, sep[0], sep[1]);
      PairAbsentExcludes(s[1..], sep);
      if |sep| <= |s| {
        assert s[..|sep|][0] == s[0] && s[..|sep|][1] == s[1];
      }
    }
  }

  /** When the first two characters of `sep` never meet in `a` followed by
      the first character of `sep`, the first `sep` of `a + sep + y` is the
      one after `a`. */
  lemma {:induction false} FirstAtPair(a: string, sep: string, y: string)
    requires |sep| >= 2 && PairAbsent(a + [sep[0]], sep[0], sep[1])
    ensures Contains(a + sep + y, sep)
    ensures Before(a + sep + y, sep) == a && After(a + sep + y, sep) == y
    decreases |a|
  {
    var s := a + sep + y;
    if a == [] {
      assert s == sep + y;
      assert s[..|sep|] == sep;
      assert s[|sep|..] == y;
    } else {
      assert (a + [sep[0]])[0] == s[0] && (a + [sep[0]])[1] == s[1];
      assert !StartsWith(s, sep) by {
        if |sep| <= |s| {
          assert s[..|sep|][0] == s[0] && s[..|sep|][1] == s[1];
        }
      }
      PairAbsentTail(a + [sep[0]], sep[0], sep[1]);
      assert (a + [sep[0]])[1..] == a[1..] + [sep[0]];
      assert s[1..] == a[1..] + sep + y;
      FirstAtPair(a[1..], sep, y);
      assert a == [a[0]] + a[1..];
    }
  }

  /** The text before the first `sep` of `h + z`, when no `sep` starts
      within `h`. */
  lemma {:induction false} BeforeAcross(h: string, z: string, sep: string)
    requires |sep| >= 2 && PairAbsent(h, sep[0], sep[1])
    requires h == [] || h[|h| - 1] != sep[0]
    ensures Before(h + z, sep) == h + Before(z, sep)
    decreases |h|
  {
    if h != [] {
      var s := h + z;
      assert s[0] == h[0];
      assert |h| >= 2 ==> s[1] == h[1];
      assert !StartsWith(s, sep) by {
        if |sep| <= |s| {
          assert s[..|sep|][0] == s[0] && s[..|sep|][1] == s[1];
        }
      }
      PairAbsentTail(h, sep[0], sep[1]);
      assert s[1..] == h[1..] + z;
      BeforeAcross(h[1..], z, sep);
      assert h == [h[0]] + h[1..];
    } else {
      assert h + z == z;
    }
  }

  /** The text after the last `c` of `x + [c] + t`, when `t` holds none,
      is `t`. */
  lemma {:induction false} AfterLastOf(x: string, c: char, t: string)
    requires !Contains(t, [c])
    ensures AfterLast(x + [c] + t, [c]) == t
    decreases |x|
  {
    AroundFirst(x, [c]);
    if Contains(x, [c]) {
      var a, b := Before(x, [c]), After(x, [c]);
      BeforeExcludes(x, [c]);
      assert x + [c] + t == a + [c] + (b + [c] + t);
      FirstAfter(a, c, b + [c] + t);
      AfterLastOf(b, c, t);
    } else {
      FirstAfter(x, c, t);
      AroundFirst(t, [c]);
    }
  }

  /** A string containing `t + u` contains `t`. */
  lemma {:induction false} ContainsFront(s: string, t: string, u: string)
    requires Contains(s, t + u)
    ensures Contains(s, t)
    decreases |s|
  {
    if StartsWith(s, t + u) {
      assert s[..|t|] == (t + u)[..|t|] == t;
    } else {
      ContainsFront(s[1..], t, u);
    }
  }
}
