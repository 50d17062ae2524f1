/**
 * Text operations shared by the server and the recogniser: whitespace
 * trimming as JavaScript's `String.prototype.trim` and Python's `str.strip`
 * do it, and Python's `str.split` on a one-character separator.
 */
module Strings {

  /** WhiteSpace and LineTerminator code points of ECMAScript, removed by `trim`. */
  predicate IsJsSpace(c: char) {
    c == '\t' || c == '\n' || c == '\U{B}' || c == '\U{C}' || c == '\r' || c == ' '
    || c == '\U{A0}' || c == '\U{1680}' || ('\U{2000}' <= c <= '\U{200A}')
    || c == '\U{2028}' || c == '\U{2029}' || c == '\U{202F}' || c == '\U{205F}'
    || c == '\U{3000}' || c == '\U{FEFF}'
  }

  /** Characters for which Python's `str.isspace` holds, removed by `strip()`. */
  predicate IsPySpace(c: char) {
    ('\t' <= c <= '\r') || ('\U{1C}' <= c <= '\U{1F}') || c == ' '
    || c == '\U{85}' || c == '\U{A0}' || c == '\U{1680}' || ('\U{2000}' <= c <= '\U{200A}')
    || c == '\U{2028}' || c == '\U{2029}' || c == '\U{202F}' || c == '\U{205F}'
    || c == '\U{3000}'
  }

  /** Which language's notion of whitespace a trim uses. */
  datatype Whitespace = JsWhitespace | PyWhitespace

  predicate IsSpace(ws: Whitespace, c: char) {
    if ws == JsWhitespace then IsJsSpace(c) else IsPySpace(c)
  }

  predicate AllSpace(s: string, ws: Whitespace) {
    forall i :: 0 <= i < |s| ==> IsSpace(ws, s[i])
  }

  /** `s` without its leading whitespace. */
  function TrimStart(s: string, ws: Whitespace): string
    decreases |s|
  {
    if |s| > 0 && IsSpace(ws, s[0]) then TrimStart(s[1..], ws) else s
  }

  /** `s` without its trailing whitespace. */
  function TrimEnd(s: string, ws: Whitespace): string
    decreases |s|
  {
    if |s| > 0 && IsSpace(ws, s[|s| - 1]) then TrimEnd(s[..|s| - 1], ws) else s
  }

  /** Both ends trimmed. */
  function Strip(s: string, ws: Whitespace): string {
    TrimStart(TrimEnd(s, ws), ws)
  }

  /** JavaScript `s.trim()`. */
  function JsTrim(s: string): string {
    Strip(s, JsWhitespace)
  }

  /** Python `s.strip()`. */
  function PyStrip(s: string): string {
    Strip(s, PyWhitespace)
  }

  /** `TrimStart` gives the suffix of `s` that is preceded only by whitespace and does
      not itself start with whitespace. */
  lemma {:induction false} TrimStartSpec(s: string, ws: Whitespace)
    ensures var r := TrimStart(s, ws);
      && |r| <= |s| && r == s[|s| - |r|..]
      && AllSpace(s[..|s| - |r|], ws)
      && (r == [] || !IsSpace(ws, r[0]))
    decreases |s|
  {
    if |s| > 0 && IsSpace(ws, s[0]) {
      TrimStartSpec(s[1..], ws);
      var r := TrimStart(s, ws);
      var n := |s| - |r|;
      forall i | 0 <= i < n ensures IsSpace(ws, s[..n][i]) {
        if i > 0 { assert s[..n][i] == s[1..][..n - 1][i - 1]; }
      }
    }
  }

  /** `TrimEnd` gives the prefix of `s` that is followed only by whitespace and does not
      itself end with whitespace. */
  lemma {:induction false} TrimEndSpec(s: string, ws: Whitespace)
    ensures var r := TrimEnd(s, ws);
      && |r| <= |s| && r == s[..|r|]
      && AllSpace(s[|r|..], ws)
      && (r == [] || !IsSpace(ws, r[|r| - 1]))
    decreases |s|
  {
    if |s| > 0 && IsSpace(ws, s[|s| - 1]) {
      var m := |s| - 1;
      TrimEndSpec(s[..m], ws);
      var r := TrimEnd(s, ws);
      forall i | 0 <= i < |s| - |r| ensures IsSpace(ws, s[|r|..][i]) {
        if |r| + i < m { assert s[|r|..][i] == s[..m][|r|..][i]; }
      }
    }
  }

  lemma {:induction false} TrimStartSkipsSpace(pre: string, x: string, ws: Whitespace)
    requires AllSpace(pre, ws)
    ensures TrimStart(pre + x, ws) == TrimStart(x, ws)
    decreases |pre|
  {
    if pre != [] {
      assert (pre + x)[1..] == pre[1..] + x;
      TrimStartSkipsSpace(pre[1..], x, ws);
    } else {
      assert pre + x == x;
    }
  }

  lemma {:induction false} TrimEndSkipsSpace(x: string, post: string, ws: Whitespace)
    requires AllSpace(post, ws)
    ensures TrimEnd(x + post, ws) == TrimEnd(x, ws)
    decreases |post|
  {
    if post != [] {
      var n := |post| - 1;
      assert (x + post)[..|x + post| - 1] == x + post[..n];
      TrimEndSkipsSpace(x, post[..n], ws);
    } else {
      assert x + post == x;
    }
  }

  /** Trimming the end of `x + y` leaves `x` alone when `y` holds a non-space character. */
  lemma {:induction false} TrimEndKeepsPrefix(x: string, y: string, ws: Whitespace)
    requires !AllSpace(y, ws)
    ensures TrimEnd(x + y, ws) == x + TrimEnd(y, ws)
    decreases |y|
  {
    var n := |y| - 1;
    if IsSpace(ws, y[n]) {
      assert (x + y)[..|x + y| - 1] == x + y[..n];
      assert !AllSpace(y[..n], ws) by {
        var i :| 0 <= i < |y| && !IsSpace(ws, y[i]);
        assert i < n && y[..n][i] == y[i];
      }
      TrimEndKeepsPrefix(x, y[..n], ws);
    }
  }

  /** Surrounding whitespace never changes what `Strip` gives. */
  lemma StripIgnoresSurroundingSpace(pre: string, s: string, post: string, ws: Whitespace)
    requires AllSpace(pre, ws) && AllSpace(post, ws)
    ensures Strip(pre + s + post, ws) == Strip(s, ws)
  {
    TrimEndSkipsSpace(pre + s, post, ws);
    var e := TrimEnd(s, ws);
    if AllSpace(s, ws) {
      assert AllSpace(pre + s, ws) by {
        forall i | 0 <= i < |pre + s| ensures IsSpace(ws, (pre + s)[i]) {
          if i >= |pre| { assert (pre + s)[i] == s[i - |pre|]; }
        }
      }
      TrimEndSkipsSpace([], pre + s, ws);
      assert [] + (pre + s) == pre + s;
      TrimEndSkipsSpace([], s, ws);
      assert [] + s == s;
    } else {
      TrimEndKeepsPrefix(pre, s, ws);
      TrimStartSkipsSpace(pre, e, ws);
    }
  }

  /** First index of `c` in `s`, or `|s|` when `c` does not occur. */
  function IndexOf(s: string, c: char): (i: nat)
    ensures i <= |s|
    ensures c !in s[..i]
    ensures i < |s| ==> s[i] == c
    decreases |s|
  {
    if s == [] then 0
    else if s[0] == c then 0
    else
      assert s[1..][..IndexOf(s[1..], c)] == s[1..1 + IndexOf(s[1..], c)];
      1 + IndexOf(s[1..], c)
  }

  /** Python `s.split(sep)` for a one-character separator. */
  function Split(s: string, sep: char): (parts: seq<string>)
    ensures |parts| >= 1
    decreases |s|
  {
    if IndexOf(s, sep) == |s| then [s] else [s[..IndexOf(s, sep)]] + Split(s[IndexOf(s, sep) + 1..], sep)
  }

  /** Python `sep.join(parts)`. */
  function Join(parts: seq<string>, sep: char): string
    decreases |parts|
  {
    if parts == [] then ""
    else if |parts| == 1 then parts[0]
    else parts[0] + [sep] + Join(parts[1..], sep)
  }

  /** A text is its part before a separator, the separator and its part after. */
  lemma Rejoin(s: string, i: nat, sep: char)
    requires i < |s| && s[i] == sep
    ensures s[..i] + [sep] + s[i + 1..] == s
  {
    assert s[i..] == [sep] + s[i + 1..];
    assert s == s[..i] + s[i..];
  }

  /** One step of `Split` at the first separator. */
  lemma SplitFirst(s: string, sep: char)
    requires IndexOf(s, sep) < |s|
    ensures Split(s, sep) == [s[..IndexOf(s, sep)]] + Split(s[IndexOf(s, sep) + 1..], sep)
  {
  }

  /** The number of occurrences of `c` in `s`. */
  function Occurrences(s: string, c: char): nat
    decreases |s|
  {
    if s == [] then 0 else (if s[0] == c then 1 else 0) + Occurrences(s[1..], c)
  }

  lemma {:induction false} OccurrencesAppend(a: string, b: string, c: char)
    ensures Occurrences(a + b, c) == Occurrences(a, c) + Occurrences(b, c)
    decreases |a|
  {
    if a == [] {
      assert a + b == b;
    } else {
      assert (a + b)[1..] == a[1..] + b;
      OccurrencesAppend(a[1..], b, c);
    }
  }

  /** `Occurrences` is the multiplicity in the multiset of the text. */
  lemma {:induction false} OccurrencesInMultiset(s: string, c: char)
    ensures Occurrences(s, c) == multiset(s)[c]
    decreases |s|
  {
    if s != [] {
      OccurrencesInMultiset(s[1..], c);
      assert s == [s[0]] + s[1..];
      assert multiset(s) == multiset([s[0]]) + multiset(s[1..]);
    }
  }

  /** `split` yields one field more than there are separators. */
  lemma {:induction false} SplitOccurrences(s: string, sep: char)
    ensures |Split(s, sep)| == Occurrences(s, sep) + 1
    decreases |s|
  {
    var i := IndexOf(s, sep);
    OccurrencesInMultiset(s[..i], sep);
    if i == |s| {
      assert s[..i] == s;
    } else {
      var rest := s[i + 1..];
      SplitOccurrences(rest, sep);
      SplitFirst(s, sep);
      Rejoin(s, i, sep);
      OccurrencesAppend(s[..i] + [sep], rest, sep);
      OccurrencesAppend(s[..i], [sep], sep);
    }
  }

  /** `split` yields one field more than there are separators. */
  lemma SplitCount(s: string, sep: char)
    ensures |Split(s, sep)| == multiset(s)[sep] + 1
  {
    SplitOccurrences(s, sep);
    OccurrencesInMultiset(s, sep);
  }

  /** No field of a `split` holds the separator. */
  lemma {:induction false} SplitFieldsFree(s: string, sep: char)
    ensures forall k :: 0 <= k < |Split(s, sep)| ==> sep !in Split(s, sep)[k]
    decreases |s|
  {
    var i := IndexOf(s, sep);
    if i < |s| {
      var rest := s[i + 1..];
      SplitFieldsFree(rest, sep);
      SplitFirst(s, sep);
      FieldsFreeCons(s[..i], Split(rest, sep), sep);
    } else {
      assert s[..i] == s;
    }
  }

  lemma FieldsFreeCons(head: string, tail: seq<string>, sep: char)
    requires sep !in head && forall k :: 0 <= k < |tail| ==> sep !in tail[k]
    ensures forall k :: 0 <= k < |[head] + tail| ==> sep !in ([head] + tail)[k]
  {
    forall k | 0 <= k < |[head] + tail| ensures sep !in ([head] + tail)[k] {
      if k > 0 {
        assert ([head] + tail)[k] == tail[k - 1];
      }
    }
  }

  lemma JoinCons(head: string, tail: seq<string>, sep: char)
    requires |tail| >= 1
    ensures Join([head] + tail, sep) == head + [sep] + Join(tail, sep)
  {
    assert ([head] + tail)[1..] == tail;
  }

  /** Joining the fields of a split with the same separator gives the text back. */
  lemma {:induction false} JoinSplit(s: string, sep: char)
    ensures Join(Split(s, sep), sep) == s
    decreases |s|
  {
    var i := IndexOf(s, sep);
    if i == |s| {
      assert s[..i] == s;
    } else {
      var head, rest := s[..i], s[i + 1..];
      SplitFirst(s, sep);
      JoinCons(head, Split(rest, sep), sep);
      JoinSplit(rest, sep);
      Rejoin(s, i, sep);
    }
  }

  /** A text splits into exactly two fields when it holds exactly one separator;
      the second field is then everything after that separator. */
  lemma SplitInTwo(s: string, sep: char)
    ensures |Split(s, sep)| == 2 <==> multiset(s)[sep] == 1
    ensures |Split(s, sep)| == 2 ==> Split(s, sep)[1] == s[IndexOf(s, sep) + 1..]
  {
    SplitCount(s, sep);
    var i := IndexOf(s, sep);
    if i < |s| {
      var rest := s[i + 1..];
      SplitCount(rest, sep);
      if |Split(rest, sep)| == 1 {
        assert IndexOf(rest, sep) == |rest|;
      }
    }
  }
}
