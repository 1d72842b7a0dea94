/**
 * The few JavaScript string operations the response parsers are built from,
 * stated over `seq<char>`: the whitespace class shared by `String.prototype.trim`
 * and the regular-expression class `\s`, `indexOf`, `split` with a string
 * separator, `Array.prototype.join`, and `replace` with a string pattern
 * (which replaces the first occurrence only).
 */
module JsStrings {
  import opened Common

  /** The characters ECMAScript counts as WhiteSpace or LineTerminator. */
  predicate IsJsSpace(c: char) {
    || c == '\t' || c == '\n' || c == '\U{000B}' || c == '\U{000C}' || c == '\r'
    || c == ' ' || c == '\U{00A0}' || c == '\U{1680}'
    || ('\U{2000}' <= c <= '\U{200A}')
    || c == '\U{2028}' || c == '\U{2029}' || c == '\U{202F}' || c == '\U{205F}'
    || c == '\U{3000}' || c == '\U{FEFF}'
  }

  /** The class `\d` of a regular expression without the `u` flag. */
  predicate IsDigit(c: char) {
    '0' <= c <= '9'
  }

  /** Number of leading characters of `s` that satisfy `p`. */
  function Span(s: string, p: char -> bool): (n: nat)
    ensures n <= |s|
    ensures forall k :: 0 <= k < n ==> p(s[k])
    ensures n == |s| || !p(s[n])
  {
    if |s| > 0 && p(s[0]) then 1 + Span(s[1..], p) else 0
  }

  /** Number of trailing characters of `s` that satisfy `p`. */
  function BackSpan(s: string, p: char -> bool): (n: nat)
    ensures n <= |s|
    ensures forall k :: |s| - n <= k < |s| ==> p(s[k])
    ensures n == |s| || !p(s[|s| - 1 - n])
  {
    if |s| > 0 && p(s[|s| - 1]) then 1 + BackSpan(s[..|s| - 1], p) else 0
  }

  predicate AllSpace(s: string) {
    forall k :: 0 <= k < |s| ==> IsJsSpace(s[k])
  }

  /** `s` has no whitespace at either end: `trim` leaves it as it is. */
  predicate Trimmed(s: string) {
    s == [] || (!IsJsSpace(s[0]) && !IsJsSpace(s[|s| - 1]))
  }

  function TrimStart(s: string): string {
    s[Span(s, IsJsSpace)..]
  }

  function TrimEnd(s: string): string {
    s[..|s| - BackSpan(s, IsJsSpace)]
  }

  /** `String.prototype.trim`. */
  function Trim(s: string): string {
    TrimEnd(TrimStart(s))
  }

  /**
   * `trim` removes exactly the whitespace at both ends: what it returns is a
   * contiguous part of `s` with nothing but whitespace around it, and it is
   * empty exactly when `s` is all whitespace.
   */
  lemma {:induction false} TrimSpec(s: string)
    ensures var i := Span(s, IsJsSpace);
            i + |Trim(s)| <= |s| && Trim(s) == s[i..i + |Trim(s)|]
            && AllSpace(s[..i]) && AllSpace(s[i + |Trim(s)|..])
    ensures Trimmed(Trim(s))
    ensures Trim(s) == [] <==> AllSpace(s)
  {
    var i := Span(s, IsJsSpace);
    var t := s[i..];
    var m := |t| - BackSpan(t, IsJsSpace);
    TrimParts(s, i, t, m);
    TrimSpecEmpty(s, i, t);
  }

  lemma {:induction false} TrimParts(s: string, i: nat, t: string, m: nat)
    requires i == Span(s, IsJsSpace) && t == s[i..] && m == |t| - BackSpan(t, IsJsSpace)
    ensures Trim(s) == t[..m] == s[i..i + m]
    ensures AllSpace(s[..i]) && AllSpace(s[i + m..])
    ensures Trimmed(t[..m])
  {
    assert s[i + m..] == t[m..];
    assert AllSpace(t[m..]);
  }

  lemma {:induction false} TrimSpecEmpty(s: string, i: nat, t: string)
    requires i == Span(s, IsJsSpace) && t == s[i..]
    ensures Trim(s) == [] <==> AllSpace(s)
  {
    if i < |s| {
      assert !IsJsSpace(t[0]);
      assert BackSpan(t, IsJsSpace) < |t|;
      assert !IsJsSpace(s[i]);
    }
  }

  lemma {:induction false} TrimmedIsFixed(s: string)
    requires Trimmed(s)
    ensures Trim(s) == s
  {
    if s != [] {
      assert Span(s, IsJsSpace) == 0;
      assert BackSpan(s, IsJsSpace) == 0;
    }
  }

  /** Whitespace put around a trimmed string is what `trim` takes away again. */
  lemma {:induction false} TrimPadded(w: string, t: string, v: string)
    requires AllSpace(w) && AllSpace(v) && Trimmed(t) && t != []
    ensures Trim(w + t + v) == t
  {
    var s := w + t + v;
    SpanAllSpace(w, t + v);
    assert s == w + (t + v);
    assert TrimStart(s) == t + v;
    BackSpanAllSpace(t, v);
  }

  lemma {:induction false} SpanAllSpace(w: string, u: string)
    requires AllSpace(w)
    requires u == [] || !IsJsSpace(u[0])
    ensures Span(w + u, IsJsSpace) == |w|
  {
    if w != [] {
      assert (w + u)[1..] == w[1..] + u;
      SpanAllSpace(w[1..], u);
    }
  }

  lemma {:induction false} BackSpanAllSpace(u: string, v: string)
    requires AllSpace(v)
    requires u == [] || !IsJsSpace(u[|u| - 1])
    ensures BackSpan(u + v, IsJsSpace) == |v|
  {
    if v != [] {
      assert (u + v)[..|u + v| - 1] == u + v[..|v| - 1];
      BackSpanAllSpace(u, v[..|v| - 1]);
    }
  }

  // ---------------------------------------------------------------------
  // indexOf, split, join, replace

  /** `pat` occurs in `s` starting at index `j`. */
  predicate OccursAt(s: string, pat: string, j: nat) {
    j + |pat| <= |s| && s[j..j + |pat|] == pat
  }

  /** `String.prototype.indexOf`: the first index at which `pat` occurs. */
  function IndexOf(s: string, pat: string): (r: Option<nat>)
    ensures r.Some? ==> OccursAt(s, pat, r.value)
    ensures r.Some? ==> forall j: nat :: j < r.value ==> !OccursAt(s, pat, j)
    ensures r.None? ==> forall j: nat :: !OccursAt(s, pat, j)
    decreases |s|
  {
    if |s| < |pat| then None
    else if s[..|pat|] == pat then assert s[0..|pat|] == s[..|pat|]; Some(0)
    else
      assert s[0..|pat|] == s[..|pat|];
      ShiftOccurs(s, pat);
      match IndexOf(s[1..], pat)
      case None => None
      case Some(i) => Some(i + 1)
  }

  /** Occurrences in `s[1..]` are the occurrences in `s` moved one place left. */
  lemma {:induction false} ShiftOccurs(s: string, pat: string)
    requires |s| > 0
    ensures forall j: nat :: j >= 1 ==> (OccursAt(s, pat, j) <==> OccursAt(s[1..], pat, j - 1))
  {
    forall j: nat | j >= 1 ensures OccursAt(s, pat, j) <==> OccursAt(s[1..], pat, j - 1) {
      if j + |pat| <= |s| {
        assert s[1..][j - 1..j - 1 + |pat|] == s[j..j + |pat|];
      }
    }
  }

  /** The first occurrence is determined by an occurrence with none before it. */
  lemma {:induction false} IndexOfIs(s: string, pat: string, i: nat)
    requires OccursAt(s, pat, i)
    requires forall j: nat :: j < i ==> !OccursAt(s, pat, j)
    ensures IndexOf(s, pat) == Some(i)
  {
  }

  /** An occurrence inside a prefix is an occurrence in the whole string, and back. */
  lemma {:induction false} OccursInPrefix(s: string, t: string, pat: string, j: nat)
    requires j + |pat| <= |s|
    ensures OccursAt(s, pat, j) <==> OccursAt(s + t, pat, j)
  {
    assert (s + t)[j..j + |pat|] == s[j..j + |pat|];
  }

  /** The first occurrence in `s` stays the first one whatever is appended. */
  lemma {:induction false} IndexOfExtend(s: string, t: string, pat: string)
    requires IndexOf(s, pat).Some?
    ensures IndexOf(s + t, pat) == IndexOf(s, pat)
  {
    var i := IndexOf(s, pat).value;
    forall j: nat | j < i ensures !OccursAt(s + t, pat, j) {
      OccursInPrefix(s, t, pat, j);
    }
    OccursInPrefix(s, t, pat, i);
    IndexOfIs(s + t, pat, i);
  }

  /** `String.prototype.split` with a non-empty string separator. */
  function Split(s: string, sep: string): (r: seq<string>)
    requires sep != []
    ensures |r| >= 1
    decreases |s|
  {
    match IndexOf(s, sep)
    case None => [s]
    case Some(i) => [s[..i]] + Split(s[i + |sep|..], sep)
  }

  /** Splitting where the first separator lies inside `s`: the first piece comes from `s`. */
  lemma {:induction false} SplitHead(s: string, t: string, sep: string, i: nat)
    requires sep != [] && IndexOf(s, sep) == Some(i)
    ensures i + |sep| <= |s|
    ensures Split(s + t, sep) == [s[..i]] + Split(s[i + |sep|..] + t, sep)
  {
    IndexOfExtend(s, t, sep);
    var u := s + t;
    SplitAt(u, sep, i);
    AppendSlices(s, t, i, i + |sep|);
  }

  /** One step of `Split` at the first separator. */
  lemma {:induction false} SplitAt(s: string, sep: string, i: nat)
    requires sep != [] && IndexOf(s, sep) == Some(i)
    ensures Split(s, sep) == [s[..i]] + Split(s[i + |sep|..], sep)
  {
  }

  /** A split has more than one piece exactly when the separator occurs. */
  lemma {:induction false} SplitCount(s: string, sep: string)
    requires sep != []
    ensures |Split(s, sep)| > 1 <==> IndexOf(s, sep).Some?
  {
  }

  lemma {:induction false} AppendSlices(s: string, t: string, i: nat, j: nat)
    requires i <= j <= |s|
    ensures (s + t)[..i] == s[..i] && (s + t)[j..] == s[j..] + t
  {
  }

  /** The pieces of a split before its k-th separator do not depend on what follows it. */
  lemma {:induction false} SplitExtend(s: string, t: string, sep: string, k: nat)
    requires sep != [] && |Split(s, sep)| > k
    ensures |Split(s + t, sep)| > k
    ensures forall j :: 0 <= j < k ==> Split(s + t, sep)[j] == Split(s, sep)[j]
    decreases k
  {
    if k > 0 {
      SplitCount(s, sep);
      var i := IndexOf(s, sep).value;
      var rest := s[i + |sep|..];
      SplitAt(s, sep, i);
      SplitHead(s, t, sep, i);
      SplitExtend(rest, t, sep, k - 1);
      ConsAgree(s[..i], Split(rest, sep), Split(rest + t, sep), k - 1);
    }
  }

  /** Lists that agree below `n` still agree below `n + 1` behind the same head. */
  lemma {:induction false} ConsAgree(x: string, a: seq<string>, b: seq<string>, n: nat)
    requires |a| > n && |b| > n && forall j :: 0 <= j < n ==> b[j] == a[j]
    ensures |[x] + b| > n + 1 && forall j :: 0 <= j < n + 1 ==> ([x] + b)[j] == ([x] + a)[j]
  {
    forall j | 0 <= j < n + 1 ensures ([x] + b)[j] == ([x] + a)[j] {
      if j > 0 {
        assert ([x] + b)[j] == b[j - 1] && ([x] + a)[j] == a[j - 1];
      }
    }
  }

  lemma {:induction false} PrefixBeforeFirst(s: string, sep: string, i: nat)
    requires sep != [] && IndexOf(s, sep) == Some(i)
    ensures IndexOf(s[..i], sep).None?
  {
    forall j: nat ensures !OccursAt(s[..i], sep, j) {
      if j + |sep| <= i {
        SliceOfPrefix(s, i, j, |sep|);
        assert !OccursAt(s, sep, j);
      }
    }
  }

  lemma {:induction false} SliceOfPrefix(s: string, i: nat, j: nat, n: nat)
    requires j + n <= i <= |s|
    ensures s[..i][j..j + n] == s[j..j + n]
  {
  }

  /** `Array.prototype.join`. */
  function Join(parts: seq<string>, sep: string): string {
    if |parts| == 0 then []
    else if |parts| == 1 then parts[0]
    else parts[0] + sep + Join(parts[1..], sep)
  }

  /** Joining a concatenation puts one separator between the two joins. */
  lemma {:induction false} JoinAppend(a: seq<string>, b: seq<string>, sep: string)
    requires a != [] && b != []
    ensures Join(a + b, sep) == Join(a, sep) + sep + Join(b, sep)
    decreases |a|
  {
    if |a| == 1 {
      assert (a + b)[1..] == b;
    } else {
      assert (a + b)[1..] == a[1..] + b;
      JoinAppend(a[1..], b, sep);
    }
  }

  /** Joining the pieces of a split with the same separator gives back the string. */
  lemma {:induction false} JoinSplit(s: string, sep: string)
    requires sep != []
    ensures Join(Split(s, sep), sep) == s
    decreases |s|
  {
    if IndexOf(s, sep).Some? {
      var i := IndexOf(s, sep).value;
      var rest := s[i + |sep|..];
      var pieces := Split(rest, sep);
      assert Split(s, sep) == [s[..i]] + pieces;
      JoinSplit(rest, sep);
      assert ([s[..i]] + pieces)[1..] == pieces;
      assert Join(Split(s, sep), sep) == s[..i] + sep + rest;
      assert s[i..i + |sep|] == sep;
      assert s == s[..i] + s[i..i + |sep|] + rest;
    }
  }

  /**
   * Splitting at the first occurrence: when `sep` does not occur in `x`, nor
   * across its end into `sep` itself, the first piece of `x + sep + y` is `x`.
   */
  lemma {:induction false} SplitAtFirst(x: string, sep: string, y: string)
    requires sep != []
    requires forall j: nat :: j < |x| ==> !OccursAt(x + sep + y, sep, j)
    ensures Split(x + sep + y, sep) == [x] + Split(y, sep)
  {
    var s := x + sep + y;
    assert s[|x|..|x| + |sep|] == sep;
    IndexOfIs(s, sep, |x|);
    assert s[..|x|] == x;
    assert s[|x| + |sep|..] == y;
  }

  /** Splitting on a one-character separator cuts at its first occurrence. */
  lemma {:induction false} SplitLine(line: string, c: char, rest: string)
    requires c !in line
    ensures Split(line + [c] + rest, [c]) == [line] + Split(rest, [c])
    ensures Split(line, [c]) == [line]
  {
    var s := line + [c] + rest;
    forall j: nat | j < |line| ensures !OccursAt(s, [c], j) {
      assert s[j..j + 1] == [line[j]];
    }
    SplitAtFirst(line, [c], rest);
    forall j: nat ensures !OccursAt(line, [c], j) {
      if j + 1 <= |line| { assert line[j..j + 1] == [line[j]]; }
    }
  }

  /** Splitting on a one-character separator undoes a join of pieces without it. */
  lemma {:induction false} SplitJoinChar(parts: seq<string>, c: char)
    requires |parts| >= 1
    requires forall k :: 0 <= k < |parts| ==> c !in parts[k]
    ensures Split(Join(parts, [c]), [c]) == parts
    decreases |parts|
  {
    if |parts| == 1 {
      forall j: nat ensures !OccursAt(parts[0], [c], j) {
        if j < |parts[0]| { assert parts[0][j] in parts[0]; }
      }
    } else {
      var x, rest := parts[0], Join(parts[1..], [c]);
      forall j: nat | j < |x| ensures !OccursAt(x + [c] + rest, [c], j) {
        assert (x + [c] + rest)[j] == x[j];
        assert x[j] in x;
      }
      SplitAtFirst(x, [c], rest);
      SplitJoinChar(parts[1..], c);
    }
  }

  /** `String.prototype.replace` with a string pattern: the first occurrence only. */
  function ReplaceFirst(s: string, pat: string, with: string): string {
    match IndexOf(s, pat)
    case None => s
    case Some(i) => s[..i] + with + s[i + |pat|..]
  }

  lemma {:induction false} ReplaceEmptyPattern(s: string, with: string)
    ensures ReplaceFirst(s, [], with) == with + s
  {
    assert OccursAt(s, [], 0);
    IndexOfIs(s, [], 0);
  }

  /**
   * A pattern whose first character does not appear in `s` before index `i`
   * and occurs at `i` is replaced there.
   */
  lemma {:induction false} ReplaceAt(s: string, pat: string, with: string, i: nat)
    requires pat != [] && OccursAt(s, pat, i)
    requires forall j :: 0 <= j < i ==> s[j] != pat[0]
    ensures ReplaceFirst(s, pat, with) == s[..i] + with + s[i + |pat|..]
  {
    forall j: nat | j < i ensures !OccursAt(s, pat, j) {
      if j + |pat| <= |s| { assert s[j..j + |pat|][0] == s[j]; }
    }
    IndexOfIs(s, pat, i);
  }
}
