/**
 * The Anthropic client: `summarizeText` refuses to run without an API key,
 * sends one message, and cuts the reply into sections at numbered headings
 * (`split(/\d+\./)`), drops empty sections, and reads bullet lines and
 * timeline lines out of the first three. The regular expressions are written
 * out as the character classes and scans they denote.
 */
module Anthropic {
  import opened JsStrings
  import opened Common

  const KEY_MISSING: string := "Anthropic API key is not configured"
  const MODEL: string := "claude-3-opus-20240229"
  const MAX_TOKENS: nat := 1024
  const DEFAULT_TIME: string := "0:00"
  const LINE_SEPARATOR: string := "\n"

  /** The one request `summarizeText` sends: `messages.create` with the transcript in its prompt. */
  datatype Request = CreateMessage(model: string, maxTokens: nat, transcript: string)

  /** The requests a call issued, in order, and how it ended. */
  datatype Call<T> = Call(requests: seq<Request>, result: Result<T>)

  // ---------------------------------------------------------------------
  // split(/\d+\./)

  /**
   * Where a match of `\d+\.` starting at `q` ends, if there is one: the
   * greedy digit run must be followed by a dot (a shorter run is followed
   * by a digit, so backtracking cannot help).
   */
  function HeaderEnd(s: string, q: nat): Option<nat>
    requires q <= |s|
  {
    if q < |s| && IsDigit(s[q]) then
      var e := q + Span(s[q..], IsDigit);
      if e < |s| && s[e] == '.' then Some(e + 1) else None
    else None
  }

  /** The leftmost match at or after `q`, as its start and end. */
  function FindHeader(s: string, q: nat): (r: Option<(nat, nat)>)
    requires q <= |s|
    ensures r.Some? ==> q <= r.value.0 < r.value.1 <= |s| && HeaderEnd(s, r.value.0) == Some(r.value.1)
    ensures r.Some? ==> forall j :: q <= j < r.value.0 ==> HeaderEnd(s, j).None?
    ensures r.None? ==> forall j :: q <= j <= |s| ==> HeaderEnd(s, j).None?
    decreases |s| - q
  {
    if q == |s| then None
    else match HeaderEnd(s, q)
      case Some(e) => Some((q, e))
      case None => FindHeader(s, q + 1)
  }

  /** `s.split(/\d+\./)`: the pieces between matches, scanning left to right. */
  function Cut(s: string): (r: seq<string>)
    ensures |r| >= 1
    decreases |s|
  {
    match FindHeader(s, 0)
    case None => [s]
    case Some((a, e)) => [s[..a]] + Cut(s[e..])
  }

  predicate NonEmpty(piece: string) {
    piece != []
  }

  /** `.filter(Boolean)`: only empty pieces go. */
  function Sections(s: string): seq<string> {
    Filter(Cut(s), NonEmpty)
  }

  // ---------------------------------------------------------------------
  // The line rules

  /** `line.trim()` is truthy. */
  predicate NotBlank(line: string) {
    Trim(line) != []
  }

  /** `t.replace(/^[\-\*]\s*\/, "")`. */
  function StripBullet(t: string): string {
    if |t| > 0 && (t[0] == '-' || t[0] == '*') then TrimStart(t[1..]) else t
  }

  function ListEntry(line: string): string {
    StripBullet(Trim(line))
  }

  predicate IsTimeChar(c: char) {
    IsDigit(c) || c == ':'
  }

  predicate NotTimeChar(c: char) {
    !IsTimeChar(c)
  }

  /** `line.match(/([\d:]+)/)`: the leftmost maximal run of digits and colons. */
  function TimeToken(line: string): Option<string> {
    var q := Span(line, NotTimeChar);
    if q == |line| then None else Some(line[q..q + Span(line[q..], IsTimeChar)])
  }

  function TimelineEntry(line: string): Timestamp {
    var token := TimeToken(line);
    var time := if token.Some? then token.value else DEFAULT_TIME;
    var pattern := if token.Some? then token.value else [];
    Timestamp(time, Trim(ReplaceFirst(StripBullet(line), pattern, [])))
  }

  function Entries(section: string): seq<string> {
    FilterMap(Split(section, LINE_SEPARATOR), NotBlank, ListEntry)
  }

  function Timeline(section: string): seq<Timestamp> {
    FilterMap(Split(section, LINE_SEPARATOR), NotBlank, TimelineEntry)
  }

  /** The parse of the reply text; indexing a missing section throws a TypeError. */
  function ParseReply(result: string): (r: Result<Analysis>)
    ensures r.Err? <==> |Sections(result)| < 3
    ensures r.Err? ==> r.error == SectionMissing(|Sections(result)|)
  {
    var sections := Sections(result);
    if |sections| < 3 then Err(SectionMissing(|sections|))
    else Ok(Analysis(Entries(sections[0]), Entries(sections[1]), Timeline(sections[2])))
  }

  /**
   * `summarizeText(transcript)` given the text of the first content block the
   * API would return, or the reason the request rejected.
   */
  function SummarizeText(key: Option<string>, transcript: string, reply: Result<string>): (r: Call<Analysis>)
    ensures r.requests == [] <==> !Configured(key)
    ensures !Configured(key) ==> r.result == Err(Thrown(KEY_MISSING))
    ensures Configured(key) ==> r.requests == [CreateMessage(MODEL, MAX_TOKENS, transcript)]
    ensures Configured(key) && reply.Err? ==> r.result == Err(reply.error)
    ensures Configured(key) && reply.Ok? ==> r.result == ParseReply(reply.value)
  {
    if !Configured(key) then Call([], Err(Thrown(KEY_MISSING)))
    else
      var result := match reply
        case Err(e) => Err(e)
        case Ok(text) => ParseReply(text);
      Call([CreateMessage(MODEL, MAX_TOKENS, transcript)], result)
  }

  // ---------------------------------------------------------------------
  // Where the reply is cut

  /** No digit of `s` is directly followed by a dot. */
  predicate DotFree(s: string) {
    forall k :: 0 <= k < |s| ==> !DigitDot(s, k)
  }

  /** A digit at `k` with a dot right after it. */
  predicate DigitDot(s: string, k: nat) {
    k + 1 < |s| && IsDigit(s[k]) && s[k + 1] == '.'
  }

  /** The leftmost match is determined by a match with none before it. */
  lemma {:induction false} FindHeaderIs(s: string, a: nat, e: nat)
    requires a <= |s| && HeaderEnd(s, a) == Some(e)
    requires forall j :: 0 <= j < a ==> HeaderEnd(s, j).None?
    ensures FindHeader(s, 0) == Some((a, e))
  {
  }

  /** A digit run that ends inside `s` before a character other than a dot is not a heading. */
  lemma {:induction false} NoHeaderAt(s: string, j: nat, limit: nat)
    requires j < limit <= |s| && DotFree(s[..limit])
    requires limit == |s| || !IsDigit(s[limit - 1])
    ensures HeaderEnd(s, j).None?
  {
    if IsDigit(s[j]) {
      var n := Span(s[j..], IsDigit);
      var e := j + n;
      assert forall k :: j <= k < e ==> IsDigit(s[k]) by {
        forall k | j <= k < e ensures IsDigit(s[k]) { assert s[j..][k - j] == s[k]; }
      }
      if e < |s| {
        assert !IsDigit(s[j..][n]);
        assert s[e] == s[j..][n];
        assert e < limit;
        assert s[..limit][e - 1] == s[e - 1] && s[..limit][e] == s[e];
        assert !DigitDot(s[..limit], e - 1);
      }
    }
  }

  /** A reply with no digit directly before a dot is not cut at all, and only such a reply. */
  lemma {:induction false} CutWhole(s: string)
    ensures Cut(s) == [s] <==> DotFree(s)
  {
    if DotFree(s) {
      assert s[..|s|] == s;
      forall j | 0 <= j <= |s| ensures HeaderEnd(s, j).None? {
        if j < |s| { NoHeaderAt(s, j, |s|); }
      }
    } else {
      var k :| 0 <= k < |s| && DigitDot(s, k);
      assert Span(s[k..], IsDigit) == 1 by {
        assert s[k..][0] == s[k] && s[k..][1] == s[k + 1];
      }
      assert HeaderEnd(s, k) == Some(k + 2);
      assert FindHeader(s, 0).Some?;
    }
  }

  /**
   * The reply is cut at its first numbered heading: the piece before it is
   * everything up to the digits, and cutting goes on after the dot.
   */
  lemma {:induction false} CutAtHeading(x: string, digits: string, y: string)
    requires DotFree(x) && (x == [] || !IsDigit(x[|x| - 1]))
    requires digits != [] && forall k :: 0 <= k < |digits| ==> IsDigit(digits[k])
    ensures Cut(x + digits + "." + y) == [x] + Cut(y)
  {
    var s := x + digits + "." + y;
    var a, e := |x|, |x| + |digits| + 1;
    assert s[..a] == x;
    forall j | 0 <= j < a ensures HeaderEnd(s, j).None? {
      NoHeaderAt(s, j, a);
    }
    var t := s[a..];
    assert t == digits + "." + y;
    var n := Span(t, IsDigit);
    assert forall k :: 0 <= k < |digits| ==> IsDigit(t[k]);
    assert !IsDigit(t[|digits|]);
    assert n == |digits|;
    assert HeaderEnd(s, a) == Some(e);
    FindHeaderIs(s, a, e);
    assert s[e..] == y;
  }

  // ---------------------------------------------------------------------
  // The line rules, stated

  /**
   * A list entry is the trimmed line with one leading "-" or "*" and the
   * whitespace after it removed; a line without a bullet is only trimmed.
   */
  lemma {:induction false} ListEntryShape(line: string)
    ensures var t, r := Trim(line), ListEntry(line);
            (t != [] && (t[0] == '-' || t[0] == '*')) ==>
              t == [t[0]] + t[1..|t| - |r|] + r && AllSpace(t[1..|t| - |r|]) && (r == [] || !IsJsSpace(r[0]))
    ensures var t := Trim(line);
            !(t != [] && (t[0] == '-' || t[0] == '*')) ==> ListEntry(line) == t
  {
    var t := Trim(line);
    if t != [] && (t[0] == '-' || t[0] == '*') {
      var u := t[1..];
      var n := Span(u, IsJsSpace);
      assert ListEntry(line) == u[n..];
      assert t[1..|t| - |u[n..]|] == u[..n];
      assert t == [t[0]] + u[..n] + u[n..];
    }
  }

  /**
   * The time token is the first run of digits and colons in the line, taken
   * whole: nothing before it is a digit or colon, and it is not followed by one.
   */
  lemma {:induction false} TimeTokenShape(line: string)
    ensures TimeToken(line).None? <==> forall k :: 0 <= k < |line| ==> !IsTimeChar(line[k])
    ensures TimeToken(line).Some? ==>
              var q := Span(line, NotTimeChar);
              var tok := TimeToken(line).value;
              && tok != [] && q + |tok| <= |line| && line[q..q + |tok|] == tok
              && (forall k :: 0 <= k < q ==> !IsTimeChar(line[k]))
              && (forall k :: 0 <= k < |tok| ==> IsTimeChar(tok[k]))
              && (q + |tok| == |line| || !IsTimeChar(line[q + |tok|]))
  {
    var q := Span(line, NotTimeChar);
    if q < |line| {
      var n := Span(line[q..], IsTimeChar);
      assert line[q..][0] == line[q];
      assert n >= 1;
      var tok := line[q..q + n];
      forall k | 0 <= k < n ensures IsTimeChar(tok[k]) { assert tok[k] == line[q..][k]; }
      if q + n < |line| { assert line[q + n] == line[q..][n]; }
    }
  }

  /** A line without digits or colons gets the default time and keeps its text. */
  lemma {:induction false} TimelineWithoutToken(line: string)
    requires TimeToken(line).None?
    ensures TimelineEntry(line) == Timestamp(DEFAULT_TIME, Trim(StripBullet(line)))
  {
    ReplaceEmptyPattern(StripBullet(line), []);
    assert [] + StripBullet(line) == StripBullet(line);
  }

  /**
   * The text of a timeline entry is the line with its bullet (and the
   * whitespace after it) and its time token taken out, then trimmed: the token
   * `replace` removes in the bullet-stripped line is the one `match` found.
   */
  lemma {:induction false} TimelineWithToken(line: string, tok: string)
    requires TimeToken(line) == Some(tok)
    ensures var m, q := |line| - |StripBullet(line)|, Span(line, NotTimeChar);
            m <= q && q + |tok| <= |line|
            && TimelineEntry(line) == Timestamp(tok, Trim(line[m..q] + line[q + |tok|..]))
  {
    TokenExcised(line, tok);
  }

  /** `replace` finds the token in the bullet-stripped line where `match` found it in the line. */
  lemma {:induction false} TokenExcised(line: string, tok: string)
    requires TimeToken(line) == Some(tok)
    ensures var m, q := |line| - |StripBullet(line)|, Span(line, NotTimeChar);
            m <= q && q + |tok| <= |line|
            && ReplaceFirst(StripBullet(line), tok, []) == line[m..q] + line[q + |tok|..]
  {
    var q := Span(line, NotTimeChar);
    TokenSlice(line, tok, q);
    BulletTokenReplaced(line, q, tok, StripBullet(line));
  }

  /** The same, once the token is known to be the run at `q`. */
  lemma {:induction false} BulletTokenReplaced(line: string, q: nat, tok: string, b: string)
    requires q == Span(line, NotTimeChar) && q < |line| && tok == line[q..q + Span(line[q..], IsTimeChar)]
    requires b == StripBullet(line)
    ensures var m := |line| - |b|;
            m <= q && q + |tok| <= |line| && ReplaceFirst(b, tok, []) == line[m..q] + line[q + |tok|..]
  {
    var m := |line| - |b|;
    BulletBeforeToken(line, q, m, b);
    TokenReplaced(line, m, q, Span(line[q..], IsTimeChar), tok, b);
  }

  /** The first occurrence of the token in `b == line[m..]` is the one at `q`. */
  lemma {:induction false} TokenReplaced(line: string, m: nat, q: nat, n: nat, tok: string, b: string)
    requires q == Span(line, NotTimeChar) && q < |line| && n == Span(line[q..], IsTimeChar)
    requires m <= q && b == line[m..] && tok == line[q..q + n]
    ensures q + |tok| <= |line| && ReplaceFirst(b, tok, []) == line[m..q] + line[q + |tok|..]
  {
    TokenStart(line, q, n);
    NoTimeCharBefore(line, q, line[q]);
    ExciseAt(line, m, q, n, tok, b);
  }

  /** The token `match` finds is the run of time characters at the first one. */
  lemma {:induction false} TokenSlice(line: string, tok: string, q: nat)
    requires TimeToken(line) == Some(tok) && q == Span(line, NotTimeChar)
    ensures q < |line| && tok == line[q..q + Span(line[q..], IsTimeChar)]
  {
  }

  /** That run is not empty. */
  lemma {:induction false} TokenStart(line: string, q: nat, n: nat)
    requires q == Span(line, NotTimeChar) && q < |line| && n == Span(line[q..], IsTimeChar)
    ensures 0 < n && IsTimeChar(line[q])
  {
    assert line[q..][0] == line[q];
  }

  /** No time character comes before the first one. */
  lemma {:induction false} NoTimeCharBefore(line: string, q: nat, c: char)
    requires q == Span(line, NotTimeChar) && IsTimeChar(c)
    ensures forall k :: 0 <= k < q ==> line[k] != c
  {
    forall k | 0 <= k < q ensures line[k] != c {
      assert NotTimeChar(line[k]);
    }
  }

  /** The bullet `StripBullet` removes ends before the first time character. */
  lemma {:induction false} BulletBeforeToken(line: string, q: nat, m: nat, b: string)
    requires q == Span(line, NotTimeChar) && q < |line| && b == StripBullet(line) && m == |line| - |b|
    ensures m <= q && b == line[m..]
  {
    StripBulletSuffix(line);
  }

  /** Replacing the first occurrence of `tok == line[q..q + n]` in `b == line[m..]`. */
  lemma {:induction false} ExciseAt(line: string, m: nat, q: nat, n: nat, tok: string, b: string)
    requires m <= q && q + n <= |line| && b == line[m..]
    requires 0 < n && tok == line[q..q + n]
    requires forall k :: 0 <= k < q ==> line[k] != line[q]
    ensures q + |tok| <= |line| && ReplaceFirst(b, tok, []) == line[m..q] + line[q + |tok|..]
  {
    var i := q - m;
    assert b[i..i + |tok|] == line[q..q + |tok|];
    assert tok[0] == line[q];
    forall j | 0 <= j < i ensures b[j] != tok[0] {
      assert b[j] == line[m + j];
    }
    ReplaceAt(b, tok, [], i);
    assert b[..i] == line[m..q];
    assert b[i + |tok|..] == line[q + |tok|..];
  }

  /**
   * Stripping the bullet keeps a suffix: a line starting with "-" or "*"
   * loses that character and the whole whitespace run after it, any other
   * line loses nothing.
   */
  lemma {:induction false} StripBulletSuffix(line: string)
    ensures var b := StripBullet(line);
            var m := |line| - |b|;
            m <= |line| && b == line[m..]
            && forall k :: 0 <= k < m ==> line[k] == '-' || line[k] == '*' || IsJsSpace(line[k])
    ensures var m := |line| - |StripBullet(line)|;
            if line != [] && (line[0] == '-' || line[0] == '*') then
              1 <= m && AllSpace(line[1..m]) && (m == |line| || !IsJsSpace(line[m]))
            else m == 0
  {
    if |line| > 0 && (line[0] == '-' || line[0] == '*') {
      var u := line[1..];
      var n := Span(u, IsJsSpace);
      assert StripBullet(line) == line[1 + n..];
      forall k | 1 <= k < 1 + n ensures IsJsSpace(line[k]) { assert line[k] == u[k - 1]; }
      assert line[1..1 + n] == u[..n];
      if 1 + n < |line| { assert line[1 + n] == u[n]; }
    }
  }

  /** Only empty pieces are dropped: a whitespace-only piece is still a section. */
  lemma {:induction false} SectionsKeepBlankPieces(s: string, piece: string)
    ensures piece in Sections(s) <==> piece in Cut(s) && piece != []
  {
    FilterMember(Cut(s), NonEmpty, piece);
  }

  /**
   * Sections are read line by line, in order: a line contributes one entry
   * when it is not blank and nothing otherwise, and the lines after it are
   * read the same way.
   */
  lemma {:induction false} LineByLine(line: string, rest: string)
    requires '\n' !in line
    ensures Entries(line) == if NotBlank(line) then [ListEntry(line)] else []
    ensures Timeline(line) == if NotBlank(line) then [TimelineEntry(line)] else []
    ensures Entries(line + LINE_SEPARATOR + rest) == Entries(line) + Entries(rest)
    ensures Timeline(line + LINE_SEPARATOR + rest) == Timeline(line) + Timeline(rest)
  {
    assert LINE_SEPARATOR == ['\n'];
    SplitLine(line, '\n', rest);
    var lines := Split(line + LINE_SEPARATOR + rest, LINE_SEPARATOR);
    assert lines[1..] == Split(rest, LINE_SEPARATOR);
    assert Split(line, LINE_SEPARATOR) == [line] && [line][1..] == [];
    assert FilterMap([line], NotBlank, ListEntry) == (if NotBlank(line) then [ListEntry(line)] else []) + FilterMap([], NotBlank, ListEntry);
    assert FilterMap([line], NotBlank, TimelineEntry) == (if NotBlank(line) then [TimelineEntry(line)] else []) + FilterMap([], NotBlank, TimelineEntry);
  }

  /** Exactly one entry per non-blank line of the section. */
  lemma {:induction false} EntryCount(block: string)
    ensures var lines := Split(block, LINE_SEPARATOR);
            |Entries(block)| == Count(lines, NotBlank) <= |lines| && |Timeline(block)| == Count(lines, NotBlank)
  {
    FilterMapCount(Split(block, LINE_SEPARATOR), NotBlank, ListEntry);
    FilterMapCount(Split(block, LINE_SEPARATOR), NotBlank, TimelineEntry);
  }

  // ---------------------------------------------------------------------
  // The reply shape the prompt asks for, and the round trip

  /** An entry that comes back from a "- " line: one trimmed line, no digit before a dot. */
  predicate EntryFits(e: string) {
    '\n' !in e && Trimmed(e) && DotFree(e)
  }

  /** A time made of digits and colons only, and a text that fits like an entry. */
  predicate TimestampFits(ts: Timestamp) {
    && ts.time != [] && (forall k :: 0 <= k < |ts.time| ==> IsTimeChar(ts.time[k]))
    && EntryFits(ts.text)
  }

  predicate AnalysisFits(a: Analysis) {
    && (forall k :: 0 <= k < |a.summary| ==> EntryFits(a.summary[k]))
    && (forall k :: 0 <= k < |a.keyPoints| ==> EntryFits(a.keyPoints[k]))
    && (forall k :: 0 <= k < |a.timestamps| ==> TimestampFits(a.timestamps[k]))
  }

  function TimelineLine(ts: Timestamp): string {
    "- " + ts.time + " " + ts.text
  }

  function TimelineLines(ts: seq<Timestamp>): (lines: seq<string>)
    ensures |lines| == |ts| && forall k :: 0 <= k < |ts| ==> lines[k] == TimelineLine(ts[k])
  {
    seq(|ts|, k requires 0 <= k < |ts| => TimelineLine(ts[k]))
  }

  /** The lines under a heading, each on its own line, up to the next heading. */
  function Body(lines: seq<string>): string {
    Join([[]] + lines + [[]], LINE_SEPARATOR)
  }

  /** "1." and the summary, "2." and the key points, "3." and the timeline. */
  function Render(a: Analysis): string {
    "1." + (Body(BulletLines(a.summary)) + ("2." + (Body(BulletLines(a.keyPoints))
      + ("3." + Body(TimelineLines(a.timestamps))))))
  }

  /** Every analysis whose entries fit on their lines is recovered from its rendering. */
  lemma {:induction false} ParseRender(a: Analysis)
    requires AnalysisFits(a)
    ensures ParseReply(Render(a)) == Ok(a)
  {
    var p0, p1, p2 := Body(BulletLines(a.summary)), Body(BulletLines(a.keyPoints)), Body(TimelineLines(a.timestamps));
    BulletBody(a.summary);
    BulletBody(a.keyPoints);
    TimelineBody(a.timestamps);
    CutThree(Render(a), p0, p1, p2);
    SectionsOfCut(Render(a), p0, p1, p2);
    ParseSections(Render(a), p0, p1, p2);
  }

  /** Only the empty piece before "1." is dropped. */
  lemma {:induction false} SectionsOfCut(s: string, p0: string, p1: string, p2: string)
    requires Cut(s) == [[], p0, p1, p2] && p0 != [] && p1 != [] && p2 != []
    ensures Sections(s) == [p0, p1, p2]
  {
    FilterAllKept([p0, p1, p2], NonEmpty);
    assert Filter([[], p0, p1, p2], NonEmpty) == Filter([p0, p1, p2], NonEmpty);
  }

  /** Three sections are read as summary, key points and timeline. */
  lemma {:induction false} ParseSections(s: string, p0: string, p1: string, p2: string)
    requires Sections(s) == [p0, p1, p2]
    ensures ParseReply(s) == Ok(Analysis(Entries(p0), Entries(p1), Timeline(p2)))
  {
  }

  /** A reply without a numbered heading has at most one section, so reading the second throws. */
  lemma {:induction false} NoHeadingFails(s: string)
    requires DotFree(s)
    ensures ParseReply(s) == Err(SectionMissing(if s == [] then 0 else 1))
  {
    CutWhole(s);
    assert Filter([s], NonEmpty) == (if s == [] then [] else [s]) + Filter([], NonEmpty);
  }

  /**
   * An empty third section is dropped by the filter, so a reply whose
   * timeline heading has nothing after it throws instead of returning an
   * empty timeline.
   */
  lemma {:induction false} EmptyTimelineFails(s: string, p0: string, p1: string)
    requires p0 != [] && !IsDigit(p0[|p0| - 1]) && DotFree(p0)
    requires p1 != [] && !IsDigit(p1[|p1| - 1]) && DotFree(p1)
    requires s == "1." + (p0 + ("2." + (p1 + "3.")))
    ensures ParseReply(s) == Err(SectionMissing(2))
  {
    assert "3." + [] == "3.";
    CutThree(s, p0, p1, []);
    assert Filter([[], p0, p1, []], NonEmpty) == [p0, p1] by {
      assert Filter([[]], NonEmpty) == [];
      assert Filter([p1, []], NonEmpty) == [p1] + Filter([[]], NonEmpty);
      assert Filter([p0, p1, []], NonEmpty) == [p0] + Filter([p1, []], NonEmpty);
    }
  }

  /** Three bodies behind the headings "1.", "2." and "3." are cut apart again, after an empty first piece. */
  lemma {:induction false} CutThree(s: string, p0: string, p1: string, p2: string)
    requires p0 != [] && !IsDigit(p0[|p0| - 1]) && DotFree(p0)
    requires p1 != [] && !IsDigit(p1[|p1| - 1]) && DotFree(p1)
    requires DotFree(p2)
    requires s == "1." + (p0 + ("2." + (p1 + ("3." + p2))))
    ensures Cut(s) == [[], p0, p1, p2]
  {
    var rest1 := p1 + ("3." + p2);
    var rest0 := p0 + ("2." + rest1);
    CutWhole(p2);
    CutStep(rest1, p1, '3', p2);
    CutFront(rest0, p0, '2', rest1, [p1, p2], [p0, p1, p2]);
    CutFront(s, [], '1', rest0, [p0, p1, p2], [[], p0, p1, p2]);
  }

  lemma {:induction false} CutFront(s: string, x: string, d: char, y: string, tail: seq<string>, r: seq<string>)
    requires s == x + ([d, '.'] + y) && IsDigit(d)
    requires DotFree(x) && (x == [] || !IsDigit(x[|x| - 1]))
    requires Cut(y) == tail && r == [x] + tail
    ensures Cut(s) == r
  {
    CutStep(s, x, d, y);
  }

  /** One heading of a single digit. */
  lemma {:induction false} CutStep(s: string, x: string, d: char, y: string)
    requires s == x + ([d, '.'] + y) && IsDigit(d)
    requires DotFree(x) && (x == [] || !IsDigit(x[|x| - 1]))
    ensures Cut(s) == [x] + Cut(y)
  {
    assert s == x + [d] + "." + y;
    CutAtHeading(x, [d], y);
  }

  /** A bullet body is cut out whole and gives back its entries. */
  lemma {:induction false} BulletBody(es: seq<string>)
    requires forall k :: 0 <= k < |es| ==> EntryFits(es[k])
    ensures var b := Body(BulletLines(es));
            b != [] && b[|b| - 1] == '\n' && DotFree(b) && Entries(b) == es
  {
    var lines := BulletLines(es);
    forall k | 0 <= k < |lines| ensures LineFits(lines[k]) && ListEntry(lines[k]) == es[k] {
      BulletLineParse(es[k]);
    }
    BodyShape(lines);
    BodyEntries(lines, ListEntry);
    FilterMapAllKept(lines, NotBlank, ListEntry);
  }

  /** The timeline body is cut out whole and gives back its timestamps. */
  lemma {:induction false} TimelineBody(ts: seq<Timestamp>)
    requires forall k :: 0 <= k < |ts| ==> TimestampFits(ts[k])
    ensures var b := Body(TimelineLines(ts));
            b != [] && b[|b| - 1] == '\n' && DotFree(b) && Timeline(b) == ts
  {
    var lines := TimelineLines(ts);
    forall k | 0 <= k < |lines| ensures LineFits(lines[k]) && TimelineEntry(lines[k]) == ts[k] {
      TimelineLineParse(ts[k]);
    }
    BodyShape(lines);
    BodyEntries(lines, TimelineEntry);
    FilterMapAllKept(lines, NotBlank, TimelineEntry);
  }

  /** A rendered line: not blank, on one line, with no digit before a dot. */
  predicate LineFits(line: string) {
    NotBlank(line) && '\n' !in line && DotFree(line)
  }

  lemma {:induction false} BodyShape(lines: seq<string>)
    requires forall k :: 0 <= k < |lines| ==> LineFits(lines[k])
    ensures var b := Body(lines); b != [] && b[|b| - 1] == '\n' && DotFree(b)
  {
    JoinAppend([[]] + lines, [[]], LINE_SEPARATOR);
    DotFreeJoin([[]] + lines + [[]]);
  }

  /** The lines between the line breaks of a body are the lines it was made of. */
  lemma {:induction false} BodySplit(lines: seq<string>)
    requires forall k :: 0 <= k < |lines| ==> LineFits(lines[k])
    ensures Split(Body(lines), LINE_SEPARATOR) == [[]] + lines + [[]]
  {
    var parts := [[]] + lines + [[]];
    forall k | 0 <= k < |parts| ensures '\n' !in parts[k] {
      if 0 < k < |parts| - 1 { assert parts[k] == lines[k - 1]; }
    }
    SplitJoinChar(parts, '\n');
    assert LINE_SEPARATOR == ['\n'];
  }

  /** The blank first and last pieces of a body's split are dropped by the filter. */
  lemma {:induction false} BodyEntries<T>(lines: seq<string>, f: string -> T)
    requires forall k :: 0 <= k < |lines| ==> LineFits(lines[k])
    ensures FilterMap(Split(Body(lines), LINE_SEPARATOR), NotBlank, f) == FilterMap(lines, NotBlank, f)
  {
    BodySplit(lines);
    BlankDropped(f);
    FilterMapAppend([[]] + lines, [[]], NotBlank, f);
    FilterMapAppend([[]], lines, NotBlank, f);
  }

  lemma {:induction false} BlankDropped<T>(f: string -> T)
    ensures FilterMap([[]], NotBlank, f) == []
  {
    assert Trim([]) == [];
    assert FilterMap([[]], NotBlank, f) == [] + FilterMap([], NotBlank, f);
  }

  /** "- " followed by a fitting entry reads back as that entry. */
  lemma {:induction false} BulletLineParse(e: string)
    requires EntryFits(e)
    ensures LineFits(BulletLine(e)) && ListEntry(BulletLine(e)) == e
  {
    var line := BulletLine(e);
    assert line == ['-', ' '] + e;
    DotFreeConcat("- ", e);
    if e == [] {
      TrimPadded([], "-", " ");
      assert line == [] + "-" + " ";
      assert StripBullet("-") == TrimStart([]);
    } else {
      TrimmedIsFixed(line);
      SpanAllSpace(" ", e);
      assert line[1..] == " " + e;
    }
  }

  /** "- ", a time, a space and a fitting text read back as that timestamp. */
  lemma {:induction false} TimelineLineParse(ts: Timestamp)
    requires TimestampFits(ts)
    ensures LineFits(TimelineLine(ts)) && TimelineEntry(TimelineLine(ts)) == ts
  {
    var line := TimelineLine(ts);
    TimelineLineFits(ts);
    TimelineLineToken(ts);
    TimelineWithToken(line, ts.time);
    TrimAfterSpace(ts.text);
  }

  lemma {:induction false} TrimAfterSpace(text: string)
    requires Trimmed(text)
    ensures Trim(" " + text) == text
  {
    if text == [] {
      SpanAllSpace(" ", []);
      assert TrimStart(" ") == [];
    } else {
      TrimPadded(" ", text, []);
      assert " " + text + [] == " " + text;
    }
  }

  lemma {:induction false} TimelineLineFits(ts: Timestamp)
    requires TimestampFits(ts)
    ensures LineFits(TimelineLine(ts))
  {
    var line := TimelineLine(ts);
    assert line == ['-', ' '] + ts.time + [' '] + ts.text;
    TrimSpec(line);
    assert !IsJsSpace(line[0]) && line[0] in line;
    assert '\n' !in ts.time by {
      forall k | 0 <= k < |ts.time| ensures ts.time[k] != '\n' { assert IsTimeChar(ts.time[k]); }
    }
    TimeDotFree(ts.time);
    DotFreeConcat("- ", ts.time);
    DotFreeConcat("- " + ts.time, " ");
    DotFreeConcat("- " + ts.time + " ", ts.text);
  }

  /** The token of a timeline line is its time, two characters in, and the bullet is those two. */
  lemma {:induction false} TimelineLineToken(ts: Timestamp)
    requires TimestampFits(ts)
    ensures var line := TimelineLine(ts);
            Span(line, NotTimeChar) == 2 && TimeToken(line) == Some(ts.time)
            && |line| - |StripBullet(line)| == 2 && line[2..2] + line[2 + |ts.time|..] == " " + ts.text
  {
    var line := TimelineLine(ts);
    var rest := " " + ts.text;
    var u := ts.time + rest;
    TimelineLineLayout(ts, line, u, rest);
    BulletBeforeTime(line, u);
    TimeRun(u, ts.time, rest);
    TokenIsRun(line, 2, u, ts.time);
    assert line[2..2] + rest == rest;
  }

  /** Where the parts of a timeline line sit. */
  lemma {:induction false} TimelineLineLayout(ts: Timestamp, line: string, u: string, rest: string)
    requires TimestampFits(ts) && line == TimelineLine(ts) && rest == " " + ts.text && u == ts.time + rest
    ensures line == ['-', ' '] + u && line[2..] == u && 2 + |ts.time| <= |line| && line[2 + |ts.time|..] == rest
    ensures u != [] && IsTimeChar(u[0]) && u[..|ts.time|] == ts.time
    ensures rest != [] && !IsTimeChar(rest[0])
  {
    assert line == ['-', ' '] + u;
    assert u[0] == ts.time[0];
  }

  /** A run of time characters at the first one is the token. */
  lemma {:induction false} TokenIsRun(line: string, q: nat, u: string, time: string)
    requires q == Span(line, NotTimeChar) && q <= |line| && line[q..] == u && u != []
    requires |time| <= |u| && u[..|time|] == time && Span(u, IsTimeChar) == |time|
    ensures TimeToken(line) == Some(time)
  {
    assert line[q..q + |time|] == u[..|time|];
  }

  /** A "- " bullet right before a time character. */
  lemma {:induction false} BulletBeforeTime(line: string, u: string)
    requires line == ['-', ' '] + u && u != [] && IsTimeChar(u[0])
    ensures Span(line, NotTimeChar) == 2 && StripBullet(line) == u
  {
    var v := [' '] + u;
    assert line[1..] == v && v[1..] == u;
    assert Span(u, NotTimeChar) == 0;
    assert Span(v, NotTimeChar) == 1;
    SpanAllSpace(" ", u);
    assert " " + u == v;
  }

  /** Digits and colons hold no dot. */
  lemma {:induction false} TimeDotFree(time: string)
    requires forall k :: 0 <= k < |time| ==> IsTimeChar(time[k])
    ensures DotFree(time)
  {
  }

  /** A run of time characters ended by a space is what `Span` measures. */
  lemma {:induction false} TimeRun(s: string, time: string, rest: string)
    requires s == time + rest && (forall k :: 0 <= k < |time| ==> IsTimeChar(time[k]))
    requires rest != [] && !IsTimeChar(rest[0])
    ensures Span(s, IsTimeChar) == |time|
    decreases |time|
  {
    if time != [] {
      assert s[1..] == time[1..] + rest;
      TimeRun(s[1..], time[1..], rest);
    }
  }

  /** No digit before a dot in either part nor across the seam. */
  lemma {:induction false} DotFreeConcat(a: string, b: string)
    requires DotFree(a) && DotFree(b)
    requires a == [] || b == [] || !IsDigit(a[|a| - 1]) || b[0] != '.'
    ensures DotFree(a + b)
  {
    var s := a + b;
    forall k | 0 <= k < |s| ensures !DigitDot(s, k) {
      if k + 1 >= |s| {
      } else if k + 1 < |a| {
        assert !DigitDot(a, k);
        assert s[k] == a[k] && s[k + 1] == a[k + 1];
      } else if k >= |a| {
        assert s[k] == b[k - |a|] && s[k + 1] == b[k + 1 - |a|];
        assert !DigitDot(b, k - |a|);
      } else {
        assert s[k] == a[|a| - 1] && s[k + 1] == b[0];
      }
    }
  }

  /** Lines joined by line breaks have no digit before a dot when no line has. */
  lemma {:induction false} DotFreeJoin(parts: seq<string>)
    requires forall k :: 0 <= k < |parts| ==> DotFree(parts[k])
    ensures DotFree(Join(parts, LINE_SEPARATOR))
    decreases |parts|
  {
    if |parts| > 1 {
      DotFreeJoin(parts[1..]);
      DotFreeConcat(parts[0], LINE_SEPARATOR);
      DotFreeConcat(parts[0] + LINE_SEPARATOR, Join(parts[1..], LINE_SEPARATOR));
    }
  }
}
