/**
 * The OpenAI client: the empty-text check after a Whisper transcription and
 * the parser that cuts a chat-completion reply into summary, key points and
 * timeline. The vendor calls themselves are inputs: the response they would
 * have produced, or the reason they rejected.
 */
module OpenAi {
  import opened JsStrings
  import opened Common

  const BLOCK_SEPARATOR: string := "\n\n"
  const LINE_SEPARATOR: string := "\n"
  const TIME_SEPARATOR: string := ":"
  const NO_TRANSCRIPTION: string := "No transcription received"

  // ---------------------------------------------------------------------
  // transcribeAudio

  /**
   * The outcome of `transcribeAudio` given what `audio.transcriptions.create`
   * produced: its `text` field (`None` when absent), or the reason it rejected.
   */
  function TranscribeAudio(response: Result<Option<string>>): (r: Result<string>)
    ensures r.Ok? <==> response.Ok? && response.value.Some? && response.value.value != []
    ensures r.Ok? ==> r.value == response.value.value
    ensures response.Ok? && r.Err? ==> r.error == Thrown(NO_TRANSCRIPTION)
    ensures response.Err? ==> r == Err(response.error)
  {
    match response
    case Err(e) => Err(e)
    case Ok(text) =>
      if text.None? || text.value == [] then Err(Thrown(NO_TRANSCRIPTION)) else Ok(text.value)
  }

  // ---------------------------------------------------------------------
  // summarizeText: the reply parser

  /** `line.trim().startsWith("-")`. */
  predicate IsBulletLine(line: string) {
    var t := Trim(line);
    |t| > 0 && t[0] == '-'
  }

  /** `t.substring(n)`: empty when `t` is shorter than `n`. */
  function Substring(t: string, n: nat): string {
    if |t| >= n then t[n..] else []
  }

  /** `line.trim().substring(2)`: the bullet and the character after it dropped. */
  function BulletEntry(line: string): string {
    Substring(Trim(line), 2)
  }

  /** `const [time, ...text] = entry.split(":")`, both trimmed, `text` re-joined with ":". */
  function TimestampEntry(line: string): Timestamp {
    var parts := Split(BulletEntry(line), TIME_SEPARATOR);
    Timestamp(Trim(parts[0]), Trim(Join(parts[1..], TIME_SEPARATOR)))
  }

  function Bullets(block: string): seq<string> {
    FilterMap(Split(block, LINE_SEPARATOR), IsBulletLine, BulletEntry)
  }

  function Timeline(block: string): seq<Timestamp> {
    FilterMap(Split(block, LINE_SEPARATOR), IsBulletLine, TimestampEntry)
  }

  /**
   * The parse of the reply `result`. Reading `sections[1]` or `sections[2]`
   * when the split produced fewer blocks throws a TypeError; `sections[0]`
   * always exists because a split returns at least one piece.
   */
  function ParseReply(result: string): (r: Result<Analysis>)
    ensures r.Err? <==> |Split(result, BLOCK_SEPARATOR)| < 3
    ensures r.Err? ==> r.error == SectionMissing(|Split(result, BLOCK_SEPARATOR)|)
  {
    var sections := Split(result, BLOCK_SEPARATOR);
    if |sections| < 2 then Err(SectionMissing(1))
    else if |sections| < 3 then Err(SectionMissing(2))
    else Ok(Analysis(Bullets(sections[0]), Bullets(sections[1]), Timeline(sections[2])))
  }

  /**
   * `summarizeText` given what `chat.completions.create` produced: the content
   * of the first choice (`None` when it is null), or the reason it rejected.
   */
  function SummarizeText(reply: Result<Option<string>>): (r: Result<Analysis>)
    ensures reply.Err? ==> r == Err(reply.error)
    ensures reply == Ok(None) ==> r == Err(ContentMissing)
    ensures reply.Ok? && reply.value.Some? ==> r == ParseReply(reply.value.value)
  {
    match reply
    case Err(e) => Err(e)
    case Ok(None) => Err(ContentMissing)
    case Ok(Some(result)) => ParseReply(result)
  }

  // ---------------------------------------------------------------------
  // Properties of the parser

  /**
   * Only the first three blocks are read: once the reply has a fourth block,
   * nothing appended to it changes the parse.
   */
  lemma {:induction false} ParseIgnoresLaterBlocks(s: string, t: string)
    requires |Split(s, BLOCK_SEPARATOR)| >= 4
    ensures ParseReply(s + t) == ParseReply(s)
  {
    SplitExtend(s, t, BLOCK_SEPARATOR, 3);
  }

  /**
   * A timestamp entry is cut at the first colon only: `time` is what precedes
   * it and `text` everything after it, later colons included; with no colon,
   * `time` is the whole entry and `text` is empty.
   */
  lemma {:induction false} TimestampAtFirstColon(line: string)
    ensures var e := BulletEntry(line);
            match IndexOf(e, TIME_SEPARATOR)
            case Some(i) => TimestampEntry(line) == Timestamp(Trim(e[..i]), Trim(e[i + 1..]))
            case None => TimestampEntry(line) == Timestamp(Trim(e), [])
  {
    var e := BulletEntry(line);
    match IndexOf(e, TIME_SEPARATOR)
    case Some(i) =>
      JoinSplit(e[i + 1..], TIME_SEPARATOR);
      var rest := Split(e[i + 1..], TIME_SEPARATOR);
      assert Split(e, TIME_SEPARATOR) == [e[..i]] + rest;
      assert Split(e, TIME_SEPARATOR)[1..] == rest;
    case None =>
  }

  /**
   * The lists are read line by line, in order: a line contributes one entry
   * when its trimmed form starts with "-" and nothing otherwise, and the lines
   * after it are read the same way.
   */
  lemma {:induction false} LineByLine(line: string, rest: string)
    requires '\n' !in line
    ensures Bullets(line) == if IsBulletLine(line) then [BulletEntry(line)] else []
    ensures Timeline(line) == if IsBulletLine(line) then [TimestampEntry(line)] else []
    ensures Bullets(line + LINE_SEPARATOR + rest) == Bullets(line) + Bullets(rest)
    ensures Timeline(line + LINE_SEPARATOR + rest) == Timeline(line) + Timeline(rest)
  {
    assert LINE_SEPARATOR == ['\n'];
    SplitLine(line, '\n', rest);
    var lines := Split(line + LINE_SEPARATOR + rest, LINE_SEPARATOR);
    assert lines[1..] == Split(rest, LINE_SEPARATOR);
    assert Split(line, LINE_SEPARATOR) == [line] && [line][1..] == [];
    assert FilterMap([line], IsBulletLine, BulletEntry) == (if IsBulletLine(line) then [BulletEntry(line)] else []) + FilterMap([], IsBulletLine, BulletEntry);
    assert FilterMap([line], IsBulletLine, TimestampEntry) == (if IsBulletLine(line) then [TimestampEntry(line)] else []) + FilterMap([], IsBulletLine, TimestampEntry);
  }

  /** Exactly one entry per line of the block whose trimmed form starts with "-". */
  lemma {:induction false} EntryCount(block: string)
    ensures var lines := Split(block, LINE_SEPARATOR);
            |Bullets(block)| == Count(lines, IsBulletLine) <= |lines| && |Timeline(block)| == Count(lines, IsBulletLine)
  {
    FilterMapCount(Split(block, LINE_SEPARATOR), IsBulletLine, BulletEntry);
    FilterMapCount(Split(block, LINE_SEPARATOR), IsBulletLine, TimestampEntry);
  }

  // ---------------------------------------------------------------------
  // The reply shape the parser expects, and the round trip

  /** An entry that survives being written as a bullet line: one line, no trailing blank. */
  predicate EntryFits(e: string) {
    '\n' !in e && (e == [] || !IsJsSpace(e[|e| - 1]))
  }

  predicate TimestampFits(ts: Timestamp) {
    && '\n' !in ts.time && ':' !in ts.time && Trimmed(ts.time)
    && '\n' !in ts.text && Trimmed(ts.text)
  }

  predicate AnalysisFits(a: Analysis) {
    && (forall k :: 0 <= k < |a.summary| ==> EntryFits(a.summary[k]))
    && (forall k :: 0 <= k < |a.keyPoints| ==> EntryFits(a.keyPoints[k]))
    && (forall k :: 0 <= k < |a.timestamps| ==> TimestampFits(a.timestamps[k]))
  }

  function TimestampLine(ts: Timestamp): string {
    "- " + ts.time + ": " + ts.text
  }

  function TimelineLines(ts: seq<Timestamp>): (lines: seq<string>)
    ensures |lines| == |ts| && forall k :: 0 <= k < |ts| ==> lines[k] == TimestampLine(ts[k])
  {
    seq(|ts|, k requires 0 <= k < |ts| => TimestampLine(ts[k]))
  }

  function BulletBlock(es: seq<string>): string {
    Join(BulletLines(es), LINE_SEPARATOR)
  }

  function TimelineBlock(ts: seq<Timestamp>): string {
    Join(TimelineLines(ts), LINE_SEPARATOR)
  }

  /** A reply in the shape the prompt asks for: three blocks of "- " lines. */
  function Render(a: Analysis): string {
    BulletBlock(a.summary) + BLOCK_SEPARATOR + BulletBlock(a.keyPoints)
      + BLOCK_SEPARATOR + TimelineBlock(a.timestamps)
  }

  /** Every analysis whose entries fit on their lines is recovered from its rendering. */
  lemma {:induction false} ParseRender(a: Analysis)
    requires AnalysisFits(a)
    ensures ParseReply(Render(a)) == Ok(a)
  {
    var b0, b1, b2 := BulletBlock(a.summary), BulletBlock(a.keyPoints), TimelineBlock(a.timestamps);
    var l0, l1, l2 := BulletLines(a.summary), BulletLines(a.keyPoints), TimelineLines(a.timestamps);
    forall k | 0 <= k < |l0| ensures LineFits(l0[k]) { BulletLineFits(a.summary[k]); }
    forall k | 0 <= k < |l1| ensures LineFits(l1[k]) { BulletLineFits(a.keyPoints[k]); }
    forall k | 0 <= k < |l2| ensures LineFits(l2[k]) { TimestampLineFits(a.timestamps[k]); }
    BlockSpacing(l0);
    BlockSpacing(l1);
    BlockSpacing(l2);
    SplitBlocks(b0, b1, b2);
    BulletBlockParse(a.summary);
    BulletBlockParse(a.keyPoints);
    TimelineBlockParse(a.timestamps);
  }

  /** A rendered line: non-empty and without a line break. */
  predicate LineFits(line: string) {
    line != [] && '\n' !in line
  }

  lemma {:induction false} BulletLineFits(e: string)
    requires EntryFits(e)
    ensures LineFits(BulletLine(e))
  {
    assert BulletLine(e) == ['-', ' '] + e;
  }

  lemma {:induction false} TimestampLineFits(ts: Timestamp)
    requires TimestampFits(ts)
    ensures LineFits(TimestampLine(ts))
  {
    assert TimestampLine(ts) == ['-', ' '] + ts.time + [':', ' '] + ts.text;
  }

  /** A block of lines with no blank line among them and no line break at either end. */
  ghost predicate SingleSpaced(b: string) {
    && (forall j: nat :: !OccursAt(b, BLOCK_SEPARATOR, j))
    && (b == [] || (b[0] != '\n' && b[|b| - 1] != '\n'))
  }

  lemma {:induction false} OccursAtPair(s: string, j: nat)
    ensures OccursAt(s, BLOCK_SEPARATOR, j) <==> j + 1 < |s| && s[j] == '\n' && s[j + 1] == '\n'
  {
    if j + 2 <= |s| {
      assert s[j..j + 2] == [s[j], s[j + 1]];
    }
  }

  lemma {:induction false} BlockSpacing(lines: seq<string>)
    requires forall k :: 0 <= k < |lines| ==> LineFits(lines[k])
    ensures SingleSpaced(Join(lines, LINE_SEPARATOR))
    ensures lines != [] ==> Join(lines, LINE_SEPARATOR) != [] && Join(lines, LINE_SEPARATOR)[0] == lines[0][0]
    decreases |lines|
  {
    if |lines| == 1 {
      var x := lines[0];
      forall j: nat ensures !OccursAt(x, BLOCK_SEPARATOR, j) {
        OccursAtPair(x, j);
        if j + 1 < |x| { assert x[j] in x; }
      }
      assert x[|x| - 1] in x;
    } else if |lines| > 1 {
      var x, r := lines[0], Join(lines[1..], LINE_SEPARATOR);
      BlockSpacing(lines[1..]);
      assert lines[1..][0] == lines[1];
      assert r[0] != '\n' by { assert lines[1][0] in lines[1]; }
      var b := x + LINE_SEPARATOR + r;
      assert Join(lines, LINE_SEPARATOR) == b;
      forall j: nat ensures !OccursAt(b, BLOCK_SEPARATOR, j) {
        OccursAtPair(b, j);
        if j + 1 < |b| && j < |x| {
          assert b[j] == x[j] && x[j] in x;
        } else if j + 1 < |b| && j > |x| {
          OccursAtPair(r, j - |x| - 1);
          assert b[j] == r[j - |x| - 1] && b[j + 1] == r[j - |x|];
        }
      }
      assert b[0] == x[0];
      assert b[|b| - 1] == r[|r| - 1];
    }
  }

  lemma {:induction false} SplitBlocks(b0: string, b1: string, b2: string)
    requires SingleSpaced(b0) && SingleSpaced(b1) && SingleSpaced(b2)
    ensures Split(b0 + BLOCK_SEPARATOR + b1 + BLOCK_SEPARATOR + b2, BLOCK_SEPARATOR) == [b0, b1, b2]
  {
    var rest := b1 + BLOCK_SEPARATOR + b2;
    assert b0 + BLOCK_SEPARATOR + b1 + BLOCK_SEPARATOR + b2 == b0 + BLOCK_SEPARATOR + rest;
    SplitTwo(b1, b2);
    NothingBefore(b0, rest);
    SplitAtFirst(b0, BLOCK_SEPARATOR, rest);
  }

  lemma {:induction false} SplitTwo(b1: string, b2: string)
    requires SingleSpaced(b1) && SingleSpaced(b2)
    ensures Split(b1 + BLOCK_SEPARATOR + b2, BLOCK_SEPARATOR) == [b1, b2]
  {
    NothingBefore(b1, b2);
    SplitAtFirst(b1, BLOCK_SEPARATOR, b2);
    assert IndexOf(b2, BLOCK_SEPARATOR).None?;
  }

  lemma {:induction false} NothingBefore(x: string, y: string)
    requires SingleSpaced(x)
    ensures forall j: nat :: j < |x| ==> !OccursAt(x + BLOCK_SEPARATOR + y, BLOCK_SEPARATOR, j)
  {
    var s := x + BLOCK_SEPARATOR + y;
    forall j: nat | j < |x| ensures !OccursAt(s, BLOCK_SEPARATOR, j) {
      OccursAtPair(s, j);
      OccursAtPair(x, j);
      if j + 1 < |x| {
        assert s[j] == x[j] && s[j + 1] == x[j + 1];
      } else {
        assert s[j] == x[|x| - 1];
      }
    }
  }

  lemma {:induction false} BulletLineParse(e: string)
    requires EntryFits(e)
    ensures IsBulletLine(BulletLine(e)) && BulletEntry(BulletLine(e)) == e
  {
    if e == [] {
      TrimPadded([], "-", " ");
      assert BulletLine(e) == [] + "-" + " ";
    } else {
      TrimmedIsFixed(BulletLine(e));
    }
  }

  lemma {:induction false} TimestampLineParse(ts: Timestamp)
    requires TimestampFits(ts)
    ensures IsBulletLine(TimestampLine(ts)) && TimestampEntry(TimestampLine(ts)) == ts
  {
    var y: string := if ts.text == [] then [] else " " + ts.text;
    TimestampLineEntry(ts, y);
    TimestampEntryParse(ts, y);
  }

  lemma {:induction false} TimestampLineEntry(ts: Timestamp, y: string)
    requires TimestampFits(ts) && y == if ts.text == [] then [] else " " + ts.text
    ensures IsBulletLine(TimestampLine(ts)) && BulletEntry(TimestampLine(ts)) == ts.time + TIME_SEPARATOR + y
  {
    var line := TimestampLine(ts);
    var rest := ts.time + TIME_SEPARATOR + y;
    if ts.text == [] {
      var t := "- " + rest;
      assert line == [] + t + " ";
      TrimPadded([], t, " ");
      BulletOf(line, t, rest);
    } else {
      assert line == "- " + rest;
      TrimmedIsFixed(line);
      BulletOf(line, line, rest);
    }
  }

  /** A line that trims to "- " and `rest` is a bullet whose entry is `rest`. */
  lemma {:induction false} BulletOf(line: string, t: string, rest: string)
    requires Trim(line) == t && t == "- " + rest
    ensures IsBulletLine(line) && BulletEntry(line) == rest
  {
    assert t[2..] == rest;
  }

  lemma {:induction false} TimestampEntryParse(ts: Timestamp, y: string)
    requires TimestampFits(ts) && y == if ts.text == [] then [] else " " + ts.text
    ensures var parts := Split(ts.time + TIME_SEPARATOR + y, TIME_SEPARATOR);
            Trim(parts[0]) == ts.time && Trim(Join(parts[1..], TIME_SEPARATOR)) == ts.text
  {
    var s := ts.time + TIME_SEPARATOR + y;
    forall j: nat | j < |ts.time| ensures !OccursAt(s, TIME_SEPARATOR, j) {
      assert s[j] == ts.time[j] && ts.time[j] in ts.time;
      if j + 1 <= |s| { assert s[j..j + 1][0] == s[j]; }
    }
    SplitAtFirst(ts.time, TIME_SEPARATOR, y);
    JoinSplit(y, TIME_SEPARATOR);
    TrimmedIsFixed(ts.time);
    if ts.text != [] {
      TrimPadded(" ", ts.text, []);
      assert y == " " + ts.text + [];
    }
  }

  lemma {:induction false} BulletBlockParse(es: seq<string>)
    requires forall k :: 0 <= k < |es| ==> EntryFits(es[k])
    ensures Bullets(BulletBlock(es)) == es
  {
    var lines := BulletLines(es);
    if es == [] {
      assert lines == [] && BulletBlock(es) == [];
      assert Split([], LINE_SEPARATOR) == [[]];
      assert Trim([]) == [] && !IsBulletLine([]);
      assert FilterMap([[]], IsBulletLine, BulletEntry) == FilterMap([], IsBulletLine, BulletEntry);
    } else {
      forall k | 0 <= k < |lines| ensures '\n' !in lines[k] { BulletLineFits(es[k]); }
      SplitJoinChar(lines, '\n');
      forall k | 0 <= k < |lines| ensures IsBulletLine(lines[k]) && BulletEntry(lines[k]) == es[k] {
        BulletLineParse(es[k]);
      }
      FilterMapAllKept(lines, IsBulletLine, BulletEntry);
      assert LINE_SEPARATOR == ['\n'];
      assert Split(BulletBlock(es), LINE_SEPARATOR) == lines;
      assert FilterMap(lines, IsBulletLine, BulletEntry) == es;
    }
  }

  lemma {:induction false} TimelineBlockParse(ts: seq<Timestamp>)
    requires forall k :: 0 <= k < |ts| ==> TimestampFits(ts[k])
    ensures Timeline(TimelineBlock(ts)) == ts
  {
    var lines := TimelineLines(ts);
    if ts == [] {
      assert lines == [] && TimelineBlock(ts) == [];
      assert Split([], LINE_SEPARATOR) == [[]];
      assert Trim([]) == [] && !IsBulletLine([]);
      assert FilterMap([[]], IsBulletLine, TimestampEntry) == FilterMap([], IsBulletLine, TimestampEntry);
    } else {
      forall k | 0 <= k < |lines| ensures '\n' !in lines[k] { TimestampLineFits(ts[k]); }
      SplitJoinChar(lines, '\n');
      forall k | 0 <= k < |lines| ensures IsBulletLine(lines[k]) && TimestampEntry(lines[k]) == ts[k] {
        TimestampLineParse(ts[k]);
      }
      FilterMapAllKept(lines, IsBulletLine, TimestampEntry);
      assert LINE_SEPARATOR == ['\n'];
      assert Split(TimelineBlock(ts), LINE_SEPARATOR) == lines;
      assert FilterMap(lines, IsBulletLine, TimestampEntry) == ts;
    }
  }
}
