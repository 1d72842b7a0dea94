/**
 * Values shared by the clients, the recorder and the page: the structured
 * analysis a summariser returns, the audio blob, the errors the code throws,
 * and the `filter(...).map(...)` chain every parser applies to its lines.
 */
module Common {

  datatype Option<T> = None | Some(value: T)

  /** An API-key environment variable is truthy: present and not the empty string. */
  predicate Configured(key: Option<string>) {
    key.Some? && key.value != []
  }

  /** What a thrown JavaScript exception carries, by kind. */
  datatype Error =
    | Thrown(message: string)          // `throw new Error(message)` in the code itself
    | SectionMissing(index: nat)       // TypeError: `sections[index]` was undefined
    | ContentMissing                   // TypeError: the reply content was null
    | Rejected(reason: string)         // a vendor or browser call rejected

  datatype Result<T> = Ok(value: T) | Err(error: Error)

  /** One entry of the timeline: a free-form time token and its text. */
  datatype Timestamp = Timestamp(time: string, text: string)

  /** What `summarizeText` returns. */
  datatype Analysis = Analysis(summary: seq<string>, keyPoints: seq<string>, timestamps: seq<Timestamp>)

  /** The recorded audio; only its size and type tag are observable. */
  datatype Blob = Blob(size: nat, mimeType: string)

  /** `pieces.filter(keep)`. */
  function Filter(pieces: seq<string>, keep: string -> bool): seq<string> {
    if pieces == [] then []
    else (if keep(pieces[0]) then [pieces[0]] else []) + Filter(pieces[1..], keep)
  }

  /** `filter` keeps exactly the accepted pieces. */
  lemma {:induction false} FilterMember(pieces: seq<string>, keep: string -> bool, x: string)
    ensures x in Filter(pieces, keep) <==> x in pieces && keep(x)
  {
    if pieces != [] {
      FilterMember(pieces[1..], keep, x);
      assert pieces == [pieces[0]] + pieces[1..];
    }
  }

  /** When every piece is accepted, `filter` changes nothing. */
  lemma {:induction false} FilterAllKept(pieces: seq<string>, keep: string -> bool)
    requires forall k :: 0 <= k < |pieces| ==> keep(pieces[k])
    ensures Filter(pieces, keep) == pieces
  {
    if pieces != [] {
      FilterAllKept(pieces[1..], keep);
      assert pieces == [pieces[0]] + pieces[1..];
    }
  }

  /** `lines.filter(keep).map(f)`. */
  function FilterMap<T>(lines: seq<string>, keep: string -> bool, f: string -> T): seq<T> {
    if lines == [] then []
    else (if keep(lines[0]) then [f(lines[0])] else []) + FilterMap(lines[1..], keep, f)
  }

  /** Number of lines `keep` accepts. */
  function Count(lines: seq<string>, keep: string -> bool): nat {
    if lines == [] then 0 else (if keep(lines[0]) then 1 else 0) + Count(lines[1..], keep)
  }

  /**
   * The chain works line by line and keeps the order: the entries of a
   * concatenation are the entries of the first part followed by those of the second.
   */
  lemma {:induction false} FilterMapAppend<T>(a: seq<string>, b: seq<string>, keep: string -> bool, f: string -> T)
    ensures FilterMap(a + b, keep, f) == FilterMap(a, keep, f) + FilterMap(b, keep, f)
  {
    if a != [] {
      assert (a + b)[1..] == a[1..] + b;
      FilterMapAppend(a[1..], b, keep, f);
    } else {
      assert a + b == b;
    }
  }

  /** Exactly one entry per accepted line. */
  lemma {:induction false} FilterMapCount<T>(lines: seq<string>, keep: string -> bool, f: string -> T)
    ensures |FilterMap(lines, keep, f)| == Count(lines, keep) <= |lines|
  {
    if lines != [] {
      FilterMapCount(lines[1..], keep, f);
    }
  }

  /** When every line is accepted, entry `k` is `f` of line `k`. */
  lemma {:induction false} FilterMapAllKept<T>(lines: seq<string>, keep: string -> bool, f: string -> T)
    requires forall k :: 0 <= k < |lines| ==> keep(lines[k])
    ensures |FilterMap(lines, keep, f)| == |lines|
    ensures forall k :: 0 <= k < |lines| ==> FilterMap(lines, keep, f)[k] == f(lines[k])
  {
    if lines != [] {
      FilterMapAllKept(lines[1..], keep, f);
    }
  }

  /** A bullet line as both prompts ask for it: "- " and the entry. */
  function BulletLine(e: string): string {
    "- " + e
  }

  function BulletLines(es: seq<string>): (lines: seq<string>)
    ensures |lines| == |es| && forall k :: 0 <= k < |es| ==> lines[k] == BulletLine(es[k])
  {
    seq(|es|, k requires 0 <= k < |es| => BulletLine(es[k]))
  }
}
