/**
 * The AssemblyAI client: `transcribeAudio` refuses to run without an API
 * key, uploads the blob, creates a transcript job for the uploaded URL and
 * polls that job until it completes or fails. The SDK's answers are inputs:
 * the upload's URL, the job's id and the sequence of transcripts the polls
 * would fetch, each of which may instead be a rejection.
 */
module AssemblyAi {
  import opened Common

  const KEY_MISSING: string := "AssemblyAI API key is not configured"
  const TRANSCRIPTION_FAILED: string := "Transcription failed"
  const LANGUAGE_CODE: string := "en"

  /** The job statuses the SDK reports. */
  datatype Status = Queued | Processing | Completed | Failed

  /** What `client.transcripts.get` returns: the status and the text, if any. */
  datatype Transcript = Transcript(status: Status, text: Option<string>)

  /** The SDK calls, in the order the client makes them. */
  datatype Request =
    | Upload(audio: Blob)
    | CreateTranscript(audioUrl: string, languageCode: string)
    | GetTranscript(id: string)

  /**
   * How the call ends: it returns a text, it throws, or it is still polling
   * when the given responses run out (the loop has no bound).
   */
  datatype Outcome = Returned(text: string) | Threw(error: Error) | Polling

  /** `result.text || ""`. */
  function TextOrEmpty(text: Option<string>): (r: string)
    ensures r == [] <==> text.None? || text.value == []
    ensures text.Some? ==> r == text.value
  {
    if text.Some? && text.value != [] then text.value else []
  }

  /** A poll after which the loop stops: a rejection, a completed job or a failed one. */
  predicate Terminal(poll: Result<Transcript>) {
    poll.Err? || poll.value.status == Completed || poll.value.status == Failed
  }

  /**
   * How the loop ends on a terminal poll: a completed job returns its text or
   * "", a failed one throws "Transcription failed", a rejection propagates.
   */
  function Settle(poll: Result<Transcript>): (r: Outcome)
    requires Terminal(poll)
    ensures r.Returned? <==> poll.Ok? && poll.value.status == Completed
    ensures r.Returned? ==> r.text == TextOrEmpty(poll.value.text)
    ensures poll.Ok? && poll.value.status == Failed ==> r == Threw(Thrown(TRANSCRIPTION_FAILED))
    ensures poll.Err? ==> r == Threw(poll.error)
  {
    match poll
    case Err(e) => Threw(e)
    case Ok(t) => if t.status == Completed then Returned(TextOrEmpty(t.text)) else Threw(Thrown(TRANSCRIPTION_FAILED))
  }

  /** The outcome of polling through `polls`, one response per iteration. */
  function PollOutcome(polls: seq<Result<Transcript>>): Outcome {
    if polls == [] then Polling
    else if Terminal(polls[0]) then Settle(polls[0])
    else PollOutcome(polls[1..])
  }

  /** How many polls the loop makes before it stops or the responses run out. */
  function PollsMade(polls: seq<Result<Transcript>>): (n: nat)
    ensures n <= |polls|
  {
    if polls == [] then 0
    else if Terminal(polls[0]) then 1
    else 1 + PollsMade(polls[1..])
  }

  /** `n` polls of the job `id`. */
  function Gets(id: string, n: nat): (r: seq<Request>)
    ensures |r| == n && forall k :: 0 <= k < n ==> r[k] == GetTranscript(id)
  {
    seq(n, _ => GetTranscript(id))
  }

  /**
   * `transcribeAudio(blob)`: the outcome and the SDK calls made, in order.
   * `upload` is the URL the upload answers with, `create` the id of the job.
   */
  method TranscribeAudio(key: Option<string>, blob: Blob, upload: Result<string>, create: Result<string>,
                         polls: seq<Result<Transcript>>)
    returns (r: Outcome, requests: seq<Request>)
    ensures !Configured(key) ==> r == Threw(Thrown(KEY_MISSING)) && requests == []
    ensures Configured(key) && upload.Err? ==> r == Threw(upload.error) && requests == [Upload(blob)]
    ensures Configured(key) && upload.Ok? && create.Err? ==>
              r == Threw(create.error) && requests == [Upload(blob), CreateTranscript(upload.value, LANGUAGE_CODE)]
    ensures Configured(key) && upload.Ok? && create.Ok? ==>
              && r == PollOutcome(polls)
              && requests == [Upload(blob), CreateTranscript(upload.value, LANGUAGE_CODE)] + Gets(create.value, PollsMade(polls))
  {
    if !Configured(key) {
      return Threw(Thrown(KEY_MISSING)), [];
    }
    requests := [Upload(blob)];
    if upload.Err? {
      return Threw(upload.error), requests;
    }
    requests := requests + [CreateTranscript(upload.value, LANGUAGE_CODE)];
    if create.Err? {
      return Threw(create.error), requests;
    }
    var id := create.value;
    var head := requests;
    r := Polling;
    var i := 0;
    while i < |polls| && r.Polling?
      invariant 0 <= i <= |polls|
      invariant r.Polling? ==> (forall j :: 0 <= j < i ==> !Terminal(polls[j])) && PollOutcome(polls) == PollOutcome(polls[i..])
      invariant r.Polling? ==> PollsMade(polls) == i + PollsMade(polls[i..])
      invariant !r.Polling? ==> 0 < i && Terminal(polls[i - 1]) && r == Settle(polls[i - 1])
      invariant !r.Polling? ==> PollOutcome(polls) == PollOutcome(polls[i - 1..]) && PollsMade(polls) == i - 1 + PollsMade(polls[i - 1..])
      invariant requests == head + Gets(id, i)
      decreases |polls| - i
    {
      var poll := polls[i];
      requests := requests + [GetTranscript(id)];
      assert polls[i..][1..] == polls[i + 1..];
      if Terminal(poll) {
        r := Settle(poll);
      }
      i := i + 1;
    }
    if r.Polling? {
      assert polls[i..] == [];
    }
  }

  // ---------------------------------------------------------------------
  // The poll rule

  /**
   * The loop ends at the first terminal poll: the outcome is settled by it,
   * exactly that many polls are made, and responses after it are never read.
   */
  lemma {:induction false} StopsAtFirstTerminal(polls: seq<Result<Transcript>>, k: nat, later: seq<Result<Transcript>>)
    requires k < |polls| && Terminal(polls[k])
    requires forall j :: 0 <= j < k ==> !Terminal(polls[j])
    ensures PollOutcome(polls) == Settle(polls[k])
    ensures PollsMade(polls) == k + 1
    ensures PollOutcome(polls[..k + 1] + later) == PollOutcome(polls)
    ensures PollsMade(polls[..k + 1] + later) == PollsMade(polls)
    decreases k
  {
    if k > 0 {
      assert (polls[..k + 1] + later)[1..] == polls[1..][..k] + later;
      StopsAtFirstTerminal(polls[1..], k - 1, later);
    }
  }

  /** Without a terminal poll the call never settles and polls once per response. */
  lemma {:induction false} NoTerminalKeepsPolling(polls: seq<Result<Transcript>>)
    requires forall j :: 0 <= j < |polls| ==> !Terminal(polls[j])
    ensures PollOutcome(polls) == Polling && PollsMade(polls) == |polls|
  {
    if polls != [] {
      NoTerminalKeepsPolling(polls[1..]);
    }
  }

  /** The call settles exactly when some poll is terminal. */
  lemma {:induction false} SettlesIffTerminal(polls: seq<Result<Transcript>>)
    ensures PollOutcome(polls).Polling? <==> forall j :: 0 <= j < |polls| ==> !Terminal(polls[j])
  {
    if polls != [] {
      SettlesIffTerminal(polls[1..]);
      if !Terminal(polls[0]) {
        assert forall j :: 1 <= j < |polls| ==> polls[j] == polls[1..][j - 1];
      }
    }
  }
}
