/**
 * The page's processing flow. Its React state is the recording flag, the
 * processing flag, the progress percentage and the displayed recording;
 * `handleRecordingStop` drives them through the stop, transcribe and
 * summarise steps with one catch that resets the overlay. The three steps
 * are inputs: what stopping the recorder yields, what transcription yields
 * and what summarising yields. The 500 ms timer that hides the overlay after
 * success is a pending reset that fires later.
 */
module Home {
  import opened Common

  const NO_AUDIO: string := "No audio recorded"

  /** What the transcription panel shows. */
  datatype Recording = Recording(transcription: string, summary: seq<string>, keyPoints: seq<string>, timestamps: seq<Timestamp>)

  /** The default `initialRecording`. */
  const EMPTY_RECORDING: Recording := Recording([], [], [], [])

  /** The page state the flow touches, with the number of reset timers not yet fired. */
  datatype View = View(isRecording: bool, isProcessing: bool, progress: int, data: Recording, pendingResets: nat)

  /** One state update, in the order the handler issues them. */
  datatype Update =
    | SetRecording(recording: bool)
    | SetProcessing(processing: bool)
    | SetProgress(percent: int)
    | SetData(data: Recording)
    | SetTranscription(transcription: string)   // the functional update `prev => ({...prev, transcription})`
    | ScheduleReset                             // `setTimeout(..., 500)`
    | TimerFired                                // that timer's callback starts

  /** The calls the handler makes into the recorder and the two clients. */
  datatype Call = StopRecorder | Transcribe(audio: Blob) | Summarize(transcript: string)

  function Apply(v: View, u: Update): View {
    match u
    case SetRecording(b) => v.(isRecording := b)
    case SetProcessing(b) => v.(isProcessing := b)
    case SetProgress(p) => v.(progress := p)
    case SetData(d) => v.(data := d)
    case SetTranscription(t) => v.(data := v.data.(transcription := t))
    case ScheduleReset => v.(pendingResets := v.pendingResets + 1)
    case TimerFired => v.(pendingResets := if v.pendingResets == 0 then 0 else v.pendingResets - 1)
  }

  /** The state after the updates, applied in order. */
  function Replay(v: View, us: seq<Update>): View
    decreases |us|
  {
    if us == [] then v else Replay(Apply(v, us[0]), us[1..])
  }

  /** The progress values set, in order. */
  function Progresses(us: seq<Update>): seq<int>
    decreases |us|
  {
    if us == [] then []
    else (if us[0].SetProgress? then [us[0].percent] else []) + Progresses(us[1..])
  }

  const ENTRY: seq<Update> := [SetRecording(false), SetProcessing(true), SetProgress(0)]

  /** Hiding the overlay: the catch block, and the timer callback after success. */
  const RESET: seq<Update> := [SetProcessing(false), SetProgress(0)]

  const FIRE: seq<Update> := [TimerFired] + RESET

  /** The progress checkpoints of a run in which every step succeeds. */
  const CHECKPOINTS: seq<int> := [0, 20, 60, 90, 100]

  /** `!audioBlob || audioBlob.size === 0`. */
  predicate NoAudio(audio: Option<Blob>) {
    audio.None? || audio.value.size == 0
  }

  /** Every step succeeded. */
  predicate Succeeds(stopped: Result<Option<Blob>>, transcribed: Result<string>, analysed: Result<Analysis>) {
    stopped.Ok? && !NoAudio(stopped.value) && transcribed.Ok? && analysed.Ok?
  }

  /** The updates `handleRecordingStop` issues for the given step outcomes. */
  function StopUpdates(stopped: Result<Option<Blob>>, transcribed: Result<string>, analysed: Result<Analysis>): seq<Update> {
    ENTRY + AfterEntry(stopped, transcribed, analysed)
  }

  /** The updates after the overlay is shown. */
  function AfterEntry(stopped: Result<Option<Blob>>, transcribed: Result<string>, analysed: Result<Analysis>): seq<Update> {
    if stopped.Err? then RESET
    else [SetProgress(20)] + AfterStop(stopped.value, transcribed, analysed)
  }

  /** The updates after the recorder has yielded `audio`. */
  function AfterStop(audio: Option<Blob>, transcribed: Result<string>, analysed: Result<Analysis>): seq<Update> {
    if NoAudio(audio) || transcribed.Err? then RESET
    else [SetTranscription(transcribed.value), SetProgress(60)] + AfterTranscript(transcribed.value, analysed)
  }

  /** The updates after the transcript has arrived. */
  function AfterTranscript(transcription: string, analysed: Result<Analysis>): seq<Update> {
    if analysed.Err? then RESET
    else
      var a := analysed.value;
      [SetProgress(90), SetData(Recording(transcription, a.summary, a.keyPoints, a.timestamps)),
       SetProgress(100), ScheduleReset]
  }

  /** The calls `handleRecordingStop` makes: summarising receives the transcript. */
  function StopCalls(stopped: Result<Option<Blob>>, transcribed: Result<string>): (cs: seq<Call>)
    ensures 1 <= |cs| <= 3 && cs[0] == StopRecorder
    ensures |cs| >= 2 <==> stopped.Ok? && !NoAudio(stopped.value)
    ensures |cs| >= 2 ==> cs[1] == Transcribe(stopped.value.value)
    ensures |cs| == 3 <==> |cs| >= 2 && transcribed.Ok?
    ensures |cs| == 3 ==> cs[2] == Summarize(transcribed.value)
  {
    if stopped.Err? || NoAudio(stopped.value) then [StopRecorder]
    else if transcribed.Err? then [StopRecorder, Transcribe(stopped.value.value)]
    else [StopRecorder, Transcribe(stopped.value.value), Summarize(transcribed.value)]
  }

  class HomePage {
    var isRecording: bool
    var isProcessing: bool
    var processingProgress: int
    var transcriptionData: Recording
    var pendingResets: nat
    /** The state the page was created with, and every update issued since. */
    ghost var start: View
    ghost var updates: seq<Update>

    function State(): View
      reads this
    {
      View(isRecording, isProcessing, processingProgress, transcriptionData, pendingResets)
    }

    /** The state is the initial one with the issued updates applied. */
    ghost predicate Valid()
      reads this
    {
      State() == Replay(start, updates)
    }

    constructor(initialRecording: Recording := EMPTY_RECORDING)
      ensures Valid() && State() == View(false, false, 0, initialRecording, 0) && updates == []
    {
      isRecording, isProcessing, processingProgress := false, false, 0;
      transcriptionData, pendingResets := initialRecording, 0;
      start := View(false, false, 0, initialRecording, 0);
      updates := [];
    }

    /** Issue one update: what each React setter does to its piece of state. */
    method Issue(u: Update)
      requires Valid()
      modifies this
      ensures Valid() && start == old(start) && updates == old(updates) + [u]
      ensures State() == Apply(old(State()), u)
    {
      match u {
        case SetRecording(b) => isRecording := b;
        case SetProcessing(b) => isProcessing := b;
        case SetProgress(p) => processingProgress := p;
        case SetData(d) => transcriptionData := d;
        case SetTranscription(t) => transcriptionData := transcriptionData.(transcription := t);
        case ScheduleReset => pendingResets := pendingResets + 1;
        case TimerFired => pendingResets := if pendingResets == 0 then 0 else pendingResets - 1;
      }
      updates := updates + [u];
      ReplayAppend(start, old(updates), [u]);
    }

    /** `handleRecordingStart`. */
    method HandleRecordingStart()
      requires Valid()
      modifies this
      ensures Valid() && updates == old(updates) + [SetRecording(true)]
      ensures State() == old(State()).(isRecording := true)
    {
      Issue(SetRecording(true));
    }

    /**
     * `handleRecordingStop`: `stopped` is what `audioRecorder.stopRecording()`
     * yields, `transcribed` what transcription yields and `analysed` what
     * `summarizeText(transcription)` yields.
     */
    method HandleRecordingStop(stopped: Result<Option<Blob>>, transcribed: Result<string>, analysed: Result<Analysis>)
      returns (calls: seq<Call>)
      requires Valid()
      modifies this
      ensures Valid() && updates == old(updates) + StopUpdates(stopped, transcribed, analysed)
      ensures State() == Replay(old(State()), StopUpdates(stopped, transcribed, analysed))
      ensures calls == StopCalls(stopped, transcribed)
    {
      ShowOverlay();
      calls := ProcessStop(stopped, transcribed, analysed);
      AppendAssoc(old(updates), ENTRY, AfterEntry(stopped, transcribed, analysed));
      ReplayAppend(start, old(updates), StopUpdates(stopped, transcribed, analysed));
    }

    /** Leave recording mode and show the overlay at 0%. */
    method ShowOverlay()
      requires Valid()
      modifies this
      ensures Valid() && start == old(start) && updates == old(updates) + ENTRY
    {
      Issue(SetRecording(false));
      Issue(SetProcessing(true));
      Issue(SetProgress(0));
    }

    /** The `try` block once the overlay is shown. */
    method ProcessStop(stopped: Result<Option<Blob>>, transcribed: Result<string>, analysed: Result<Analysis>)
      returns (calls: seq<Call>)
      requires Valid()
      modifies this
      ensures Valid() && start == old(start) && updates == old(updates) + AfterEntry(stopped, transcribed, analysed)
      ensures calls == StopCalls(stopped, transcribed)
    {
      if stopped.Err? {
        CatchReset();
        calls := [StopRecorder];
      } else {
        Issue(SetProgress(20));
        var later := AfterStopRecording(stopped.value, transcribed, analysed);
        AppendAssoc(old(updates), [SetProgress(20)], AfterStop(stopped.value, transcribed, analysed));
        calls := [StopRecorder] + later;
      }
    }

    /** The rest of the `try` block once the recorder has yielded `audio`. */
    method AfterStopRecording(audio: Option<Blob>, transcribed: Result<string>, analysed: Result<Analysis>)
      returns (calls: seq<Call>)
      requires Valid()
      modifies this
      ensures Valid() && start == old(start) && updates == old(updates) + AfterStop(audio, transcribed, analysed)
      ensures calls == StopCalls(Ok(audio), transcribed)[1..]
    {
      if NoAudio(audio) {
        CatchReset();
        return [];
      }
      calls := [Transcribe(audio.value)];
      if transcribed.Err? {
        CatchReset();
        return;
      }
      var transcription := transcribed.value;
      Issue(SetTranscription(transcription));
      Issue(SetProgress(60));
      calls := calls + [Summarize(transcription)];
      AfterTranscriptArrived(transcription, analysed);
      AppendAssoc(old(updates), [SetTranscription(transcription), SetProgress(60)], AfterTranscript(transcription, analysed));
    }

    /** The `try` block once the transcript has arrived. */
    method AfterTranscriptArrived(transcription: string, analysed: Result<Analysis>)
      requires Valid()
      modifies this
      ensures Valid() && start == old(start) && updates == old(updates) + AfterTranscript(transcription, analysed)
    {
      if analysed.Err? {
        CatchReset();
      } else {
        var analysis := analysed.value;
        Issue(SetProgress(90));
        Issue(SetData(Recording(transcription, analysis.summary, analysis.keyPoints, analysis.timestamps)));
        Issue(SetProgress(100));
        Issue(ScheduleReset);
      }
    }

    /** The `catch` block: hide the overlay and reset the progress. */
    method CatchReset()
      requires Valid()
      modifies this
      ensures Valid() && start == old(start) && updates == old(updates) + RESET
    {
      Issue(SetProcessing(false));
      Issue(SetProgress(0));
    }

    /** The 500 ms timer set on success fires: the overlay goes away. */
    method FireResetTimer()
      requires Valid() && pendingResets > 0
      modifies this
      ensures Valid() && updates == old(updates) + FIRE
      ensures State() == Replay(old(State()), FIRE)
    {
      Issue(TimerFired);
      Issue(SetProcessing(false));
      Issue(SetProgress(0));
      assert updates == old(updates) + FIRE;
      ReplayAppend(start, old(updates), FIRE);
    }
  }

  // ---------------------------------------------------------------------
  // The flow's promises

  /** Updates applied one list after another. */
  lemma {:induction false} ReplayAppend(v: View, a: seq<Update>, b: seq<Update>)
    ensures Replay(v, a + b) == Replay(Replay(v, a), b)
    decreases |a|
  {
    if a != [] {
      assert (a + b)[1..] == a[1..] + b;
      ReplayAppend(Apply(v, a[0]), a[1..], b);
    } else {
      assert a + b == b;
    }
  }

  lemma {:induction false} AppendAssoc(a: seq<Update>, b: seq<Update>, c: seq<Update>)
    ensures a + b + c == a + (b + c)
  {
  }

  /** Progress values add up along a concatenation. */
  lemma {:induction false} ProgressesAppend(a: seq<Update>, b: seq<Update>)
    ensures Progresses(a + b) == Progresses(a) + Progresses(b)
    decreases |a|
  {
    if a != [] {
      assert (a + b)[1..] == a[1..] + b;
      ProgressesAppend(a[1..], b);
    } else {
      assert a + b == b;
    }
  }

  // The fixed runs of updates

  lemma {:induction false} ReplayOne(v: View, x: Update)
    ensures Replay(v, [x]) == Apply(v, x)
    ensures Progresses([x]) == if x.SetProgress? then [x.percent] else []
  {
    assert [x][1..] == [];
    assert Progresses([x]) == (if x.SetProgress? then [x.percent] else []) + [];
  }

  lemma {:induction false} ReplayPair(v: View, x: Update, y: Update)
    ensures Replay(v, [x, y]) == Apply(Apply(v, x), y)
    ensures Progresses([x, y]) == Progresses([x]) + Progresses([y])
  {
    assert [x, y] == [x] + [y];
    ReplayAppend(v, [x], [y]);
    ProgressesAppend([x], [y]);
    ReplayOne(v, x);
    ReplayOne(Apply(v, x), y);
  }

  /** `setIsProcessing(false); setProcessingProgress(0)`. */
  lemma {:induction false} ResetRun(v: View)
    ensures Replay(v, RESET) == v.(isProcessing := false, progress := 0)
    ensures Progresses(RESET) == [0]
  {
    ReplayPair(v, SetProcessing(false), SetProgress(0));
    ReplayOne(v, SetProcessing(false));
    ReplayOne(v, SetProgress(0));
  }

  /** The timer callback: one fewer reset pending, the overlay hidden. */
  lemma {:induction false} FireRun(v: View)
    ensures Replay(v, FIRE) == v.(isProcessing := false, progress := 0,
                                   pendingResets := if v.pendingResets == 0 then 0 else v.pendingResets - 1)
    ensures Progresses(FIRE) == [0]
  {
    ReplayAppend(v, [TimerFired], RESET);
    ProgressesAppend([TimerFired], RESET);
    ReplayOne(v, TimerFired);
    ResetRun(Apply(v, TimerFired));
  }

  // The handler's updates, stage by stage

  /** The first three setters. */
  lemma {:induction false} StopRun(v: View, stopped: Result<Option<Blob>>, transcribed: Result<string>, analysed: Result<Analysis>)
    ensures Replay(v, StopUpdates(stopped, transcribed, analysed))
            == Replay(v.(isRecording := false, isProcessing := true, progress := 0), AfterEntry(stopped, transcribed, analysed))
    ensures Progresses(StopUpdates(stopped, transcribed, analysed)) == [0] + Progresses(AfterEntry(stopped, transcribed, analysed))
  {
    var rest := AfterEntry(stopped, transcribed, analysed);
    assert ENTRY == [SetRecording(false)] + [SetProcessing(true), SetProgress(0)];
    ReplayAppend(v, ENTRY, rest);
    ProgressesAppend(ENTRY, rest);
    ReplayAppend(v, [SetRecording(false)], [SetProcessing(true), SetProgress(0)]);
    ProgressesAppend([SetRecording(false)], [SetProcessing(true), SetProgress(0)]);
    ReplayOne(v, SetRecording(false));
    ReplayPair(Apply(v, SetRecording(false)), SetProcessing(true), SetProgress(0));
    ReplayOne(v, SetProcessing(true));
    ReplayOne(v, SetProgress(0));
  }

  /** A failed stop goes to the catch block; otherwise progress is 20%. */
  lemma {:induction false} AfterEntryRun(v: View, stopped: Result<Option<Blob>>, transcribed: Result<string>, analysed: Result<Analysis>)
    ensures Replay(v, AfterEntry(stopped, transcribed, analysed))
            == if stopped.Err? then v.(isProcessing := false, progress := 0)
               else Replay(v.(progress := 20), AfterStop(stopped.value, transcribed, analysed))
    ensures Progresses(AfterEntry(stopped, transcribed, analysed))
            == if stopped.Err? then [0] else [20] + Progresses(AfterStop(stopped.value, transcribed, analysed))
  {
    if stopped.Err? {
      ResetRun(v);
    } else {
      var rest := AfterStop(stopped.value, transcribed, analysed);
      ReplayAppend(v, [SetProgress(20)], rest);
      ProgressesAppend([SetProgress(20)], rest);
      ReplayOne(v, SetProgress(20));
    }
  }

  /** No audio or no transcript goes to the catch block; otherwise the transcript is shown at 60%. */
  lemma {:induction false} AfterStopRun(v: View, audio: Option<Blob>, transcribed: Result<string>, analysed: Result<Analysis>)
    ensures Replay(v, AfterStop(audio, transcribed, analysed))
            == if NoAudio(audio) || transcribed.Err? then v.(isProcessing := false, progress := 0)
               else Replay(v.(data := v.data.(transcription := transcribed.value), progress := 60),
                           AfterTranscript(transcribed.value, analysed))
    ensures Progresses(AfterStop(audio, transcribed, analysed))
            == if NoAudio(audio) || transcribed.Err? then [0]
               else [60] + Progresses(AfterTranscript(transcribed.value, analysed))
  {
    if NoAudio(audio) || transcribed.Err? {
      ResetRun(v);
    } else {
      var t := transcribed.value;
      var rest := AfterTranscript(t, analysed);
      ReplayAppend(v, [SetTranscription(t), SetProgress(60)], rest);
      ProgressesAppend([SetTranscription(t), SetProgress(60)], rest);
      ReplayPair(v, SetTranscription(t), SetProgress(60));
      ReplayOne(v, SetTranscription(t));
      ReplayOne(v, SetProgress(60));
    }
  }

  /** A failed summary goes to the catch block; otherwise the recording is shown at 100% and a reset is scheduled. */
  lemma {:induction false} AfterTranscriptRun(v: View, t: string, analysed: Result<Analysis>)
    ensures Replay(v, AfterTranscript(t, analysed))
            == if analysed.Err? then v.(isProcessing := false, progress := 0)
               else var a := analysed.value;
                    v.(progress := 100, data := Recording(t, a.summary, a.keyPoints, a.timestamps),
                       pendingResets := v.pendingResets + 1)
    ensures Progresses(AfterTranscript(t, analysed)) == if analysed.Err? then [0] else [90, 100]
  {
    if analysed.Err? {
      ResetRun(v);
    } else {
      var a := analysed.value;
      var d := Recording(t, a.summary, a.keyPoints, a.timestamps);
      assert AfterTranscript(t, analysed) == [SetProgress(90), SetData(d)] + [SetProgress(100), ScheduleReset];
      ReplayAppend(v, [SetProgress(90), SetData(d)], [SetProgress(100), ScheduleReset]);
      ProgressesAppend([SetProgress(90), SetData(d)], [SetProgress(100), ScheduleReset]);
      ReplayPair(v, SetProgress(90), SetData(d));
      ReplayOne(v, SetProgress(90));
      ReplayOne(v, SetData(d));
      var v2 := v.(progress := 90, data := d);
      ReplayPair(v2, SetProgress(100), ScheduleReset);
      ReplayOne(v2, SetProgress(100));
      ReplayOne(v2, ScheduleReset);
    }
  }

  // What the handler's updates amount to

  /** The checkpoints as the stages contribute them. */
  lemma {:induction false} Checkpoints()
    ensures CHECKPOINTS == [0] + ([20] + ([60] + [90, 100]))
    ensures CHECKPOINTS[..1] + [0] == [0] + [0]
    ensures CHECKPOINTS[..2] + [0] == [0] + ([20] + [0])
    ensures CHECKPOINTS[..3] + [0] == [0] + ([20] + ([60] + [0]))
  {
  }

  /**
   * When every step succeeds the progress runs through 0, 20, 60, 90 and 100,
   * in that order, and the overlay then shows the analysed recording with one
   * reset pending; when that timer fires the overlay is hidden at 0% and the
   * recording stays.
   */
  lemma {:induction false} SuccessState(v: View, stopped: Result<Option<Blob>>, transcribed: Result<string>, analysed: Result<Analysis>)
    requires Succeeds(stopped, transcribed, analysed)
    ensures Progresses(StopUpdates(stopped, transcribed, analysed)) == CHECKPOINTS
    ensures var w := Replay(v, StopUpdates(stopped, transcribed, analysed));
            var a := analysed.value;
            && !w.isRecording && w.isProcessing && w.progress == 100
            && w.data == Recording(transcribed.value, a.summary, a.keyPoints, a.timestamps)
            && w.pendingResets == v.pendingResets + 1
            && Replay(w, FIRE) == w.(isProcessing := false, progress := 0, pendingResets := v.pendingResets)
  {
    var t, a := transcribed.value, analysed.value;
    var v1 := View(false, true, 0, v.data, v.pendingResets);
    var v2 := View(false, true, 20, v.data, v.pendingResets);
    var v3 := View(false, true, 60, v.data.(transcription := t), v.pendingResets);
    var w := View(false, true, 100, Recording(t, a.summary, a.keyPoints, a.timestamps), v.pendingResets + 1);
    StopRun(v, stopped, transcribed, analysed);
    AfterEntryRun(v1, stopped, transcribed, analysed);
    AfterStopRun(v2, stopped.value, transcribed, analysed);
    AfterTranscriptRun(v3, t, analysed);
    assert Replay(v, StopUpdates(stopped, transcribed, analysed)) == w;
    FireRun(w);
    Checkpoints();
  }

  /**
   * Every failure ends with recording off, the overlay hidden at 0% and no
   * timer scheduled, after the progress reached its last checkpoint and
   * dropped to 0. The recording shown is the previous one when no transcript
   * arrived; once it has arrived, only its transcription is new.
   */
  lemma {:induction false} FailureState(v: View, stopped: Result<Option<Blob>>, transcribed: Result<string>, analysed: Result<Analysis>)
    requires !Succeeds(stopped, transcribed, analysed)
    ensures exists k :: 1 <= k <= 3 && Progresses(StopUpdates(stopped, transcribed, analysed)) == CHECKPOINTS[..k] + [0]
    ensures var w := Replay(v, StopUpdates(stopped, transcribed, analysed));
            && !w.isRecording && !w.isProcessing && w.progress == 0 && w.pendingResets == v.pendingResets
            && w.data == if stopped.Err? || NoAudio(stopped.value) || transcribed.Err? then v.data
                         else v.data.(transcription := transcribed.value)
  {
    var v1 := View(false, true, 0, v.data, v.pendingResets);
    StopRun(v, stopped, transcribed, analysed);
    AfterEntryRun(v1, stopped, transcribed, analysed);
    Checkpoints();
    if stopped.Err? {
      assert CHECKPOINTS[..1] + [0] == [0] + [0];
    } else {
      var v2 := View(false, true, 20, v.data, v.pendingResets);
      AfterStopRun(v2, stopped.value, transcribed, analysed);
      if NoAudio(stopped.value) || transcribed.Err? {
        assert CHECKPOINTS[..2] + [0] == [0] + ([20] + [0]);
      } else {
        var t := transcribed.value;
        AfterTranscriptRun(View(false, true, 60, v.data.(transcription := t), v.pendingResets), t, analysed);
        assert CHECKPOINTS[..3] + [0] == [0] + ([20] + ([60] + [0]));
      }
    }
  }
}
