/**
 * The recorder singleton: a session is a recorder on a microphone stream plus
 * an analyser whose byte buffer feeds the level meter. Starting closes any
 * open session first; stopping throws when no session is open and otherwise
 * clears all five fields. What the browser and the recording library answer
 * is passed in: the stream `getUserMedia` grants, whether the recorder starts,
 * the blob it finalises, whether the audio context closes, and the frequency
 * data the analyser reports.
 */
module AudioRecorder {
  import opened Common

  newtype byte = x: int | 0 <= x < 256

  const NOT_RECORDING: string := "No recording in progress"
  const FFT_SIZE: nat := 128
  /** How many levels the meter shows, and the level it shows with no analyser. */
  const LEVELS: nat := 50
  const PLACEHOLDER_LEVEL: real := 0.5

  datatype RecorderType = StereoAudioRecorder

  /** The options the recording library is given. */
  datatype RecorderOptions = RecorderOptions(
    kind: string, mimeType: string, recorderType: RecorderType, numberOfAudioChannels: nat,
    desiredSampRate: nat, timeSlice: nat, disableLogs: bool, bufferSize: nat)

  const OPTIONS: RecorderOptions :=
    RecorderOptions("audio", "audio/webm", StereoAudioRecorder, 1, 16000, 1000, false, 16384)

  /** A microphone stream; only its identity matters here. */
  datatype MediaStream = MediaStream(id: nat)

  /** A recorder attached to a stream. */
  datatype Recorder = Recorder(stream: MediaStream, options: RecorderOptions)

  /** An audio context with a source node on the given stream. */
  datatype AudioContext = AudioContext(source: MediaStream)

  datatype Analyser = Analyser(fftSize: nat)

  /** Half the FFT size, as the Web Audio API defines it. */
  function FrequencyBinCount(a: Analyser): nat {
    a.fftSize / 2
  }

  /** `Array(50).fill(0.5)`. */
  function Placeholder(): (r: seq<real>)
    ensures |r| == LEVELS && forall k :: 0 <= k < |r| ==> r[k] == PLACEHOLDER_LEVEL
  {
    seq(LEVELS, _ => PLACEHOLDER_LEVEL)
  }

  /** `value / 255`, exactly. */
  function Level(b: byte): real {
    b as real / 255.0
  }

  /** `Array.from(bytes).map(value => value / 255)`. */
  function Levels(bytes: seq<byte>): seq<real> {
    if bytes == [] then [] else [Level(bytes[0])] + Levels(bytes[1..])
  }

  /** `s.slice(0, n)`: the whole of `s` when it is shorter. */
  function Take(s: seq<real>, n: nat): seq<real> {
    if |s| <= n then s else s[..n]
  }

  /** The meter's levels for an analyser buffer. */
  function Normalize(bytes: seq<byte>): seq<real> {
    Take(Levels(bytes), LEVELS)
  }

  /** `getByteFrequencyData(buffer)`: as many bins as fit are written, the rest of the buffer is kept. */
  function Overwrite(buffer: seq<byte>, frame: seq<byte>): (r: seq<byte>)
    ensures |r| == |buffer|
    ensures forall k :: 0 <= k < |r| ==> r[k] == if k < |frame| then frame[k] else buffer[k]
  {
    seq(|buffer|, k requires 0 <= k < |buffer| => if k < |frame| then frame[k] else buffer[k])
  }

  /** How `stopRecording` ends, given whether a session is open and has an audio context. */
  function StopResult(open: bool, hasContext: bool, stopped: Result<Blob>, closed: Result<()>): (r: Result<Blob>)
    ensures !open ==> r == Err(Thrown(NOT_RECORDING))
    ensures open && stopped.Err? ==> r == stopped
    ensures open && stopped.Ok? ==> r == if hasContext && closed.Err? then Err(closed.error) else stopped
  {
    if !open then Err(Thrown(NOT_RECORDING))
    else if stopped.Err? then stopped
    else if hasContext && closed.Err? then Err(closed.error)
    else stopped
  }

  class AudioRecorder {
    var recorder: Option<Recorder>
    var stream: Option<MediaStream>
    var audioContext: Option<AudioContext>
    var analyser: Option<Analyser>
    var dataArray: array?<byte>

    /**
     * The states the methods can reach: recorder and stream are set together
     * and agree, an audio context belongs to an open session, and the
     * analyser, set to an FFT size of 128, comes with a buffer of its bin count.
     */
    predicate Valid()
      reads this
    {
      && (recorder.Some? <==> stream.Some?)
      && (recorder.Some? ==> recorder.value.stream == stream.value)
      && (audioContext.Some? ==> stream.Some? && audioContext.value.source == stream.value)
      && (analyser.Some? <==> dataArray != null)
      && (analyser.Some? ==> audioContext.Some? && analyser.value.fftSize == FFT_SIZE)
      && (analyser.Some? ==> dataArray.Length == FrequencyBinCount(analyser.value))
    }

    /** All five fields are null. */
    predicate Idle()
      reads this
    {
      recorder.None? && stream.None? && audioContext.None? && analyser.None? && dataArray == null
    }

    constructor()
      ensures Valid() && Idle()
    {
      recorder, stream, audioContext, analyser, dataArray := None, None, None, None, null;
    }

    /**
     * `stopRecording()`: `stopped` is the blob the recorder finalises (or why
     * it rejects) and `closed` whether the audio context closes. Any failure
     * leaves every field as it was.
     */
    method StopRecording(stopped: Result<Blob>, closed: Result<()>) returns (r: Result<Blob>)
      requires Valid()
      modifies this
      ensures Valid()
      ensures r == StopResult(old(recorder).Some? && old(stream).Some?, old(audioContext).Some?, stopped, closed)
      ensures r.Err? ==> unchanged(this)
      ensures r.Ok? ==> Idle()
    {
      if recorder.None? || stream.None? {
        return Err(Thrown(NOT_RECORDING));
      }
      if stopped.Err? {
        return stopped;
      }
      if audioContext.Some? && closed.Err? {
        return Err(closed.error);
      }
      recorder := None;
      stream := None;
      audioContext := None;
      analyser := None;
      dataArray := null;
      return stopped;
    }

    /**
     * `startRecording()`: `previous` and `closed` are what stopping an open
     * session answers, `media` the stream `getUserMedia` grants and `started`
     * whether the recorder starts.
     */
    method StartRecording(previous: Result<Blob>, closed: Result<()>, media: Result<MediaStream>, started: Result<()>)
      returns (r: Result<seq<real>>)
      requires Valid()
      modifies this
      ensures Valid()
      ensures var healed := StopResult(true, old(audioContext).Some?, previous, closed);
              if old(recorder).Some? && healed.Err? then r == Err(healed.error) && unchanged(this)
              else if media.Err? then r == Err(media.error) && Idle()
              else
                && stream == Some(media.value) && recorder == Some(Recorder(media.value, OPTIONS))
                && if started.Err? then
                     r == Err(started.error) && audioContext.None? && analyser.None? && dataArray == null
                   else
                     && r == Ok(Placeholder())
                     && audioContext == Some(AudioContext(media.value)) && analyser == Some(Analyser(FFT_SIZE))
                     && dataArray != null && fresh(dataArray) && dataArray[..] == seq(FrequencyBinCount(Analyser(FFT_SIZE)), _ => 0)
    {
      if recorder.Some? {
        var s := StopRecording(previous, closed);
        if s.Err? {
          return Err(s.error);
        }
      }
      if media.Err? {
        return Err(media.error);
      }
      stream := Some(media.value);
      recorder := Some(Recorder(media.value, OPTIONS));
      if started.Err? {
        return Err(started.error);
      }
      audioContext := Some(AudioContext(media.value));
      var a := Analyser(FFT_SIZE);
      analyser := Some(a);
      dataArray := new byte[FrequencyBinCount(a)](_ => 0);
      return Ok(Placeholder());
    }

    /**
     * `getAudioData()`: the placeholder without an analyser; otherwise the
     * analyser's `frame` is written into the buffer and the buffer is scaled.
     * In every reachable state the meter gets exactly 50 levels.
     */
    method GetAudioData(frame: seq<byte>) returns (levels: seq<real>)
      requires Valid()
      modifies dataArray
      ensures Valid()
      ensures |levels| == LEVELS
      ensures analyser.None? || dataArray == null ==> levels == Placeholder()
      ensures analyser.Some? && dataArray != null ==>
                dataArray[..] == Overwrite(old(dataArray[..]), frame) && levels == Normalize(dataArray[..])
    {
      if analyser.None? || dataArray == null {
        return Placeholder();
      }
      var n := if |frame| < dataArray.Length then |frame| else dataArray.Length;
      forall k | 0 <= k < n {
        dataArray[k] := frame[k];
      }
      assert dataArray[..] == Overwrite(old(dataArray[..]), frame);
      levels := Normalize(dataArray[..]);
      NormalizeSpec(dataArray[..]);
    }
  }

  // ---------------------------------------------------------------------
  // The level meter

  lemma {:induction false} LevelsSpec(bytes: seq<byte>)
    ensures |Levels(bytes)| == |bytes|
    ensures forall k :: 0 <= k < |bytes| ==> Levels(bytes)[k] == Level(bytes[k])
  {
    if bytes != [] {
      LevelsSpec(bytes[1..]);
    }
  }

  /**
   * The meter shows `b / 255` for each of the first 50 bytes, in order, and
   * nothing else: min(n, 50) values, each between 0 and 1.
   */
  lemma {:induction false} NormalizeSpec(bytes: seq<byte>)
    ensures |Normalize(bytes)| == if |bytes| < LEVELS then |bytes| else LEVELS
    ensures forall k :: 0 <= k < |Normalize(bytes)| ==> Normalize(bytes)[k] == bytes[k] as real / 255.0
    ensures forall k :: 0 <= k < |Normalize(bytes)| ==> 0.0 <= Normalize(bytes)[k] <= 1.0
  {
    LevelsSpec(bytes);
  }
}
