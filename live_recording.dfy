/**
 * The live-recording component: a timer display, a microphone recorder that
 * collects audio chunks, and a simulated processing phase. Browser effects
 * (microphone permission, the recorder, timers) are events the caller applies
 * one at a time.
 */
module LiveRecording {
  import opened Wrappers
  import opened Text

  // ---------------------------------------------------------------------------
  // formatTime

  /** `d.padStart(2, "0")` on a non-empty numeral. */
  function PadStart2(d: string): (r: string)
    requires |d| >= 1
    ensures |d| == 1 ==> r == "0" + d
    ensures |d| >= 2 ==> r == d
  {
    if |d| < 2 then "0" + d else d
  }

  /** `mm:ss` for a non-negative number of seconds; the minutes grow past two
      digits once there are 100 of them. */
  function FormatTime(seconds: nat): (r: string)
    ensures |r| >= 5 && r[|r| - 3] == ':'
  {
    PadStart2(NatToString(seconds / 60)) + ":" + PadStart2(NatToString(seconds % 60))
  }

  /** A padded numeral is digits, at least two of them, with the same value;
      exactly two below 100. */
  lemma PadStart2Value(n: nat)
    ensures var r := PadStart2(NatToString(n));
      |r| >= 2 && IsDigits(r) && DecimalValue(r) == n && (n < 100 <==> |r| == 2)
  {
    var d := NatToString(n);
    DecimalValueOfNatToString(n);
    if |d| == 1 {
      DecimalValueLeadingZero(d);
    } else if n < 100 {
      NatToStringOfTwoDigits(n);
    } else {
      assert d == NatToString(n / 10) + [DigitChar(n % 10)];
    }
  }

  /** Two numerals joined by a colon read back piece by piece. */
  lemma ColonJoin(m: string, s: string)
    requires |m| >= 2 && IsDigits(m) && |s| == 2 && IsDigits(s)
    ensures var r := m + ":" + s;
      |r| == |m| + 3 && r[|r| - 3] == ':' && r[..|r| - 3] == m && r[|r| - 2..] == s
  {
    var r := m + ":" + s;
    assert r[..|r| - 3] == m;
    assert r[|r| - 2..] == s;
  }

  /** `formatTime` reads back: the text before the colon is the minutes, the two
      digits after it are the seconds within the minute, and together they give
      the input back. Below 100 minutes the text is exactly `mm:ss`. */
  lemma FormatTimeReadsBack(seconds: nat)
    ensures var r := FormatTime(seconds);
      |r| >= 5 && r[|r| - 3] == ':' &&
      IsDigits(r[..|r| - 3]) && IsDigits(r[|r| - 2..]) &&
      DecimalValue(r[|r| - 2..]) < 60 &&
      DecimalValue(r[..|r| - 3]) * 60 + DecimalValue(r[|r| - 2..]) == seconds &&
      (seconds < 6000 <==> |r| == 5)
  {
    var m := PadStart2(NatToString(seconds / 60));
    var s := PadStart2(NatToString(seconds % 60));
    PadStart2Value(seconds / 60);
    PadStart2Value(seconds % 60);
    ColonJoin(m, s);
  }

  // ---------------------------------------------------------------------------
  // View selection

  datatype View = Idle | RecordingView | ProcessingView | CompleteView

  /** The rendered branch: idle when no flag is set, otherwise the first set
      flag among recording, processing and complete. */
  function SelectView(isRecording: bool, isProcessing: bool, isComplete: bool): (v: View)
    ensures v == Idle <==> !isRecording && !isProcessing && !isComplete
    ensures v == RecordingView <==> isRecording
    ensures v == ProcessingView <==> !isRecording && isProcessing
    ensures v == CompleteView <==> !isRecording && !isProcessing && isComplete
  {
    if !isRecording && !isProcessing && !isComplete then Idle
    else if isRecording then RecordingView
    else if isProcessing then ProcessingView
    else CompleteView
  }

  /** The Start button and the title field are only in the idle view; the Stop
      button is only in the recording view. */
  predicate OffersStart(v: View) { v == Idle }
  predicate OffersStop(v: View) { v == RecordingView }

  // ---------------------------------------------------------------------------
  // Chunks and the blob

  /** The bytes of a list of blob parts, in order. */
  function Concat(chunks: seq<seq<bv8>>): seq<bv8> {
    if chunks == [] then [] else Concat(chunks[..|chunks| - 1]) + chunks[|chunks| - 1]
  }

  datatype Blob = Blob(data: seq<bv8>, mimeType: string)

  /** The blob built when recording stops. */
  function RecordedBlob(chunks: seq<seq<bv8>>): (b: Blob)
    ensures b.mimeType == "audio/wav"
    ensures b.data == Concat(chunks)
  {
    Blob(Concat(chunks), "audio/wav")
  }

  /** Appending a chunk appends its bytes to the blob's data. */
  lemma ConcatAppend(chunks: seq<seq<bv8>>, d: seq<bv8>)
    ensures Concat(chunks + [d]) == Concat(chunks) + d
  {
    assert (chunks + [d])[..|chunks|] == chunks;
  }

  /** Only empty chunks are invisible in the blob: a list whose total size is
      zero is a list of empty chunks. */
  lemma {:induction false} ConcatEmpty(chunks: seq<seq<bv8>>)
    ensures Concat(chunks) == [] <==> forall i :: 0 <= i < |chunks| ==> chunks[i] == []
  {
    if chunks != [] {
      var init := chunks[..|chunks| - 1];
      ConcatEmpty(init);
      assert forall i :: 0 <= i < |init| ==> init[i] == chunks[i];
    }
  }

  // ---------------------------------------------------------------------------
  // The component

  datatype RecorderState = Inactive | Active

  /** A media recorder: its state, and whether the component installed its
      `ondataavailable`/`onstop` handlers. */
  datatype Recorder = Recorder(state: RecorderState, handlers: bool)

  /** Where `startRecording` can throw. */
  datatype StartFailure =
    | MicrophoneDenied     // `getUserMedia` rejects
    | RecorderRejected     // `new MediaRecorder(stream)` throws
    | RecorderStartFailed  // `mediaRecorder.start()` throws

  const MicrophoneAlert := "Could not access microphone. Please check permissions."

  class Recording {
    // React state
    var isRecording: bool
    var recordingTime: nat
    var isProcessing: bool
    var isComplete: bool
    var recordingTitle: string
    // Refs: `timerRef` holds an interval, `mediaRecorderRef` a recorder and
    // `streamRef` a stream, named here by a number.
    var timerRef: bool
    var mediaRecorderRef: Option<Recorder>
    var streamRef: Option<nat>
    // The interval's own `seconds` counter and the recorder's `chunks` array.
    var seconds: nat
    var chunks: seq<seq<bv8>>
    // Streams whose tracks are still running, and the next fresh stream.
    var liveStreams: set<nat>
    var nextStream: nat
    // Events the browser still owes: the recorder's `stop` event and the two
    // processing timeouts.
    var stopPending: bool
    var processTimeoutPending: bool
    var resetTimeoutPending: bool
    // The blobs handed to `console.log`, and the alerts shown.
    var logged: seq<Blob>
    var alerts: seq<string>
    var mounted: bool

    ghost predicate Valid()
      reads this
    {
      (mounted ==> (isRecording <==> timerRef)) &&
      (isRecording ==>
         !isProcessing && !isComplete && !stopPending &&
         mediaRecorderRef == Some(Recorder(Active, true)) &&
         streamRef.Some? && (mounted ==> streamRef.value in liveStreams)) &&
      (mediaRecorderRef.Some? && mediaRecorderRef.value.state == Active ==> mediaRecorderRef.value.handlers) &&
      (mounted && mediaRecorderRef.Some? && mediaRecorderRef.value.state == Active ==> isRecording) &&
      (stopPending ==>
         !isRecording && !isProcessing && !isComplete &&
         mediaRecorderRef == Some(Recorder(Inactive, true))) &&
      (processTimeoutPending ==> isProcessing && !resetTimeoutPending) &&
      (isProcessing ==> processTimeoutPending) &&
      (resetTimeoutPending ==> isComplete && !isProcessing) &&
      (isComplete ==> resetTimeoutPending) &&
      (timerRef && seconds > 0 ==> recordingTime == seconds) &&
      (forall s :: s in liveStreams ==> s < nextStream) &&
      (streamRef.Some? ==> streamRef.value < nextStream)
    }

    function CurrentView(): View
      reads this
    {
      SelectView(isRecording, isProcessing, isComplete)
    }

    /** Whether `stopRecording` has nothing left to do. */
    predicate Stopped()
      reads this
    {
      !timerRef && !isRecording && streamRef.None? &&
      (mediaRecorderRef.None? || mediaRecorderRef.value.state == Inactive)
    }

    constructor ()
      ensures Valid() && mounted && CurrentView() == Idle
      ensures recordingTime == 0 && recordingTitle == "" && chunks == []
      ensures !timerRef && mediaRecorderRef.None? && streamRef.None? && liveStreams == {}
      ensures !stopPending && !processTimeoutPending && !resetTimeoutPending
      ensures logged == [] && alerts == []
    {
      isRecording, recordingTime, isProcessing, isComplete, recordingTitle := false, 0, false, false, "";
      timerRef, mediaRecorderRef, streamRef := false, None, None;
      seconds, chunks, liveStreams, nextStream := 0, [], {}, 0;
      stopPending, processTimeoutPending, resetTimeoutPending := false, false, false;
      logged, alerts, mounted := [], [], true;
    }

    /** Typing in the title field, which only the idle view shows. */
    method SetTitle(title: string)
      requires Valid() && mounted && OffersStart(CurrentView())
      modifies this
      ensures Valid() && recordingTitle == title
      ensures isRecording == old(isRecording) && isProcessing == old(isProcessing) && isComplete == old(isComplete)
      ensures recordingTime == old(recordingTime) && timerRef == old(timerRef) && chunks == old(chunks)
      ensures mediaRecorderRef == old(mediaRecorderRef) && streamRef == old(streamRef)
      ensures liveStreams == old(liveStreams) && nextStream == old(nextStream) && seconds == old(seconds)
      ensures stopPending == old(stopPending) && processTimeoutPending == old(processTimeoutPending)
      ensures resetTimeoutPending == old(resetTimeoutPending) && logged == old(logged) && alerts == old(alerts)
      ensures mounted
    {
      recordingTitle := title;
    }

    /** `startRecording` when every step succeeds: a fresh stream, a recorder
        with its handlers, recording on, a new interval counting from 0 and an
        empty chunk list. The shown time is left as it was until the first tick. */
    method StartOk()
      requires Valid() && mounted && OffersStart(CurrentView()) && !stopPending
      modifies this
      ensures Valid() && CurrentView() == RecordingView
      ensures isRecording && timerRef && seconds == 0 && chunks == []
      ensures streamRef == Some(old(nextStream)) && nextStream == old(nextStream) + 1
      ensures liveStreams == old(liveStreams) + {old(nextStream)}
      ensures mediaRecorderRef == Some(Recorder(Active, true))
      ensures recordingTime == old(recordingTime) && recordingTitle == old(recordingTitle)
      ensures isProcessing == old(isProcessing) && isComplete == old(isComplete)
      ensures stopPending == old(stopPending) && processTimeoutPending == old(processTimeoutPending)
      ensures resetTimeoutPending == old(resetTimeoutPending) && logged == old(logged) && alerts == old(alerts)
      ensures mounted
    {
      var stream := nextStream;
      nextStream, liveStreams, streamRef := nextStream + 1, liveStreams + {stream}, Some(stream);
      mediaRecorderRef := Some(Recorder(Active, true));
      isRecording, seconds, timerRef, chunks := true, 0, true, [];
    }

    /** `startRecording` when a step throws: whatever was acquired before the
        throw stays in its ref, the alert is shown, and no recording, timer or
        handlers are set up. */
    method StartFail(failure: StartFailure)
      requires Valid() && mounted && OffersStart(CurrentView()) && !stopPending
      modifies this
      ensures Valid() && CurrentView() == Idle
      ensures !isRecording && !timerRef && alerts == old(alerts) + [MicrophoneAlert]
      ensures failure == MicrophoneDenied ==>
        streamRef == old(streamRef) && nextStream == old(nextStream) && liveStreams == old(liveStreams)
      ensures failure != MicrophoneDenied ==>
        streamRef == Some(old(nextStream)) && nextStream == old(nextStream) + 1 &&
        liveStreams == old(liveStreams) + {old(nextStream)}
      ensures mediaRecorderRef ==
        (if failure == RecorderStartFailed then Some(Recorder(Inactive, false)) else old(mediaRecorderRef))
      ensures chunks == old(chunks) && seconds == old(seconds) && recordingTime == old(recordingTime)
      ensures recordingTitle == old(recordingTitle) && isProcessing == old(isProcessing) && isComplete == old(isComplete)
      ensures stopPending == old(stopPending) && processTimeoutPending == old(processTimeoutPending)
      ensures resetTimeoutPending == old(resetTimeoutPending) && logged == old(logged)
      ensures mounted
    {
      if failure != MicrophoneDenied {
        var stream := nextStream;
        nextStream := nextStream + 1;
        liveStreams := liveStreams + {stream};
        streamRef := Some(stream);
        if failure == RecorderStartFailed {
          mediaRecorderRef := Some(Recorder(Inactive, false));
        }
      }
      alerts := alerts + [MicrophoneAlert];
    }

    /** One interval tick: the closure's counter goes up by one and becomes the
        shown time. */
    method Tick()
      requires Valid() && mounted && timerRef
      modifies this
      ensures Valid() && seconds == old(seconds) + 1 && recordingTime == seconds
      ensures isRecording == old(isRecording) && isProcessing == old(isProcessing) && isComplete == old(isComplete)
      ensures timerRef && recordingTitle == old(recordingTitle) && chunks == old(chunks)
      ensures mediaRecorderRef == old(mediaRecorderRef) && streamRef == old(streamRef)
      ensures liveStreams == old(liveStreams) && nextStream == old(nextStream)
      ensures stopPending == old(stopPending) && processTimeoutPending == old(processTimeoutPending)
      ensures resetTimeoutPending == old(resetTimeoutPending) && logged == old(logged) && alerts == old(alerts)
      ensures mounted
    {
      seconds := seconds + 1;
      recordingTime := seconds;
    }

    /** `ondataavailable`: a non-empty chunk is appended, an empty one dropped.
        The recorder delivers data while it records and once more as it stops. */
    method DataAvailable(data: seq<bv8>)
      requires Valid() && mounted && (isRecording || stopPending)
      modifies this
      ensures Valid()
      ensures chunks == old(chunks) + (if |data| > 0 then [data] else [])
      ensures Concat(chunks) == Concat(old(chunks)) + data
      ensures isRecording == old(isRecording) && isProcessing == old(isProcessing) && isComplete == old(isComplete)
      ensures recordingTime == old(recordingTime) && timerRef == old(timerRef) && seconds == old(seconds)
      ensures recordingTitle == old(recordingTitle)
      ensures mediaRecorderRef == old(mediaRecorderRef) && streamRef == old(streamRef)
      ensures liveStreams == old(liveStreams) && nextStream == old(nextStream)
      ensures stopPending == old(stopPending) && processTimeoutPending == old(processTimeoutPending)
      ensures resetTimeoutPending == old(resetTimeoutPending) && logged == old(logged) && alerts == old(alerts)
      ensures mounted
    {
      if |data| > 0 {
        ConcatAppend(chunks, data);
        chunks := chunks + [data];
      }
    }

    /** `stopRecording`: clear and drop the timer, stop the recorder unless it
        is already inactive (its `stop` event is then owed), stop the stream's
        tracks and drop it, and turn recording off. A second call changes
        nothing. */
    method Stop()
      requires Valid() && mounted
      modifies this
      ensures Valid() && Stopped()
      ensures old(Stopped()) ==> unchanged(this)
      ensures old(isRecording) ==> CurrentView() == Idle
      ensures mediaRecorderRef == (if old(mediaRecorderRef).Some? && old(mediaRecorderRef).value.state == Active
                                   then Some(old(mediaRecorderRef).value.(state := Inactive))
                                   else old(mediaRecorderRef))
      ensures stopPending == (old(stopPending) ||
                              (old(mediaRecorderRef).Some? && old(mediaRecorderRef).value.state == Active))
      ensures liveStreams == (if old(streamRef).Some? then old(liveStreams) - {old(streamRef).value}
                              else old(liveStreams))
      ensures recordingTime == old(recordingTime) && seconds == old(seconds) && chunks == old(chunks)
      ensures recordingTitle == old(recordingTitle) && isProcessing == old(isProcessing) && isComplete == old(isComplete)
      ensures nextStream == old(nextStream) && processTimeoutPending == old(processTimeoutPending)
      ensures resetTimeoutPending == old(resetTimeoutPending) && logged == old(logged) && alerts == old(alerts)
      ensures mounted
    {
      if timerRef {
        timerRef := false;
      }
      if mediaRecorderRef.Some? && mediaRecorderRef.value.state != Inactive {
        mediaRecorderRef := Some(mediaRecorderRef.value.(state := Inactive));
        stopPending := true;
      }
      if streamRef.Some? {
        liveStreams := liveStreams - {streamRef.value};
        streamRef := None;
      }
      if isRecording {
        isRecording := false;
      }
    }

    /** The recorder's `onstop`: the chunks become a wav blob, which is logged,
        and processing starts with its 2 s timeout. Recording is not touched. */
    method RecorderStopped()
      requires Valid() && mounted && stopPending
      modifies this
      ensures Valid() && CurrentView() == ProcessingView
      ensures logged == old(logged) + [RecordedBlob(chunks)]
      ensures isProcessing && processTimeoutPending && !stopPending
      ensures isRecording == old(isRecording) && isComplete == old(isComplete)
      ensures recordingTime == old(recordingTime) && timerRef == old(timerRef) && seconds == old(seconds)
      ensures chunks == old(chunks) && recordingTitle == old(recordingTitle)
      ensures mediaRecorderRef == old(mediaRecorderRef) && streamRef == old(streamRef)
      ensures liveStreams == old(liveStreams) && nextStream == old(nextStream)
      ensures resetTimeoutPending == old(resetTimeoutPending) && alerts == old(alerts)
      ensures mounted
    {
      stopPending := false;
      logged := logged + [RecordedBlob(chunks)];
      isProcessing := true;
      processTimeoutPending := true;
    }

    /** The 2 s timeout: processing ends, the complete view shows, and the 3 s
        timeout is set. */
    method ProcessingTimeout()
      requires Valid() && mounted && processTimeoutPending
      modifies this
      ensures Valid() && CurrentView() == CompleteView
      ensures !isProcessing && isComplete && !processTimeoutPending && resetTimeoutPending
      ensures isRecording == old(isRecording) && recordingTitle == old(recordingTitle)
      ensures recordingTime == old(recordingTime) && timerRef == old(timerRef) && seconds == old(seconds)
      ensures chunks == old(chunks) && mediaRecorderRef == old(mediaRecorderRef) && streamRef == old(streamRef)
      ensures liveStreams == old(liveStreams) && nextStream == old(nextStream) && stopPending == old(stopPending)
      ensures logged == old(logged) && alerts == old(alerts)
      ensures mounted
    {
      processTimeoutPending := false;
      isProcessing := false;
      isComplete := true;
      resetTimeoutPending := true;
    }

    /** The 3 s timeout: back to the idle view with an empty title. */
    method ResetTimeout()
      requires Valid() && mounted && resetTimeoutPending
      modifies this
      ensures Valid() && CurrentView() == Idle
      ensures !isComplete && recordingTitle == "" && !resetTimeoutPending
      ensures isRecording == old(isRecording) && isProcessing == old(isProcessing)
      ensures recordingTime == old(recordingTime) && timerRef == old(timerRef) && seconds == old(seconds)
      ensures chunks == old(chunks) && mediaRecorderRef == old(mediaRecorderRef) && streamRef == old(streamRef)
      ensures liveStreams == old(liveStreams) && nextStream == old(nextStream) && stopPending == old(stopPending)
      ensures processTimeoutPending == old(processTimeoutPending) && logged == old(logged) && alerts == old(alerts)
      ensures mounted
    {
      resetTimeoutPending := false;
      isComplete := false;
      recordingTitle := "";
    }

    /** The unmount cleanup: clear the timer and stop the tracks of the stream
        in `streamRef`. The recorder and the ref itself are left alone. */
    method Unmount()
      requires Valid() && mounted
      modifies this
      ensures Valid() && !mounted && !timerRef
      ensures liveStreams == (if old(streamRef).Some? then old(liveStreams) - {old(streamRef).value}
                              else old(liveStreams))
      ensures isRecording == old(isRecording) && isProcessing == old(isProcessing) && isComplete == old(isComplete)
      ensures recordingTime == old(recordingTime) && seconds == old(seconds) && recordingTitle == old(recordingTitle)
      ensures chunks == old(chunks) && mediaRecorderRef == old(mediaRecorderRef) && streamRef == old(streamRef)
      ensures nextStream == old(nextStream) && stopPending == old(stopPending)
      ensures processTimeoutPending == old(processTimeoutPending) && resetTimeoutPending == old(resetTimeoutPending)
      ensures logged == old(logged) && alerts == old(alerts)
    {
      if timerRef {
        timerRef := false;
      }
      if streamRef.Some? {
        liveStreams := liveStreams - {streamRef.value};
      }
      mounted := false;
    }
  }

  /** A whole session: start, `ticks` ticks, the recorder's data, stop, the
      recorder's stop event and the two timeouts. The views pass through
      recording, idle (while the stop event is owed), processing, complete and
      idle again; the logged blob holds exactly the non-empty data in order,
      the shown time is the number of ticks, and the title is cleared. */
  method Session(r: Recording, ticks: nat, data: seq<seq<bv8>>) returns (views: seq<View>)
    requires r.Valid() && r.mounted && r.CurrentView() == Idle && !r.stopPending
    modifies r
    ensures r.Valid() && r.mounted && r.CurrentView() == Idle
    ensures views == [RecordingView, Idle, ProcessingView, CompleteView, Idle]
    ensures r.logged == old(r.logged) + [Blob(Concat(data), "audio/wav")]
    ensures ticks > 0 ==> r.recordingTime == ticks
    ensures r.recordingTitle == "" && r.Stopped()
  {
    r.StartOk();
    views := [r.CurrentView()];
    var i := 0;
    while i < ticks
      invariant 0 <= i <= ticks
      invariant r.Valid() && r.mounted && r.isRecording && r.seconds == i && r.chunks == []
      invariant r.logged == old(r.logged)
      invariant i > 0 ==> r.recordingTime == i
    {
      r.Tick();
      i := i + 1;
    }
    var j := 0;
    while j < |data|
      invariant 0 <= j <= |data|
      invariant r.Valid() && r.mounted && r.isRecording && r.logged == old(r.logged)
      invariant Concat(r.chunks) == Concat(data[..j])
      invariant ticks > 0 ==> r.recordingTime == ticks
    {
      r.DataAvailable(data[j]);
      assert data[..j + 1] == data[..j] + [data[j]];
      ConcatAppend(data[..j], data[j]);
      j := j + 1;
    }
    assert data[..j] == data;
    r.Stop();
    views := views + [r.CurrentView()];
    r.RecorderStopped();
    views := views + [r.CurrentView()];
    r.ProcessingTimeout();
    views := views + [r.CurrentView()];
    r.ResetTimeout();
    views := views + [r.CurrentView()];
  }
}
