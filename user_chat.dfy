/** The peer chat window of `components/UserChatWindow.tsx`: the message log
    with its blank-input guard, voice recording driven by the `isRecording`
    flag, a one-second counter and the recorder and interval refs, and the
    `mm:ss` display of a duration. */
module UserChat {
  import opened Wrappers
  import opened Types
  import opened Media
  import opened IsoDate
  import JsString

  /** `new Date(seconds * 1000).toISOString().substr(14, 5)`, the display of a
      recording's running time and of an audio message's duration. */
  function FormatDuration(seconds: nat): string
    requires seconds * MsPerSecond < YearTenThousandMs
  {
    Substr(ToIsoString(seconds * MsPerSecond), 14, 5)
  }

  lemma DivMod60(a: int, q: int, r: int)
    requires a == 60 * q + r && 0 <= r < 60
    ensures a / 60 == q && a % 60 == r
  {
  }

  lemma DivMod1000(a: int, q: int, r: int)
    requires a == 1000 * q + r && 0 <= r < 1000
    ensures a / 1000 == q && a % 1000 == r
  {
  }
  /** The minutes and seconds fields of the time value `seconds * 1000`. */
  lemma TimeOfDayFields(seconds: nat)
    ensures seconds * 1000 % 86400000 / 60000 % 60 == seconds / 60 % 60
    ensures seconds * 1000 % 86400000 / 1000 % 60 == seconds % 60
  {
    var q, r := seconds / 86400, seconds % 86400;
    assert seconds == 86400 * q + r;
    var ms := seconds * 1000;
    assert ms == 86400000 * q + 1000 * r && 0 <= 1000 * r < 86400000;
    assert ms % 86400000 == 1000 * r;
    var m, sec := r / 60, r % 60;
    assert 1000 * r == 60000 * m + 1000 * sec && 0 <= 1000 * sec < 60000;
    assert 1000 * r / 60000 == m;
    DivMod1000(1000 * r, r, 0);
    DivMod60(seconds, 1440 * q + m, sec);
    DivMod60(1440 * q + m, 24 * q + m / 60, m % 60);
  }

  lemma HourWrap(seconds: nat)
    ensures seconds % 3600 / 60 % 60 == seconds / 60 % 60
    ensures seconds % 3600 % 60 == seconds % 60
    ensures seconds < 3600 ==> seconds / 60 % 60 == seconds / 60
  {
    var q, r := seconds / 3600, seconds % 3600;
    assert seconds == 3600 * q + r;
    var m, sec := r / 60, r % 60;
    assert r == 60 * m + sec;
    DivMod60(seconds, 60 * q + m, sec);
    assert m < 60;
    DivMod60(m, 0, m);
    DivMod60(60 * q + m, q, m);
    if seconds < 3600 {
      DivMod60(seconds / 60, 0, seconds / 60);
    }
  }

  lemma {:induction false} PaddedTwoDigits(n: nat)
    requires n < 100
    ensures Padded(n, 2) == [Digit(n / 10), Digit(n % 10)]
  {
    assert Padded(n, 2) == Padded(n / 10, 1) + [Digit(n % 10)];
    assert Padded(n / 10, 1) == Padded(n / 100, 0) + [Digit(n / 10 % 10)];
  }

  /** The display is the five characters `MM:SS` of the minutes within the
      hour and the seconds within the minute, each as two zero-padded digits;
      for less than an hour the minutes are the whole minutes. */
  lemma {:induction false} DurationIsMinutesAndSeconds(seconds: nat)
    requires seconds * MsPerSecond < YearTenThousandMs
    ensures var minutes, secs := seconds / 60 % 60, seconds % 60;
            FormatDuration(seconds) == [Digit(minutes / 10), Digit(minutes % 10), ':', Digit(secs / 10), Digit(secs % 10)]
    ensures seconds < 3600 ==> seconds / 60 % 60 == seconds / 60
  {
    IsoStringLayout(seconds * MsPerSecond);
    TimeOfDayFields(seconds);
    HourWrap(seconds);
    PaddedTwoDigits(seconds / 60 % 60);
    PaddedTwoDigits(seconds % 60);
  }

  /** Durations of an hour and more wrap around modulo an hour. */
  lemma DurationWrapsHourly(seconds: nat)
    requires seconds * MsPerSecond < YearTenThousandMs
    ensures FormatDuration(seconds) == FormatDuration(seconds % 3600)
  {
    DurationIsMinutesAndSeconds(seconds);
    DurationIsMinutesAndSeconds(seconds % 3600);
    HourWrap(seconds);
  }

  /** The conversation every window opens with. */
  function SeedMessages(): seq<UserChatMessage> {
    [ UserTextMessage("1", Other, "Hey, how's it going?", "10:00 AM"),
      UserTextMessage("2", User, "Pretty good! Just working on that new project. You?", "10:01 AM"),
      UserTextMessage("3", Other, "Same here. It's coming along nicely.", "10:01 AM") ]
  }

  /** No audio message carries a negative duration. */
  ghost predicate DurationsNonNegative(log: seq<UserChatMessage>) {
    forall i :: 0 <= i < |log| && log[i].UserAudioMessage? ==> log[i].duration >= 0
  }

  /** A `MediaRecorder` over a microphone stream, with the `recordingTime`
      its `onstop` handler captured when `startRecording` created it. */
  datatype Recorder = Recorder(microphone: array<Track>, capturedTime: int)

  class UserChatWindow {
    var messages: seq<UserChatMessage>
    var input: string
    var isRecording: bool
    var recordingTime: int
    /** `mediaRecorder.current`. */
    var mediaRecorder: Option<Recorder>
    /** `recordingInterval.current`, a `window.setInterval` id. */
    var recordingInterval: Option<int>
    /** The ids of the intervals started and not cleared, each of which keeps ticking. */
    var runningIntervals: set<int>

    ghost predicate Valid()
      reads this
    {
      && recordingTime >= 0
      && DurationsNonNegative(messages)
      && (mediaRecorder.Some? ==> mediaRecorder.value.capturedTime >= 0)
      && (isRecording ==> mediaRecorder.Some? && recordingInterval.Some? && recordingInterval.value in runningIntervals)
      && (forall id :: id in runningIntervals ==> id > 0)
    }

    constructor ()
      ensures Valid()
      ensures messages == SeedMessages() && input == ""
      ensures !isRecording && recordingTime == 0
      ensures mediaRecorder == None && recordingInterval == None && runningIntervals == {}
    {
      messages := SeedMessages();
      input := "";
      isRecording := false;
      recordingTime := 0;
      mediaRecorder := None;
      recordingInterval := None;
      runningIntervals := {};
    }

    /** The input's `onChange`. */
    method SetInput(text: string)
      requires Valid()
      modifies this`input
      ensures Valid() && input == text
    {
      input := text;
    }

    /** `handleSend`: a whitespace-only input changes nothing; otherwise one
        user text message with the untrimmed input is appended and the input
        is cleared. `id` and `timestamp` stand for the clock-derived strings. */
    method HandleSend(id: string, timestamp: string)
      requires Valid()
      modifies this`messages, this`input
      ensures Valid()
      ensures JsString.Blank(old(input)) ==> messages == old(messages) && input == old(input)
      ensures !JsString.Blank(old(input)) ==>
                messages == old(messages) + [UserTextMessage(id, User, old(input), timestamp)] && input == ""
    {
      if JsString.Blank(input) {
        return;
      }
      messages := messages + [UserTextMessage(id, User, input, timestamp)];
      input := "";
    }

    /** `startRecording`: `microphone` is what `getUserMedia({audio: true})`
        resolved to, `null` when access was denied, in which case nothing
        changes. Otherwise a new recorder captures the current `recordingTime`,
        the counter restarts from 0 and a new interval `intervalId` (the
        browser's fresh positive id) is started. Nothing rejects a start while
        already recording: the previous interval keeps running. */
    method StartRecording(microphone: array?<Track>, intervalId: int) returns (started: bool)
      requires Valid()
      requires intervalId > 0 && intervalId !in runningIntervals
      modifies this`mediaRecorder, this`isRecording, this`recordingTime, this`recordingInterval, this`runningIntervals
      ensures Valid()
      ensures started <==> microphone != null
      ensures !started ==>
                isRecording == old(isRecording) && recordingTime == old(recordingTime) &&
                mediaRecorder == old(mediaRecorder) && recordingInterval == old(recordingInterval) &&
                runningIntervals == old(runningIntervals)
      ensures started ==>
                mediaRecorder == Some(Recorder(microphone, old(recordingTime))) &&
                isRecording && recordingTime == 0 &&
                recordingInterval == Some(intervalId) && runningIntervals == old(runningIntervals) + {intervalId}
    {
      if microphone == null {
        return false;
      }
      mediaRecorder := Some(Recorder(microphone, recordingTime));
      isRecording := true;
      recordingTime := 0;
      recordingInterval := Some(intervalId);
      runningIntervals := runningIntervals + {intervalId};
      started := true;
    }

    /** One tick of a running interval: the counter grows by exactly one. */
    method Tick(intervalId: int)
      requires Valid() && intervalId in runningIntervals
      modifies this`recordingTime
      ensures Valid() && recordingTime == old(recordingTime) + 1
    {
      recordingTime := recordingTime + 1;
    }

    /** `stopRecording`, together with the recorder's `onstop` it triggers. It
        does nothing unless a recorder exists and `isRecording` is set;
        otherwise one user audio message (whose duration is the time the
        recorder captured) is appended, every microphone track is stopped,
        `isRecording` is cleared and the current interval is cleared.
        `audioUrl`, `id` and `timestamp` stand for the object URL and the
        clock-derived strings. */
    method StopRecording(audioUrl: string, id: string, timestamp: string)
      requires Valid()
      modifies this`messages, this`isRecording, this`runningIntervals
      modifies if mediaRecorder.Some? && isRecording then {mediaRecorder.value.microphone} else {}
      ensures Valid()
      ensures mediaRecorder == old(mediaRecorder) && recordingInterval == old(recordingInterval)
      ensures recordingTime == old(recordingTime) && input == old(input)
      ensures !(old(mediaRecorder).Some? && old(isRecording)) ==>
                messages == old(messages) && isRecording == old(isRecording) &&
                runningIntervals == old(runningIntervals)
      ensures old(mediaRecorder).Some? && old(isRecording) ==>
                var r := mediaRecorder.value;
                messages == old(messages) + [UserAudioMessage(id, User, audioUrl, r.capturedTime, timestamp)] &&
                r.microphone[..] == Applied(Stop, old(r.microphone[..])) &&
                !isRecording &&
                runningIntervals == old(runningIntervals) - {recordingInterval.value}
    {
      if mediaRecorder.Some? && isRecording {
        var r := mediaRecorder.value;
        messages := messages + [UserAudioMessage(id, User, audioUrl, r.capturedTime, timestamp)];
        ForEachTrack(r.microphone, Stop);
        isRecording := false;
        if recordingInterval.Some? && recordingInterval.value != 0 {
          runningIntervals := runningIntervals - {recordingInterval.value};
        }
      }
    }
  }

  /** Two starts before a stop (both `onMouseDown` and `onTouchStart` start a
      recording): the stop clears only the second interval, so the first
      keeps running and still advances the counter. */
  method SecondStartLeavesTimerRunning(w: UserChatWindow, mic1: array<Track>, mic2: array<Track>, id1: int, id2: int)
    requires w.Valid() && id1 > 0 && id2 > 0 && id1 != id2
    requires id1 !in w.runningIntervals && id2 !in w.runningIntervals
    modifies w, mic2
    ensures w.Valid() && !w.isRecording
    ensures id1 in w.runningIntervals && id2 !in w.runningIntervals
    ensures mic1 != mic2 ==> mic1[..] == old(mic1[..])
  {
    var ok1 := w.StartRecording(mic1, id1);
    var ok2 := w.StartRecording(mic2, id2);
    w.StopRecording("blob:", "t", "00:00");
    w.Tick(id1);
  }
}
