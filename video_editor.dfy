/**
 * The video editor: a queue of selected files with one of them in the player, the `m:ss` time display,
 * play/pause, and the submission of the whole queue for processing.
 */
module VideoEditor {
  import opened Wrappers
  import opened Decimal
  import opened Browser

  // ---------------------------------------------------------------- time display

  /** `s.padStart(width, fill)` with a one-character fill. */
  function PadStart(s: string, width: nat, fill: char): (r: string)
    ensures |r| == if |s| >= width then |s| else width
    ensures r[|r| - |s|..] == s
    ensures forall i :: 0 <= i < |r| - |s| ==> r[i] == fill
  {
    if |s| >= width then s else seq(width - |s|, _ => fill) + s
  }

  /**
   * `formatTime(time)` for a playback position `time >= 0`: the minutes `Math.floor(time / 60)`, a colon,
   * and the seconds `Math.floor(time % 60)` padded to two digits. For a non-negative dividend JavaScript's
   * `%` is `time - 60 * Math.floor(time / 60)`.
   */
  function FormatTime(time: real): (r: string)
    requires time >= 0.0
    ensures |r| >= 4
  {
    var minutes := (time / 60.0).Floor;
    var seconds := (time - 60.0 * minutes as real).Floor;
    ClockText(minutes, seconds)
  }

  /** `${minutes}:${seconds.toString().padStart(2, "0")}`. */
  function ClockText(minutes: nat, seconds: nat): (r: string)
    ensures |r| >= 4 && |r| >= |NatToString(minutes)| + 3
    ensures r[..|NatToString(minutes)|] == NatToString(minutes) && r[|NatToString(minutes)|] == ':'
  {
    NatToString(minutes) + ":" + PadStart(NatToString(seconds), 2, '0')
  }

  /** The floor of `x` is the integer `k` with `k <= x < k + 1`. */
  lemma FloorIs(x: real, k: int)
    requires k as real <= x < k as real + 1.0
    ensures x.Floor == k
  {
  }

  /** `Math.floor(time / 60)` is the whole minutes of `floor(time)`. */
  lemma MinutesOfTime(time: real)
    requires time >= 0.0
    ensures (time / 60.0).Floor == time.Floor / 60
  {
    var whole := time.Floor;
    var q := whole / 60;
    assert 60 * q <= whole < 60 * q + 60;
    assert (60 * q) as real == 60.0 * q as real;
    assert (whole as real) <= time < (whole as real) + 1.0;
    assert 60.0 * q as real <= time < 60.0 * q as real + 60.0;
    FloorIs(time / 60.0, q);
  }

  /** `Math.floor(time % 60)` is the seconds left over in `floor(time)`. */
  lemma SecondsOfTime(time: real)
    requires time >= 0.0
    ensures (time - 60.0 * (time / 60.0).Floor as real).Floor == time.Floor % 60
  {
    MinutesOfTime(time);
    var whole := time.Floor;
    var q, m := whole / 60, whole % 60;
    assert whole == 60 * q + m;
    assert (whole as real) <= time < (whole as real) + 1.0;
    assert (whole as real) == 60.0 * q as real + m as real;
    FloorIs(time - 60.0 * q as real, m);
  }

  /** The two fields of the display are the whole seconds of `time` split into minutes and seconds. */
  lemma FormatTimeFields(time: real)
    requires time >= 0.0
    ensures time.Floor >= 0 && FormatTime(time) == ClockText(time.Floor / 60, time.Floor % 60)
  {
    MinutesOfTime(time);
    SecondsOfTime(time);
  }

  /** A two-character seconds field written for a value below 100. */
  lemma PaddedBelowHundred(n: nat)
    requires n < 100
    ensures PadStart(NatToString(n), 2, '0') == [DigitChar(n / 10), DigitChar(n % 10)]
  {
    if n < 10 {
      var d := DigitChar(n);
      assert NatToString(n) == [d];
      assert PadStart([d], 2, '0') == PadStart(['0', d], 2, '0') == ['0', d];
      assert n / 10 == 0 && n % 10 == n;
      assert DigitChar(0) == '0';
    } else {
      NatToStringBelowHundred(n);
      assert PadStart(NatToString(n), 2, '0') == NatToString(n);
    }
  }

  /** Reads `m:ss` back: the minutes are everything before the colon, the seconds the last two digits. */
  function ParseClock(s: string): (r: Option<nat>)
    ensures r.Some? ==> |s| >= 4 && s[|s| - 3] == ':' && AllDigits(s[..|s| - 3]) && AllDigits(s[|s| - 2..])
  {
    if |s| >= 4 && s[|s| - 3] == ':' && AllDigits(s[..|s| - 3]) && AllDigits(s[|s| - 2..])
    then Some(DigitsValue(s[..|s| - 3]) * 60 + DigitsValue(s[|s| - 2..]))
    else None
  }

  lemma TwoDigitsValue(n: nat)
    requires n < 100
    ensures var ss := [DigitChar(n / 10), DigitChar(n % 10)];
            AllDigits(ss) && DigitsValue(ss) == n
  {
    var hi, lo := DigitChar(n / 10), DigitChar(n % 10);
    var ss := [hi, lo];
    assert ss[..1] == [hi];
    assert [hi][..0] == [];
    assert DigitsValue([hi]) == n / 10;
    assert DigitsValue(ss) == DigitsValue([hi]) * 10 + n % 10;
  }

  lemma ParseClockOfParts(m: string, ss: string)
    requires |m| >= 1 && AllDigits(m) && |ss| == 2 && AllDigits(ss)
    ensures ParseClock(m + ":" + ss) == Some(DigitsValue(m) * 60 + DigitsValue(ss))
  {
    var s := m + ":" + ss;
    assert |s| == |m| + 3 && s[|s| - 3] == ':';
    assert s[..|s| - 3] == m;
    assert s[|s| - 2..] == ss;
  }

  /** `m:ss` written from minutes `m` and seconds below 60 reads back as `m * 60 + ss`. */
  lemma ParseClockOfFields(minutes: nat, seconds: nat)
    requires seconds < 60
    ensures ParseClock(ClockText(minutes, seconds)) == Some(minutes * 60 + seconds)
  {
    PaddedBelowHundred(seconds);
    ParseClockOfDigits(minutes, seconds);
  }

  lemma ParseClockOfDigits(minutes: nat, seconds: nat)
    requires seconds < 60
    ensures ParseClock(NatToString(minutes) + ":" + [DigitChar(seconds / 10), DigitChar(seconds % 10)])
            == Some(minutes * 60 + seconds)
  {
    TwoDigitsValue(seconds);
    DigitsValueOfNatToString(minutes);
    ParseClockOfParts(NatToString(minutes), [DigitChar(seconds / 10), DigitChar(seconds % 10)]);
  }

  /** The display always has exactly two seconds digits, and reading it back gives `floor(time)`. */
  lemma FormatTimeRoundTrip(time: real)
    requires time >= 0.0
    ensures var s := FormatTime(time);
            |s| >= 4 && s[|s| - 3] == ':' && AllDigits(s[|s| - 2..]) && ParseClock(s) == Some(time.Floor)
  {
    FormatTimeFields(time);
    WholeSecondsRoundTrip(time.Floor);
  }

  lemma WholeSecondsRoundTrip(whole: nat)
    ensures ParseClock(ClockText(whole / 60, whole % 60)) == Some(whole)
  {
    var minutes, seconds := whole / 60, whole % 60;
    ParseClockOfFields(minutes, seconds);
    assert minutes * 60 + seconds == whole;
  }

  // ---------------------------------------------------------------- component state

  /** The callbacks `handleGenerateZip` calls, in call order. */
  datatype Callback = ProcessComplete(files: seq<File>) | Back

  class Editor {
    const videoFiles: seq<File>
    var currentVideoIndex: int
    var isPlaying: bool
    var currentTime: real
    var duration: real
    var isProcessing: bool
    var uploadProgress: real

    /** `videoFiles[currentVideoIndex] || null`. */
    function VideoFile(): (r: Option<File>)
      reads this
      ensures r.Some? <==> 0 <= currentVideoIndex < |videoFiles|
      ensures r.Some? ==> r.value == videoFiles[currentVideoIndex]
    {
      if 0 <= currentVideoIndex < |videoFiles| then Some(videoFiles[currentVideoIndex]) else None
    }

    /** The component renders nothing, and so has no `<video>` element, when there is no current file. */
    predicate PlayerMounted()
      reads this
    {
      VideoFile().Some?
    }

    constructor(files: seq<File>)
      ensures videoFiles == files && currentVideoIndex == 0
      ensures !isPlaying && currentTime == 0.0 && duration == 0.0
      ensures !isProcessing && uploadProgress == 0.0
    {
      videoFiles := files;
      currentVideoIndex := 0;
      isPlaying, currentTime, duration := false, 0.0, 0.0;
      isProcessing, uploadProgress := false, 0.0;
    }

    /**
     * A click on queue entry `index`. When that changes the current file, the effect on `videoFile`
     * stops playback and clears the position and the duration.
     */
    method SelectEntry(index: nat)
      requires index < |videoFiles|
      modifies this`currentVideoIndex, this`isPlaying, this`currentTime, this`duration
      ensures currentVideoIndex == index && VideoFile() == Some(videoFiles[index])
      ensures if index != old(currentVideoIndex)
              then !isPlaying && currentTime == 0.0 && duration == 0.0
              else isPlaying == old(isPlaying) && currentTime == old(currentTime) && duration == old(duration)
    {
      var previous := currentVideoIndex;
      currentVideoIndex := index;
      if index != previous {
        isPlaying, currentTime, duration := false, 0.0, 0.0;
      }
    }

    /** `togglePlay` flips `isPlaying` while the player exists. */
    method TogglePlay()
      modifies this`isPlaying
      ensures isPlaying == if PlayerMounted() then !old(isPlaying) else old(isPlaying)
    {
      if PlayerMounted() {
        isPlaying := !isPlaying;
      }
    }

    /** `handleGenerateZip` up to the upload: the submit button gives way to the progress bar. */
    method BeginGenerateZip()
      modifies this`isProcessing
      ensures isProcessing
    {
      isProcessing := true;
    }

    /**
     * `handleGenerateZip` after the upload settled. On success it calls `onProcessComplete` with the whole
     * queue (when the page passed one) and then `onBack`; on failure it calls neither. Either way
     * `isProcessing` is false again.
     */
    method SettleGenerateZip(uploaded: bool, hasProcessComplete: bool) returns (calls: seq<Callback>)
      modifies this`isProcessing
      ensures !isProcessing
      ensures !uploaded ==> calls == []
      ensures uploaded ==> calls == (if hasProcessComplete then [ProcessComplete(videoFiles)] else []) + [Back]
    {
      calls := [];
      if uploaded {
        if hasProcessComplete {
          calls := calls + [ProcessComplete(videoFiles)];
        }
        calls := calls + [Back];
      }
      isProcessing := false;
    }
  }
}
