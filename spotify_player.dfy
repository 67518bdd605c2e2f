/** The player widget (src/components/SpotifyPlayer.tsx): the `m:ss` time
    labels, the progress bar's percentage with its duration fallback, the
    shuffle and repeat toggles and the volume slider's scale. */
module SpotifyPlayer {
  import opened Wrappers
  import Audio

  // ---------------------------------------------------------------------------
  // Time labels

  predicate IsDigit(c: char)
  {
    '0' <= c <= '9'
  }

  predicate AllDigits(s: string)
  {
    forall k :: 0 <= k < |s| ==> IsDigit(s[k])
  }

  function DigitChar(d: nat): (c: char)
    requires d < 10
    ensures IsDigit(c) && c as int - '0' as int == d
  {
    ('0' as int + d) as char
  }

  /** The decimal value of a digit string, most significant digit first. */
  function DigitsValue(s: string): nat
    requires AllDigits(s)
  {
    if s == [] then 0 else DigitsValue(s[..|s| - 1]) * 10 + (s[|s| - 1] as int - '0' as int)
  }

  /** `n.toString()` for a whole number: its decimal digits, without leading zeros. */
  function NatToString(n: nat): (s: string)
    ensures 1 <= |s| && AllDigits(s)
    ensures n < 10 <==> |s| == 1
    ensures |s| > 1 ==> s[0] != '0'
  {
    if n < 10 then [DigitChar(n)] else NatToString(n / 10) + [DigitChar(n % 10)]
  }

  /** Reading the digits back gives the number. */
  lemma {:induction false} NatToStringValue(n: nat)
    ensures DigitsValue(NatToString(n)) == n
  {
    var s := NatToString(n);
    if n < 10 {
      assert s[..0] == [];
    } else {
      assert s[..|s| - 1] == NatToString(n / 10);
      NatToStringValue(n / 10);
    }
  }

  /** `secs.toString().padStart(2, '0')` for seconds below sixty. */
  function PadTwo(n: nat): (s: string)
    requires n < 60
    ensures |s| == 2 && AllDigits(s)
  {
    if n < 10 then "0" + NatToString(n) else NatToString(n)
  }

  lemma PadTwoValue(n: nat)
    requires n < 60
    ensures DigitsValue(PadTwo(n)) == n
  {
    var s := PadTwo(n);
    NatToStringValue(n);
    if n < 10 {
      assert s[..1] == "0";
      assert DigitsValue(s[..1]) == 0 by {
        assert s[..1][..0] == [];
      }
    } else {
      assert NatToString(n)[..1] == NatToString(n / 10);
    }
  }

  /** `formatTime`: whole minutes, a colon, then the remaining seconds padded
      to two digits. */
  function FormatTime(seconds: nat): (r: string)
    ensures |r| >= 4 && r[|r| - 3] == ':'
    ensures AllDigits(r[..|r| - 3]) && AllDigits(r[|r| - 2..])
  {
    var mins := NatToString(seconds / 60);
    var secs := PadTwo(seconds % 60);
    assert (mins + ":" + secs)[..|mins|] == mins;
    assert (mins + ":" + secs)[|mins| + 1..] == secs;
    mins + ":" + secs
  }

  /** The minutes field of a label (everything before the colon). */
  function MinutesField(r: string): string
    requires |r| >= 3
  {
    r[..|r| - 3]
  }

  /** The seconds field of a label (the two characters after the colon). */
  function SecondsField(r: string): string
    requires |r| >= 2
  {
    r[|r| - 2..]
  }

  /** The seconds field is exactly two digits worth less than sixty, the
      minutes field reads as whole minutes, and together they give back the
      seconds one started from. */
  lemma FormatTimeFields(seconds: nat)
    ensures |SecondsField(FormatTime(seconds))| == 2
    ensures DigitsValue(SecondsField(FormatTime(seconds))) == seconds % 60 < 60
    ensures DigitsValue(MinutesField(FormatTime(seconds))) == seconds / 60
    ensures DigitsValue(MinutesField(FormatTime(seconds))) * 60
            + DigitsValue(SecondsField(FormatTime(seconds))) == seconds
  {
    var mins := NatToString(seconds / 60);
    var secs := PadTwo(seconds % 60);
    var r := FormatTime(seconds);
    assert MinutesField(r) == mins;
    assert SecondsField(r) == secs;
    NatToStringValue(seconds / 60);
    PadTwoValue(seconds % 60);
  }

  /** Reads an `m:ss` label back into seconds; None for anything that is not
      one (a missing colon, a non-digit, seconds of sixty or more). */
  function ParseTime(r: string): Option<nat>
  {
    if |r| >= 4 && r[|r| - 3] == ':' && AllDigits(MinutesField(r)) && AllDigits(SecondsField(r))
       && DigitsValue(SecondsField(r)) < 60
    then Some(DigitsValue(MinutesField(r)) * 60 + DigitsValue(SecondsField(r)))
    else None
  }

  /** Every label reads back as the seconds it was made from, so no two
      durations share a label. */
  lemma FormatTimeRoundTrip(seconds: nat)
    ensures ParseTime(FormatTime(seconds)) == Some(seconds)
  {
    FormatTimeFields(seconds);
  }

  lemma FormatTimeInjective(a: nat, b: nat)
    requires FormatTime(a) == FormatTime(b)
    ensures a == b
  {
    FormatTimeRoundTrip(a);
    FormatTimeRoundTrip(b);
  }

  /** A catalogue track's three minutes read `3:00`; 65 seconds read `1:05`. */
  lemma FormatTimeExamples()
    ensures FormatTime(180) == "3:00"
    ensures FormatTime(65) == "1:05"
    ensures FormatTime(0) == "0:00"
  {
    assert NatToString(3) == "3" && PadTwo(0) == "00";
    assert NatToString(1) == "1" && PadTwo(5) == "05";
    assert NatToString(0) == "0";
  }

  // ---------------------------------------------------------------------------
  // Progress

  /** `duration || track.duration`: the playback hook's duration unless it is
      zero, then the track's own. */
  function TrackDuration(duration: real, fallback: real): (r: real)
    ensures duration != 0.0 ==> r == duration
    ensures duration == 0.0 ==> r == fallback
  {
    if duration != 0.0 then duration else fallback
  }

  /** The bar's percentage for a position within a known, positive length. */
  function ProgressPercent(currentTime: real, length: real): (r: real)
    requires length > 0.0
    ensures r * length == currentTime * 100.0
  {
    currentTime / length * 100.0
  }

  /** A position inside the track puts the bar between empty and full, at
      the ends exactly when the position is at the ends. */
  lemma ProgressWithinBar(currentTime: real, length: real)
    requires length > 0.0 && 0.0 <= currentTime <= length
    ensures 0.0 <= ProgressPercent(currentTime, length) <= 100.0
    ensures ProgressPercent(currentTime, length) == 0.0 <==> currentTime == 0.0
    ensures ProgressPercent(currentTime, length) == 100.0 <==> currentTime == length
  {
    var r := ProgressPercent(currentTime, length);
    assert r * length == currentTime * 100.0;
    if r == 100.0 {
      assert 100.0 * length == currentTime * 100.0;
    }
  }

  // ---------------------------------------------------------------------------
  // Volume slider

  /** The slider shows `volume * 100`. */
  function VolumeToSlider(volume: real): (value: real)
    requires 0.0 <= volume <= 1.0
    ensures 0.0 <= value <= 100.0
  {
    volume * 100.0
  }

  /** `Number(e.target.value) / 100` for a slider value in 0..100. */
  function SliderToVolume(value: real): (v: real)
    requires 0.0 <= value <= 100.0
    ensures 0.0 <= v <= 1.0 && v * 100.0 == value
  {
    value / 100.0
  }

  /** Slider and volume scales are inverse to each other, and a slider volume
      already lies in the range the playback hook clamps to. */
  lemma SliderVolumeRoundTrip(value: real, volume: real)
    requires 0.0 <= value <= 100.0 && 0.0 <= volume <= 1.0
    ensures VolumeToSlider(SliderToVolume(value)) == value
    ensures SliderToVolume(VolumeToSlider(volume)) == volume
    ensures Audio.Clamp01(SliderToVolume(value)) == SliderToVolume(value)
  {
  }

  // ---------------------------------------------------------------------------
  // The widget's own state

  class PlayerView {
    var progress: real
    var shuffle: bool
    var repeat: bool

    constructor ()
      ensures progress == 0.0 && !shuffle && !repeat
    {
      progress, shuffle, repeat := 0.0, false, false;
    }

    /** The progress effect: with a positive length (the hook's duration, or
        the track's when that is zero) the bar follows the position; otherwise
        it keeps its old value. */
    method SyncProgress(currentTime: real, duration: real, trackDuration: real)
      modifies this
      ensures TrackDuration(duration, trackDuration) > 0.0 ==>
                progress == ProgressPercent(currentTime, TrackDuration(duration, trackDuration))
      ensures TrackDuration(duration, trackDuration) <= 0.0 ==> progress == old(progress)
      ensures shuffle == old(shuffle) && repeat == old(repeat)
    {
      var length := TrackDuration(duration, trackDuration);
      if length > 0.0 {
        progress := ProgressPercent(currentTime, length);
      }
    }

    /** The shuffle button flips its flag and nothing else. */
    method ToggleShuffle()
      modifies this
      ensures shuffle == !old(shuffle)
      ensures repeat == old(repeat) && progress == old(progress)
    {
      shuffle := !shuffle;
    }

    /** The repeat button flips its flag and nothing else. */
    method ToggleRepeat()
      modifies this
      ensures repeat == !old(repeat)
      ensures shuffle == old(shuffle) && progress == old(progress)
    {
      repeat := !repeat;
    }
  }

  /** Pressing either toggle twice leaves the widget as it was. */
  method ToggleTwiceRestores(view: PlayerView)
    modifies view
    ensures view.shuffle == old(view.shuffle) && view.repeat == old(view.repeat)
    ensures view.progress == old(view.progress)
  {
    view.ToggleShuffle();
    view.ToggleShuffle();
    view.ToggleRepeat();
    view.ToggleRepeat();
  }

  /** Moving the slider hands the playback hook a volume it stores unclamped. */
  method SlideVolume(player: Audio.AudioPlayer, value: real)
    requires player.Valid() && 0.0 <= value <= 100.0
    modifies player
    ensures player.Valid() && player.volume == SliderToVolume(value)
    ensures VolumeToSlider(player.volume) == value
  {
    player.SetVolumeLevel(SliderToVolume(value));
  }
}
