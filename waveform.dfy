/**
 * The iOS emulation of an Android-style waveform: a pair of parallel
 * sequences (segment durations in milliseconds, segment amplitudes in
 * 0..255) is turned into a list of CoreHaptics transient events. Only the
 * odd ("on") segments produce an event; every segment advances the clock.
 */
module Waveform {

  /**
   * A CoreHaptics transient event. `offsetMs` is the event's relative time
   * in milliseconds (the source keeps seconds, i.e. this value / 1000);
   * `intensity` and `sharpness` are the two event parameters.
   */
  datatype HapticEvent = Transient(offsetMs: int, intensity: real, sharpness: real)

  /** The sharpness given to every waveform event. */
  const WaveformSharpness: real := 0.8

  /** The intensity of a waveform event: the raw amplitude scaled by 1/255. */
  function Intensity(amplitude: int): real
  {
    amplitude as real / 255.0
  }

  /** The fixed "success" cue: two transients 100 ms apart, full intensity, sharpness 0.5. */
  const SuccessPattern: seq<HapticEvent> := [Transient(0, 1.0, 0.5), Transient(100, 1.0, 0.5)]

  /** Sum of a sequence of durations. */
  function Sum(s: seq<int>): int
  {
    if s == [] then 0 else Sum(s[..|s| - 1]) + s[|s| - 1]
  }

  predicate NonNegative(s: seq<int>)
  {
    forall i :: 0 <= i < |s| ==> 0 <= s[i]
  }

  /**
   * `amplitudes` has an entry for every odd index below `|timings|`, the
   * only indices the loop reads it at (the largest such index is
   * 2 * (|timings| / 2) - 1).
   */
  predicate Covers(timings: seq<int>, amplitudes: seq<int>)
  {
    2 * (|timings| / 2) <= |amplitudes|
  }

  /**
   * The events held after the first `n` iterations of the loop: iteration
   * `i` appends an event at the running clock `Sum(timings[..i])` when `i`
   * is odd, and appends nothing when it is even.
   */
  function Emitted(timings: seq<int>, amplitudes: seq<int>, n: nat): seq<HapticEvent>
    requires n <= |timings| && 2 * (n / 2) <= |amplitudes|
  {
    if n == 0 then []
    else
      var i := n - 1;
      Emitted(timings, amplitudes, i)
        + (if i % 2 != 0 then [Transient(Sum(timings[..i]), Intensity(amplitudes[i]), WaveformSharpness)] else [])
  }

  /** Adding one more duration to a prefix adds it to the clock. */
  lemma SumStep(s: seq<int>, i: nat)
    requires i < |s|
    ensures Sum(s[..i + 1]) == Sum(s[..i]) + s[i]
  {
    assert s[..i + 1][..i] == s[..i];
  }

  /** With non-negative durations the clock never runs backwards. */
  lemma {:induction false} SumPrefixMonotone(s: seq<int>, i: nat, j: nat)
    requires i <= j <= |s| && NonNegative(s)
    ensures Sum(s[..i]) <= Sum(s[..j])
    decreases j - i
  {
    if i < j {
      SumStep(s, i);
      SumPrefixMonotone(s, i + 1, j);
    }
  }

  /** One event per odd index below `n`: `n / 2` events. */
  lemma {:induction false} EmittedLength(timings: seq<int>, amplitudes: seq<int>, n: nat)
    requires n <= |timings| && 2 * (n / 2) <= |amplitudes|
    ensures |Emitted(timings, amplitudes, n)| == n / 2
  {
    if n > 0 {
      EmittedLength(timings, amplitudes, n - 1);
    }
  }

  /**
   * Event `k` comes from odd index 2k+1: it starts at the sum of the
   * durations before that index, has intensity amplitudes[2k+1]/255 and the
   * waveform sharpness.
   */
  lemma {:induction false} EmittedAt(timings: seq<int>, amplitudes: seq<int>, n: nat, k: nat)
    requires n <= |timings| && 2 * (n / 2) <= |amplitudes|
    requires k < n / 2
    ensures |Emitted(timings, amplitudes, n)| == n / 2
    ensures Emitted(timings, amplitudes, n)[k]
         == Transient(Sum(timings[..2 * k + 1]), Intensity(amplitudes[2 * k + 1]), WaveformSharpness)
  {
    var i := n - 1;
    EmittedLength(timings, amplitudes, n);
    EmittedLength(timings, amplitudes, i);
    var prefix := Emitted(timings, amplitudes, i);
    assert Emitted(timings, amplitudes, n)
        == prefix + (if i % 2 != 0 then [Transient(Sum(timings[..i]), Intensity(amplitudes[i]), WaveformSharpness)] else []);
    if k < i / 2 {
      EmittedAt(timings, amplitudes, i, k);
    } else {
      // the last iteration was odd and produced event k
      assert i % 2 != 0 && i == 2 * k + 1;
    }
  }

  /** With non-negative durations, event offsets are non-decreasing. */
  lemma EmittedOffsetsMonotone(timings: seq<int>, amplitudes: seq<int>, n: nat)
    requires n <= |timings| && 2 * (n / 2) <= |amplitudes|
    requires NonNegative(timings)
    ensures var events := Emitted(timings, amplitudes, n);
      forall p, q :: 0 <= p <= q < |events| ==> events[p].offsetMs <= events[q].offsetMs
  {
    var events := Emitted(timings, amplitudes, n);
    EmittedLength(timings, amplitudes, n);
    forall p, q | 0 <= p <= q < |events|
      ensures events[p].offsetMs <= events[q].offsetMs
    {
      EmittedAt(timings, amplitudes, n, p);
      EmittedAt(timings, amplitudes, n, q);
      SumPrefixMonotone(timings, 2 * p + 1, 2 * q + 1);
    }
  }

  /** Amplitudes at even indices are never read: two amplitude lists that agree on the odd indices give the same events. */
  lemma {:induction false} EvenAmplitudesIgnored(timings: seq<int>, a: seq<int>, b: seq<int>, n: nat)
    requires n <= |timings| && 2 * (n / 2) <= |a| && 2 * (n / 2) <= |b|
    requires forall i :: 0 <= i < n && i % 2 != 0 ==> a[i] == b[i]
    ensures Emitted(timings, a, n) == Emitted(timings, b, n)
  {
    if n > 0 {
      EvenAmplitudesIgnored(timings, a, b, n - 1);
    }
  }

  /**
   * The loop of the iOS `playWaveform` handler: walks both sequences in
   * step, keeping the running clock, and builds the event list.
   */
  method CompileWaveform(timings: seq<int>, amplitudes: seq<int>) returns (events: seq<HapticEvent>)
    requires Covers(timings, amplitudes)
    ensures events == Emitted(timings, amplitudes, |timings|)
    ensures |events| == |timings| / 2
    ensures forall k :: 0 <= k < |events| ==>
      events[k] == Transient(Sum(timings[..2 * k + 1]), Intensity(amplitudes[2 * k + 1]), WaveformSharpness)
  {
    events := [];
    var relativeTime := 0;
    for i := 0 to |timings|
      invariant events == Emitted(timings, amplitudes, i)
      invariant relativeTime == Sum(timings[..i])
    {
      if i % 2 != 0 {
        events := events + [Transient(relativeTime, Intensity(amplitudes[i]), WaveformSharpness)];
      }
      SumStep(timings, i);
      relativeTime := relativeTime + timings[i];
    }
    EmittedLength(timings, amplitudes, |timings|);
    forall k | 0 <= k < |events|
      ensures events[k] == Transient(Sum(timings[..2 * k + 1]), Intensity(amplitudes[2 * k + 1]), WaveformSharpness)
    {
      EmittedAt(timings, amplitudes, |timings|, k);
    }
  }
}
