/** The arithmetic of the output clock (src/media_timing.cpp): frame numbers, and the
    audio samples that belong to them. */
module OutputClock {
  import opened Prelude

  const NOPTS: int := -0x8000_0000_0000_0000
  const SAMPLE_RATE: nat := 48000

  function NextPts(last: int): int {
    if last == NOPTS then 0 else if last < 0 then 0 else last + 1
  }

  function AudioTarget(nextFrame: nat, sampleRate: int, frameRate: int): nat {
    nextFrame * Max(1, sampleRate) / Max(1, frameRate)
  }

  predicate AudioDue(audio: nat, samples: int, nextFrame: nat, sampleRate: int, frameRate: int) {
    audio + Max(1, samples) <= AudioTarget(nextFrame, sampleRate, frameRate)
  }

  // The whole audio frames that fit before a video frame.
  function AudioBefore(nextFrame: nat, samples: nat, frameRate: int): nat
    requires samples > 0
  {
    samples * (AudioTarget(nextFrame, SAMPLE_RATE, frameRate) / samples)
  }

  lemma FitsExactly(audio: nat, samples: nat, target: nat)
    requires samples > 0 && audio % samples == 0 && audio <= target && audio + samples > target
    ensures audio == samples * (target / samples)
  {
    var k := audio / samples;
    assert audio == samples * k;
    ModuloOf(target, k, samples, target - audio);
  }

  /** Frames are numbered from 0, whatever negative number stands for none before. */
  lemma NumberingStartsAtZero(last: int)
    ensures NextPts(last) == if last < 0 then 0 else last + 1
  {
  }

  /** The audio that belongs to a frame is its share of whole samples, rounded down; a rate
      below one counts as one. */
  lemma TargetIsTheShare(nextFrame: nat, sampleRate: int, frameRate: int)
    ensures var samples, frames := if sampleRate < 1 then 1 else sampleRate, if frameRate < 1 then 1 else frameRate;
      var t := AudioTarget(nextFrame, sampleRate, frameRate);
      t * frames <= nextFrame * samples < t * frames + frames
  {
    var n, f := nextFrame * Max(1, sampleRate), Max(1, frameRate);
    assert n == f * (n / f) + n % f;
  }

  /** Later frames never ask for less audio. */
  lemma AudioGrows(a: nat, b: nat, samples: nat, frameRate: int)
    requires a <= b && samples > 0
    ensures AudioTarget(a, SAMPLE_RATE, frameRate) <= AudioTarget(b, SAMPLE_RATE, frameRate)
    ensures AudioBefore(a, samples, frameRate) <= AudioBefore(b, samples, frameRate)
  {
    var f := Max(1, frameRate);
    DivisionGrows(a * SAMPLE_RATE, b * SAMPLE_RATE, f);
    DivisionGrows(AudioTarget(a, SAMPLE_RATE, frameRate), AudioTarget(b, SAMPLE_RATE, frameRate), samples);
    ProductGrows(samples, AudioTarget(a, SAMPLE_RATE, frameRate) / samples,
                 AudioTarget(b, SAMPLE_RATE, frameRate) / samples);
  }

  lemma DivisionGrows(a: nat, b: nat, m: nat)
    requires a <= b && m > 0
    ensures a / m <= b / m
  {
    var p, q := a / m, b / m;
    assert a == m * p + a % m && b == m * q + b % m;
    if q < p {
      assert m * p - m * q == m * (p - q);
      Multiple(m, p - q);
    }
  }

  lemma ProductGrows(m: nat, p: nat, q: nat)
    requires p <= q
    ensures m * p <= m * q
  {
    assert m * q - m * p == m * (q - p);
  }

  // ------------------------------------------------------------- frame pacing

  method AdvanceOutputFrameClock(nextFrame: int, interval: nat, now: int) returns (next: int)
    ensures next == Max(nextFrame + interval, now)
  {
    next := nextFrame + interval;
    if next < now {
      next := now;
    }
  }

  // The deadline after some frames, each written at its time in nows.
  function Deadline(start: int, interval: nat, nows: seq<int>): int {
    if nows == [] then start
    else Max(Deadline(start, interval, nows[..|nows| - 1]) + interval, nows[|nows| - 1])
  }

  // How long a number of intervals takes.
  function Span(count: nat, interval: nat): nat {
    count * interval
  }

  lemma SpanStep(count: nat, interval: nat)
    ensures Span(0, interval) == 0 && Span(count + 1, interval) == Span(count, interval) + interval
  {
  }

  // From frame k on no frame is written after the deadline it would have on the grid.
  predicate OnTime(start: int, interval: nat, nows: seq<int>, k: nat) {
    forall i | k <= i < |nows| :: nows[i] <= start + Span(i + 1 - k, interval)
  }

  /** Frames are never bunched to make up for lost time: deadlines lie an interval
      apart or more, and exactly one apart as long as no frame is late by more. */
  lemma {:induction false} DeadlinesNeverBunch(start: int, interval: nat, nows: seq<int>, k: nat)
    requires k <= |nows|
    ensures var first, last := Deadline(start, interval, nows[..k]), Deadline(start, interval, nows);
      && last >= first + Span(|nows| - k, interval)
      && (OnTime(first, interval, nows, k) ==> last == first + Span(|nows| - k, interval))
    decreases |nows|
  {
    hide Span;
    if k == |nows| {
      assert nows[..k] == nows;
      SpanStep(0, interval);
    } else {
      var n := |nows| - 1;
      var before := nows[..n];
      assert before[..k] == nows[..k];
      DeadlinesNeverBunch(start, interval, before, k);
      SpanStep(n - k, interval);
      var first := Deadline(start, interval, nows[..k]);
      if OnTime(first, interval, nows, k) {
        assert OnTime(first, interval, before, k);
        assert nows[n] <= first + Span(n + 1 - k, interval);
      }
    }
  }
}
