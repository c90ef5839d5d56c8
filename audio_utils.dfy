/** Waveform normalisation: a decoded signal (rows = channels, columns =
    samples, plus a sample rate) is brought to a fixed channel count, sample
    rate and sample count by three pure transforms chained in a fixed order.
 */
module AudioUtils {

  /** One sample value. Apart from the abstract resampling filter, the
      transforms only copy, drop and zero-fill samples, so no floating-point
      arithmetic is needed. */
  type Sample = real

  /** A decoded signal: a rectangular buffer of rows (channels) by samples,
      tagged with its sample rate in Hz. */
  datatype AudioData = AudioData(signal: seq<seq<Sample>>, sampleRate: int)

  /** Target channel count of the pipeline. */
  const NewChannel: int := 2
  /** Target sample rate of the pipeline, in Hz. */
  const NewSr: int := 16000
  /** Target duration of the pipeline, in milliseconds. */
  const MaxMs: int := 10000

  /** The abstract resampling filter: input rate, output rate and one row of
      samples give the resampled row. */
  type RowFilter = (int, int, seq<Sample>) -> seq<Sample>

  function Min(x: int, y: int): int { if x <= y then x else y }
  function Max(x: int, y: int): int { if x <= y then y else x }

  /** Number of samples per row, the second dimension of the buffer's shape. */
  function Width(signal: seq<seq<Sample>>): nat
  {
    if |signal| == 0 then 0 else |signal[0]|
  }

  /** Every row has as many samples as the first one. */
  predicate Rectangular(signal: seq<seq<Sample>>)
  {
    forall i :: 0 <= i < |signal| ==> |signal[i]| == Width(signal)
  }

  /** A filter that gives rows of equal length for input rows of equal length,
      so that resampling keeps a buffer rectangular. */
  ghost predicate LengthUniform(filter: RowFilter)
  {
    forall origSr, newSr, x, y :: |x| == |y| ==> |filter(origSr, newSr, x)| == |filter(origSr, newSr, y)|
  }

  /** The row slice `rows[:1]`: the first row, or nothing when there is none. */
  function FirstRows(rows: seq<seq<Sample>>): (r: seq<seq<Sample>>)
    ensures |r| == Min(1, |rows|) && r <= rows
  {
    if |rows| == 0 then [] else rows[..1]
  }

  /** The column slice `row[:stop]`: a non-negative stop keeps at most `stop`
      samples; a negative stop counts from the end and drops `-stop` samples. */
  function SliceTo(row: seq<Sample>, stop: int): (r: seq<Sample>)
    ensures r <= row
    ensures |r| == if stop >= 0 then Min(stop, |row|) else Max(0, |row| + stop)
  {
    if stop >= |row| then row
    else if stop >= 0 then row[..stop]
    else if |row| + stop >= 0 then row[..|row| + stop]
    else []
  }

  /** `n` zero samples, the rows of a zero tensor. */
  function Zeros(n: nat): seq<Sample>
  {
    seq(n, _ => 0.0)
  }

  // ---------------------------------------------------------------------
  // rechannel

  /** Changes the channel count: unchanged when it already matches, the first
      row alone for a target of one, and otherwise the whole buffer followed by
      itself (so the row count doubles, whatever the target). */
  function Rechannel(a: AudioData, newChannel: int): (r: AudioData)
    ensures r.sampleRate == a.sampleRate
    ensures |a.signal| == newChannel ==> r == a
    ensures |a.signal| != newChannel && newChannel == 1 ==>
              r.signal == (if |a.signal| == 0 then [] else [a.signal[0]])
    ensures |a.signal| != newChannel && newChannel != 1 ==>
              |r.signal| == 2 * |a.signal| &&
              r.signal[..|a.signal|] == a.signal && r.signal[|a.signal|..] == a.signal
    ensures Rectangular(a.signal) ==> Rectangular(r.signal)
    ensures |r.signal| > 0 ==> Width(r.signal) == Width(a.signal)
  {
    if |a.signal| == newChannel then a
    else if newChannel == 1 then AudioData(FirstRows(a.signal), a.sampleRate)
    else AudioData(a.signal + a.signal, a.sampleRate)
  }

  /** Applying `rechannel` twice with the same target gives what one call gives
      exactly when the target is one, the row count already matches, there are
      no rows, or doubling reaches the target. From three rows towards a
      stereo target, every call doubles again. */
  lemma RechannelIdempotentIff(a: AudioData, newChannel: int)
    ensures Rechannel(Rechannel(a, newChannel), newChannel) == Rechannel(a, newChannel)
            <==> (newChannel == 1 || |a.signal| == newChannel || |a.signal| == 0 || 2 * |a.signal| == newChannel)
  {
  }

  /** A mono or stereo input becomes stereo; a three-or-more-channel input
      does not, and keeps growing under repeated calls. */
  lemma RechannelToStereo(a: AudioData)
    ensures |Rechannel(a, NewChannel).signal| == NewChannel <==> (|a.signal| == 1 || |a.signal| == 2)
    ensures |a.signal| >= 3 ==> |Rechannel(Rechannel(a, NewChannel), NewChannel).signal| == 4 * |a.signal|
  {
  }

  // ---------------------------------------------------------------------
  // resample

  /** A `Resample(origSr, newSr)` transform applied to a group of rows: the
      filter runs on each row independently. */
  function ResampleRows(filter: RowFilter, origSr: int, newSr: int, rows: seq<seq<Sample>>): (r: seq<seq<Sample>>)
    ensures |r| == |rows|
    ensures forall i :: 0 <= i < |rows| ==> r[i] == filter(origSr, newSr, rows[i])
  {
    if rows == [] then []
    else [filter(origSr, newSr, rows[0])] + ResampleRows(filter, origSr, newSr, rows[1..])
  }

  /** Changes the sample rate: unchanged when it already matches; otherwise
      the first row and the remaining rows are resampled as two groups and
      concatenated, and the result carries the new rate. */
  function Resample(a: AudioData, newSr: int, filter: RowFilter): (r: AudioData)
    ensures r.sampleRate == newSr
    ensures |r.signal| == |a.signal|
    ensures a.sampleRate == newSr ==> r == a
    ensures a.sampleRate != newSr ==>
              forall i :: 0 <= i < |a.signal| ==> r.signal[i] == filter(a.sampleRate, newSr, a.signal[i])
    ensures LengthUniform(filter) && Rectangular(a.signal) ==> Rectangular(r.signal)
  {
    if a.sampleRate == newSr then a
    else
      var first := ResampleRows(filter, a.sampleRate, newSr, FirstRows(a.signal));
      var rest := if |a.signal| > 1 then ResampleRows(filter, a.sampleRate, newSr, a.signal[1..]) else [];
      AudioData(first + rest, newSr)
  }

  /** The split into a first row and the remaining rows is invisible: the
      result is the whole buffer resampled row by row, in order. */
  lemma ResampleIsRowwise(a: AudioData, newSr: int, filter: RowFilter)
    requires a.sampleRate != newSr
    ensures Resample(a, newSr, filter).signal == ResampleRows(filter, a.sampleRate, newSr, a.signal)
  {
  }

  /** A second resampling to the same rate changes nothing. */
  lemma ResampleIdempotent(a: AudioData, newSr: int, filter: RowFilter)
    ensures Resample(Resample(a, newSr, filter), newSr, filter) == Resample(a, newSr, filter)
  {
  }

  // ---------------------------------------------------------------------
  // pad_trunc

  /** The target sample count: the rate floor-divided by 1000, times the
      duration in milliseconds. (Dafny's division by a positive divisor
      matches Python's `//`.) The target is empty exactly when the
      duration is zero or the rate is below 1000 Hz, and for non-negative
      inputs it never exceeds the samples the duration holds. */
  function MaxLen(sampleRate: int, maxMs: int): (r: int)
    ensures r == 0 <==> (maxMs == 0 || 0 <= sampleRate < 1000)
    ensures sampleRate >= 0 && maxMs >= 0 ==> 0 <= r && 1000 * r <= sampleRate * maxMs
  {
    sampleRate / 1000 * maxMs
  }

  /** The floor is taken before multiplying, so the target falls short of the
      exact `sampleRate * maxMs / 1000` by up to 999/1000 of a sample per
      millisecond: never more samples than the duration holds. */
  lemma MaxLenFloor(sampleRate: int, maxMs: int)
    requires sampleRate >= 0 && maxMs >= 0
    ensures 0 <= sampleRate * maxMs - 1000 * MaxLen(sampleRate, maxMs) <= 999 * maxMs
  {
    var q, rem := sampleRate / 1000, sampleRate % 1000;
    assert MaxLen(sampleRate, maxMs) == q * maxMs;
    assert sampleRate * maxMs == 1000 * (q * maxMs) + rem * maxMs by {
      assert sampleRate == 1000 * q + rem;
    }
    assert 0 <= rem * maxMs <= 999 * maxMs by {
      assert 0 <= rem <= 999;
      assert (999 - rem) * maxMs >= 0;
    }
  }

  /** At 44100 Hz the target is 44 samples per millisecond, not 44.1. */
  lemma MaxLenAt44100(maxMs: int)
    ensures MaxLen(44100, maxMs) == 44 * maxMs
    ensures maxMs > 0 ==> 1000 * MaxLen(44100, maxMs) < 44100 * maxMs
  {
  }

  /** The random split point is a value in the range `randint` draws from,
      needed only when the signal is shorter than the target. */
  predicate PadBeginOk(a: AudioData, maxMs: int, padBegin: int)
  {
    Width(a.signal) < MaxLen(a.sampleRate, maxMs) ==>
      0 <= padBegin <= MaxLen(a.sampleRate, maxMs) - Width(a.signal)
  }

  /** `rows[:, :stop]`: every row cut with the same column slice, so each
      output row is a prefix of its input row whose length follows Python's
      slice-stop rule, and a rectangular buffer stays rectangular. */
  function TruncRows(rows: seq<seq<Sample>>, stop: int): (r: seq<seq<Sample>>)
    ensures |r| == |rows|
    ensures forall i :: 0 <= i < |rows| ==>
              r[i] <= rows[i] &&
              |r[i]| == if stop >= 0 then Min(stop, |rows[i]|) else Max(0, |rows[i]| + stop)
    ensures Rectangular(rows) ==> Rectangular(r)
  {
    seq(|rows|, i requires 0 <= i < |rows| => SliceTo(rows[i], stop))
  }

  /** `cat((zeros(padBegin), rows, zeros(padEnd)), 1)`: every row framed by
      the same runs of zeros. Each output row holds its input row at offset
      `padBegin` and zero everywhere else, and a rectangular buffer stays
      rectangular. */
  function PadRows(rows: seq<seq<Sample>>, padBegin: nat, padEnd: nat): (r: seq<seq<Sample>>)
    ensures |r| == |rows|
    ensures forall i :: 0 <= i < |rows| ==> r[i] == Zeros(padBegin) + rows[i] + Zeros(padEnd)
    ensures forall i :: 0 <= i < |rows| ==>
              |r[i]| == padBegin + |rows[i]| + padEnd &&
              r[i][padBegin..padBegin + |rows[i]|] == rows[i]
    ensures forall i, k :: 0 <= i < |rows| && 0 <= k < |r[i]| && !(padBegin <= k < padBegin + |rows[i]|) ==>
              r[i][k] == 0.0
    ensures Rectangular(rows) ==> Rectangular(r)
  {
    seq(|rows|, i requires 0 <= i < |rows| => Zeros(padBegin) + rows[i] + Zeros(padEnd))
  }

  /** Forces every row to the target sample count: a longer signal is cut
      with `[:, :max_len]`, a shorter one gets `padBegin` zeros in front and
      the rest of the deficit in zeros behind, an exact one is returned as is.
      Whatever the branch, the row count and the rate are kept and the buffer
      stays rectangular; with a non-negative target every row has exactly the
      target length. */
  function PadTrunc(a: AudioData, maxMs: int, padBegin: int): (r: AudioData)
    requires Rectangular(a.signal)
    requires PadBeginOk(a, maxMs, padBegin)
    ensures r.sampleRate == a.sampleRate && |r.signal| == |a.signal|
    ensures Rectangular(r.signal)
    ensures MaxLen(a.sampleRate, maxMs) >= 0 ==>
              forall i :: 0 <= i < |r.signal| ==> |r.signal[i]| == MaxLen(a.sampleRate, maxMs)
    ensures Width(a.signal) == MaxLen(a.sampleRate, maxMs) ==> r == a
  {
    var maxLen := MaxLen(a.sampleRate, maxMs);
    var sigLen := Width(a.signal);
    if sigLen > maxLen then
      AudioData(TruncRows(a.signal, maxLen), a.sampleRate)
    else if sigLen < maxLen then
      AudioData(PadRows(a.signal, padBegin, maxLen - sigLen - padBegin), a.sampleRate)
    else
      a
  }

  /** A signal longer than a non-negative target keeps the first `max_len`
      samples of each row; a target `sample_rate // 1000 * max_ms` below
      zero is read as a slice stop counted from the end and drops that many
      trailing samples. */
  lemma PadTruncTruncates(a: AudioData, maxMs: int, padBegin: int, i: int)
    requires Rectangular(a.signal) && PadBeginOk(a, maxMs, padBegin)
    requires Width(a.signal) > MaxLen(a.sampleRate, maxMs)
    requires 0 <= i < |a.signal|
    ensures var maxLen := MaxLen(a.sampleRate, maxMs);
            PadTrunc(a, maxMs, padBegin).signal[i]
              == if maxLen >= 0 then a.signal[i][..maxLen] else a.signal[i][..Max(0, Width(a.signal) + maxLen)]
  {
  }

  /** A signal shorter than the target is found, in each row, at offset
      `padBegin`, and every other position holds zero. */
  lemma PadTruncPads(a: AudioData, maxMs: int, padBegin: int, i: int, k: int)
    requires Rectangular(a.signal) && PadBeginOk(a, maxMs, padBegin)
    requires Width(a.signal) < MaxLen(a.sampleRate, maxMs)
    requires 0 <= i < |a.signal| && 0 <= k < MaxLen(a.sampleRate, maxMs)
    ensures PadTrunc(a, maxMs, padBegin).signal[i][k]
              == if padBegin <= k < padBegin + Width(a.signal) then a.signal[i][k - padBegin] else 0.0
  {
  }

  /** The padding split: the leading and trailing zero runs add up to the
      deficit, and cutting them away gives back each original row. */
  lemma PadTruncSplit(a: AudioData, maxMs: int, padBegin: int, i: int)
    requires Rectangular(a.signal) && PadBeginOk(a, maxMs, padBegin)
    requires Width(a.signal) < MaxLen(a.sampleRate, maxMs)
    requires 0 <= i < |a.signal|
    ensures var row, sigLen := PadTrunc(a, maxMs, padBegin).signal[i], Width(a.signal);
            var padEnd := MaxLen(a.sampleRate, maxMs) - sigLen - padBegin;
            0 <= padBegin && 0 <= padEnd && padBegin + sigLen + padEnd == |row| &&
            row[..padBegin] == Zeros(padBegin) &&
            row[padBegin..padBegin + sigLen] == a.signal[i] &&
            row[padBegin + sigLen..] == Zeros(padEnd)
  {
  }

  /** Once the signal has the target length, another `pad_trunc` with the
      same duration changes nothing, whatever split point it draws. */
  lemma PadTruncIdempotent(a: AudioData, maxMs: int, padBegin: int, padBegin2: int)
    requires Rectangular(a.signal) && PadBeginOk(a, maxMs, padBegin)
    requires MaxLen(a.sampleRate, maxMs) >= 0
    requires PadBeginOk(PadTrunc(a, maxMs, padBegin), maxMs, padBegin2)
    ensures PadTrunc(PadTrunc(a, maxMs, padBegin), maxMs, padBegin2) == PadTrunc(a, maxMs, padBegin)
  {
  }

  // ---------------------------------------------------------------------
  // process_audio

  /** The pipeline: to stereo, then to 16000 Hz, then to 10000 ms. The random
      split point of the last stage and the resampling filter are inputs. */
  function ProcessAudio(a: AudioData, padBegin: int, filter: RowFilter): (r: AudioData)
    requires Rectangular(a.signal)
    requires LengthUniform(filter)
    requires var width := Width(Resample(Rechannel(a, NewChannel), NewSr, filter).signal);
             width < 160000 ==> 0 <= padBegin <= 160000 - width
    ensures r.sampleRate == NewSr
    ensures |r.signal| == if |a.signal| == NewChannel then NewChannel else 2 * |a.signal|
    ensures Rectangular(r.signal)
    ensures forall i :: 0 <= i < |r.signal| ==> |r.signal[i]| == 160000
  {
    var stereo := Rechannel(a, NewChannel);
    var resampled := Resample(stereo, NewSr, filter);
    assert MaxLen(NewSr, MaxMs) == 160000;
    PadTrunc(resampled, MaxMs, padBegin)
  }

  /** A signal that is already stereo, at 16000 Hz and 160000 samples long
      passes all three stages unchanged. */
  lemma ProcessIdentity(a: AudioData, padBegin: int, filter: RowFilter)
    requires Rectangular(a.signal) && LengthUniform(filter)
    requires |a.signal| == 2 && a.sampleRate == 16000 && Width(a.signal) == 160000
    ensures PadBeginOk(Resample(Rechannel(a, NewChannel), NewSr, filter), MaxMs, padBegin)
    ensures ProcessAudio(a, padBegin, filter) == a
  {
  }

  /** Running the pipeline a second time changes nothing exactly when the
      input had at most two rows; from three rows on, the channel stage
      doubles the rows again. */
  lemma ProcessIdempotentIff(a: AudioData, padBegin: int, padBegin2: int, filter: RowFilter)
    requires Rectangular(a.signal) && LengthUniform(filter)
    requires PadBeginOk(Resample(Rechannel(a, NewChannel), NewSr, filter), MaxMs, padBegin)
    requires 0 <= padBegin2 <= 160000
    ensures var once := ProcessAudio(a, padBegin, filter);
            PadBeginOk(Resample(Rechannel(once, NewChannel), NewSr, filter), MaxMs, padBegin2) &&
            (ProcessAudio(once, padBegin2, filter) == once <==> |a.signal| <= 2)
  {
  }

  /** A mono input comes out as two identical rows: the duplicate made by the
      channel stage goes through the same filter and is framed by the same
      zeros, so the two output channels never differ. */
  lemma ProcessMonoDuplicates(a: AudioData, padBegin: int, filter: RowFilter)
    requires Rectangular(a.signal) && LengthUniform(filter)
    requires PadBeginOk(Resample(Rechannel(a, NewChannel), NewSr, filter), MaxMs, padBegin)
    requires |a.signal| == 1
    ensures var r := ProcessAudio(a, padBegin, filter);
            |r.signal| == 2 && r.signal[0] == r.signal[1]
  {
  }
}
