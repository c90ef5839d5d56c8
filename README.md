# Waveform normalisation pipeline, modelled in Dafny

This project models the waveform-normalisation core of a speech-emotion
front end (`audio_utils.py`). A decoded signal (`AudioData`) is a rectangular
buffer of rows (channels) by samples, tagged with a sample rate. Three pure
transforms each build a new signal:

- `rechannel` changes the channel count. If the count already matches, it
  returns the input. A target of one keeps only the first row. Any other
  target concatenates the buffer with itself, so the row count doubles
  (1 → 2, but also 3 → 6 and 0 → 0).
- `resample` changes the sample rate. It resamples the first row and the
  remaining rows as two groups and concatenates them.
- `pad_trunc` forces every row to `sample_rate // 1000 * max_ms` samples. It
  cuts longer rows, or zero-fills shorter ones around a random split point.

`process_audio` chains them with the constants `new_channel = 2`,
`new_sr = 16000` and `max_ms = 10000`.

Everything lives in one module, `AudioUtils` (`audio_utils.dfy`).

- The buffer is a `seq<seq<Sample>>` with the predicate `Rectangular`.
  `Width` gives the second dimension of its shape.
- Samples are `real`. Apart from the abstract resampling filter, the
  transforms only copy, drop and zero-fill samples.
- The random split point of `pad_trunc` (`random.randint(0, max_len - sig_len)`)
  is the parameter `padBegin`. `PadBeginOk` requires it to be in that range,
  and only when the signal is shorter than the target, because only then is
  it drawn.
- The resampling filter is foreign library code. It is the parameter
  `filter: (int, int, seq<Sample>) -> seq<Sample>` (input rate, output rate,
  row → row). A resampling transform applied to a group of rows runs the
  filter on each row (`ResampleRows`). `LengthUniform(filter)` states that
  rows of equal length resample to rows of equal length. The model needs
  that fact so that resampled output is again a rectangular buffer.
- Python's `//` by 1000 is floor division. Dafny's `/` by a positive divisor
  is the same, so `MaxLen` is `sampleRate / 1000 * maxMs`.
- `signal[:, :max_len]` is a Python slice. A target `sample_rate // 1000 *
  max_ms` below zero counts from the end, so it drops trailing samples
  rather than failing. `SliceTo` models this.

The code has no error paths, and the model has none either:

- The code has no error path for channel conversions other than 1 ↔ 2: any
  target other than 1 doubles the rows. So `process_audio` yields two
  channels only from one or two input channels, and it is idempotent only
  for inputs with at most two rows (`ProcessIdempotentIff`).
- The code checks neither a non-positive target rate nor a non-positive
  duration. A zero duration truncates to empty rows, and a negative target
  length drops trailing samples (`PadTruncTruncates`).

## Model

| member | source | states |
|---|---|---|
| `AudioUtils.FirstRows` | audio_utils.py:25 | The row slice `[:1]` holds at most one row, and it is a prefix of the input: exactly the first row when there is one. The same slice picks the first group that `resample` resamples (line 37). |
| `AudioUtils.Rechannel` | audio_utils.py:19-29 | The sample rate is kept. A matching row count returns the input unchanged. A target of one gives exactly the first row (no rows for an empty input), with no averaging. Any other target gives twice the rows: the input rows, then the same rows again. The buffer stays rectangular and the row length is kept. |
| `AudioUtils.RechannelIdempotentIff` | audio_utils.py:19-29 | Two calls with the same target equal one call if and only if the target is one, the count already matches, there are no rows, or twice the count is the target. |
| `AudioUtils.RechannelToStereo` | audio_utils.py:24-27 | With the stereo target, the output has two rows if and only if the input has one or two. From three rows, a second call gives four times the input's rows. |
| `AudioUtils.ResampleRows` | audio_utils.py:37-40 | A resampling transform applied to a group of rows keeps the row count, and row i of the output is the filter applied to row i. |
| `AudioUtils.Resample` | audio_utils.py:31-43 | The output rate is the new rate and the row count is kept. The input is returned unchanged when the rate already matches. Otherwise each output row is the filter applied to the corresponding input row. With a length-uniform filter, the output is rectangular. |
| `AudioUtils.ResampleIsRowwise` | audio_utils.py:36-43 | Resampling the first row and the rest separately, then concatenating, equals resampling the whole buffer row by row. |
| `AudioUtils.ResampleIdempotent` | audio_utils.py:31-43 | Resampling twice to the same rate equals resampling once. |
| `AudioUtils.MaxLen` | audio_utils.py:48 | The target length `rate // 1000 * max_ms` is zero exactly when the duration is zero or the rate is below 1000 Hz. For non-negative inputs it is non-negative and never exceeds the exact `rate * max_ms / 1000`. |
| `AudioUtils.MaxLenFloor` | audio_utils.py:48 | For non-negative rate and duration, the target length is never above the exact `rate * ms / 1000`. It falls short by at most 999/1000 of a sample per millisecond. |
| `AudioUtils.MaxLenAt44100` | audio_utils.py:48 | At 44100 Hz the target is 44 samples per millisecond, strictly fewer than the exact count. |
| `AudioUtils.SliceTo` | audio_utils.py:51 | The column slice `row[:stop]` is a prefix of the row. For a non-negative stop it has `min(stop, len)` samples. For a negative stop it has `max(0, len + stop)` samples, as Python counts a negative stop from the end. |
| `AudioUtils.TruncRows` | audio_utils.py:51 | `signal[:, :max_len]` keeps the row count. Each output row is a prefix of its input row, with `min(stop, len)` samples for a non-negative stop and `max(0, len + stop)` for a negative one. A rectangular buffer stays rectangular. |
| `AudioUtils.PadRows` | audio_utils.py:55-57 | Concatenating the zero blocks along dimension 1 keeps the row count. Each output row has `pad_begin_len + len + pad_end_len` samples, holds its input row at offset `pad_begin_len`, and is zero at every other position. A rectangular buffer stays rectangular. |
| `AudioUtils.PadTrunc` | audio_utils.py:45-61 | When the signal is shorter than the target, the split point must lie in `[0, max_len - sig_len]`, the range `randint` draws from; otherwise it is unconstrained. In every branch the row count and rate are kept and the buffer stays rectangular. With a non-negative target, every row has exactly `rate // 1000 * max_ms` samples. A signal already at the target length is returned unchanged. |
| `AudioUtils.PadTruncTruncates` | audio_utils.py:50-51 | A signal longer than the target keeps, per row, the first `max_len` samples. A negative target drops that many trailing samples, as a Python slice stop does. |
| `AudioUtils.PadTruncPads` | audio_utils.py:52-57 | A shorter signal sits in each row at offset `padBegin`. Every other position of the row is zero. |
| `AudioUtils.PadTruncSplit` | audio_utils.py:53-57 | When padding, the leading and trailing zero runs are non-negative and add up to `max_len - sig_len`. Cropping them away recovers each original row. |
| `AudioUtils.PadTruncIdempotent` | audio_utils.py:45-61 | With a non-negative target, a second `pad_trunc` with the same duration and any admissible split point changes nothing. |
| `AudioUtils.ProcessAudio` | audio_utils.py:63-74 | The result has rate 16000 and is rectangular. Every row has 16000 // 1000 × 10000 = 160000 samples. There are two rows for a two-row input, and otherwise twice the input's rows. |
| `AudioUtils.ProcessIdentity` | audio_utils.py:63-74 | A rectangular, two-row, 16000 Hz, 160000-sample input passes all three stages unchanged. |
| `AudioUtils.ProcessIdempotentIff` | audio_utils.py:63-74 | A second run of the pipeline over its own output changes nothing if and only if the input had at most two rows. |
| `AudioUtils.ProcessMonoDuplicates` | audio_utils.py:63-74 | A mono input yields two identical output rows. |

## Left out

- `open_audio_file` (audio_utils.py:76-84): file decoding through the audio library, plus printing and re-raising. This is I/O.
- `AudioData.__str__` (audio_utils.py:11-12): string formatting of the shape only.
- The numerical content of resampling: the library's interpolation filter is the abstract `filter` parameter. Its output lengths, and any error it raises for nonsensical rates, are not modelled.
- `random.randint` (audio_utils.py:53): the draw is the `padBegin` parameter. Its distribution is not modelled.
- Tensor identity and aliasing: the source returns the same object, or a view that shares storage, in the no-op branches and in slices. The model works on immutable values, where this cannot be observed.
- The column count of a buffer with zero rows: a `seq` of no rows records no width. Every transform maps such a buffer to one with zero rows, so no samples are lost.
- Floating-point sample values: samples are `real`, and no arithmetic is done on them.
- The spectrogram stage (`spectogram_utils.py`), the user-interface code and the placeholder classifier (`main.py`) are not part of this model. The spectrogram is computed entirely by library transforms (STFT, mel filterbank, decibel conversion), and the rest is interface and file glue.
