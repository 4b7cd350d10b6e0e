/** Shared value types of the music player: the repeat mode and lyric line
    declared by the application, an optional value standing for the
    nullable references of the UI code, and the unsigned byte of an
    analyser's frequency snapshot. */
module Types {

  /** 'off' | 'all' | 'one' */
  datatype RepeatMode = Off | All | One

  /** One timed line of lyrics; `time` is in seconds from the start of the track. */
  datatype LyricLine = LyricLine(time: real, text: string)

  /** A JavaScript value that may be `null` (or `undefined`). */
  datatype Option<T> = None | Some(value: T)

  /** One element of a `Uint8Array`. */
  type Byte = b: int | 0 <= b < 256

  /** One frame's frequency magnitudes, as `getByteFrequencyData` fills them:
      one byte per frequency bin. */
  type Snapshot = seq<Byte>

  /** The analyser's `frequencyBinCount` is half its `fftSize`; the player
      configures an `fftSize` of 256. */
  const FFT_SIZE: nat := 256
  const BIN_COUNT: nat := FFT_SIZE / 2
}
