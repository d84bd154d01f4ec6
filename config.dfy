/** The three compile-time constants of the transcriber (src/main.rs:7-9). */
module Config {
  /** Samples per second assumed for the input and the output. */
  const SAMPLE_RATE: nat := 44100

  /** Length of the buffer handed to the forward FFT, and of every analysis frame but the last. */
  const FFT_SIZE: nat := 1024

  /** Length of an aggregate window: one second of audio at SAMPLE_RATE. */
  const AGGREGATE_SIZE: nat := 44100
}
