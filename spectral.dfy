/** The per-frame analysis of the transcriber: the reused FFT buffer, the in-place
    transform, the magnitudes, the dominant bin and the band test (src/main.rs:26, 33-45). */
module Spectral {
  import opened Config

  /** A complex sample or FFT bin; the model keeps both parts as exact reals. */
  datatype Complex = Complex(re: real, im: real)

  /** The numeric collaborators of the analysis, left uninterpreted: `bin(b, k)` is bin `k`
      of the forward FFT of the buffer `b` (what `fft.process` leaves in slot `k`), and
      `norm` is the magnitude of a complex value (`Complex::norm`). */
  datatype Analyzer = Analyzer(bin: (seq<Complex>, nat) -> Complex, norm: Complex -> real)

  /** The buffer as first allocated: FFT_SIZE complex zeros. */
  function ZeroBuffer(): seq<Complex>
  {
    seq(FFT_SIZE, _ => Complex(0.0, 0.0))
  }

  /** The buffer after the copy loop has written `frame` into its first |frame| slots.
      The remaining slots are not cleared. */
  function Overlay(buf: seq<Complex>, frame: seq<real>): seq<Complex>
    requires |frame| <= |buf|
  {
    seq(|buf|, j requires 0 <= j < |buf| => if j < |frame| then Complex(frame[j], 0.0) else buf[j])
  }

  /** The buffer after `fft.process`: every slot replaced by the bin of the same index. */
  function Spectrum(an: Analyzer, buf: seq<Complex>): seq<Complex>
  {
    seq(|buf|, k requires 0 <= k < |buf| => an.bin(buf, k))
  }

  /** The magnitudes collected from the buffer, one per bin. */
  function Magnitudes(an: Analyzer, buf: seq<Complex>): seq<real>
  {
    seq(|buf|, k requires 0 <= k < |buf| => an.norm(buf[k]))
  }

  /** The copy loop: slot j receives the j-th sample of the frame (imaginary part zero) for
      every j < |frame|, and every later slot keeps its previous content, so a short frame
      is analysed together with the stale tail of the previous spectrum. */
  method CopyFrame(buffer: array<Complex>, frame: seq<real>)
    requires |frame| <= buffer.Length
    modifies buffer
    ensures forall j :: 0 <= j < |frame| ==> buffer[j] == Complex(frame[j], 0.0)
    ensures forall j :: |frame| <= j < buffer.Length ==> buffer[j] == old(buffer[j])
    ensures buffer[..] == Overlay(old(buffer[..]), frame)
  {
    for j := 0 to |frame|
      invariant forall i :: 0 <= i < j ==> buffer[i] == Complex(frame[i], 0.0)
      invariant forall i :: j <= i < buffer.Length ==> buffer[i] == old(buffer[i])
    {
      buffer[j] := Complex(frame[j], 0.0);
    }
  }

  /** `fft.process(&mut buffer)`: the buffer is replaced in place by its spectrum. */
  method Process(an: Analyzer, buffer: array<Complex>)
    modifies buffer
    ensures buffer[..] == Spectrum(an, old(buffer[..]))
  {
    var input := buffer[..];
    forall k | 0 <= k < buffer.Length {
      buffer[k] := an.bin(input, k);
    }
  }

  /** The index that `enumerate().max_by(...)` returns: a left-to-right reduction that
      keeps the element seen so far only when it is strictly greater than the next one,
      so the result is a maximal magnitude and, among equal maxima, the LAST one. */
  function DominantBin(m: seq<real>): (k: nat)
    requires |m| > 0
    ensures k < |m|
    ensures forall j :: 0 <= j < |m| ==> m[j] <= m[k]
    ensures forall j :: k < j < |m| ==> m[j] < m[k]
    decreases |m|
  {
    if |m| == 1 then 0
    else
      var k := DominantBin(m[..|m| - 1]);
      if m[k] > m[|m| - 1] then k else |m| - 1
  }

  /** An index holds a maximal magnitude and nothing after it equals that maximum. */
  ghost predicate IsLastMaximum(m: seq<real>, k: nat)
  {
    && k < |m|
    && (forall j :: 0 <= j < |m| ==> m[j] <= m[k])
    && (forall j :: k < j < |m| ==> m[j] < m[k])
  }

  /** The dominant bin is exactly the last position of the maximum magnitude. */
  lemma DominantBinIsLastMaximum(m: seq<real>, k: nat)
    requires |m| > 0
    ensures IsLastMaximum(m, k) <==> k == DominantBin(m)
  {
  }

  /** The reduction loop of `max_by` over the enumerated magnitudes. */
  method MaxBy(m: seq<real>) returns (k: nat)
    requires |m| > 0
    ensures k == DominantBin(m)
  {
    k := 0;
    for i := 1 to |m|
      invariant k == DominantBin(m[..i])
    {
      assert m[..i + 1][..i] == m[..i];
      if !(m[k] > m[i]) {
        k := i;
      }
    }
    assert m[..|m|] == m;
  }

  /** A buffer of equal magnitudes (a silent frame) has the last bin as its dominant bin,
      which lies above the band and so is dropped. */
  lemma FlatSpectrumIsDropped(m: seq<real>)
    requires |m| == FFT_SIZE
    requires forall j :: 0 <= j < |m| ==> m[j] == m[0]
    ensures DominantBin(m) == FFT_SIZE - 1
    ensures !InBand(DominantBin(m))
  {
    InBandBins(DominantBin(m));
  }

  /** The transform maps the all-zero buffer to the all-zero spectrum, as every discrete
      Fourier transform does. */
  predicate SilenceIsFixed(an: Analyzer)
  {
    forall k :: 0 <= k < FFT_SIZE ==> an.bin(ZeroBuffer(), k) == Complex(0.0, 0.0)
  }

  /** A silent frame copied over a zero buffer leaves the buffer zero after the transform,
      and the frame's dominant bin is dropped by the band test. */
  lemma SilentFrame(an: Analyzer, frame: seq<real>)
    requires SilenceIsFixed(an)
    requires |frame| <= FFT_SIZE && forall x :: x in frame ==> x == 0.0
    ensures Spectrum(an, Overlay(ZeroBuffer(), frame)) == ZeroBuffer()
    ensures !InBand(DominantBin(Magnitudes(an, ZeroBuffer())))
  {
    assert forall j :: 0 <= j < |frame| ==> frame[j] in frame;
    assert Overlay(ZeroBuffer(), frame) == ZeroBuffer();
    FlatSpectrumIsDropped(Magnitudes(an, ZeroBuffer()));
  }

  /** The frequency of bin `k` in Hz.  In the source this is computed in f32, where every
      k * 44100 below 1024 * 44100 is a multiple of 4 below 2^26 and dividing by 1024 is exact,
      so the exact value here is the value the program computes. */
  function BinFrequency(k: nat): real
  {
    (k as real) * (SAMPLE_RATE as real) / (FFT_SIZE as real)
  }

  /** The band test applied to each frame's dominant frequency. */
  predicate InBand(k: nat)
  {
    20.0 <= BinFrequency(k) <= 20000.0
  }

  /** With 44100 Hz over 1024 bins, only bin 0 lies below the floor, and bins 465 and up
      lie above the ceiling. */
  lemma InBandBins(k: nat)
    ensures InBand(k) <==> 1 <= k <= 464
  {
  }
}
