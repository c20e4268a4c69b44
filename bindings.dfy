/** The Python bindings (cpp_src/python_bindings.cpp): `numpy_to_mat`, which
    turns a NumPy `uint8` array into a `CV_8UC3` matrix by one `memcpy`, and
    the bound methods, which convert every array argument before calling the
    processor. A NumPy array is its shape and its byte buffer. */
module Bindings {
  import opened Common
  import opened Arith
  import opened Processor

  /** Exceptions that reach Python: a conversion's `std::runtime_error`, or
      the processor's OpenCV error. */
  datatype BindingError = ConversionError(message: string) | ProcessingError(cause: CvError)

  const NotThreeDimensional: string := "Input array must be 3-dimensional"

  /** The message of the channel check that `numpy_to_mat` lacks (see `NumpyToMat`). */
  const NotThreeChannels: string := "Input array must have 3 channels"

  /** `INT_MAX` for a 32-bit C++ `int`. */
  const IntMax: int := 0x7fff_ffff

  /** What the conversion assumes of a three-dimensional array without checking
      it: every extent and the byte count fit in an `int` (so narrowing the
      extents to `int` keeps them and `rows * cols * channels` does not
      overflow), and the buffer holds the array's bytes contiguously. */
  predicate Fits(shape: seq<nat>, bufferLength: int)
    requires |shape| == 3
  {
    shape[0] <= IntMax && shape[1] <= IntMax && shape[2] <= IntMax &&
    shape[0] * shape[1] * shape[2] <= IntMax &&
    bufferLength == shape[0] * shape[1] * shape[2]
  }

  /** The byte count `numpy_to_mat` copies: `rows * cols * channels`. */
  function CopyLength(shape: seq<nat>): nat
    requires |shape| == 3
  {
    shape[0] * shape[1] * shape[2]
  }

  /** The size of the `CV_8UC3` destination: `rows * cols * 3` bytes. */
  function DestinationLength(shape: seq<nat>): nat
    requires |shape| == 3
  {
    shape[0] * shape[1] * 3
  }

  /** `std::memcpy(dst, src, n)` between distinct buffers. */
  method CopyBytes(dst: array<bv8>, src: array<bv8>, n: nat)
    requires n <= dst.Length && n <= src.Length && dst != src
    modifies dst
    ensures dst[..n] == src[..n]
    ensures dst[n..] == old(dst[n..])
  {
    for i := 0 to n
      invariant forall k :: 0 <= k < i ==> dst[k] == src[k]
      invariant forall k :: i <= k < dst.Length ==> dst[k] == old(dst[k])
    {
      dst[i] := src[i];
    }
  }

  // ---------------------------------------------------------------------------
  // numpy_to_mat as written

  /** `m` is what `numpy_to_mat` builds from a three-dimensional array with at
      most three channels: a `shape[0]` x `shape[1]` three-channel matrix whose
      first `rows * cols * channels` bytes are the array's. With fewer than three
      channels the rest of the matrix is whatever the allocation held. */
  predicate HoldsArray(m: Mat, shape: seq<nat>, bytes: seq<bv8>)
  {
    |shape| == 3 && shape[2] <= 3 && |bytes| == CopyLength(shape) &&
    m.rows == shape[0] && m.cols == shape[1] && |m.data| == DestinationLength(shape) &&
    |bytes| <= |m.data| && m.data[..|bytes|] == bytes
  }

  /** `numpy_to_mat` as written: reject arrays that are not three-dimensional,
      allocate `rows * cols * 3` bytes and copy `rows * cols * channels` bytes
      into them. The copy stays in bounds only when `channels <= 3`, which the
      code never checks; here it is a precondition. With three channels the
      matrix holds exactly the array's bytes. */
  method NumpyToMatAsWritten(shape: seq<nat>, buffer: array<bv8>) returns (r: Result<Mat, BindingError>)
    requires |shape| == 3 ==> Fits(shape, buffer.Length) && shape[2] <= 3
    ensures r.Err? <==> |shape| != 3
    ensures r.Err? ==> r.error == ConversionError(NotThreeDimensional)
    ensures r.Ok? ==> HoldsArray(r.value, shape, buffer[..])
    ensures r.Ok? && shape[2] == 3 ==> r.value.data == buffer[..]
  {
    if |shape| != 3 {
      return Err(ConversionError(NotThreeDimensional));
    }
    var rows, cols, channels := shape[0], shape[1], shape[2];
    var data := new bv8[rows * cols * 3];
    MulMonotone(channels, 3, rows * cols);
    CopyBytes(data, buffer, rows * cols * channels);
    assert buffer[..rows * cols * channels] == buffer[..];
    r := Ok(Mat(rows, cols, data[..]));
  }

  /** Where the unchecked bound fails: for a four-channel (RGBA) array the copy
      is `rows * cols` bytes longer than the destination, so the precondition
      of `NumpyToMatAsWritten` does not hold. A 1080 x 1920 RGBA frame writes
      8294400 bytes into a 6220800-byte matrix. */
  lemma {:induction false} FourChannelsOverflow(rows: nat, cols: nat)
    requires rows >= 1 && cols >= 1
    ensures CopyLength([rows, cols, 4]) == DestinationLength([rows, cols, 4]) + rows * cols
    ensures CopyLength([rows, cols, 4]) > DestinationLength([rows, cols, 4])
    ensures CopyLength([1080, 1920, 4]) == 8294400 && DestinationLength([1080, 1920, 4]) == 6220800
  {
    MulMonotone(1, rows, cols);
    assert rows * cols * 4 == rows * cols * 3 + rows * cols;
  }

  /** The other side of the unchecked count: a one- or two-channel array is
      accepted, and its bytes fill only part of the three-channel matrix. A
      2 x 2 x 1 array gives a 2 x 2 matrix of 12 bytes of which 4 come from
      the array, where the checked conversion rejects it. */
  lemma {:induction false} FewerChannelsFillPart(m: Mat, shape: seq<nat>, bytes: seq<bv8>)
    requires HoldsArray(m, shape, bytes) && shape[2] < 3 && !IsEmpty(m)
    ensures |bytes| < |m.data|
    ensures Conversion(shape, bytes) == Err(ConversionError(NotThreeChannels))
  {
    MulMonotone(1, shape[0], shape[1]);
    MulMonotone(shape[2] + 1, 3, shape[0] * shape[1]);
    assert shape[0] * shape[1] * (shape[2] + 1) == shape[0] * shape[1] * shape[2] + shape[0] * shape[1];
  }

  // ---------------------------------------------------------------------------
  // numpy_to_mat with the channel check

  /** What converting an array yields once the channel count is checked:
      an error unless the array is rows x cols x 3, else the matrix of its bytes. */
  function Conversion(shape: seq<nat>, bytes: seq<bv8>): Result<Mat, BindingError>
  {
    if |shape| != 3 then Err(ConversionError(NotThreeDimensional))
    else if shape[2] != 3 then Err(ConversionError(NotThreeChannels))
    else Ok(Mat(shape[0], shape[1], bytes))
  }

  /** `numpy_to_mat` with the missing check added: an array with a channel count
      other than 3 is rejected, so the copy of `rows * cols * 3` bytes always
      fits the destination and the matrix holds exactly the array's bytes. */
  method NumpyToMat(shape: seq<nat>, buffer: array<bv8>) returns (r: Result<Mat, BindingError>)
    requires |shape| == 3 ==> Fits(shape, buffer.Length)
    ensures r == Conversion(shape, buffer[..])
    ensures r.Ok? <==> |shape| == 3 && shape[2] == 3
    ensures r.Ok? ==> |r.value.data| == r.value.rows * r.value.cols * 3 && r.value.data == buffer[..]
  {
    if |shape| != 3 {
      return Err(ConversionError(NotThreeDimensional));
    }
    var rows, cols, channels := shape[0], shape[1], shape[2];
    if channels != 3 {
      return Err(ConversionError(NotThreeChannels));
    }
    var data := new bv8[rows * cols * 3];
    CopyBytes(data, buffer, rows * cols * channels);
    assert data[..] == data[..rows * cols * channels];
    assert buffer[..rows * cols * channels] == buffer[..];
    r := Ok(Mat(rows, cols, data[..]));
  }

  /** On three-channel arrays the conversion as written and the checked one
      build the same matrix. */
  lemma ThreeChannelsAgree(m: Mat, shape: seq<nat>, bytes: seq<bv8>)
    requires HoldsArray(m, shape, bytes) && shape[2] == 3
    ensures Conversion(shape, bytes) == Ok(m)
  {
    assert m.data == m.data[..|bytes|];
  }

  // ---------------------------------------------------------------------------
  // Bound methods: each converts its arrays with `numpy_to_mat` as written

  /** `analyze_frame`: convert, then analyse. A failed conversion leaves the
      processor as it was. */
  method AnalyzeFrameBinding(processor: VideoProcessor, shape: seq<nat>, buffer: array<bv8>, cv: Vision)
    returns (r: Result<seq<real>, BindingError>)
    requires processor.Valid()
    requires |shape| == 3 ==> Fits(shape, buffer.Length) && shape[2] <= 3
    modifies processor`workingFrame
    ensures processor.Valid()
    ensures |shape| != 3 ==>
      r == Err(ConversionError(NotThreeDimensional)) && processor.workingFrame == old(processor.workingFrame)
    ensures |shape| == 3 ==>
      var frame := processor.workingFrame;
      HoldsArray(frame, shape, buffer[..]) &&
      (r.Ok? <==> !IsEmpty(frame)) &&
      (r.Ok? ==> r.value == FeatureVector(frame, cv)) &&
      (r.Err? ==> r.error == ProcessingError(EmptyFrame))
    ensures |shape| == 3 && shape[2] == 3 ==> Conversion(shape, buffer[..]) == Ok(processor.workingFrame)
  {
    var frame := NumpyToMatAsWritten(shape, buffer);
    if frame.Err? {
      return Err(frame.error);
    }
    if shape[2] == 3 {
      ThreeChannelsAgree(frame.value, shape, buffer[..]);
    }
    var features := processor.AnalyzeFrame(frame.value, cv);
    if features.Err? {
      return Err(ProcessingError(features.error));
    }
    r := Ok(features.value);
  }

  /** What a comparison's outcome becomes once it reaches Python. */
  function MetricOutcome(m: Result<real, CvError>): Result<real, BindingError>
  {
    if m.Ok? then Ok(m.value) else Err(ProcessingError(m.error))
  }

  /** `calculate_psnr` and `calculate_ssim`: convert the original, then the
      compressed frame, then compare them. `metric` is `calculatePSNR` or
      `calculateSSIM`; both fail on matrices of different sizes, where
      `cv::absdiff` and `cv::Mat::mul` refuse their operands. */
  method CompareFramesBinding(originalShape: seq<nat>, original: array<bv8>,
                              compressedShape: seq<nat>, compressed: array<bv8>,
                              metric: (Mat, Mat) -> Result<real, CvError>)
    returns (r: Result<real, BindingError>)
    requires |originalShape| == 3 ==> Fits(originalShape, original.Length) && originalShape[2] <= 3
    requires |compressedShape| == 3 ==> Fits(compressedShape, compressed.Length) && compressedShape[2] <= 3
    requires forall a: Mat, b: Mat :: a.rows != b.rows || a.cols != b.cols ==> metric(a, b).Err?
    ensures |originalShape| != 3 || |compressedShape| != 3 ==> r == Err(ConversionError(NotThreeDimensional))
    ensures |originalShape| == 3 && |compressedShape| == 3 ==>
      exists a: Mat, b: Mat ::
        HoldsArray(a, originalShape, original[..]) && HoldsArray(b, compressedShape, compressed[..]) &&
        r == MetricOutcome(metric(a, b))
    ensures r.Ok? ==> originalShape[0] == compressedShape[0] && originalShape[1] == compressedShape[1]
    ensures |originalShape| == 3 && |compressedShape| == 3 && originalShape[2] == 3 && compressedShape[2] == 3 ==>
      r == MetricOutcome(metric(Conversion(originalShape, original[..]).value,
                                Conversion(compressedShape, compressed[..]).value))
  {
    var a := NumpyToMatAsWritten(originalShape, original);
    if a.Err? {
      return Err(a.error);
    }
    var b := NumpyToMatAsWritten(compressedShape, compressed);
    if b.Err? {
      return Err(b.error);
    }
    if originalShape[2] == 3 && compressedShape[2] == 3 {
      ThreeChannelsAgree(a.value, originalShape, original[..]);
      ThreeChannelsAgree(b.value, compressedShape, compressed[..]);
    }
    var compared := metric(a.value, b.value);
    if compared.Err? {
      return Err(ProcessingError(compared.error));
    }
    r := Ok(compared.value);
  }

  /** `optimize_parameters`: convert, then search. A failed conversion leaves
      the processor as it was. */
  method OptimizeParametersBinding(processor: VideoProcessor, shape: seq<nat>, buffer: array<bv8>,
                                   targetQuality: real, cv: Vision, unset: CompressionParams)
    returns (r: Result<CompressionParams, BindingError>)
    requires processor.Valid()
    requires |shape| == 3 ==> Fits(shape, buffer.Length) && shape[2] <= 3
    modifies processor`workingFrame
    ensures processor.Valid()
    ensures |shape| != 3 ==>
      r == Err(ConversionError(NotThreeDimensional)) && processor.workingFrame == old(processor.workingFrame)
    ensures |shape| == 3 ==>
      var frame := processor.workingFrame;
      HoldsArray(frame, shape, buffer[..]) &&
      (r.Ok? <==> !IsEmpty(frame)) &&
      (r.Ok? ==> r.value == SearchFrom(SearchState(FloatMax, unset), Candidates(frame),
                                       ClampUnit(WeightedSum(FeatureVector(frame, cv), processor.modelWeights)),
                                       targetQuality).params) &&
      (r.Err? ==> r.error == ProcessingError(EmptyFrame))
    ensures |shape| == 3 && shape[2] == 3 ==> Conversion(shape, buffer[..]) == Ok(processor.workingFrame)
  {
    var frame := NumpyToMatAsWritten(shape, buffer);
    if frame.Err? {
      return Err(frame.error);
    }
    if shape[2] == 3 {
      ThreeChannelsAgree(frame.value, shape, buffer[..]);
    }
    var params := processor.OptimizeParameters(frame.value, targetQuality, cv, unset);
    if params.Err? {
      return Err(ProcessingError(params.error));
    }
    r := Ok(params.value);
  }
}
