# Video compression optimizer: verified model of its core

The application compresses a video with ffmpeg and scores the result with a
neural network. This project models the parts of it that are its own logic.
The decoder, the encoder, the network and OpenCV's numerics stay outside the
model and appear only as parameters.

- **Compression** (`compression.py`, `VideoCompressor`) derives the output
  size from a resolution tag, looks up the CRF and speed preset, and names the
  output file `<stem>_compressed<suffix>`. It also fixes the order in which
  `compress_video` checks the input, probes it, launches the encoder, reports
  progress, assesses quality and raises its errors.
- **Quality** (`quality_assessment.py`, `QualityAssessor`) samples evenly
  spaced frame positions (`np.linspace(..., dtype=int)`). It keeps the frames
  that were read, fails when none were, and averages one network score per
  frame.
- **Processor** (`cpp_src/video_processor.cpp`, class `VideoProcessor`)
  builds the 128-entry feature vector and predicts quality as a clamped
  weighted sum. Its grid search over 4 bitrates and 3 scales takes a candidate
  only on a strict improvement.
- **Bindings** (`cpp_src/python_bindings.cpp`) holds `numpy_to_mat`, a
  dimension check followed by one `memcpy`, and the bound methods that convert
  their arrays before they call the processor.

The files are `common.dfy` (Option, Result, Sum), `arith.dfy` (division
facts), `compression.dfy`, `quality.dfy`, `processor.dfy` and `bindings.dfy`.

The scaled width is truncated, not rounded, because `int(...)` truncates:
1366x768 at 720p gives width 1280, where rounding would give 1281.

## Model

| member | source | states |
|---|---|---|
| `Compression.OutputResolution` | compression.py:22-34 | "original" and every unknown tag (including "Original") keep the source size. A known tag takes the table height and the width `w` with `w*h <= th*W < (w+1)*h`, so the aspect ratio holds to within one pixel. A zero source height with a known tag is the ZeroDivisionError. |
| `Compression.AspectWidthIsUnique` | compression.py:32-33 | Only one width satisfies the aspect bracket, and it is `floor(th*W/h)`. Truncation therefore gives the only width within a pixel of the ratio. |
| `Compression.ResolutionExamples` | compression.py:22-34 | 1920x1080 at 720p gives 1280x720. 1280x720 at 480p gives 853x480. "Original" keeps 1920x1080. 1366x768 at 720p truncates to 1280. |
| `Compression.SelectPreset` | compression.py:61-67 | A known preset gets its table entry. Any other name gets exactly the settings of "medium". |
| `Compression.PresetOrdering` | compression.py:10-14 | low = (28, veryfast), medium = (23, medium), high = (18, slow). CRF falls strictly from low to medium to high. |
| `Compression.UnknownPresetIsMedium` | compression.py:63-67 | Every name other than low, medium and high, "custom" included, encodes exactly as "medium" does. |
| `Compression.CompressedPath` | compression.py:47-48 | The output stays in the input's directory. Its name is 11 characters longer than the input's, so it never equals the input name. |
| `Compression.CompressedPathKeepsSuffix` | compression.py:48 | For a name with a suffix, the output keeps that suffix. Its stem is the input stem followed by "_compressed". |
| `Compression.TrailingDotGainsSuffix` | compression.py:48 | A name ending in a dot ("clip.") has no suffix. Its output "clip._compressed" does have one, so the suffix is not always kept. |
| `Compression.CompressVideo` | compression.py:36-114 | A missing input raises FileNotFound, unwrapped, before any probe or launch. Probe failures and a zero height escape unwrapped, and nothing is launched. Every other run launches exactly once, with the derived size, preset and output path, and after a failed launch nothing else happens. Errors inside the try block become RuntimeError prefixed "FFmpeg error: " or "Compression error: ": a launch failure, an assessment failure, a failure reading the output's size, then the input's, and a zero input size ("division by zero"), in that order. With a callback, one 50 is reported per poll while the encoder runs, and 100 after a successful assessment. Success happens exactly when all of these succeed, and returns the output path, the score (in [0, 1]) and outputSize/inputSize. |
| `Quality.SampleIndex` | quality_assessment.py:53 | Every sampled position lies in [0, T-1]. The first is 0 and, with two or more samples, the last is T-1. |
| `Quality.SampleIndices` | quality_assessment.py:53 | Exactly n positions, the i-th being `floor(i*(T-1)/(n-1))`. |
| `Quality.SampleIndexMonotone` | quality_assessment.py:53 | Sampled positions never decrease. |
| `Quality.SamplesDistinctIff` | quality_assessment.py:53 | With n >= 2, consecutive positions are all distinct exactly when T >= n. A shorter video repeats positions. |
| `Quality.Kept` | quality_assessment.py:55-61 | The frames kept number at most the positions sampled. |
| `Quality.KeptAllWhenReadsSucceed` | quality_assessment.py:55-61 | When every read succeeds, exactly one frame is kept per position, in sampling order. |
| `Quality.KeptEmptyIff` | quality_assessment.py:55-61 | No frame is kept exactly when every read fails. A failed read is skipped, not fatal. |
| `Quality.KeptFramesWereRead` | quality_assessment.py:55-61 | Every kept frame is what a read at one of the sampled positions returned. |
| `Quality.KeptAppend` | quality_assessment.py:55-61 | Each read is decided on its own: the frames kept from two runs of positions are those of the first run followed by those of the second. |
| `Quality.KeptSuccessfulRead` | quality_assessment.py:55-61 | Every successful read is kept, and it sits right after the frames kept from earlier positions. |
| `Quality.ExtractFrames` | quality_assessment.py:49-64 | The loop returns the frames read successfully at the sampled positions, in sampling order. |
| `Quality.MeanInUnitInterval` | quality_assessment.py:73-84 | The mean of per-frame sigmoid scores in [0, 1] lies in [0, 1]. |
| `Quality.MeanOfEqualScores` | quality_assessment.py:84 | The mean of equal scores is that score. |
| `Quality.AssessQuality` | quality_assessment.py:66-84 | It fails with NoFramesExtracted exactly when no frame was kept, and then the network never runs. Otherwise the network runs once per kept frame and the result is the mean of those scores, in [0, 1]. |
| `Processor.FeatureVector` | cpp_src/video_processor.cpp:105-137 | Exactly 128 entries. Entries 0-5 are each channel's mean and standard deviation, entry 6 is the edge density, and entries 7-127 are 0. |
| `Processor.FeatureSum` | cpp_src/video_processor.cpp:118-135 | Only the seven statistics contribute to the sum of the feature vector. |
| `Processor.ClampUnit` | cpp_src/video_processor.cpp:146 | The result lies in [0, 1]. It is the input when the input is already in [0, 1], 0 below, and 1 above. |
| `Processor.WeightedSumOfOnes` | cpp_src/video_processor.cpp:142-145 | With unit weights, the weighted sum equals the plain sum. |
| `Processor.PredictionFromUnitWeights` | cpp_src/video_processor.cpp:140-147 | With the constructor's unit weights, the prediction for a frame is the sum of its seven statistics clamped to [0, 1]. |
| `Processor.Candidates` | cpp_src/video_processor.cpp:82-85 | The grid has 4 x 3 = 12 candidates. |
| `Processor.CandidateAt` | cpp_src/video_processor.cpp:82-85 | Candidate 3*b+s is the b-th bitrate with both sides scaled by the s-th scale and truncated, so the grid is visited bitrate outer, scale inner. |
| `Processor.SearchWithoutImprovement` | cpp_src/video_processor.cpp:91-98 | When no candidate's difference is strictly below the best, the search leaves the state unchanged. |
| `Processor.SearchKeepsFirst` | cpp_src/video_processor.cpp:91-98 | When every candidate has the same prediction, the first candidate that improves wins and no later one replaces it. |
| `Processor.GridSearchOutcome` | cpp_src/video_processor.cpp:72-103 | The prediction does not depend on the candidate. So the result is (1000000, cols/2, rows/2, "medium", predicted) whenever the prediction is within FLT_MAX of the target, and the uninitialised parameters otherwise. |
| `Processor.VideoProcessor.constructor` | cpp_src/video_processor.cpp:14-17 | Sets 128 weights, each 1.0. |
| `Processor.VideoProcessor.AnalyzeFrame` | cpp_src/video_processor.cpp:21-27 | `workingFrame` becomes the frame even when extraction then fails. The weights and the feature cache are left alone. Returns the frame's feature vector. |
| `Processor.VideoProcessor.ExtractFeatures` | cpp_src/video_processor.cpp:105-138 | For a non-empty frame the loops produce exactly `FeatureVector`, with 128 entries. An empty frame is OpenCV's error. |
| `Processor.VideoProcessor.PredictQuality` | cpp_src/video_processor.cpp:140-147 | Needs one weight per feature, which is what keeps the indexing in bounds. Returns the clamped weighted sum, in [0, 1]. |
| `Processor.VideoProcessor.OptimizeParameters` | cpp_src/video_processor.cpp:72-103 | Visits the 12 candidates in order, bitrate outer and scale inner, and updates only on a strict improvement. The result is the search's fold from (FLT_MAX, unset). |
| `Bindings.CopyBytes` | cpp_src/python_bindings.cpp:19 | memcpy: the first n destination bytes equal the source's, and the rest are unchanged. |
| `Bindings.NumpyToMatAsWritten` | cpp_src/python_bindings.cpp:8-21 | Fails with "Input array must be 3-dimensional" exactly when ndim != 3. Otherwise the matrix is rows x cols with 3 channels, and begins with the copied rows*cols*channels bytes; with 3 channels it holds exactly the array. This needs channels <= 3, which the code never checks. |
| `Bindings.FourChannelsOverflow` | cpp_src/python_bindings.cpp:18-19 | For 4 channels the copy is rows*cols bytes longer than the destination. A 1080x1920 RGBA frame copies 8294400 bytes into 6220800. |
| `Bindings.FewerChannelsFillPart` | cpp_src/python_bindings.cpp:14-19 | A non-empty 1- or 2-channel array is accepted, and its bytes fill only part of the 3-channel matrix, where a channel check would reject it. |
| `Bindings.NumpyToMat` | cpp_src/python_bindings.cpp:8-21 | With the channel check added, conversion succeeds exactly for rows x cols x 3 arrays, and the matrix holds exactly the array's bytes. |
| `Bindings.ThreeChannelsAgree` | cpp_src/python_bindings.cpp:8-21 | On a 3-channel array, the matrix `numpy_to_mat` builds is exactly the one the checked conversion gives. |
| `Bindings.AnalyzeFrameBinding` | cpp_src/python_bindings.cpp:43-46 | Converts with `numpy_to_mat` as written. A non-3-D array is the error and leaves the processor untouched. Otherwise the working frame is the converted matrix, of any channel count up to 3, and the result is its feature vector, or OpenCV's error for an empty frame. With 3 channels the frame is exactly the array. |
| `Bindings.CompareFramesBinding` | cpp_src/python_bindings.cpp:47-60 | Converts the original, then the compressed array, with `numpy_to_mat` as written; a non-3-D array is the conversion error. Otherwise the result is the metric's outcome on the two converted matrices, its OpenCV error passed through. Since PSNR and SSIM fail on matrices of different sizes, a success implies both arrays have the same rows and columns. With 3 channels the matrices are exactly the arrays. |
| `Bindings.OptimizeParametersBinding` | cpp_src/python_bindings.cpp:61-66 | Converts with `numpy_to_mat` as written. A non-3-D array is the error and leaves the processor untouched. Otherwise the working frame is the converted matrix and the result is the grid search on it, or OpenCV's error for an empty frame. |

## Left out

- The GUI (`gui.py`), its worker thread and button handling, `main.py`, `setup.py` and the smoke test. They are UI, wiring, build configuration and a test with no assertions.
- `ffmpeg.probe`, `ffmpeg.run_async`, `process.poll` and `process.wait`, `os.path.exists` and `os.path.getsize` are process and file I/O. Their outcomes are parameters of `CompressVideo`.
- Compression.CompressVideo: assumes the encoder exits after finitely many polls (`Started(pollsBeforeExit)`). The encoder is started with stdout and stderr piped (`pipe_stdout=True, pipe_stderr=True`), and nothing drains those pipes during the poll loop or `wait()`. On a long encode, ffmpeg's stderr log can fill the pipe and block it, and the loop would then report 50 forever. The model does not capture that hang.
- The encoder's exit code is never checked. A failed encode reaches the quality assessment like a successful one, and the model does the same.
- Exceptions raised by the progress callback itself are not modelled.
- A `settings` dictionary with a missing key (KeyError) is not modelled, because `Settings` always has all three fields.
- The bitrate string `"<N>M"` is not modelled; the job carries the bitrate as a number.
- The PyTorch network, the image transforms, the silent fallback to random weights and `train` are foreign ML code. The network is a parameter whose scores are in [0, 1], as its sigmoid head guarantees.
- The RGB colour conversion and the decoder's seek are folded into the `read` parameter. A read's outcome is assumed to depend only on the position. When a short video repeats a position, the source seeks and reads again, and the two reads could differ; the model gives both the same outcome.
- `calculatePSNR`, `calculateSSIM`, `cv::meanStdDev`, `cv::Canny` and `cv::cvtColor` are OpenCV floating-point numerics. Their results are the `Vision` and `metric` parameters.
- Float arithmetic is modelled on reals, so NaN, infinities and float rounding are absent. This covers `target_height * (w / h)`, `np.linspace`, `np.mean`, the weighted sum, `frame.cols * 0.75f` and the `std::abs` comparison. For the example sizes the float path agrees with the exact one, but not for every size: 666x1296 at 720p gives width 369 in Python, because `720*(666/1296)` is 369.99999999999994, while `OutputResolution` gives 370.
- Quality.ExtractFrames: requires a frame count of at least 1, because for T <= 0 NumPy's integer cast of `linspace` differs between versions (truncation or floor).
- Quality.AssessQuality: requires a frame count of at least 1, for the same reason.
- Processor.VideoProcessor.PredictQuality: requires at least as many weights as features. With fewer weights the C++ code reads out of bounds, which is undefined behaviour.
- Processor.VideoProcessor.ExtractFeatures: an empty frame is modelled as OpenCV's exception. The partial feature vector and the NaN edge density of an empty frame are not modelled.
- Bindings.NumpyToMatAsWritten: requires channels <= 3 (see Findings). It also requires that every extent and the byte count fit in an `int`, so the narrowing from `ssize_t` is not modelled. And it requires a contiguous buffer. `py::array_t<uint8_t>` does not force C-contiguity, and `memcpy` ignores strides. So for a non-contiguous view such as `frame[::-1]` the code copies the wrong bytes, or reads past the buffer. The model does not capture that; the fix would be to request `py::array::c_style`.
- Bindings.AnalyzeFrameBinding: requires channels <= 3 and the same `int` and contiguity conditions, because with more channels the copy overflows the matrix (see Findings) and the behaviour is undefined.
- Bindings.CompareFramesBinding: requires channels <= 3 for both arrays, for the same reason.
- Bindings.OptimizeParametersBinding: requires channels <= 3, for the same reason.
- The bytes of the matrix past the copied ones, for 1- or 2-channel arrays, are uninitialised memory. The model leaves them unconstrained, so what the analysis computes from them is not determined.
- Bindings.NumpyToMat: requires that the extents and byte count fit in an `int`, and a contiguous buffer, for the same reasons.
- Bindings.CompareFramesBinding: PSNR and SSIM themselves are the `metric` parameter, which returns a value or OpenCV's error. The model states only that mismatched sizes are an error. Which error it is, and what each metric does with empty input, is left to the parameter: `calculateSSIM` throws in `cv::GaussianBlur`, while `calculatePSNR` divides by zero and returns NaN.
- Compression.Suffix and Compression.Stem follow `pathlib` as of Python 3.13, where a name ending in a single dot has no suffix. The project pins no Python version, and later `pathlib` versions may count the trailing dot as a suffix, which changes `TrailingDotGainsSuffix`.
- How pybind11 translates C++ exceptions into Python ones is not modelled. Errors are `Err` values.
- `feature_cache_` is declared but never written. The model carries it as a field that no method changes.

## Findings

| source | as written | input that shows it | evidently intended | confidence | as-written member | corrected member |
|---|---|---|---|---|---|---|
| cpp_src/python_bindings.cpp:14-19 | The code copies `rows * cols * channels` bytes into a `CV_8UC3` buffer of `rows * cols * 3` bytes and never checks `channels`. | An RGBA array of shape (1080, 1920, 4) writes 8294400 bytes into 6220800, a heap overflow of 2073600 bytes. A (2, 2, 1) array is accepted and fills 4 of the matrix's 12 bytes. | Reject arrays whose third extent is not 3, as the `CV_8UC3` destination requires. | high; not executed | `Bindings.NumpyToMatAsWritten`, `Bindings.FourChannelsOverflow`, `Bindings.FewerChannelsFillPart` | `Bindings.NumpyToMat`, `Bindings.ThreeChannelsAgree` |
