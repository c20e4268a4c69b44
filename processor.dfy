/** The native `VideoProcessor` (cpp_src/video_processor.cpp): feature
    extraction, the weighted-sum quality predictor and the grid search over
    encode parameters. `float` arithmetic is modelled on reals. The OpenCV
    statistics are parameters (`Vision`): their numerics are not modelled. */
module Processor {
  import opened Common

  /** An 8-bit, three-channel OpenCV matrix (`CV_8UC3`): its size and its bytes, row by row. */
  datatype Mat = Mat(rows: nat, cols: nat, data: seq<bv8>)

  /** `cv::Mat::empty()`. */
  predicate IsEmpty(m: Mat)
  {
    m.rows == 0 || m.cols == 0
  }

  /** A `cv::Scalar`: four channel values. */
  type Scalar = s: seq<real> | |s| == 4 witness [0.0, 0.0, 0.0, 0.0]

  /** The OpenCV calls `extractFeatures` makes, as functions of the frame. */
  datatype Vision = Vision(
    meanStdDev: Mat -> (Scalar, Scalar),   // cv::meanStdDev of the frame scaled to [0, 1]
    edgePixels: Mat -> nat)                // cv::countNonZero of cv::Canny(frame, 100, 200)

  /** The exceptions OpenCV raises: on an empty frame while extracting
      features, and on two matrices of different sizes in `cv::absdiff` or
      `cv::Mat::mul` while comparing frames. */
  datatype CvError = EmptyFrame | SizeMismatch

  /** Length of a feature vector and of the weight vector. */
  const FeatureCount: nat := 128

  /** `std::numeric_limits<float>::max()`. */
  const FloatMax: real := 340282346638528859811704183484516925440.0

  /** `VideoProcessor::CompressionParams`. */
  datatype CompressionParams = CompressionParams(bitrate: int, width: int, height: int, preset: string, targetQuality: real)

  // ---------------------------------------------------------------------------
  // Features

  /** The fraction of the frame's pixels that are edge pixels. */
  function EdgeDensity(frame: Mat, cv: Vision): real
    requires !IsEmpty(frame)
  {
    cv.edgePixels(frame) as real / (frame.rows * frame.cols) as real
  }

  /** The feature vector of a non-empty frame: mean and standard deviation of
      each of the three channels, interleaved, then the edge density, then
      zeros up to 128 entries. */
  function FeatureVector(frame: Mat, cv: Vision): (f: seq<real>)
    requires !IsEmpty(frame)
    ensures |f| == FeatureCount
    ensures f[0] == cv.meanStdDev(frame).0[0] && f[1] == cv.meanStdDev(frame).1[0]
    ensures f[2] == cv.meanStdDev(frame).0[1] && f[3] == cv.meanStdDev(frame).1[1]
    ensures f[4] == cv.meanStdDev(frame).0[2] && f[5] == cv.meanStdDev(frame).1[2]
    ensures f[6] == EdgeDensity(frame, cv)
    ensures forall k :: 7 <= k < FeatureCount ==> f[k] == 0.0
  {
    var (mean, stddev) := cv.meanStdDev(frame);
    [mean[0], stddev[0], mean[1], stddev[1], mean[2], stddev[2], EdgeDensity(frame, cv)]
      + seq(FeatureCount - 7, _ => 0.0)
  }

  /** Only the seven statistics contribute to the sum of the features. */
  lemma FeatureSum(frame: Mat, cv: Vision)
    requires !IsEmpty(frame)
    ensures var (mean, stddev) := cv.meanStdDev(frame);
      Sum(FeatureVector(frame, cv)) ==
        mean[0] + stddev[0] + mean[1] + stddev[1] + mean[2] + stddev[2] + EdgeDensity(frame, cv)
  {
    var (mean, stddev) := cv.meanStdDev(frame);
    var stats := [mean[0], stddev[0], mean[1], stddev[1], mean[2], stddev[2], EdgeDensity(frame, cv)];
    var zeros := seq(FeatureCount - 7, _ => 0.0);
    assert FeatureVector(frame, cv) == stats + zeros;
    SumAppend(stats, zeros);
    SumOfZeros(zeros);
    SumOfSeven(mean[0], stddev[0], mean[1], stddev[1], mean[2], stddev[2], EdgeDensity(frame, cv));
  }

  lemma SumOfSeven(a: real, b: real, c: real, d: real, e: real, f: real, g: real)
    ensures Sum([a, b, c, d, e, f, g]) == a + b + c + d + e + f + g
  {
    assert Sum([a]) == a by { assert [a][..0] == []; }
    assert Sum([a, b]) == Sum([a]) + b by { assert [a, b][..1] == [a]; }
    assert Sum([a, b, c]) == Sum([a, b]) + c by { assert [a, b, c][..2] == [a, b]; }
    assert Sum([a, b, c, d]) == Sum([a, b, c]) + d by { assert [a, b, c, d][..3] == [a, b, c]; }
    assert Sum([a, b, c, d, e]) == Sum([a, b, c, d]) + e by { assert [a, b, c, d, e][..4] == [a, b, c, d]; }
    assert Sum([a, b, c, d, e, f]) == Sum([a, b, c, d, e]) + f by { assert [a, b, c, d, e, f][..5] == [a, b, c, d, e]; }
    assert Sum([a, b, c, d, e, f, g]) == Sum([a, b, c, d, e, f]) + g by {
      assert [a, b, c, d, e, f, g][..6] == [a, b, c, d, e, f];
    }
  }

  lemma {:induction false} SumOfZeros(xs: seq<real>)
    requires forall k :: 0 <= k < |xs| ==> xs[k] == 0.0
    ensures Sum(xs) == 0.0
  {
    if |xs| > 0 {
      SumOfZeros(xs[..|xs| - 1]);
    }
  }

  // ---------------------------------------------------------------------------
  // Prediction

  /** `std::min(1.0f, std::max(0.0f, x))`. */
  function ClampUnit(x: real): (y: real)
    ensures 0.0 <= y <= 1.0
    ensures 0.0 <= x <= 1.0 ==> y == x
    ensures x < 0.0 ==> y == 0.0
    ensures x > 1.0 ==> y == 1.0
  {
    if x > 1.0 then 1.0 else if x < 0.0 then 0.0 else x
  }

  /** The sum of `features[i] * weights[i]` over the features. */
  function WeightedSum(features: seq<real>, weights: seq<real>): real
    requires |features| <= |weights|
  {
    if |features| == 0 then 0.0
    else WeightedSum(features[..|features| - 1], weights) + features[|features| - 1] * weights[|features| - 1]
  }

  /** With unit weights the weighted sum is the plain sum. */
  lemma {:induction false} WeightedSumOfOnes(features: seq<real>, weights: seq<real>)
    requires |features| <= |weights|
    requires forall k :: 0 <= k < |weights| ==> weights[k] == 1.0
    ensures WeightedSum(features, weights) == Sum(features)
  {
    if |features| > 0 {
      WeightedSumOfOnes(features[..|features| - 1], weights);
    }
  }

  /** `predictQuality` on a frame's features with the constructor's unit
      weights: the seven statistics added up and clamped to [0, 1]. */
  lemma PredictionFromUnitWeights(frame: Mat, cv: Vision, weights: seq<real>)
    requires !IsEmpty(frame)
    requires |weights| == FeatureCount && forall k :: 0 <= k < |weights| ==> weights[k] == 1.0
    ensures var (mean, stddev) := cv.meanStdDev(frame);
      ClampUnit(WeightedSum(FeatureVector(frame, cv), weights)) ==
        ClampUnit(mean[0] + stddev[0] + mean[1] + stddev[1] + mean[2] + stddev[2] + EdgeDensity(frame, cv))
  {
    WeightedSumOfOnes(FeatureVector(frame, cv), weights);
    FeatureSum(frame, cv);
  }

  // ---------------------------------------------------------------------------
  // Grid search

  /** One point of the grid: a bitrate and the frame size at one scale. */
  datatype Candidate = Candidate(bitrate: int, width: int, height: int)

  const Bitrates: seq<int> := [1000000, 2000000, 4000000, 8000000]

  /** The scales 0.5, 0.75 and 1.0, in quarters. */
  const ScaleQuarters: seq<nat> := [2, 3, 4]

  /** `static_cast<int>(n * scale)` for a non-negative `n`. */
  function Scaled(n: nat, quarters: nat): nat
  {
    n * quarters / 4
  }

  /** The twelve candidates in visiting order: bitrate outer, scale inner. */
  function Candidates(frame: Mat): (cs: seq<Candidate>)
    ensures |cs| == |Bitrates| * |ScaleQuarters|
  {
    seq(12, k requires 0 <= k < 12 =>
      Candidate(Bitrates[k / 3], Scaled(frame.cols, ScaleQuarters[k % 3]), Scaled(frame.rows, ScaleQuarters[k % 3])))
  }

  /** The candidate at bitrate index `b` and scale index `s`. */
  lemma CandidateAt(frame: Mat, b: nat, s: nat)
    requires b < |Bitrates| && s < |ScaleQuarters|
    ensures Candidates(frame)[3 * b + s] ==
      Candidate(Bitrates[b], Scaled(frame.cols, ScaleQuarters[s]), Scaled(frame.rows, ScaleQuarters[s]))
  {
    var k := 3 * b + s;
    assert k / 3 == b && k % 3 == s;
  }

  /** The best difference so far and the parameters that achieved it. */
  datatype SearchState = SearchState(bestDiff: real, params: CompressionParams)

  function Abs(x: real): real
  {
    if x < 0.0 then -x else x
  }

  /** One step of the search: take the candidate only on a strict improvement. */
  function Consider(s: SearchState, c: Candidate, predicted: real, target: real): SearchState
  {
    var diff := Abs(predicted - target);
    if diff < s.bestDiff then SearchState(diff, CompressionParams(c.bitrate, c.width, c.height, "medium", predicted))
    else s
  }

  /** The state after considering `cs` in order, starting from `s`. */
  function SearchFrom(s: SearchState, cs: seq<Candidate>, predicted: real, target: real): SearchState
  {
    if |cs| == 0 then s
    else Consider(SearchFrom(s, cs[..|cs| - 1], predicted, target), cs[|cs| - 1], predicted, target)
  }

  /** Extending the visited prefix by one candidate is one more step of the search. */
  lemma SearchStep(s: SearchState, cs: seq<Candidate>, k: nat, predicted: real, target: real)
    requires k < |cs|
    ensures SearchFrom(s, cs[..k + 1], predicted, target) == Consider(SearchFrom(s, cs[..k], predicted, target), cs[k], predicted, target)
  {
    assert cs[..k + 1][..k] == cs[..k];
  }

  /** A search whose best difference already matches the prediction's never changes. */
  lemma {:induction false} SearchWithoutImprovement(s: SearchState, cs: seq<Candidate>, predicted: real, target: real)
    requires Abs(predicted - target) >= s.bestDiff
    ensures SearchFrom(s, cs, predicted, target) == s
  {
    if |cs| > 0 {
      SearchWithoutImprovement(s, cs[..|cs| - 1], predicted, target);
    }
  }

  /** With one prediction for every candidate, the first candidate that
      improves wins and no later one displaces it. */
  lemma {:induction false} SearchKeepsFirst(s: SearchState, cs: seq<Candidate>, predicted: real, target: real)
    requires |cs| > 0 && Abs(predicted - target) < s.bestDiff
    ensures SearchFrom(s, cs, predicted, target) == Consider(s, cs[0], predicted, target)
  {
    if |cs| > 1 {
      SearchKeepsFirst(s, cs[..|cs| - 1], predicted, target);
    } else {
      assert cs[..0] == [];
    }
  }

  /** `optimizeParameters`'s result: because the prediction does not depend on
      the candidate, the search returns the first grid point (1 Mbit/s at half
      size) whenever the prediction is within `FloatMax` of the target, and
      otherwise leaves the uninitialised parameters untouched. */
  lemma GridSearchOutcome(frame: Mat, predicted: real, target: real, unset: CompressionParams)
    ensures SearchFrom(SearchState(FloatMax, unset), Candidates(frame), predicted, target).params ==
      if Abs(predicted - target) < FloatMax
      then CompressionParams(1000000, frame.cols / 2, frame.rows / 2, "medium", predicted)
      else unset
  {
    var init := SearchState(FloatMax, unset);
    if Abs(predicted - target) < FloatMax {
      SearchKeepsFirst(init, Candidates(frame), predicted, target);
      assert Scaled(frame.cols, 2) == frame.cols / 2;
      assert Scaled(frame.rows, 2) == frame.rows / 2;
    } else {
      SearchWithoutImprovement(init, Candidates(frame), predicted, target);
    }
  }

  // ---------------------------------------------------------------------------
  // The processor object

  class VideoProcessor {
    var modelWeights: seq<real>
    var workingFrame: Mat
    var featureCache: seq<real>

    /** The weight vector has one weight per feature. */
    ghost predicate Valid()
      reads this
    {
      |modelWeights| == FeatureCount
    }

    /** The constructor: 128 unit weights; the frame and the cache start empty. */
    constructor ()
      ensures Valid()
      ensures forall k :: 0 <= k < |modelWeights| ==> modelWeights[k] == 1.0
      ensures workingFrame == Mat(0, 0, []) && featureCache == []
    {
      modelWeights := seq(FeatureCount, _ => 1.0);
      workingFrame := Mat(0, 0, []);
      featureCache := [];
    }

    /** `analyzeFrame`: keep a copy of the frame, then return its features. */
    method AnalyzeFrame(frame: Mat, cv: Vision) returns (r: Result<seq<real>, CvError>)
      requires Valid()
      modifies this`workingFrame
      ensures Valid()
      ensures workingFrame == frame
      ensures r.Err? <==> IsEmpty(frame)
      ensures r.Err? ==> r.error == EmptyFrame
      ensures r.Ok? ==> r.value == FeatureVector(frame, cv)
    {
      workingFrame := frame;
      r := ExtractFeatures(workingFrame, cv);
    }

    /** `extractFeatures`: the six channel statistics, the edge density, then
      zero padding up to 128 entries. OpenCV rejects an empty frame. */
    method ExtractFeatures(frame: Mat, cv: Vision) returns (r: Result<seq<real>, CvError>)
      ensures r.Err? <==> IsEmpty(frame)
      ensures r.Err? ==> r.error == EmptyFrame
      ensures r.Ok? ==> r.value == FeatureVector(frame, cv)
      ensures r.Ok? ==> |r.value| == FeatureCount
    {
      var features: seq<real> := [];
      var (mean, stddev) := cv.meanStdDev(frame);
      for i := 0 to 3
        invariant |features| == 2 * i
        invariant forall c :: 0 <= c < i ==> features[2 * c] == mean[c] && features[2 * c + 1] == stddev[c]
      {
        features := features + [mean[i], stddev[i]];
      }
      if IsEmpty(frame) {
        return Err(EmptyFrame);
      }
      features := features + [EdgeDensity(frame, cv)];
      while |features| < FeatureCount
        invariant 7 <= |features| <= FeatureCount
        invariant features[0] == mean[0] && features[1] == stddev[0]
        invariant features[2] == mean[1] && features[3] == stddev[1]
        invariant features[4] == mean[2] && features[5] == stddev[2]
        invariant features[6] == EdgeDensity(frame, cv)
        invariant forall k :: 7 <= k < |features| ==> features[k] == 0.0
      {
        features := features + [0.0];
      }
      r := Ok(features);
    }

    /** `predictQuality`: the weighted sum of the features, clamped to [0, 1].
      It reads one weight per feature, so it needs as many weights as features. */
    method PredictQuality(features: seq<real>) returns (q: real)
      requires |features| <= |modelWeights|
      ensures q == ClampUnit(WeightedSum(features, modelWeights))
      ensures 0.0 <= q <= 1.0
    {
      var quality := 0.0;
      for i := 0 to |features|
        invariant quality == WeightedSum(features[..i], modelWeights)
      {
        assert features[..i + 1][..i] == features[..i];
        quality := quality + features[i] * modelWeights[i];
      }
      assert features[..|features|] == features;
      q := ClampUnit(quality);
    }

    /** `optimizeParameters`: analyse the frame, then visit the twelve grid
      points in order and keep the first that strictly improves on the best
      difference between predicted and target quality. `unset` stands for the
      uninitialised `CompressionParams` the search starts from. */
    method OptimizeParameters(frame: Mat, targetQuality: real, cv: Vision, unset: CompressionParams)
      returns (r: Result<CompressionParams, CvError>)
      requires Valid()
      modifies this`workingFrame
      ensures Valid()
      ensures workingFrame == frame
      ensures r.Err? <==> IsEmpty(frame)
      ensures r.Err? ==> r.error == EmptyFrame
      ensures r.Ok? ==>
        r.value == SearchFrom(SearchState(FloatMax, unset), Candidates(frame),
                              ClampUnit(WeightedSum(FeatureVector(frame, cv), modelWeights)), targetQuality).params
    {
      var analysed := AnalyzeFrame(frame, cv);
      if analysed.Err? {
        return Err(analysed.error);
      }
      var features := analysed.value;
      ghost var predicted := ClampUnit(WeightedSum(features, modelWeights));
      ghost var cs := Candidates(frame);
      ghost var init := SearchState(FloatMax, unset);
      var bestDiff := FloatMax;
      var params := unset;
      for b := 0 to 4
        invariant workingFrame == frame
        invariant SearchState(bestDiff, params) == SearchFrom(init, cs[..3 * b], predicted, targetQuality)
      {
        for s := 0 to 3
          invariant workingFrame == frame
          invariant SearchState(bestDiff, params) == SearchFrom(init, cs[..3 * b + s], predicted, targetQuality)
        {
          var width := Scaled(frame.cols, ScaleQuarters[s]);
          var height := Scaled(frame.rows, ScaleQuarters[s]);
          var predictedQuality := PredictQuality(features);
          var diff := Abs(predictedQuality - targetQuality);
          if diff < bestDiff {
            bestDiff := diff;
            params := CompressionParams(Bitrates[b], width, height, "medium", predictedQuality);
          }
          CandidateAt(frame, b, s);
          SearchStep(init, cs, 3 * b + s, predicted, targetQuality);
        }
      }
      assert cs[..12] == cs;
      r := Ok(params);
    }
  }
}
