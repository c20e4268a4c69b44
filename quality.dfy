/** `QualityAssessor` (quality_assessment.py): which frames of a video are
    sampled, which of them are kept, and how the per-frame scores become one
    score. The video decoder and the scoring network are parameters: `read`
    gives the outcome of seeking to a frame position and reading it (already
    converted to RGB), `net` the network's score for a frame. */
module Quality {
  import opened Common
  import opened Arith

  /** `_extract_frames`'s default number of samples. */
  const DefaultSampleCount: nat := 10

  // ---------------------------------------------------------------------------
  // Sample positions: np.linspace(0, total - 1, n, dtype=int)

  /** The i-th of n evenly spaced positions over frames 0 .. total - 1,
      truncated to a whole frame. A single sample is frame 0. */
  function SampleIndex(total: int, n: nat, i: nat): (idx: int)
    requires total >= 1 && i < n
    ensures 0 <= idx <= total - 1
    ensures i == 0 ==> idx == 0
    ensures n >= 2 && i == n - 1 ==> idx == total - 1
  {
    if n == 1 then 0
    else
      SpacedPositionInRange(total - 1, n - 1, i);
      i * (total - 1) / (n - 1)
  }

  lemma SpacedPositionInRange(last: nat, d: nat, i: nat)
    requires d > 0 && i <= d
    ensures 0 <= i * last / d <= last
    ensures i == d ==> i * last / d == last
  {
    MulMonotone(i, d, last);
    DivMonotone(i * last, d * last, d);
    MulDivCancel(last, d);
    assert d * last == last * d;
  }

  /** All n sample positions, in sampling order. */
  function SampleIndices(total: int, n: nat): (s: seq<int>)
    requires total >= 1
    ensures |s| == n
    ensures forall i :: 0 <= i < n ==> s[i] == SampleIndex(total, n, i)
  {
    seq(n, i requires 0 <= i < n => SampleIndex(total, n, i))
  }

  /** Later samples never come before earlier ones. */
  lemma SampleIndexMonotone(total: int, n: nat, i: nat, j: nat)
    requires total >= 1 && i <= j < n
    ensures SampleIndex(total, n, i) <= SampleIndex(total, n, j)
  {
    if n >= 2 {
      MulMonotone(i, j, total - 1);
      DivMonotone(i * (total - 1), j * (total - 1), n - 1);
    }
  }

  /** If every sample is strictly after the previous one, the k-th sample is at
      least frame k. */
  lemma {:induction false} StrictSamplesGrow(total: int, n: nat, k: nat)
    requires total >= 1 && k < n
    requires forall i :: 0 <= i < n - 1 ==> SampleIndex(total, n, i) < SampleIndex(total, n, i + 1)
    ensures SampleIndex(total, n, k) >= k
  {
    if k > 0 {
      StrictSamplesGrow(total, n, k - 1);
    }
  }

  /** With at least one frame per gap, consecutive spaced positions differ. */
  lemma SpacedPositionsStrict(last: nat, d: nat, i: nat)
    requires d > 0 && last >= d
    ensures i * last / d < (i + 1) * last / d
  {
    var a := i * last;
    assert (i + 1) * last == a + last;
    DivMonotone(a + d, a + last, d);
    DivAddDivisor(a, d);
  }

  /** Consecutive samples are distinct exactly when the video has at least as
      many frames as samples are taken; a shorter video repeats positions. */
  lemma {:induction false} SamplesDistinctIff(total: int, n: nat)
    requires total >= 1 && n >= 2
    ensures (forall i :: 0 <= i < n - 1 ==> SampleIndex(total, n, i) < SampleIndex(total, n, i + 1))
            <==> total >= n
  {
    if forall i :: 0 <= i < n - 1 ==> SampleIndex(total, n, i) < SampleIndex(total, n, i + 1) {
      StrictSamplesGrow(total, n, n - 1);
    }
    if total >= n {
      forall i | 0 <= i < n - 1
        ensures SampleIndex(total, n, i) < SampleIndex(total, n, i + 1)
      {
        SpacedPositionsStrict(total - 1, n - 1, i);
      }
    }
  }

  // ---------------------------------------------------------------------------
  // Frame extraction (`_extract_frames`)

  /** The frames a pass over `positions` keeps: for each position in order,
      the frame read there, and nothing where the read failed. */
  function Kept<F>(read: int -> Option<F>, positions: seq<int>): (frames: seq<F>)
    ensures |frames| <= |positions|
  {
    if |positions| == 0 then []
    else
      var last := read(positions[|positions| - 1]);
      Kept(read, positions[..|positions| - 1]) + (if last.Some? then [last.value] else [])
  }

  /** When every read succeeds, one frame is kept per position, in order. */
  lemma {:induction false} KeptAllWhenReadsSucceed<F>(read: int -> Option<F>, positions: seq<int>)
    requires forall i :: 0 <= i < |positions| ==> read(positions[i]).Some?
    ensures |Kept(read, positions)| == |positions|
    ensures forall i :: 0 <= i < |positions| ==> Kept(read, positions)[i] == read(positions[i]).value
  {
    if |positions| > 0 {
      KeptAllWhenReadsSucceed(read, positions[..|positions| - 1]);
    }
  }

  /** Nothing is kept exactly when every read fails. */
  lemma {:induction false} KeptEmptyIff<F>(read: int -> Option<F>, positions: seq<int>)
    ensures Kept(read, positions) == [] <==> forall i :: 0 <= i < |positions| ==> read(positions[i]).None?
  {
    if |positions| > 0 {
      var init := positions[..|positions| - 1];
      KeptEmptyIff(read, init);
      if Kept(read, positions) == [] {
        forall i | 0 <= i < |positions| ensures read(positions[i]).None? {
          if i < |positions| - 1 {
            assert positions[i] == init[i];
          }
        }
      }
      if forall i :: 0 <= i < |positions| ==> read(positions[i]).None? {
        forall i | 0 <= i < |init| ensures read(init[i]).None? {
          assert init[i] == positions[i];
        }
      }
    }
  }

  /** Every kept frame is what a read at one of the positions returned. */
  lemma {:induction false} KeptFramesWereRead<F>(read: int -> Option<F>, positions: seq<int>, k: nat)
    requires k < |Kept(read, positions)|
    ensures exists i :: 0 <= i < |positions| && read(positions[i]) == Some(Kept(read, positions)[k])
  {
    var init := positions[..|positions| - 1];
    var last := |positions| - 1;
    if k < |Kept(read, init)| {
      KeptFramesWereRead(read, init, k);
      var i :| 0 <= i < |init| && read(init[i]) == Some(Kept(read, init)[k]);
      assert positions[i] == init[i];
    } else {
      assert read(positions[last]) == Some(Kept(read, positions)[k]);
    }
  }

  /** Reading two runs of positions keeps the frames of the first run, then
      those of the second: each read's outcome is decided on its own. */
  lemma {:induction false} KeptAppend<F>(read: int -> Option<F>, p: seq<int>, q: seq<int>)
    ensures Kept(read, p + q) == Kept(read, p) + Kept(read, q)
    decreases |q|
  {
    if |q| == 0 {
      assert p + q == p;
    } else {
      var init := q[..|q| - 1];
      assert (p + q)[..|p + q| - 1] == p + init;
      KeptAppend(read, p, init);
    }
  }

  /** Every successful read is kept, right after the frames kept before its
      position. */
  lemma KeptSuccessfulRead<F>(read: int -> Option<F>, positions: seq<int>, i: nat)
    requires i < |positions| && read(positions[i]).Some?
    ensures |Kept(read, positions[..i])| < |Kept(read, positions)|
    ensures Kept(read, positions)[|Kept(read, positions[..i])|] == read(positions[i]).value
  {
    var before, rest := positions[..i], positions[i + 1..];
    assert positions == before + [positions[i]] + rest;
    KeptAppend(read, before + [positions[i]], rest);
    KeptAppend(read, before, [positions[i]]);
    assert Kept(read, [positions[i]]) == [read(positions[i]).value] by {
      assert [positions[i]][..0] == [];
    }
  }

  /** `_extract_frames`: read the frame at each sampled position and keep the
      ones that were read. */
  method ExtractFrames<F>(total: int, n: nat, read: int -> Option<F>) returns (frames: seq<F>)
    requires total >= 1
    ensures frames == Kept(read, SampleIndices(total, n))
  {
    var positions := SampleIndices(total, n);
    frames := [];
    for k := 0 to |positions|
      invariant frames == Kept(read, positions[..k])
    {
      assert positions[..k + 1][..k] == positions[..k];
      var frame := read(positions[k]);
      if frame.Some? {
        frames := frames + [frame.value];
      }
    }
    assert positions[..|positions|] == positions;
  }

  // ---------------------------------------------------------------------------
  // Scoring (`assess_quality`)

  /** A sigmoid output: the network's score for one frame. */
  type Score = r: real | 0.0 <= r <= 1.0

  /** `assess_quality`'s ValueError: "No frames could be extracted from the video". */
  datatype AssessError = NoFramesExtracted

  /** The per-frame scores, one per frame, in order. */
  function Scores<F>(net: F -> Score, frames: seq<F>): (s: seq<real>)
    ensures |s| == |frames|
    ensures forall i :: 0 <= i < |frames| ==> s[i] == net(frames[i]) as real
  {
    seq(|frames|, i requires 0 <= i < |frames| => net(frames[i]) as real)
  }

  /** `np.mean`. */
  function Mean(xs: seq<real>): real
    requires |xs| > 0
  {
    Sum(xs) / |xs| as real
  }

  lemma {:induction false} SumBounds(xs: seq<real>)
    requires forall i :: 0 <= i < |xs| ==> 0.0 <= xs[i] <= 1.0
    ensures 0.0 <= Sum(xs) <= |xs| as real
  {
    if |xs| > 0 {
      SumBounds(xs[..|xs| - 1]);
    }
  }

  /** The mean of scores in [0, 1] is in [0, 1]. */
  lemma MeanInUnitInterval(xs: seq<real>)
    requires |xs| > 0
    requires forall i :: 0 <= i < |xs| ==> 0.0 <= xs[i] <= 1.0
    ensures 0.0 <= Mean(xs) <= 1.0
  {
    SumBounds(xs);
  }

  lemma {:induction false} SumOfConstant(xs: seq<real>, c: real)
    requires forall i :: 0 <= i < |xs| ==> xs[i] == c
    ensures Sum(xs) == |xs| as real * c
  {
    if |xs| > 0 {
      SumOfConstant(xs[..|xs| - 1], c);
    }
  }

  /** The mean is an average: frames that all score the same give that score. */
  lemma MeanOfEqualScores(xs: seq<real>, c: real)
    requires |xs| > 0
    requires forall i :: 0 <= i < |xs| ==> xs[i] == c
    ensures Mean(xs) == c
  {
    SumOfConstant(xs, c);
  }

  /** `assess_quality`: sample the default number of frames; with none kept,
      fail before the network runs; otherwise score every kept frame once and
      return the mean. `evaluations` counts the network's invocations. */
  method AssessQuality<F>(total: int, read: int -> Option<F>, net: F -> Score)
    returns (r: Result<real, AssessError>, evaluations: nat)
    requires total >= 1
    ensures r.Err? <==> Kept(read, SampleIndices(total, DefaultSampleCount)) == []
    ensures r.Err? ==> r.error == NoFramesExtracted && evaluations == 0
    ensures r.Ok? ==>
      var frames := Kept(read, SampleIndices(total, DefaultSampleCount));
      evaluations == |frames| && r.value == Mean(Scores(net, frames))
    ensures r.Ok? ==> 0.0 <= r.value <= 1.0
  {
    var frames := ExtractFrames(total, DefaultSampleCount, read);
    if frames == [] {
      return Err(NoFramesExtracted), 0;
    }
    var scores: seq<real> := [];
    evaluations := 0;
    for k := 0 to |frames|
      invariant scores == Scores(net, frames[..k])
      invariant evaluations == k
    {
      var score := net(frames[k]);
      scores := scores + [score as real];
      evaluations := evaluations + 1;
    }
    assert frames[..|frames|] == frames;
    MeanInUnitInterval(scores);
    r := Ok(Mean(scores));
  }
}
