/** `VideoCompressor` (compression.py): how the encode parameters are derived
    from the source video and the caller's settings, how the output file is
    named, and in which order `compress_video` probes, launches the encoder,
    assesses quality and fails. The filesystem, the probe, the encoder process
    and the quality assessor are parameters holding their outcomes. */
module Compression {
  import opened Common
  import opened Arith
  import Quality

  /** Frame size in pixels, as probed from the source or sent to the encoder. */
  datatype Dimensions = Dimensions(width: nat, height: nat)

  /** A path as pathlib splits it: the parent directory and the final component. */
  datatype FilePath = FilePath(parent: seq<string>, name: string)

  /** The exceptions `compress_video` lets escape. */
  datatype CompressError =
    | FileNotFound(path: FilePath)   // FileNotFoundError, raised before anything else
    | ProbeFailed(stderr: string)    // ffmpeg.Error from probing, outside the try block
    | NoVideoStream                  // StopIteration: the probe lists no video stream
    | ZeroDivision                   // width / height with a probed height of 0
    | Runtime(message: string)       // RuntimeError raised by the try block's handlers

  // ---------------------------------------------------------------------------
  // Output resolution (`_get_output_resolution`)

  /** Output heights of the known resolution tags. */
  const HeightTable: map<string, nat> := map["1080p" := 1080, "720p" := 720, "480p" := 480]

  /** The output size for a source of `width` x `height` pixels and a resolution
      tag: "original" and every tag outside the table keep the source size; a
      known tag takes its height from the table and the width that keeps the
      aspect ratio, truncated to a whole pixel. */
  function OutputResolution(width: nat, height: nat, target: string): (r: Result<Dimensions, CompressError>)
    ensures r.Err? <==> target in HeightTable && height == 0
    ensures r.Err? ==> r.error == ZeroDivision
    ensures target !in HeightTable ==> r == Ok(Dimensions(width, height))
    ensures r.Ok? && target in HeightTable ==>
      r.value.height == HeightTable[target] &&
      r.value.width * height <= HeightTable[target] * width < (r.value.width + 1) * height
  {
    if target == "original" then Ok(Dimensions(width, height))
    else if target !in HeightTable then Ok(Dimensions(width, height))
    else if height == 0 then Err(ZeroDivision)
    else
      var targetHeight := HeightTable[target];
      FloorDivBounds(targetHeight * width, height);
      Ok(Dimensions(targetHeight * width / height, targetHeight))
  }

  /** The aspect-ratio bracket of `OutputResolution` admits exactly one width,
      so the truncated width is the only one within a pixel of the source ratio. */
  lemma {:induction false} AspectWidthIsUnique(width: nat, height: nat, targetHeight: nat, w: int)
    requires height > 0
    requires w * height <= targetHeight * width < (w + 1) * height
    ensures w == targetHeight * width / height
  {
    var q := targetHeight * width / height;
    FloorDivBounds(targetHeight * width, height);
    if w < q {
      MulMonotone(w + 1, q, height);
      assert false;
    } else if w > q {
      MulMonotone(q + 1, w, height);
      assert false;
    }
  }

  /** Worked sizes: 1080p to 720p, 720p to 480p, the capitalised tag the form
      sends, and a source whose scaled width truncates where rounding would not. */
  lemma ResolutionExamples()
    ensures OutputResolution(1920, 1080, "720p") == Ok(Dimensions(1280, 720))
    ensures OutputResolution(1280, 720, "480p") == Ok(Dimensions(853, 480))
    ensures OutputResolution(1920, 1080, "Original") == Ok(Dimensions(1920, 1080))
    ensures OutputResolution(1366, 768, "720p") == Ok(Dimensions(1280, 720))
  {
  }

  // ---------------------------------------------------------------------------
  // Encoder presets (`preset_settings` and the selection in `compress_video`)

  /** A constant rate factor and an x264 speed preset. */
  datatype EncoderSettings = EncoderSettings(crf: int, speed: string)

  const PresetTable: map<string, EncoderSettings> := map[
    "low" := EncoderSettings(28, "veryfast"),
    "medium" := EncoderSettings(23, "medium"),
    "high" := EncoderSettings(18, "slow")]

  /** The settings used for a preset name the table does not know ("custom"). */
  const FallbackSettings: EncoderSettings := EncoderSettings(23, "medium")

  /** The encoder settings for a preset name; unknown names silently get the
      same settings as "medium". */
  function SelectPreset(preset: string): (s: EncoderSettings)
    ensures preset in PresetTable ==> s == PresetTable[preset]
    ensures preset !in PresetTable ==> s == PresetTable["medium"]
  {
    if preset in PresetTable then PresetTable[preset] else FallbackSettings
  }

  /** A higher preset never encodes at a higher rate factor: CRF falls strictly
      from low to medium to high, and the speed preset slows down with it. */
  lemma PresetOrdering()
    ensures SelectPreset("low") == EncoderSettings(28, "veryfast")
    ensures SelectPreset("medium") == EncoderSettings(23, "medium")
    ensures SelectPreset("high") == EncoderSettings(18, "slow")
    ensures SelectPreset("low").crf > SelectPreset("medium").crf > SelectPreset("high").crf
  {
  }

  /** Every preset name outside the table, the form's "custom" among them,
      encodes exactly as "medium" does. */
  lemma UnknownPresetIsMedium(preset: string)
    requires preset != "low" && preset != "medium" && preset != "high"
    ensures SelectPreset(preset) == SelectPreset("medium")
    ensures SelectPreset("custom") == SelectPreset("medium")
  {
  }

  // ---------------------------------------------------------------------------
  // Output file name

  /** `str.rfind('.')`: the index of the last dot, or -1 when there is none. */
  function LastDot(s: string): (i: int)
    ensures -1 <= i < |s|
    ensures 0 <= i ==> s[i] == '.'
    ensures forall k :: i < k < |s| ==> s[k] != '.'
  {
    if |s| == 0 then -1
    else if s[|s| - 1] == '.' then |s| - 1
    else LastDot(s[..|s| - 1])
  }

  /** pathlib's `suffix`: from the last dot on, unless that dot leads or ends the name. */
  function Suffix(name: string): string
  {
    var i := LastDot(name);
    if 0 < i < |name| - 1 then name[i..] else ""
  }

  /** pathlib's `stem`: the name without its suffix. */
  function Stem(name: string): string
  {
    var i := LastDot(name);
    if 0 < i < |name| - 1 then name[..i] else name
  }

  const CompressedMarker: string := "_compressed"

  /** The path `compress_video` writes to: same directory, the stem followed by
      "_compressed" and the original suffix. It never names the input file. */
  function CompressedPath(input: FilePath): (output: FilePath)
    ensures output.parent == input.parent
    ensures |output.name| == |input.name| + |CompressedMarker|
    ensures output.name != input.name
  {
    assert Stem(input.name) + Suffix(input.name) == input.name;
    FilePath(input.parent, Stem(input.name) + CompressedMarker + Suffix(input.name))
  }

  /** A dot with no dot after it is the last one. */
  lemma LastDotAt(s: string, j: int)
    requires 0 <= j < |s| && s[j] == '.'
    requires forall k :: j < k < |s| ==> s[k] != '.'
    ensures LastDot(s) == j
  {
  }

  /** For an input with an extension, the output keeps that extension and its
      stem is the input's stem with "_compressed" appended. */
  lemma {:induction false} CompressedPathKeepsSuffix(input: FilePath)
    requires Suffix(input.name) != ""
    ensures Suffix(CompressedPath(input).name) == Suffix(input.name)
    ensures Stem(CompressedPath(input).name) == Stem(input.name) + CompressedMarker
  {
    var name := input.name;
    var i := LastDot(name);
    var out := CompressedPath(input).name;
    var j := i + |CompressedMarker|;
    assert out == name[..i] + CompressedMarker + name[i..];
    assert out[j..] == name[i..];
    forall k | j < k < |out| ensures out[k] != '.' {
      assert out[k] == name[k - |CompressedMarker|];
    }
    LastDotAt(out, j);
    assert out[..j] == name[..i] + CompressedMarker;
  }

  /** A name ending in a dot has no suffix, so "_compressed" lands after the dot
      and the output name acquires one. */
  lemma TrailingDotGainsSuffix()
    ensures Suffix("clip.") == ""
    ensures CompressedPath(FilePath([], "clip.")).name == "clip._compressed"
    ensures Suffix("clip._compressed") == "._compressed"
  {
    LastDotAt("clip.", 4);
    assert Stem("clip.") == "clip.";
    LastDotAt("clip._compressed", 4);
  }

  // ---------------------------------------------------------------------------
  // compress_video

  /** The caller's settings: preset name, bitrate in Mbit/s, resolution tag. */
  datatype Settings = Settings(preset: string, bitrateMbps: real, resolution: string)

  /** What probing the input yields. */
  datatype ProbeOutcome = Probed(size: Dimensions) | ProbeError(stderr: string) | NoVideo

  /** What starting the encoder yields. */
  datatype LaunchOutcome =
    | Started(pollsBeforeExit: nat)   // the process runs; poll() reports it alive this many times
    | FfmpegFailure(stderr: string)   // ffmpeg.Error
    | OtherFailure(message: string)   // any other exception, as str(e)

  /** The encoder invocation `compress_video` builds. */
  datatype EncodeJob = EncodeJob(
    input: FilePath, output: FilePath, videoCodec: string, audioCodec: string,
    bitrateMbps: real, size: Dimensions, crf: int, speed: string)

  /** The externally visible steps of a run, in order. */
  datatype Event = Probe(path: FilePath) | Launch(job: EncodeJob) | Progress(percent: int) | Assess(path: FilePath)

  datatype CompressionResult = CompressionResult(outputPath: FilePath, qualityScore: real, compressionRatio: real)

  function Repeat<T>(x: T, n: nat): (s: seq<T>)
    ensures |s| == n && forall k :: 0 <= k < n ==> s[k] == x
  {
    seq(n, _ => x)
  }

  predicate StartsWith(s: string, prefix: string)
  {
    |prefix| <= |s| && s[..|prefix|] == prefix
  }

  /** The job built for a probed source, when its resolution can be computed. */
  function JobFor(input: FilePath, source: Dimensions, settings: Settings): Result<EncodeJob, CompressError>
  {
    var size := OutputResolution(source.width, source.height, settings.resolution);
    if size.Err? then Err(size.error)
    else
      var encoder := SelectPreset(settings.preset);
      Ok(EncodeJob(input, CompressedPath(input), "libx264", "aac", settings.bitrateMbps,
                   size.value, encoder.crf, encoder.speed))
  }

  /** The input exists, its probe found a video stream, and the output size
      can be computed: exactly the runs that reach the encoder. */
  predicate Launches(input: FilePath, inputExists: bool, probe: ProbeOutcome, settings: Settings)
  {
    inputExists && probe.Probed? && JobFor(input, probe.size, settings).Ok?
  }

  /** One run of `compress_video`. The parameters after `settings` are what the
      environment answers: whether the input exists, the probe, whether a
      progress callback was given, the encoder launch, the quality assessor's
      score or error message, and the two file sizes (or the error message of
      reading them). */
  method CompressVideo(input: FilePath, inputExists: bool, probe: ProbeOutcome, settings: Settings,
                       reportProgress: bool, launch: LaunchOutcome, quality: Result<Quality.Score, string>,
                       outputSize: Result<nat, string>, inputSize: Result<nat, string>)
    returns (r: Result<CompressionResult, CompressError>, events: seq<Event>)
    // a missing input fails first, unwrapped, before anything is probed or run
    ensures r == Err(FileNotFound(input)) <==> !inputExists
    ensures !inputExists ==> events == []
    // probing failures escape unwrapped, and nothing is launched
    ensures inputExists && probe.ProbeError? ==> r == Err(ProbeFailed(probe.stderr)) && events == [Probe(input)]
    ensures inputExists && probe.NoVideo? ==> r == Err(NoVideoStream) && events == [Probe(input)]
    ensures inputExists && probe.Probed? && JobFor(input, probe.size, settings).Err? ==>
      r == Err(ZeroDivision) && events == [Probe(input)]
    // every other run launches the job derived from the probed size and the settings
    ensures |events| >= 2 <==> Launches(input, inputExists, probe, settings)
    ensures Launches(input, inputExists, probe, settings) ==>
      events[..2] == [Probe(input), Launch(JobFor(input, probe.size, settings).value)]
    // failures inside the try block are re-raised as RuntimeError with one of two prefixes
    ensures r.Err? && r.error.Runtime? ==>
      Launches(input, inputExists, probe, settings) &&
      (StartsWith(r.error.message, "FFmpeg error: ") || StartsWith(r.error.message, "Compression error: "))
    ensures Launches(input, inputExists, probe, settings) && launch.FfmpegFailure? ==>
      r == Err(Runtime("FFmpeg error: " + launch.stderr))
    ensures Launches(input, inputExists, probe, settings) && launch.OtherFailure? ==>
      r == Err(Runtime("Compression error: " + launch.message))
    ensures Launches(input, inputExists, probe, settings) && !launch.Started? ==> |events| == 2
    // after a start: the progress reports while the encoder runs, then the assessment of the output
    ensures Launches(input, inputExists, probe, settings) && launch.Started? ==>
      events == events[..2]
        + (if reportProgress then Repeat(Progress(50), launch.pollsBeforeExit) else [])
        + [Assess(CompressedPath(input))]
        + (if reportProgress && quality.Ok? then [Progress(100)] else [])
    ensures Launches(input, inputExists, probe, settings) && launch.Started? && quality.Err? ==>
      r == Err(Runtime("Compression error: " + quality.error))
    // the ratio reads the output's size first, then the input's, then divides
    ensures Launches(input, inputExists, probe, settings) && launch.Started? && quality.Ok? && outputSize.Err? ==>
      r == Err(Runtime("Compression error: " + outputSize.error))
    ensures Launches(input, inputExists, probe, settings) && launch.Started? && quality.Ok? && outputSize.Ok? &&
            inputSize.Err? ==>
      r == Err(Runtime("Compression error: " + inputSize.error))
    ensures Launches(input, inputExists, probe, settings) && launch.Started? && quality.Ok? && outputSize.Ok? &&
            inputSize.Ok? && inputSize.value == 0 ==>
      r == Err(Runtime("Compression error: division by zero"))
    // success: the output path, the assessed score and the ratio of the file sizes
    ensures r.Ok? <==>
      Launches(input, inputExists, probe, settings) && launch.Started? && quality.Ok? &&
      outputSize.Ok? && inputSize.Ok? && inputSize.value > 0
    ensures r.Ok? ==>
      r.value == CompressionResult(CompressedPath(input), quality.value as real,
                                   outputSize.value as real / inputSize.value as real)
    ensures r.Ok? ==> 0.0 <= r.value.qualityScore <= 1.0
  {
    events := [];
    if !inputExists {
      return Err(FileNotFound(input)), events;
    }
    events := [Probe(input)];
    if probe.ProbeError? {
      return Err(ProbeFailed(probe.stderr)), events;
    } else if probe.NoVideo? {
      return Err(NoVideoStream), events;
    }
    var output := CompressedPath(input);
    var size := OutputResolution(probe.size.width, probe.size.height, settings.resolution);
    if size.Err? {
      return Err(size.error), events;
    }
    var encoder := SelectPreset(settings.preset);
    var job := EncodeJob(input, output, "libx264", "aac", settings.bitrateMbps, size.value, encoder.crf, encoder.speed);
    events := events + [Launch(job)];
    if launch.FfmpegFailure? {
      return Err(Runtime("FFmpeg error: " + launch.stderr)), events;
    } else if launch.OtherFailure? {
      return Err(Runtime("Compression error: " + launch.message)), events;
    }
    ghost var launched := events;
    if reportProgress {
      var polls := 0;
      while true
        invariant polls <= launch.pollsBeforeExit
        invariant events == launched + Repeat(Progress(50), polls)
        decreases launch.pollsBeforeExit - polls
      {
        if polls == launch.pollsBeforeExit {
          break;
        }
        events := events + [Progress(50)];
        polls := polls + 1;
      }
    }
    events := events + [Assess(output)];
    if quality.Err? {
      return Err(Runtime("Compression error: " + quality.error)), events;
    }
    if reportProgress {
      events := events + [Progress(100)];
    }
    if outputSize.Err? {
      return Err(Runtime("Compression error: " + outputSize.error)), events;
    } else if inputSize.Err? {
      return Err(Runtime("Compression error: " + inputSize.error)), events;
    } else if inputSize.value == 0 {
      return Err(Runtime("Compression error: division by zero")), events;
    }
    r := Ok(CompressionResult(output, quality.value as real, outputSize.value as real / inputSize.value as real));
  }
}
