/** src/video/video.service1.ts: conversion of a video file into an HLS
    rendition (playlist plus segments), with a fixed profile or a quality
    tier, and the combined download-then-convert job behind /video/direct. */
module HlsService {
  import opened Wrappers
  import opened Env
  import opened NodePath
  import Radix

  const TmpDir := "tmp"
  const DefaultOutputDir := Join("tmp", "hls")
  const PlaylistName := "playlist.m3u8"
  const SegmentName := "segment%d.ts"

  // ---------------------------------------------------------------- layout

  /** Where one rendition goes: its directory, its playlist and the pattern
      ffmpeg numbers its segments by. */
  datatype HlsLayout = HlsLayout(dir: string, playlist: string, segments: string)

  /** The layout of the rendition keyed by id under outputDir. */
  function LayoutOf(outputDir: string, id: string): HlsLayout
  {
    var dir := Join(outputDir, id);
    HlsLayout(dir, Join(dir, PlaylistName), Join(dir, SegmentName))
  }

  /** convertToHLS and convertToHLSWithTranscode key the rendition by the
      input's file name without its extension. */
  function ConvertLayout(outputDir: string, inputPath: string): (l: HlsLayout)
    ensures l == LayoutOf(outputDir, Stem(inputPath))
    ensures l.playlist == outputDir + "/" + Stem(inputPath) + "/" + PlaylistName
    ensures l.segments == outputDir + "/" + Stem(inputPath) + "/" + SegmentName
  {
    LayoutOf(outputDir, Stem(inputPath))
  }

  /** Converting <dir>/<id>.mp4 writes below <outputDir>/<id>. */
  lemma ConvertLayoutOfMp4(outputDir: string, dir: string, id: string)
    requires id != "" && Lacks(id, '/')
    ensures ConvertLayout(outputDir, Join(dir, id + ".mp4")) == LayoutOf(outputDir, id)
  {
    assert id + ".mp4" == id + "." + "mp4";
    assert Lacks("mp4", '.') && Lacks("mp4", '/');
    StemOfJoin(dir, id, "mp4");
  }

  /** Renditions of distinct separator-free ids share no path: not the
      directory, not the playlist, not a segment. */
  lemma LayoutsDisjoint(outputDir: string, a: string, b: string)
    requires a != b && Lacks(a, '/') && Lacks(b, '/')
    ensures LayoutOf(outputDir, a).dir != LayoutOf(outputDir, b).dir
    ensures LayoutOf(outputDir, a).playlist != LayoutOf(outputDir, b).playlist
    ensures LayoutOf(outputDir, a).segments != LayoutOf(outputDir, b).segments
    ensures LayoutOf(outputDir, a).playlist != LayoutOf(outputDir, b).segments
  {
    var n := |outputDir| + 1;
    var la, lb := LayoutOf(outputDir, a), LayoutOf(outputDir, b);
    if |a| == |b| {
      var k :| 0 <= k < |a| && a[k] != b[k];
      assert la.dir[n + k] == a[k] && lb.dir[n + k] == b[k];
    } else {
      assert |la.dir| != |lb.dir|;
    }
    DistinctDirsDisjoint(outputDir, a, b, PlaylistName, PlaylistName);
    DistinctDirsDisjoint(outputDir, a, b, SegmentName, SegmentName);
    DistinctDirsDisjoint(outputDir, a, b, PlaylistName, SegmentName);
  }

  // ---------------------------------------------------------------- quality tiers

  datatype Quality = High | Medium | Low

  /** Bitrates and output size of a tier, as the strings fluent-ffmpeg gets. */
  datatype TierSettings = TierSettings(videoBitrate: string, audioBitrate: string, scale: string)

  /** The quality argument's default: medium. */
  function QualityOrDefault(q: Option<Quality>): (r: Quality)
    ensures q.None? ==> r == Medium
    ensures q.Some? ==> r == q.value
  {
    if q.Some? then q.value else Medium
  }

  /** The qualitySettings table. */
  function QualitySettings(q: Quality): (t: TierSettings)
    ensures q == High ==> t == TierSettings("5000k", "192k", "1920:1080")
    ensures q == Medium ==> t == TierSettings("2500k", "128k", "1280:720")
    ensures q == Low ==> t == TierSettings("1000k", "96k", "854:480")
  {
    match q
    case High => TierSettings("5000k", "192k", "1920:1080")
    case Medium => TierSettings("2500k", "128k", "1280:720")
    case Low => TierSettings("1000k", "96k", "854:480")
  }

  /** The number of kilobits per second in a bitrate such as "2500k". */
  function Kbps(rate: string): Option<nat>
  {
    if |rate| >= 1 && rate[|rate| - 1] == 'k' then Radix.Numeral(rate[..|rate| - 1]) else None
  }

  /** Width and height in a size such as "1280:720". */
  function Dimensions(scale: string): Option<(nat, nat)>
  {
    var i := LastIndexOf(scale, ':');
    if i < 0 then None
    else
      match (Radix.Numeral(scale[..i]), Radix.Numeral(scale[i + 1..]))
      case (Some(w), Some(h)) => Some((w, h))
      case _ => None
  }

  lemma KbpsOfRendered(n: nat)
    ensures Kbps(Radix.Decimal(n) + "k") == Some(n)
  {
    var r := Radix.Decimal(n) + "k";
    assert r[..|r| - 1] == Radix.Decimal(n);
    Radix.NumeralOfDecimal(n);
  }

  lemma DimensionsOfRendered(w: nat, h: nat)
    ensures Dimensions(Radix.Decimal(w) + ":" + Radix.Decimal(h)) == Some((w, h))
  {
    var dw, dh := Radix.Decimal(w), Radix.Decimal(h);
    var scale := dw + ":" + dh;
    assert Lacks(dh, ':') by {
      forall k | 0 <= k < |dh| ensures dh[k] != ':' {
        assert Radix.IsDigit(dh[k], 10);
      }
    }
    LastIndexAfter(dw, ':', dh);
    assert scale[..|dw|] == dw && scale[|dw| + 1..] == dh;
    Radix.NumeralOfDecimal(w);
    Radix.NumeralOfDecimal(h);
  }

  predicate Exceeds(x: Option<nat>, y: Option<nat>)
  {
    x.Some? && y.Some? && x.value > y.value
  }

  predicate LargerFrame(x: Option<(nat, nat)>, y: Option<(nat, nat)>)
  {
    x.Some? && y.Some? && x.value.0 > y.value.0 && x.value.1 > y.value.1
  }

  /** A 16:9 frame, to within one pixel of width. */
  predicate Widescreen(x: Option<(nat, nat)>)
  {
    x.Some? && -9 < x.value.0 * 9 - x.value.1 * 16 < 9
  }

  function Rank(q: Quality): nat
  {
    match q
    case High => 2
    case Medium => 1
    case Low => 0
  }

  /** A tier whose strings read back as the given bitrates and frame size. */
  predicate HasFigures(t: TierSettings, video: nat, audio: nat, width: nat, height: nat)
  {
    Kbps(t.videoBitrate) == Some(video) && Kbps(t.audioBitrate) == Some(audio) &&
    Dimensions(t.scale) == Some((width, height))
  }

  lemma RenderedTierHasFigures(video: nat, audio: nat, width: nat, height: nat)
    ensures HasFigures(
              TierSettings(Radix.Decimal(video) + "k", Radix.Decimal(audio) + "k",
                           Radix.Decimal(width) + ":" + Radix.Decimal(height)),
              video, audio, width, height)
  {
    KbpsOfRendered(video);
    KbpsOfRendered(audio);
    DimensionsOfRendered(width, height);
  }

  /** The tier's figures, read back from the strings of the table. */
  lemma TierFigures(q: Quality)
    ensures q == High ==> HasFigures(QualitySettings(q), 5000, 192, 1920, 1080)
    ensures q == Medium ==> HasFigures(QualitySettings(q), 2500, 128, 1280, 720)
    ensures q == Low ==> HasFigures(QualitySettings(q), 1000, 96, 854, 480)
  {
    match q
    case High => HighFigures();
    case Medium => MediumFigures();
    case Low => LowFigures();
  }

  lemma HighFigures()
    ensures HasFigures(QualitySettings(High), 5000, 192, 1920, 1080)
  {
    assert Radix.Decimal(5000) == "5000";
    assert Radix.Decimal(192) == "192";
    assert Radix.Decimal(1920) == "1920";
    assert Radix.Decimal(1080) == "1080";
    assert QualitySettings(High) == TierSettings(Radix.Decimal(5000) + "k", Radix.Decimal(192) + "k",
                                             Radix.Decimal(1920) + ":" + Radix.Decimal(1080));
    RenderedTierHasFigures(5000, 192, 1920, 1080);
  }

  lemma MediumFigures()
    ensures HasFigures(QualitySettings(Medium), 2500, 128, 1280, 720)
  {
    assert Radix.Decimal(2500) == "2500";
    assert Radix.Decimal(128) == "128";
    assert Radix.Decimal(1280) == "1280";
    assert Radix.Decimal(720) == "720";
    assert QualitySettings(Medium) == TierSettings(Radix.Decimal(2500) + "k", Radix.Decimal(128) + "k",
                                             Radix.Decimal(1280) + ":" + Radix.Decimal(720));
    RenderedTierHasFigures(2500, 128, 1280, 720);
  }

  lemma LowFigures()
    ensures HasFigures(QualitySettings(Low), 1000, 96, 854, 480)
  {
    assert Radix.Decimal(1000) == "1000";
    assert Radix.Decimal(96) == "96";
    assert Radix.Decimal(854) == "854";
    assert Radix.Decimal(480) == "480";
    assert QualitySettings(Low) == TierSettings(Radix.Decimal(1000) + "k", Radix.Decimal(96) + "k",
                                             Radix.Decimal(854) + ":" + Radix.Decimal(480));
    RenderedTierHasFigures(1000, 96, 854, 480);
  }

  /** A higher tier has a higher video bitrate, a higher audio bitrate and a
      larger frame; every tier's frame is 16:9. */
  lemma TiersOrdered(p: Quality, q: Quality)
    requires Rank(p) > Rank(q)
    ensures Exceeds(Kbps(QualitySettings(p).videoBitrate), Kbps(QualitySettings(q).videoBitrate))
    ensures Exceeds(Kbps(QualitySettings(p).audioBitrate), Kbps(QualitySettings(q).audioBitrate))
    ensures LargerFrame(Dimensions(QualitySettings(p).scale), Dimensions(QualitySettings(q).scale))
    ensures Widescreen(Dimensions(QualitySettings(p).scale)) && Widescreen(Dimensions(QualitySettings(q).scale))
  {
    TierFigures(p);
    TierFigures(q);
  }

  // ---------------------------------------------------------------- converters

  /** The outputOptions of convertToHLS: a fast H.264 preset at a fixed
      quality factor, VOD segmenting, segments named in the rendition's
      directory. */
  function HlsOutputOptions(l: HlsLayout): seq<string>
  {
    [ "-preset", "veryfast", "-crf", "23",
      "-start_number", "0", "-hls_time", "10", "-hls_list_size", "0",
      "-hls_segment_filename", l.segments,
      "-f", "hls" ]
  }

  /** The outputOptions of convertToHLSWithTranscode; it never names the
      segments, so ffmpeg's default naming applies. */
  const TranscodeOutputOptions: seq<string> :=
    [ "-start_number", "0", "-hls_time", "10", "-hls_list_size", "0",
      "-f", "hls", "-preset", "fast" ]

  function HlsJob(inputPath: string, l: HlsLayout): EncoderJob
  {
    EncoderJob(inputPath, "libx264", "aac", None, None, None, HlsOutputOptions(l), l.playlist)
  }

  function TranscodeJob(inputPath: string, l: HlsLayout, q: Quality): EncoderJob
  {
    var t := QualitySettings(q);
    EncoderJob(inputPath, "libx264", "aac", Some(t.videoBitrate), Some(t.audioBitrate), Some(t.scale),
               TranscodeOutputOptions, l.playlist)
  }

  /** VOD segmenting as ffmpeg reads it: numbering from 0, ten-second
      segments, a playlist that keeps every segment. */
  predicate VodSegmenting(options: seq<string>)
  {
    && OptionValue(options, "-start_number") == Some("0")
    && OptionValue(options, "-hls_time") == Some("10")
    && OptionValue(options, "-hls_list_size") == Some("0")
  }

  /** convertToHLS segments for VOD and writes its segments as segment%d.ts
      beside the playlist. */
  lemma HlsJobSegmenting(inputPath: string, l: HlsLayout)
    ensures VodSegmenting(HlsJob(inputPath, l).outputOptions)
    ensures OptionValue(HlsJob(inputPath, l).outputOptions, "-hls_segment_filename") == Some(l.segments)
    ensures OptionValue(HlsJob(inputPath, l).outputOptions, "-f") == Some("hls")
  {
    var o := HlsOutputOptions(l);
    SkipTo(o, "-start_number", 4);
    SkipTo(o, "-hls_time", 6);
    SkipTo(o, "-hls_list_size", 8);
    SkipTo(o, "-hls_segment_filename", 10);
    SkipTo(o, "-f", 12);
  }

  /** convertToHLSWithTranscode segments alike, but leaves segment naming to
      ffmpeg. */
  lemma TranscodeJobSegmenting(inputPath: string, l: HlsLayout, q: Quality)
    ensures VodSegmenting(TranscodeJob(inputPath, l, q).outputOptions)
    ensures OptionValue(TranscodeJob(inputPath, l, q).outputOptions, "-f") == Some("hls")
    ensures OptionValue(TranscodeJob(inputPath, l, q).outputOptions, "-hls_segment_filename") == None
  {
    var t := TranscodeOutputOptions;
    SkipTo(t, "-hls_time", 2);
    SkipTo(t, "-hls_list_size", 4);
    SkipTo(t, "-f", 6);
    SkipTo(t, "-hls_segment_filename", 10);
  }

  /** What a fluent-ffmpeg conversion does to the world: makes the output
      root and the rendition's directory, runs the encoder job, and settles
      on the encoder's 'end' or 'error'. */
  function ConvertRun(s: WorldState, outputDir: string, l: HlsLayout, job: EncoderJob, outcome: EncodeOutcome): (run: Run<string>)
    requires job.output == l.playlist
    ensures |run.state.trace| == |s.trace| + 3
    ensures Appended(s, run.state) == [MakeDir(outputDir), MakeDir(l.dir), Encode(job)]
    ensures run.result.Ok? <==> outcome.failure.None?
    ensures run.result.Ok? ==> run.result.value == l.playlist
    ensures outcome.failure.Some? ==> run.result == Err(outcome.failure.value)
    ensures run.state.files == s.files + outcome.creates
    ensures run.state.dirs == s.dirs + Ancestry(outputDir) + Ancestry(l.dir)
  {
    var s' := s.AfterMakeDir(outputDir).AfterMakeDir(l.dir).AfterEncode(job, outcome.creates);
    match outcome.failure
    case None => Run(s', Ok(l.playlist))
    case Some(m) => Run(s', Err(m))
  }

  method RunConversion(w: World, outputDir: string, l: HlsLayout, job: EncoderJob, outcome: EncodeOutcome)
    returns (r: Result<string>)
    requires job.output == l.playlist
    modifies w
    ensures Run(w.State(), r) == ConvertRun(old(w.State()), outputDir, l, job, outcome)
  {
    w.MakeDir(outputDir);
    w.MakeDir(l.dir);
    w.Encode(job, outcome.creates);
    match outcome.failure
    case None => r := Ok(l.playlist);
    case Some(m) => r := Err(m);
  }

  /** convertToHLS(inputPath, outputDir). */
  method ConvertToHls(w: World, inputPath: string, outputDir: string, outcome: EncodeOutcome)
    returns (r: Result<string>)
    modifies w
    ensures var l := ConvertLayout(outputDir, inputPath);
            Run(w.State(), r) == ConvertRun(old(w.State()), outputDir, l, HlsJob(inputPath, l), outcome)
  {
    var l := ConvertLayout(outputDir, inputPath);
    r := RunConversion(w, outputDir, l, HlsJob(inputPath, l), outcome);
  }

  /** convertToHLSWithTranscode(inputPath, outputDir, quality); an absent
      quality means medium. */
  method ConvertToHlsWithTranscode(w: World, inputPath: string, outputDir: string, quality: Option<Quality>,
                                   outcome: EncodeOutcome)
    returns (r: Result<string>)
    modifies w
    ensures var l := ConvertLayout(outputDir, inputPath);
            Run(w.State(), r) == ConvertRun(old(w.State()), outputDir, l,
                                            TranscodeJob(inputPath, l, QualityOrDefault(quality)), outcome)
  {
    var l := ConvertLayout(outputDir, inputPath);
    r := RunConversion(w, outputDir, l, TranscodeJob(inputPath, l, QualityOrDefault(quality)), outcome);
  }

  // ---------------------------------------------------------------- download and convert

  /** The paths of a download-and-convert job. */
  datatype DirectPaths = DirectPaths(outputDir: string, playlist: string, segments: string, temp: string)

  function DirectLayout(hlsDir: string, videoId: string): (p: DirectPaths)
    ensures p.playlist == hlsDir + "/" + videoId + "/" + PlaylistName
    ensures p.segments == hlsDir + "/" + videoId + "/" + SegmentName
    ensures p.temp == TmpDir + "/" + videoId + "_temp.mp4"
  {
    var l := LayoutOf(hlsDir, videoId);
    DirectPaths(l.dir, l.playlist, l.segments, Join(TmpDir, videoId + "_temp.mp4"))
  }

  function DirectFetchArgs(url: string, p: DirectPaths): seq<string>
  {
    [ "-f", "bestvideo[ext=mp4]+bestaudio[ext=m4a]/best[ext=mp4]/best",
      "--merge-output-format", "mp4", "-o", p.temp, url ]
  }

  function DirectEncodeArgs(p: DirectPaths): seq<string>
  {
    [ "-i", p.temp, "-c:v", "libx264", "-c:a", "aac", "-preset", "veryfast", "-crf", "23",
      "-sc_threshold", "0", "-g", "48", "-keyint_min", "48",
      "-hls_time", "10", "-hls_list_size", "0", "-hls_segment_filename", p.segments,
      "-f", "hls", p.playlist ]
  }

  /** The direct job segments like the converters, except that it leaves the
      numbering to ffmpeg's default, and reads the downloaded temp file. */
  lemma DirectSegmenting(p: DirectPaths)
    ensures OptionValue(DirectEncodeArgs(p), "-i") == Some(p.temp)
    ensures OptionValue(DirectEncodeArgs(p), "-hls_time") == Some("10")
    ensures OptionValue(DirectEncodeArgs(p), "-hls_list_size") == Some("0")
    ensures OptionValue(DirectEncodeArgs(p), "-hls_segment_filename") == Some(p.segments)
    ensures DirectEncodeArgs(p)[|DirectEncodeArgs(p)| - 1] == p.playlist
  {
    var a := DirectEncodeArgs(p);
    SkipTo(a, "-hls_time", 16);
    SkipTo(a, "-hls_list_size", 18);
    DirectSegmentNames(p);
  }

  /** Unlike the converters, the direct job never sets the first segment
      number. */
  lemma DirectNumbering(p: DirectPaths)
    ensures OptionValue(DirectEncodeArgs(p), "-start_number") == None
  {
    var a := DirectEncodeArgs(p);
    assert |a| == 25;
    SkipTo(a, "-start_number", 24);
  }

  lemma DirectSegmentNames(p: DirectPaths)
    ensures OptionValue(DirectEncodeArgs(p), "-hls_segment_filename") == Some(p.segments)
  {
    var a := DirectEncodeArgs(p);
    assert a[20] == "-hls_segment_filename";
    SkipTo(a, "-hls_segment_filename", 20);
  }

  /** The program spawned for ffmpeg: the ffmpeg-static binary when it has a
      path, "ffmpeg" otherwise. */
  function FfmpegProgram(staticPath: Option<string>): (program: string)
    ensures program != ""
    ensures staticPath.Some? && staticPath.value != "" ==> program == staticPath.value
    ensures program == "ffmpeg" || staticPath == Some(program)
  {
    if staticPath.Some? && staticPath.value != "" then staticPath.value else "ffmpeg"
  }

  /** The five effects of a job that gets as far as it can, in order. */
  function DirectSteps(url: string, p: DirectPaths, staticPath: Option<string>): seq<Effect>
  {
    [ MakeDir(TmpDir), MakeDir(p.outputDir),
      Exec("yt-dlp", DirectFetchArgs(url, p)),
      Exec(FfmpegProgram(staticPath), DirectEncodeArgs(p)),
      Unlink(p.temp) ]
  }

  predicate DownloadSucceeded(o: SpawnOutcome)
  {
    o.Closed? && o.status == Code(0)
  }

  /** downloadAndConvertToHLS against a world s, given how the yt-dlp and
      ffmpeg runs go and whether the system refuses to delete the temp file. */
  function DirectRun(s: WorldState, url: string, videoId: string, hlsDir: string, staticPath: Option<string>,
                     ytdlp: SpawnOutcome, ffmpeg: SpawnOutcome, refused: bool): (run: Run<string>)
    ensures var p := DirectLayout(hlsDir, videoId);
      && |run.state.trace| == |s.trace| + (if DownloadSucceeded(ytdlp) then 5 else 3)
      && Appended(s, run.state) == DirectSteps(url, p, staticPath)[..|run.state.trace| - |s.trace|]
    // a failed download rejects; ffmpeg is never started and nothing is deleted
    ensures ytdlp.SpawnError? ==> run.result == Err(ytdlp.message)
    ensures ytdlp.Closed? && ytdlp.status != Code(0) ==>
              run.result == Err("yt-dlp exited with code " + ExitText(ytdlp.status))
    // both directories are made before the download
    ensures run.state.dirs == s.dirs + Ancestry(TmpDir) + Ancestry(DirectLayout(hlsDir, videoId).outputDir)
    // recursive mkdir makes the HLS root as well, on the first job as on any other
    ensures hlsDir != "" ==> hlsDir in run.state.dirs
    // once ffmpeg has been started the temp file is deleted, whatever ffmpeg did, unless the
    // deletion is refused; every other file the tools wrote stays
    ensures !DownloadSucceeded(ytdlp) ==> run.state.files == s.files + Creates(ytdlp)
    ensures DownloadSucceeded(ytdlp) ==>
              run.state.files == s.files + Creates(ytdlp) + Creates(ffmpeg)
                                 - (if refused then {} else {DirectLayout(hlsDir, videoId).temp})
    ensures DownloadSucceeded(ytdlp) && !refused ==> DirectLayout(hlsDir, videoId).temp !in run.state.files
    ensures DownloadSucceeded(ytdlp) && ffmpeg.SpawnError? ==> run.result == Err(ffmpeg.message)
    ensures DownloadSucceeded(ytdlp) && ffmpeg.Closed? && ffmpeg.status != Code(0) ==>
              run.result == Err("ffmpeg exited with code " + ExitText(ffmpeg.status))
    ensures run.result.Ok? <==> DownloadSucceeded(ytdlp) && DownloadSucceeded(ffmpeg)
    ensures run.result.Ok? ==> run.result.value == DirectLayout(hlsDir, videoId).playlist
  {
    var p := DirectLayout(hlsDir, videoId);
    var steps := DirectSteps(url, p, staticPath);
    assert hlsDir != "" ==> hlsDir in Ancestry(p.outputDir) by {
      assert p.outputDir == hlsDir + "/" + videoId;
      assert hlsDir == p.outputDir[..|hlsDir|];
      AncestryMeaning(p.outputDir, hlsDir);
    }
    var s1 := s.AfterMakeDir(TmpDir).AfterMakeDir(p.outputDir).AfterExec("yt-dlp", steps[2].args, Creates(ytdlp));
    match ytdlp
    case SpawnError(m) => Run(s1, Err(m))
    case Closed(code, _) =>
      if code != Code(0) then Run(s1, Err("yt-dlp exited with code " + ExitText(code)))
      else
        var s2 := s1.AfterExec(steps[3].program, steps[3].args, Creates(ffmpeg)).AfterUnlink(p.temp, refused);
        match ffmpeg
        case SpawnError(m) => Run(s2, Err(m))
        case Closed(code', _) =>
          if code' == Code(0) then Run(s2, Ok(p.playlist))
          else Run(s2, Err("ffmpeg exited with code " + ExitText(code')))
  }

  /** A failed deletion of the temp file does not change the outcome: the
      result is the same whether the file was there to delete or not, and
      whether the system refused the deletion or not. */
  lemma DeletionFailureIgnored(s: WorldState, url: string, videoId: string, hlsDir: string,
                               staticPath: Option<string>, ytdlp: SpawnOutcome, ffmpeg: SpawnOutcome,
                               refused: bool, refused': bool)
    ensures var p := DirectLayout(hlsDir, videoId);
            DirectRun(s.(files := s.files + {p.temp}), url, videoId, hlsDir, staticPath, ytdlp, ffmpeg, refused).result
            == DirectRun(s.(files := s.files - {p.temp}), url, videoId, hlsDir, staticPath, ytdlp, ffmpeg, refused').result
  {
  }

  /** downloadAndConvertToHLS(videoUrl, videoId, hlsDir). */
  method DownloadAndConvertToHls(w: World, url: string, videoId: string, hlsDir: string, staticPath: Option<string>,
                                 ytdlp: SpawnOutcome, ffmpeg: SpawnOutcome, refused: bool)
    returns (r: Result<string>)
    modifies w
    ensures Run(w.State(), r) == DirectRun(old(w.State()), url, videoId, hlsDir, staticPath, ytdlp, ffmpeg, refused)
  {
    var p := DirectLayout(hlsDir, videoId);
    ghost var steps := DirectSteps(url, p, staticPath);
    w.MakeDir(TmpDir);
    w.MakeDir(p.outputDir);
    w.Exec("yt-dlp", DirectFetchArgs(url, p), Creates(ytdlp));
    assert w.State() == old(w.State()).AfterMakeDir(TmpDir).AfterMakeDir(p.outputDir)
                        .AfterExec("yt-dlp", steps[2].args, Creates(ytdlp));
    if ytdlp.SpawnError? {
      return Err(ytdlp.message);
    }
    if ytdlp.status != Code(0) {
      return Err("yt-dlp exited with code " + ExitText(ytdlp.status));
    }
    w.Exec(FfmpegProgram(staticPath), DirectEncodeArgs(p), Creates(ffmpeg));
    // the deletion is attempted on every ffmpeg outcome and its failure is swallowed
    var _ := w.Unlink(p.temp, refused);
    if ffmpeg.SpawnError? {
      return Err(ffmpeg.message);
    }
    if ffmpeg.status == Code(0) {
      return Ok(p.playlist);
    }
    return Err("ffmpeg exited with code " + ExitText(ffmpeg.status));
  }
}
